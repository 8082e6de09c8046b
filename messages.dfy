/** Alert and escalation texts of a monitor (DogTrainer::API#generate_messages).
    The `{{...}}` tokens are directives of Datadog's template engine and are
    reproduced literally, newlines included. */
module Messages {
  import opened Values

  datatype Texts = Texts(message: string, escalation: string)

  const ServiceCheck := VStr("service check")

  /** The metric description in single quotes, as every section shows it. */
  function Quoted(metricDesc: string): string
  {
    "'" + metricDesc + "'"
  }

  /** The suffix naming where the monitor is managed and whom to notify. */
  function ManagedBy(repoPath: string, notifyTo: string): string
  {
    "(monitor and threshold configuration for this alert is managed by " + repoPath + ") " + notifyTo
  }

  /** The four sections of a service-check message, before the suffix. */
  function ServiceCheckSections(d: string): string
  {
    ServiceAlert(d) + ServiceWarning(d) + ServiceRecovery(d) + ServiceNoData(d)
  }

  function ServiceAlert(d: string): string
  {
    "{{#is_alert}}" + Quoted(d) + " is FAILING: {{check_message}}{{/is_alert}}\n"
  }

  function ServiceWarning(d: string): string
  {
    "{{#is_warning}}" + Quoted(d) + " is WARNING: {{check_message}}{{/is_warning}}\n"
  }

  function ServiceRecovery(d: string): string
  {
    "{{#is_recovery}}" + Quoted(d) + " recovered: {{check_message}}{{/is_recovery}}\n"
  }

  function ServiceNoData(d: string): string
  {
    "{{#is_no_data}}" + Quoted(d) + " is not reporting data{{/is_no_data}}\n"
  }

  /** The alert and recovery sections of a threshold message, before the suffix. */
  function ThresholdSections(d: string, comparison: string): string
  {
    ThresholdAlert(d, comparison) + ThresholdRecovery(d, comparison)
  }

  /** What the alert section says the value should be. */
  function ShouldBe(comparison: string): string
  {
    " should be " + comparison
  }

  function ThresholdAlert(d: string, comparison: string): string
  {
    "{{#is_alert}}" + Quoted(d) + ShouldBe(comparison) + " {{threshold}}, but is {{value}}.{{/is_alert}}\n"
  }

  function ThresholdRecovery(d: string, comparison: string): string
  {
    "{{#is_recovery}}" + Quoted(d) + " recovered " + CurrentValueIs + comparison
    + " threshold of {{threshold}}).{{/is_recovery}}\n"
  }

  const StillInError := " is still in error state"

  /** Shared by the recovery section and the threshold escalation. */
  const CurrentValueIs := " (current value {{value}} is "

  /** generate_messages: a service check gets the four-section text, every
      other monitor type the threshold text. */
  function GenerateMessages(metricDesc: string, comparison: string, monType: Value,
                            repoPath: string, notifyTo: string): Texts
  {
    if monType == ServiceCheck then
      Texts(ServiceCheckSections(metricDesc) + ManagedBy(repoPath, notifyTo),
            Quoted(metricDesc) + StillInError + ": {{check_message}}")
    else
      Texts(ThresholdSections(metricDesc, comparison) + ManagedBy(repoPath, notifyTo),
            Quoted(metricDesc) + StillInError + CurrentValueIs + comparison
            + " threshold of {{threshold}})")
  }

  /** Every generated message ends with the provenance and notification suffix. */
  lemma MessageEndsWithProvenance(d: string, c: string, t: Value, repoPath: string, notifyTo: string)
    ensures EndsWith(GenerateMessages(d, c, t, repoPath, notifyTo).message, ManagedBy(repoPath, notifyTo))
  {
    if t == ServiceCheck {
      EndsWithConcat(ServiceCheckSections(d), ManagedBy(repoPath, notifyTo));
    } else {
      EndsWithConcat(ThresholdSections(d, c), ManagedBy(repoPath, notifyTo));
    }
  }

  /** Every escalation text starts by naming the metric and saying it is still failing. */
  lemma EscalationNamesMetric(d: string, c: string, t: Value, repoPath: string, notifyTo: string)
    ensures StartsWith(GenerateMessages(d, c, t, repoPath, notifyTo).escalation, Quoted(d) + StillInError)
  {
    var p := Quoted(d) + StillInError;
    if t == ServiceCheck {
      StartsWithConcat(p, ": {{check_message}}");
    } else {
      var rest := CurrentValueIs + c + " threshold of {{threshold}})";
      assert p + CurrentValueIs + c + " threshold of {{threshold}})" == p + rest;
      StartsWithConcat(p, rest);
    }
  }

  /** Every generated message names the metric in quotes, in its first section. */
  lemma MessageNamesMetric(d: string, c: string, t: Value, repoPath: string, notifyTo: string)
    ensures Contains(GenerateMessages(d, c, t, repoPath, notifyTo).message, Quoted(d))
  {
    if t == ServiceCheck {
      ServiceCheckNamesMetric(d, ManagedBy(repoPath, notifyTo));
    } else {
      ThresholdNamesMetric(d, c, ManagedBy(repoPath, notifyTo));
    }
  }

  lemma ServiceCheckNamesMetric(d: string, suffix: string)
    ensures Contains(ServiceCheckSections(d) + suffix, Quoted(d))
  {
    var q := Quoted(d);
    ContainsSuffix("{{#is_alert}}", q);
    ContainsInPrefix("{{#is_alert}}" + q, " is FAILING: {{check_message}}{{/is_alert}}\n", q);
    ContainsInPrefix(ServiceAlert(d), ServiceWarning(d), q);
    ContainsInPrefix(ServiceAlert(d) + ServiceWarning(d), ServiceRecovery(d), q);
    ContainsInPrefix(ServiceAlert(d) + ServiceWarning(d) + ServiceRecovery(d), ServiceNoData(d), q);
    ContainsInPrefix(ServiceCheckSections(d), suffix, q);
  }

  lemma ThresholdNamesMetric(d: string, c: string, suffix: string)
    ensures Contains(ThresholdSections(d, c) + suffix, Quoted(d))
  {
    var q := Quoted(d);
    ContainsSuffix("{{#is_alert}}", q);
    ContainsInPrefix("{{#is_alert}}" + q, ShouldBe(c), q);
    ContainsInPrefix("{{#is_alert}}" + q + ShouldBe(c), " {{threshold}}, but is {{value}}.{{/is_alert}}\n", q);
    ContainsInPrefix(ThresholdAlert(d, c), ThresholdRecovery(d, c), q);
    ContainsInPrefix(ThresholdSections(d, c), suffix, q);
  }

  /** A threshold monitor's message says what the value should be, with the comparator. */
  lemma ThresholdMessageUsesComparator(d: string, c: string, t: Value, repoPath: string, notifyTo: string)
    requires t != ServiceCheck
    ensures Contains(GenerateMessages(d, c, t, repoPath, notifyTo).message, ShouldBe(c))
  {
    var p := ShouldBe(c);
    ContainsSuffix("{{#is_alert}}" + Quoted(d), p);
    ContainsInPrefix("{{#is_alert}}" + Quoted(d) + p, " {{threshold}}, but is {{value}}.{{/is_alert}}\n", p);
    ContainsInPrefix(ThresholdAlert(d, c), ThresholdRecovery(d, c), p);
    ContainsInPrefix(ThresholdSections(d, c), ManagedBy(repoPath, notifyTo), p);
  }

  /** A threshold monitor's escalation says what the value now is, with the comparator. */
  lemma ThresholdEscalationUsesComparator(d: string, c: string, t: Value, repoPath: string, notifyTo: string)
    requires t != ServiceCheck
    ensures Contains(GenerateMessages(d, c, t, repoPath, notifyTo).escalation, CurrentValueIs + c)
  {
    var a := Quoted(d) + StillInError;
    var b := " threshold of {{threshold}})";
    assert a + CurrentValueIs + c + b == a + (CurrentValueIs + c) + b;
    ContainsMiddle(a, CurrentValueIs + c, b);
  }

  /** A service check's texts do not depend on the comparator at all. */
  lemma ServiceCheckIgnoresComparator(d: string, c1: string, c2: string, repoPath: string, notifyTo: string)
    ensures GenerateMessages(d, c1, ServiceCheck, repoPath, notifyTo)
         == GenerateMessages(d, c2, ServiceCheck, repoPath, notifyTo)
  {
  }

  /** Only the literal type 'service check' is special: every other type,
      including the default 'metric alert', gets the same threshold texts. */
  lemma OtherTypesShareThresholdTexts(d: string, c: string, t: Value, repoPath: string, notifyTo: string)
    requires t != ServiceCheck
    ensures GenerateMessages(d, c, t, repoPath, notifyTo)
         == GenerateMessages(d, c, VStr("metric alert"), repoPath, notifyTo)
  {
  }
}
