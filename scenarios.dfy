/** End-to-end statements that combine the message generator, the monitor
    document and the reconciler. */
module Scenarios {
  import opened Values
  import opened Messages
  import opened MonitorParams
  import opened Remote
  import Reconcile

  /** upsert_monitor called with no options hash. */
  const NoOptions := MonitorOptions(Absent, Absent, Absent, Absent, Absent)

  const ScenarioQuery := "avg(last_5m):q > 100"

  /** The document upsert_monitor("mname", query, 123.4, ">=") builds. */
  function ScenarioDocument(repoPath: string, notifyTo: string): map<string, Value>
  {
    UpsertParams("mname", ScenarioQuery, VNum(123.4), ">=", NoOptions, repoPath, notifyTo)
  }

  /** A 'metric alert' for the query. */
  lemma ScenarioDocumentHeader(repoPath: string, notifyTo: string)
    ensures Get(ScenarioDocument(repoPath, notifyTo), "type") == MetricAlert
    ensures Get(ScenarioDocument(repoPath, notifyTo), "query") == VStr(ScenarioQuery)
  {
    UpsertParamsHeader("mname", ScenarioQuery, VNum(123.4), ">=", NoOptions, repoPath, notifyTo);
  }

  /** The bare threshold 123.4 is the critical threshold. */
  lemma ScenarioDocumentThresholds(repoPath: string, notifyTo: string)
    ensures Get(OptionsBag(ScenarioDocument(repoPath, notifyTo)), "thresholds") == VHash(map["critical" := VNum(123.4)])
  {
    UpsertParamsHeader("mname", ScenarioQuery, VNum(123.4), ">=", NoOptions, repoPath, notifyTo);
  }

  /** The message is the generated one, naming the metric and the comparator. */
  lemma ScenarioDocumentMessage(repoPath: string, notifyTo: string)
    ensures var message := Get(ScenarioDocument(repoPath, notifyTo), "message");
      && message == VStr(GenerateMessages("mname", ">=", MetricAlert, repoPath, notifyTo).message)
      && Contains(message.s, Quoted("mname"))
      && Contains(message.s, ShouldBe(">="))
  {
    UpsertMessageResolution("mname", ScenarioQuery, VNum(123.4), ">=", NoOptions, repoPath, notifyTo);
    MessageNamesMetric("mname", ">=", MetricAlert, repoPath, notifyTo);
    ThresholdMessageUsesComparator("mname", ">=", MetricAlert, repoPath, notifyTo);
  }

  /** Against an empty cache and a remote with no monitor of that name, the
      upsert lists once, creates once, and returns the created id. */
  lemma CreateOnFirstUpsert(script: Script, desired: map<string, Value>, name: string)
    requires |script.monitors| > 0
    requires forall j :: 0 <= j < |script.monitors| ==> Field(script.monitors[j], "name") != VStr(name)
    ensures var s := Reconcile.UpsertMonitor(None, script, desired, name);
      && s.result == Ok(Reconcile.CreatedId(script.createMonitorReply))
      && s.calls == [Call.GetAllMonitors("all"), CreateMonitor(Get(desired, "type"), Get(desired, "query"), desired)]
  {
    Reconcile.UpsertCreatesOnMiss(None, script, desired, name);
  }

  /** Against a remote with no monitor named "mname" and an empty cache, the
      only calls are the list call and one create of the scenario document,
      and the result is the id the create returns. */
  lemma UpsertNewMonitorScenario(script: Script, repoPath: string, notifyTo: string)
    requires |script.monitors| > 0
    requires forall j :: 0 <= j < |script.monitors| ==> Field(script.monitors[j], "name") != VStr("mname")
    ensures var desired := ScenarioDocument(repoPath, notifyTo);
      var s := Reconcile.UpsertMonitor(None, script, desired, "mname");
      && s.result == Ok(Reconcile.CreatedId(script.createMonitorReply))
      && s.calls == [Call.GetAllMonitors("all"), CreateMonitor(MetricAlert, VStr(ScenarioQuery), desired)]
  {
    ScenarioDocumentHeader(repoPath, notifyTo);
    CreateOnFirstUpsert(script, ScenarioDocument(repoPath, notifyTo), "mname");
  }
}
