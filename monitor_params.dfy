/** The desired monitor document (DogTrainer::API#params_for_monitor) and the
    option resolution that upsert_monitor performs before building it. */
module MonitorParams {
  import opened Values
  import opened Messages

  /** The options hash accepted by params_for_monitor. */
  datatype ParamOptions = ParamOptions(
    escalationMessage: Opt<Value>,
    alertNoData: Opt<Value>,
    monType: Opt<Value>,
    renotifyInterval: Opt<Value>)

  /** The options hash accepted by upsert_monitor. */
  datatype MonitorOptions = MonitorOptions(
    alertNoData: Opt<Value>,
    monType: Opt<Value>,
    renotifyInterval: Opt<Value>,
    message: Opt<Value>,
    escalationMessage: Opt<Value>)

  const MetricAlert := VStr("metric alert")

  /** `options[key]` after the defaulting lines: a missing key reads as nil. */
  function Read(o: Opt<Value>): Value
  {
    if o.Given? then o.value else VNull
  }

  /** `options[key] = default unless options.key?(key)`: only a missing key
      is defaulted; a key given as nil keeps nil. */
  function OrDefault(o: Opt<Value>, default: Value): Opt<Value>
  {
    if o.Absent? then Given(default) else o
  }

  /** The three defaulting assignments at the top of params_for_monitor. */
  function WithDefaults(o: ParamOptions): ParamOptions
  {
    o.(alertNoData := OrDefault(o.alertNoData, VBool(true)),
       monType := OrDefault(o.monType, MetricAlert),
       renotifyInterval := OrDefault(o.renotifyInterval, VNum(60.0)))
  }

  /** A bare threshold is the critical one; a hash of thresholds is used as it is. */
  function Thresholds(threshold: Value): Value
  {
    if threshold.VHash? then threshold else VHash(map["critical" := threshold])
  }

  /** The top-level keys of the document, in the order the diff walks them. */
  const MonitorKeyOrder: seq<string> := ["name", "type", "query", "message", "tags", "options"]

  function ParamsForMonitor(name: string, message: Value, query: string, threshold: Value,
                            options: ParamOptions): map<string, Value>
  {
    var o := WithDefaults(options);
    var bag := map[
      "notify_audit" := VBool(false),
      "locked" := VBool(false),
      "timeout_h" := VNum(0.0),
      "silenced" := VHash(map[]),
      "thresholds" := Thresholds(threshold),
      "require_full_window" := VBool(false),
      "notify_no_data" := Read(o.alertNoData),
      "renotify_interval" := Read(o.renotifyInterval),
      "no_data_timeframe" := VNum(20.0)];
    var esc := Read(o.escalationMessage);
    map[
      "name" := VStr(name),
      "type" := Read(o.monType),
      "query" := VStr(query),
      "message" := message,
      "tags" := VList([]),
      "options" := VHash(if esc == VNull then bag else bag["escalation_message" := esc])]
  }

  /** The `options` sub-hash of a monitor document. */
  function OptionsBag(doc: map<string, Value>): map<string, Value>
  {
    Fields(Get(doc, "options"))
  }

  /** The document has exactly the six top-level keys of MonitorKeyOrder. */
  lemma ParamsKeys(name: string, message: Value, query: string, threshold: Value, options: ParamOptions)
    ensures forall k :: k in ParamsForMonitor(name, message, query, threshold, options) <==> k in MonitorKeyOrder
  {
  }

  /** A bare threshold value t becomes {'critical' => t}. */
  lemma BareThresholdIsCritical(name: string, message: Value, query: string, threshold: Value, options: ParamOptions)
    requires !threshold.VHash?
    ensures Get(OptionsBag(ParamsForMonitor(name, message, query, threshold, options)), "thresholds")
         == VHash(map["critical" := threshold])
  {
  }

  /** A hash of thresholds is passed through unchanged. */
  lemma ThresholdHashPassesThrough(name: string, message: Value, query: string, threshold: Value, options: ParamOptions)
    requires threshold.VHash?
    ensures Get(OptionsBag(ParamsForMonitor(name, message, query, threshold, options)), "thresholds") == threshold
  {
  }

  /** name, query and message are taken as given, and tags are empty. */
  lemma ParamsFixedFields(name: string, message: Value, query: string, threshold: Value, options: ParamOptions)
    ensures var doc := ParamsForMonitor(name, message, query, threshold, options);
      && Get(doc, "name") == VStr(name) && Get(doc, "query") == VStr(query)
      && Get(doc, "message") == message && Get(doc, "tags") == VList([])
  {
  }

  /** The fixed option fields are the same constants for every monitor. */
  lemma OptionsFixedFields(name: string, message: Value, query: string, threshold: Value, options: ParamOptions)
    ensures var bag := OptionsBag(ParamsForMonitor(name, message, query, threshold, options));
      && Get(bag, "notify_audit") == VBool(false) && Get(bag, "locked") == VBool(false)
      && Get(bag, "timeout_h") == VNum(0.0) && Get(bag, "silenced") == VHash(map[])
      && Get(bag, "require_full_window") == VBool(false) && Get(bag, "no_data_timeframe") == VNum(20.0)
  {
  }

  /** A missing alert_no_data, mon_type or renotify_interval becomes true,
      'metric alert' or 60; a given one (nil included) is used as it is. */
  lemma ParamsDefaults(name: string, message: Value, query: string, threshold: Value, options: ParamOptions)
    ensures var doc := ParamsForMonitor(name, message, query, threshold, options);
      var bag := OptionsBag(doc);
      && Get(bag, "notify_no_data") == (if options.alertNoData.Absent? then VBool(true) else options.alertNoData.value)
      && Get(doc, "type") == (if options.monType.Absent? then MetricAlert else options.monType.value)
      && Get(bag, "renotify_interval")
         == (if options.renotifyInterval.Absent? then VNum(60.0) else options.renotifyInterval.value)
  {
  }

  /** The escalation_message key is present exactly when a non-nil
      escalation was supplied, and then holds it. */
  lemma EscalationKeyIffGiven(name: string, message: Value, query: string, threshold: Value, options: ParamOptions)
    ensures var bag := OptionsBag(ParamsForMonitor(name, message, query, threshold, options));
      && ("escalation_message" in bag <==> Read(options.escalationMessage) != VNull)
      && Get(bag, "escalation_message") == Read(options.escalationMessage)
  {
  }

  /** upsert_monitor: defaults, generated texts, then the document. */
  function UpsertParams(name: string, query: string, threshold: Value, comparator: string,
                        options: MonitorOptions, repoPath: string, notifyTo: string): map<string, Value>
  {
    var alertNoData := OrDefault(options.alertNoData, VBool(true));
    var monType := OrDefault(options.monType, MetricAlert);
    var renotify := OrDefault(options.renotifyInterval, VNum(60.0));
    var texts := GenerateMessages(name, comparator, Read(monType), repoPath, notifyTo);
    var message := if Read(options.message) == VNull then VStr(texts.message) else options.message.value;
    var escalation := if options.escalationMessage.Given? then options.escalationMessage.value
                      else VStr(texts.escalation);
    ParamsForMonitor(name, message, query, threshold,
                     ParamOptions(Given(escalation), alertNoData, monType, renotify))
  }

  /** The upsert document has the six keys the diff walks. */
  lemma UpsertParamsKeys(name: string, query: string, threshold: Value, comparator: string,
                         options: MonitorOptions, repoPath: string, notifyTo: string)
    ensures forall k :: k in UpsertParams(name, query, threshold, comparator, options, repoPath, notifyTo)
                        <==> k in MonitorKeyOrder
  {
  }

  /** The upsert document names the monitor and its query, with the
      resolved monitor type and thresholds. */
  lemma UpsertParamsHeader(name: string, query: string, threshold: Value, comparator: string,
                           options: MonitorOptions, repoPath: string, notifyTo: string)
    ensures var doc := UpsertParams(name, query, threshold, comparator, options, repoPath, notifyTo);
      && Get(doc, "name") == VStr(name) && Get(doc, "query") == VStr(query)
      && Get(doc, "type") == Read(OrDefault(options.monType, MetricAlert))
      && Get(OptionsBag(doc), "thresholds") == Thresholds(threshold)
  {
  }

  /** The texts upsert_monitor generates for these options. */
  function GeneratedTexts(name: string, comparator: string, options: MonitorOptions,
                          repoPath: string, notifyTo: string): Texts
  {
    GenerateMessages(name, comparator, Read(OrDefault(options.monType, MetricAlert)), repoPath, notifyTo)
  }

  /** The message is the override when options[:message] is non-nil, else the generated one. */
  lemma UpsertMessageResolution(name: string, query: string, threshold: Value, comparator: string,
                                options: MonitorOptions, repoPath: string, notifyTo: string)
    ensures Get(UpsertParams(name, query, threshold, comparator, options, repoPath, notifyTo), "message")
         == if Read(options.message) != VNull then options.message.value
            else VStr(GeneratedTexts(name, comparator, options, repoPath, notifyTo).message)
  {
  }

  /** The escalation is tri-state: an absent key gives the generated text, a
      key given as nil gives no escalation_message at all, and any other
      given value is used verbatim. */
  lemma UpsertEscalationTriState(name: string, query: string, threshold: Value, comparator: string,
                                 options: MonitorOptions, repoPath: string, notifyTo: string)
    ensures var bag := OptionsBag(UpsertParams(name, query, threshold, comparator, options, repoPath, notifyTo));
      && (options.escalationMessage.Absent? ==>
            "escalation_message" in bag
            && bag["escalation_message"] == VStr(GeneratedTexts(name, comparator, options, repoPath, notifyTo).escalation))
      && (options.escalationMessage == Given(VNull) ==> "escalation_message" !in bag)
      && (options.escalationMessage.Given? && options.escalationMessage.value != VNull ==>
            "escalation_message" in bag && bag["escalation_message"] == options.escalationMessage.value)
  {
  }
}
