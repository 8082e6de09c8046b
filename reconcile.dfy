/** What each DogTrainer::API operation does, as a function of the cache
    field it reads and the remote's replies: its result, the cache field
    afterwards, and the client calls it makes, in order. The methods of
    Api.API are proved to do exactly this; the lemmas below are the
    properties the reconciler promises. */
module Reconcile {
  import opened Values
  import opened Lookup
  import opened Diff
  import opened Remote

  datatype Step<T> = Step(result: Result<T>, cache: Option<seq<Value>>, calls: seq<Call>)

  /*** Resource caches ***/

  /** A lazily filled cache: the list call is made only while the cache is
      nil. The fetched list is stored before it is checked, and an empty
      first fetch is fatal. */
  function Fill(cache: Option<seq<Value>>, fetched: seq<Value>, listCall: Call, failure: Failure): Step<seq<Value>>
  {
    match cache
    case Some(records) => Step(Ok(records), cache, [])
    case None => Step(if |fetched| == 0 then Err(failure) else Ok(fetched), Some(fetched), [listCall])
  }

  /** get_monitors. */
  function GetMonitors(cache: Option<seq<Value>>, script: Script): Step<seq<Value>>
  {
    Fill(cache, script.monitors, Call.GetAllMonitors("all"), NoExistingMonitors)
  }

  /** The board caches of get_existing_timeboard_by_name and get_existing_screenboard_by_name. */
  function GetBoards(kind: BoardKind, cache: Option<seq<Value>>, script: Script): Step<seq<Value>>
  {
    Fill(cache, Summaries(kind, script), Call.ListBoards(kind), NoExistingBoards(kind))
  }

  /** The first call fills the cache with one list call; every later call,
      whatever the remote would now answer, returns the cached list and makes
      no call. */
  lemma FillsOnce(cache: Option<seq<Value>>, fetched: seq<Value>, later: seq<Value>, listCall: Call, failure: Failure)
    ensures var first := Fill(cache, fetched, listCall, failure);
      var second := Fill(first.cache, later, listCall, failure);
      && first.cache.Some?
      && first.calls == (if cache.None? then [listCall] else [])
      && second == Step(Ok(first.cache.value), first.cache, [])
  {
  }

  /** An empty first fetch is fatal. As written, the empty list has already
      been stored, so a caller that rescues the error gets the empty list
      from the next call, with no error and no call. */
  lemma EmptyFirstFetchIsFatal(fetched: seq<Value>, listCall: Call, failure: Failure)
    requires |fetched| == 0
    ensures Fill(None, fetched, listCall, failure) == Step(Err(failure), Some([]), [listCall])
    ensures Fill(Some([]), fetched, listCall, failure) == Step(Ok([]), Some([]), [])
  {
  }

  /** get_existing_monitor_by_name: the first monitor with that name, or nil. */
  function MonitorByName(cache: Option<seq<Value>>, script: Script, name: string): Step<Value>
  {
    var fill := GetMonitors(cache, script);
    match fill.result
    case Err(f) => Step(Err(f), fill.cache, fill.calls)
    case Ok(records) => Step(Ok(FirstRecord(records, "name", VStr(name))), fill.cache, fill.calls)
  }

  /** The lookup finds the first monitor whose name is the target, and nil
      exactly when no monitor has that name. */
  lemma MonitorByNameFindsFirst(cache: Option<seq<Value>>, script: Script, name: string)
    requires GetMonitors(cache, script).result.Ok?
    ensures var records := GetMonitors(cache, script).result.value;
      var found := MonitorByName(cache, script, name).result.value;
      && (found == VNull <==> forall j :: 0 <= j < |records| ==> Field(records[j], "name") != VStr(name))
      && (found != VNull ==>
            exists i :: 0 <= i < |records| && found == records[i] && Field(records[i], "name") == VStr(name)
              && forall j :: 0 <= j < i ==> Field(records[j], "name") != VStr(name))
  {
    var records := GetMonitors(cache, script).result.value;
    FirstIndexIsFirstMatch(records, "name", VStr(name));
    match FirstIndex(records, "name", VStr(name))
    case None =>
    case Some(i) =>
      assert Field(records[i], "name") == VStr(name);
      assert records[i] != VNull;
  }

  /** Two lookups of any two names, starting from an empty cache, make
      exactly one list call between them. */
  lemma TwoLookupsOneListCall(script: Script, a: string, b: string)
    ensures var first := MonitorByName(None, script, a);
      var second := MonitorByName(first.cache, script, b);
      first.calls + second.calls == [Call.GetAllMonitors("all")]
  {
  }

  /*** Monitor reconciler ***/

  /** create_monitor's answer: the new id on status '200', nil otherwise. */
  function CreatedId(reply: Reply): Value
  {
    if reply.status == Status200 then Field(reply.body, "id") else VNull
  }

  /** The create call create_monitor makes for a document. */
  function CreateCall(params: map<string, Value>): Call
  {
    CreateMonitor(Get(params, "type"), Get(params, "query"), params)
  }

  /** upsert_monitor, once the desired document is built. */
  function UpsertMonitor(cache: Option<seq<Value>>, script: Script, desired: map<string, Value>, name: string): Step<Value>
  {
    var lookup := MonitorByName(cache, script, name);
    match lookup.result
    case Err(f) => Step(Err(f), lookup.cache, lookup.calls)
    case Ok(monitor) =>
      if monitor == VNull then
        Step(Ok(CreatedId(script.createMonitorReply)), lookup.cache, lookup.calls + [CreateCall(desired)])
      else
        var id := Field(monitor, "id");
        if InSync(desired, Fields(monitor)) then
          Step(Ok(id), lookup.cache, lookup.calls)
        else
          Step(Ok(if script.updateMonitorReply.status == Status200 then id else VNull),
               lookup.cache, lookup.calls + [Call.UpdateMonitor(id, Get(desired, "query"), desired)])
  }

  /** When no monitor has the name, exactly one create call is made and its
      answer is returned. */
  lemma UpsertCreatesOnMiss(cache: Option<seq<Value>>, script: Script, desired: map<string, Value>, name: string)
    requires GetMonitors(cache, script).result.Ok?
    requires var records := GetMonitors(cache, script).result.value;
      forall j :: 0 <= j < |records| ==> Field(records[j], "name") != VStr(name)
    ensures var s := UpsertMonitor(cache, script, desired, name);
      && s.calls == GetMonitors(cache, script).calls + [CreateCall(desired)]
      && s.result == Ok(CreatedId(script.createMonitorReply))
  {
    MonitorByNameFindsFirst(cache, script, name);
  }

  /** For a found monitor, an update is issued iff some desired key is
      missing from, or different in, the record; without one the existing id
      is returned and no create or update call is made; with one the id is
      returned on status '200' and nil on any other status. */
  lemma UpsertFoundMonitor(cache: Option<seq<Value>>, script: Script, desired: map<string, Value>, name: string,
                           i: nat)
    requires GetMonitors(cache, script).result.Ok?
    requires var records := GetMonitors(cache, script).result.value;
      && i < |records| && Field(records[i], "name") == VStr(name)
      && forall j :: 0 <= j < i ==> Field(records[j], "name") != VStr(name)
    ensures var monitor := GetMonitors(cache, script).result.value[i];
      var id := Field(monitor, "id");
      var s := UpsertMonitor(cache, script, desired, name);
      && (InSync(desired, Fields(monitor)) ==>
            s.calls == GetMonitors(cache, script).calls && s.result == Ok(id))
      && (!InSync(desired, Fields(monitor)) ==>
            && s.calls == GetMonitors(cache, script).calls + [Call.UpdateMonitor(id, Get(desired, "query"), desired)]
            && s.result == Ok(if script.updateMonitorReply.status == Status200 then id else VNull))
  {
    var records := GetMonitors(cache, script).result.value;
    FirstIndexIsFirstMatch(records, "name", VStr(name));
    var k := FirstIndex(records, "name", VStr(name)).value;
    assert k == i;
    assert records[i] != VNull;
  }

  /** Upserting again with the cache the first upsert left makes no list
      call, whatever the remote now holds and answers (`later`), and looks
      the name up in the same cached list. A monitor found in sync stays a
      no-op with the same id and no call. A monitor found out of date is
      updated again, and the verdict is the new update's status. A monitor
      the first upsert created is missed again, because the cache is never
      refreshed, and created a second time with the new create answer. */
  lemma SecondUpsertRepeatsVerdict(cache: Option<seq<Value>>, script: Script, later: Script,
                                   desired: map<string, Value>, name: string)
    requires GetMonitors(cache, script).result.Ok?
    ensures var first := UpsertMonitor(cache, script, desired, name);
      var second := UpsertMonitor(first.cache, later, desired, name);
      var monitor := FirstRecord(GetMonitors(cache, script).result.value, "name", VStr(name));
      && second.cache == first.cache
      && first.calls == GetMonitors(cache, script).calls + second.calls
      && (monitor == VNull ==>
            second.result == Ok(CreatedId(later.createMonitorReply)))
      && (monitor != VNull && InSync(desired, Fields(monitor)) ==>
            second.calls == [] && second.result == first.result)
      && (monitor != VNull && !InSync(desired, Fields(monitor)) ==>
            second.result == Ok(if later.updateMonitorReply.status == Status200 then Field(monitor, "id") else VNull))
  {
  }

  /*** Mute and unmute ***/

  /** The end argument of mute_monitor: passed only when the timestamp is non-nil. */
  function EndArg(endTimestamp: Value): Option<Value>
  {
    if endTimestamp == VNull then None else Some(endTimestamp)
  }

  /** mute_monitor_by_name: a missed lookup raises and mutes nothing. */
  function MuteMonitorByName(cache: Option<seq<Value>>, script: Script, name: string, endTimestamp: Value): Step<Reply>
  {
    var lookup := MonitorByName(cache, script, name);
    match lookup.result
    case Err(f) => Step(Err(f), lookup.cache, lookup.calls)
    case Ok(monitor) =>
      if monitor == VNull then Step(Err(MonitorNotFound(name)), lookup.cache, lookup.calls)
      else Step(Ok(script.muteReply), lookup.cache,
                lookup.calls + [MuteMonitor(Field(monitor, "id"), EndArg(endTimestamp))])
  }

  /** unmute_monitor_by_name: the same shape, unmuting across all scopes. */
  function UnmuteMonitorByName(cache: Option<seq<Value>>, script: Script, name: string): Step<Reply>
  {
    var lookup := MonitorByName(cache, script, name);
    match lookup.result
    case Err(f) => Step(Err(f), lookup.cache, lookup.calls)
    case Ok(monitor) =>
      if monitor == VNull then Step(Err(MonitorNotFound(name)), lookup.cache, lookup.calls)
      else Step(Ok(script.unmuteReply), lookup.cache,
                lookup.calls + [UnmuteMonitor(Field(monitor, "id"), true)])
  }

  /** A missed name lookup fails with 'Could not find monitor with name X'
      and makes no mute or unmute call. */
  lemma ByNameMissRaises(cache: Option<seq<Value>>, script: Script, name: string, endTimestamp: Value)
    requires GetMonitors(cache, script).result.Ok?
    requires var records := GetMonitors(cache, script).result.value;
      forall j :: 0 <= j < |records| ==> Field(records[j], "name") != VStr(name)
    ensures var mute := MuteMonitorByName(cache, script, name, endTimestamp);
      && mute.result == Err(MonitorNotFound(name)) && mute.calls == GetMonitors(cache, script).calls
    ensures var unmute := UnmuteMonitorByName(cache, script, name);
      && unmute.result == Err(MonitorNotFound(name)) && unmute.calls == GetMonitors(cache, script).calls
    ensures FailureMessage(MonitorNotFound(name)) == "ERROR: Could not find monitor with name " + name
  {
    MonitorByNameFindsFirst(cache, script, name);
  }

  /** A monitor name matches when it is a string the pattern accepts; a
      missing or non-string name never matches (`nil =~ re` is nil). */
  predicate NameMatches(record: Value, matches: string -> bool)
  {
    Field(record, "name").VStr? && matches(Field(record, "name").s)
  }

  /** The ids of the matching monitors, in cache order. */
  function MatchingIds(records: seq<Value>, matches: string -> bool): seq<Value>
    decreases |records|
  {
    if |records| == 0 then []
    else
      var last := records[|records| - 1];
      MatchingIds(records[..|records| - 1], matches)
      + (if NameMatches(last, matches) then [Field(last, "id")] else [])
  }

  /** The mute calls for a list of ids, all with the same end argument. */
  function MuteCalls(ids: seq<Value>, endTimestamp: Value): seq<Call>
    decreases |ids|
  {
    if |ids| == 0 then []
    else MuteCalls(ids[..|ids| - 1], endTimestamp) + [MuteMonitor(ids[|ids| - 1], EndArg(endTimestamp))]
  }

  /** The unmute calls for a list of ids. */
  function UnmuteCalls(ids: seq<Value>): seq<Call>
    decreases |ids|
  {
    if |ids| == 0 then []
    else UnmuteCalls(ids[..|ids| - 1]) + [UnmuteMonitor(ids[|ids| - 1], true)]
  }

  /** mute_monitors_by_regex: one mute per matching monitor; the result is
      the cached list, which is what `get_monitors.each` returns. */
  function MuteMonitorsByRegex(cache: Option<seq<Value>>, script: Script, matches: string -> bool,
                               endTimestamp: Value): Step<seq<Value>>
  {
    var fill := GetMonitors(cache, script);
    match fill.result
    case Err(f) => fill
    case Ok(records) =>
      Step(Ok(records), fill.cache, fill.calls + MuteCalls(MatchingIds(records, matches), endTimestamp))
  }

  /** unmute_monitors_by_regex. */
  function UnmuteMonitorsByRegex(cache: Option<seq<Value>>, script: Script, matches: string -> bool): Step<seq<Value>>
  {
    var fill := GetMonitors(cache, script);
    match fill.result
    case Err(f) => fill
    case Ok(records) => Step(Ok(records), fill.cache, fill.calls + UnmuteCalls(MatchingIds(records, matches)))
  }

  /** Matching distributes over concatenation: the ids for a list are the ids
      for its front followed by the ids for its back. With the one-record
      case this says the calls go exactly to the matching monitors, in cache
      order. */
  lemma {:induction false} MatchingIdsAppend(a: seq<Value>, b: seq<Value>, matches: string -> bool)
    ensures MatchingIds(a + b, matches) == MatchingIds(a, matches) + MatchingIds(b, matches)
    decreases |b|
  {
    if |b| == 0 {
      assert a + b == a;
    } else {
      var b' := b[..|b| - 1];
      assert (a + b)[..|a + b| - 1] == a + b';
      MatchingIdsAppend(a, b', matches);
    }
  }

  lemma MatchingIdsStep(records: seq<Value>, i: nat, matches: string -> bool)
    requires i < |records|
    ensures MatchingIds(records[..i + 1], matches)
         == MatchingIds(records[..i], matches)
            + (if NameMatches(records[i], matches) then [Field(records[i], "id")] else [])
  {
    assert records[..i + 1][..i] == records[..i];
  }

  lemma MuteCallsSnoc(ids: seq<Value>, id: Value, endTimestamp: Value)
    ensures MuteCalls(ids + [id], endTimestamp) == MuteCalls(ids, endTimestamp) + [MuteMonitor(id, EndArg(endTimestamp))]
  {
    assert (ids + [id])[..|ids|] == ids;
  }

  lemma UnmuteCallsSnoc(ids: seq<Value>, id: Value)
    ensures UnmuteCalls(ids + [id]) == UnmuteCalls(ids) + [UnmuteMonitor(id, true)]
  {
    assert (ids + [id])[..|ids|] == ids;
  }

  /** One more record adds its mute exactly when its name matches. */
  lemma MuteCallsStep(records: seq<Value>, i: nat, matches: string -> bool, endTimestamp: Value)
    requires i < |records|
    ensures MuteCalls(MatchingIds(records[..i + 1], matches), endTimestamp)
         == MuteCalls(MatchingIds(records[..i], matches), endTimestamp)
            + (if NameMatches(records[i], matches) then [MuteMonitor(Field(records[i], "id"), EndArg(endTimestamp))] else [])
  {
    MatchingIdsStep(records, i, matches);
    var ids := MatchingIds(records[..i], matches);
    if NameMatches(records[i], matches) {
      assert MatchingIds(records[..i + 1], matches) == ids + [Field(records[i], "id")];
      MuteCallsSnoc(ids, Field(records[i], "id"), endTimestamp);
    } else {
      assert MatchingIds(records[..i + 1], matches) == ids;
    }
  }

  /** One more record adds its unmute exactly when its name matches. */
  lemma UnmuteCallsStep(records: seq<Value>, i: nat, matches: string -> bool)
    requires i < |records|
    ensures UnmuteCalls(MatchingIds(records[..i + 1], matches))
         == UnmuteCalls(MatchingIds(records[..i], matches))
            + (if NameMatches(records[i], matches) then [UnmuteMonitor(Field(records[i], "id"), true)] else [])
  {
    MatchingIdsStep(records, i, matches);
    var ids := MatchingIds(records[..i], matches);
    if NameMatches(records[i], matches) {
      assert MatchingIds(records[..i + 1], matches) == ids + [Field(records[i], "id")];
      UnmuteCallsSnoc(ids, Field(records[i], "id"));
    } else {
      assert MatchingIds(records[..i + 1], matches) == ids;
    }
  }

  /** No id is produced exactly when no monitor name matches. */
  lemma {:induction false} NoMatchNoIds(records: seq<Value>, matches: string -> bool)
    ensures MatchingIds(records, matches) == []
        <==> forall j :: 0 <= j < |records| ==> !NameMatches(records[j], matches)
    decreases |records|
  {
    if |records| > 0 {
      var front := records[..|records| - 1];
      NoMatchNoIds(front, matches);
      assert forall j :: 0 <= j < |front| ==> front[j] == records[j];
    }
  }

  /** One mute per id, in order, each with the same end argument. */
  lemma {:induction false} MuteCallsAt(ids: seq<Value>, endTimestamp: Value)
    ensures |MuteCalls(ids, endTimestamp)| == |ids|
    ensures forall i :: 0 <= i < |ids| ==> MuteCalls(ids, endTimestamp)[i] == MuteMonitor(ids[i], EndArg(endTimestamp))
    decreases |ids|
  {
    if |ids| > 0 {
      MuteCallsAt(ids[..|ids| - 1], endTimestamp);
    }
  }

  /** One all-scopes unmute per id, in order. */
  lemma {:induction false} UnmuteCallsAt(ids: seq<Value>)
    ensures |UnmuteCalls(ids)| == |ids|
    ensures forall i :: 0 <= i < |ids| ==> UnmuteCalls(ids)[i] == UnmuteMonitor(ids[i], true)
    decreases |ids|
  {
    if |ids| > 0 {
      UnmuteCallsAt(ids[..|ids| - 1]);
    }
  }

  /** Zero pattern matches is a silent no-op: no error, no mute or unmute call. */
  lemma RegexNoMatchIsSilent(cache: Option<seq<Value>>, script: Script, matches: string -> bool, endTimestamp: Value)
    requires GetMonitors(cache, script).result.Ok?
    requires var records := GetMonitors(cache, script).result.value;
      forall j :: 0 <= j < |records| ==> !NameMatches(records[j], matches)
    ensures var mute := MuteMonitorsByRegex(cache, script, matches, endTimestamp);
      mute.result.Ok? && mute.calls == GetMonitors(cache, script).calls
    ensures var unmute := UnmuteMonitorsByRegex(cache, script, matches);
      unmute.result.Ok? && unmute.calls == GetMonitors(cache, script).calls
  {
    NoMatchNoIds(GetMonitors(cache, script).result.value, matches);
  }

  /*** Board reconciler ***/

  const DescriptionPrefix := "created by DogTrainer RubyGem via "

  /** The description every managed board carries. */
  function BoardDescription(repoPath: string): string
  {
    DescriptionPrefix + repoPath
  }

  /** The description is the fixed prefix followed by the repo path, so the
      repo path can be read back from it and distinct paths give distinct
      descriptions. */
  lemma DescriptionEmbedsRepoPath(repoPath: string, other: string)
    ensures StartsWith(BoardDescription(repoPath), DescriptionPrefix)
    ensures BoardDescription(repoPath)[|DescriptionPrefix|..] == repoPath
    ensures BoardDescription(repoPath) == BoardDescription(other) ==> repoPath == other
  {
    StartsWithConcat(DescriptionPrefix, repoPath);
    assert BoardDescription(other)[|DescriptionPrefix|..] == other;
  }

  /** The fields of an existing board the diff reads: under `dash` for a
      timeboard, at the top level (with `board_title` and `widgets`) for a
      screenboard. */
  datatype BoardView = BoardView(id: Value, title: Value, description: Value, content: Value)

  function View(kind: BoardKind, board: Value): BoardView
  {
    match kind
    case Timeboard =>
      var dash := Field(board, "dash");
      BoardView(Field(dash, "id"), Field(dash, "title"), Field(dash, "description"), Field(dash, "graphs"))
    case Screenboard =>
      BoardView(Field(board, "id"), Field(board, "board_title"), Field(board, "description"), Field(board, "widgets"))
  }

  /** All three fields are compared; any difference means an update. */
  predicate BoardDrifted(view: BoardView, name: string, description: string, content: Value)
  {
    view.description != VStr(description) || view.title != VStr(name) || view.content != content
  }

  /** get_existing_timeboard_by_name / get_existing_screenboard_by_name: the
      first summary with that title, fetched in full by id, or nil. */
  function BoardByName(kind: BoardKind, cache: Option<seq<Value>>, script: Script, name: string): Step<Value>
  {
    var fill := GetBoards(kind, cache, script);
    match fill.result
    case Err(f) => Step(Err(f), fill.cache, fill.calls)
    case Ok(summaries) =>
      match FirstIndex(summaries, "title", VStr(name))
      case None => Step(Ok(VNull), fill.cache, fill.calls)
      case Some(i) =>
        var id := Field(summaries[i], "id");
        Step(Ok(BoardById(kind, script, id)), fill.cache, fill.calls + [GetBoard(kind, id)])
  }

  /** upsert_timeboard / upsert_screenboard. */
  function UpsertBoard(kind: BoardKind, cache: Option<seq<Value>>, script: Script, repoPath: string,
                       name: string, content: Value): Step<()>
  {
    var description := BoardDescription(repoPath);
    var lookup := BoardByName(kind, cache, script, name);
    match lookup.result
    case Err(f) => Step(Err(f), lookup.cache, lookup.calls)
    case Ok(board) =>
      if board == VNull then
        Step(Ok(()), lookup.cache, lookup.calls + [CreateBoard(kind, name, description, content)])
      else
        var view := View(kind, board);
        Step(Ok(()), lookup.cache,
             lookup.calls + if BoardDrifted(view, name, description, content)
                            then [UpdateBoard(kind, view.id, name, description, content)] else [])
  }

  /** A board whose title matches no summary is created, once, with the
      generated description. */
  lemma BoardMissCreatesOnce(kind: BoardKind, cache: Option<seq<Value>>, script: Script, repoPath: string,
                             name: string, content: Value)
    requires GetBoards(kind, cache, script).result.Ok?
    requires var summaries := GetBoards(kind, cache, script).result.value;
      forall j :: 0 <= j < |summaries| ==> Field(summaries[j], "title") != VStr(name)
    ensures UpsertBoard(kind, cache, script, repoPath, name, content).calls
         == GetBoards(kind, cache, script).calls + [CreateBoard(kind, name, BoardDescription(repoPath), content)]
  {
    FirstIndexIsFirstMatch(GetBoards(kind, cache, script).result.value, "title", VStr(name));
  }

  /** For the board found under the first matching summary: with description,
      title and content all as desired nothing is created or updated; with
      any of them different, exactly one update sends the full desired state. */
  lemma BoardFoundUpdatesIffDrifted(kind: BoardKind, cache: Option<seq<Value>>, script: Script, repoPath: string,
                                    name: string, content: Value, i: nat)
    requires GetBoards(kind, cache, script).result.Ok?
    requires var summaries := GetBoards(kind, cache, script).result.value;
      && i < |summaries| && Field(summaries[i], "title") == VStr(name)
      && (forall j :: 0 <= j < i ==> Field(summaries[j], "title") != VStr(name))
      && BoardById(kind, script, Field(summaries[i], "id")) != VNull
    ensures var summaries := GetBoards(kind, cache, script).result.value;
      var id := Field(summaries[i], "id");
      var view := View(kind, BoardById(kind, script, id));
      var before := GetBoards(kind, cache, script).calls + [GetBoard(kind, id)];
      UpsertBoard(kind, cache, script, repoPath, name, content).calls
      == before + if BoardDrifted(view, name, BoardDescription(repoPath), content)
                  then [UpdateBoard(kind, view.id, name, BoardDescription(repoPath), content)] else []
  {
    var summaries := GetBoards(kind, cache, script).result.value;
    FirstIndexIsFirstMatch(summaries, "title", VStr(name));
    var k := FirstIndex(summaries, "title", VStr(name)).value;
    assert k == i;
  }

  /** A found board whose title, description and content are already the
      desired ones is left alone: the only calls are the lookup's. */
  lemma CurrentBoardNotUpdated(kind: BoardKind, cache: Option<seq<Value>>, script: Script, repoPath: string,
                               name: string, content: Value, i: nat)
    requires GetBoards(kind, cache, script).result.Ok?
    requires var summaries := GetBoards(kind, cache, script).result.value;
      && i < |summaries| && Field(summaries[i], "title") == VStr(name)
      && (forall j :: 0 <= j < i ==> Field(summaries[j], "title") != VStr(name))
      && BoardById(kind, script, Field(summaries[i], "id")) != VNull
    requires var view := View(kind, BoardById(kind, script, Field(GetBoards(kind, cache, script).result.value[i], "id")));
      && view.title == VStr(name) && view.description == VStr(BoardDescription(repoPath))
      && view.content == content
    ensures UpsertBoard(kind, cache, script, repoPath, name, content).calls
         == GetBoards(kind, cache, script).calls + [GetBoard(kind, Field(GetBoards(kind, cache, script).result.value[i], "id"))]
  {
    BoardFoundUpdatesIffDrifted(kind, cache, script, repoPath, name, content, i);
  }
}
