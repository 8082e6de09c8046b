/** DogTrainer::API: the reconciler object. It holds the Datadog client,
    the notification target, the repository path shown in generated texts,
    and three caches of remote listings that are filled on first use and never
    invalidated. Every method is proved to do what the matching function of
    Reconcile says, so the lemmas there apply to these methods. */
module Api {
  import opened Values
  import opened Messages
  import opened MonitorParams
  import opened Diff
  import opened Lookup
  import opened Remote
  import Reconcile

  class API {
    const client: Client
    const notifyTo: string
    const repoPath: string
    var monitors: Option<seq<Value>>
    var timeboards: Option<seq<Value>>
    var screenboards: Option<seq<Value>>

    /** `repoPath` is the optional constructor argument; `detectedRepoPath`
        stands for what get_repo_path would return when it is nil. */
    constructor (client: Client, notifyTo: string, repoPath: Option<string>, detectedRepoPath: string)
      ensures this.client == client && this.notifyTo == notifyTo
      ensures this.repoPath == if repoPath.Some? then repoPath.value else detectedRepoPath
      ensures monitors == None && timeboards == None && screenboards == None
    {
      this.client := client;
      this.notifyTo := notifyTo;
      if repoPath.None? {
        this.repoPath := detectedRepoPath;
      } else {
        this.repoPath := repoPath.value;
      }
      monitors := None;
      timeboards := None;
      screenboards := None;
    }

    /*** Monitors ***/

    method GetMonitors() returns (r: Result<seq<Value>>)
      modifies this`monitors, client
      ensures var s := Reconcile.GetMonitors(old(monitors), client.script);
        r == s.result && monitors == s.cache && client.log == old(client.log) + s.calls
    {
      if monitors.None? {
        var body := client.GetAllMonitors();
        monitors := Some(body);
        if |body| < 1 {
          return Err(NoExistingMonitors);
        }
      }
      r := Ok(monitors.value);
    }

    method GetExistingMonitorByName(name: string) returns (r: Result<Value>)
      modifies this`monitors, client
      ensures var s := Reconcile.MonitorByName(old(monitors), client.script, name);
        r == s.result && monitors == s.cache && client.log == old(client.log) + s.calls
    {
      var all := GetMonitors();
      if all.Err? {
        return Err(all.failure);
      }
      var i := FindFirst(all.value, "name", VStr(name));
      r := Ok(if i.Some? then all.value[i.value] else VNull);
    }

    /** The new monitor's id, or nil when the create is not answered with '200'. */
    method CreateMonitor(name: string, params: map<string, Value>) returns (id: Value)
      modifies client
      ensures client.log == old(client.log) + [Reconcile.CreateCall(params)]
      ensures id == Reconcile.CreatedId(client.script.createMonitorReply)
    {
      var res := client.Monitor(Get(params, "type"), Get(params, "query"), params);
      if res.status == Status200 {
        id := Field(res.body, "id");
      } else {
        id := VNull;
      }
    }

    method UpsertMonitor(name: string, query: string, threshold: Value, comparator: string,
                         options: MonitorOptions) returns (r: Result<Value>)
      modifies this`monitors, client
      ensures var desired := UpsertParams(name, query, threshold, comparator, options, repoPath, notifyTo);
        var s := Reconcile.UpsertMonitor(old(monitors), client.script, desired, name);
        r == s.result && monitors == s.cache && client.log == old(client.log) + s.calls
    {
      var params := UpsertParams(name, query, threshold, comparator, options, repoPath, notifyTo);
      var found := GetExistingMonitorByName(name);
      if found.Err? {
        return Err(found.failure);
      }
      var monitor := found.value;
      if monitor == VNull {
        var id := CreateMonitor(name, params);
        return Ok(id);
      }
      UpsertParamsKeys(name, query, threshold, comparator, options, repoPath, notifyTo);
      var id := SyncMonitor(monitor, params);
      r := Ok(id);
    }

    /** The tail of upsert_monitor for an existing monitor: walk the desired
        keys, and update only when one is missing or different; the result is
        the existing id, or nil when the update is not answered with '200'. */
    method SyncMonitor(monitor: Value, params: map<string, Value>) returns (id: Value)
      requires forall k :: k in params <==> k in MonitorKeyOrder
      modifies client
      ensures InSync(params, Fields(monitor)) ==> id == Field(monitor, "id") && client.log == old(client.log)
      ensures !InSync(params, Fields(monitor)) ==>
        && client.log == old(client.log) + [Call.UpdateMonitor(Field(monitor, "id"), Get(params, "query"), params)]
        && id == if client.script.updateMonitorReply.status == Status200 then Field(monitor, "id") else VNull
    {
      var doUpdate := NeedsUpdate(params, MonitorKeyOrder, Fields(monitor));
      id := Field(monitor, "id");
      if !doUpdate {
        return;
      }
      var res := client.UpdateMonitor(id, Get(params, "query"), params);
      if res.status != Status200 {
        id := VNull;
      }
    }

    /** A nil end timestamp mutes indefinitely (no `end:` argument). */
    method MuteMonitorById(id: Value, endTimestamp: Value) returns (res: Reply)
      modifies client
      ensures client.log == old(client.log) + [MuteMonitor(id, Reconcile.EndArg(endTimestamp))]
      ensures res == client.script.muteReply
    {
      if endTimestamp == VNull {
        res := client.MuteMonitor(id, None);
      } else {
        res := client.MuteMonitor(id, Some(endTimestamp));
      }
    }

    method MuteMonitorByName(name: string, endTimestamp: Value) returns (r: Result<Reply>)
      modifies this`monitors, client
      ensures var s := Reconcile.MuteMonitorByName(old(monitors), client.script, name, endTimestamp);
        r == s.result && monitors == s.cache && client.log == old(client.log) + s.calls
    {
      var found := GetExistingMonitorByName(name);
      if found.Err? {
        return Err(found.failure);
      }
      if found.value == VNull {
        return Err(MonitorNotFound(name));
      }
      var res := MuteMonitorById(Field(found.value, "id"), endTimestamp);
      r := Ok(res);
    }

    /** The `each` loop of mute_monitors_by_regex: one mute per matching monitor, in order. */
    method MuteEach(records: seq<Value>, matches: string -> bool, endTimestamp: Value)
      modifies client
      ensures client.log == old(client.log) + Reconcile.MuteCalls(Reconcile.MatchingIds(records, matches), endTimestamp)
    {
      for i := 0 to |records|
        invariant client.log == old(client.log) + Reconcile.MuteCalls(Reconcile.MatchingIds(records[..i], matches), endTimestamp)
      {
        Reconcile.MuteCallsStep(records, i, matches, endTimestamp);
        if Reconcile.NameMatches(records[i], matches) {
          var res := MuteMonitorById(Field(records[i], "id"), endTimestamp);
        }
      }
      assert records[..|records|] == records;
    }

    /** `matches` is the name test `mon['name'] =~ regex`. */
    method MuteMonitorsByRegex(matches: string -> bool, endTimestamp: Value) returns (r: Result<seq<Value>>)
      modifies this`monitors, client
      ensures var s := Reconcile.MuteMonitorsByRegex(old(monitors), client.script, matches, endTimestamp);
        r == s.result && monitors == s.cache && client.log == old(client.log) + s.calls
    {
      var all := GetMonitors();
      if all.Err? {
        return Err(all.failure);
      }
      var records := all.value;
      MuteEach(records, matches, endTimestamp);
      r := Ok(records);
    }

    method UnmuteMonitorById(id: Value) returns (res: Reply)
      modifies client
      ensures client.log == old(client.log) + [UnmuteMonitor(id, true)]
      ensures res == client.script.unmuteReply
    {
      res := client.UnmuteMonitor(id, true);
    }

    method UnmuteMonitorByName(name: string) returns (r: Result<Reply>)
      modifies this`monitors, client
      ensures var s := Reconcile.UnmuteMonitorByName(old(monitors), client.script, name);
        r == s.result && monitors == s.cache && client.log == old(client.log) + s.calls
    {
      var found := GetExistingMonitorByName(name);
      if found.Err? {
        return Err(found.failure);
      }
      if found.value == VNull {
        return Err(MonitorNotFound(name));
      }
      var res := UnmuteMonitorById(Field(found.value, "id"));
      r := Ok(res);
    }

    /** The `each` loop of unmute_monitors_by_regex: one unmute per matching monitor, in order. */
    method UnmuteEach(records: seq<Value>, matches: string -> bool)
      modifies client
      ensures client.log == old(client.log) + Reconcile.UnmuteCalls(Reconcile.MatchingIds(records, matches))
    {
      for i := 0 to |records|
        invariant client.log == old(client.log) + Reconcile.UnmuteCalls(Reconcile.MatchingIds(records[..i], matches))
      {
        Reconcile.UnmuteCallsStep(records, i, matches);
        if Reconcile.NameMatches(records[i], matches) {
          var res := UnmuteMonitorById(Field(records[i], "id"));
        }
      }
      assert records[..|records|] == records;
    }

    method UnmuteMonitorsByRegex(matches: string -> bool) returns (r: Result<seq<Value>>)
      modifies this`monitors, client
      ensures var s := Reconcile.UnmuteMonitorsByRegex(old(monitors), client.script, matches);
        r == s.result && monitors == s.cache && client.log == old(client.log) + s.calls
    {
      var all := GetMonitors();
      if all.Err? {
        return Err(all.failure);
      }
      var records := all.value;
      UnmuteEach(records, matches);
      r := Ok(records);
    }

    /*** Boards ***/

    /** The lookup shared by both board kinds, over the kind's cache value;
        the callers store the returned cache in their own field. */
    method BoardByName(kind: BoardKind, cache: Option<seq<Value>>, name: string)
      returns (r: Result<Value>, newCache: Option<seq<Value>>)
      modifies client
      ensures var s := Reconcile.BoardByName(kind, cache, client.script, name);
        r == s.result && newCache == s.cache && client.log == old(client.log) + s.calls
    {
      var summaries: seq<Value>;
      newCache := cache;
      if cache.None? {
        summaries := client.ListBoards(kind);
        newCache := Some(summaries);
        if |summaries| == 0 {
          return Err(NoExistingBoards(kind)), newCache;
        }
      } else {
        summaries := cache.value;
      }
      var i := FindFirst(summaries, "title", VStr(name));
      if i.None? {
        return Ok(VNull), newCache;
      }
      var board := client.GetBoard(kind, Field(summaries[i.value], "id"));
      r := Ok(board);
    }

    method GetExistingTimeboardByName(name: string) returns (r: Result<Value>)
      modifies this`timeboards, client
      ensures var s := Reconcile.BoardByName(Timeboard, old(timeboards), client.script, name);
        r == s.result && timeboards == s.cache && client.log == old(client.log) + s.calls
    {
      r, timeboards := BoardByName(Timeboard, timeboards, name);
    }

    method GetExistingScreenboardByName(name: string) returns (r: Result<Value>)
      modifies this`screenboards, client
      ensures var s := Reconcile.BoardByName(Screenboard, old(screenboards), client.script, name);
        r == s.result && screenboards == s.cache && client.log == old(client.log) + s.calls
    {
      r, screenboards := BoardByName(Screenboard, screenboards, name);
    }

    /** The upsert shared by both board kinds: create when missing, update
        when title, description or content differ, otherwise nothing. */
    method UpsertBoard(kind: BoardKind, cache: Option<seq<Value>>, name: string, content: Value)
      returns (r: Result<()>, newCache: Option<seq<Value>>)
      modifies client
      ensures var s := Reconcile.UpsertBoard(kind, cache, client.script, repoPath, name, content);
        r == s.result && newCache == s.cache && client.log == old(client.log) + s.calls
    {
      var description := Reconcile.BoardDescription(repoPath);
      var found;
      found, newCache := BoardByName(kind, cache, name);
      if found.Err? {
        return Err(found.failure), newCache;
      }
      if found.value == VNull {
        client.CreateBoard(kind, name, description, content);
        return Ok(()), newCache;
      }
      var view := Reconcile.View(kind, found.value);
      var needsUpdate := false;
      if view.description != VStr(description) {
        needsUpdate := true;
      }
      if view.title != VStr(name) {
        needsUpdate := true;
      }
      if view.content != content {
        needsUpdate := true;
      }
      if needsUpdate {
        client.UpdateBoard(kind, view.id, name, description, content);
      }
      r := Ok(());
    }

    /** `graphs` is the timeboard's list of graph definitions. */
    method UpsertTimeboard(name: string, graphs: Value) returns (r: Result<()>)
      modifies this`timeboards, client
      ensures var s := Reconcile.UpsertBoard(Timeboard, old(timeboards), client.script, repoPath, name, graphs);
        r == s.result && timeboards == s.cache && client.log == old(client.log) + s.calls
    {
      r, timeboards := UpsertBoard(Timeboard, timeboards, name, graphs);
    }

    /** `widgets` is the screenboard's list of widgets. */
    method UpsertScreenboard(name: string, widgets: Value) returns (r: Result<()>)
      modifies this`screenboards, client
      ensures var s := Reconcile.UpsertBoard(Screenboard, old(screenboards), client.script, repoPath, name, widgets);
        r == s.result && screenboards == s.cache && client.log == old(client.log) + s.calls
    {
      r, screenboards := UpsertBoard(Screenboard, screenboards, name, widgets);
    }
  }
}
