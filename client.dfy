/** The Datadog client (Dogapi::Client) as DogTrainer uses it. The remote
    is a fixed script of replies, one per kind of call, in the manner of a
    test double; every call the core makes is appended to a ghost log, so
    "no update call was made" or "exactly one list call" are statements
    about that log. */
module Remote {
  import opened Values

  datatype BoardKind = Timeboard | Screenboard

  /** One call into the client, with the arguments DogTrainer passes. */
  datatype Call =
    | GetAllMonitors(groupStates: string)
    | CreateMonitor(monType: Value, query: Value, params: map<string, Value>)
    | UpdateMonitor(id: Value, query: Value, params: map<string, Value>)
    | MuteMonitor(id: Value, end: Option<Value>)
    | UnmuteMonitor(id: Value, allScopes: bool)
    | ListBoards(kind: BoardKind)
    | GetBoard(kind: BoardKind, id: Value)
    | CreateBoard(kind: BoardKind, title: string, description: string, content: Value)
    | UpdateBoard(kind: BoardKind, id: Value, title: string, description: string, content: Value)

  /** A `[status, body]` reply. */
  datatype Reply = Reply(status: Value, body: Value)

  /** The status string the source treats as success. */
  const Status200 := VStr("200")

  /** What the remote account answers. `timeboards` and `screenboards` are
      the summary lists inside the list replies (`['dashes']`,
      `['screenboards']`); the two maps give the body of a get by id. */
  datatype Script = Script(
    monitors: seq<Value>,
    createMonitorReply: Reply,
    updateMonitorReply: Reply,
    muteReply: Reply,
    unmuteReply: Reply,
    timeboards: seq<Value>,
    screenboards: seq<Value>,
    timeboardById: map<Value, Value>,
    screenboardById: map<Value, Value>)

  function Summaries(kind: BoardKind, script: Script): seq<Value>
  {
    match kind
    case Timeboard => script.timeboards
    case Screenboard => script.screenboards
  }

  /** The body of a get by id; an id the script does not know reads as nil. */
  function BoardById(kind: BoardKind, script: Script, id: Value): Value
  {
    var byId := if kind == Timeboard then script.timeboardById else script.screenboardById;
    if id in byId then byId[id] else VNull
  }

  /** The ways a reconciliation can stop instead of returning. */
  datatype Failure =
    | NoExistingMonitors
    | NoExistingBoards(kind: BoardKind)
    | MonitorNotFound(name: string)

  datatype Result<+T> = Ok(value: T) | Err(failure: Failure)

  /** The text the source raises or prints for each failure. */
  function FailureMessage(f: Failure): string
  {
    match f
    case NoExistingMonitors => "ERROR: DataDog API call returned no existing monitors. Something is wrong."
    case NoExistingBoards(Timeboard) => "ERROR: Docker API call returned no existing timeboards. Something is wrong."
    case NoExistingBoards(Screenboard) => "ERROR: Docker API call returned no existing screenboards. Something is wrong."
    case MonitorNotFound(name) => "ERROR: Could not find monitor with name " + name
  }

  /** Empty board lists end the process (`exit 1`); the other failures are
      raised as RuntimeError. */
  predicate ExitsProcess(f: Failure)
  {
    f.NoExistingBoards?
  }

  class Client {
    const script: Script
    ghost var log: seq<Call>

    constructor (script: Script)
      ensures this.script == script && log == []
    {
      this.script := script;
      log := [];
    }

    method GetAllMonitors() returns (body: seq<Value>)
      modifies this
      ensures log == old(log) + [Call.GetAllMonitors("all")]
      ensures body == script.monitors
    {
      log := log + [Call.GetAllMonitors("all")];
      body := script.monitors;
    }

    /** Dogapi's `monitor(type, query, params)`: create a monitor. */
    method Monitor(monType: Value, query: Value, params: map<string, Value>) returns (res: Reply)
      modifies this
      ensures log == old(log) + [CreateMonitor(monType, query, params)]
      ensures res == script.createMonitorReply
    {
      log := log + [CreateMonitor(monType, query, params)];
      res := script.createMonitorReply;
    }

    method UpdateMonitor(id: Value, query: Value, params: map<string, Value>) returns (res: Reply)
      modifies this
      ensures log == old(log) + [Call.UpdateMonitor(id, query, params)]
      ensures res == script.updateMonitorReply
    {
      log := log + [Call.UpdateMonitor(id, query, params)];
      res := script.updateMonitorReply;
    }

    method MuteMonitor(id: Value, end: Option<Value>) returns (res: Reply)
      modifies this
      ensures log == old(log) + [Call.MuteMonitor(id, end)]
      ensures res == script.muteReply
    {
      log := log + [Call.MuteMonitor(id, end)];
      res := script.muteReply;
    }

    method UnmuteMonitor(id: Value, allScopes: bool) returns (res: Reply)
      modifies this
      ensures log == old(log) + [Call.UnmuteMonitor(id, allScopes)]
      ensures res == script.unmuteReply
    {
      log := log + [Call.UnmuteMonitor(id, allScopes)];
      res := script.unmuteReply;
    }

    /** get_dashboards / get_all_screenboards, reduced to their summary lists. */
    method ListBoards(kind: BoardKind) returns (summaries: seq<Value>)
      modifies this
      ensures log == old(log) + [Call.ListBoards(kind)]
      ensures summaries == Summaries(kind, script)
    {
      log := log + [Call.ListBoards(kind)];
      summaries := Summaries(kind, script);
    }

    /** get_dashboard(id)[1] / get_screenboard(id)[1]. */
    method GetBoard(kind: BoardKind, id: Value) returns (board: Value)
      modifies this
      ensures log == old(log) + [Call.GetBoard(kind, id)]
      ensures board == BoardById(kind, script, id)
    {
      log := log + [Call.GetBoard(kind, id)];
      board := BoardById(kind, script, id);
    }

    method CreateBoard(kind: BoardKind, title: string, description: string, content: Value)
      modifies this
      ensures log == old(log) + [Call.CreateBoard(kind, title, description, content)]
    {
      log := log + [Call.CreateBoard(kind, title, description, content)];
    }

    method UpdateBoard(kind: BoardKind, id: Value, title: string, description: string, content: Value)
      modifies this
      ensures log == old(log) + [Call.UpdateBoard(kind, id, title, description, content)]
    {
      log := log + [Call.UpdateBoard(kind, id, title, description, content)];
    }
  }
}
