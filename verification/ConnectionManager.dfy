/**
 * packages/mcp-host/src/connection-manager.ts as a state machine. Every asynchronous call of the
 * manager is a task; one event runs a task from one await to the next, or lets the outside world
 * act (a connect race is decided, a transport dies, a caller asks for something). Listeners do not
 * call back into the manager.
 */
module ConnectionManager {
  import opened Options

  type EntryId = nat
  type ClientId = nat
  type TaskId = nat

  datatype Tool = Tool(name: string, description: string)

  // `canAuthorize` stands for: an OAuth service exists, and the server is HTTP without static
  // bearer token or headers.
  datatype Config = Config(
    enabled: bool, canAuthorize: bool, enabledTools: Option<set<string>>, disabledTools: Option<set<string>>)

  datatype Status = Pending | Connected | Failed | Disabled | NeedsAuth

  datatype StartupError = StartupError(message: string, unauthorizedLike: bool)

  datatype EntryError = RequiresLogin | StartupFailed(message: string) | ClosedUnexpectedly

  // How a server stands.
  datatype Face = Face(
    status: Status, tools: Option<seq<Tool>>, enabledNames: Option<set<string>>, error: Option<EntryError>)

  // `task` is history: the task that runs the entry's latest attempt.
  datatype Entry = Entry(
    name: string, config: Config, attemptId: nat, face: Face, client: Option<ClientId>, task: TaskId)

  // `entry`, `attemptId` and `task` say which attempt created the client and `listed` what it listed;
  // `ready` is a completed handshake and `died` an unexpected close nobody has been told about yet.
  datatype Client = Client(
    entry: EntryId, attemptId: nat, task: TaskId,
    closed: bool, ready: bool, watched: bool, died: bool, listed: Option<seq<Tool>>)

  datatype Task =
    | Closing(entry: EntryId, attemptId: nat)
    | Connecting(entry: EntryId, attemptId: nat, client: ClientId)
    | Discovered(entry: EntryId, attemptId: nat, client: ClientId, tools: seq<Tool>)
    | Broken(entry: EntryId, attemptId: nat, client: ClientId, error: StartupError)
    | Reporting(entry: EntryId, attemptId: nat)
    | Finished

  datatype View = View(name: string, status: Status, toolCount: nat, error: Option<EntryError>)

  datatype State = State(
    objects: seq<Entry>,
    entries: map<string, EntryId>,
    clients: seq<Client>,
    tasks: seq<Task>,
    emitted: seq<View>)

  // `invalid` is the error that building the client object throws, if it does.
  datatype Event =
    | Add(name: string, config: Config, invalid: Option<StartupError>)
    | Reconnect(name: string)
    | ResumeReconnect(task: TaskId, invalid: Option<StartupError>)
    | ClientReady(task: TaskId)
    | ConnectSucceeds(task: TaskId, tools: seq<Tool>)
    | ConnectFails(task: TaskId, error: StartupError)
    | ConnectTimesOut(task: TaskId)
    | ResumeConnect(task: TaskId)
    | ResumeReport(task: TaskId)
    | TransportDies(client: ClientId)
    | Shutdown

  predicate HasClient(task: Task) {
    task.Connecting? || task.Discovered? || task.Broken?
  }

  // Every reference points to something that exists, and the map files entries under their names.
  ghost predicate WellFormed(s: State) {
    && (forall n :: n in s.entries ==> s.entries[n] < |s.objects| && s.objects[s.entries[n]].name == n)
    && (forall e :: 0 <= e < |s.objects| && s.objects[e].client.Some? ==> s.objects[e].client.value < |s.clients|)
    && (forall c :: 0 <= c < |s.clients| ==> s.clients[c].entry < |s.objects| && s.clients[c].task < |s.tasks|)
    && (forall t :: 0 <= t < |s.tasks| && !s.tasks[t].Finished? ==>
        s.tasks[t].entry < |s.objects| && (HasClient(s.tasks[t]) ==> s.tasks[t].client < |s.clients|))
  }

  // ---- the manager's own helpers ----

  function ComputeEnabledNames(config: Config, tools: seq<Tool>): set<string> {
    set i | 0 <= i < |tools|
            && (config.enabledTools.Some? ==> tools[i].name in config.enabledTools.value)
            && (config.disabledTools.Some? ==> tools[i].name !in config.disabledTools.value) :: tools[i].name
  }

  function ToolNames(tools: seq<Tool>): set<string> {
    set i | 0 <= i < |tools| :: tools[i].name
  }

  function ToPublicEntry(o: Entry): View {
    var f := o.face;
    View(o.name, f.status, if f.status.Connected? && f.enabledNames.Some? then |f.enabledNames.value| else 0, f.error)
  }

  predicate InMap(s: State, e: EntryId)
    requires e < |s.objects|
  {
    s.objects[e].name in s.entries && s.entries[s.objects[e].name] == e
  }

  predicate IsCurrent(s: State, e: EntryId, attemptId: nat)
    requires e < |s.objects|
  {
    InMap(s, e) && s.objects[e].attemptId == attemptId
  }

  function Emit(s: State, e: EntryId): (r: State)
    requires WellFormed(s) && e < |s.objects|
    ensures WellFormed(r)
  {
    s.(emitted := s.emitted + [ToPublicEntry(s.objects[e])])
  }

  function CloseRuntimeClient(s: State, c: ClientId): (r: State)
    requires WellFormed(s) && c < |s.clients|
    ensures WellFormed(r)
  {
    s.(clients := s.clients[c := s.clients[c].(closed := true)])
  }

  function CloseClient(s: State, e: EntryId): (r: State)
    requires WellFormed(s) && e < |s.objects|
    ensures WellFormed(r)
  {
    match s.objects[e].client
    case None => s
    case Some(c) => CloseRuntimeClient(s.(objects := s.objects[e := s.objects[e].(client := None)]), c)
  }

  function Become(s: State, t: TaskId, task: Task): State
    requires t < |s.tasks|
  {
    s.(tasks := s.tasks[t := task])
  }

  const PENDING := Face(Pending, None, None, None)

  const CLOSED := Face(Failed, None, None, Some(ClosedUnexpectedly))

  function FailedFace(config: Config, error: StartupError): Face {
    if config.canAuthorize && error.unauthorizedLike then Face(NeedsAuth, None, None, Some(RequiresLogin))
    else Face(Failed, None, None, Some(StartupFailed(error.message)))
  }

  function ConnectedFace(o: Entry, tools: seq<Tool>): Face {
    o.face.(tools := Some(tools), enabledNames := Some(ComputeEnabledNames(o.config, tools)), status := Connected)
  }

  // The catch branch of connectOne.
  function HandleFailure(s: State, t: TaskId, e: EntryId, attemptId: nat, client: Option<ClientId>,
      error: StartupError): (r: State)
    requires WellFormed(s) && t < |s.tasks| && e < |s.objects| && (client.Some? ==> client.value < |s.clients|)
    ensures WellFormed(r)
  {
    if !IsCurrent(s, e, attemptId) then
      Become(if client.Some? then CloseRuntimeClient(s, client.value) else s, t, Finished)
    else
      var failed := s.objects[e].(face := FailedFace(s.objects[e].config, error));
      Become(CloseClient(s.(objects := s.objects[e := failed]), e), t, Reporting(e, attemptId))
  }

  // connectOne up to its first await.
  function StartConnect(s: State, t: TaskId, e: EntryId, attemptId: nat, invalid: Option<StartupError>): (r: State)
    requires WellFormed(s) && t < |s.tasks| && e < |s.objects|
    ensures WellFormed(r)
  {
    if invalid.Some? then
      HandleFailure(s, t, e, attemptId, None, invalid.value)
    else
      var c := |s.clients|;
      Become(s, t, Connecting(e, attemptId, c)).(
        objects := s.objects[e := s.objects[e].(client := Some(c))],
        clients := s.clients + [Client(e, attemptId, t, false, false, false, false, None)])
  }

  // The listener that watchForUnexpectedClose registers with the client.
  function OnUnexpectedClose(s: State, c: ClientId, e: EntryId, attemptId: nat): (r: State)
    requires WellFormed(s) && e < |s.objects| && c < |s.clients|
    ensures WellFormed(r)
  {
    if !IsCurrent(s, e, attemptId) || s.objects[e].client != Some(c) then s
    else
      var gone := s.objects[e].(face := CLOSED, client := None);
      Emit(CloseRuntimeClient(s.(objects := s.objects[e := gone]), c), e)
  }

  // Registering replays a close that came first.
  function WatchForUnexpectedClose(s: State, c: ClientId, e: EntryId, attemptId: nat): (r: State)
    requires WellFormed(s) && e < |s.objects| && c < |s.clients|
    ensures WellFormed(r)
  {
    var w := s.(clients := s.clients[c := s.clients[c].(watched := true, died := false)]);
    if s.clients[c].died then OnUnexpectedClose(w, c, e, attemptId) else w
  }

  // connectOne after a successful race.
  function FinishConnect(s: State, t: TaskId, e: EntryId, attemptId: nat, c: ClientId, tools: seq<Tool>): (r: State)
    requires WellFormed(s) && t < |s.tasks| && e < |s.objects| && c < |s.clients|
    ensures WellFormed(r)
  {
    var d := Become(s, t, Finished);
    if !IsCurrent(s, e, attemptId) then CloseRuntimeClient(d, c)
    else
      var o := s.objects[e].(face := ConnectedFace(s.objects[e], tools));
      var w := WatchForUnexpectedClose(d.(objects := s.objects[e := o]), c, e, attemptId);
      if IsCurrent(w, e, attemptId) then Emit(w, e) else w
  }

  // ---- what callers ask for ----

  function NewEntry(name: string, config: Config, task: TaskId): Entry {
    Entry(name, config, 0, if config.enabled then PENDING else PENDING.(status := Disabled), None, task)
  }

  // A new entry, emitted, and its first attempt if it is enabled.
  function Enlist(s: State, name: string, config: Config): (r: State)
    requires WellFormed(s)
    ensures WellFormed(r)
  {
    var e := |s.objects|;
    var o := NewEntry(name, config, |s.tasks|);
    var added := Emit(s.(objects := s.objects + [o], entries := s.entries[name := e]), e);
    if !config.enabled then added
    else added.(objects := s.objects + [o.(attemptId := 1)], tasks := s.tasks + [Closing(e, 1)])
  }

  // connectAllNow for one name.
  function AddServer(s: State, name: string, config: Config, invalid: Option<StartupError>): (r: State)
    requires WellFormed(s)
    ensures WellFormed(r)
  {
    var added := Enlist(s, name, config);
    if config.enabled then StartConnect(added, |s.tasks|, |s.objects|, 1, invalid) else added
  }

  // reconnect up to its first await: a new attempt, and the old client is on its way out.
  function BeginReconnect(s: State, e: EntryId): (r: State)
    requires WellFormed(s) && e < |s.objects|
    ensures WellFormed(r)
  {
    var o := s.objects[e];
    var begun := s.(
      objects := s.objects[e := o.(attemptId := o.attemptId + 1, task := |s.tasks|)],
      tasks := s.tasks + [Closing(e, o.attemptId + 1)]);
    CloseClient(begun, e)
  }

  function ContinueReconnect(s: State, t: TaskId, e: EntryId, attemptId: nat, invalid: Option<StartupError>): (r: State)
    requires WellFormed(s) && t < |s.tasks| && e < |s.objects|
    ensures WellFormed(r)
  {
    if !IsCurrent(s, e, attemptId) then Become(s, t, Finished)
    else
      var o := s.objects[e].(face := PENDING);
      StartConnect(Emit(s.(objects := s.objects[e := o]), e), t, e, attemptId, invalid)
  }

  function ShutDown(s: State): (r: State)
    requires WellFormed(s)
    ensures WellFormed(r)
  {
    var held := set n | n in s.entries && s.objects[s.entries[n]].client.Some? :: s.objects[s.entries[n]].client.value;
    State(
      seq(|s.objects|, e requires 0 <= e < |s.objects| =>
        if InMap(s, e) then s.objects[e].(client := None) else s.objects[e]),
      map[],
      seq(|s.clients|, c requires 0 <= c < |s.clients| =>
        if c in held then s.clients[c].(closed := true) else s.clients[c]),
      s.tasks,
      s.emitted)
  }

  function Resolved(s: State, name: string): Option<(ClientId, seq<Tool>, set<string>)>
    requires WellFormed(s)
  {
    if name !in s.entries then None
    else
      var o := s.objects[s.entries[name]];
      var f := o.face;
      if !f.status.Connected? || f.tools.None? || o.client.None? then None
      else Some((o.client.value, f.tools.value,
                 if f.enabledNames.Some? then f.enabledNames.value else ToolNames(f.tools.value)))
  }

  // One event; None when it is not enabled.
  function Next(s: State, ev: Event): (r: Option<State>)
    requires WellFormed(s)
    ensures r.Some? ==> WellFormed(r.value)
  {
    match ev
    case Add(name, config, invalid) => Some(AddServer(s, name, config, invalid))
    case Reconnect(name) =>
      if name !in s.entries || !s.objects[s.entries[name]].config.enabled then None
      else Some(BeginReconnect(s, s.entries[name]))
    case ResumeReconnect(t, invalid) =>
      if t < |s.tasks| && s.tasks[t].Closing?
      then Some(ContinueReconnect(s, t, s.tasks[t].entry, s.tasks[t].attemptId, invalid)) else None
    case ClientReady(t) =>
      if t < |s.tasks| && s.tasks[t].Connecting? && !s.clients[s.tasks[t].client].closed then
        var c := s.tasks[t].client;
        Some(s.(clients := s.clients[c := s.clients[c].(ready := true)]))
      else None
    case ConnectSucceeds(t, tools) =>
      if t < |s.tasks| && s.tasks[t].Connecting? && s.clients[s.tasks[t].client].ready then
        var task := s.tasks[t];
        Some(Become(s, t, Discovered(task.entry, task.attemptId, task.client, tools)).(
          clients := s.clients[task.client := s.clients[task.client].(listed := Some(tools))]))
      else None
    case ConnectFails(t, error) =>
      if t < |s.tasks| && s.tasks[t].Connecting?
      then Some(Become(s, t, Broken(s.tasks[t].entry, s.tasks[t].attemptId, s.tasks[t].client, error))) else None
    case ConnectTimesOut(t) =>
      if t < |s.tasks| && s.tasks[t].Connecting? then
        var task := s.tasks[t];
        Some(Become(CloseRuntimeClient(s, task.client), t,
                    Broken(task.entry, task.attemptId, task.client, StartupError("Timed out", false))))
      else None
    case ResumeConnect(t) =>
      if t < |s.tasks| && s.tasks[t].Discovered? then
        var task := s.tasks[t];
        Some(FinishConnect(s, t, task.entry, task.attemptId, task.client, task.tools))
      else if t < |s.tasks| && s.tasks[t].Broken? then
        var task := s.tasks[t];
        Some(HandleFailure(s, t, task.entry, task.attemptId, Some(task.client), task.error))
      else None
    case ResumeReport(t) =>
      if t < |s.tasks| && s.tasks[t].Reporting? then
        var task := s.tasks[t];
        Some(Become(if IsCurrent(s, task.entry, task.attemptId) then Emit(s, task.entry) else s, t, Finished))
      else None
    case TransportDies(c) =>
      if c < |s.clients| && !s.clients[c].closed && s.clients[c].ready then
        if s.clients[c].watched then Some(OnUnexpectedClose(s, c, s.clients[c].entry, s.clients[c].attemptId))
        else Some(s.(clients := s.clients[c := s.clients[c].(died := true)]))
      else None
    case Shutdown => Some(ShutDown(s))
  }

  ghost predicate Follows(xs: seq<State>, evs: seq<Event>, i: nat)
    requires i < |evs| < |xs|
  {
    WellFormed(xs[i]) && Next(xs[i], evs[i]) == Some(xs[i + 1])
  }

  // A run: the events lead through the states, each from one to the next.
  ghost predicate IsRun(xs: seq<State>, evs: seq<Event>) {
    |xs| == |evs| + 1 && WellFormed(xs[0]) && forall i :: 0 <= i < |evs| ==> Follows(xs, evs, i)
  }

  ghost predicate LeadsTo(s: State, evs: seq<Event>, r: State) {
    exists xs :: IsRun(xs, evs) && xs[0] == s && xs[|evs|] == r
  }

  lemma RunGrows(s: State, evs: seq<Event>, r: State, ev: Event)
    requires WellFormed(r) && LeadsTo(s, evs, r) && Next(r, ev).Some?
    ensures LeadsTo(s, evs + [ev], Next(r, ev).value)
  {
    var xs :| IsRun(xs, evs) && xs[0] == s && xs[|evs|] == r;
    var ys, more := xs + [Next(r, ev).value], evs + [ev];
    forall i | 0 <= i < |more| ensures Follows(ys, more, i) {
      assert i < |evs| ==> Follows(xs, evs, i);
    }
    assert IsRun(ys, more);
  }

  const EMPTY := State([], map[], [], [], [])

  // ---- the invariant ----

  // A client belongs to the attempt that created it; that of a connected entry is open, watched,
  // and the one whose tools the entry shows.
  ghost predicate EntryInv(s: State, e: EntryId)
    requires WellFormed(s) && e < |s.objects|
  {
    var o := s.objects[e];
    o.client.Some? ==>
      var c := s.clients[o.client.value];
      && c.entry == e && c.attemptId == o.attemptId
      && (o.face.status.Connected? ==>
          && !c.closed && c.ready && c.watched && c.listed == o.face.tools && o.face.tools.Some?
          && o.face.enabledNames == Some(ComputeEnabledNames(o.config, o.face.tools.value)))
  }

  // While a task is current, the entry's client is the one it created, or none if it has none yet
  // or no longer.
  ghost predicate TaskInv(s: State, t: TaskId)
    requires WellFormed(s) && t < |s.tasks|
  {
    var task := s.tasks[t];
    task.Finished? ||
    var o := s.objects[task.entry];
    && task.attemptId <= o.attemptId
    && (task.attemptId == o.attemptId ==> o.task == t)
    && (if HasClient(task) then
          var c := s.clients[task.client];
          && c.entry == task.entry && c.attemptId == task.attemptId && c.task == t && !c.watched
          && (IsCurrent(s, task.entry, task.attemptId) ==>
              && o.client == Some(task.client) && o.face.status.Pending?
              && (!task.Broken? ==> !c.closed))
          && (task.Discovered? ==> c.ready && c.listed == Some(task.tools))
        else
          task.attemptId == o.attemptId ==> o.client.None?)
  }

  ghost predicate Inv(s: State) {
    && WellFormed(s)
    && (forall e :: 0 <= e < |s.objects| ==> EntryInv(s, e))
    && (forall t :: 0 <= t < |s.tasks| ==> TaskInv(s, t))
  }

  lemma NextKeepsInv(s: State, ev: Event)
    requires Inv(s) && Next(s, ev).Some?
    ensures Inv(Next(s, ev).value)
  {
    var r := Next(s, ev).value;
    match ev
    case Add(name, config, invalid) => AddKeepsInv(s, name, config, invalid);
    case Reconnect(name) => ReconnectKeepsInv(s, s.entries[name]);
    case ResumeReconnect(t, invalid) => ResumeReconnectKeepsInv(s, t, invalid);
    case ClientReady(t) => DecideKeepsInv(s, ev, t);
    case ConnectSucceeds(t, tools) => DecideKeepsInv(s, ev, t);
    case ConnectFails(t, error) => DecideKeepsInv(s, ev, t);
    case ConnectTimesOut(t) => DecideKeepsInv(s, ev, t);
    case ResumeConnect(t) => ResumeConnectKeepsInv(s, t);
    case ResumeReport(t) => ResumeReportKeepsInv(s, t);
    case TransportDies(c) => TransportDiesKeepsInv(s, c);
    case Shutdown => ShutDownKeepsInv(s);
  }

  lemma HandleFailureKeepsInv(s: State, t: TaskId, error: StartupError)
    requires Inv(s) && t < |s.tasks| && (s.tasks[t].Closing? || s.tasks[t].Broken?)
    ensures var task := s.tasks[t];
      Inv(HandleFailure(s, t, task.entry, task.attemptId, if task.Broken? then Some(task.client) else None, error))
  {
    var task := s.tasks[t];
    var r := HandleFailure(s, t, task.entry, task.attemptId, if task.Broken? then Some(task.client) else None, error);
    assert TaskInv(s, t);
    forall e | 0 <= e < |r.objects| ensures EntryInv(r, e) {
      assert EntryInv(s, e);
    }
    forall u | 0 <= u < |r.tasks| ensures TaskInv(r, u) {
      HandleFailureKeepsTask(s, t, error, u);
    }
  }

  lemma HandleFailureKeepsTask(s: State, t: TaskId, error: StartupError, u: TaskId)
    requires Inv(s) && t < |s.tasks| && (s.tasks[t].Closing? || s.tasks[t].Broken?) && u < |s.tasks|
    ensures var task := s.tasks[t];
      var client := if task.Broken? then Some(task.client) else None;
      TaskInv(HandleFailure(s, t, task.entry, task.attemptId, client, error), u)
  {
    assert TaskInv(s, t) && TaskInv(s, u);
  }

  lemma StartConnectKeepsInv(s: State, t: TaskId, invalid: Option<StartupError>)
    requires Inv(s) && t < |s.tasks| && s.tasks[t].Closing?
    requires IsCurrent(s, s.tasks[t].entry, s.tasks[t].attemptId) && s.objects[s.tasks[t].entry].face.status.Pending?
    ensures Inv(StartConnect(s, t, s.tasks[t].entry, s.tasks[t].attemptId, invalid))
  {
    var r := StartConnect(s, t, s.tasks[t].entry, s.tasks[t].attemptId, invalid);
    assert TaskInv(s, t);
    if invalid.Some? {
      HandleFailureKeepsInv(s, t, invalid.value);
    } else {
      forall e | 0 <= e < |r.objects| ensures EntryInv(r, e) {
        assert EntryInv(s, e);
      }
      forall u | 0 <= u < |r.tasks| ensures TaskInv(r, u) {
        assert TaskInv(s, u);
      }
    }
  }

  lemma EnlistKeepsInv(s: State, name: string, config: Config)
    requires Inv(s)
    ensures Inv(Enlist(s, name, config))
  {
    var r := Enlist(s, name, config);
    forall d | 0 <= d < |r.objects| ensures EntryInv(r, d) {
      assert d < |s.objects| ==> EntryInv(s, d);
    }
    forall u | 0 <= u < |r.tasks| ensures TaskInv(r, u) {
      assert u < |s.tasks| ==> TaskInv(s, u);
    }
  }

  lemma AddKeepsInv(s: State, name: string, config: Config, invalid: Option<StartupError>)
    requires Inv(s)
    ensures Inv(AddServer(s, name, config, invalid))
  {
    EnlistKeepsInv(s, name, config);
    if config.enabled {
      StartConnectKeepsInv(Enlist(s, name, config), |s.tasks|, invalid);
    }
  }

  lemma ReconnectKeepsInv(s: State, e: EntryId)
    requires Inv(s) && e < |s.objects|
    ensures Inv(BeginReconnect(s, e))
  {
    var r := BeginReconnect(s, e);
    assert EntryInv(s, e);
    forall d | 0 <= d < |r.objects| ensures EntryInv(r, d) {
      assert EntryInv(s, d);
    }
    forall t | 0 <= t < |r.tasks| ensures TaskInv(r, t) {
      assert t < |s.tasks| ==> TaskInv(s, t);
    }
  }

  lemma ResumeReconnectKeepsInv(s: State, t: TaskId, invalid: Option<StartupError>)
    requires Inv(s) && t < |s.tasks| && s.tasks[t].Closing?
    ensures Inv(ContinueReconnect(s, t, s.tasks[t].entry, s.tasks[t].attemptId, invalid))
  {
    var e := s.tasks[t].entry;
    var current := IsCurrent(s, e, s.tasks[t].attemptId);
    var o := s.objects[e].(face := PENDING);
    var r := if current then Emit(s.(objects := s.objects[e := o]), e) else Become(s, t, Finished);
    assert TaskInv(s, t);
    assert Inv(r) by {
      forall d | 0 <= d < |r.objects| ensures EntryInv(r, d) {
        assert EntryInv(s, d);
      }
      forall u | 0 <= u < |r.tasks| ensures TaskInv(r, u) {
        assert TaskInv(s, u);
      }
    }
    if current {
      StartConnectKeepsInv(r, t, invalid);
    }
  }

  lemma DecideKeepsInv(s: State, ev: Event, t: TaskId)
    requires Inv(s) && Next(s, ev).Some?
    requires (ev.ClientReady? || ev.ConnectSucceeds? || ev.ConnectFails? || ev.ConnectTimesOut?) && t == ev.task
    ensures Inv(Next(s, ev).value)
  {
    var r := Next(s, ev).value;
    assert TaskInv(s, t);
    forall e | 0 <= e < |r.objects| ensures EntryInv(r, e) {
      assert EntryInv(s, e);
    }
    forall u | 0 <= u < |r.tasks| ensures TaskInv(r, u) {
      assert TaskInv(s, u);
    }
  }

  lemma UnexpectedCloseKeepsInv(s: State, c: ClientId)
    requires Inv(s) && c < |s.clients| && s.clients[c].watched
    ensures Inv(OnUnexpectedClose(s, c, s.clients[c].entry, s.clients[c].attemptId))
  {
    var r := OnUnexpectedClose(s, c, s.clients[c].entry, s.clients[c].attemptId);
    forall e | 0 <= e < |r.objects| ensures EntryInv(r, e) {
      assert EntryInv(s, e);
    }
    forall u | 0 <= u < |r.tasks| ensures TaskInv(r, u) {
      assert TaskInv(s, u);
    }
  }

  // The state in which FinishConnect has settled the entry, before it looks for an early close.
  function Settle(s: State, t: TaskId): State
    requires WellFormed(s) && t < |s.tasks| && s.tasks[t].Discovered?
  {
    var task := s.tasks[t];
    var e, c := task.entry, task.client;
    var d := Become(s, t, Finished);
    if !IsCurrent(s, e, task.attemptId) then CloseRuntimeClient(d, c)
    else
      d.(objects := s.objects[e := s.objects[e].(face := ConnectedFace(s.objects[e], task.tools))],
         clients := s.clients[c := s.clients[c].(watched := true, died := false)])
  }

  lemma SettleKeepsInv(s: State, t: TaskId)
    requires Inv(s) && t < |s.tasks| && s.tasks[t].Discovered?
    ensures Inv(Settle(s, t))
  {
    var r := Settle(s, t);
    assert TaskInv(s, t);
    forall e | 0 <= e < |r.objects| ensures EntryInv(r, e) {
      assert EntryInv(s, e);
    }
    forall u | 0 <= u < |r.tasks| ensures TaskInv(r, u) {
      assert TaskInv(s, u);
    }
  }

  lemma EmitKeepsInv(s: State, e: EntryId)
    requires Inv(s) && e < |s.objects|
    ensures Inv(Emit(s, e))
  {
    var r := Emit(s, e);
    forall d | 0 <= d < |r.objects| ensures EntryInv(r, d) {
      assert EntryInv(s, d);
    }
    forall u | 0 <= u < |r.tasks| ensures TaskInv(r, u) {
      assert TaskInv(s, u);
    }
  }

  lemma ResumeConnectKeepsInv(s: State, t: TaskId)
    requires Inv(s) && Next(s, ResumeConnect(t)).Some?
    ensures Inv(Next(s, ResumeConnect(t)).value)
  {
    var task := s.tasks[t];
    if task.Broken? {
      HandleFailureKeepsInv(s, t, task.error);
    } else {
      var w := Settle(s, t);
      SettleKeepsInv(s, t);
      if IsCurrent(s, task.entry, task.attemptId) {
        assert TaskInv(s, t);
        if s.clients[task.client].died {
          UnexpectedCloseKeepsInv(w, task.client);
          w := OnUnexpectedClose(w, task.client, task.entry, task.attemptId);
        }
        EmitKeepsInv(w, task.entry);
      }
    }
  }

  lemma ResumeReportKeepsInv(s: State, t: TaskId)
    requires Inv(s) && Next(s, ResumeReport(t)).Some?
    ensures Inv(Next(s, ResumeReport(t)).value)
  {
    var task := s.tasks[t];
    if IsCurrent(s, task.entry, task.attemptId) {
      EmitKeepsInv(s, task.entry);
    }
    var m := if IsCurrent(s, task.entry, task.attemptId) then Emit(s, task.entry) else s;
    var r := Become(m, t, Finished);
    forall e | 0 <= e < |r.objects| ensures EntryInv(r, e) {
      assert EntryInv(m, e);
    }
    forall u | 0 <= u < |r.tasks| ensures TaskInv(r, u) {
      assert TaskInv(m, u);
    }
  }

  lemma TransportDiesKeepsInv(s: State, c: ClientId)
    requires Inv(s) && Next(s, TransportDies(c)).Some?
    ensures Inv(Next(s, TransportDies(c)).value)
  {
    if s.clients[c].watched {
      UnexpectedCloseKeepsInv(s, c);
    } else {
      var r := Next(s, TransportDies(c)).value;
      forall e | 0 <= e < |r.objects| ensures EntryInv(r, e) {
        assert EntryInv(s, e);
      }
      forall u | 0 <= u < |r.tasks| ensures TaskInv(r, u) {
        assert TaskInv(s, u);
      }
    }
  }

  lemma ShutDownKeepsInv(s: State)
    requires Inv(s)
    ensures Inv(ShutDown(s))
  {
    var r := ShutDown(s);
    forall e | 0 <= e < |r.objects| ensures EntryInv(r, e) {
      assert EntryInv(s, e);
      forall n | n in s.entries ensures EntryInv(s, s.entries[n]) {}
    }
    forall u | 0 <= u < |r.tasks| ensures TaskInv(r, u) {
      assert TaskInv(s, u);
    }
  }

  // ---- what every run guarantees ----

  // A state some run of the manager leads to.
  ghost predicate Reachable(s: State) {
    WellFormed(s) && exists evs :: LeadsTo(EMPTY, evs, s)
  }

  lemma ReachableInv(s: State)
    requires Reachable(s)
    ensures Inv(s)
  {
    var evs :| LeadsTo(EMPTY, evs, s);
    var xs :| IsRun(xs, evs) && xs[0] == EMPTY && xs[|evs|] == s;
    for n := 0 to |evs|
      invariant Inv(xs[n])
    {
      assert Follows(xs, evs, n);
      NextKeepsInv(xs[n], evs[n]);
    }
  }

  // Which tools of a server may be called: those it lists, that its allow-list has, if there is one, and
  // its deny-list has not, if there is one.
  ghost predicate Allows(config: Config, tools: seq<Tool>, n: string) {
    && (exists i :: 0 <= i < |tools| && tools[i].name == n)
    && (config.enabledTools.None? || n in config.enabledTools.value)
    && (config.disabledTools.None? || n !in config.disabledTools.value)
  }

  lemma EnabledNamesAreAllowed(config: Config, tools: seq<Tool>, n: string)
    ensures n in ComputeEnabledNames(config, tools) <==> Allows(config, tools, n)
  {
  }

  // What the manager hands out for a name is an open client with the tools that client itself
  // listed, filtered by the server's configuration.
  lemma ResolvedPairsAClientWithItsTools(s: State, name: string)
    requires Reachable(s) && Resolved(s, name).Some?
    ensures var (c, tools, enabled) := Resolved(s, name).value;
      && c < |s.clients| && !s.clients[c].closed && s.clients[c].listed == Some(tools)
      && s.clients[c].entry == s.entries[name]
      && forall n :: n in enabled <==> Allows(s.objects[s.entries[name]].config, tools, n)
  {
    ReachableInv(s);
    assert EntryInv(s, s.entries[name]);
    var (c, tools, enabled) := Resolved(s, name).value;
    forall n ensures n in enabled <==> Allows(s.objects[s.entries[name]].config, tools, n) {
      EnabledNamesAreAllowed(s.objects[s.entries[name]].config, tools, n);
    }
  }

  // What listeners are shown of a server: its own name, status and error, and as many tools as `resolved`
  // hands out, none unless it is connected.
  lemma ViewsCountWhatIsResolved(s: State, name: string)
    requires Reachable(s) && name in s.entries
    ensures var o := s.objects[s.entries[name]];
      var v := ToPublicEntry(o);
      && v.name == name && v.status == o.face.status && v.error == o.face.error
      && (v.status != Connected ==> v.toolCount == 0)
      && (Resolved(s, name).Some? ==> v.toolCount == |Resolved(s, name).value.2|)
  {
    ReachableInv(s);
    assert EntryInv(s, s.entries[name]);
  }

  // Nothing is in flight.
  predicate Quiescent(s: State) {
    forall t :: 0 <= t < |s.tasks| ==> s.tasks[t].Finished?
  }
}
