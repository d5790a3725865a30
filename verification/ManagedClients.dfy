/**
 * The connection manager together with the MCP clients it creates: every client is a full client state
 * machine, the manager's segments call its methods, and its hooks call the manager's listener. The
 * transport may signal anything at any time.
 */
module ManagedClients {
  import opened Options
  import M = ConnectionManager
  import L = ConnectionLeaks
  import C = McpClients
  import H = McpHistories

  // `deaths` counts, per client, how often its live transport has died: history.
  datatype System = System(manager: M.State, kinds: seq<C.Kind>, machines: seq<C.Client>, deaths: seq<nat>)

  // A segment of the manager, which adds no name twice (`kind` is that of the client it creates, if it
  // creates one), something a transport signals, or the end of a handshake that a close has overtaken.
  datatype Event =
    | Manage(ev: M.Event, kind: C.Kind)
    | Transport(client: M.ClientId, signal: C.Event)
    | LateHandshake(client: M.ClientId, ok: bool)

  // One machine, kind and count for every client.
  ghost predicate Shaped(x: System) {
    M.WellFormed(x.manager) && |x.kinds| == |x.machines| == |x.deaths| == |x.manager.clients|
  }

  // The calls one segment of the manager makes to a client, told from how it leaves the client.
  function Drive(kind: C.Kind, m: C.Client, listener: C.Listener, k: M.Client, after: M.Client): C.Client {
    var shaken := if after.ready && !k.ready then C.Next(kind, m, C.HandshakeEnds(true)) else m;
    var heard := if after.watched && !k.watched then C.Next(kind, shaken, C.Register(listener)) else shaken;
    if after.closed && !k.closed then C.Next(kind, heard, C.Close) else heard
  }

  function DriveAll(kinds: seq<C.Kind>, machines: seq<C.Client>, before: seq<M.Client>, after: seq<M.Client>,
      kind: C.Kind)
    : (r: seq<C.Client>)
    requires |kinds| == |machines| == |before| <= |after|
    ensures |r| == |after|
  {
    seq(|after|, c requires 0 <= c < |after| =>
      if c < |before| then Drive(kinds[c], machines[c], c, before[c], after[c])
      else C.Next(kind, C.NEW, C.Connect))
  }

  function FailedHandshake(x: System, ev: M.Event): (r: seq<C.Client>)
    requires |x.kinds| == |x.machines| == |x.manager.clients|
    ensures |r| == |x.machines|
  {
    if ev.ConnectFails? && ev.task < |x.manager.tasks| && x.manager.tasks[ev.task].Connecting? then
      var c := x.manager.tasks[ev.task].client;
      if c < |x.machines| && !x.manager.clients[c].ready
      then x.machines[c := C.Next(x.kinds[c], x.machines[c], C.HandshakeEnds(false))]
      else x.machines
    else x.machines
  }

  predicate IsSignal(e: C.Event) {
    e.TransportCloses? || e.TransportErrors? || e.Stderr?
  }

  // What the client does by itself, and what it then makes the manager do: a reported death runs the
  // manager's listener, a buffered one is noticed when the manager registers.
  function Signal(x: System, c: M.ClientId, e: C.Event): (r: Option<System>)
    requires Shaped(x) && c < |x.machines|
    ensures r.Some? ==> Shaped(r.value)
  {
    var m := x.machines[c];
    var after := C.Next(x.kinds[c], m, e);
    var y := x.(machines := x.machines[c := after],
                deaths := if C.IsDeath(x.kinds[c], m, e) then x.deaths[c := x.deaths[c] + 1] else x.deaths);
    if after.delivered == m.delivered && after.pending == m.pending then Some(y)
    else
      var r := M.Next(x.manager, M.TransportDies(c));
      if r.None? || |r.value.clients| != |x.manager.clients| then None
      else Some(y.(
        manager := r.value,
        machines := x.machines[c := Drive(x.kinds[c], after, c, x.manager.clients[c], r.value.clients[c])]))
  }

  function Next(x: System, ev: Event): (r: Option<System>)
    requires Shaped(x)
    ensures r.Some? ==> Shaped(r.value)
  {
    match ev
    case Manage(e, kind) =>
      var n := |x.manager.clients|;
      var r := M.Next(x.manager, e);
      if e.TransportDies? || (e.Add? && e.name in x.manager.entries) || r.None? || |r.value.clients| < n then None
      else Some(System(
        r.value,
        x.kinds + seq(|r.value.clients| - n, i => kind),
        DriveAll(x.kinds, FailedHandshake(x, e), x.manager.clients, r.value.clients, kind),
        x.deaths + seq(|r.value.clients| - n, i => 0)))
    case Transport(c, e) => if c < |x.machines| && IsSignal(e) then Signal(x, c, e) else None
    case LateHandshake(c, ok) =>
      if c < |x.machines| && x.machines[c].life.closed
      then Some(x.(machines := x.machines[c := C.Next(x.kinds[c], x.machines[c], C.HandshakeEnds(ok))]))
      else None
  }

  // ---- how one segment of the manager treats a client ----

  predicate Treats(k: M.Client, after: M.Client) {
    && after.entry == k.entry && after.attemptId == k.attemptId && after.task == k.task
    && (k.closed ==> after.closed) && (k.ready ==> after.ready) && (k.watched ==> after.watched)
    && (!k.ready && after.ready ==> !k.closed && !after.closed && after.watched == k.watched)
    && (if !k.watched && after.watched then k.ready && !k.closed && !after.died && (k.died ==> after.closed)
        else after.died == k.died)
  }

  predicate IsNew(k: M.Client) {
    !k.closed && !k.ready && !k.watched && !k.died
  }

  // All clients are treated so; the handshake of at most the given one has ended.
  ghost predicate TreatsAll(s: M.State, r: M.State, shaken: Option<M.ClientId>) {
    && |s.clients| <= |r.clients|
    && (forall c :: 0 <= c < |s.clients| ==>
        Treats(s.clients[c], r.clients[c]) && (!s.clients[c].ready && r.clients[c].ready ==> shaken == Some(c)))
    && (forall c :: |s.clients| <= c < |r.clients| ==> IsNew(r.clients[c]))
    && (forall t :: 0 <= t < |r.tasks| && r.tasks[t].Connecting? ==>
        r.tasks[t].client >= |s.clients| || (t < |s.tasks| && r.tasks[t] == s.tasks[t]))
  }

  function ShakenBy(s: M.State, ev: M.Event): Option<M.ClientId> {
    if ev.ClientReady? && ev.task < |s.tasks| && s.tasks[ev.task].Connecting?
    then Some(s.tasks[ev.task].client) else None
  }

  lemma FailureTreatsAll(s: M.State, t: M.TaskId, e: M.EntryId, attemptId: nat, client: Option<M.ClientId>,
      error: M.StartupError)
    requires M.WellFormed(s) && t < |s.tasks| && e < |s.objects| && (client.Some? ==> client.value < |s.clients|)
    ensures TreatsAll(s, M.HandleFailure(s, t, e, attemptId, client, error), None)
  {
  }

  lemma StartTreatsAll(s: M.State, t: M.TaskId, e: M.EntryId, attemptId: nat, invalid: Option<M.StartupError>)
    requires M.WellFormed(s) && t < |s.tasks| && e < |s.objects|
    ensures TreatsAll(s, M.StartConnect(s, t, e, attemptId, invalid), None)
  {
    if invalid.Some? {
      FailureTreatsAll(s, t, e, attemptId, None, invalid.value);
    }
  }

  // The client of the attempt died while nobody listened.
  predicate FinishesDead(s: M.State, t: M.TaskId)
    requires M.WellFormed(s) && t < |s.tasks| && s.tasks[t].Discovered?
  {
    && s.tasks[t].entry < |s.objects| && M.IsCurrent(s, s.tasks[t].entry, s.tasks[t].attemptId)
    && s.tasks[t].client < |s.clients| && s.clients[s.tasks[t].client].died
  }

  lemma FinishTreatsAll(s: M.State, t: M.TaskId)
    requires M.Inv(s) && t < |s.tasks| && s.tasks[t].Discovered?
    ensures var task := s.tasks[t];
      TreatsAll(s, M.FinishConnect(s, t, task.entry, task.attemptId, task.client, task.tools), None)
  {
    assert M.TaskInv(s, t);
    if FinishesDead(s, t) {
      DeadFinishTreatsAll(s, t);
    } else {
      LiveFinishTreatsAll(s, t);
    }
  }

  lemma DeadFinishTreatsAll(s: M.State, t: M.TaskId)
    requires M.Inv(s) && t < |s.tasks| && s.tasks[t].Discovered? && FinishesDead(s, t)
    ensures var task := s.tasks[t];
      TreatsAll(s, M.FinishConnect(s, t, task.entry, task.attemptId, task.client, task.tools), None)
  {
    assert M.TaskInv(s, t);
    L.FinishReplaysTheClose(s, t);
    L.ClosingFailsTheEntry(M.Settle(s, t), s.tasks[t].client, s.tasks[t].entry, s.tasks[t].attemptId);
  }

  lemma LiveFinishTreatsAll(s: M.State, t: M.TaskId)
    requires M.Inv(s) && t < |s.tasks| && s.tasks[t].Discovered? && !FinishesDead(s, t)
    ensures var task := s.tasks[t];
      TreatsAll(s, M.FinishConnect(s, t, task.entry, task.attemptId, task.client, task.tools), None)
  {
    assert M.TaskInv(s, t);
  }

  lemma AddTreatsAll(s: M.State, name: string, config: M.Config, invalid: Option<M.StartupError>)
    requires M.WellFormed(s)
    ensures TreatsAll(s, M.AddServer(s, name, config, invalid), None)
  {
    if config.enabled {
      StartTreatsAll(M.Enlist(s, name, config), |s.tasks|, |s.objects|, 1, invalid);
    }
  }

  lemma ContinueTreatsAll(s: M.State, t: M.TaskId, e: M.EntryId, attemptId: nat, invalid: Option<M.StartupError>)
    requires M.WellFormed(s) && t < |s.tasks| && e < |s.objects|
    ensures TreatsAll(s, M.ContinueReconnect(s, t, e, attemptId, invalid), None)
  {
    if M.IsCurrent(s, e, attemptId) {
      var o := s.objects[e].(face := M.PENDING);
      StartTreatsAll(M.Emit(s.(objects := s.objects[e := o]), e), t, e, attemptId, invalid);
    }
  }

  lemma DecideTreatsAll(s: M.State, ev: M.Event)
    requires M.WellFormed(s) && M.Next(s, ev).Some?
    requires ev.ClientReady? || ev.ConnectSucceeds? || ev.ConnectFails? || ev.ConnectTimesOut? || ev.ResumeReport?
    ensures TreatsAll(s, M.Next(s, ev).value, ShakenBy(s, ev))
  {
  }

  lemma ReconnectTreatsAll(s: M.State, e: M.EntryId)
    requires M.WellFormed(s) && e < |s.objects|
    ensures TreatsAll(s, M.BeginReconnect(s, e), None)
  {
  }

  lemma ShutDownTreatsAll(s: M.State)
    requires M.WellFormed(s)
    ensures TreatsAll(s, M.ShutDown(s), None)
  {
  }

  lemma NextTreatsAll(s: M.State, ev: M.Event)
    requires M.Inv(s) && M.Next(s, ev).Some? && !ev.TransportDies?
    ensures TreatsAll(s, M.Next(s, ev).value, ShakenBy(s, ev))
  {
    match ev
    case Add(name, config, invalid) => AddTreatsAll(s, name, config, invalid);
    case Reconnect(name) => ReconnectTreatsAll(s, s.entries[name]);
    case ResumeReconnect(t, invalid) => ContinueTreatsAll(s, t, s.tasks[t].entry, s.tasks[t].attemptId, invalid);
    case ResumeConnect(t) =>
      var task := s.tasks[t];
      if task.Discovered? {
        FinishTreatsAll(s, t);
      } else {
        FailureTreatsAll(s, t, task.entry, task.attemptId, Some(task.client), task.error);
      }
    case Shutdown => ShutDownTreatsAll(s);
    case _ => DecideTreatsAll(s, ev);
  }

  // ---- the two views of a client ----

  // The manager's flags are what its client is; deaths have been delivered once somebody listens.
  predicate Agrees(k: M.Client, m: C.Client, deaths: nat) {
    && m.life.hooksInstalled && m.life.closed == k.closed && m.life.ready == k.ready
    && (m.listener.Some? <==> k.watched) && (m.pending.Some? <==> k.died)
    && (m.fired ==> deaths > 0)
    && (if k.watched then
          !k.died && (if deaths > 0 then |m.delivered| == 1 && k.closed else m.delivered == [])
        else
          m.delivered == [] && (k.died <==> deaths > 0))
  }

  // The attempt that made the client still waits for it to connect.
  predicate Awaited(s: M.State, c: M.ClientId)
    requires c < |s.clients|
  {
    var k := s.clients[c];
    k.task < |s.tasks| && s.tasks[k.task] == M.Connecting(k.entry, k.attemptId, c)
  }

  // A client that is awaited and neither ready nor closed is shaking hands.
  predicate Shaking(s: M.State, c: M.ClientId, m: C.Client)
    requires c < |s.clients|
  {
    Awaited(s, c) && !s.clients[c].closed && !s.clients[c].ready ==> m.life.handshaking
  }

  ghost predicate Coupled(x: System) {
    && L.NoLeak(x.manager)
    && |x.kinds| == |x.machines| == |x.deaths| == |x.manager.clients|
    && forall c :: 0 <= c < |x.machines| ==>
      Agrees(x.manager.clients[c], x.machines[c], x.deaths[c]) && Shaking(x.manager, c, x.machines[c])
  }

  lemma DriveKeepsAgreement(
    kind: C.Kind, m: C.Client, listener: C.Listener, k: M.Client, after: M.Client, deaths: nat)
    requires Agrees(k, m, deaths) && Treats(k, after) && (!k.ready && after.ready ==> m.life.handshaking)
    ensures Agrees(after, Drive(kind, m, listener, k, after), deaths)
    ensures after.ready || (Drive(kind, m, listener, k, after).life.handshaking <==> m.life.handshaking)
  {
  }

  lemma NewAgrees(kind: C.Kind, k: M.Client)
    requires IsNew(k)
    ensures Agrees(k, C.Next(kind, C.NEW, C.Connect), 0) && C.Next(kind, C.NEW, C.Connect).life.handshaking
  {
  }

  // No segment makes an attempt wait for a client that is there already.
  lemma AwaitedWasAwaited(s: M.State, r: M.State, shaken: Option<M.ClientId>, c: M.ClientId)
    requires TreatsAll(s, r, shaken) && c < |s.clients| && Awaited(r, c)
    ensures Awaited(s, c) && r.tasks[r.clients[c].task].Connecting?
  {
    assert Treats(s.clients[c], r.clients[c]);
  }

  // The client after one segment of the manager, its handshake having failed first if that is what the
  // segment is about.
  lemma SegmentKeepsAgreement(x: System, ev: M.Event, kind: C.Kind, c: M.ClientId)
    requires Coupled(x) && Next(x, Manage(ev, kind)).Some? && c < |x.machines|
    ensures var y := Next(x, Manage(ev, kind)).value;
      && c < |y.machines| && |y.machines| == |y.deaths| == |y.manager.clients|
      && Agrees(y.manager.clients[c], y.machines[c], y.deaths[c]) && Shaking(y.manager, c, y.machines[c])
  {
    var s := x.manager;
    var r := M.Next(s, ev).value;
    NextTreatsAll(s, ev);
    var y := Next(x, Manage(ev, kind)).value;
    var m := FailedHandshake(x, ev)[c];
    var k, after := s.clients[c], r.clients[c];
    assert Treats(k, after);
    FailedHandshakeKeepsAgreement(x, ev, c);
    assert y.machines[c] == Drive(x.kinds[c], m, c, k, after) && y.deaths[c] == x.deaths[c];
    if !k.ready && after.ready {
      assert M.TaskInv(s, ev.task);
      assert Awaited(s, c);
    }
    DriveKeepsAgreement(x.kinds[c], m, c, k, after, x.deaths[c]);
    if Awaited(r, c) {
      AwaitedWasAwaited(s, r, ShakenBy(s, ev), c);
    }
  }

  lemma FailedHandshakeKeepsAgreement(x: System, ev: M.Event, c: M.ClientId)
    requires Coupled(x) && c < |x.machines| && M.Next(x.manager, ev).Some?
    ensures |FailedHandshake(x, ev)| == |x.machines|
    ensures var m := FailedHandshake(x, ev)[c];
      && Agrees(x.manager.clients[c], m, x.deaths[c])
      && (m == x.machines[c] || (ev.ConnectFails? && ev.task == x.manager.clients[c].task))
  {
    if ev.ConnectFails? {
      assert M.TaskInv(x.manager, ev.task);
    }
  }

  // A new client starts to connect at once.
  lemma SegmentMakesNewClients(x: System, ev: M.Event, kind: C.Kind, c: M.ClientId)
    requires Coupled(x) && Next(x, Manage(ev, kind)).Some? && |x.machines| <= c
    requires c < |Next(x, Manage(ev, kind)).value.machines|
    ensures var y := Next(x, Manage(ev, kind)).value;
      && |y.machines| == |y.deaths| == |y.manager.clients|
      && Agrees(y.manager.clients[c], y.machines[c], y.deaths[c]) && Shaking(y.manager, c, y.machines[c])
  {
    NextTreatsAll(x.manager, ev);
    var y := Next(x, Manage(ev, kind)).value;
    NewAgrees(kind, y.manager.clients[c]);
  }

  lemma ManageKeepsCoupled(x: System, ev: M.Event, kind: C.Kind)
    requires Coupled(x) && Next(x, Manage(ev, kind)).Some?
    ensures Coupled(Next(x, Manage(ev, kind)).value)
  {
    NextTreatsAll(x.manager, ev);
    L.NextKeepsNoLeak(x.manager, ev);
    var y := Next(x, Manage(ev, kind)).value;
    forall c | 0 <= c < |y.machines|
      ensures Agrees(y.manager.clients[c], y.machines[c], y.deaths[c]) && Shaking(y.manager, c, y.machines[c])
    {
      if c < |x.machines| {
        SegmentKeepsAgreement(x, ev, kind, c);
      } else {
        SegmentMakesNewClients(x, ev, kind, c);
      }
    }
  }

  // ---- what a transport signals ----

  // Whether the client hands the death on, to its listener or its buffer.
  predicate Passes(kind: C.Kind, m: C.Client, e: C.Event) {
    C.Next(kind, m, e).delivered != m.delivered || C.Next(kind, m, e).pending != m.pending
  }

  lemma SignalToClient(kind: C.Kind, k: M.Client, m: C.Client, deaths: nat, e: C.Event)
    requires Agrees(k, m, deaths) && IsSignal(e)
    ensures var n := C.Next(kind, m, e);
      && n.life == m.life && n.listener == m.listener
      && (Passes(kind, m, e) ==> C.IsDeath(kind, m, e) && !k.closed && k.ready)
      && (if k.watched then
            (C.IsDeath(kind, m, e) ==> deaths == 0 && |n.delivered| == 1 && n.pending.None?)
          else
            n.delivered == m.delivered && (C.IsDeath(kind, m, e) ==> n.pending.Some?))
      && (!C.IsDeath(kind, m, e) ==> n.delivered == m.delivered && n.pending == m.pending && n.fired == m.fired)
  {
  }

  // The manager's side of a death: its listener takes the entry down and closes the client, or the
  // client is marked for the listener to come.
  lemma DeathOfClient(s: M.State, c: M.ClientId)
    requires L.NoLeak(s) && c < |s.clients| && !s.clients[c].closed && s.clients[c].ready
    ensures M.Next(s, M.TransportDies(c)).Some?
    ensures var r := M.Next(s, M.TransportDies(c)).value;
      && L.NoLeak(r) && |r.clients| == |s.clients| && r.tasks == s.tasks
      && (forall d :: 0 <= d < |s.clients| && d != c ==> r.clients[d] == s.clients[d])
      && r.clients[c] == (if s.clients[c].watched then s.clients[c].(closed := true) else s.clients[c].(died := true))
      && (s.clients[c].watched ==> L.TakenDown(s, r, c))
  {
    L.NextKeepsNoLeak(s, M.TransportDies(c));
    if s.clients[c].watched {
      L.WatchedDeathTakesDown(s, c);
    }
  }

  lemma SignalKeepsCoupled(x: System, c: M.ClientId, e: C.Event)
    requires Coupled(x) && c < |x.machines| && IsSignal(e)
    ensures Signal(x, c, e).Some? && Coupled(Signal(x, c, e).value)
  {
    var kind, k, m := x.kinds[c], x.manager.clients[c], x.machines[c];
    SignalToClient(kind, k, m, x.deaths[c], e);
    if Passes(kind, m, e) {
      DeathOfClient(x.manager, c);
    }
    var y := Signal(x, c, e).value;
    forall d | 0 <= d < |y.machines|
      ensures Agrees(y.manager.clients[d], y.machines[d], y.deaths[d]) && Shaking(y.manager, d, y.machines[d])
    {
      assert Agrees(x.manager.clients[d], x.machines[d], x.deaths[d]) && Shaking(x.manager, d, x.machines[d]);
      assert d != c ==> y.manager.clients[d] == x.manager.clients[d] && y.machines[d] == x.machines[d];
      if d == c {
        SignalledClientAgrees(x, c, e);
      }
    }
  }

  lemma SignalledClientAgrees(x: System, c: M.ClientId, e: C.Event)
    requires Coupled(x) && c < |x.machines| && IsSignal(e)
    requires Passes(x.kinds[c], x.machines[c], e) ==> M.Next(x.manager, M.TransportDies(c)).Some?
    requires Signal(x, c, e).Some?
    ensures var y := Signal(x, c, e).value;
      && c < |y.machines| && c < |y.deaths| && c < |y.manager.clients|
      && Agrees(y.manager.clients[c], y.machines[c], y.deaths[c]) && Shaking(y.manager, c, y.machines[c])
  {
    SignalToClient(x.kinds[c], x.manager.clients[c], x.machines[c], x.deaths[c], e);
    if Passes(x.kinds[c], x.machines[c], e) {
      DeathOfClient(x.manager, c);
    }
  }

  lemma LateHandshakeKeepsCoupled(x: System, c: M.ClientId, ok: bool)
    requires Coupled(x) && Next(x, LateHandshake(c, ok)).Some?
    ensures Coupled(Next(x, LateHandshake(c, ok)).value)
  {
    var y := Next(x, LateHandshake(c, ok)).value;
    forall d | 0 <= d < |y.machines|
      ensures Agrees(y.manager.clients[d], y.machines[d], y.deaths[d]) && Shaking(y.manager, d, y.machines[d])
    {
      assert Agrees(x.manager.clients[d], x.machines[d], x.deaths[d]) && Shaking(x.manager, d, x.machines[d]);
    }
  }

  lemma NextKeepsCoupled(x: System, ev: Event)
    requires Coupled(x) && Next(x, ev).Some?
    ensures Coupled(Next(x, ev).value)
  {
    match ev
    case Manage(e, kind) => ManageKeepsCoupled(x, e, kind);
    case Transport(c, e) => SignalKeepsCoupled(x, c, e);
    case LateHandshake(c, ok) => LateHandshakeKeepsCoupled(x, c, ok);
  }

  // ---- runs of the whole ----

  const EMPTY := System(M.EMPTY, [], [], [])

  ghost predicate Follows(xs: seq<System>, evs: seq<Event>, i: nat)
    requires i < |evs| < |xs|
  {
    Shaped(xs[i]) && Next(xs[i], evs[i]) == Some(xs[i + 1])
  }

  // From the empty system every state follows from the one before.
  ghost predicate IsRun(xs: seq<System>, evs: seq<Event>) {
    |xs| == |evs| + 1 && xs[0] == EMPTY && forall i :: 0 <= i < |evs| ==> Follows(xs, evs, i)
  }

  // A state some run leads to.
  ghost predicate Reachable(x: System) {
    exists xs, evs :: IsRun(xs, evs) && xs[|evs|] == x
  }

  lemma ReachableCoupled(x: System)
    requires Reachable(x)
    ensures Coupled(x)
  {
    var xs, evs :| IsRun(xs, evs) && xs[|evs|] == x;
    for n := 0 to |evs|
      invariant Coupled(xs[n])
    {
      assert Follows(xs, evs, n);
      NextKeepsCoupled(xs[n], evs[n]);
    }
  }

  // ---- what holds of manager and clients together ----

  // Over either transport, however often it signals and in whatever order with everything else, a
  // client tells its listener exactly once that its transport has died, and never if it has not.
  lemma DeathIsDeliveredExactlyOnce(x: System, c: M.ClientId)
    requires Reachable(x) && c < |x.machines| && c < |x.deaths|
    ensures |x.machines[c].delivered| == if x.machines[c].listener.Some? && x.deaths[c] > 0 then 1 else 0
  {
    ReachableCoupled(x);
    assert Agrees(x.manager.clients[c], x.machines[c], x.deaths[c]);
  }

  // A transport can signal at any time: no state of the manager keeps a client from handling it.
  lemma SignalsAreNeverBlocked(x: System, c: M.ClientId, e: C.Event)
    requires Reachable(x) && c < |x.machines| && IsSignal(e)
    ensures Shaped(x) && Next(x, Transport(c, e)).Some?
  {
    ReachableCoupled(x);
    SignalKeepsCoupled(x, c, e);
  }

  // What the manager can do by itself it can do here, with the clients it has.
  lemma SegmentsAreNeverBlocked(x: System, ev: M.Event, kind: C.Kind)
    requires Reachable(x) && Shaped(x) && M.Next(x.manager, ev).Some?
    requires !ev.TransportDies? && (ev.Add? ==> ev.name !in x.manager.entries)
    ensures Next(x, Manage(ev, kind)).Some?
    ensures Next(x, Manage(ev, kind)).value.manager == M.Next(x.manager, ev).value
  {
    ReachableCoupled(x);
    NextTreatsAll(x.manager, ev);
  }

  lemma DriveAfterDeath(kind: C.Kind, m: C.Client, listener: C.Listener, k: M.Client)
    requires !k.closed
    ensures Drive(kind, m, listener, k, k.(closed := true)) == C.Next(kind, m, C.Close)
    ensures Drive(kind, m, listener, k, k.(died := true)) == m
  {
  }

  // The signal has reached client c and no other: a death counts, a client the manager listens to is closed
  // by it, and anything else leaves the manager alone.
  ghost predicate HasReached(x: System, c: M.ClientId, e: C.Event, y: System)
    requires Shaped(x) && c < |x.machines|
  {
    var told := C.Next(x.kinds[c], x.machines[c], e);
    && y.kinds == x.kinds
    && (if C.IsDeath(x.kinds[c], x.machines[c], e)
        then y.deaths == x.deaths[c := x.deaths[c] + 1]
        else y.deaths == x.deaths && y.manager == x.manager)
    && y.machines == x.machines[c :=
         if C.IsDeath(x.kinds[c], x.machines[c], e) && x.manager.clients[c].watched
         then C.Next(x.kinds[c], told, C.Close) else told]
  }

  lemma PassedSignalReaches(x: System, c: M.ClientId, e: C.Event)
    requires Coupled(x) && c < |x.machines| && IsSignal(e) && Passes(x.kinds[c], x.machines[c], e)
    ensures Signal(x, c, e).Some? && HasReached(x, c, e, Signal(x, c, e).value)
  {
    SignalToClient(x.kinds[c], x.manager.clients[c], x.machines[c], x.deaths[c], e);
    DeathOfClient(x.manager, c);
    DriveAfterDeath(x.kinds[c], C.Next(x.kinds[c], x.machines[c], e), c, x.manager.clients[c]);
  }

  lemma KeptSignalReaches(x: System, c: M.ClientId, e: C.Event)
    requires Coupled(x) && c < |x.machines| && IsSignal(e) && !Passes(x.kinds[c], x.machines[c], e)
    ensures Signal(x, c, e).Some? && HasReached(x, c, e, Signal(x, c, e).value)
  {
    assert Agrees(x.manager.clients[c], x.machines[c], x.deaths[c]);
    SignalToClient(x.kinds[c], x.manager.clients[c], x.machines[c], x.deaths[c], e);
  }

  // What a transport signals reaches its own client and no other, whatever the manager is doing.
  lemma SignalReachesItsClient(x: System, c: M.ClientId, e: C.Event)
    requires Reachable(x) && Shaped(x) && c < |x.machines|
    requires e.TransportCloses? || e.TransportErrors? || e.Stderr?
    ensures Next(x, Transport(c, e)).Some? && HasReached(x, c, e, Next(x, Transport(c, e)).value)
  {
    ReachableCoupled(x);
    if Passes(x.kinds[c], x.machines[c], e) {
      PassedSignalReaches(x, c, e);
    } else {
      KeptSignalReaches(x, c, e);
    }
  }

  // A handshake may still end after its client has been closed, and then makes nothing of it.
  lemma LateHandshakesEnd(x: System, c: M.ClientId, ok: bool)
    requires Reachable(x) && Shaped(x) && c < |x.machines|
    ensures var r := Next(x, LateHandshake(c, ok));
      && (r.Some? <==> x.machines[c].life.closed)
      && (r.Some? ==>
          && r.value.manager == x.manager && r.value.deaths == x.deaths
          && !r.value.machines[c].life.handshaking && r.value.machines[c].life.ready == x.machines[c].life.ready)
  {
  }

  // A connect that fails before its client is ready ends the handshake of that client.
  lemma FailedConnectEndsTheHandshake(x: System, ev: M.Event, kind: C.Kind, y: System)
    requires Reachable(x) && Shaped(x) && ev.ConnectFails? && Next(x, Manage(ev, kind)) == Some(y)
    requires ev.task < |x.manager.tasks| && x.manager.tasks[ev.task].Connecting?
    requires var c := x.manager.tasks[ev.task].client; c < |x.manager.clients| && !x.manager.clients[c].ready
    ensures var c := x.manager.tasks[ev.task].client; c < |y.machines| && !y.machines[c].life.handshaking
  {
    ReachableCoupled(x);
    NextTreatsAll(x.manager, ev);
  }

  // ---- every client has a history ----

  // The client is what some history of calls and signals has made of it, which holds as many deaths.
  ghost predicate Fits(kind: C.Kind, m: C.Client, deaths: nat) {
    exists es :: m == C.Run(kind, C.NEW, es) && deaths == C.Deaths(kind, C.NEW, es)
  }

  lemma NextFits(kind: C.Kind, m: C.Client, deaths: nat, e: C.Event)
    requires Fits(kind, m, deaths)
    ensures Fits(kind, C.Next(kind, m, e), deaths + if C.IsDeath(kind, m, e) then 1 else 0)
  {
    var es :| m == C.Run(kind, C.NEW, es) && deaths == C.Deaths(kind, C.NEW, es);
    C.RunOneMore(kind, C.NEW, es, e);
    H.DeathsOneMore(kind, C.NEW, es, e);
  }

  lemma NewFits(kind: C.Kind)
    ensures Fits(kind, C.Next(kind, C.NEW, C.Connect), 0)
  {
    assert C.Run(kind, C.NEW, []) == C.NEW && C.Deaths(kind, C.NEW, []) == 0;
    NextFits(kind, C.NEW, 0, C.Connect);
  }

  lemma DriveFits(kind: C.Kind, m: C.Client, listener: C.Listener, k: M.Client, after: M.Client, deaths: nat)
    requires Fits(kind, m, deaths)
    ensures Fits(kind, Drive(kind, m, listener, k, after), deaths)
  {
    var shaken := if after.ready && !k.ready then C.Next(kind, m, C.HandshakeEnds(true)) else m;
    var heard := if after.watched && !k.watched then C.Next(kind, shaken, C.Register(listener)) else shaken;
    NextFits(kind, m, deaths, C.HandshakeEnds(true));
    NextFits(kind, shaken, deaths, C.Register(listener));
    NextFits(kind, heard, deaths, C.Close);
  }

  ghost predicate AllFit(x: System) {
    && |x.kinds| == |x.machines| == |x.deaths|
    && forall c :: 0 <= c < |x.machines| ==> Fits(x.kinds[c], x.machines[c], x.deaths[c])
  }

  lemma SegmentKeepsFit(x: System, ev: M.Event, kind: C.Kind)
    requires Coupled(x) && AllFit(x) && Next(x, Manage(ev, kind)).Some?
    ensures AllFit(Next(x, Manage(ev, kind)).value)
  {
    var y := Next(x, Manage(ev, kind)).value;
    var ms := FailedHandshake(x, ev);
    forall c | 0 <= c < |y.machines| ensures Fits(y.kinds[c], y.machines[c], y.deaths[c]) {
      if c < |x.machines| {
        NextFits(x.kinds[c], x.machines[c], x.deaths[c], C.HandshakeEnds(false));
        DriveFits(x.kinds[c], ms[c], c, x.manager.clients[c], y.manager.clients[c], x.deaths[c]);
      } else {
        NewFits(kind);
      }
    }
  }

  lemma SignalKeepsFit(x: System, c: M.ClientId, e: C.Event)
    requires Coupled(x) && AllFit(x) && c < |x.machines| && Signal(x, c, e).Some?
    ensures AllFit(Signal(x, c, e).value)
  {
    var y := Signal(x, c, e).value;
    var kind, m := x.kinds[c], x.machines[c];
    NextFits(kind, m, x.deaths[c], e);
    var after := C.Next(kind, m, e);
    DriveFits(kind, after, c, x.manager.clients[c], y.manager.clients[c], y.deaths[c]);
  }

  lemma NextKeepsFit(x: System, ev: Event)
    requires Coupled(x) && AllFit(x) && Next(x, ev).Some?
    ensures AllFit(Next(x, ev).value)
  {
    match ev
    case Manage(e, kind) => SegmentKeepsFit(x, e, kind);
    case Transport(c, e) => SignalKeepsFit(x, c, e);
    case LateHandshake(c, ok) => NextFits(x.kinds[c], x.machines[c], x.deaths[c], C.HandshakeEnds(ok));
  }

  // So what McpHistories says of a client by itself holds of every client of the manager.
  lemma ClientsHaveHistories(x: System, c: M.ClientId)
    requires Reachable(x) && c < |x.machines|
    ensures |x.kinds| == |x.deaths| == |x.machines| && Fits(x.kinds[c], x.machines[c], x.deaths[c])
  {
    var xs, evs :| IsRun(xs, evs) && xs[|evs|] == x;
    for n := 0 to |evs|
      invariant Coupled(xs[n]) && AllFit(xs[n])
    {
      assert Follows(xs, evs, n);
      NextKeepsCoupled(xs[n], evs[n]);
      NextKeepsFit(xs[n], evs[n]);
    }
  }

  // ---- what a death does to the entry ----

  // The delivery fails the client's entry, drops and closes the client, and tells the status listeners.
  lemma DeliveryFailsTheEntry(x: System, c: M.ClientId, e: C.Event)
    requires Reachable(x) && Shaped(x) && c < |x.machines| && Next(x, Transport(c, e)).Some?
    requires Next(x, Transport(c, e)).value.machines[c].delivered != x.machines[c].delivered
    ensures L.TakenDown(x.manager, Next(x, Transport(c, e)).value.manager, c)
  {
    ReachableCoupled(x);
    assert Agrees(x.manager.clients[c], x.machines[c], x.deaths[c]);
    SignalToClient(x.kinds[c], x.manager.clients[c], x.machines[c], x.deaths[c], e);
    if Passes(x.kinds[c], x.machines[c], e) {
      DeathOfClient(x.manager, c);
    }
  }

  // A death between the end of the handshake and the end of the attempt is delivered when the attempt
  // ends, and fails the entry then.
  lemma EarlyDeathFailsTheEntry(x: System, t: M.TaskId, kind: C.Kind, y: System)
    requires Reachable(x) && Shaped(x) && Next(x, Manage(M.ResumeConnect(t), kind)) == Some(y)
    requires t < |x.manager.tasks| && x.manager.tasks[t].Discovered?
    requires M.IsCurrent(x.manager, x.manager.tasks[t].entry, x.manager.tasks[t].attemptId)
    requires x.deaths[x.manager.tasks[t].client] > 0
    ensures FailedByDeath(y, x.manager.tasks[t].entry, x.manager.tasks[t].client)
  {
    ReachableCoupled(x);
    var task := x.manager.tasks[t];
    var e, attemptId, c, tools := task.entry, task.attemptId, task.client, task.tools;
    assert M.TaskInv(x.manager, t);
    assert Agrees(x.manager.clients[c], x.machines[c], x.deaths[c]);
    SegmentKeepsAgreement(x, M.ResumeConnect(t), kind, c);
    SegmentMovesManager(x, M.ResumeConnect(t), kind);
    L.EarlyDeathFailsTheEntry(x.manager, t, e, attemptId, c, tools);
    FinishMakesKnown(x.manager, t, e, attemptId, c, tools);
    ResumeIsFinish(x.manager, t, e, attemptId, c, tools);
  }

  lemma ResumeIsFinish(s: M.State, t: M.TaskId, e: M.EntryId, attemptId: nat, c: M.ClientId, tools: seq<M.Tool>)
    requires M.WellFormed(s) && t < |s.tasks| && s.tasks[t] == M.Discovered(e, attemptId, c, tools)
    ensures M.Next(s, M.ResumeConnect(t)) == Some(M.FinishConnect(s, t, e, attemptId, c, tools))
  {
  }

  // The death of client c has been delivered, and has failed entry e.
  predicate FailedByDeath(x: System, e: M.EntryId, c: M.ClientId) {
    && e < |x.manager.objects| && c < |x.machines|
    && x.manager.objects[e].face.status == M.Failed && x.manager.objects[e].face.error == Some(M.ClosedUnexpectedly)
    && x.manager.objects[e].client.None?
    && |x.machines[c].delivered| == 1 && x.machines[c].life.closed
  }

  lemma SegmentMovesManager(x: System, ev: M.Event, kind: C.Kind)
    requires Shaped(x) && Next(x, Manage(ev, kind)).Some?
    ensures M.Next(x.manager, ev) == Some(Next(x, Manage(ev, kind)).value.manager)
    ensures |x.deaths| <= |Next(x, Manage(ev, kind)).value.deaths|
    ensures forall c :: 0 <= c < |x.deaths| ==> Next(x, Manage(ev, kind)).value.deaths[c] == x.deaths[c]
  {
  }

  lemma FinishMakesKnown(s: M.State, t: M.TaskId, e: M.EntryId, attemptId: nat, c: M.ClientId, tools: seq<M.Tool>)
    requires M.Inv(s) && t < |s.tasks| && s.tasks[t] == M.Discovered(e, attemptId, c, tools)
    requires M.IsCurrent(s, e, attemptId)
    ensures M.FinishConnect(s, t, e, attemptId, c, tools).clients[c].watched
  {
    assert M.TaskInv(s, t);
  }

  // A server shown as connected never has a client whose transport has died.
  lemma ConnectedMeansAlive(x: System, name: string)
    requires Reachable(x) && Shaped(x) && name in x.manager.entries
    requires var o := x.manager.objects[x.manager.entries[name]]; o.face.status.Connected? && o.client.Some?
    ensures x.deaths[x.manager.objects[x.manager.entries[name]].client.value] == 0
  {
    ReachableCoupled(x);
    var e := x.manager.entries[name];
    assert M.EntryInv(x.manager, e);
    var c := x.manager.objects[e].client.value;
    assert Agrees(x.manager.clients[c], x.machines[c], x.deaths[c]);
  }

  // A signal before the handshake has ended is no death: it surfaces as a connect that fails.
  lemma SignalsBeforeReadyAreDropped(x: System, c: M.ClientId, e: C.Event)
    requires Reachable(x) && Shaped(x) && c < |x.machines| && !x.machines[c].life.ready
    requires Next(x, Transport(c, e)).Some?
    ensures var y := Next(x, Transport(c, e)).value;
      y.manager == x.manager && y.deaths == x.deaths && y.machines[c].delivered == x.machines[c].delivered
  {
    ReachableCoupled(x);
    assert Agrees(x.manager.clients[c], x.machines[c], x.deaths[c]);
    SignalToClient(x.kinds[c], x.manager.clients[c], x.machines[c], x.deaths[c], e);
  }
}
