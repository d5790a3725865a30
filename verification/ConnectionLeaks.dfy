/**
 * No client the connection manager creates is left open without an owner, and the death of a
 * transport takes its entry down.
 */
module ConnectionLeaks {
  import opened Options
  import opened ConnectionManager

  // An open client is in the hands of the task that created it, or serves a connected entry.
  ghost predicate Owned(s: State, c: ClientId)
    requires WellFormed(s) && c < |s.clients|
  {
    var k := s.clients[c];
    || k.closed
    || (HasClient(s.tasks[k.task]) && s.tasks[k.task].client == c)
    || (InMap(s, k.entry) && s.objects[k.entry].client == Some(c) && s.objects[k.entry].face.status.Connected?)
  }

  ghost predicate NoLeak(s: State) {
    Inv(s) && forall c :: 0 <= c < |s.clients| ==> Owned(s, c)
  }

  lemma HandleFailureKeepsNoLeak(s: State, t: TaskId, error: StartupError)
    requires NoLeak(s) && t < |s.tasks| && (s.tasks[t].Closing? || s.tasks[t].Broken?)
    ensures var task := s.tasks[t];
      NoLeak(HandleFailure(s, t, task.entry, task.attemptId, if task.Broken? then Some(task.client) else None, error))
  {
    HandleFailureKeepsInv(s, t, error);
    var task := s.tasks[t];
    var r := HandleFailure(s, t, task.entry, task.attemptId, if task.Broken? then Some(task.client) else None, error);
    assert TaskInv(s, t);
    forall c | 0 <= c < |r.clients| ensures Owned(r, c) {
      assert Owned(s, c);
    }
  }

  lemma StartConnectKeepsNoLeak(s: State, t: TaskId, invalid: Option<StartupError>)
    requires NoLeak(s) && t < |s.tasks| && s.tasks[t].Closing?
    requires IsCurrent(s, s.tasks[t].entry, s.tasks[t].attemptId) && s.objects[s.tasks[t].entry].face.status.Pending?
    ensures NoLeak(StartConnect(s, t, s.tasks[t].entry, s.tasks[t].attemptId, invalid))
  {
    StartConnectKeepsInv(s, t, invalid);
    assert TaskInv(s, t);
    if invalid.Some? {
      HandleFailureKeepsNoLeak(s, t, invalid.value);
    } else {
      var r := StartConnect(s, t, s.tasks[t].entry, s.tasks[t].attemptId, invalid);
      forall c | 0 <= c < |r.clients| ensures Owned(r, c) {
        assert c < |s.clients| ==> Owned(s, c);
      }
    }
  }

  lemma AddKeepsNoLeak(s: State, name: string, config: Config, invalid: Option<StartupError>)
    requires NoLeak(s) && name !in s.entries
    ensures NoLeak(AddServer(s, name, config, invalid))
  {
    EnlistKeepsInv(s, name, config);
    var added := Enlist(s, name, config);
    forall c | 0 <= c < |added.clients| ensures Owned(added, c) {
      assert Owned(s, c);
    }
    if config.enabled {
      StartConnectKeepsNoLeak(added, |s.tasks|, invalid);
    }
  }

  lemma ReconnectKeepsNoLeak(s: State, e: EntryId)
    requires NoLeak(s) && e < |s.objects|
    ensures NoLeak(BeginReconnect(s, e))
  {
    ReconnectKeepsInv(s, e);
    var r := BeginReconnect(s, e);
    forall c | 0 <= c < |r.clients| ensures Owned(r, c) {
      assert Owned(s, c);
    }
  }

  lemma ResumeReconnectKeepsNoLeak(s: State, t: TaskId, invalid: Option<StartupError>)
    requires NoLeak(s) && t < |s.tasks| && s.tasks[t].Closing?
    ensures NoLeak(ContinueReconnect(s, t, s.tasks[t].entry, s.tasks[t].attemptId, invalid))
  {
    ResumeReconnectKeepsInv(s, t, invalid);
    var e := s.tasks[t].entry;
    var r := ContinueReconnect(s, t, e, s.tasks[t].attemptId, invalid);
    assert TaskInv(s, t);
    forall c | 0 <= c < |r.clients| ensures Owned(r, c) {
      assert c < |s.clients| ==> Owned(s, c);
    }
  }

  lemma DecideKeepsNoLeak(s: State, ev: Event, t: TaskId)
    requires NoLeak(s) && Next(s, ev).Some?
    requires (ev.ClientReady? || ev.ConnectSucceeds? || ev.ConnectFails? || ev.ConnectTimesOut?) && t == ev.task
    ensures NoLeak(Next(s, ev).value)
  {
    DecideKeepsInv(s, ev, t);
    var r := Next(s, ev).value;
    assert TaskInv(s, t);
    forall c | 0 <= c < |r.clients| ensures Owned(r, c) {
      assert Owned(s, c);
    }
  }

  lemma UnexpectedCloseKeepsNoLeak(s: State, c: ClientId)
    requires NoLeak(s) && c < |s.clients| && s.clients[c].watched
    ensures NoLeak(OnUnexpectedClose(s, c, s.clients[c].entry, s.clients[c].attemptId))
  {
    UnexpectedCloseKeepsInv(s, c);
    var r := OnUnexpectedClose(s, c, s.clients[c].entry, s.clients[c].attemptId);
    forall d | 0 <= d < |r.clients| ensures Owned(r, d) {
      assert Owned(s, d);
    }
  }

  lemma SettleKeepsNoLeak(s: State, t: TaskId)
    requires NoLeak(s) && t < |s.tasks| && s.tasks[t].Discovered?
    ensures NoLeak(Settle(s, t))
  {
    SettleKeepsInv(s, t);
    var r := Settle(s, t);
    assert TaskInv(s, t);
    forall c | 0 <= c < |r.clients| ensures Owned(r, c) {
      assert Owned(s, c);
    }
  }

  lemma EmitKeepsNoLeak(s: State, e: EntryId)
    requires NoLeak(s) && e < |s.objects|
    ensures NoLeak(Emit(s, e))
  {
    EmitKeepsInv(s, e);
    forall c | 0 <= c < |s.clients| ensures Owned(Emit(s, e), c) {
      assert Owned(s, c);
    }
  }

  lemma ResumeConnectKeepsNoLeak(s: State, t: TaskId)
    requires NoLeak(s) && Next(s, ResumeConnect(t)).Some?
    ensures NoLeak(Next(s, ResumeConnect(t)).value)
  {
    var task := s.tasks[t];
    if task.Broken? {
      HandleFailureKeepsNoLeak(s, t, task.error);
    } else {
      var w := Settle(s, t);
      SettleKeepsNoLeak(s, t);
      if IsCurrent(s, task.entry, task.attemptId) {
        assert TaskInv(s, t);
        if s.clients[task.client].died {
          UnexpectedCloseKeepsNoLeak(w, task.client);
          w := OnUnexpectedClose(w, task.client, task.entry, task.attemptId);
        }
        EmitKeepsNoLeak(w, task.entry);
      }
    }
  }

  lemma ResumeReportKeepsNoLeak(s: State, t: TaskId)
    requires NoLeak(s) && Next(s, ResumeReport(t)).Some?
    ensures NoLeak(Next(s, ResumeReport(t)).value)
  {
    ResumeReportKeepsInv(s, t);
    var r := Next(s, ResumeReport(t)).value;
    forall c | 0 <= c < |r.clients| ensures Owned(r, c) {
      assert Owned(s, c);
    }
  }

  lemma TransportDiesKeepsNoLeak(s: State, c: ClientId)
    requires NoLeak(s) && Next(s, TransportDies(c)).Some?
    ensures NoLeak(Next(s, TransportDies(c)).value)
  {
    TransportDiesKeepsInv(s, c);
    if s.clients[c].watched {
      UnexpectedCloseKeepsNoLeak(s, c);
    } else {
      var r := Next(s, TransportDies(c)).value;
      forall d | 0 <= d < |r.clients| ensures Owned(r, d) {
        assert Owned(s, d);
      }
    }
  }

  lemma ShutDownKeepsNoLeak(s: State)
    requires NoLeak(s)
    ensures NoLeak(ShutDown(s))
  {
    ShutDownKeepsInv(s);
    var r := ShutDown(s);
    forall c | 0 <= c < |r.clients| ensures Owned(r, c) {
      assert Owned(s, c);
    }
  }

  lemma NextKeepsNoLeak(s: State, ev: Event)
    requires NoLeak(s) && Next(s, ev).Some? && (ev.Add? ==> ev.name !in s.entries)
    ensures NoLeak(Next(s, ev).value)
  {
    match ev
    case Add(name, config, invalid) => AddKeepsNoLeak(s, name, config, invalid);
    case Reconnect(name) => ReconnectKeepsNoLeak(s, s.entries[name]);
    case ResumeReconnect(t, invalid) => ResumeReconnectKeepsNoLeak(s, t, invalid);
    case ClientReady(t) => DecideKeepsNoLeak(s, ev, t);
    case ConnectSucceeds(t, tools) => DecideKeepsNoLeak(s, ev, t);
    case ConnectFails(t, error) => DecideKeepsNoLeak(s, ev, t);
    case ConnectTimesOut(t) => DecideKeepsNoLeak(s, ev, t);
    case ResumeConnect(t) => ResumeConnectKeepsNoLeak(s, t);
    case ResumeReport(t) => ResumeReportKeepsNoLeak(s, t);
    case TransportDies(c) => TransportDiesKeepsNoLeak(s, c);
    case Shutdown => ShutDownKeepsNoLeak(s);
  }

  // Every name a run adds is new at that moment.
  ghost predicate AddsFreshNames(xs: seq<State>, evs: seq<Event>)
    requires |xs| == |evs| + 1
  {
    forall i :: 0 <= i < |evs| && evs[i].Add? ==> evs[i].name !in xs[i].entries
  }

  lemma RunKeepsNoLeak(xs: seq<State>, evs: seq<Event>)
    requires IsRun(xs, evs) && AddsFreshNames(xs, evs) && NoLeak(xs[0])
    ensures NoLeak(xs[|evs|])
  {
    for n := 0 to |evs|
      invariant NoLeak(xs[n])
    {
      assert Follows(xs, evs, n);
      NextKeepsNoLeak(xs[n], evs[n]);
    }
  }

  // A state some run leads to that adds each name once.
  ghost predicate ReachableWithFreshNames(s: State) {
    WellFormed(s) && exists xs, evs :: IsRun(xs, evs) && AddsFreshNames(xs, evs) && xs[0] == EMPTY && xs[|evs|] == s
  }

  lemma ReachableNoLeak(s: State)
    requires ReachableWithFreshNames(s)
    ensures NoLeak(s)
  {
    var xs, evs :| IsRun(xs, evs) && AddsFreshNames(xs, evs) && xs[0] == EMPTY && xs[|evs|] == s;
    RunKeepsNoLeak(xs, evs);
  }

  // When nothing is in flight, every client ever created is closed, except the one client of each
  // connected entry in the map.
  lemma NoClientLeaks(s: State, c: ClientId)
    requires ReachableWithFreshNames(s) && Quiescent(s) && c < |s.clients|
    ensures
      s.clients[c].closed ||
      exists n :: n in s.entries && s.objects[s.entries[n]].face.status.Connected? &&
        s.objects[s.entries[n]].client == Some(c)
  {
    ReachableNoLeak(s);
    assert Owned(s, c);
    if !s.clients[c].closed {
      assert s.objects[s.clients[c].entry].name in s.entries;
    }
  }

  lemma {:induction false} EmptyMapStaysEmpty(xs: seq<State>, evs: seq<Event>, n: nat)
    requires IsRun(xs, evs) && xs[0].entries == map[] && n <= |evs|
    requires forall ev :: ev in evs ==> !ev.Add?
    ensures xs[n].entries == map[]
    decreases n
  {
    if n > 0 {
      EmptyMapStaysEmpty(xs, evs, n - 1);
      assert Follows(xs, evs, n - 1) && evs[n - 1] in evs;
    }
  }

  // After a shutdown with no servers added since, once in-flight attempts have settled every client
  // ever created is closed.
  lemma ShutdownClosesEveryClient(s: State, xs: seq<State>, after: seq<Event>, c: ClientId)
    requires ReachableWithFreshNames(s)
    requires IsRun(xs, after) && xs[0] == ShutDown(s) && forall ev :: ev in after ==> !ev.Add?
    requires var r := xs[|after|]; WellFormed(r) && Quiescent(r) && c < |r.clients|
    ensures xs[|after|].clients[c].closed
  {
    ReachableNoLeak(s);
    ShutDownKeepsNoLeak(s);
    EmptyMapStaysEmpty(xs, after, |after|);
    RunKeepsNoLeak(xs, after);
    assert Owned(xs[|after|], c);
  }

  // The close of a watched, open client takes its entry down: failed, with the reason, without
  // client or tools, and the listeners are told.
  ghost predicate TakenDown(s: State, r: State, c: ClientId)
    requires WellFormed(s) && c < |s.clients|
  {
    var e := s.clients[c].entry;
    && InMap(s, e) && s.objects[e].client == Some(c)
    && r.objects == s.objects[e := s.objects[e].(face := CLOSED, client := None)]
    && c < |r.clients| && r.clients[c].closed
    && r.emitted == s.emitted + [View(s.objects[e].name, Failed, 0, Some(ClosedUnexpectedly))]
  }

  lemma WatchedDeathTakesDown(s: State, c: ClientId)
    requires NoLeak(s) && c < |s.clients| && s.clients[c].watched && !s.clients[c].closed
    ensures Next(s, TransportDies(c)).Some? && TakenDown(s, Next(s, TransportDies(c)).value, c)
  {
    assert Owned(s, c);
    assert TaskInv(s, s.clients[c].task);
    assert EntryInv(s, s.clients[c].entry);
  }

  lemma DeathFailsTheEntry(s: State, c: ClientId)
    requires ReachableWithFreshNames(s) && c < |s.clients| && s.clients[c].watched && !s.clients[c].closed
    ensures Next(s, TransportDies(c)).Some? && TakenDown(s, Next(s, TransportDies(c)).value, c)
  {
    ReachableNoLeak(s);
    WatchedDeathTakesDown(s, c);
  }

  lemma ClosingFailsTheEntry(s: State, c: ClientId, e: EntryId, attemptId: nat)
    requires WellFormed(s) && c < |s.clients| && e < |s.objects|
    requires IsCurrent(s, e, attemptId) && s.objects[e].client == Some(c)
    ensures var r := OnUnexpectedClose(s, c, e, attemptId);
      var o := r.objects[e];
      && o.face == CLOSED && o.client.None?
      && r.clients[c].closed && IsCurrent(r, e, attemptId)
  {
  }

  lemma FinishReplaysTheClose(s: State, t: TaskId)
    requires WellFormed(s) && t < |s.tasks| && s.tasks[t].Discovered?
    requires IsCurrent(s, s.tasks[t].entry, s.tasks[t].attemptId) && s.clients[s.tasks[t].client].died
    requires s.objects[s.tasks[t].entry].client == Some(s.tasks[t].client)
    ensures var task := s.tasks[t];
      FinishConnect(s, t, task.entry, task.attemptId, task.client, task.tools) ==
      Emit(OnUnexpectedClose(Settle(s, t), task.client, task.entry, task.attemptId), task.entry)
  {
  }

  // A close that came before anybody watched is replayed when the attempt finishes: the entry ends
  // up failed, not connected to a dead client.
  lemma EarlyDeathFailsTheEntry(s: State, t: TaskId, e: EntryId, attemptId: nat, c: ClientId, tools: seq<Tool>)
    requires Inv(s) && t < |s.tasks| && s.tasks[t] == Discovered(e, attemptId, c, tools)
    requires IsCurrent(s, e, attemptId) && s.clients[c].died
    ensures var r := FinishConnect(s, t, e, attemptId, c, tools);
      var o := r.objects[e];
      && o.face == CLOSED && o.client.None?
      && r.clients[c].closed
  {
    assert TaskInv(s, t);
    FinishReplaysTheClose(s, t);
    ClosingFailsTheEntry(Settle(s, t), c, e, attemptId);
  }
}
