/** What status listeners have heard when nothing is in flight is how every server stands. */
module ConnectionNews {
  import opened Options
  import opened ConnectionManager

  function LastView(emitted: seq<View>, name: string): Option<View> {
    if emitted == [] then None
    else if emitted[|emitted| - 1].name == name then Some(emitted[|emitted| - 1])
    else LastView(emitted[..|emitted| - 1], name)
  }

  // The last view emitted for an entry in the map is how it looks now, or the task of its latest
  // attempt has yet to emit.
  ghost predicate Told(s: State, e: EntryId)
    requires WellFormed(s) && e < |s.objects|
  {
    var o := s.objects[e];
    InMap(s, e) ==>
      || LastView(s.emitted, o.name) == Some(ToPublicEntry(o))
      || (o.task < |s.tasks| && (s.tasks[o.task].Closing? || s.tasks[o.task].Reporting?)
          && s.tasks[o.task].entry == e && s.tasks[o.task].attemptId == o.attemptId)
  }

  ghost predicate AllTold(s: State) {
    Inv(s) && forall e :: 0 <= e < |s.objects| ==> Told(s, e)
  }

  lemma EmittedView(emitted: seq<View>, view: View, name: string)
    ensures LastView(emitted + [view], name) == if view.name == name then Some(view) else LastView(emitted, name)
  {
    assert (emitted + [view])[..|emitted|] == emitted;
  }

  // Emitting entry e informs about e and changes nothing for the others.
  lemma EmitTells(s: State, e: EntryId, d: EntryId)
    requires Inv(s) && e < |s.objects| && InMap(s, e) && d < |s.objects| && (d == e || Told(s, d))
    ensures Told(Emit(s, e), d)
  {
    EmittedView(s.emitted, ToPublicEntry(s.objects[e]), s.objects[d].name);
  }

  lemma HandleFailureKeepsTold(s: State, t: TaskId, error: StartupError)
    requires AllTold(s) && t < |s.tasks| && (s.tasks[t].Closing? || s.tasks[t].Broken?)
    ensures var task := s.tasks[t];
      AllTold(HandleFailure(s, t, task.entry, task.attemptId, if task.Broken? then Some(task.client) else None, error))
  {
    HandleFailureKeepsInv(s, t, error);
    var task := s.tasks[t];
    var r := HandleFailure(s, t, task.entry, task.attemptId, if task.Broken? then Some(task.client) else None, error);
    assert TaskInv(s, t);
    forall e | 0 <= e < |r.objects| ensures Told(r, e) {
      assert Told(s, e);
    }
  }

  // Needs the entry itself to be up to date, since the task stops owing a view.
  lemma StartConnectKeepsTold(s: State, t: TaskId, invalid: Option<StartupError>)
    requires AllTold(s) && t < |s.tasks| && s.tasks[t].Closing?
    requires IsCurrent(s, s.tasks[t].entry, s.tasks[t].attemptId) && s.objects[s.tasks[t].entry].face.status.Pending?
    requires LastView(s.emitted, s.objects[s.tasks[t].entry].name) == Some(ToPublicEntry(s.objects[s.tasks[t].entry]))
    ensures AllTold(StartConnect(s, t, s.tasks[t].entry, s.tasks[t].attemptId, invalid))
  {
    StartConnectKeepsInv(s, t, invalid);
    if invalid.Some? {
      HandleFailureKeepsTold(s, t, invalid.value);
    } else {
      var r := StartConnect(s, t, s.tasks[t].entry, s.tasks[t].attemptId, invalid);
      forall e | 0 <= e < |r.objects| ensures Told(r, e) {
        assert Told(s, e);
      }
    }
  }

  lemma AddKeepsTold(s: State, name: string, config: Config, invalid: Option<StartupError>)
    requires AllTold(s)
    ensures AllTold(AddServer(s, name, config, invalid))
  {
    EnlistKeepsInv(s, name, config);
    var r := Enlist(s, name, config);
    var view := ToPublicEntry(r.objects[|s.objects|]);
    assert r.emitted == s.emitted + [view];
    EmittedView(s.emitted, view, name);
    forall e | 0 <= e < |r.objects| ensures Told(r, e) {
      if e < |s.objects| {
        assert Told(s, e);
        EmittedView(s.emitted, view, s.objects[e].name);
      }
    }
    if config.enabled {
      StartConnectKeepsTold(r, |s.tasks|, invalid);
    }
  }

  // The pending view a reconnect emits is how its entry then looks.
  lemma RestartKeepsTold(s: State, t: TaskId)
    requires AllTold(s) && t < |s.tasks| && s.tasks[t].Closing? && IsCurrent(s, s.tasks[t].entry, s.tasks[t].attemptId)
    ensures var e := s.tasks[t].entry;
      var o := s.objects[e].(face := PENDING);
      var w := Emit(s.(objects := s.objects[e := o]), e);
      AllTold(w) && LastView(w.emitted, o.name) == Some(ToPublicEntry(o))
  {
    var e := s.tasks[t].entry;
    assert TaskInv(s, t);
    var o := s.objects[e].(face := PENDING);
    var m := s.(objects := s.objects[e := o]);
    forall d | 0 <= d < |m.objects| ensures EntryInv(m, d) {
      assert EntryInv(s, d);
    }
    forall u | 0 <= u < |m.tasks| ensures TaskInv(m, u) {
      assert TaskInv(s, u);
    }
    EmitKeepsInv(m, e);
    forall d | 0 <= d < |m.objects| ensures Told(Emit(m, e), d) {
      assert Told(s, d);
      EmitTells(m, e, d);
    }
    EmittedView(s.emitted, ToPublicEntry(o), o.name);
  }

  lemma ResumeReconnectKeepsTold(s: State, t: TaskId, invalid: Option<StartupError>)
    requires AllTold(s) && t < |s.tasks| && s.tasks[t].Closing?
    ensures AllTold(ContinueReconnect(s, t, s.tasks[t].entry, s.tasks[t].attemptId, invalid))
  {
    ResumeReconnectKeepsInv(s, t, invalid);
    var e := s.tasks[t].entry;
    assert TaskInv(s, t);
    if IsCurrent(s, e, s.tasks[t].attemptId) {
      var o := s.objects[e].(face := PENDING);
      RestartKeepsTold(s, t);
      StartConnectKeepsTold(Emit(s.(objects := s.objects[e := o]), e), t, invalid);
    } else {
      var r := Become(s, t, Finished);
      forall d | 0 <= d < |r.objects| ensures Told(r, d) {
        assert Told(s, d);
      }
    }
  }

  lemma UnexpectedCloseKeepsTold(s: State, c: ClientId)
    requires AllTold(s) && c < |s.clients| && s.clients[c].watched
    ensures AllTold(OnUnexpectedClose(s, c, s.clients[c].entry, s.clients[c].attemptId))
  {
    UnexpectedCloseKeepsInv(s, c);
    var r := OnUnexpectedClose(s, c, s.clients[c].entry, s.clients[c].attemptId);
    forall e | 0 <= e < |r.objects| ensures Told(r, e) {
      assert Told(s, e);
      EmittedView(s.emitted, ToPublicEntry(r.objects[s.clients[c].entry]), s.objects[e].name);
    }
  }

  ghost predicate OthersTold(s: State, e: EntryId) {
    Inv(s) && forall d :: 0 <= d < |s.objects| && d != e ==> Told(s, d)
  }

  // Settling may leave the one entry it connects to be told about by the emit that follows.
  lemma SettleLeavesOthersTold(s: State, t: TaskId)
    requires AllTold(s) && t < |s.tasks| && s.tasks[t].Discovered?
    ensures OthersTold(Settle(s, t), s.tasks[t].entry)
    ensures !IsCurrent(s, s.tasks[t].entry, s.tasks[t].attemptId) ==> AllTold(Settle(s, t))
  {
    SettleKeepsInv(s, t);
    var w := Settle(s, t);
    var task := s.tasks[t];
    assert TaskInv(s, t);
    forall d | 0 <= d < |w.objects| && (d != task.entry || !IsCurrent(s, task.entry, task.attemptId))
      ensures Told(w, d)
    {
      assert Told(s, d);
    }
  }

  lemma CloseLeavesOthersTold(s: State, c: ClientId, e: EntryId)
    requires c < |s.clients| && OthersTold(s, e) && s.clients[c].watched && s.clients[c].entry == e
    ensures OthersTold(OnUnexpectedClose(s, c, e, s.clients[c].attemptId), e)
  {
    UnexpectedCloseKeepsInv(s, c);
    var v := OnUnexpectedClose(s, c, e, s.clients[c].attemptId);
    forall d | 0 <= d < |v.objects| && d != e ensures Told(v, d) {
      assert Told(s, d);
      EmittedView(s.emitted, ToPublicEntry(v.objects[e]), s.objects[d].name);
    }
  }

  lemma EmitTellsAll(s: State, e: EntryId)
    requires e < |s.objects| && OthersTold(s, e) && InMap(s, e)
    ensures AllTold(Emit(s, e))
  {
    EmitKeepsInv(s, e);
    forall d | 0 <= d < |s.objects| ensures Told(Emit(s, e), d) {
      EmitTells(s, e, d);
    }
  }

  lemma ResumeConnectKeepsTold(s: State, t: TaskId)
    requires AllTold(s) && Next(s, ResumeConnect(t)).Some?
    ensures AllTold(Next(s, ResumeConnect(t)).value)
  {
    var task := s.tasks[t];
    assert TaskInv(s, t);
    if task.Broken? {
      HandleFailureKeepsTold(s, t, task.error);
    } else {
      var e := task.entry;
      var w := Settle(s, t);
      SettleLeavesOthersTold(s, t);
      if IsCurrent(s, e, task.attemptId) {
        if s.clients[task.client].died {
          CloseLeavesOthersTold(w, task.client, e);
          EmitTellsAll(OnUnexpectedClose(w, task.client, e, task.attemptId), e);
        } else {
          EmitTellsAll(w, e);
        }
      }
    }
  }

  lemma ResumeReportKeepsTold(s: State, t: TaskId)
    requires AllTold(s) && Next(s, ResumeReport(t)).Some?
    ensures AllTold(Next(s, ResumeReport(t)).value)
  {
    ResumeReportKeepsInv(s, t);
    var task := s.tasks[t];
    assert TaskInv(s, t);
    var r := Next(s, ResumeReport(t)).value;
    forall d | 0 <= d < |r.objects| ensures Told(r, d) {
      assert Told(s, d);
      EmittedView(s.emitted, ToPublicEntry(s.objects[task.entry]), s.objects[d].name);
    }
  }

  // The outcome of the race changes neither how an entry looks nor what has been emitted.
  lemma DecideKeepsTold(s: State, ev: Event)
    requires AllTold(s) && Next(s, ev).Some?
    requires ev.ClientReady? || ev.ConnectSucceeds? || ev.ConnectFails? || ev.ConnectTimesOut?
    ensures AllTold(Next(s, ev).value)
  {
    NextKeepsInv(s, ev);
    var r := Next(s, ev).value;
    forall e | 0 <= e < |r.objects| ensures Told(r, e) {
      assert Told(s, e);
    }
  }

  lemma ReconnectKeepsTold(s: State, e: EntryId)
    requires AllTold(s) && e < |s.objects|
    ensures AllTold(BeginReconnect(s, e))
  {
    ReconnectKeepsInv(s, e);
    var r := BeginReconnect(s, e);
    forall d | 0 <= d < |r.objects| ensures Told(r, d) {
      assert Told(s, d);
    }
  }

  lemma ShutDownKeepsTold(s: State)
    requires AllTold(s)
    ensures AllTold(ShutDown(s))
  {
    ShutDownKeepsInv(s);
  }

  lemma UnheardDeathKeepsTold(s: State, c: ClientId)
    requires AllTold(s) && c < |s.clients| && !s.clients[c].watched && Next(s, TransportDies(c)).Some?
    ensures AllTold(Next(s, TransportDies(c)).value)
  {
    TransportDiesKeepsInv(s, c);
    var r := Next(s, TransportDies(c)).value;
    forall e | 0 <= e < |r.objects| ensures Told(r, e) {
      assert Told(s, e);
    }
  }

  lemma NextKeepsTold(s: State, ev: Event)
    requires AllTold(s) && Next(s, ev).Some?
    ensures AllTold(Next(s, ev).value)
  {
    match ev
    case Add(name, config, invalid) => AddKeepsTold(s, name, config, invalid);
    case ResumeReconnect(t, invalid) => ResumeReconnectKeepsTold(s, t, invalid);
    case ResumeConnect(t) => ResumeConnectKeepsTold(s, t);
    case ResumeReport(t) => ResumeReportKeepsTold(s, t);
    case TransportDies(c) =>
      if s.clients[c].watched {
        UnexpectedCloseKeepsTold(s, c);
      } else {
        UnheardDeathKeepsTold(s, c);
      }
    case Reconnect(name) => ReconnectKeepsTold(s, s.entries[name]);
    case Shutdown => ShutDownKeepsTold(s);
    case _ => DecideKeepsTold(s, ev);
  }

  lemma ReachableTold(s: State)
    requires Reachable(s)
    ensures AllTold(s)
  {
    var evs :| LeadsTo(EMPTY, evs, s);
    var xs :| IsRun(xs, evs) && xs[0] == EMPTY && xs[|evs|] == s;
    for n := 0 to |evs|
      invariant AllTold(xs[n])
    {
      assert Follows(xs, evs, n);
      NextKeepsTold(xs[n], evs[n]);
    }
  }

  // When nothing is in flight, the last thing listeners heard about each server is how it stands.
  lemma ListenersEndUpInformed(s: State, name: string)
    requires Reachable(s) && Quiescent(s) && name in s.entries
    ensures LastView(s.emitted, name) == Some(ToPublicEntry(s.objects[s.entries[name]]))
  {
    ReachableTold(s);
    assert Told(s, s.entries[name]);
  }
}
