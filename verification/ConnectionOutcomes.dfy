/** Every server settles: how its entry looks once its attempts have ended. */
module ConnectionOutcomes {
  import opened Options
  import opened ConnectionManager

  // Status, error, tools and client of an entry always tell the same story.
  predicate Consistent(o: Entry) {
    && (o.face.status.Disabled? <==> !o.config.enabled)
    && (o.face.error.Some? <==> o.face.status.Failed? || o.face.status.NeedsAuth?)
    && (o.face.status.NeedsAuth? <==> o.face.error == Some(RequiresLogin))
    && (o.face.status.NeedsAuth? ==> o.config.canAuthorize)
    && (o.face.tools.Some? <==> o.face.status.Connected?)
    && (o.face.enabledNames.Some? <==> o.face.status.Connected?)
    && (o.client.Some? ==> o.face.status.Connected? || o.face.status.Pending?)
  }

  // The task of the entry's latest attempt has yet to decide how it ends.
  ghost predicate Busy(s: State, e: EntryId)
    requires WellFormed(s) && e < |s.objects|
  {
    var o := s.objects[e];
    o.task < |s.tasks| &&
    var task := s.tasks[o.task];
    !task.Finished? && !task.Reporting? && task.entry == e && task.attemptId == o.attemptId
  }

  ghost predicate Settles(s: State, e: EntryId)
    requires WellFormed(s) && e < |s.objects|
  {
    var o := s.objects[e];
    && Consistent(o)
    && (InMap(s, e) && (o.face.status.Pending? || (o.face.status.Connected? && o.client.None?)) ==> Busy(s, e))
  }

  ghost predicate AllSettle(s: State) {
    && Inv(s)
    && (forall e :: 0 <= e < |s.objects| ==> Settles(s, e))
    && (forall t :: 0 <= t < |s.tasks| && !s.tasks[t].Finished? ==> s.objects[s.tasks[t].entry].config.enabled)
  }

  lemma HandleFailureSettles(s: State, t: TaskId, error: StartupError)
    requires AllSettle(s) && t < |s.tasks| && (s.tasks[t].Closing? || s.tasks[t].Broken?)
    ensures var task := s.tasks[t];
      var client := if task.Broken? then Some(task.client) else None;
      AllSettle(HandleFailure(s, t, task.entry, task.attemptId, client, error))
  {
    HandleFailureKeepsInv(s, t, error);
    var task := s.tasks[t];
    var r := HandleFailure(s, t, task.entry, task.attemptId, if task.Broken? then Some(task.client) else None, error);
    forall e | 0 <= e < |r.objects| ensures Settles(r, e) {
      HandleFailureSettlesEntry(s, t, error, e);
    }
  }

  lemma HandleFailureSettlesEntry(s: State, t: TaskId, error: StartupError, e: EntryId)
    requires AllSettle(s) && t < |s.tasks| && (s.tasks[t].Closing? || s.tasks[t].Broken?) && e < |s.objects|
    ensures var task := s.tasks[t];
      var client := if task.Broken? then Some(task.client) else None;
      Settles(HandleFailure(s, t, task.entry, task.attemptId, client, error), e)
  {
    assert TaskInv(s, t) && Settles(s, e);
  }

  lemma StartConnectSettles(s: State, t: TaskId, invalid: Option<StartupError>)
    requires AllSettle(s) && t < |s.tasks| && s.tasks[t].Closing?
    requires IsCurrent(s, s.tasks[t].entry, s.tasks[t].attemptId) && s.objects[s.tasks[t].entry].face.status.Pending?
    ensures AllSettle(StartConnect(s, t, s.tasks[t].entry, s.tasks[t].attemptId, invalid))
  {
    if invalid.Some? {
      HandleFailureSettles(s, t, invalid.value);
    } else {
      StartConnectKeepsInv(s, t, invalid);
      var r := StartConnect(s, t, s.tasks[t].entry, s.tasks[t].attemptId, invalid);
      forall e | 0 <= e < |r.objects| ensures Settles(r, e) {
        assert Settles(s, e);
      }
    }
  }

  lemma AddSettles(s: State, name: string, config: Config, invalid: Option<StartupError>)
    requires AllSettle(s)
    ensures AllSettle(AddServer(s, name, config, invalid))
  {
    EnlistKeepsInv(s, name, config);
    var r := Enlist(s, name, config);
    forall e | 0 <= e < |r.objects| ensures Settles(r, e) {
      assert e < |s.objects| ==> Settles(s, e);
    }
    if config.enabled {
      StartConnectSettles(r, |s.tasks|, invalid);
    }
  }

  lemma ReconnectSettles(s: State, e: EntryId)
    requires AllSettle(s) && e < |s.objects| && s.objects[e].config.enabled
    ensures AllSettle(BeginReconnect(s, e))
  {
    ReconnectKeepsInv(s, e);
    var r := BeginReconnect(s, e);
    forall d | 0 <= d < |r.objects| ensures Settles(r, d) {
      assert Settles(s, d);
    }
  }

  lemma ResumeReconnectSettles(s: State, t: TaskId, invalid: Option<StartupError>)
    requires AllSettle(s) && t < |s.tasks| && s.tasks[t].Closing?
    ensures AllSettle(ContinueReconnect(s, t, s.tasks[t].entry, s.tasks[t].attemptId, invalid))
  {
    ResumeReconnectKeepsInv(s, t, invalid);
    var e := s.tasks[t].entry;
    assert TaskInv(s, t);
    if IsCurrent(s, e, s.tasks[t].attemptId) {
      var o := s.objects[e].(face := PENDING);
      RestartSettles(s, t);
      StartConnectSettles(Emit(s.(objects := s.objects[e := o]), e), t, invalid);
    } else {
      var r := Become(s, t, Finished);
      forall d | 0 <= d < |r.objects| ensures Settles(r, d) {
        assert Settles(s, d);
      }
    }
  }

  // A reconnect puts its entry back to pending before it connects.
  lemma RestartSettles(s: State, t: TaskId)
    requires AllSettle(s) && t < |s.tasks| && s.tasks[t].Closing? &&
      IsCurrent(s, s.tasks[t].entry, s.tasks[t].attemptId)
    ensures var e := s.tasks[t].entry;
      var o := s.objects[e].(face := PENDING);
      AllSettle(Emit(s.(objects := s.objects[e := o]), e))
  {
    var e := s.tasks[t].entry;
    var o := s.objects[e].(face := PENDING);
    var w := Emit(s.(objects := s.objects[e := o]), e);
    assert TaskInv(s, t);
    forall d | 0 <= d < |w.objects| ensures Settles(w, d) && EntryInv(w, d) {
      assert Settles(s, d) && EntryInv(s, d);
    }
    forall u | 0 <= u < |w.tasks| ensures TaskInv(w, u) {
      assert TaskInv(s, u);
    }
  }

  lemma UnexpectedCloseSettles(s: State, c: ClientId)
    requires AllSettle(s) && c < |s.clients| && s.clients[c].watched
    ensures AllSettle(OnUnexpectedClose(s, c, s.clients[c].entry, s.clients[c].attemptId))
  {
    UnexpectedCloseKeepsInv(s, c);
    var r := OnUnexpectedClose(s, c, s.clients[c].entry, s.clients[c].attemptId);
    forall d | 0 <= d < |r.objects| ensures Settles(r, d) {
      assert Settles(s, d);
    }
  }

  lemma SettleSettles(s: State, t: TaskId)
    requires AllSettle(s) && t < |s.tasks| && s.tasks[t].Discovered?
    ensures AllSettle(Settle(s, t))
  {
    SettleKeepsInv(s, t);
    assert TaskInv(s, t);
    var r := Settle(s, t);
    forall d | 0 <= d < |r.objects| ensures Settles(r, d) {
      assert Settles(s, d);
    }
  }

  lemma EmitSettles(s: State, e: EntryId)
    requires AllSettle(s) && e < |s.objects|
    ensures AllSettle(Emit(s, e))
  {
    EmitKeepsInv(s, e);
    forall d | 0 <= d < |s.objects| ensures Settles(Emit(s, e), d) {
      assert Settles(s, d);
    }
  }

  lemma ResumeConnectSettles(s: State, t: TaskId)
    requires AllSettle(s) && Next(s, ResumeConnect(t)).Some?
    ensures AllSettle(Next(s, ResumeConnect(t)).value)
  {
    var task := s.tasks[t];
    assert TaskInv(s, t);
    if task.Broken? {
      HandleFailureSettles(s, t, task.error);
    } else {
      var w := Settle(s, t);
      SettleSettles(s, t);
      if IsCurrent(s, task.entry, task.attemptId) {
        if s.clients[task.client].died {
          UnexpectedCloseSettles(w, task.client);
          EmitSettles(OnUnexpectedClose(w, task.client, task.entry, task.attemptId), task.entry);
        } else {
          EmitSettles(w, task.entry);
        }
      }
    }
  }

  lemma ShutDownSettles(s: State)
    requires AllSettle(s)
    ensures AllSettle(ShutDown(s))
  {
    ShutDownKeepsInv(s);
    forall e | 0 <= e < |s.objects| ensures Settles(ShutDown(s), e) {
      assert Settles(s, e);
    }
  }

  // The outcome of the race leaves every entry as it is.
  lemma DecideSettles(s: State, ev: Event)
    requires AllSettle(s) && Next(s, ev).Some?
    requires ev.ClientReady? || ev.ConnectSucceeds? || ev.ConnectFails? || ev.ConnectTimesOut?
    ensures AllSettle(Next(s, ev).value)
  {
    NextKeepsInv(s, ev);
    var r := Next(s, ev).value;
    forall e | 0 <= e < |r.objects| ensures Settles(r, e) {
      assert Settles(s, e);
    }
  }

  lemma ResumeReportSettles(s: State, t: TaskId)
    requires AllSettle(s) && Next(s, ResumeReport(t)).Some?
    ensures AllSettle(Next(s, ResumeReport(t)).value)
  {
    ResumeReportKeepsInv(s, t);
    var r := Next(s, ResumeReport(t)).value;
    forall e | 0 <= e < |r.objects| ensures Settles(r, e) {
      assert Settles(s, e);
    }
  }

  lemma UnheardDeathSettles(s: State, c: ClientId)
    requires AllSettle(s) && c < |s.clients| && !s.clients[c].watched && Next(s, TransportDies(c)).Some?
    ensures AllSettle(Next(s, TransportDies(c)).value)
  {
    TransportDiesKeepsInv(s, c);
    var r := Next(s, TransportDies(c)).value;
    forall e | 0 <= e < |r.objects| ensures Settles(r, e) {
      assert Settles(s, e);
    }
  }

  lemma NextSettles(s: State, ev: Event)
    requires AllSettle(s) && Next(s, ev).Some?
    ensures AllSettle(Next(s, ev).value)
  {
    match ev
    case Add(name, config, invalid) => AddSettles(s, name, config, invalid);
    case Reconnect(name) => ReconnectSettles(s, s.entries[name]);
    case ResumeReconnect(t, invalid) => ResumeReconnectSettles(s, t, invalid);
    case ResumeConnect(t) => ResumeConnectSettles(s, t);
    case TransportDies(c) =>
      if s.clients[c].watched {
        UnexpectedCloseSettles(s, c);
      } else {
        UnheardDeathSettles(s, c);
      }
    case ResumeReport(t) => ResumeReportSettles(s, t);
    case Shutdown => ShutDownSettles(s);
    case _ => DecideSettles(s, ev);
  }

  lemma ReachableSettles(s: State)
    requires Reachable(s)
    ensures AllSettle(s)
  {
    var evs :| LeadsTo(EMPTY, evs, s);
    var xs :| IsRun(xs, evs) && xs[0] == EMPTY && xs[|evs|] == s;
    for n := 0 to |evs|
      invariant AllSettle(xs[n])
    {
      assert Follows(xs, evs, n);
      NextSettles(xs[n], evs[n]);
    }
  }

  // Once nothing is in flight no server is left pending: each is disabled, failed or waiting for a
  // login with the matching error and no client, or connected, and then its tools can be called.
  lemma EveryServerSettles(s: State, name: string)
    requires Reachable(s) && Quiescent(s) && name in s.entries
    ensures var o := s.objects[s.entries[name]];
      && Consistent(o) && !o.face.status.Pending?
      && (o.face.status.Connected? <==> o.client.Some?)
      && (o.face.status.Connected? <==> Resolved(s, name).Some?)
  {
    ReachableSettles(s);
    assert Settles(s, s.entries[name]);
  }

  // How an attempt that failed ends, if it is still current: only an unauthorized answer of a server
  // that can be logged in to asks for a login.
  lemma FailureIsClassified(s: State, t: TaskId)
    requires Reachable(s) && t < |s.tasks| && s.tasks[t].Broken?
    requires IsCurrent(s, s.tasks[t].entry, s.tasks[t].attemptId)
    ensures var task := s.tasks[t];
      var r := Next(s, ResumeConnect(t)).value;
      var o := r.objects[task.entry];
      && (o.face.status.NeedsAuth? <==> o.config.canAuthorize && task.error.unauthorizedLike)
      && (o.face.status.Failed? <==> o.face.error == Some(StartupFailed(task.error.message)))
      && (o.face.status.NeedsAuth? || o.face.status.Failed?)
      && o.client.None? && r.clients[task.client].closed && r.tasks[t].Reporting?
  {
    ReachableInv(s);
    assert TaskInv(s, t);
  }
}
