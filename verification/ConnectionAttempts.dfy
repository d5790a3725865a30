/**
 * Superseded attempts: once a reconnect, a shutdown or a replaced entry has taken over, nothing the old
 * attempt still does shows, in any continuation.
 */
module ConnectionAttempts {
  import opened Options
  import opened ConnectionManager

  function ActingTask(ev: Event): Option<TaskId> {
    match ev
    case ResumeReconnect(t, _) => Some(t)
    case ClientReady(t) => Some(t)
    case ConnectSucceeds(t, _) => Some(t)
    case ConnectFails(t, _) => Some(t)
    case ConnectTimesOut(t) => Some(t)
    case ResumeConnect(t) => Some(t)
    case ResumeReport(t) => Some(t)
    case _ => None
  }

  // The event is a step of this attempt's call, or the death of the client it created.
  predicate BelongsTo(s: State, ev: Event, e: EntryId, attemptId: nat) {
    match ActingTask(ev)
    case Some(t) =>
      t < |s.tasks| && !s.tasks[t].Finished? && s.tasks[t].entry == e && s.tasks[t].attemptId == attemptId
    case None =>
      ev.TransportDies? && ev.client < |s.clients| &&
      s.clients[ev.client].entry == e && s.clients[ev.client].attemptId == attemptId
  }

  // No entry looks different, the map is the same, and nothing has been emitted.
  predicate LooksTheSame(s: State, r: State) {
    && r.emitted == s.emitted && r.entries == s.entries && |r.objects| == |s.objects|
    && forall e :: 0 <= e < |s.objects| ==> s.objects[e].face == r.objects[e].face
  }

  lemma StaleStepIsSilent(s: State, ev: Event, e: EntryId, attemptId: nat)
    requires WellFormed(s) && Next(s, ev).Some? && BelongsTo(s, ev, e, attemptId)
    requires e < |s.objects| && !IsCurrent(s, e, attemptId)
    ensures LooksTheSame(s, Next(s, ev).value)
  {
  }

  // The attempt has begun, and is not the current one any more.
  predicate Superseded(s: State, e: EntryId, attemptId: nat) {
    e < |s.objects| && attemptId <= s.objects[e].attemptId && !IsCurrent(s, e, attemptId)
  }

  // Entries keep their names, attempt numbers only grow, and an entry that has left the map stays out.
  ghost predicate MovesOn(s: State, r: State) {
    && |s.objects| <= |r.objects|
    && forall e :: 0 <= e < |s.objects| ==>
      && s.objects[e].name == r.objects[e].name
      && s.objects[e].attemptId <= r.objects[e].attemptId
      && (InMap(r, e) ==> InMap(s, e))
  }

  // Neither the map nor what identifies an entry has changed.
  ghost predicate KeepsIdentities(s: State, r: State) {
    && r.entries == s.entries && |r.objects| == |s.objects|
    && forall e :: 0 <= e < |s.objects| ==>
      s.objects[e].name == r.objects[e].name && s.objects[e].attemptId == r.objects[e].attemptId
  }

  lemma HandleFailureKeepsIdentities(
    s: State, t: TaskId, e: EntryId, attemptId: nat, client: Option<ClientId>, error: StartupError)
    requires WellFormed(s) && t < |s.tasks| && e < |s.objects| && (client.Some? ==> client.value < |s.clients|)
    ensures KeepsIdentities(s, HandleFailure(s, t, e, attemptId, client, error))
  {
  }

  lemma StartConnectKeepsIdentities(s: State, t: TaskId, e: EntryId, attemptId: nat, invalid: Option<StartupError>)
    requires WellFormed(s) && t < |s.tasks| && e < |s.objects|
    ensures KeepsIdentities(s, StartConnect(s, t, e, attemptId, invalid))
  {
    if invalid.Some? {
      HandleFailureKeepsIdentities(s, t, e, attemptId, None, invalid.value);
    }
  }

  lemma UnexpectedCloseKeepsIdentities(s: State, c: ClientId, e: EntryId, attemptId: nat)
    requires WellFormed(s) && e < |s.objects| && c < |s.clients|
    ensures KeepsIdentities(s, OnUnexpectedClose(s, c, e, attemptId))
  {
  }

  lemma WatchKeepsIdentities(s: State, c: ClientId, e: EntryId, attemptId: nat)
    requires WellFormed(s) && e < |s.objects| && c < |s.clients|
    ensures KeepsIdentities(s, WatchForUnexpectedClose(s, c, e, attemptId))
  {
    var w := s.(clients := s.clients[c := s.clients[c].(watched := true, died := false)]);
    UnexpectedCloseKeepsIdentities(w, c, e, attemptId);
  }

  lemma FinishConnectKeepsIdentities(s: State, t: TaskId, e: EntryId, attemptId: nat, c: ClientId, tools: seq<Tool>)
    requires WellFormed(s) && t < |s.tasks| && e < |s.objects| && c < |s.clients|
    ensures KeepsIdentities(s, FinishConnect(s, t, e, attemptId, c, tools))
  {
    if IsCurrent(s, e, attemptId) {
      var o := s.objects[e].(face := ConnectedFace(s.objects[e], tools));
      WatchKeepsIdentities(Become(s, t, Finished).(objects := s.objects[e := o]), c, e, attemptId);
    }
  }

  lemma AddMovesOn(s: State, name: string, config: Config, invalid: Option<StartupError>)
    requires WellFormed(s)
    ensures MovesOn(s, AddServer(s, name, config, invalid))
  {
    var added := Enlist(s, name, config);
    assert MovesOn(s, added);
    if config.enabled {
      StartConnectKeepsIdentities(added, |s.tasks|, |s.objects|, 1, invalid);
    }
  }

  lemma ReconnectMovesOn(s: State, e: EntryId)
    requires WellFormed(s) && e < |s.objects|
    ensures MovesOn(s, BeginReconnect(s, e))
  {
  }

  lemma ContinueReconnectKeepsIdentities(
    s: State, t: TaskId, e: EntryId, attemptId: nat, invalid: Option<StartupError>)
    requires WellFormed(s) && t < |s.tasks| && e < |s.objects|
    ensures KeepsIdentities(s, ContinueReconnect(s, t, e, attemptId, invalid))
  {
    if IsCurrent(s, e, attemptId) {
      var o := s.objects[e].(face := PENDING);
      StartConnectKeepsIdentities(Emit(s.(objects := s.objects[e := o]), e), t, e, attemptId, invalid);
    }
  }

  lemma OtherStepsKeepIdentities(s: State, ev: Event)
    requires WellFormed(s) && Next(s, ev).Some?
    requires ev.ClientReady? || ev.ConnectSucceeds? || ev.ConnectFails? || ev.ConnectTimesOut? || ev.ResumeReport?
    ensures KeepsIdentities(s, Next(s, ev).value)
  {
  }

  lemma TransportDiesKeepsIdentities(s: State, c: ClientId)
    requires WellFormed(s) && Next(s, TransportDies(c)).Some?
    ensures KeepsIdentities(s, Next(s, TransportDies(c)).value)
  {
    UnexpectedCloseKeepsIdentities(s, c, s.clients[c].entry, s.clients[c].attemptId);
  }

  lemma ShutDownMovesOn(s: State)
    requires WellFormed(s)
    ensures MovesOn(s, ShutDown(s))
  {
  }

  lemma NextMovesOn(s: State, ev: Event)
    requires WellFormed(s) && Next(s, ev).Some?
    ensures MovesOn(s, Next(s, ev).value)
  {
    match ev
    case Add(name, config, invalid) => AddMovesOn(s, name, config, invalid);
    case Reconnect(name) => ReconnectMovesOn(s, s.entries[name]);
    case ResumeReconnect(t, invalid) =>
      ContinueReconnectKeepsIdentities(s, t, s.tasks[t].entry, s.tasks[t].attemptId, invalid);
    case ResumeConnect(t) =>
      var task := s.tasks[t];
      if task.Discovered? {
        FinishConnectKeepsIdentities(s, t, task.entry, task.attemptId, task.client, task.tools);
      } else {
        HandleFailureKeepsIdentities(s, t, task.entry, task.attemptId, Some(task.client), task.error);
      }
    case TransportDies(c) => TransportDiesKeepsIdentities(s, c);
    case Shutdown => ShutDownMovesOn(s);
    case _ => OtherStepsKeepIdentities(s, ev);
  }

  lemma NextStaysSuperseded(s: State, ev: Event, e: EntryId, attemptId: nat)
    requires WellFormed(s) && Next(s, ev).Some? && Superseded(s, e, attemptId)
    ensures Superseded(Next(s, ev).value, e, attemptId)
  {
    NextMovesOn(s, ev);
  }

  // A superseded attempt stays superseded, and whatever it does in the rest of any run is silent.
  lemma {:induction false} SupersededAttemptsNeverShow(
    xs: seq<State>, evs: seq<Event>, e: EntryId, attemptId: nat, n: nat)
    requires IsRun(xs, evs) && Superseded(xs[0], e, attemptId) && n <= |evs|
    ensures Superseded(xs[n], e, attemptId)
    ensures forall i :: 0 <= i < n && BelongsTo(xs[i], evs[i], e, attemptId) ==> LooksTheSame(xs[i], xs[i + 1])
    decreases n
  {
    if n > 0 {
      SupersededAttemptsNeverShow(xs, evs, e, attemptId, n - 1);
      assert Follows(xs, evs, n - 1);
      NextStaysSuperseded(xs[n - 1], evs[n - 1], e, attemptId);
      if BelongsTo(xs[n - 1], evs[n - 1], e, attemptId) {
        StaleStepIsSilent(xs[n - 1], evs[n - 1], e, attemptId);
      }
    }
  }

  // What supersedes an attempt: the next reconnect of its server, or a shutdown.
  lemma ReconnectSupersedes(s: State, name: string)
    requires WellFormed(s) && Next(s, Reconnect(name)).Some?
    ensures Superseded(Next(s, Reconnect(name)).value, s.entries[name], s.objects[s.entries[name]].attemptId)
  {
  }

  lemma ShutdownSupersedes(s: State, e: EntryId)
    requires WellFormed(s) && e < |s.objects|
    ensures Superseded(ShutDown(s), e, s.objects[e].attemptId)
  {
  }
}
