/**
 * How the calls of the connection manager go on: which events can happen in which state, that every call
 * ends, and that the manager can always come to rest.
 */
module ConnectionSteps {
  import opened Options
  import opened Sequences
  import opened ConnectionManager
  import opened ConnectionAttempts

  // ---- what can happen ----

  // A call that waits for a close, for its own bookkeeping or for a report can go on, and no other can.
  lemma CallsGoOn(s: State, t: TaskId, invalid: Option<StartupError>)
    requires WellFormed(s) && t < |s.tasks|
    ensures Next(s, ResumeReconnect(t, invalid)).Some? <==> s.tasks[t].Closing?
    ensures Next(s, ResumeConnect(t)).Some? <==> s.tasks[t].Discovered? || s.tasks[t].Broken?
    ensures Next(s, ResumeReport(t)).Some? <==> s.tasks[t].Reporting?
  {
  }

  // While a call connects, the race can be lost at any time: by a failure, which leaves the client alone, or by
  // the timeout, which closes it.
  lemma RacesCanBeLost(s: State, t: TaskId, error: StartupError)
    requires WellFormed(s) && t < |s.tasks|
    ensures Next(s, ConnectFails(t, error)).Some? <==> s.tasks[t].Connecting?
    ensures Next(s, ConnectTimesOut(t)).Some? <==> s.tasks[t].Connecting?
    ensures s.tasks[t].Connecting? ==>
      var Connecting(e, attemptId, c) := s.tasks[t];
      && Next(s, ConnectFails(t, error)).value == s.(tasks := s.tasks[t := Broken(e, attemptId, c, error)])
      && Next(s, ConnectTimesOut(t)).value == s.(
           tasks := s.tasks[t := Broken(e, attemptId, c, StartupError("Timed out", false))],
           clients := s.clients[c := s.clients[c].(closed := true)])
  {
  }

  // It is won in two steps: the handshake of an open client completes, and then the client lists its tools.
  lemma RacesAreWonInOrder(s: State, t: TaskId, tools: seq<Tool>)
    requires WellFormed(s) && t < |s.tasks| && s.tasks[t].Connecting?
    ensures var Connecting(e, attemptId, c) := s.tasks[t];
      && (Next(s, ClientReady(t)).Some? <==> !s.clients[c].closed)
      && (!s.clients[c].closed ==>
          Next(s, ClientReady(t)).value == s.(clients := s.clients[c := s.clients[c].(ready := true)]))
      && (Next(s, ConnectSucceeds(t, tools)).Some? <==> s.clients[c].ready)
      && (s.clients[c].ready ==>
          Next(s, ConnectSucceeds(t, tools)).value == s.(
            tasks := s.tasks[t := Discovered(e, attemptId, c, tools)],
            clients := s.clients[c := s.clients[c].(listed := Some(tools))]))
  {
  }

  // Only a client that is ready and open dies, and it can do so at any time.
  lemma LiveClientsCanDie(s: State, c: ClientId)
    requires WellFormed(s) && c < |s.clients|
    ensures Next(s, TransportDies(c)).Some? <==> s.clients[c].ready && !s.clients[c].closed
  {
  }

  // Servers can be added and all be closed at any time; one is reconnected when it is known and enabled, and
  // then gets a new attempt, which first waits for its old client to close.
  lemma RequestsAreAccepted(s: State, name: string, config: Config, invalid: Option<StartupError>)
    requires WellFormed(s)
    ensures Next(s, Add(name, config, invalid)).Some? && Next(s, Shutdown).Some?
    ensures Next(s, Reconnect(name)).Some? <==> name in s.entries && s.objects[s.entries[name]].config.enabled
    ensures Next(s, Reconnect(name)).Some? ==>
      var e := s.entries[name];
      var r := Next(s, Reconnect(name)).value;
      && r.objects[e].attemptId == s.objects[e].attemptId + 1 && r.objects[e].client.None?
      && r.tasks == s.tasks + [Closing(e, s.objects[e].attemptId + 1)]
      && (s.objects[e].client.Some? ==> r.clients[s.objects[e].client.value].closed)
  {
  }

  // ---- every call ends ----

  function StepsLeft(task: Task): nat {
    match task
    case Closing(_, _) => 4
    case Connecting(_, _, _) => 3
    case Broken(_, _, _, _) => 2
    case Discovered(_, _, _, _) => 1
    case Reporting(_, _) => 1
    case Finished => 0
  }

  // The event brings the call forward; the end of a handshake does not.
  predicate Forwards(ev: Event, t: TaskId) {
    ActingTask(ev) == Some(t) && !ev.ClientReady?
  }

  // Of all calls only this one has moved, and has at most so many steps left.
  ghost predicate MovesOne(s: State, r: State, t: TaskId, most: nat) {
    t < |s.tasks| == |r.tasks| && r.tasks == s.tasks[t := r.tasks[t]] && StepsLeft(r.tasks[t]) <= most
  }

  lemma FailureMovesOne(s: State, t: TaskId, e: EntryId, attemptId: nat, client: Option<ClientId>, error: StartupError)
    requires WellFormed(s) && t < |s.tasks| && e < |s.objects| && (client.Some? ==> client.value < |s.clients|)
    ensures MovesOne(s, HandleFailure(s, t, e, attemptId, client, error), t, 1)
  {
  }

  lemma FinishMovesOne(s: State, t: TaskId, e: EntryId, attemptId: nat, c: ClientId, tools: seq<Tool>)
    requires WellFormed(s) && t < |s.tasks| && e < |s.objects| && c < |s.clients|
    ensures MovesOne(s, FinishConnect(s, t, e, attemptId, c, tools), t, 0)
  {
  }

  lemma StartMovesOne(s: State, t: TaskId, e: EntryId, attemptId: nat, invalid: Option<StartupError>)
    requires WellFormed(s) && t < |s.tasks| && e < |s.objects|
    ensures MovesOne(s, StartConnect(s, t, e, attemptId, invalid), t, 3)
  {
    if invalid.Some? {
      FailureMovesOne(s, t, e, attemptId, None, invalid.value);
    }
  }

  lemma ContinueMovesOne(s: State, t: TaskId, e: EntryId, attemptId: nat, invalid: Option<StartupError>)
    requires WellFormed(s) && t < |s.tasks| && e < |s.objects|
    ensures MovesOne(s, ContinueReconnect(s, t, e, attemptId, invalid), t, 3)
  {
    if IsCurrent(s, e, attemptId) {
      StartMovesOne(Emit(s.(objects := s.objects[e := s.objects[e].(face := PENDING)]), e), t, e, attemptId, invalid);
    }
  }

  lemma ForwardMovesOne(s: State, ev: Event, t: TaskId)
    requires WellFormed(s) && Next(s, ev).Some? && Forwards(ev, t)
    ensures t < |s.tasks| && StepsLeft(s.tasks[t]) > 0
    ensures MovesOne(s, Next(s, ev).value, t, StepsLeft(s.tasks[t]) - 1)
  {
    var task := s.tasks[t];
    match ev
    case ResumeReconnect(_, invalid) => ContinueMovesOne(s, t, task.entry, task.attemptId, invalid);
    case ResumeConnect(_) =>
      if task.Discovered? {
        FinishMovesOne(s, t, task.entry, task.attemptId, task.client, task.tools);
      } else {
        FailureMovesOne(s, t, task.entry, task.attemptId, Some(task.client), task.error);
      }
    case _ =>
  }

  lemma OthersMoveNone(s: State, ev: Event)
    requires WellFormed(s) && Next(s, ev).Some? && (ActingTask(ev).None? || ev.ClientReady?)
    ensures s.tasks <= Next(s, ev).value.tasks
  {
    if ev.Add? && ev.config.enabled {
      StartMovesOne(Enlist(s, ev.name, ev.config), |s.tasks|, |s.objects|, 1, ev.invalid);
    }
  }

  lemma StepsCountDown(s: State, ev: Event, t: TaskId)
    requires WellFormed(s) && Next(s, ev).Some? && t < |s.tasks|
    ensures var r := Next(s, ev).value;
      && t < |r.tasks|
      && (if Forwards(ev, t) then StepsLeft(r.tasks[t]) < StepsLeft(s.tasks[t]) else r.tasks[t] == s.tasks[t])
  {
    if ActingTask(ev).None? || ev.ClientReady? {
      OthersMoveNone(s, ev);
    } else {
      ForwardMovesOne(s, ev, ActingTask(ev).value);
    }
  }

  ghost function OwnSteps(evs: seq<Event>, t: TaskId): nat {
    Count(evs, IsStepOf(t))
  }

  ghost function IsStepOf(t: TaskId): Event -> bool {
    (ev: Event) => Forwards(ev, t)
  }

  // However calls overlap, each takes at most four steps of its own, and after as many as it has left it has
  // ended and stays so.
  lemma CallsEnd(xs: seq<State>, evs: seq<Event>, t: TaskId)
    requires IsRun(xs, evs) && t < |xs[0].tasks|
    ensures t < |xs[|evs|].tasks|
    ensures OwnSteps(evs, t) + StepsLeft(xs[|evs|].tasks[t]) <= StepsLeft(xs[0].tasks[t]) <= 4
    ensures OwnSteps(evs, t) == StepsLeft(xs[0].tasks[t]) ==> xs[|evs|].tasks[t] == Finished
  {
    CountNone(IsStepOf(t));
    assert evs[..0] == [];
    for n := 0 to |evs|
      invariant t < |xs[n].tasks|
      invariant OwnSteps(evs[..n], t) + StepsLeft(xs[n].tasks[t]) <= StepsLeft(xs[0].tasks[t])
    {
      assert Follows(xs, evs, n);
      StepsCountDown(xs[n], evs[n], t);
      CountLast(evs[..n + 1], IsStepOf(t));
      assert evs[..n + 1][..n] == evs[..n];
    }
    assert evs[..|evs|] == evs;
  }

  // ---- the manager can come to rest ----

  function TotalLeft(tasks: seq<Task>): nat {
    if tasks == [] then 0 else TotalLeft(tasks[..|tasks| - 1]) + StepsLeft(tasks[|tasks| - 1])
  }

  lemma {:induction false} TotalUpdate(tasks: seq<Task>, t: TaskId, task: Task)
    requires t < |tasks|
    ensures TotalLeft(tasks[t := task]) + StepsLeft(tasks[t]) == TotalLeft(tasks) + StepsLeft(task)
    decreases |tasks|
  {
    var n := |tasks| - 1;
    if t < n {
      TotalUpdate(tasks[..n], t, task);
      assert tasks[t := task][..n] == tasks[..n][t := task];
    } else {
      assert tasks[t := task][..n] == tasks[..n];
    }
  }

  // A step by which this call gets nearer its end, whatever answers come from outside.
  function Onwards(s: State, t: TaskId): Event
    requires t < |s.tasks|
  {
    match s.tasks[t]
    case Closing(_, _) => ResumeReconnect(t, None)
    case Connecting(_, _, _) => ConnectTimesOut(t)
    case Reporting(_, _) => ResumeReport(t)
    case _ => ResumeConnect(t)
  }

  lemma OnwardsGoesOn(s: State, t: TaskId)
    requires WellFormed(s) && t < |s.tasks| && !s.tasks[t].Finished?
    ensures var r := Next(s, Onwards(s, t));
      && r.Some? && t < |r.value.tasks| && r.value.tasks == s.tasks[t := r.value.tasks[t]]
      && TotalLeft(r.value.tasks) < TotalLeft(s.tasks)
  {
    CallsGoOn(s, t, None);
    RacesCanBeLost(s, t, StartupError("", false));
    ForwardMovesOne(s, Onwards(s, t), t);
    TotalUpdate(s.tasks, t, Next(s, Onwards(s, t)).value.tasks[t]);
  }

  lemma {:induction false} RunComesToRest(start: State, evs: seq<Event>, s: State)
    requires WellFormed(s) && LeadsTo(start, evs, s)
    ensures exists more, r :: LeadsTo(start, more, r) && Quiescent(r)
    decreases TotalLeft(s.tasks)
  {
    if t :| 0 <= t < |s.tasks| && !s.tasks[t].Finished? {
      OnwardsGoesOn(s, t);
      RunGrows(start, evs, s, Onwards(s, t));
      RunComesToRest(start, evs + [Onwards(s, t)], Next(s, Onwards(s, t)).value);
    } else {
      assert Quiescent(s);
    }
  }

  // From every state some continuation leads to one with nothing in flight, where every server has settled.
  lemma CanComeToRest(s: State)
    requires WellFormed(s)
    ensures exists evs, r :: LeadsTo(s, evs, r) && Quiescent(r)
  {
    assert IsRun([s], []);
    assert LeadsTo(s, [], s);
    RunComesToRest(s, [], s);
  }
}
