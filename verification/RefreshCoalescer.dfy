/**
 * `ensureFresh` of packages/oauth/src/oauth-manager.ts inside one process: concurrent callers
 * share one refresh through the manager's `inFlightRefresh` slot. A refresh is here a numbered
 * run with a force flag; what happens inside it is module RefreshProtocol.
 */
module RefreshCoalescer {
  import opened Options

  // A run is active until its promise settles, and settled until the `finally` hook has run.
  datatype Phase = Active | Settled | Finished

  datatype Refresh = Refresh(force: bool, phase: Phase)

  // A caller either owns a share in a run, or waits for one to finish before calling again.
  datatype Link = Joined(run: nat) | Queued(behind: nat)

  datatype Caller = Caller(force: bool, link: Link)

  datatype InFlight = InFlight(run: nat, force: bool)

  datatype View = View(slot: Option<InFlight>, refreshes: seq<Refresh>, callers: seq<Caller>)

  datatype Event =
    | Call(force: bool)
    | Settle(run: nat)
    | Finally(run: nat)
    | Resume(caller: nat)

  // ---- specification ----

  // Where a call goes, and the state it leaves: a free slot starts a run, an occupied one is shared
  // unless the caller forces and the run in it does not.
  function Admit(v: View, force: bool): (View, Link) {
    match v.slot
    case Some(current) => (v, if !force || current.force then Joined(current.run) else Queued(current.run))
    case None =>
      var run := |v.refreshes|;
      (v.(slot := Some(InFlight(run, force)), refreshes := v.refreshes + [Refresh(force, Active)]), Joined(run))
  }

  function Next(v: View, e: Event): Option<View> {
    match e
    case Call(force) =>
      var (w, link) := Admit(v, force);
      Some(w.(callers := w.callers + [Caller(force, link)]))
    case Settle(run) =>
      if run < |v.refreshes| && v.refreshes[run].phase.Active?
      then Some(v.(refreshes := v.refreshes[run := v.refreshes[run].(phase := Settled)]))
      else None
    case Finally(run) =>
      if run < |v.refreshes| && v.refreshes[run].phase.Settled? then
        Some(v.(refreshes := v.refreshes[run := v.refreshes[run].(phase := Finished)],
                slot := if v.slot.Some? && v.slot.value.run == run then None else v.slot))
      else None
    case Resume(c) =>
      if c < |v.callers| && v.callers[c].link.Queued?
         && v.callers[c].link.behind < |v.refreshes| && v.refreshes[v.callers[c].link.behind].phase.Finished? then
        var (w, link) := Admit(v, v.callers[c].force);
        Some(w.(callers := w.callers[c := Caller(v.callers[c].force, link)]))
      else None
  }

  function Run(v: View, es: seq<Event>): Option<View>
    decreases |es|
  {
    if es == [] then Some(v)
    else match Next(v, es[0])
      case None => None
      case Some(w) => Run(w, es[1..])
  }

  const EMPTY := View(None, [], [])

  ghost predicate SlotInv(v: View) {
    && (v.slot.Some? ==> v.slot.value.run < |v.refreshes| && !v.refreshes[v.slot.value.run].phase.Finished?)
    && (forall r :: 0 <= r < |v.refreshes| && !v.refreshes[r].phase.Finished? ==>
        v.slot == Some(InFlight(r, v.refreshes[r].force)))
  }

  ghost predicate CallerInv(v: View, c: Caller) {
    match c.link
    case Joined(run) => run < |v.refreshes| && (c.force ==> v.refreshes[run].force)
    case Queued(behind) => behind < |v.refreshes| && c.force && !v.refreshes[behind].force
  }

  ghost predicate Inv(v: View) {
    && SlotInv(v)
    && forall c :: 0 <= c < |v.callers| ==> CallerInv(v, v.callers[c])
  }

  lemma NextKeepsInv(v: View, e: Event)
    requires Inv(v) && Next(v, e).Some?
    ensures Inv(Next(v, e).value)
  {
    var w := Next(v, e).value;
    assert forall r :: 0 <= r < |v.refreshes| ==> r < |w.refreshes| && w.refreshes[r].force == v.refreshes[r].force;
    forall c | 0 <= c < |w.callers| ensures CallerInv(w, w.callers[c]) {
      assert c < |v.callers| ==> CallerInv(v, v.callers[c]);
    }
  }

  lemma {:induction false} RunKeepsInv(v: View, es: seq<Event>)
    requires Inv(v) && Run(v, es).Some?
    ensures Inv(Run(v, es).value)
    decreases |es|
  {
    if es != [] {
      NextKeepsInv(v, es[0]);
      RunKeepsInv(Next(v, es[0]).value, es[1..]);
    }
  }

  // ---- what every run of one manager guarantees ----

  predicate Occupied(v: View, run: nat) {
    run < |v.refreshes| && !v.refreshes[run].phase.Finished?
  }

  // A call starts a run of its own exactly when none is under way. Otherwise it shares that run, unless it
  // forces and the run does not: then it waits for the run to finish.
  lemma CallsShareTheRunUnderWay(es: seq<Event>, force: bool)
    requires Run(EMPTY, es).Some?
    ensures var v := Run(EMPTY, es).value;
      var w := Next(v, Call(force)).value;
      && (forall r: nat :: Occupied(v, r) ==>
          && w.refreshes == v.refreshes
          && (!force || v.refreshes[r].force ==> w.callers == v.callers + [Caller(force, Joined(r))])
          && (force && !v.refreshes[r].force ==> w.callers == v.callers + [Caller(force, Queued(r))]))
      && ((forall r: nat :: !Occupied(v, r)) ==>
          && w.refreshes == v.refreshes + [Refresh(force, Active)]
          && w.callers == v.callers + [Caller(force, Joined(|v.refreshes|))])
  {
    RunKeepsInv(EMPTY, es);
    var v := Run(EMPTY, es).value;
    assert v.slot.Some? ==> Occupied(v, v.slot.value.run);
  }

  // At most one refresh is under way, and the slot is occupied exactly while one is, by that one.
  lemma OneRefreshAtATime(es: seq<Event>, r: nat, q: nat)
    requires Run(EMPTY, es).Some?
    ensures var v := Run(EMPTY, es).value;
      && (Occupied(v, r) && Occupied(v, q) ==> r == q)
      && (Occupied(v, r) <==> v.slot.Some? && v.slot.value.run == r)
  {
    RunKeepsInv(EMPTY, es);
  }

  // A forced caller's result always comes from a forced run, and only a forced caller is ever made
  // to wait, behind an unforced run.
  lemma ForcedCallersGetForcedRuns(es: seq<Event>, c: nat)
    requires Run(EMPTY, es).Some? && c < |Run(EMPTY, es).value.callers|
    ensures var v := Run(EMPTY, es).value;
      match v.callers[c].link
      case Joined(run) => run < |v.refreshes| && (v.callers[c].force ==> v.refreshes[run].force)
      case Queued(run) => run < |v.refreshes| && v.callers[c].force && !v.refreshes[run].force
  {
    RunKeepsInv(EMPTY, es);
    assert CallerInv(Run(EMPTY, es).value, Run(EMPTY, es).value.callers[c]);
  }

  // The cleanup of a settled run frees the slot it holds and can never evict another run.
  lemma CleanupOnlyFreesItsOwnSlot(es: seq<Event>, r: nat)
    requires Run(EMPTY, es).Some? && Next(Run(EMPTY, es).value, Finally(r)).Some?
    ensures Run(EMPTY, es).value.slot == Some(InFlight(r, Run(EMPTY, es).value.refreshes[r].force))
    ensures Next(Run(EMPTY, es).value, Finally(r)).value.slot == None
  {
    RunKeepsInv(EMPTY, es);
  }

  // A caller that has joined a run keeps that run, and a finished run stays finished: a result once
  // due is never taken back by anything that happens later.
  lemma {:induction false} JoinedCallersStay(v: View, es: seq<Event>, c: nat, r: nat)
    requires Run(v, es).Some?
    ensures var w := Run(v, es).value;
      && (c < |v.callers| ==> c < |w.callers| && w.callers[c].force == v.callers[c].force)
      && (c < |v.callers| && v.callers[c].link.Joined? ==> w.callers[c].link == v.callers[c].link)
      && (r < |v.refreshes| ==> r < |w.refreshes| && w.refreshes[r].force == v.refreshes[r].force)
      && (r < |v.refreshes| && v.refreshes[r].phase.Finished? ==> w.refreshes[r].phase.Finished?)
    decreases |es|
  {
    if es != [] {
      JoinedCallersStay(Next(v, es[0]).value, es[1..], c, r);
    }
  }

  // ---- how long a queued caller may wait ----

  // The caller resumes and finds another unforced run in the slot.
  predicate IsRequeue(v: View, e: Event, c: nat) {
    e == Resume(c) && Next(v, e).Some? && c < |v.callers| && v.slot.Some? && !v.slot.value.force
  }

  function Requeues(v: View, es: seq<Event>, c: nat): nat
    decreases |es|
  {
    if es == [] || Next(v, es[0]).None? then 0
    else (if IsRequeue(v, es[0], c) then 1 else 0) + Requeues(Next(v, es[0]).value, es[1..], c)
  }

  function UnforcedCalls(es: seq<Event>): nat {
    multiset(es)[Call(false)]
  }

  lemma UnforcedCallsSplit(es: seq<Event>)
    requires es != []
    ensures UnforcedCalls(es) == (if es[0] == Call(false) then 1 else 0) + UnforcedCalls(es[1..])
  {
    assert es == [es[0]] + es[1..];
  }

  // An unforced run holds the slot that started after the one the caller waits for.
  predicate IsOvertaken(v: View, c: nat) {
    && c < |v.callers| && v.callers[c].link.Queued?
    && v.slot.Some? && !v.slot.value.force && v.slot.value.run != v.callers[c].link.behind
  }

  lemma RequeueStep(v: View, e: Event, c: nat)
    requires Inv(v) && Next(v, e).Some? && c < |v.callers|
    ensures var w := Next(v, e).value;
      && (IsRequeue(v, e, c) ==> IsOvertaken(v, c) && !IsOvertaken(w, c))
      && (IsOvertaken(w, c) ==> IsOvertaken(v, c) || e == Call(false))
  {
    assert CallerInv(v, v.callers[c]);
    if e.Resume? && e.caller < |v.callers| {
      assert CallerInv(v, v.callers[e.caller]);
    }
  }

  // A queued caller is queued again at most once for each unforced call that comes in, and once more if
  // an unforced run has overtaken it already.
  lemma {:induction false} RequeuesAreBounded(v: View, es: seq<Event>, c: nat)
    requires Inv(v) && Run(v, es).Some? && c < |v.callers|
    ensures Requeues(v, es, c) <= UnforcedCalls(es) + if IsOvertaken(v, c) then 1 else 0
    decreases |es|
  {
    if es != [] {
      RequeueStep(v, es[0], c);
      UnforcedCallsSplit(es);
      NextKeepsInv(v, es[0]);
      assert |v.callers| <= |Next(v, es[0]).value.callers|;
      RequeuesAreBounded(Next(v, es[0]).value, es[1..], c);
    }
  }

  lemma {:induction false} StaysNext(v: View, es: seq<Event>, c: nat)
    requires Inv(v) && Run(v, es).Some? && c < |v.callers| && UnforcedCalls(es) == 0 && !IsOvertaken(v, c)
    ensures Inv(Run(v, es).value) && c < |Run(v, es).value.callers| && !IsOvertaken(Run(v, es).value, c)
    decreases |es|
  {
    if es != [] {
      RequeueStep(v, es[0], c);
      UnforcedCallsSplit(es);
      NextKeepsInv(v, es[0]);
      assert |v.callers| <= |Next(v, es[0]).value.callers|;
      StaysNext(Next(v, es[0]).value, es[1..], c);
    }
  }

  // So without unforced calls a caller that waits for the run in the slot is served when it resumes: it
  // shares a forced run.
  lemma ServedWithoutUnforcedCalls(v: View, es: seq<Event>, c: nat, w: View)
    requires Inv(v) && Run(v, es).Some? && c < |v.callers| && UnforcedCalls(es) == 0 && !IsOvertaken(v, c)
    requires Next(Run(v, es).value, Resume(c)) == Some(w)
    ensures c < |w.callers| && w.callers[c].link.Joined?
    ensures w.callers[c].link.run < |w.refreshes| && w.refreshes[w.callers[c].link.run].force
  {
    StaysNext(v, es, c);
    ResumeServes(Run(v, es).value, c);
  }

  lemma ResumeServes(v: View, c: nat)
    requires Inv(v) && c < |v.callers| && !IsOvertaken(v, c) && Next(v, Resume(c)).Some?
    ensures var w := Next(v, Resume(c)).value;
      && w.callers[c].link.Joined? && w.callers[c].link.run < |w.refreshes|
      && w.refreshes[w.callers[c].link.run].force
  {
    assert CallerInv(v, v.callers[c]);
  }

  // A queued caller waits for nothing but the run it is behind: it can resume, or that run can go on.
  lemma QueuedCallersCanGoOn(es: seq<Event>, c: nat)
    requires Run(EMPTY, es).Some? && c < |Run(EMPTY, es).value.callers|
    requires Run(EMPTY, es).value.callers[c].link.Queued?
    ensures var v := Run(EMPTY, es).value;
      var b := v.callers[c].link.behind;
      Next(v, Settle(b)).Some? || Next(v, Finally(b)).Some? || Next(v, Resume(c)).Some?
  {
    RunKeepsInv(EMPTY, es);
    assert CallerInv(Run(EMPTY, es).value, Run(EMPTY, es).value.callers[c]);
  }

  // The bound is met: an unforced call that comes in after each run has ended, and before the forced
  // caller has resumed, queues that caller again, as often as it happens.
  function Overtaking(k: nat, n: nat): seq<Event>
    decreases n
  {
    if n == 0 then [] else [Settle(k), Finally(k), Call(false), Resume(1)] + Overtaking(k + 1, n - 1)
  }

  // Caller 1 waits behind unforced run k, the last one.
  predicate WaitsBehind(v: View, k: nat) {
    && v.slot == Some(InFlight(k, false)) && |v.refreshes| == k + 1 && v.refreshes[k] == Refresh(false, Active)
    && |v.callers| >= 2 && v.callers[1] == Caller(true, Queued(k))
  }

  lemma OvertakenOnce(v: View, k: nat, rest: seq<Event>)
    requires WaitsBehind(v, k)
    ensures exists w ::
      && WaitsBehind(w, k + 1)
      && Run(v, [Settle(k), Finally(k), Call(false), Resume(1)] + rest) == Run(w, rest)
      && Requeues(v, [Settle(k), Finally(k), Call(false), Resume(1)] + rest, 1) == 1 + Requeues(w, rest, 1)
  {
    var es := [Settle(k), Finally(k), Call(false), Resume(1)] + rest;
    var v1 := Next(v, es[0]).value;
    var v2 := Next(v1, es[1]).value;
    var v3 := Next(v2, es[2]).value;
    var v4 := Next(v3, es[3]).value;
    assert es[1..][1..] == es[2..] && es[2..][1..] == es[3..] && es[3..][1..] == rest;
    assert Run(v3, es[3..]) == Run(v4, rest) && Requeues(v3, es[3..], 1) == 1 + Requeues(v4, rest, 1);
    assert Run(v2, es[2..]) == Run(v4, rest) && Requeues(v2, es[2..], 1) == 1 + Requeues(v4, rest, 1);
    assert Run(v1, es[1..]) == Run(v4, rest) && Requeues(v1, es[1..], 1) == 1 + Requeues(v4, rest, 1);
    assert WaitsBehind(v4, k + 1);
  }

  lemma {:induction false} OvertakenAgain(v: View, k: nat, n: nat)
    requires WaitsBehind(v, k)
    ensures Run(v, Overtaking(k, n)).Some? && Requeues(v, Overtaking(k, n), 1) == n
    decreases n
  {
    if n > 0 {
      OvertakenOnce(v, k, Overtaking(k + 1, n - 1));
      var w :| WaitsBehind(w, k + 1) && Run(v, Overtaking(k, n)) == Run(w, Overtaking(k + 1, n - 1)) &&
        Requeues(v, Overtaking(k, n), 1) == 1 + Requeues(w, Overtaking(k + 1, n - 1), 1);
      OvertakenAgain(w, k + 1, n - 1);
    }
  }

  // So a forced caller can be kept waiting through any number of unforced runs.
  lemma ForcedCallersCanStarve(n: nat)
    ensures var es := [Call(false), Call(true)] + Overtaking(0, n);
      Run(EMPTY, es).Some? && Requeues(EMPTY, es, 1) == n
  {
    var es := [Call(false), Call(true)] + Overtaking(0, n);
    var v := Next(EMPTY, es[0]).value;
    var w := Next(v, es[1]).value;
    assert es[1..][1..] == Overtaking(0, n);
    assert Run(v, es[1..]) == Run(w, Overtaking(0, n));
    OvertakenAgain(w, 0, n);
  }

  // ---- the manager ----

  class OAuthManager {
    var inFlightRefresh: Option<InFlight>
    var refreshes: seq<Refresh>
    var callers: seq<Caller>

    ghost function Abstract(): View
      reads this
    {
      View(inFlightRefresh, refreshes, callers)
    }

    ghost predicate Valid()
      reads this
    {
      Inv(Abstract())
    }

    constructor ()
      ensures Valid() && Abstract() == EMPTY
    {
      inFlightRefresh, refreshes, callers := None, [], [];
    }

    // The part of `ensureFresh` before its first await, shared by first calls and resumed ones.
    method Enter(force: bool) returns (link: Link)
      requires Valid()
      modifies `inFlightRefresh, `refreshes
      ensures (Abstract(), link) == Admit(old(Abstract()), force)
    {
      if inFlightRefresh.Some? {
        var current := inFlightRefresh.value;
        if !force || current.force {
          return Joined(current.run);
        }
        return Queued(current.run);
      }
      var run := |refreshes|;
      refreshes := refreshes + [Refresh(force, Active)];
      inFlightRefresh := Some(InFlight(run, force));
      return Joined(run);
    }

    method EnsureFresh(force: bool) returns (caller: nat)
      requires Valid()
      modifies this
      ensures Valid() && caller == |old(callers)|
      ensures Some(Abstract()) == Next(old(Abstract()), Call(force))
    {
      var link := Enter(force);
      caller := |callers|;
      callers := callers + [Caller(force, link)];
      NextKeepsInv(old(Abstract()), Call(force));
    }

    method SettleRun(run: nat)
      requires Valid() && Next(Abstract(), Settle(run)).Some?
      modifies `refreshes
      ensures Valid() && Some(Abstract()) == Next(old(Abstract()), Settle(run))
    {
      refreshes := refreshes[run := refreshes[run].(phase := Settled)];
      NextKeepsInv(old(Abstract()), Settle(run));
    }

    // The `finally` hook: clear the slot only if it is still this run's.
    method FinallyHook(run: nat)
      requires Valid() && Next(Abstract(), Finally(run)).Some?
      modifies `refreshes, `inFlightRefresh
      ensures Valid() && Some(Abstract()) == Next(old(Abstract()), Finally(run))
    {
      refreshes := refreshes[run := refreshes[run].(phase := Finished)];
      if inFlightRefresh.Some? && inFlightRefresh.value.run == run {
        inFlightRefresh := None;
      }
      NextKeepsInv(old(Abstract()), Finally(run));
    }

    // A forced caller that waited for an unforced run calls `ensureFresh` again.
    method ResumeQueued(caller: nat)
      requires Valid() && Next(Abstract(), Resume(caller)).Some?
      modifies this
      ensures Valid() && Some(Abstract()) == Next(old(Abstract()), Resume(caller))
    {
      var force := callers[caller].force;
      var link := Enter(force);
      callers := callers[caller := Caller(force, link)];
      NextKeepsInv(old(Abstract()), Resume(caller));
    }
  }
}
