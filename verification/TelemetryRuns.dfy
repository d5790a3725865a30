/**
 * Sink and transport together: events are accepted while any number of sends are in flight, each with its
 * own retry state and its own latch. One event runs a send from one await to the next.
 */
module TelemetryRuns {
  import opened Options
  import opened Sequences
  import opened Telemetry

  // Where a send is, and how it ended: the error it rejected with, if any.
  datatype Progress =
    | Trying(attempt: nat)
    | Pausing(attempt: nat)
    | Ended(thrown: Option<ErrorKind>)

  datatype Send = Send(batch: Batch, progress: Progress, savedToDisk: bool, served: bool)

  // `sends` are in the order of hand-over, `served` and `disk` in the order things happen.
  datatype System = System(
    buffer: Batch, kept: seq<Event>, sends: seq<Send>, served: seq<Batch>, disk: seq<Batch>)

  datatype Config = Config(flushThreshold: int, backoffs: nat)

  datatype Step =
    | Accept(event: Event)
    | Flush(aborted: bool)
    | FlushSync
    | ClearBuffer
    | Attempt(send: nat, met: Exchange)
    | SleepEnds(send: nat)
    | SleepBreaks(send: nat, kind: ErrorKind, aborted: bool)

  function Put(x: System, i: nat, send: Send): System
    requires i < |x.sends|
  {
    x.(sends := x.sends[i := send])
  }

  // The latch that keeps one send from writing its batch twice.
  function SaveEventsToDisk(x: System, i: nat): (r: System)
    requires i < |x.sends|
    ensures |r.sends| == |x.sends|
  {
    if x.sends[i].savedToDisk then x
    else Put(x, i, x.sends[i].(savedToDisk := true)).(disk := x.disk + [x.sends[i].batch])
  }

  function End(x: System, i: nat, thrown: Option<ErrorKind>): System
    requires i < |x.sends|
  {
    Put(x, i, x.sends[i].(progress := Ended(thrown)))
  }

  // An error that leaves the retry loop: an abort is rethrown, anything else swallowed.
  function LeaveLoop(x: System, i: nat, kind: ErrorKind, aborted: bool): System
    requires i < |x.sends|
  {
    if aborted || kind == AbortError then End(SaveEventsToDisk(x, i), i, Some(kind))
    else End(SaveEventsToDisk(x, i), i, None)
  }

  // The catch inside the loop.
  function CatchAttempt(cfg: Config, x: System, i: nat, n: nat, kind: ErrorKind, aborted: bool): System
    requires i < |x.sends|
  {
    if aborted || kind == AbortError then LeaveLoop(SaveEventsToDisk(x, i), i, kind, aborted)
    else if kind != TransientError || n >= cfg.backoffs then End(SaveEventsToDisk(x, i), i, None)
    else Put(x, i, x.sends[i].(progress := Pausing(n)))
  }

  // The start of a send, up to its first await.
  function StartSend(x: System, batch: Batch, aborted: bool): System {
    var i := |x.sends|;
    var y := x.(sends := x.sends + [Send(batch, Trying(0), false, false)]);
    if aborted then End(SaveEventsToDisk(y, i), i, Some(AbortError))
    else if !CanBuild(batch) then End(y, i, None)
    else y
  }

  // The buffer is swapped out before the send starts.
  function HandOver(x: System, aborted: bool): System {
    if x.buffer == [] then x else StartSend(x.(buffer := []), x.buffer, aborted)
  }

  function Next(cfg: Config, x: System, step: Step): Option<System> {
    match step
    case Accept(event) =>
      var y := x.(buffer := x.buffer + [event], kept := x.kept + [event]);
      Some(if |y.buffer| >= cfg.flushThreshold then HandOver(y, false) else y)
    case Flush(aborted) => Some(HandOver(x, aborted))
    case FlushSync =>
      if x.buffer == [] then Some(x)
      else
        var y := x.(buffer := [], sends := x.sends + [Send(x.buffer, Ended(None), false, false)]);
        Some(SaveEventsToDisk(y, |x.sends|))
    case ClearBuffer =>
      if |x.kept| < |x.buffer| then None
      else Some(x.(buffer := [], kept := x.kept[..|x.kept| - |x.buffer|]))
    case Attempt(i, met) =>
      if i >= |x.sends| || !x.sends[i].progress.Trying? then None
      else Some(
        match HttpOutcome(met)
        case Done => End(Put(x, i, x.sends[i].(served := true)), i, None).(served := x.served + [x.sends[i].batch])
        case Thrown(kind) => CatchAttempt(cfg, x, i, x.sends[i].progress.attempt, kind, met.aborted))
    case SleepEnds(i) =>
      if i < |x.sends| && x.sends[i].progress.Pausing?
      then Some(Put(x, i, x.sends[i].(progress := Trying(x.sends[i].progress.attempt + 1)))) else None
    case SleepBreaks(i, kind, aborted) =>
      if i < |x.sends| && x.sends[i].progress.Pausing? then Some(LeaveLoop(x, i, kind, aborted)) else None
  }

  function Run(cfg: Config, x: System, steps: seq<Step>): Option<System>
    decreases |steps|
  {
    if steps == [] then Some(x)
    else if Next(cfg, x, steps[0]).None? then None
    else Run(cfg, Next(cfg, x, steps[0]).value, steps[1..])
  }

  const EMPTY := System([], [], [], [], [])

  // ---- every send by itself ----

  datatype Fate = InFlight | WasServed | WasSaved | WasDiscarded

  function FateOf(send: Send): Fate {
    if !send.progress.Ended? then InFlight
    else if send.savedToDisk then WasSaved
    else if send.served then WasServed
    else WasDiscarded
  }

  // A send is served or saved, never both; it is neither only while it is in flight, or when its batch
  // could not be built. It rejects only if it saved, and has made at most one attempt per backoff and one.
  predicate SendInv(cfg: Config, send: Send) {
    && send.batch != []
    && !(send.savedToDisk && send.served)
    && (match send.progress
        case Trying(n) => n <= cfg.backoffs && !send.savedToDisk && !send.served && CanBuild(send.batch)
        case Pausing(n) => n < cfg.backoffs && !send.savedToDisk && !send.served && CanBuild(send.batch)
        case Ended(thrown) =>
          && (thrown.Some? ==> send.savedToDisk)
          && (!send.savedToDisk && !send.served ==> !CanBuild(send.batch)))
  }

  predicate AllSendsInv(cfg: Config, x: System) {
    forall i :: 0 <= i < |x.sends| ==> SendInv(cfg, x.sends[i])
  }

  // ---- what was handed over, in order ----

  ghost function BatchesOf(sends: seq<Send>): seq<Batch> {
    if sends == [] then [] else BatchesOf(sends[..|sends| - 1]) + [sends[|sends| - 1].batch]
  }

  // The events kept are those handed over, in order of hand-over, and then those that wait.
  ghost predicate KeptInv(cfg: Config, x: System) {
    && x.kept == Flatten(BatchesOf(x.sends)) + x.buffer
    && (x.buffer == [] || |x.buffer| < cfg.flushThreshold)
  }

  lemma {:induction false} SameBatches(sends: seq<Send>, i: nat, send: Send)
    requires i < |sends| && send.batch == sends[i].batch
    ensures BatchesOf(sends[i := send]) == BatchesOf(sends)
    decreases |sends|
  {
    var n := |sends| - 1;
    if i < n {
      SameBatches(sends[..n], i, send);
      assert sends[i := send][..n] == sends[..n][i := send];
    } else {
      assert sends[i := send][..n] == sends[..n];
    }
  }

  lemma AppendedBatches(sends: seq<Send>, send: Send)
    ensures BatchesOf(sends + [send]) == BatchesOf(sends) + [send.batch]
    ensures Flatten(BatchesOf(sends + [send])) == Flatten(BatchesOf(sends)) + send.batch
  {
    assert (sends + [send])[..|sends|] == sends;
    FlattenLast(BatchesOf(sends), send.batch);
  }

  // ---- what one step does to the sends ----

  // The batch is written and the send is over.
  function Settle(x: System, i: nat, thrown: Option<ErrorKind>): System
    requires i < |x.sends|
  {
    Put(x, i, x.sends[i].(savedToDisk := true, progress := Ended(thrown))).(disk := x.disk + [x.sends[i].batch])
  }

  // Whichever catch blocks an error passes through, the batch is written at most once.
  lemma CatchSettlesOnce(cfg: Config, x: System, i: nat, n: nat, kind: ErrorKind, aborted: bool)
    requires i < |x.sends| && !x.sends[i].savedToDisk
    ensures CatchAttempt(cfg, x, i, n, kind, aborted) ==
      if aborted || kind == AbortError then Settle(x, i, Some(kind))
      else if kind == TransientError && n < cfg.backoffs then Put(x, i, x.sends[i].(progress := Pausing(n)))
      else Settle(x, i, None)
    ensures LeaveLoop(x, i, kind, aborted) == Settle(x, i, if aborted || kind == AbortError then Some(kind) else None)
  {
  }

  // A new send, as it is after its first segment.
  function Started(batch: Batch, aborted: bool): Send {
    if aborted then Send(batch, Ended(Some(AbortError)), true, false)
    else if !CanBuild(batch) then Send(batch, Ended(None), false, false)
    else Send(batch, Trying(0), false, false)
  }

  lemma StartAppends(x: System, batch: Batch, aborted: bool)
    ensures StartSend(x, batch, aborted) ==
      x.(sends := x.sends + [Started(batch, aborted)], disk := if aborted then x.disk + [batch] else x.disk)
  {
  }

  lemma HandOverKeepsKept(cfg: Config, x: System, aborted: bool)
    requires x.kept == Flatten(BatchesOf(x.sends)) + x.buffer
    ensures KeptInv(cfg, HandOver(x, aborted)) && HandOver(x, aborted).kept == x.kept
    ensures HandOver(x, aborted).buffer == []
  {
    if x.buffer != [] {
      StartAppends(x.(buffer := []), x.buffer, aborted);
      AppendedBatches(x.sends, Started(x.buffer, aborted));
    }
    assert x.kept + [] == x.kept && Flatten(BatchesOf(x.sends)) + [] == Flatten(BatchesOf(x.sends));
  }

  lemma FlushSyncAppends(x: System)
    requires x.buffer != []
    ensures var y := x.(buffer := [], sends := x.sends + [Send(x.buffer, Ended(None), false, false)]);
      SaveEventsToDisk(y, |x.sends|) ==
      x.(buffer := [], sends := x.sends + [Send(x.buffer, Ended(None), true, false)], disk := x.disk + [x.buffer])
  {
  }

  lemma AcceptKeepsKept(cfg: Config, x: System, event: Event)
    requires KeptInv(cfg, x)
    ensures KeptInv(cfg, Next(cfg, x, Accept(event)).value)
  {
    var y := x.(buffer := x.buffer + [event], kept := x.kept + [event]);
    assert y.kept == Flatten(BatchesOf(y.sends)) + y.buffer;
    HandOverKeepsKept(cfg, y, false);
  }

  lemma FlushSyncKeepsKept(cfg: Config, x: System)
    requires KeptInv(cfg, x)
    ensures KeptInv(cfg, Next(cfg, x, FlushSync).value)
  {
    AppendedBatches(x.sends, Send(x.buffer, Ended(None), true, false));
    assert x.kept + [] == x.kept;
    if x.buffer != [] {
      FlushSyncAppends(x);
    }
  }

  lemma NextKeepsKept(cfg: Config, x: System, step: Step)
    requires AllSendsInv(cfg, x) && KeptInv(cfg, x) && Next(cfg, x, step).Some?
    ensures KeptInv(cfg, Next(cfg, x, step).value)
  {
    match step
    case Accept(event) => AcceptKeepsKept(cfg, x, event);
    case Flush(aborted) => HandOverKeepsKept(cfg, x, aborted);
    case FlushSync => FlushSyncKeepsKept(cfg, x);
    case ClearBuffer => assert Flatten(BatchesOf(x.sends)) + [] == Flatten(BatchesOf(x.sends));
    case _ => SendStepKeepsBatches(cfg, x, step);
  }

  predicate IsSendStep(step: Step) {
    step.Attempt? || step.SleepEnds? || step.SleepBreaks?
  }

  // What a step of an in-flight send makes of it.
  function Moved(cfg: Config, send: Send, step: Step): Send
    requires IsSendStep(step) && !send.progress.Ended?
  {
    match step
    case Attempt(_, met) =>
      if HttpOutcome(met).Done? then send.(served := true, progress := Ended(None))
      else
        var kind := HttpOutcome(met).kind;
        if met.aborted || kind == AbortError then send.(savedToDisk := true, progress := Ended(Some(kind)))
        else if kind == TransientError && send.progress.attempt < cfg.backoffs then
          send.(progress := Pausing(send.progress.attempt))
        else send.(savedToDisk := true, progress := Ended(None))
    case SleepEnds(_) => send.(progress := Trying(send.progress.attempt + 1))
    case SleepBreaks(_, kind, aborted) =>
      send.(savedToDisk := true, progress := Ended(if aborted || kind == AbortError then Some(kind) else None))
    case _ => send
  }

  // A step of one send touches nothing else, and writes or counts as served exactly its own batch.
  lemma SendStepMovesOne(cfg: Config, x: System, step: Step)
    requires AllSendsInv(cfg, x) && IsSendStep(step) && Next(cfg, x, step).Some?
    ensures step.send < |x.sends| && !x.sends[step.send].progress.Ended?
    ensures var send := x.sends[step.send];
      var moved := Moved(cfg, send, step);
      Next(cfg, x, step).value == x.(
        sends := x.sends[step.send := moved],
        served := if moved.served then x.served + [send.batch] else x.served,
        disk := if moved.savedToDisk then x.disk + [send.batch] else x.disk)
  {
    assert SendInv(cfg, x.sends[step.send]);
    if step.Attempt? && HttpOutcome(step.met).Thrown? {
      var attempt := x.sends[step.send].progress.attempt;
      CatchSettlesOnce(cfg, x, step.send, attempt, HttpOutcome(step.met).kind, step.met.aborted);
    } else if step.SleepBreaks? {
      CatchSettlesOnce(cfg, x, step.send, 0, step.kind, step.aborted);
    }
  }

  lemma MovedKeepsInv(cfg: Config, send: Send, step: Step)
    requires SendInv(cfg, send) && IsSendStep(step) && !send.progress.Ended?
    requires step.SleepEnds? || step.SleepBreaks? <==> send.progress.Pausing?
    ensures SendInv(cfg, Moved(cfg, send, step))
  {
  }

  lemma NextKeepsSends(cfg: Config, x: System, step: Step)
    requires AllSendsInv(cfg, x) && Next(cfg, x, step).Some?
    ensures AllSendsInv(cfg, Next(cfg, x, step).value)
  {
    match step
    case Accept(event) =>
      StartAppends(x.(buffer := [], kept := x.kept + [event]), x.buffer + [event], false);
    case Flush(aborted) => StartAppends(x.(buffer := []), x.buffer, aborted);
    case FlushSync =>
      if x.buffer != [] {
        FlushSyncAppends(x);
      }
    case ClearBuffer =>
    case _ =>
      SendStepMovesOne(cfg, x, step);
      MovedKeepsInv(cfg, x.sends[step.send], step);
  }

  lemma SendStepKeepsBatches(cfg: Config, x: System, step: Step)
    requires AllSendsInv(cfg, x) && IsSendStep(step) && Next(cfg, x, step).Some?
    ensures BatchesOf(Next(cfg, x, step).value.sends) == BatchesOf(x.sends)
    ensures Next(cfg, x, step).value.kept == x.kept && Next(cfg, x, step).value.buffer == x.buffer
  {
    SendStepMovesOne(cfg, x, step);
    SameBatches(x.sends, step.send, Moved(cfg, x.sends[step.send], step));
  }

  // ---- conservation, for any way of weighing batches ----

  ghost function Weight(batches: seq<Batch>, m: Batch -> nat): nat {
    if batches == [] then 0 else Weight(batches[..|batches| - 1], m) + m(batches[|batches| - 1])
  }

  ghost function Tally(sends: seq<Send>, fate: Fate, m: Batch -> nat): nat {
    if sends == [] then 0
    else
      var last := sends[|sends| - 1];
      Tally(sends[..|sends| - 1], fate, m) + if FateOf(last) == fate then m(last.batch) else 0
  }

  lemma WeightLast(batches: seq<Batch>, last: Batch, m: Batch -> nat)
    ensures Weight(batches + [last], m) == Weight(batches, m) + m(last)
  {
    assert (batches + [last])[..|batches|] == batches;
  }

  lemma TallyLast(sends: seq<Send>, last: Send, fate: Fate, m: Batch -> nat)
    ensures Tally(sends + [last], fate, m) == Tally(sends, fate, m) + if FateOf(last) == fate then m(last.batch) else 0
  {
    assert (sends + [last])[..|sends|] == sends;
  }

  lemma {:induction false} TallyUpdate(sends: seq<Send>, i: nat, send: Send, fate: Fate, m: Batch -> nat)
    requires i < |sends|
    ensures Tally(sends[i := send], fate, m) + (if FateOf(sends[i]) == fate then m(sends[i].batch) else 0) ==
            Tally(sends, fate, m) + (if FateOf(send) == fate then m(send.batch) else 0)
    decreases |sends|
  {
    var n := |sends| - 1;
    if i < n {
      TallyUpdate(sends[..n], i, send, fate, m);
      assert sends[i := send][..n] == sends[..n][i := send];
    } else {
      assert sends[i := send][..n] == sends[..n];
    }
  }

  // Disk holds the batches of the sends that saved, the server those of the sends that were served.
  ghost predicate Balanced(x: System, m: Batch -> nat) {
    Weight(x.disk, m) == Tally(x.sends, WasSaved, m) && Weight(x.served, m) == Tally(x.sends, WasServed, m)
  }

  lemma AppendKeepsBalance(x: System, send: Send, m: Batch -> nat)
    requires Balanced(x, m) && !(send.savedToDisk && !send.progress.Ended?) && !send.served
    ensures
      Balanced(x.(sends := x.sends + [send], disk := if send.savedToDisk then x.disk + [send.batch] else x.disk), m)
  {
    TallyLast(x.sends, send, WasSaved, m);
    TallyLast(x.sends, send, WasServed, m);
    WeightLast(x.disk, send.batch, m);
  }

  lemma HandOverKeepsBalance(x: System, aborted: bool, m: Batch -> nat)
    requires Balanced(x, m)
    ensures Balanced(HandOver(x, aborted), m)
  {
    if x.buffer != [] {
      StartAppends(x.(buffer := []), x.buffer, aborted);
      AppendKeepsBalance(x.(buffer := []), Started(x.buffer, aborted), m);
    }
  }

  // One send in flight goes on, or ends served or saved.
  lemma MoveKeepsBalance(x: System, i: nat, moved: Send, m: Batch -> nat)
    requires Balanced(x, m) && i < |x.sends| && FateOf(x.sends[i]) == InFlight && moved.batch == x.sends[i].batch
    requires FateOf(moved) == if moved.savedToDisk then WasSaved else if moved.served then WasServed else InFlight
    requires !(moved.savedToDisk && moved.served)
    ensures Balanced(x.(sends := x.sends[i := moved],
                        served := if moved.served then x.served + [moved.batch] else x.served,
                        disk := if moved.savedToDisk then x.disk + [moved.batch] else x.disk), m)
  {
    TallyUpdate(x.sends, i, moved, WasSaved, m);
    TallyUpdate(x.sends, i, moved, WasServed, m);
    WeightLast(x.disk, moved.batch, m);
    WeightLast(x.served, moved.batch, m);
  }

  lemma SendStepKeepsBalance(cfg: Config, x: System, step: Step, m: Batch -> nat)
    requires AllSendsInv(cfg, x) && Balanced(x, m) && IsSendStep(step) && Next(cfg, x, step).Some?
    ensures Balanced(Next(cfg, x, step).value, m)
  {
    SendStepMovesOne(cfg, x, step);
    var send := x.sends[step.send];
    assert SendInv(cfg, send);
    MoveKeepsBalance(x, step.send, Moved(cfg, send, step), m);
  }

  lemma NextKeepsBalance(cfg: Config, x: System, step: Step, m: Batch -> nat)
    requires AllSendsInv(cfg, x) && Balanced(x, m) && Next(cfg, x, step).Some?
    ensures Balanced(Next(cfg, x, step).value, m)
  {
    match step
    case Accept(event) =>
      HandOverKeepsBalance(x.(buffer := x.buffer + [event], kept := x.kept + [event]), false, m);
    case Flush(aborted) => HandOverKeepsBalance(x, aborted, m);
    case FlushSync =>
      if x.buffer != [] {
        FlushSyncAppends(x);
        AppendKeepsBalance(x.(buffer := []), Send(x.buffer, Ended(None), true, false), m);
      }
    case ClearBuffer =>
    case _ => SendStepKeepsBalance(cfg, x, step, m);
  }

  lemma {:induction false} RunKeepsAll(cfg: Config, x: System, steps: seq<Step>, m: Batch -> nat)
    requires AllSendsInv(cfg, x) && KeptInv(cfg, x) && Balanced(x, m) && Run(cfg, x, steps).Some?
    ensures var y := Run(cfg, x, steps).value; AllSendsInv(cfg, y) && KeptInv(cfg, y) && Balanced(y, m)
    decreases |steps|
  {
    if steps != [] {
      NextKeepsSends(cfg, x, steps[0]);
      NextKeepsKept(cfg, x, steps[0]);
      NextKeepsBalance(cfg, x, steps[0], m);
      RunKeepsAll(cfg, Next(cfg, x, steps[0]).value, steps[1..], m);
    }
  }

  // ---- what every run guarantees ----

  ghost predicate Reachable(cfg: Config, x: System) {
    exists steps :: Run(cfg, EMPTY, steps) == Some(x)
  }

  lemma ReachableInv(cfg: Config, x: System, m: Batch -> nat)
    requires Reachable(cfg, x)
    ensures AllSendsInv(cfg, x) && KeptInv(cfg, x) && Balanced(x, m)
  {
    var steps :| Run(cfg, EMPTY, steps) == Some(x);
    RunKeepsAll(cfg, EMPTY, steps, m);
  }

  // Every batch handed over is in one of four places, weighed in full.
  lemma {:induction false} FatesCoverTheSends(sends: seq<Send>, m: Batch -> nat)
    ensures Weight(BatchesOf(sends), m) ==
            Tally(sends, InFlight, m) + Tally(sends, WasServed, m) + Tally(sends, WasSaved, m) +
            Tally(sends, WasDiscarded, m)
    decreases |sends|
  {
    if sends != [] {
      FatesCoverTheSends(sends[..|sends| - 1], m);
      WeightLast(BatchesOf(sends[..|sends| - 1]), sends[|sends| - 1].batch, m);
    }
  }

  // How often an event is in a batch.
  ghost function Times(e: Event): Batch -> nat {
    (b: Batch) => multiset(b)[e]
  }

  lemma {:induction false} FlattenWeighs(batches: seq<Batch>, e: Event)
    ensures multiset(Flatten(batches))[e] == Weight(batches, Times(e))
    decreases |batches|
  {
    if batches != [] {
      FlattenWeighs(batches[..|batches| - 1], e);
    }
  }

  // At every moment of every run, however sends overlap: each event accepted and not cleared has been
  // served, is on disk, was discarded because its batch could not be built, is in flight, or waits in
  // the buffer; as often as it was accepted, and nothing else is anywhere.
  lemma NothingIsLostOrSentTwice(cfg: Config, x: System, e: Event)
    requires Reachable(cfg, x)
    ensures multiset(x.kept)[e] ==
            Weight(x.served, Times(e)) + Weight(x.disk, Times(e)) + Tally(x.sends, WasDiscarded, Times(e)) +
            Tally(x.sends, InFlight, Times(e)) + multiset(x.buffer)[e]
  {
    ReachableInv(cfg, x, Times(e));
    FatesCoverTheSends(x.sends, Times(e));
    FlattenWeighs(BatchesOf(x.sends), e);
  }

  predicate Quiescent(x: System) {
    forall i :: 0 <= i < |x.sends| ==> x.sends[i].progress.Ended?
  }

  lemma {:induction false} NothingInFlight(sends: seq<Send>, m: Batch -> nat)
    requires forall i :: 0 <= i < |sends| ==> sends[i].progress.Ended?
    ensures Tally(sends, InFlight, m) == 0
    decreases |sends|
  {
    if sends != [] {
      NothingInFlight(sends[..|sends| - 1], m);
    }
  }

  lemma {:induction false} NothingDiscarded(cfg: Config, sends: seq<Send>, m: Batch -> nat)
    requires forall i :: 0 <= i < |sends| ==> SendInv(cfg, sends[i]) && CanBuild(sends[i].batch)
    ensures Tally(sends, WasDiscarded, m) == 0
    decreases |sends|
  {
    if sends != [] {
      NothingDiscarded(cfg, sends[..|sends| - 1], m);
    }
  }

  // Once no send is in flight, every event of batches that can be built is served or on disk, or waits.
  lemma EverythingArrives(cfg: Config, x: System, e: Event)
    requires Reachable(cfg, x) && Quiescent(x)
    requires forall i :: 0 <= i < |x.sends| ==> CanBuild(x.sends[i].batch)
    ensures multiset(x.kept)[e] ==
            Weight(x.served, Times(e)) + Weight(x.disk, Times(e)) + multiset(x.buffer)[e]
  {
    NothingIsLostOrSentTwice(cfg, x, e);
    ReachableInv(cfg, x, Times(e));
    NothingInFlight(x.sends, Times(e));
    NothingDiscarded(cfg, x.sends, Times(e));
  }

  // Batches are handed over in the order their events were accepted, and only grow in number.
  lemma HandedOverInOrder(cfg: Config, x: System)
    requires Reachable(cfg, x)
    ensures x.kept == Flatten(BatchesOf(x.sends)) + x.buffer
  {
    ReachableInv(cfg, x, Times(Event("", true)));
  }

  // One more send, of this batch, and as it is at its first await: saved when the signal was aborted already,
  // given up when an event in it is not flat, and else about to make its first attempt.
  ghost predicate HandedOver(x: System, y: System, batch: Batch, aborted: bool) {
    && y.buffer == [] && y.served == x.served
    && y.sends == x.sends + [
         if aborted then Send(batch, Ended(Some(AbortError)), true, false)
         else if exists event :: event in batch && !event.flat then Send(batch, Ended(None), false, false)
         else Send(batch, Trying(0), false, false)]
    && y.disk == if aborted then x.disk + [batch] else x.disk
  }

  lemma HandOverHandsOver(x: System, aborted: bool)
    requires x.buffer != []
    ensures HandedOver(x, HandOver(x, aborted), x.buffer, aborted)
  {
    StartAppends(x.(buffer := []), x.buffer, aborted);
    BuildableExactlyWhenFlat(x.buffer);
  }

  // What the sink does, at any time: an accepted event waits unless it fills the buffer; a flush hands over all
  // that waits; the synchronous one writes it to disk at once; clearing forgets what waits and nothing else.
  lemma SinkStepsDecide(cfg: Config, x: System, event: Event, aborted: bool)
    requires Reachable(cfg, x)
    ensures var r := Next(cfg, x, Accept(event));
      && r.Some? && r.value.kept == x.kept + [event]
      && (if |x.buffer| + 1 >= cfg.flushThreshold then HandedOver(x, r.value, x.buffer + [event], false)
          else r.value == x.(buffer := x.buffer + [event], kept := x.kept + [event]))
    ensures var r := Next(cfg, x, Flush(aborted));
      r.Some? && if x.buffer == [] then r.value == x else HandedOver(x, r.value, x.buffer, aborted)
    ensures var r := Next(cfg, x, FlushSync);
      && r.Some?
      && r.value == (if x.buffer == [] then x else x.(
           buffer := [], sends := x.sends + [Send(x.buffer, Ended(None), true, false)], disk := x.disk + [x.buffer]))
    ensures var r := Next(cfg, x, ClearBuffer);
      && r.Some? && r.value.kept + x.buffer == x.kept
      && r.value == x.(buffer := [], kept := r.value.kept)
  {
    ReachableInv(cfg, x, Times(event));
    HandOverHandsOver(x.(buffer := x.buffer + [event], kept := x.kept + [event]), false);
    if x.buffer != [] {
      HandOverHandsOver(x, aborted);
      FlushSyncAppends(x);
    }
  }

  // Each send is served or saved and not both, rejects only if it saved, and is discarded only if its
  // batch cannot be built.
  lemma EverySendEndsOneWay(cfg: Config, x: System, i: nat)
    requires Reachable(cfg, x) && i < |x.sends| && x.sends[i].progress.Ended?
    ensures var send := x.sends[i];
      && (send.served <==> FateOf(send) == WasServed) && (send.savedToDisk <==> FateOf(send) == WasSaved)
      && (FateOf(send) == WasDiscarded ==> !CanBuild(send.batch))
      && (send.progress.thrown.Some? ==> send.savedToDisk)
  {
    ReachableInv(cfg, x, Times(Event("", true)));
    assert SendInv(cfg, x.sends[i]);
  }

  // ---- every send ends ----

  // At most how many steps of its own a send is away from its end.
  function StepsLeft(cfg: Config, send: Send): int {
    match send.progress
    case Trying(n) => 2 * (cfg.backoffs - n) + 1
    case Pausing(n) => 2 * (cfg.backoffs - n)
    case Ended(_) => 0
  }

  predicate StepsSend(step: Step, i: nat) {
    IsSendStep(step) && step.send == i
  }

  // Other steps leave a send alone; its own bring its end nearer.
  lemma OwnStepsCountDown(cfg: Config, x: System, step: Step, i: nat)
    requires AllSendsInv(cfg, x) && Next(cfg, x, step).Some? && i < |x.sends|
    ensures var y := Next(cfg, x, step).value;
      && i < |y.sends|
      && (if StepsSend(step, i) then 0 <= StepsLeft(cfg, y.sends[i]) < StepsLeft(cfg, x.sends[i])
          else y.sends[i] == x.sends[i])
  {
    assert SendInv(cfg, x.sends[i]);
    if IsSendStep(step) {
      SendStepMovesOne(cfg, x, step);
    } else if !step.ClearBuffer? && !step.FlushSync? {
      var b := if step.Accept? then x.buffer + [step.event] else x.buffer;
      StartAppends(x.(buffer := [], kept := if step.Accept? then x.kept + [step.event] else x.kept), b,
                   if step.Flush? then step.aborted else false);
    }
  }

  ghost function OwnSteps(steps: seq<Step>, i: nat): nat {
    Count(steps, IsStepOf(i))
  }

  ghost function IsStepOf(i: nat): Step -> bool {
    (step: Step) => StepsSend(step, i)
  }

  // A send never takes more steps than backoffs allow, and what has ended stays as it ended.
  lemma {:induction false} SendsEnd(cfg: Config, x: System, steps: seq<Step>, i: nat)
    requires AllSendsInv(cfg, x) && i < |x.sends| && Run(cfg, x, steps).Some?
    ensures OwnSteps(steps, i) <= StepsLeft(cfg, x.sends[i]) <= 2 * cfg.backoffs + 1
    ensures var y := Run(cfg, x, steps).value;
      && i < |y.sends|
      && (OwnSteps(steps, i) == StepsLeft(cfg, x.sends[i]) ==> y.sends[i].progress.Ended?)
      && (x.sends[i].progress.Ended? ==> y.sends[i] == x.sends[i])
    decreases |steps|
  {
    assert SendInv(cfg, x.sends[i]);
    CountNone(IsStepOf(i));
    if steps != [] {
      var y := Next(cfg, x, steps[0]).value;
      CountFirst(steps, IsStepOf(i));
      OwnStepsCountDown(cfg, x, steps[0], i);
      NextKeepsSends(cfg, x, steps[0]);
      SendsEnd(cfg, y, steps[1..], i);
    }
  }

  // A send in flight waits for nothing but its own request or sleep.
  lemma SendsAreNeverStuck(cfg: Config, x: System, i: nat)
    requires i < |x.sends| && !x.sends[i].progress.Ended?
    ensures exists step: Step :: StepsSend(step, i) && Next(cfg, x, step).Some?
  {
    var taken := Exchange(NoToken, Responded(200), Responded(200), false);
    var step := if x.sends[i].progress.Trying? then Attempt(i, taken) else SleepEnds(i);
    assert StepsSend(step, i) && Next(cfg, x, step).Some?;
  }

  // ---- what the server's replies decide ----

  predicate IsServed(x: System, i: nat) {
    i < |x.sends| && x.sends[i].served
  }

  // Some attempt of send i met a reply that took the batch.
  ghost predicate WasAccepted(steps: seq<Step>, i: nat) {
    exists k :: 0 <= k < |steps| && steps[k].Attempt? && steps[k].send == i && Accepted(steps[k].met)
  }

  lemma AcceptedNowOrLater(steps: seq<Step>, i: nat)
    requires steps != []
    ensures WasAccepted(steps, i) <==>
      (steps[0].Attempt? && steps[0].send == i && Accepted(steps[0].met)) || WasAccepted(steps[1..], i)
  {
    if WasAccepted(steps[1..], i) {
      var k :| 0 <= k < |steps| - 1 && steps[1..][k].Attempt? && steps[1..][k].send == i && Accepted(steps[1..][k].met);
      assert steps[k + 1] == steps[1..][k];
    }
    if k :| 0 < k < |steps| && steps[k].Attempt? && steps[k].send == i && Accepted(steps[k].met) {
      assert steps[1..][k - 1] == steps[k];
    }
  }

  // A send becomes served at the step at which its batch is taken, and at no other.
  lemma NextServesWhatIsAccepted(cfg: Config, x: System, step: Step, i: nat)
    requires AllSendsInv(cfg, x) && Next(cfg, x, step).Some?
    ensures IsServed(Next(cfg, x, step).value, i) <==>
      IsServed(x, i) || (step.Attempt? && step.send == i && Accepted(step.met))
  {
    if i < |x.sends| {
      OwnStepsCountDown(cfg, x, step, i);
      assert SendInv(cfg, x.sends[i]);
    }
    if IsSendStep(step) {
      SendStepMovesOne(cfg, x, step);
      if step.Attempt? {
        ServedExactlyWhenAccepted(step.met);
      }
    }
  }

  // In every run, a batch has been served exactly when some reply to it had a status below 500 other than 429.
  lemma {:induction false} ServedExactlyByAcceptedReplies(cfg: Config, x: System, steps: seq<Step>, i: nat)
    requires AllSendsInv(cfg, x) && Run(cfg, x, steps).Some?
    ensures IsServed(Run(cfg, x, steps).value, i) <==> IsServed(x, i) || WasAccepted(steps, i)
    decreases |steps|
  {
    if steps != [] {
      var y := Next(cfg, x, steps[0]).value;
      NextKeepsSends(cfg, x, steps[0]);
      NextServesWhatIsAccepted(cfg, x, steps[0], i);
      AcceptedNowOrLater(steps, i);
      ServedExactlyByAcceptedReplies(cfg, y, steps[1..], i);
    }
  }

  // How many attempts a send makes, and how many it has left when none of them gets through.
  ghost function Attempts(steps: seq<Step>, i: nat): nat {
    Count(steps, IsAttemptOf(i))
  }

  ghost function IsAttemptOf(i: nat): Step -> bool {
    (step: Step) => step.Attempt? && step.send == i
  }

  function AttemptsLeft(cfg: Config, progress: Progress): int {
    match progress
    case Trying(n) => cfg.backoffs + 1 - n
    case Pausing(n) => cfg.backoffs - n
    case Ended(_) => 0
  }

  // Every attempt of send i is turned away by a status of 500 or more or by 429, and no sleep is broken.
  ghost predicate AllTurnedAway(steps: seq<Step>, i: nat) {
    forall k :: 0 <= k < |steps| && StepsSend(steps[k], i) ==>
      steps[k].SleepEnds? || (steps[k].Attempt? && TurnedAway(steps[k].met))
  }

  // One such step: a sleep comes next, or the next attempt, or after the last one the disk.
  lemma TurnedAwayOnce(cfg: Config, x: System, step: Step, i: nat)
    requires AllSendsInv(cfg, x) && i < |x.sends| && Next(cfg, x, step).Some?
    requires AllTurnedAway([step], i)
    ensures var y := Next(cfg, x, step).value;
      && i < |y.sends|
      && AttemptsLeft(cfg, y.sends[i].progress) ==
         AttemptsLeft(cfg, x.sends[i].progress) - (if step.Attempt? && step.send == i then 1 else 0)
      && (if StepsSend(step, i) && y.sends[i].progress.Ended?
          then y.sends[i] == x.sends[i].(savedToDisk := true, progress := Ended(None))
          else !StepsSend(step, i) ==> y.sends[i] == x.sends[i])
  {
    OwnStepsCountDown(cfg, x, step, i);
    assert SendInv(cfg, x.sends[i]);
    if StepsSend(step, i) {
      assert [step][0] == step;
      SendStepMovesOne(cfg, x, step);
    }
  }

  // A server that keeps turning a batch away is asked once for every backoff and once more; then the batch
  // is saved, whatever else goes on.
  lemma {:induction false} TurnedAwayIsSaved(cfg: Config, x: System, steps: seq<Step>, i: nat)
    requires AllSendsInv(cfg, x) && i < |x.sends| && !x.sends[i].progress.Ended?
    requires Run(cfg, x, steps).Some? && AllTurnedAway(steps, i)
    ensures var y := Run(cfg, x, steps).value;
      && i < |y.sends|
      && Attempts(steps, i) == AttemptsLeft(cfg, x.sends[i].progress) - AttemptsLeft(cfg, y.sends[i].progress)
      && (y.sends[i].progress.Ended? ==>
          y.sends[i].progress.thrown == None && y.sends[i].savedToDisk && !y.sends[i].served)
    decreases |steps|
  {
    CountNone(IsAttemptOf(i));
    if steps != [] {
      var y := Next(cfg, x, steps[0]).value;
      CountFirst(steps, IsAttemptOf(i));
      NextKeepsSends(cfg, x, steps[0]);
      assert [steps[0]][0] == steps[0];
      TurnedAwayOnce(cfg, x, steps[0], i);
      assert SendInv(cfg, x.sends[i]) && SendInv(cfg, y.sends[i]);
      assert forall k :: 0 <= k < |steps[1..]| ==> steps[1..][k] == steps[k + 1];
      if y.sends[i].progress.Ended? {
        StaysEnded(cfg, y, steps[1..], i);
      } else {
        TurnedAwayIsSaved(cfg, y, steps[1..], i);
      }
    }
  }

  lemma {:induction false} StaysEnded(cfg: Config, x: System, steps: seq<Step>, i: nat)
    requires AllSendsInv(cfg, x) && i < |x.sends| && x.sends[i].progress.Ended? && Run(cfg, x, steps).Some?
    ensures Attempts(steps, i) == 0
    ensures var y := Run(cfg, x, steps).value; i < |y.sends| && y.sends[i] == x.sends[i]
    decreases |steps|
  {
    CountNone(IsAttemptOf(i));
    if steps != [] {
      CountFirst(steps, IsAttemptOf(i));
      OwnStepsCountDown(cfg, x, steps[0], i);
      NextKeepsSends(cfg, x, steps[0]);
      StaysEnded(cfg, Next(cfg, x, steps[0]).value, steps[1..], i);
    }
  }

  // ---- one send and the method that performs it ----

  // The attempt after which `AsyncTransport.Send` stops, counted from one.
  function LastAttempt(cfg: Config, script: nat -> Try, n: nat): (a: nat)
    requires n <= cfg.backoffs
    ensures n < a <= cfg.backoffs + 1
    decreases cfg.backoffs - n
  {
    if n < cfg.backoffs && Retries(script(n)) then LastAttempt(cfg, script, n + 1) else n + 1
  }

  // The steps of send i that the script makes happen from attempt n on.
  function ScriptSteps(cfg: Config, i: nat, script: nat -> Try, n: nat): seq<Step>
    requires n <= cfg.backoffs
    decreases cfg.backoffs - n
  {
    var t := script(n);
    if HttpOutcome(t.met) != Thrown(TransientError) || t.met.aborted || n == cfg.backoffs then [Attempt(i, t.met)]
    else if t.sleep.Slept? then [Attempt(i, t.met), SleepEnds(i)] + ScriptSteps(cfg, i, script, n + 1)
    else [Attempt(i, t.met), SleepBreaks(i, t.sleep.kind, t.sleep.aborted)]
  }

  // The send has ended with this error, served or saved.
  predicate EndedWith(y: System, i: nat, thrown: Option<ErrorKind>, served: bool) {
    && i < |y.sends| && y.sends[i].progress == Ended(thrown)
    && FateOf(y.sends[i]) == if served then WasServed else WasSaved
  }

  // How the last attempt leaves the send.
  ghost predicate EndsAs(cfg: Config, y: Option<System>, i: nat, t: Try, backoffLeft: bool) {
    y.Some? && EndedWith(y.value, i, Rethrown(t, backoffLeft), Accepted(t.met))
  }

  lemma RunOne(cfg: Config, x: System, step: Step)
    ensures Run(cfg, x, [step]) == Next(cfg, x, step)
  {
    if Next(cfg, x, step).Some? {
      assert Run(cfg, Next(cfg, x, step).value, []) == Next(cfg, x, step);
    }
  }

  lemma RunTwo(cfg: Config, x: System, first: Step, second: Step, rest: seq<Step>)
    requires Next(cfg, x, first).Some? && Next(cfg, Next(cfg, x, first).value, second).Some?
    ensures Run(cfg, x, [first, second] + rest) == Run(cfg, Next(cfg, Next(cfg, x, first).value, second).value, rest)
  {
    var steps := [first, second] + rest;
    assert steps[1..][0] == second && steps[1..][1..] == rest;
  }

  // An attempt that leads to no sleep.
  lemma AttemptEnds(cfg: Config, x: System, i: nat, t: Try, n: nat)
    requires AllSendsInv(cfg, x) && i < |x.sends| && x.sends[i].progress == Trying(n)
    requires HttpOutcome(t.met) != Thrown(TransientError) || t.met.aborted || n == cfg.backoffs
    ensures EndsAs(cfg, Next(cfg, x, Attempt(i, t.met)), i, t, n < cfg.backoffs)
  {
    assert SendInv(cfg, x.sends[i]);
    ServedExactlyWhenAccepted(t.met);
    SendStepMovesOne(cfg, x, Attempt(i, t.met));
  }

  // A transient failure and a sleep that is broken.
  lemma BrokenSleepEnds(cfg: Config, x: System, i: nat, t: Try, n: nat)
    requires AllSendsInv(cfg, x) && i < |x.sends| && x.sends[i].progress == Trying(n) && n < cfg.backoffs
    requires HttpOutcome(t.met) == Thrown(TransientError) && !t.met.aborted && t.sleep.Woken?
    ensures EndsAs(cfg, Run(cfg, x, [Attempt(i, t.met), SleepBreaks(i, t.sleep.kind, t.sleep.aborted)]), i, t, true)
  {
    var fails, breaks := Attempt(i, t.met), SleepBreaks(i, t.sleep.kind, t.sleep.aborted);
    ServedExactlyWhenAccepted(t.met);
    SendStepMovesOne(cfg, x, fails);
    NextKeepsSends(cfg, x, fails);
    var y := Next(cfg, x, fails).value;
    SendStepMovesOne(cfg, y, breaks);
    RunTwo(cfg, x, fails, breaks, []);
    assert [fails, breaks] + [] == [fails, breaks];
  }

  // An attempt that is not followed by another.
  lemma LastAttemptEnds(cfg: Config, x: System, i: nat, script: nat -> Try, n: nat)
    requires AllSendsInv(cfg, x) && n <= cfg.backoffs && i < |x.sends| && x.sends[i].progress == Trying(n)
    requires n == cfg.backoffs || !Retries(script(n))
    ensures EndsAs(cfg, Run(cfg, x, ScriptSteps(cfg, i, script, n)), i, script(n), n < cfg.backoffs)
  {
    var t := script(n);
    if HttpOutcome(t.met) != Thrown(TransientError) || t.met.aborted || n == cfg.backoffs {
      RunOne(cfg, x, Attempt(i, t.met));
      AttemptEnds(cfg, x, i, t, n);
    } else {
      BrokenSleepEnds(cfg, x, i, t, n);
    }
  }

  lemma RetriedAttempt(cfg: Config, x: System, i: nat, script: nat -> Try, n: nat) returns (z: System)
    requires AllSendsInv(cfg, x) && i < |x.sends| && x.sends[i].progress == Trying(n)
    requires n < cfg.backoffs && Retries(script(n))
    ensures AllSendsInv(cfg, z) && i < |z.sends| && z.sends[i].progress == Trying(n + 1)
    ensures Run(cfg, x, ScriptSteps(cfg, i, script, n)) == Run(cfg, z, ScriptSteps(cfg, i, script, n + 1))
  {
    var fails := Attempt(i, script(n).met);
    SendStepMovesOne(cfg, x, fails);
    NextKeepsSends(cfg, x, fails);
    var y := Next(cfg, x, fails).value;
    NextKeepsSends(cfg, y, SleepEnds(i));
    RunTwo(cfg, x, fails, SleepEnds(i), ScriptSteps(cfg, i, script, n + 1));
    z := Next(cfg, y, SleepEnds(i)).value;
  }

  // Send i, from attempt n on, ends as the contract of `AsyncTransport.Send` says.
  ghost predicate EndsAsScripted(cfg: Config, y: Option<System>, i: nat, script: nat -> Try, n: nat)
    requires n <= cfg.backoffs
  {
    var a := LastAttempt(cfg, script, n);
    && (forall k :: n <= k < a - 1 ==> Retries(script(k)))
    && (a <= cfg.backoffs ==> !Retries(script(a - 1)))
    && EndsAs(cfg, y, i, script(a - 1), a <= cfg.backoffs)
  }

  // A retried attempt leaves the end to the attempts after it.
  lemma RetryEndsAsTheRest(cfg: Config, y: Option<System>, i: nat, script: nat -> Try, n: nat)
    requires n < cfg.backoffs && Retries(script(n)) && EndsAsScripted(cfg, y, i, script, n + 1)
    ensures EndsAsScripted(cfg, y, i, script, n)
  {
  }

  lemma LastAttemptEndsAsScripted(cfg: Config, y: Option<System>, i: nat, script: nat -> Try, n: nat)
    requires n <= cfg.backoffs && (n == cfg.backoffs || !Retries(script(n)))
    requires EndsAs(cfg, y, i, script(n), n < cfg.backoffs)
    ensures EndsAsScripted(cfg, y, i, script, n)
  {
  }

  // A send driven by a script ends in the machine as the contract of `AsyncTransport.Send` says: after the
  // same attempt, with the same error, served or saved.
  lemma {:induction false} MachineFollowsSend(cfg: Config, x: System, i: nat, script: nat -> Try, n: nat)
    requires AllSendsInv(cfg, x) && n <= cfg.backoffs && i < |x.sends| && x.sends[i].progress == Trying(n)
    ensures EndsAsScripted(cfg, Run(cfg, x, ScriptSteps(cfg, i, script, n)), i, script, n)
    decreases cfg.backoffs - n
  {
    var y := Run(cfg, x, ScriptSteps(cfg, i, script, n));
    if n < cfg.backoffs && Retries(script(n)) {
      var z := RetriedAttempt(cfg, x, i, script, n);
      MachineFollowsSend(cfg, z, i, script, n + 1);
      RetryEndsAsTheRest(cfg, y, i, script, n);
    } else {
      LastAttemptEnds(cfg, x, i, script, n);
      LastAttemptEndsAsScripted(cfg, y, i, script, n);
    }
  }
}
