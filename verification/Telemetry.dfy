/**
 * Delivery of telemetry: the retry, abort and save loop of packages/telemetry/src/transport.ts and the
 * buffering sink of packages/telemetry/src/sink.ts. A single `send` follows a script of what each attempt
 * meets; sink and transport together, with any number of sends in flight, are a state machine in module
 * TelemetryRuns. Disk writes succeed.
 */
module Telemetry {
  import opened Options

  // flat: every property is a primitive, so the event can go into a payload.
  datatype Event = Event(name: string, flat: bool)

  type Batch = seq<Event>

  datatype ErrorKind = TransientError | AbortError | OtherError

  datatype TokenLookup = NoToken | HasToken | LookupFailed(kind: ErrorKind)

  // A response, or a rejected request and whether the signal was aborted by then.
  datatype Reply = Responded(status: int) | Rejected(kind: ErrorKind, aborted: bool)

  datatype Sleep = Slept | Woken(kind: ErrorKind, aborted: bool)

  // What one attempt meets: the replies to the two requests it may make, and the signal when it fails.
  datatype Exchange = Exchange(token: TokenLookup, first: Reply, second: Reply, aborted: bool)

  // An attempt and the sleep after it.
  datatype Try = Try(met: Exchange, sleep: Sleep)

  datatype HttpResult = Done | Thrown(kind: ErrorKind)

  predicate CanBuild(events: Batch) {
    forall i :: 0 <= i < |events| ==> events[i].flat
  }

  // A payload holds primitives only: one event with anything else spoils its batch.
  lemma BuildableExactlyWhenFlat(events: Batch)
    ensures CanBuild(events) <==> forall event :: event in events ==> event.flat
  {
    assert forall i :: 0 <= i < |events| ==> events[i] in events;
  }

  predicate IsRetryable(status: int) {
    status >= 500 || status == 429
  }

  // ---- one attempt ----

  // The requests an attempt makes, by whether they carry credentials.
  function Requests(met: Exchange): seq<bool> {
    match met.token
    case LookupFailed(_) => []
    case NoToken => [false]
    case HasToken => if met.first == Responded(401) then [true, false] else [true]
  }

  // What the reply to the last request amounts to.
  function Judged(reply: Reply): HttpResult {
    match reply
    case Responded(status) => if IsRetryable(status) then Thrown(TransientError) else Done
    case Rejected(kind, aborted) => if aborted || kind == AbortError then Thrown(kind) else Thrown(TransientError)
  }

  function HttpOutcome(met: Exchange): HttpResult {
    if Requests(met) == [] then Thrown(met.token.kind)
    else Judged(if |Requests(met)| == 2 then met.second else met.first)
  }

  // The only failures that lead to another attempt: transient ones, with no abort before or during the sleep.
  predicate Retries(t: Try) {
    HttpOutcome(t.met) == Thrown(TransientError) && !t.met.aborted && t.sleep == Slept
  }

  // The error a batch's last attempt rejects with: only an abort gets through.
  function Rethrown(t: Try, backoffLeft: bool): Option<ErrorKind> {
    match HttpOutcome(t.met)
    case Done => None
    case Thrown(kind) =>
      if t.met.aborted || kind == AbortError then Some(kind)
      else if kind == TransientError && backoffLeft && t.sleep.Woken? &&
        (t.sleep.aborted || t.sleep.kind == AbortError) then
        Some(t.sleep.kind)
      else None
  }

  // ---- the same on statuses ----

  // The reply to the last request: to the second one after a 401 to a request with credentials.
  ghost function LastReply(met: Exchange): Option<Reply> {
    if met.token.LookupFailed? then None
    else if met.token.HasToken? && met.first.Responded? && met.first.status == 401 then Some(met.second)
    else Some(met.first)
  }

  // The server takes the batch, or turns it away for now.
  ghost predicate Accepted(met: Exchange) {
    var reply := LastReply(met);
    reply.Some? && reply.value.Responded? && reply.value.status < 500 && reply.value.status != 429
  }

  ghost predicate TurnedAway(met: Exchange) {
    var reply := LastReply(met);
    && !met.aborted
    && reply.Some? && reply.value.Responded? && (reply.value.status >= 500 || reply.value.status == 429)
  }

  // No reply arrived, and no abort is the reason.
  ghost predicate NeverAnswered(met: Exchange) {
    var reply := LastReply(met);
    && !met.aborted
    && reply.Some? && reply.value.Rejected? && !reply.value.aborted && reply.value.kind != AbortError
  }

  // The attempt fails with an error of the kind given, raised by the token lookup or kept by the request.
  ghost predicate Raises(met: Exchange, kind: ErrorKind) {
    match LastReply(met)
    case None => met.token.kind == kind
    case Some(reply) => reply.Rejected? && reply.kind == kind && (reply.aborted || kind == AbortError)
  }

  // A failure that may pass: the batch turned away, a request that failed, an error that says so itself.
  ghost predicate MayPass(met: Exchange) {
    TurnedAway(met) || NeverAnswered(met) || (!met.aborted && Raises(met, TransientError))
  }

  // The first n attempts are turned away or the like, and every sleep after them ends.
  ghost predicate AllMayPass(script: nat -> Try, n: nat) {
    forall k: nat :: k < n ==> MayPass(script(k).met) && script(k).sleep == Slept
  }

  // No request without a lookup; the first carries credentials when there are any; a second, without them,
  // follows exactly a 401 to that.
  lemma CredentialsAreTriedOnce(met: Exchange)
    ensures var requests := Requests(met);
      && |requests| <= 2 && (requests == [] <==> met.token.LookupFailed?)
      && (requests != [] ==> (requests[0] <==> met.token.HasToken?))
      && (|requests| == 2 <==> met.token.HasToken? && met.first.Responded? && met.first.status == 401)
      && (|requests| == 2 ==> !requests[1])
  {
  }

  lemma ServedExactlyWhenAccepted(met: Exchange)
    ensures HttpOutcome(met) == Done <==> Accepted(met)
  {
  }

  lemma RetriedExactlyWhenItMayPass(t: Try)
    ensures Retries(t) <==> MayPass(t.met) && t.sleep == Slept
  {
  }

  // The last attempt rejects when the signal was aborted by the time it failed, when its error is an abort,
  // or when the sleep after a transient failure is broken by one.
  lemma RethrownExactlyWhenAborted(t: Try, backoffLeft: bool)
    ensures Rethrown(t, backoffLeft).Some? <==>
      || (t.met.aborted && !Accepted(t.met))
      || Raises(t.met, AbortError)
      || (MayPass(t.met) && backoffLeft && t.sleep.Woken? && (t.sleep.aborted || t.sleep.kind == AbortError))
  {
  }

  class AsyncTransport {
    const backoffs: nat
    // The batches written to disk, and those for which an attempt returned normally.
    var disk: seq<Batch>
    var served: seq<Batch>

    constructor (backoffs: nat)
      ensures this.backoffs == backoffs && disk == [] && served == []
    {
      this.backoffs := backoffs;
      disk, served := [], [];
    }

    // The reply to one request, errors sorted by the signal.
    method Post(reply: Reply) returns (status: int, thrown: Option<ErrorKind>)
      ensures reply.Responded? ==> thrown == None && status == reply.status
      ensures reply.Rejected? ==> thrown.Some? && Judged(reply) == Thrown(thrown.value)
    {
      status, thrown := 0, None;
      match reply
      case Responded(code) => status := code;
      case Rejected(kind, aborted) =>
        thrown := Some(if aborted || kind == AbortError then kind else TransientError);
    }

    method SendHttp(events: Batch, met: Exchange) returns (result: HttpResult, requests: seq<bool>)
      modifies `served
      ensures result == HttpOutcome(met) && requests == Requests(met)
      ensures result.Done? <==> Accepted(met)
      ensures served == if result.Done? then old(served) + [events] else old(served)
    {
      requests := [];
      if met.token.LookupFailed? {
        return Thrown(met.token.kind), requests;
      }
      var authorized := met.token.HasToken?;
      requests := requests + [authorized];
      var status, thrown := Post(met.first);
      if thrown.Some? {
        return Thrown(thrown.value), requests;
      }
      if status == 401 && authorized {
        requests := requests + [false];
        status, thrown := Post(met.second);
        if thrown.Some? {
          return Thrown(thrown.value), requests;
        }
      }
      if IsRetryable(status) {
        return Thrown(TransientError), requests;
      }
      served := served + [events];
      result := Done;
    }

    method SaveToDisk(events: Batch)
      modifies `disk
      ensures disk == if events == [] then old(disk) else old(disk) + [events]
    {
      if events != [] {
        disk := disk + [events];
      }
    }

    // The latch that keeps a batch from being written twice.
    method SaveOnce(events: Batch, savedToDisk: bool) returns (saved: bool)
      requires events != []
      modifies `disk
      ensures saved && disk == if savedToDisk then old(disk) else old(disk) + [events]
    {
      if !savedToDisk {
        SaveToDisk(events);
      }
      saved := true;
    }

    // Every batch that can be built is served once or saved once, never both, whatever happens.
    method Send(events: Batch, aborted: bool, script: nat -> Try) returns (thrown: Option<ErrorKind>, attempts: nat)
      modifies `disk, `served
      ensures events == [] || (!aborted && !CanBuild(events)) ==>
        disk == old(disk) && served == old(served) && thrown == None && attempts == 0
      ensures events != [] && aborted ==>
        disk == old(disk) + [events] && served == old(served) && thrown == Some(AbortError) && attempts == 0
      ensures events != [] && !aborted && CanBuild(events) ==>
        && 1 <= attempts <= backoffs + 1
        && (forall k :: 0 <= k < attempts - 1 ==> Retries(script(k)))
        && (attempts <= backoffs ==> !Retries(script(attempts - 1)))
        && thrown == Rethrown(script(attempts - 1), attempts <= backoffs)
        && (if Accepted(script(attempts - 1).met)
            then served == old(served) + [events] && disk == old(disk)
            else served == old(served) && disk == old(disk) + [events])
        && (AllMayPass(script, backoffs + 1) ==> attempts == backoffs + 1 && disk == old(disk) + [events])
        && (forall n: nat :: n <= backoffs && AllMayPass(script, n) && Accepted(script(n).met) ==>
              attempts == n + 1 && served == old(served) + [events])
    {
      thrown, attempts := None, 0;
      if events == [] {
        return;
      }
      var savedToDisk := false;
      if aborted {
        savedToDisk := SaveOnce(events, savedToDisk);
        thrown := Some(AbortError);
        return;
      }
      if !CanBuild(events) {
        return;
      }
      // The error that leaves the loop, and the signal at that moment.
      var escaped: Option<ErrorKind> := None;
      var signalled := false;
      while true
        invariant attempts <= backoffs && !savedToDisk && escaped == None
        invariant forall k :: 0 <= k < attempts ==> Retries(script(k))
        invariant disk == old(disk) && served == old(served)
        decreases backoffs - attempts
      {
        var t := script(attempts);
        var backoffLeft := attempts < backoffs;
        var result, _ := SendHttp(events, t.met);
        attempts := attempts + 1;
        if result.Done? {
          return;
        }
        if t.met.aborted || result.kind == AbortError {
          savedToDisk := SaveOnce(events, savedToDisk);
          escaped, signalled := Some(result.kind), t.met.aborted;
          break;
        }
        if result.kind != TransientError || !backoffLeft {
          break;
        }
        if t.sleep.Woken? {
          escaped, signalled := Some(t.sleep.kind), t.sleep.aborted;
          break;
        }
      }
      if escaped.Some? && (signalled || escaped.value == AbortError) {
        savedToDisk := SaveOnce(events, savedToDisk);
        return escaped, attempts;
      }
      savedToDisk := SaveOnce(events, savedToDisk);
    }
  }

  // ---- the sink ----

  ghost function Flatten(batches: seq<Batch>): seq<Event> {
    if batches == [] then [] else Flatten(batches[..|batches| - 1]) + batches[|batches| - 1]
  }

  lemma FlattenLast(batches: seq<Batch>, last: Batch)
    ensures Flatten(batches + [last]) == Flatten(batches) + last
  {
    assert (batches + [last])[..|batches|] == batches;
  }

  // The synchronous half of the sink: each method returns the batch it hands to the transport, which
  // sends it while the sink goes on. `kept` are the events accepted and not cleared, `handed` the
  // batches handed over, both in order.
  class EventSink {
    const flushThreshold: int
    var buffer: Batch
    ghost var kept: seq<Event>
    ghost var handed: seq<Batch>

    ghost predicate Valid()
      reads this
    {
      && kept == Flatten(handed) + buffer
      && (buffer == [] || |buffer| < flushThreshold)
      && forall i :: 0 <= i < |handed| ==> handed[i] != []
    }

    constructor (flushThreshold: int)
      ensures Valid() && this.flushThreshold == flushThreshold && kept == [] && handed == []
    {
      this.flushThreshold := flushThreshold;
      buffer, kept, handed := [], [], [];
    }

    method Accept(event: Event) returns (sent: Batch)
      requires Valid()
      modifies this
      ensures Valid() && kept == old(kept) + [event]
      ensures sent == if |old(buffer)| + 1 >= flushThreshold then old(buffer) + [event] else []
      ensures handed == if sent == [] then old(handed) else old(handed) + [sent]
    {
      buffer := buffer + [event];
      kept := kept + [event];
      assert kept == Flatten(handed) + buffer;
      sent := [];
      if |buffer| >= flushThreshold {
        sent := SwapOut();
      }
    }

    // The buffer is swapped out before anything is awaited, so what it holds is handed over whole and once.
    method SwapOut() returns (events: Batch)
      requires buffer != [] && kept == Flatten(handed) + buffer && forall i :: 0 <= i < |handed| ==> handed[i] != []
      modifies this
      ensures Valid() && buffer == [] && kept == old(kept)
      ensures events == old(buffer) && handed == old(handed) + [events]
    {
      FlattenLast(handed, buffer);
      events := buffer;
      buffer := [];
      handed := handed + [events];
      assert Flatten(handed) + [] == kept;
    }

    // Both flushes: to the transport's `send`, or straight to disk.
    method Flush() returns (sent: Batch)
      requires Valid()
      modifies this
      ensures Valid() && buffer == [] && kept == old(kept) && sent == old(buffer)
      ensures handed == if sent == [] then old(handed) else old(handed) + [sent]
    {
      if buffer == [] {
        return [];
      }
      sent := SwapOut();
    }

    method ClearBuffer()
      requires Valid()
      modifies this
      ensures Valid() && buffer == [] && handed == old(handed)
      ensures kept + old(buffer) == old(kept)
    {
      kept := kept[..|kept| - |buffer|];
      buffer := [];
    }
  }
}
