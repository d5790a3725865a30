/**
 * The lifecycle of the two MCP clients (packages/mcp-host/src/client-http.ts and client-stdio.ts):
 * how a transport that dies on its own reaches the one registered listener. The SDK client behind
 * them is the source of the transport events; calls into a listener are recorded in `delivered`.
 */
module McpClients {
  import opened Options

  datatype TransportError = TransportError(name: string, message: string)

  datatype Reason = Reason(error: Option<TransportError>, stderr: Option<string>)

  type Listener = nat

  datatype Delivery = Delivery(to: Listener, reason: Reason)

  datatype Event =
    | Connect
    | HandshakeEnds(ok: bool)
    | Close
    | Register(listener: Listener)
    | TransportCloses
    | TransportErrors(error: TransportError)
    | Stderr(chunk: string)

  // ---- which HTTP errors mean that the transport is gone ----

  function Lower(c: char): char {
    if 'A' <= c <= 'Z' then (c as int + 32) as char else c
  }

  predicate StartsWithIgnoringCase(s: string, t: string) {
    t == [] || (s != [] && Lower(s[0]) == Lower(t[0]) && StartsWithIgnoringCase(s[1..], t[1..]))
  }

  predicate ContainsIgnoringCase(s: string, t: string) {
    StartsWithIgnoringCase(s, t) || (s != [] && ContainsIgnoringCase(s[1..], t))
  }

  predicate IsTerminalTransportError(error: TransportError) {
    error.name == "UnauthorizedError" || ContainsIgnoringCase(error.message, "Maximum reconnection attempts")
  }

  // ---- the state both clients keep; `fired` is the latch only the HTTP client uses ----

  datatype Life = Life(started: bool, closed: bool, ready: bool, handshaking: bool, hooksInstalled: bool)

  datatype Client = Client(
    life: Life,
    listener: Option<Listener>,
    lastError: Option<TransportError>,
    pending: Option<Reason>,
    fired: bool,
    stderr: string,
    delivered: seq<Delivery>)

  datatype Kind = Http | Stdio(capacity: nat)

  const NEW := Client(Life(false, false, false, false, false), None, None, None, false, "", [])

  function Tail(s: string, capacity: nat): (t: string)
    ensures |t| <= capacity
  {
    if |s| > capacity then s[|s| - capacity..] else s
  }

  // Whether an event means that a live transport just died, and the reason reported for it.
  predicate IsDeath(kind: Kind, c: Client, e: Event) {
    && c.life.hooksInstalled && c.life.ready && !c.life.closed
    && (e.TransportCloses? || (kind.Http? && e.TransportErrors? && IsTerminalTransportError(e.error)))
  }

  function ReasonFor(c: Client, e: Event): Reason {
    Reason(if e.TransportErrors? then Some(e.error) else c.lastError, if c.stderr == "" then None else Some(c.stderr))
  }

  // Hand a death to the listener, or keep it for the next one to register.
  function Report(c: Client, reason: Reason): Client {
    match c.listener
    case Some(l) => c.(delivered := c.delivered + [Delivery(l, reason)])
    case None => c.(pending := Some(reason))
  }

  function Next(kind: Kind, c: Client, e: Event): Client {
    match e
    case Connect =>
      if c.life.closed || c.life.started then c
      else c.(life := c.life.(started := true, hooksInstalled := true, handshaking := true))
    case HandshakeEnds(ok) =>
      if !c.life.handshaking then c
      else if ok && !c.life.closed then c.(life := c.life.(handshaking := false, ready := true))
      else c.(life := c.life.(handshaking := false, started := false))
    case Close => if c.life.closed then c else c.(life := c.life.(closed := true, started := false))
    case Register(l) =>
      var d := c.(listener := Some(l), pending := None);
      if c.pending.Some? then d.(delivered := c.delivered + [Delivery(l, c.pending.value)]) else d
    case TransportCloses =>
      if !IsDeath(kind, c, e) || (kind.Http? && c.fired) then c
      else Report(c.(fired := kind.Http?), ReasonFor(c, e))
    case TransportErrors(error) =>
      if !c.life.hooksInstalled then c
      else
        var d := c.(lastError := Some(error));
        if !IsDeath(kind, c, e) || c.fired then d else Report(d.(fired := true), ReasonFor(c, e))
    case Stderr(chunk) => if kind.Stdio? then c.(stderr := Tail(c.stderr + chunk, kind.capacity)) else c
  }

  function Run(kind: Kind, c: Client, es: seq<Event>): Client
    decreases |es|
  {
    if es == [] then c else Run(kind, Next(kind, c, es[0]), es[1..])
  }

  // ---- what should be delivered, read off the whole history ----

  function FirstListener(es: seq<Event>): Option<Listener> {
    if es == [] then None
    else if es[0].Register? then Some(es[0].listener)
    else FirstListener(es[1..])
  }

  // The first death reaches the listener of that moment, or else the first one to register later.
  function FirstDeathDelivered(c: Client, es: seq<Event>): seq<Delivery>
    decreases |es|
  {
    if es == [] then []
    else if IsDeath(Http, c, es[0]) then
      var l := if c.listener.Some? then c.listener else FirstListener(es[1..]);
      if l.Some? then [Delivery(l.value, ReasonFor(c, es[0]))] else []
    else FirstDeathDelivered(Next(Http, c, es[0]), es[1..])
  }

  lemma {:induction false} HttpAfterDeath(c: Client, es: seq<Event>)
    requires c.fired && (c.pending.Some? ==> c.listener.None?)
    ensures Run(Http, c, es).delivered == c.delivered +
      if c.pending.Some? && FirstListener(es).Some? then [Delivery(FirstListener(es).value, c.pending.value)] else []
    decreases |es|
  {
    if es != [] {
      HttpAfterDeath(Next(Http, c, es[0]), es[1..]);
    }
  }

  lemma {:induction false} HttpBeforeDeath(c: Client, es: seq<Event>)
    requires !c.fired && c.pending.None?
    ensures Run(Http, c, es).delivered == c.delivered + FirstDeathDelivered(c, es)
    decreases |es|
  {
    if es != [] {
      if IsDeath(Http, c, es[0]) {
        HttpAfterDeath(Next(Http, c, es[0]), es[1..]);
      } else {
        HttpBeforeDeath(Next(Http, c, es[0]), es[1..]);
      }
    }
  }

  // Whatever the order of death, registration, repeated signals and close, an HTTP client reports
  // the first death of its transport once, to the right listener, and nothing else.
  lemma HttpDeathIsDeliveredOnce(es: seq<Event>)
    ensures Run(Http, NEW, es).delivered == FirstDeathDelivered(NEW, es)
    ensures |Run(Http, NEW, es).delivered| <= 1
  {
    HttpBeforeDeath(NEW, es);
    AtMostOne(NEW, es);
  }

  lemma {:induction false} AtMostOne(c: Client, es: seq<Event>)
    ensures |FirstDeathDelivered(c, es)| <= 1
    decreases |es|
  {
    if es != [] && !IsDeath(Http, c, es[0]) {
      AtMostOne(Next(Http, c, es[0]), es[1..]);
    }
  }

  predicate HasListener(c: Client, es: seq<Event>) {
    c.listener.Some? || FirstListener(es).Some?
  }

  function Deaths(kind: Kind, c: Client, es: seq<Event>): nat
    decreases |es|
  {
    if es == [] then 0
    else (if IsDeath(kind, c, es[0]) then 1 else 0) + Deaths(kind, Next(kind, c, es[0]), es[1..])
  }

  lemma ListenerStep(kind: Kind, c: Client, e: Event)
    ensures Next(kind, c, e).listener.Some? <==> c.listener.Some? || e.Register?
  {
  }

  lemma {:induction false} ListenerOfRun(kind: Kind, c: Client, es: seq<Event>)
    ensures Run(kind, c, es).listener.Some? <==> HasListener(c, es)
    decreases |es|
  {
    if es != [] {
      ListenerStep(kind, c, es[0]);
      ListenerOfRun(kind, Next(kind, c, es[0]), es[1..]);
    }
  }

  lemma {:induction false} DeliveredIffDead(c: Client, es: seq<Event>)
    ensures FirstDeathDelivered(c, es) != [] <==> Deaths(Http, c, es) > 0 && HasListener(c, es)
    decreases |es|
  {
    if es != [] && !IsDeath(Http, c, es[0]) {
      DeliveredIffDead(Next(Http, c, es[0]), es[1..]);
    }
  }

  // Exactly one delivery when the transport died by itself and somebody ever registered; otherwise none.
  lemma HttpDeliversIffDead(es: seq<Event>)
    ensures |Run(Http, NEW, es).delivered| ==
      if Deaths(Http, NEW, es) > 0 && Run(Http, NEW, es).listener.Some? then 1 else 0
  {
    HttpDeathIsDeliveredOnce(es);
    DeliveredIffDead(NEW, es);
    ListenerOfRun(Http, NEW, es);
  }

  // ---- the stdio client has no latch ----

  // Deaths before anyone has registered count once together, those after count each.
  function StdioDeliveries(kind: Kind, c: Client, es: seq<Event>): nat
    requires kind.Stdio?
    decreases |es|
  {
    if c.listener.Some? then Deaths(kind, c, es)
    else if es == [] then 0
    else if es[0].Register? then
      (if c.pending.Some? then 1 else 0) + Deaths(kind, Next(kind, c, es[0]), es[1..])
    else StdioDeliveries(kind, Next(kind, c, es[0]), es[1..])
  }

  lemma {:induction false} StdioListening(kind: Kind, c: Client, es: seq<Event>)
    requires kind.Stdio? && c.listener.Some? && c.pending.None?
    ensures |Run(kind, c, es).delivered| == |c.delivered| + Deaths(kind, c, es)
    decreases |es|
  {
    if es != [] {
      StdioListening(kind, Next(kind, c, es[0]), es[1..]);
    }
  }

  lemma StdioUnheardStep(kind: Kind, c: Client, e: Event)
    requires kind.Stdio? && c.listener.None? && !e.Register?
    ensures Next(kind, c, e).listener.None? && Next(kind, c, e).delivered == c.delivered
  {
  }

  lemma {:induction false} StdioCountsDeaths(kind: Kind, c: Client, es: seq<Event>)
    requires kind.Stdio? && c.listener.None?
    ensures |Run(kind, c, es).delivered| == |c.delivered| + StdioDeliveries(kind, c, es)
    decreases |es|
  {
    if es != [] {
      var d := Next(kind, c, es[0]);
      if es[0].Register? {
        StdioListening(kind, d, es[1..]);
      } else {
        StdioUnheardStep(kind, c, es[0]);
        StdioCountsDeaths(kind, d, es[1..]);
      }
    }
  }

  function Closes(es: seq<Event>): nat {
    multiset(es)[TransportCloses]
  }

  lemma {:induction false} DeathsAreCloses(kind: Kind, c: Client, es: seq<Event>)
    requires kind.Stdio?
    ensures Deaths(kind, c, es) <= Closes(es)
    decreases |es|
  {
    if es != [] {
      assert es == [es[0]] + es[1..];
      DeathsAreCloses(kind, Next(kind, c, es[0]), es[1..]);
    }
  }

  lemma {:induction false} SingleDeath(kind: Kind, c: Client, es: seq<Event>)
    requires kind.Stdio? && (c.pending.Some? ==> c.listener.None?)
    requires Deaths(kind, c, es) + (if c.pending.Some? then 1 else 0) <= 1
    ensures StdioDeliveries(kind, c, es) ==
      if HasListener(c, es) then Deaths(kind, c, es) + (if c.pending.Some? then 1 else 0) else 0
    decreases |es|
  {
    if es != [] && c.listener.None? {
      SingleDeath(kind, Next(kind, c, es[0]), es[1..]);
    }
    if es == [] && c.listener.Some? {
      assert c.pending.None?;
    }
  }

  // A stdio client delivers exactly once too, provided the SDK signals the close of one transport
  // at most once.
  lemma StdioDeliversOncePerClose(kind: Kind, es: seq<Event>)
    requires kind.Stdio? && Closes(es) <= 1
    ensures |Run(kind, NEW, es).delivered| ==
      if Deaths(kind, NEW, es) > 0 && Run(kind, NEW, es).listener.Some? then 1 else 0
  {
    DeathsAreCloses(kind, NEW, es);
    StdioCountsDeaths(kind, NEW, es);
    SingleDeath(kind, NEW, es);
    ListenerOfRun(kind, NEW, es);
  }

  // That proviso is needed: a repeated close signal is delivered again.
  lemma StdioRepeatsARepeatedClose(kind: Kind, l: Listener)
    requires kind.Stdio?
    ensures
      |Run(kind, NEW, [Connect, HandshakeEnds(true), Register(l), TransportCloses, TransportCloses]).delivered| == 2
  {
    var es := [Connect, HandshakeEnds(true), Register(l), TransportCloses, TransportCloses];
    var c := Next(kind, Next(kind, Next(kind, NEW, es[0]), es[1]), es[2]);
    assert Run(kind, NEW, es) == Run(kind, c, es[3..]) by {
      assert es[1..][1..] == es[2..] && es[2..][1..] == es[3..];
      assert Run(kind, Next(kind, NEW, es[0]), es[1..]) ==
        Run(kind, Next(kind, Next(kind, NEW, es[0]), es[1]), es[2..]);
    }
    assert es[3..][1..] == es[4..] && es[4..][1..] == [];
    var d := Next(kind, c, es[3]);
    assert Run(kind, d, es[4..]) == Next(kind, d, es[4]);
  }

  // An intentional close silences the transport: nothing that happens after it is a death.
  lemma {:induction false} ClosedClientsStaySilent(kind: Kind, c: Client, es: seq<Event>)
    requires c.life.closed
    ensures Deaths(kind, c, es) == 0
    decreases |es|
  {
    if es != [] {
      ClosedClientsStaySilent(kind, Next(kind, c, es[0]), es[1..]);
    }
  }

  // ---- the clients themselves ----

  // What a call of connect() does before its first await.
  datatype ConnectStart = RefusedClosed | AlreadyStarted | Handshaking

  lemma TailOfSuffix(s: string, cut: nat, capacity: nat)
    requires cut + capacity <= |s|
    ensures Tail(s[cut..], capacity) == Tail(s, capacity)
  {
    assert s[cut..][|s| - cut - capacity..] == s[|s| - capacity..];
  }

  lemma DropOfConcat(s: string, chunk: string, cut: nat)
    requires cut <= |s|
    ensures (s + chunk)[cut..] == s[cut..] + chunk
  {
  }

  lemma TailOfTail(s: string, chunk: string, capacity: nat)
    ensures Tail(Tail(s, capacity) + chunk, capacity) == Tail(s + chunk, capacity)
  {
    if |s| > capacity {
      DropOfConcat(s, chunk, |s| - capacity);
      TailOfSuffix(s + chunk, |s| - capacity, capacity);
    }
  }

  // The last `capacity` characters of everything pushed so far.
  class BoundedTail {
    const capacity: nat
    var buffer: string
    ghost var history: string

    ghost predicate Valid()
      reads this
    {
      buffer == Tail(history, capacity)
    }

    constructor (capacity: nat)
      ensures Valid() && history == "" && this.capacity == capacity
    {
      this.capacity := capacity;
      buffer, history := "", "";
    }

    method Push(chunk: string)
      requires Valid()
      modifies this
      ensures Valid() && history == old(history) + chunk
      ensures buffer == Tail(old(buffer) + chunk, capacity)
    {
      buffer := buffer + chunk;
      if |buffer| > capacity {
        buffer := buffer[|buffer| - capacity..];
      }
      TailOfTail(history, chunk, capacity);
      history := history + chunk;
    }

    method Snapshot() returns (s: string)
      requires Valid()
      ensures s == Tail(history, capacity)
    {
      return buffer;
    }
  }

  const STDERR_BUFFER_CAPACITY := 4096

  lemma {:induction false} RunOneMore(kind: Kind, c: Client, es: seq<Event>, e: Event)
    ensures Run(kind, c, es + [e]) == Next(kind, Run(kind, c, es), e)
    decreases |es|
  {
    if es == [] {
      assert ([] + [e])[1..] == [];
      assert Run(kind, Next(kind, c, e), []) == Next(kind, c, e);
    } else {
      assert (es + [e])[1..] == es[1..] + [e];
      RunOneMore(kind, Next(kind, c, es[0]), es[1..], e);
    }
  }

  // HttpMcpClient and StdioMcpClient, which differ only in their hooks and in the buffer for stderr
  // (it stays empty in an HTTP client). `history` is everything that has happened to the client.
  class McpClient {
    const kind: Kind
    const stderrBuffer: BoundedTail
    var started: bool
    var closed: bool
    var ready: bool
    var handshaking: bool
    var hooksInstalled: bool
    var unexpectedCloseListener: Option<Listener>
    var lastTransportError: Option<TransportError>
    var pendingUnexpectedClose: Option<Reason>
    var unexpectedCloseFired: bool
    var delivered: seq<Delivery>
    ghost var history: seq<Event>

    ghost function Abstract(): Client
      reads this, stderrBuffer
    {
      Client(Life(started, closed, ready, handshaking, hooksInstalled), unexpectedCloseListener, lastTransportError,
             pendingUnexpectedClose, unexpectedCloseFired, stderrBuffer.buffer, delivered)
    }

    ghost predicate Valid()
      reads this, stderrBuffer
    {
      && Abstract() == Run(kind, NEW, history)
      && stderrBuffer.Valid()
      && (kind.Stdio? ==> stderrBuffer.capacity == kind.capacity)
    }

    // Over its whole life an HTTP client has delivered the first death of its transport and nothing
    // else; a stdio client has delivered every death somebody listened to, and of those before that one.
    ghost predicate DeliversWhatDied()
      reads this
    {
      && (kind.Http? ==> delivered == FirstDeathDelivered(NEW, history) && |delivered| <= 1)
      && (kind.Stdio? ==> |delivered| == StdioDeliveries(kind, NEW, history))
    }

    constructor (kind: Kind)
      ensures Valid() && this.kind == kind && history == [] && fresh(stderrBuffer)
    {
      this.kind := kind;
      stderrBuffer := new BoundedTail(if kind.Stdio? then kind.capacity else 0);
      started, closed, ready, handshaking, hooksInstalled := false, false, false, false, false;
      unexpectedCloseListener, lastTransportError, pendingUnexpectedClose := None, None, None;
      unexpectedCloseFired, delivered, history := false, [], [];
    }

    // Bookkeeping: e has just happened.
    ghost method Happened(e: Event)
      requires Abstract() == Next(kind, Run(kind, NEW, history), e) && stderrBuffer.Valid()
      requires kind.Stdio? ==> stderrBuffer.capacity == kind.capacity
      modifies `history
      ensures Valid() && history == old(history) + [e] && DeliversWhatDied()
    {
      RunOneMore(kind, NEW, history, e);
      history := history + [e];
      if kind.Http? {
        HttpDeathIsDeliveredOnce(history);
      } else {
        StdioCountsDeaths(kind, NEW, history);
      }
    }

    method Connect() returns (start: ConnectStart)
      requires Valid()
      modifies this
      ensures Valid() && history == old(history) + [Event.Connect] && delivered == old(delivered)
      ensures start.Handshaking? <==> handshaking && started && !old(started)
      ensures start.RefusedClosed? <==> closed
    {
      if closed {
        start := RefusedClosed;
      } else if started {
        start := AlreadyStarted;
      } else {
        started := true;
        InstallTransportHooks();
        handshaking := true;
        start := Handshaking;
      }
      Happened(Event.Connect);
    }

    // The rest of connect(), once the SDK handshake has resolved or rejected; the result says
    // whether the promise of connect() resolves.
    method FinishConnect(ok: bool) returns (connected: bool)
      requires Valid() && handshaking
      modifies this
      ensures Valid() && history == old(history) + [HandshakeEnds(ok)] && delivered == old(delivered)
      ensures connected <==> ok && !closed
      ensures connected ==> ready
    {
      handshaking := false;
      if !ok || closed {
        CloseStartedClient();
        connected := false;
      } else {
        ready := true;
        connected := true;
      }
      Happened(HandshakeEnds(ok));
    }

    method Close()
      requires Valid()
      modifies this
      ensures Valid() && closed && history == old(history) + [Event.Close] && delivered == old(delivered)
    {
      if !closed {
        closed := true;
        CloseStartedClient();
      }
      Happened(Event.Close);
    }

    method OnUnexpectedClose(listener: Listener)
      requires Valid()
      modifies this
      ensures Valid() && history == old(history) + [Register(listener)] && DeliversWhatDied()
    {
      unexpectedCloseListener := Some(listener);
      var pending := pendingUnexpectedClose;
      if pending.Some? {
        pendingUnexpectedClose := None;
        delivered := delivered + [Delivery(listener, pending.value)];
      }
      Happened(Register(listener));
    }

    method CloseStartedClient()
      modifies `started
      ensures !started
    {
      if started {
        started := false;
      }
    }

    method InstallTransportHooks()
      modifies `hooksInstalled
      ensures hooksInstalled
    {
      if !hooksInstalled {
        hooksInstalled := true;
      }
    }

    method OnStderr(chunk: string)
      requires Valid() && kind.Stdio?
      modifies this, stderrBuffer
      ensures Valid() && history == old(history) + [Stderr(chunk)] && delivered == old(delivered)
    {
      stderrBuffer.Push(chunk);
      Happened(Stderr(chunk));
    }

    // The close hook.
    method OnClose()
      requires Valid()
      modifies this
      ensures Valid() && history == old(history) + [TransportCloses] && DeliversWhatDied()
    {
      UnusedFieldsStay(kind, NEW, history);
      if hooksInstalled && !closed && ready {
        var stderr := stderrBuffer.Snapshot();
        FireUnexpectedClose(Reason(lastTransportError, if |stderr| > 0 then Some(stderr) else None));
      }
      Happened(TransportCloses);
    }

    // The error hook: over stdio an error is only remembered.
    method OnError(error: TransportError)
      requires Valid()
      modifies this
      ensures Valid() && history == old(history) + [TransportErrors(error)] && DeliversWhatDied()
    {
      UnusedFieldsStay(kind, NEW, history);
      if hooksInstalled {
        lastTransportError := Some(error);
        if kind.Http? && !closed && ready && IsTerminalTransportError(error) {
          FireUnexpectedClose(Reason(Some(error), None));
        }
      }
      Happened(TransportErrors(error));
    }

    // Only the HTTP client has the latch: a second failure of the same transport is noise.
    method FireUnexpectedClose(reason: Reason)
      modifies this
      ensures kind.Http? ==> unexpectedCloseFired
      ensures kind.Stdio? ==> unexpectedCloseFired == old(unexpectedCloseFired)
      ensures Abstract() ==
        if kind.Http? && old(Abstract()).fired then old(Abstract())
        else Report(old(Abstract()).(fired := unexpectedCloseFired), reason)
      ensures history == old(history)
    {
      if kind.Http? {
        if unexpectedCloseFired {
          return;
        }
        unexpectedCloseFired := true;
      }
      if unexpectedCloseListener.Some? {
        delivered := delivered + [Delivery(unexpectedCloseListener.value, reason)];
      } else {
        pendingUnexpectedClose := Some(reason);
      }
    }
  }

  // An HTTP client has no stderr, a stdio client no latch.
  lemma {:induction false} UnusedFieldsStay(kind: Kind, c: Client, es: seq<Event>)
    requires if kind.Http? then c.stderr == "" else !c.fired
    ensures if kind.Http? then Run(kind, c, es).stderr == "" else !Run(kind, c, es).fired
    decreases |es|
  {
    if es != [] {
      UnusedFieldsStay(kind, Next(kind, c, es[0]), es[1..]);
    }
  }
}
