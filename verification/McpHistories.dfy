/**
 * What an MCP client reports, read off its history alone: the states of module McpClients do not occur in
 * these definitions, only the calls and signals that came in, by position.
 */
module McpHistories {
  import opened Options
  import opened McpClients

  // ---- errors ----

  predicate SameIgnoringCase(c: char, d: char) {
    || c == d
    || ('a' <= c <= 'z' && d as int == c as int - 32)
    || ('A' <= c <= 'Z' && d as int == c as int + 32)
  }

  predicate Begins(s: string, phrase: string) {
    |phrase| <= |s| && forall i :: 0 <= i < |phrase| ==> SameIgnoringCase(s[i], phrase[i])
  }

  // The phrase stands in s at this place, in whatever case.
  predicate StandsAt(s: string, phrase: string, cut: nat) {
    cut <= |s| && Begins(s[cut..], phrase)
  }

  lemma {:induction false} StartsWithBegins(s: string, t: string)
    ensures StartsWithIgnoringCase(s, t) <==> Begins(s, t)
    decreases |t|
  {
    if t != [] && s != [] {
      StartsWithBegins(s[1..], t[1..]);
      assert Lower(s[0]) == Lower(t[0]) <==> SameIgnoringCase(s[0], t[0]);
      assert s == [s[0]] + s[1..] && t == [t[0]] + t[1..];
    }
  }

  lemma StandsLater(s: string, t: string, cut: nat)
    requires s != ""
    ensures StandsAt(s, t, cut + 1) <==> StandsAt(s[1..], t, cut)
  {
    assert cut < |s| ==> s[cut + 1..] == s[1..][cut..];
  }

  lemma {:induction false} ContainsStands(s: string, t: string)
    ensures ContainsIgnoringCase(s, t) <==> exists cut :: StandsAt(s, t, cut)
    decreases |s|
  {
    StartsWithBegins(s, t);
    assert StandsAt(s, t, 0) <==> Begins(s, t) by {
      assert s[0..] == s;
    }
    if s != "" {
      ContainsStands(s[1..], t);
      if cut: nat :| StandsAt(s[1..], t, cut) {
        StandsLater(s, t, cut);
      }
      if cut: nat :| StandsAt(s, t, cut) && cut > 0 {
        StandsLater(s, t, cut - 1);
      } else if !StandsAt(s, t, 0) {
        assert forall cut :: !StandsAt(s, t, cut);
      }
    }
  }

  // An error means the end when the server wants a login, or when the reconnects are used up.
  lemma TerminalErrors(error: TransportError)
    ensures IsTerminalTransportError(error) <==>
      error.name == "UnauthorizedError" || exists cut :: StandsAt(error.message, "Maximum reconnection attempts", cut)
  {
    ContainsStands(error.message, "Maximum reconnection attempts");
  }

  // ---- the life of a client ----

  // connect() has begun, on a client that was not closed.
  ghost predicate HasConnected(es: seq<Event>) {
    exists i :: 0 <= i < |es| && es[i] == Connect && Close !in es[..i]
  }

  // A handshake is under way: a connect() has begun that no handshake has ended.
  ghost predicate IsConnecting(es: seq<Event>) {
    exists i :: 0 <= i < |es| && es[i] == Connect && forall k :: i < k < |es| ==> !es[k].HandshakeEnds?
  }

  // A handshake succeeded, and nobody had closed the client by then.
  ghost predicate WentLive(es: seq<Event>) {
    exists j :: 0 <= j < |es| && es[j] == HandshakeEnds(true) && IsConnecting(es[..j]) && Close !in es[..j]
  }

  lemma OneMore(es: seq<Event>, e: Event)
    ensures WentLive(es + [e]) <==> WentLive(es) || (e == HandshakeEnds(true) && IsConnecting(es) && Close !in es)
    ensures HasConnected(es + [e]) <==> HasConnected(es) || (e == Connect && Close !in es)
    ensures IsConnecting(es + [e]) <==> e == Connect || (IsConnecting(es) && !e.HandshakeEnds?)
    ensures Close in es + [e] <==> Close in es || e == Close
  {
    var fs := es + [e];
    assert fs[..|es|] == es && fs[|es|] == e;
    assert forall k :: 0 <= k < |es| ==> fs[k] == es[k] && fs[..k] == es[..k];
  }

  ghost predicate LifeInv(life: Life, es: seq<Event>) {
    && (life.closed <==> Close in es)
    && (life.ready <==> WentLive(es))
    && (life.hooksInstalled <==> HasConnected(es))
    && (life.ready ==> life.hooksInstalled)
    && (life.closed ==> !life.started)
    && (!life.closed && !life.ready ==>
        (life.handshaking <==> IsConnecting(es)) && (life.started <==> life.handshaking))
    && (!life.closed && life.ready ==> life.started && !life.handshaking)
  }

  lemma LifeStep(kind: Kind, c: Client, es: seq<Event>, e: Event)
    requires LifeInv(c.life, es)
    ensures LifeInv(Next(kind, c, e).life, es + [e])
  {
    OneMore(es, e);
  }

  // ---- what is remembered ----

  ghost function LastListener(es: seq<Event>): Option<Listener> {
    if es == [] then None
    else if es[|es| - 1].Register? then Some(es[|es| - 1].listener)
    else LastListener(es[..|es| - 1])
  }

  // The latest error signalled while somebody could hear it.
  ghost function LatestError(es: seq<Event>): Option<TransportError> {
    if es == [] then None
    else
      var rest := es[..|es| - 1];
      if es[|es| - 1].TransportErrors? && HasConnected(rest) then Some(es[|es| - 1].error) else LatestError(rest)
  }

  ghost function AllStderr(es: seq<Event>): string {
    if es == [] then ""
    else AllStderr(es[..|es| - 1]) + if es[|es| - 1].Stderr? then es[|es| - 1].chunk else ""
  }

  ghost predicate MemoryInv(kind: Kind, c: Client, es: seq<Event>) {
    && c.listener == LastListener(es) && c.lastError == LatestError(es)
    && c.stderr == if kind.Stdio? then Tail(AllStderr(es), kind.capacity) else ""
  }

  lemma NextRemembers(kind: Kind, c: Client, e: Event)
    ensures var d := Next(kind, c, e);
      && d.listener == (if e.Register? then Some(e.listener) else c.listener)
      && d.lastError == (if e.TransportErrors? && c.life.hooksInstalled then Some(e.error) else c.lastError)
      && d.stderr == if kind.Stdio? && e.Stderr? then Tail(c.stderr + e.chunk, kind.capacity) else c.stderr
  {
  }

  lemma MemoryStep(kind: Kind, c: Client, es: seq<Event>, e: Event)
    requires LifeInv(c.life, es) && MemoryInv(kind, c, es)
    ensures MemoryInv(kind, Next(kind, c, e), es + [e])
  {
    assert (es + [e])[..|es|] == es;
    NextRemembers(kind, c, e);
    if kind.Stdio? && e.Stderr? {
      TailOfTail(AllStderr(es), e.chunk, kind.capacity);
    } else {
      assert !e.Stderr? ==> AllStderr(es) + "" == AllStderr(es);
    }
  }

  lemma {:induction false} HistoryDecides(kind: Kind, es: seq<Event>)
    ensures LifeInv(Run(kind, NEW, es).life, es) && MemoryInv(kind, Run(kind, NEW, es), es)
    decreases |es|
  {
    if es != [] {
      var rest, e := es[..|es| - 1], es[|es| - 1];
      assert es == rest + [e];
      HistoryDecides(kind, rest);
      RunOneMore(kind, NEW, rest, e);
      LifeStep(kind, Run(kind, NEW, rest), rest, e);
      MemoryStep(kind, Run(kind, NEW, rest), rest, e);
    }
  }

  // ---- deaths ----

  // After this history a live client that nobody has closed loses its transport.
  ghost predicate Dies(kind: Kind, es: seq<Event>, e: Event) {
    && WentLive(es) && Close !in es
    && (e == TransportCloses ||
        (kind.Http? && e.TransportErrors? &&
         (e.error.name == "UnauthorizedError" ||
          exists cut :: StandsAt(e.error.message, "Maximum reconnection attempts", cut))))
  }

  // What is then reported: the error that killed the transport or else the latest one, and what the child
  // process last wrote.
  ghost function WhyItDied(kind: Kind, es: seq<Event>, e: Event): Reason {
    var written := if kind.Stdio? then Tail(AllStderr(es), kind.capacity) else "";
    Reason(if e.TransportErrors? then Some(e.error) else LatestError(es),
           if written == "" then None else Some(written))
  }

  lemma DeathsAreWhatTheySay(kind: Kind, es: seq<Event>, e: Event)
    ensures IsDeath(kind, Run(kind, NEW, es), e) <==> Dies(kind, es, e)
    ensures ReasonFor(Run(kind, NEW, es), e) == WhyItDied(kind, es, e)
  {
    HistoryDecides(kind, es);
    if e.TransportErrors? {
      TerminalErrors(e.error);
    }
  }

  lemma {:induction false} DeathsOneMore(kind: Kind, c: Client, es: seq<Event>, e: Event)
    ensures Deaths(kind, c, es + [e]) == Deaths(kind, c, es) + if IsDeath(kind, Run(kind, c, es), e) then 1 else 0
    decreases |es|
  {
    if es == [] {
      assert ([] + [e])[1..] == [];
    } else {
      assert (es + [e])[1..] == es[1..] + [e];
      DeathsOneMore(kind, Next(kind, c, es[0]), es[1..], e);
    }
  }

  // Every death counts once.
  lemma EachDeathCountsOnce(kind: Kind, es: seq<Event>, e: Event)
    ensures Deaths(kind, NEW, es + [e]) == Deaths(kind, NEW, es) + if Dies(kind, es, e) then 1 else 0
  {
    DeathsOneMore(kind, NEW, es, e);
    DeathsAreWhatTheySay(kind, es, e);
  }

  // ---- what is delivered: HTTP ----

  lemma {:induction false} NothingBeforeDeath(es: seq<Event>, n: nat)
    requires n <= |es| && forall i :: 0 <= i < n ==> !Dies(Http, es[..i], es[i])
    ensures FirstDeathDelivered(NEW, es) == FirstDeathDelivered(Run(Http, NEW, es[..n]), es[n..])
    decreases n
  {
    if n == 0 {
      assert es[0..] == es && es[..0] == [];
    } else {
      NothingBeforeDeath(es, n - 1);
      DeathsAreWhatTheySay(Http, es[..n - 1], es[n - 1]);
      RunOneMore(Http, NEW, es[..n - 1], es[n - 1]);
      assert es[..n] == es[..n - 1] + [es[n - 1]] && es[n - 1..][1..] == es[n..];
    }
  }

  // The first death, and it alone, reaches whoever listens at that moment, or else the next to register.
  lemma HttpReportsTheFirstDeath(es: seq<Event>, k: nat)
    requires k < |es| && Dies(Http, es[..k], es[k]) && forall i :: 0 <= i < k ==> !Dies(Http, es[..i], es[i])
    ensures var to := if LastListener(es[..k]).Some? then LastListener(es[..k]) else FirstListener(es[k + 1..]);
      Run(Http, NEW, es).delivered ==
        if to.Some? then [Delivery(to.value, WhyItDied(Http, es[..k], es[k]))] else []
  {
    HttpDeathIsDeliveredOnce(es);
    NothingBeforeDeath(es, k);
    DeathsAreWhatTheySay(Http, es[..k], es[k]);
    HistoryDecides(Http, es[..k]);
    assert es[k..][0] == es[k] && es[k..][1..] == es[k + 1..];
  }

  lemma HttpIsSilentWithoutDeath(es: seq<Event>)
    requires forall i :: 0 <= i < |es| ==> !Dies(Http, es[..i], es[i])
    ensures Run(Http, NEW, es).delivered == []
  {
    HttpDeathIsDeliveredOnce(es);
    NothingBeforeDeath(es, |es|);
    assert es[|es|..] == [];
  }

  // ---- what is delivered: stdio ----

  ghost function LastReason(kind: Kind, es: seq<Event>): Option<Reason> {
    if es == [] then None
    else
      var rest, e := es[..|es| - 1], es[|es| - 1];
      if Dies(kind, rest, e) then Some(WhyItDied(kind, rest, e)) else LastReason(kind, rest)
  }

  // One step of a stdio client: a death is told to the listener, or kept in place of what was kept before.
  lemma StdioStep(kind: Kind, c: Client, e: Event)
    requires kind.Stdio?
    ensures var d, dies := Next(kind, c, e), IsDeath(kind, c, e);
      && d.pending == (if e.Register? then None
                       else if dies && c.listener.None? then Some(ReasonFor(c, e)) else c.pending)
      && d.delivered == c.delivered + (
        if dies && c.listener.Some? then [Delivery(c.listener.value, ReasonFor(c, e))]
        else if e.Register? && c.pending.Some? then [Delivery(e.listener, c.pending.value)]
        else [])
  {
  }

  lemma {:induction false} PendingIsTheLastDeath(kind: Kind, es: seq<Event>)
    requires kind.Stdio?
    ensures Run(kind, NEW, es).pending == if LastListener(es).Some? then None else LastReason(kind, es)
    decreases |es|
  {
    if es != [] {
      var rest, e := es[..|es| - 1], es[|es| - 1];
      PendingIsTheLastDeath(kind, rest);
      RunOneMore(kind, NEW, rest, e);
      assert rest + [e] == es;
      DeathsAreWhatTheySay(kind, rest, e);
      HistoryDecides(kind, rest);
      StdioStep(kind, Run(kind, NEW, rest), e);
    }
  }

  // Each death reaches whoever listens at that moment. Of those nobody heard, the first to register is told
  // the last.
  lemma StdioReportsEachDeath(kind: Kind, es: seq<Event>, e: Event)
    requires kind.Stdio?
    ensures Run(kind, NEW, es + [e]).delivered == Run(kind, NEW, es).delivered +
      if Dies(kind, es, e) && LastListener(es).Some? then
        [Delivery(LastListener(es).value, WhyItDied(kind, es, e))]
      else if e.Register? && LastListener(es).None? && LastReason(kind, es).Some? then
        [Delivery(e.listener, LastReason(kind, es).value)]
      else
        []
  {
    RunOneMore(kind, NEW, es, e);
    DeathsAreWhatTheySay(kind, es, e);
    PendingIsTheLastDeath(kind, es);
    HistoryDecides(kind, es);
    StdioStep(kind, Run(kind, NEW, es), e);
  }

  // What a stdio client keeps of stderr is the last 4096 characters, whatever the chunks.
  lemma StderrIsTheLast4096(es: seq<Event>)
    ensures var all, kept := AllStderr(es), Run(Stdio(STDERR_BUFFER_CAPACITY), NEW, es).stderr;
      |kept| == (if |all| < 4096 then |all| else 4096) && kept == all[|all| - |kept|..]
  {
    HistoryDecides(Stdio(STDERR_BUFFER_CAPACITY), es);
  }
}
