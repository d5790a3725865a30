/**
 * `doEnsureFresh` of packages/oauth/src/oauth-manager.ts, run by any number of processes that
 * share one stored token and one lock. Each event is one atomic piece of the method: a storage
 * access, a lock operation, or an answer of the token server. A run is any sequence of events
 * in which each is enabled, so every interleaving is a run.
 */
module RefreshProtocol {
  import opened Options
  import opened Sequences
  import opened TokenStates

  type Process = nat

  datatype Config = Config(refreshThreshold: real -> real, locking: bool)

  datatype Outcome =
    | Returned(accessToken: string)
    | NoToken
    | Unauthorized
    | LockUnavailable
    | NoRefreshToken
    | RefreshFailed
    | ReadFailed
    | SaveFailed

  // History: what was sent and what storage held at that moment, which stored version each refresh
  // the server granted has spent (`lost`: the new token never reached storage), and what each
  // tombstone overwrote.
  datatype Request = Request(
    sender: Process, force: bool, snapshot: TokenInfo, readAt: real, sent: TokenInfo, stored: Option<TokenInfo>)
  datatype Spend = Spend(version: nat, sent: TokenInfo, lost: bool)
  datatype Burial = Burial(rejected: TokenInfo, overwritten: Option<TokenInfo>)

  // One call of the refresh function posts the same token at most so often.
  const MAX_POSTS := 3

  // Where one process is inside its call.
  datatype Pc =
    | Idle(last: Option<Outcome>)
    | AwaitingLock(force: bool, snapshot: TokenInfo)
    | Locked(force: bool, snapshot: TokenInfo)
    | Ready(force: bool, snapshot: TokenInfo, active: TokenInfo, readAt: real)
    | InFlight(active: TokenInfo, version: nat, request: Request, posts: nat)
    | Saving(active: TokenInfo, version: nat, refreshed: TokenInfo)
    | Rejected(active: TokenInfo)
    | Tombstoning(active: TokenInfo)
    | Releasing(outcome: Outcome)

  datatype Log = Log(
    requests: seq<Request>, spends: seq<Spend>, burials: seq<Burial>, recoveries: nat, issued: set<string>)

  datatype State = State(
    storage: Option<TokenInfo>,
    version: nat,
    lock: Option<Process>,
    pcs: map<Process, Pc>,
    log: Log)

  datatype Event =
    | Begin(p: Process, force: bool, now: real)
    | BeginFails(p: Process)
    | Acquire(p: Process)
    | AcquireFails(p: Process)
    | ReRead(p: Process, now: real)
    | ReReadFails(p: Process)
    | Send(p: Process)
    | Retry(p: Process)
    | RetryAfterGrant(p: Process, token: TokenInfo)
    | Grant(p: Process, token: TokenInfo)
    | GrantLost(p: Process, token: TokenInfo)
    | Reject(p: Process)
    | Fail(p: Process)
    | Save(p: Process)
    | SaveFails(p: Process)
    | Recover(p: Process)
    | RecoverFails(p: Process)
    | Bury(p: Process)
    | BuryFails(p: Process)
    | Release(p: Process)

  function PcOf(s: State, p: Process): Pc {
    if p in s.pcs then s.pcs[p] else Idle(None)
  }

  function Goto(s: State, p: Process, pc: Pc): State {
    s.(pcs := s.pcs[p := pc])
  }

  predicate ShouldRefreshToken(cfg: Config, token: TokenInfo, force: bool, now: real) {
    force || (token.expiresAt != 0.0 && token.expiresAt - now < cfg.refreshThreshold(token.expiresIn))
  }

  predicate ChangedWhileWaiting(after: TokenInfo, token: TokenInfo) {
    || after.refreshToken != token.refreshToken
    || after.accessToken != token.accessToken
    || after.expiresAt != token.expiresAt
    || after.expiresIn != token.expiresIn
  }

  // A token response without an access or refresh token is refused before it reaches the manager.
  predicate WellFormedGrant(token: TokenInfo) {
    token.accessToken != "" && token.refreshToken != ""
  }

  // ---- the pieces of doEnsureFresh ----

  function InitialRead(cfg: Config, s: State, p: Process, force: bool, now: real): State {
    match ClassifyToken(s.storage)
    case Missing => Goto(s, p, Idle(Some(NoToken)))
    case Revoked(_, _) => Goto(s, p, Idle(Some(Unauthorized)))
    case Valid(token) =>
      if ShouldRefreshToken(cfg, token, force, now) then Goto(s, p, AwaitingLock(force, token))
      else Goto(s, p, Idle(Some(Returned(token.accessToken))))
  }

  function Activate(s: State, p: Process, force: bool, snapshot: TokenInfo, active: TokenInfo, now: real): State {
    if active.refreshToken == "" then Goto(s, p, Releasing(NoRefreshToken))
    else Goto(s, p, Ready(force, snapshot, active, now))
  }

  function PostLockRead(cfg: Config, s: State, p: Process, force: bool, snapshot: TokenInfo, now: real): State {
    match ClassifyToken(s.storage)
    case Revoked(_, _) => Goto(s, p, Releasing(Unauthorized))
    case Missing => Activate(s, p, force, snapshot, snapshot, now)
    case Valid(after) =>
      if !ShouldRefreshToken(cfg, after, force, now) then Goto(s, p, Releasing(Returned(after.accessToken)))
      else if force && ChangedWhileWaiting(after, snapshot) then Goto(s, p, Releasing(Returned(after.accessToken)))
      else Activate(s, p, force, snapshot, after, now)
  }

  function SendRequest(s: State, p: Process, pc: Pc): State
    requires pc.Ready?
  {
    var request := Request(p, pc.force, pc.snapshot, pc.readAt, pc.active, s.storage);
    Goto(s, p, InFlight(pc.active, s.version, request, 1)).(
      log := s.log.(requests := s.log.requests + [request]))
  }

  // After a transport failure or a retryable status the same token is posted again; the server may have
  // granted the post that failed.
  function RetryRequest(s: State, p: Process, pc: Pc, granted: Option<TokenInfo>): State
    requires pc.InFlight?
  {
    Goto(s, p, pc.(posts := pc.posts + 1)).(
      log := s.log.(
        requests := s.log.requests + [pc.request.(sender := p, stored := s.storage)],
        issued := if granted.Some? then s.log.issued + {granted.value.refreshToken} else s.log.issued,
        spends := if granted.Some? then s.log.spends + [Spend(pc.version, pc.active, true)] else s.log.spends))
  }

  // The server grants the refresh: the token it was sent is spent, and a new one is issued.
  function GrantRefresh(s: State, p: Process, pc: Pc, token: TokenInfo, lost: bool): State
    requires pc.InFlight?
  {
    Goto(s, p, if lost then Releasing(RefreshFailed) else Saving(pc.active, pc.version, token)).(
      log := s.log.(
        issued := s.log.issued + {token.refreshToken},
        spends := s.log.spends + [Spend(pc.version, pc.active, lost)]))
  }

  function SaveRefreshed(s: State, p: Process, pc: Pc): State
    requires pc.Saving?
  {
    Goto(s, p, Releasing(Returned(pc.refreshed.accessToken))).(
      storage := Some(pc.refreshed),
      version := s.version + 1)
  }

  function LoseRefreshed(s: State, p: Process): State {
    var n := |s.log.spends|;
    Goto(s, p, Releasing(SaveFailed)).(
      log := s.log.(spends := if n == 0 then [] else s.log.spends[n - 1 := s.log.spends[n - 1].(lost := true)]))
  }

  // After a rejection and a pause the token is read once more: a different valid refresh token
  // would mean that a peer rotated it.
  function RecoveryRead(s: State, p: Process, active: TokenInfo): State {
    match ClassifyToken(s.storage)
    case Valid(token) =>
      if token.refreshToken != active.refreshToken
      then Goto(s, p, Releasing(Returned(token.accessToken))).(
        log := s.log.(recoveries := s.log.recoveries + 1))
      else Goto(s, p, Tombstoning(active))
    case _ => Goto(s, p, Tombstoning(active))
  }

  function SaveTombstone(s: State, p: Process, active: TokenInfo): State {
    Goto(s, p, Releasing(Unauthorized)).(
      storage := Some(RevokedTombstone(active)),
      version := s.version + 1,
      log := s.log.(burials := s.log.burials + [Burial(active, s.storage)]))
  }

  // One event; None when it is not enabled. With locking off, acquiring always succeeds at once.
  function Next(cfg: Config, s: State, e: Event): Option<State> {
    var pc := PcOf(s, e.p);
    match e
    case Begin(p, force, now) => if pc.Idle? then Some(InitialRead(cfg, s, p, force, now)) else None
    case BeginFails(p) => if pc.Idle? then Some(Goto(s, p, Idle(Some(ReadFailed)))) else None
    case Acquire(p) =>
      if !pc.AwaitingLock? || (cfg.locking && s.lock.Some?) then None
      else Some(Goto(s, p, Locked(pc.force, pc.snapshot)).(lock := if cfg.locking then Some(p) else s.lock))
    case AcquireFails(p) => if pc.AwaitingLock? then Some(Goto(s, p, Idle(Some(LockUnavailable)))) else None
    case ReRead(p, now) => if pc.Locked? then Some(PostLockRead(cfg, s, p, pc.force, pc.snapshot, now)) else None
    case ReReadFails(p) => if pc.Locked? then Some(Goto(s, p, Releasing(ReadFailed))) else None
    case Send(p) => if pc.Ready? then Some(SendRequest(s, p, pc)) else None
    case Retry(p) => if pc.InFlight? && pc.posts < MAX_POSTS then Some(RetryRequest(s, p, pc, None)) else None
    case RetryAfterGrant(p, token) =>
      if pc.InFlight? && pc.posts < MAX_POSTS then Some(RetryRequest(s, p, pc, Some(token))) else None
    case Grant(p, token) =>
      if pc.InFlight? && WellFormedGrant(token) then Some(GrantRefresh(s, p, pc, token, false)) else None
    case GrantLost(p, token) => if pc.InFlight? then Some(GrantRefresh(s, p, pc, token, true)) else None
    case Reject(p) => if pc.InFlight? then Some(Goto(s, p, Rejected(pc.active))) else None
    case Fail(p) => if pc.InFlight? then Some(Goto(s, p, Releasing(RefreshFailed))) else None
    case Save(p) => if pc.Saving? then Some(SaveRefreshed(s, p, pc)) else None
    case SaveFails(p) => if pc.Saving? then Some(LoseRefreshed(s, p)) else None
    case Recover(p) => if pc.Rejected? then Some(RecoveryRead(s, p, pc.active)) else None
    case RecoverFails(p) => if pc.Rejected? then Some(Goto(s, p, Releasing(ReadFailed))) else None
    case Bury(p) => if pc.Tombstoning? then Some(SaveTombstone(s, p, pc.active)) else None
    case BuryFails(p) => if pc.Tombstoning? then Some(Goto(s, p, Releasing(SaveFailed))) else None
    case Release(p) =>
      if pc.Releasing?
      then Some(Goto(s, p, Idle(Some(pc.outcome))).(lock := if cfg.locking then None else s.lock))
      else None
  }

  function Run(cfg: Config, s: State, es: seq<Event>): Option<State>
    decreases |es|
  {
    if es == [] then Some(s)
    else match Next(cfg, s, es[0])
      case None => None
      case Some(t) => Run(cfg, t, es[1..])
  }

  ghost predicate Initial(s: State) {
    && s.lock == None && s.pcs == map[] && s.version == 0
    && s.log.requests == [] && s.log.spends == [] && s.log.burials == [] && s.log.recoveries == 0
    && s.log.issued == (if s.storage.Some? then {s.storage.value.refreshToken} else {})
  }

  // ---- the invariant ----

  predicate InCritical(pc: Pc) {
    !pc.Idle? && !pc.AwaitingLock?
  }

  // What a process between its post-lock read and its own write relies on: storage still holds the
  // very token it is working with.
  predicate Holds(s: State, active: TokenInfo) {
    s.storage == Some(active) && active.accessToken != "" && active.refreshToken != ""
  }

  predicate Justified(cfg: Config, r: Request) {
    && r.stored == Some(r.sent)
    && WellFormedGrant(r.sent)
    && ShouldRefreshToken(cfg, r.sent, r.force, r.readAt)
    && (r.force ==> !ChangedWhileWaiting(r.sent, r.snapshot))
  }

  ghost predicate PcInv(cfg: Config, s: State, pc: Pc) {
    match pc
    case Idle(_) => true
    case AwaitingLock(_, _) => s.storage.Some?
    case Locked(_, _) => s.storage.Some?
    case Ready(force, snapshot, active, readAt) =>
      && Holds(s, active)
      && ShouldRefreshToken(cfg, active, force, readAt)
      && (force ==> !ChangedWhileWaiting(active, snapshot))
    case InFlight(active, version, request, posts) =>
      && Holds(s, active) && version == s.version
      && request.sent == active && Justified(cfg, request)
    case Saving(active, version, refreshed) =>
      Holds(s, active) && version == s.version && WellFormedGrant(refreshed)
    case Rejected(active) => Holds(s, active)
    case Tombstoning(active) => Holds(s, active)
    case Releasing(outcome) =>
      outcome.Returned? ==> IsValid(s.storage) && s.storage.value.accessToken == outcome.accessToken
  }

  ghost predicate HistoryInv(cfg: Config, s: State) {
    && (forall k :: 0 <= k < |s.log.requests| ==>
        Justified(cfg, s.log.requests[k]))
    && (forall k :: 0 <= k < |s.log.burials| ==> s.log.burials[k].overwritten == Some(s.log.burials[k].rejected))
    && s.log.recoveries == 0
  }

  // The lock is held exactly by the one process inside the critical section.
  ghost predicate LockInv(s: State) {
    && (forall p: Process :: InCritical(PcOf(s, p)) ==> s.lock == Some(p))
    && (s.lock.Some? ==> InCritical(PcOf(s, s.lock.value)))
  }

  ghost predicate Inv(cfg: Config, s: State) {
    && LockInv(s)
    && (forall p: Process :: PcInv(cfg, s, PcOf(s, p)))
    && HistoryInv(cfg, s)
  }

  // The three ways a step may touch the lock.
  predicate LockMove(s: State, t: State, p: Process, pc: Pc) {
    || (t.lock == s.lock && InCritical(pc) == InCritical(PcOf(s, p)))
    || (s.lock == None && t.lock == Some(p) && InCritical(pc))
    || (InCritical(PcOf(s, p)) && t.lock == None && !InCritical(pc))
  }

  lemma MoveKeepsLockInv(s: State, t: State, p: Process, pc: Pc)
    requires LockInv(s) && t.pcs == s.pcs[p := pc] && LockMove(s, t, p, pc)
    ensures LockInv(t)
  {
    forall q: Process ensures InCritical(PcOf(t, q)) ==> t.lock == Some(q) {
      assert q != p ==> PcOf(t, q) == PcOf(s, q);
    }
  }

  // Other processes are unaffected: storage only changes under the lock, and then everyone else is
  // outside the critical section, where no more than "there is a token" is relied on.
  lemma MoveKeepsPcInv(cfg: Config, s: State, t: State, p: Process, pc: Pc)
    requires Inv(cfg, s) && t.pcs == s.pcs[p := pc] && PcInv(cfg, t, pc)
    requires (t.storage == s.storage && t.version == s.version) || (InCritical(PcOf(s, p)) && t.storage.Some?)
    ensures forall q: Process :: PcInv(cfg, t, PcOf(t, q))
  {
    forall q: Process ensures PcInv(cfg, t, PcOf(t, q)) {
      assert PcInv(cfg, s, PcOf(s, q));
      if q != p {
        assert PcOf(t, q) == PcOf(s, q);
        assert InCritical(PcOf(s, q)) ==> s.lock == Some(q);
        assert InCritical(PcOf(s, p)) ==> s.lock == Some(p);
      }
    }
  }

  // A step moves one process, and touches storage only from inside the critical section.
  lemma NextMovesOne(cfg: Config, s: State, e: Event)
    requires cfg.locking && Next(cfg, s, e).Some?
    ensures var t := Next(cfg, s, e).value;
      && t.pcs == s.pcs[e.p := PcOf(t, e.p)]
      && LockMove(s, t, e.p, PcOf(t, e.p))
      && ((t.storage == s.storage && t.version == s.version) || (InCritical(PcOf(s, e.p)) && t.storage.Some?))
  {
  }

  lemma MoverKeepsPcInv(cfg: Config, s: State, e: Event)
    requires PcInv(cfg, s, PcOf(s, e.p)) && Next(cfg, s, e).Some?
    ensures PcInv(cfg, Next(cfg, s, e).value, PcOf(Next(cfg, s, e).value, e.p))
  {
  }

  lemma NextKeepsInv(cfg: Config, s: State, e: Event)
    requires cfg.locking && Inv(cfg, s) && Next(cfg, s, e).Some?
    ensures Inv(cfg, Next(cfg, s, e).value)
  {
    var t := Next(cfg, s, e).value;
    var pc := PcOf(t, e.p);
    assert PcInv(cfg, s, PcOf(s, e.p));
    assert InCritical(PcOf(s, e.p)) ==> s.lock == Some(e.p);
    NextMovesOne(cfg, s, e);
    MoverKeepsPcInv(cfg, s, e);
    MoveKeepsLockInv(s, t, e.p, pc);
    MoveKeepsPcInv(cfg, s, t, e.p, pc);
    NextKeepsHistory(cfg, s, e);
  }

  lemma NextKeepsHistory(cfg: Config, s: State, e: Event)
    requires HistoryInv(cfg, s) && PcInv(cfg, s, PcOf(s, e.p)) && Next(cfg, s, e).Some?
    ensures HistoryInv(cfg, Next(cfg, s, e).value)
  {
  }

  lemma {:induction false} RunKeepsInv(cfg: Config, s: State, es: seq<Event>)
    requires cfg.locking && Inv(cfg, s) && Run(cfg, s, es).Some?
    ensures Inv(cfg, Run(cfg, s, es).value)
    decreases |es|
  {
    if es != [] {
      NextKeepsInv(cfg, s, es[0]);
      RunKeepsInv(cfg, Next(cfg, s, es[0]).value, es[1..]);
    }
  }

  // A state some run of some processes leads to.
  ghost predicate Reachable(cfg: Config, s: State) {
    exists start, es :: Initial(start) && Run(cfg, start, es) == Some(s)
  }

  lemma ReachableInv(cfg: Config, s: State)
    requires cfg.locking && Reachable(cfg, s)
    ensures Inv(cfg, s)
  {
    var start, es :| Initial(start) && Run(cfg, start, es) == Some(s);
    RunKeepsInv(cfg, start, es);
  }

  // ---- what every run guarantees ----

  // A refresh request is outstanding from the send until its answer has been stored or abandoned.
  predicate Refreshing(pc: Pc) {
    pc.InFlight? || pc.Saving? || pc.Rejected? || pc.Tombstoning?
  }

  // Refreshes never overlap, and while one is outstanding storage holds exactly the token it spends.
  lemma RefreshesNeverOverlap(cfg: Config, s: State, p: Process, q: Process)
    requires cfg.locking && Reachable(cfg, s)
    requires Refreshing(PcOf(s, p)) && Refreshing(PcOf(s, q))
    ensures p == q
    ensures s.storage == Some(PcOf(s, p).active)
  {
    ReachableInv(cfg, s);
    assert PcInv(cfg, s, PcOf(s, p));
    assert InCritical(PcOf(s, p)) && InCritical(PcOf(s, q));
  }

  // Every request carries the token then in storage. A forced caller only sends when nothing it
  // compares changed since its pre-lock snapshot; an unforced one only when the re-read token was due.
  lemma RequestsCarryTheStoredToken(cfg: Config, s: State, k: nat)
    requires cfg.locking && Reachable(cfg, s) && k < |s.log.requests|
    ensures var r := s.log.requests[k];
      && r.stored == Some(r.sent) && IsValid(r.stored) && r.sent.refreshToken != ""
      && (if r.force then !ChangedWhileWaiting(r.sent, r.snapshot)
          else ShouldRefreshToken(cfg, r.sent, false, r.readAt))
  {
    ReachableInv(cfg, s);
    assert Justified(cfg, s.log.requests[k]);
  }

  // A tombstone only ever replaces the very token the server rejected, so no peer's rotation is
  // clobbered, and the branch that looks for such a rotation is never taken.
  lemma TombstonesNeverClobber(cfg: Config, s: State)
    requires cfg.locking && Reachable(cfg, s)
    ensures forall b :: b in s.log.burials ==> b.overwritten == Some(b.rejected)
    ensures s.log.recoveries == 0
  {
    ReachableInv(cfg, s);
  }

  // What a call returns from inside the critical section is the access token storage holds.
  lemma ReturnedTokenIsStored(cfg: Config, s: State, p: Process)
    requires cfg.locking && Reachable(cfg, s)
    requires PcOf(s, p).Releasing? && PcOf(s, p).outcome.Returned?
    ensures IsValid(s.storage) && s.storage.value.accessToken == PcOf(s, p).outcome.accessToken
  {
    ReachableInv(cfg, s);
    assert PcInv(cfg, s, PcOf(s, p));
  }

  // ---- what each read decides ----

  // A call that begins answers at once when nothing is stored, when the stored token was rejected before,
  // and, unless it forces, while the token is good for longer than the threshold. Otherwise it waits for
  // the lock.
  lemma BeginDecides(cfg: Config, s: State, p: Process, force: bool, now: real)
    requires PcOf(s, p).Idle?
    ensures var t := Next(cfg, s, Begin(p, force, now));
      && t.Some? && t.value == s.(pcs := s.pcs[p := PcOf(t.value, p)])
      && match s.storage
         case None => PcOf(t.value, p) == Idle(Some(NoToken))
         case Some(token) =>
           if token.accessToken == "" then PcOf(t.value, p) == Idle(Some(Unauthorized))
           else if force || (token.expiresAt != 0.0 && token.expiresAt - now < cfg.refreshThreshold(token.expiresIn))
           then PcOf(t.value, p) == AwaitingLock(force, token)
           else PcOf(t.value, p) == Idle(Some(Returned(token.accessToken)))
  {
  }

  // The read under the lock decides anew: a token that is no longer due, and for a forced call one that
  // differs from the snapshot in any of four fields, is returned; any other is sent, if it can be.
  lemma ReReadDecides(cfg: Config, s: State, p: Process, now: real)
    requires PcOf(s, p).Locked?
    ensures var t := Next(cfg, s, ReRead(p, now));
      var before := PcOf(s, p);
      var active := if s.storage.Some? then s.storage.value else before.snapshot;
      && t.Some? && t.value == s.(pcs := s.pcs[p := PcOf(t.value, p)])
      && if s.storage.Some? && active.accessToken == "" then PcOf(t.value, p) == Releasing(Unauthorized)
         else if s.storage.Some? &&
                 (if before.force then
                    || active.refreshToken != before.snapshot.refreshToken
                    || active.accessToken != before.snapshot.accessToken
                    || active.expiresAt != before.snapshot.expiresAt
                    || active.expiresIn != before.snapshot.expiresIn
                  else active.expiresAt == 0.0 || active.expiresAt - now >= cfg.refreshThreshold(active.expiresIn))
         then PcOf(t.value, p) == Releasing(Returned(active.accessToken))
         else if active.refreshToken == "" then PcOf(t.value, p) == Releasing(NoRefreshToken)
         else PcOf(t.value, p) == Ready(before.force, before.snapshot, active, now)
  {
  }

  // After a rejection, a stored token with another refresh token is returned, and any other is buried
  // under a tombstone: no access or refresh token, the same scope and type.
  lemma RejectionDecides(cfg: Config, s: State, p: Process)
    requires PcOf(s, p).Rejected?
    ensures var t := Next(cfg, s, Recover(p));
      var active := PcOf(s, p).active;
      && t.Some? && t.value.storage == s.storage
      && if s.storage.Some? && s.storage.value.accessToken != "" &&
            s.storage.value.refreshToken != active.refreshToken
         then PcOf(t.value, p) == Releasing(Returned(s.storage.value.accessToken))
         else
           && PcOf(t.value, p) == Tombstoning(active)
           && var u := Next(cfg, t.value, Bury(p));
              && u.Some? && PcOf(u.value, p) == Releasing(Unauthorized)
              && u.value.storage == Some(TokenInfo("", "", 0.0, active.scope, active.tokenType, 0.0))
  {
  }

  // A token comes out of a call only in these ways: a read found it not due, a forced read found it
  // changed, a refresh was granted and stored, or, after a rejection, storage held another one.
  lemma TokensReturnedAreStored(cfg: Config, s: State, e: Event, accessToken: string)
    requires Inv(cfg, s)
    requires Next(cfg, s, e).Some? && !Answered(PcOf(s, e.p), Returned(accessToken))
    requires Answered(PcOf(Next(cfg, s, e).value, e.p), Returned(accessToken))
    ensures var t := Next(cfg, s, e).value;
      && t.storage.Some? && t.storage.value.accessToken == accessToken != ""
      && (e.Save? || t.storage == s.storage)
      && (e.Begin? || e.ReRead? || e.Save? || e.Recover?)
      && (e.Begin? ==> !e.force)
      && (e.Begin? || (e.ReRead? && !PcOf(s, e.p).force) ==>
          || t.storage.value.expiresAt == 0.0
          || t.storage.value.expiresAt - e.now >= cfg.refreshThreshold(t.storage.value.expiresIn))
      && (e.ReRead? && PcOf(s, e.p).force ==> t.storage.value != PcOf(s, e.p).snapshot)
      && (e.Save? ==> t.storage == Some(PcOf(s, e.p).refreshed))
      && (e.Recover? ==> t.storage.value.refreshToken != PcOf(s, e.p).active.refreshToken)
  {
    assert PcInv(cfg, s, PcOf(s, e.p));
  }

  // ---- a call that finds the token already fresh ----

  predicate BeginsAt(e: Event, p: Process) {
    (e.Begin? || e.BeginFails?) && e.p == p
  }

  predicate Answered(pc: Pc, outcome: Outcome) {
    pc == Releasing(outcome) || pc == Idle(Some(outcome))
  }

  predicate SentNothing(s: State, t: State, p: Process) {
    && s.log.requests <= t.log.requests
    && forall k :: |s.log.requests| <= k < |t.log.requests| ==> t.log.requests[k].sender != p
  }

  lemma OthersStayPut(cfg: Config, s: State, e: Event, p: Process)
    requires Next(cfg, s, e).Some? && e.p != p
    ensures PcOf(Next(cfg, s, e).value, p) == PcOf(s, p)
  {
  }

  predicate AddsOneOf(before: seq<Request>, after: seq<Request>, p: Process) {
    after == before || (after != [] && after == before + [after[|after| - 1]] && after[|after| - 1].sender == p)
  }

  // A step adds at most one request, sent by whoever takes it.
  lemma MoverSends(cfg: Config, s: State, e: Event)
    requires Next(cfg, s, e).Some?
    ensures AddsOneOf(s.log.requests, Next(cfg, s, e).value.log.requests, e.p)
  {
  }

  lemma OthersAddNone(before: seq<Request>, after: seq<Request>, q: Process, p: Process)
    requires AddsOneOf(before, after, q) && q != p
    ensures before <= after && forall k :: |before| <= k < |after| ==> after[k].sender != p
  {
  }

  lemma AnswerStandsStep(cfg: Config, s: State, e: Event, p: Process, outcome: Outcome)
    requires Answered(PcOf(s, p), outcome) && Next(cfg, s, e).Some? && !BeginsAt(e, p)
    ensures Answered(PcOf(Next(cfg, s, e).value, p), outcome) && SentNothing(s, Next(cfg, s, e).value, p)
  {
    if e.p == p {
      assert e.Release?;
    } else {
      OthersStayPut(cfg, s, e, p);
      MoverSends(cfg, s, e);
      OthersAddNone(s.log.requests, Next(cfg, s, e).value.log.requests, e.p, p);
    }
  }

  lemma {:induction false} AnswerStands(cfg: Config, s: State, es: seq<Event>, p: Process, outcome: Outcome)
    requires Answered(PcOf(s, p), outcome) && Run(cfg, s, es).Some?
    requires forall e :: e in es ==> !BeginsAt(e, p)
    ensures Answered(PcOf(Run(cfg, s, es).value, p), outcome)
    ensures SentNothing(s, Run(cfg, s, es).value, p)
    decreases |es|
  {
    if es != [] {
      assert es[0] in es;
      AnswerStandsStep(cfg, s, es[0], p, outcome);
      AnswerStands(cfg, Next(cfg, s, es[0]).value, es[1..], p, outcome);
    }
  }

  // A forced caller whose snapshot was rotated while it waited, and an unforced one whose re-read
  // token is not due, answers with the stored access token and sends nothing before its next call.
  lemma FreshTokenNeedsNoRequest(cfg: Config, s: State, p: Process, now: real, es: seq<Event>)
    requires PcOf(s, p).Locked? && IsValid(s.storage)
    requires if PcOf(s, p).force then ChangedWhileWaiting(s.storage.value, PcOf(s, p).snapshot)
             else !ShouldRefreshToken(cfg, s.storage.value, false, now)
    requires forall e :: e in es ==> !BeginsAt(e, p)
    requires Run(cfg, s, [ReRead(p, now)] + es).Some?
    ensures var t := Run(cfg, s, [ReRead(p, now)] + es).value;
      && Answered(PcOf(t, p), Returned(s.storage.value.accessToken))
      && SentNothing(s, t, p)
  {
    assert ([ReRead(p, now)] + es)[1..] == es;
    AnswerStands(cfg, Next(cfg, s, ReRead(p, now)).value, es, p, Returned(s.storage.value.accessToken));
  }

  // ---- tombstones are absorbing ----

  lemma RevokedStep(cfg: Config, s: State, e: Event)
    requires Inv(cfg, s) && ClassifyToken(s.storage).Revoked? && Next(cfg, s, e).Some?
    ensures var t := Next(cfg, s, e).value;
      && t.storage == s.storage && t.version == s.version && t.log.requests == s.log.requests
      && (PcOf(t, e.p).Idle? && PcOf(t, e.p).last.Some? ==> !PcOf(t, e.p).last.value.Returned?)
  {
    assert PcInv(cfg, s, PcOf(s, e.p));
  }

  // A call that ends while storage is revoked returns no token.
  ghost predicate ReturnsNothingNew(s: State, t: State) {
    forall p: Process, a :: PcOf(t, p) == Idle(Some(Returned(a))) ==> PcOf(s, p) == PcOf(t, p)
  }

  // Once storage is revoked no process sends or stores anything again, and no call that is still
  // running then, or begins later, returns a token.
  lemma {:induction false} RevokedIsAbsorbing(cfg: Config, s: State, es: seq<Event>)
    requires cfg.locking && Inv(cfg, s) && ClassifyToken(s.storage).Revoked? && Run(cfg, s, es).Some?
    ensures var t := Run(cfg, s, es).value;
      && t.storage == s.storage && t.version == s.version && t.log.requests == s.log.requests
      && ReturnsNothingNew(s, t)
    decreases |es|
  {
    if es != [] {
      var u := Next(cfg, s, es[0]).value;
      RevokedStep(cfg, s, es[0]);
      assert u.pcs == s.pcs[es[0].p := PcOf(u, es[0].p)];
      assert ReturnsNothingNew(s, u);
      NextKeepsInv(cfg, s, es[0]);
      RevokedIsAbsorbing(cfg, u, es[1..]);
    }
  }

  lemma TombstonesAreAbsorbing(cfg: Config, s: State, es: seq<Event>)
    requires cfg.locking && Reachable(cfg, s) && ClassifyToken(s.storage).Revoked? && Run(cfg, s, es).Some?
    ensures var t := Run(cfg, s, es).value;
      && t.storage == s.storage && t.version == s.version && t.log.requests == s.log.requests
      && ReturnsNothingNew(s, t)
  {
    ReachableInv(cfg, s);
    RevokedIsAbsorbing(cfg, s, es);
  }

  // ---- the lock is always given back ----

  // At most how many steps of its own a process is away from releasing the lock.
  function StepsLeft(pc: Pc): nat {
    match pc
    case Idle(_) => 0
    case AwaitingLock(_, _) => 0
    case Locked(_, _) => MAX_POSTS + 5
    case Ready(_, _, _, _) => MAX_POSTS + 4
    case InFlight(_, _, _, posts) => if posts >= MAX_POSTS then 4 else MAX_POSTS - posts + 4
    case Rejected(_) => 3
    case Saving(_, _, _) => 2
    case Tombstoning(_) => 2
    case Releasing(_) => 1
  }

  // Inside the critical section a process waits for nobody: it can go on whatever the others do.
  lemma HolderIsNeverStuck(cfg: Config, s: State, p: Process)
    requires InCritical(PcOf(s, p))
    ensures exists e: Event :: e.p == p && Next(cfg, s, e).Some?
  {
    var pc := PcOf(s, p);
    var e :=
      if pc.Locked? then ReRead(p, 0.0)
      else if pc.Ready? then Send(p)
      else if pc.InFlight? then Fail(p)
      else if pc.Saving? then Save(p)
      else if pc.Rejected? then Recover(p)
      else if pc.Tombstoning? then Bury(p)
      else Release(p);
    assert e.p == p && Next(cfg, s, e).Some?;
  }

  lemma OwnStepsCountDown(cfg: Config, s: State, e: Event, p: Process)
    requires InCritical(PcOf(s, p)) && Next(cfg, s, e).Some?
    ensures var pc := PcOf(Next(cfg, s, e).value, p);
      if e.p == p then StepsLeft(pc) < StepsLeft(PcOf(s, p)) && (StepsLeft(pc) == 0 ==> !InCritical(pc))
      else pc == PcOf(s, p)
  {
  }

  ghost function OwnSteps(es: seq<Event>, p: Process): nat {
    Count(es, IsStepOf(p))
  }

  ghost function IsStepOf(p: Process): Event -> bool {
    (e: Event) => e.p == p
  }

  // Every path through the critical section ends in the release: after at most eight steps of its own,
  // however the steps of others fall between them, a process has left it.
  lemma {:induction false} CriticalSectionEnds(cfg: Config, s: State, es: seq<Event>, p: Process)
    requires InCritical(PcOf(s, p)) && Run(cfg, s, es).Some? && OwnSteps(es, p) >= StepsLeft(PcOf(s, p))
    ensures StepsLeft(PcOf(s, p)) <= 8
    ensures exists i :: 0 <= i <= |es| && Run(cfg, s, es[..i]).Some? && !InCritical(PcOf(Run(cfg, s, es[..i]).value, p))
    decreases |es|
  {
    CountNone(IsStepOf(p));
    CountFirst(es, IsStepOf(p));
    var t := Next(cfg, s, es[0]).value;
    OwnStepsCountDown(cfg, s, es[0], p);
    assert es[..1][1..] == [];
    if InCritical(PcOf(t, p)) {
      CriticalSectionEnds(cfg, t, es[1..], p);
      var i :| 0 <= i <= |es[1..]| && Run(cfg, t, es[1..][..i]).Some? &&
        !InCritical(PcOf(Run(cfg, t, es[1..][..i]).value, p));
      assert es[..i + 1][1..] == es[1..][..i];
      assert Run(cfg, s, es[..i + 1]) == Run(cfg, t, es[1..][..i]);
    } else {
      assert Run(cfg, s, es[..1]) == Some(t);
    }
  }

  // ---- how often a stored token is spent ----

  // A granted refresh is followed by another one of the same stored version exactly when its answer
  // never reached storage.
  predicate Chained(spends: seq<Spend>) {
    var n := |spends|;
    n >= 2 ==>
      && (if spends[n - 2].lost then spends[n - 2].version == spends[n - 1].version
          else spends[n - 2].version < spends[n - 1].version)
      && Chained(spends[..n - 1])
  }

  // The answer being saved, if one is.
  function BeingSaved(s: State): Option<Pc> {
    if s.lock.Some? && PcOf(s, s.lock.value).Saving? then Some(PcOf(s, s.lock.value)) else None
  }

  // How the last grant stands to what is stored, while its answer is being saved and after.
  ghost predicate LastSpendInv(s: State) {
    var n := |s.log.spends|;
    && (n > 0 ==>
        var last := s.log.spends[n - 1];
        && last.version <= s.version
        && (if last.lost then last.version == s.version || !IsValid(s.storage)
            else last.version < s.version || BeingSaved(s).Some?))
    && (BeingSaved(s).Some? ==> n > 0 && s.log.spends[n - 1] == Spend(s.version, BeingSaved(s).value.active, false))
  }

  ghost predicate SpendInv(s: State) {
    Chained(s.log.spends) && LastSpendInv(s)
  }

  // The server grants a refresh.
  predicate Grants(e: Event) {
    e.Grant? || e.GrantLost? || e.RetryAfterGrant?
  }

  predicate Writes(e: Event) {
    Grants(e) || e.Save? || e.SaveFails? || e.Bury?
  }

  // The other events leave storage and the history of grants alone.
  lemma OthersWriteNothing(cfg: Config, s: State, e: Event)
    requires cfg.locking && LockInv(s) && Next(cfg, s, e).Some? && !Writes(e)
    ensures var t := Next(cfg, s, e).value;
      && t.storage == s.storage && t.version == s.version
      && t.log.spends == s.log.spends && t.log.issued == s.log.issued
      && BeingSaved(t) == BeingSaved(s)
  {
    assert InCritical(PcOf(s, e.p)) ==> s.lock == Some(e.p);
  }

  lemma ChainGrows(spends: seq<Spend>, x: Spend)
    requires Chained(spends)
    requires spends != [] ==>
      var last := spends[|spends| - 1];
      if last.lost then last.version == x.version else last.version < x.version
    ensures Chained(spends + [x])
  {
    var more := spends + [x];
    assert more[..|more| - 1] == spends && more[|more| - 1] == x;
    if spends != [] {
      assert more[|more| - 2] == spends[|spends| - 1];
    }
  }

  lemma ChainKeepsVersions(spends: seq<Spend>, x: Spend)
    requires Chained(spends) && spends != [] && x.version == spends[|spends| - 1].version
    ensures Chained(spends[|spends| - 1 := x])
  {
    assert spends[|spends| - 1 := x][..|spends| - 1] == spends[..|spends| - 1];
  }

  lemma NextKeepsSpends(cfg: Config, s: State, e: Event)
    requires cfg.locking && Inv(cfg, s) && SpendInv(s) && Next(cfg, s, e).Some?
    ensures SpendInv(Next(cfg, s, e).value)
  {
    var pc := PcOf(s, e.p);
    if Writes(e) {
      assert PcInv(cfg, s, pc);
      assert s.lock == Some(e.p);
      if e.RetryAfterGrant? {
        RetryKeepsSpends(s, e.p, pc, e.token);
      } else if Grants(e) {
        GrantKeepsSpends(s, e.p, pc, e.token, e.GrantLost?);
      } else if e.SaveFails? {
        LossKeepsSpends(s, e.p);
      }
    } else {
      OthersWriteNothing(cfg, s, e);
    }
  }

  lemma GrantKeepsSpends(s: State, p: Process, pc: Pc, token: TokenInfo, lost: bool)
    requires SpendInv(s) && s.lock == Some(p) && pc == PcOf(s, p) && pc.InFlight? && Holds(s, pc.active)
    requires pc.version == s.version
    ensures SpendInv(GrantRefresh(s, p, pc, token, lost))
  {
    ChainGrows(s.log.spends, Spend(pc.version, pc.active, lost));
  }

  lemma RetryKeepsSpends(s: State, p: Process, pc: Pc, token: TokenInfo)
    requires SpendInv(s) && s.lock == Some(p) && pc == PcOf(s, p) && pc.InFlight? && Holds(s, pc.active)
    requires pc.version == s.version
    ensures SpendInv(RetryRequest(s, p, pc, Some(token)))
  {
    RetrySpends(s, p, pc, token);
    ChainGrows(s.log.spends, Spend(pc.version, pc.active, true));
  }

  lemma RetrySpends(s: State, p: Process, pc: Pc, token: TokenInfo)
    requires s.lock == Some(p) && pc.InFlight?
    ensures var t := RetryRequest(s, p, pc, Some(token));
      && t.log.spends == s.log.spends + [Spend(pc.version, pc.active, true)]
      && t.version == s.version && t.storage == s.storage && BeingSaved(t).None?
  {
  }

  lemma LossKeepsSpends(s: State, p: Process)
    requires SpendInv(s) && s.lock == Some(p) && PcOf(s, p).Saving?
    ensures SpendInv(LoseRefreshed(s, p))
  {
    ChainKeepsVersions(s.log.spends, s.log.spends[|s.log.spends| - 1].(lost := true));
  }

  lemma {:induction false} RunKeepsSpends(cfg: Config, s: State, es: seq<Event>)
    requires cfg.locking && Inv(cfg, s) && SpendInv(s) && Run(cfg, s, es).Some?
    ensures SpendInv(Run(cfg, s, es).value)
    decreases |es|
  {
    if es != [] {
      NextKeepsSpends(cfg, s, es[0]);
      NextKeepsInv(cfg, s, es[0]);
      RunKeepsSpends(cfg, Next(cfg, s, es[0]).value, es[1..]);
    }
  }

  predicate AllLost(spends: seq<Spend>, k: nat, l: nat) {
    forall i :: k <= i < l && i < |spends| ==> spends[i].lost
  }

  lemma {:induction false} SpendsInOrder(spends: seq<Spend>, k: nat, l: nat)
    requires Chained(spends) && k <= l < |spends|
    ensures spends[k].version <= spends[l].version
    ensures spends[k].version == spends[l].version <==> AllLost(spends, k, l)
    decreases |spends|
  {
    if l < |spends| - 1 {
      SpendsInOrder(spends[..|spends| - 1], k, l);
    } else if k < l {
      SpendsInOrder(spends[..|spends| - 1], k, l - 1);
      assert AllLost(spends, k, l) <==> AllLost(spends, k, l - 1) && spends[l - 1].lost;
    }
  }

  // In every run later grants spend later versions, and a version is granted again exactly when the
  // answers of all grants in between were lost, on the way or because the save failed.
  lemma SpentAgainIffAnswersWereLost(cfg: Config, s: State, k: nat, l: nat)
    requires cfg.locking && Reachable(cfg, s) && k < l < |s.log.spends|
    ensures s.log.spends[k].version <= s.log.spends[l].version
    ensures s.log.spends[k].version == s.log.spends[l].version <==> AllLost(s.log.spends, k, l)
  {
    var start, es :| Initial(start) && Run(cfg, start, es) == Some(s);
    RunKeepsSpends(cfg, start, es);
    SpendsInOrder(s.log.spends, k, l);
  }

  predicate LosesNothing(es: seq<Event>) {
    forall e :: e in es ==> !e.SaveFails? && !e.GrantLost? && !e.RetryAfterGrant?
  }

  lemma {:induction false} NothingIsLost(cfg: Config, s: State, es: seq<Event>)
    requires LosesNothing(es) && AllGrantsSaved(s) && Run(cfg, s, es).Some?
    ensures AllGrantsSaved(Run(cfg, s, es).value)
    decreases |es|
  {
    if es != [] {
      assert es[0] in es;
      NothingIsLost(cfg, Next(cfg, s, es[0]).value, es[1..]);
    }
  }

  predicate AllGrantsSaved(s: State) {
    forall k :: 0 <= k < |s.log.spends| ==> !s.log.spends[k].lost
  }

  // Hence while answers arrive and saves succeed each stored version is granted at most one refresh.
  lemma EachVersionIsSpentOnce(cfg: Config, start: State, es: seq<Event>, k: nat, l: nat)
    requires cfg.locking && Initial(start) && LosesNothing(es) && Run(cfg, start, es).Some?
    requires k < l < |Run(cfg, start, es).value.log.spends|
    ensures Run(cfg, start, es).value.log.spends[k].version < Run(cfg, start, es).value.log.spends[l].version
  {
    var s := Run(cfg, start, es).value;
    NothingIsLost(cfg, start, es);
    SpentAgainIffAnswersWereLost(cfg, s, k, l);
    assert !s.log.spends[k].lost;
  }

  // Without that proviso it fails: a save that fails leaves the spent token in storage, and the next
  // call sends it again.
  lemma FailedSaveSpendsTwice(cfg: Config, s: State, p: Process, token: TokenInfo, granted: TokenInfo)
    requires cfg.locking && Initial(s) && s.storage == Some(token) && WellFormedGrant(token) && WellFormedGrant(granted)
    ensures
      var once := [Begin(p, true, 0.0), Acquire(p), ReRead(p, 0.0), Send(p), Grant(p, granted)];
      var t := Run(cfg, s, once + ([SaveFails(p), Release(p)] + once));
      t.Some? && t.value.log.spends == [Spend(0, token, true), Spend(0, token, false)]
  {
    var once := [Begin(p, true, 0.0), Acquire(p), ReRead(p, 0.0), Send(p), Grant(p, granted)];
    OneGrant(cfg, s, p, token, granted);
    var t := Run(cfg, s, once).value;
    var u := Next(cfg, t, SaveFails(p)).value;
    var v := Next(cfg, u, Release(p)).value;
    var pause := [SaveFails(p), Release(p)];
    assert pause[1..] == [Release(p)] && pause[1..][1..] == [];
    assert Run(cfg, u, pause[1..]) == Some(v) && Run(cfg, t, pause) == Some(v);
    OneGrant(cfg, v, p, token, granted);
    RunOfConcat(cfg, t, pause, once);
    RunOfConcat(cfg, s, once, pause + once);
  }

  // A forced call of one process, from its first read to the grant.
  lemma OneGrant(cfg: Config, s: State, p: Process, token: TokenInfo, granted: TokenInfo)
    requires cfg.locking && s.lock == None && PcOf(s, p).Idle?
    requires s.storage == Some(token) && WellFormedGrant(token) && WellFormedGrant(granted)
    ensures var t := Run(cfg, s, [Begin(p, true, 0.0), Acquire(p), ReRead(p, 0.0), Send(p), Grant(p, granted)]);
      && t.Some? && t.value.storage == s.storage && t.value.version == s.version && t.value.lock == Some(p)
      && t.value.log.spends == s.log.spends + [Spend(s.version, token, false)]
      && PcOf(t.value, p) == Saving(token, s.version, granted)
  {
    var es := [Begin(p, true, 0.0), Acquire(p), ReRead(p, 0.0), Send(p), Grant(p, granted)];
    var s1 := Next(cfg, s, es[0]).value;
    var s2 := Next(cfg, s1, es[1]).value;
    var s3 := Next(cfg, s2, es[2]).value;
    var s4 := Next(cfg, s3, es[3]).value;
    var s5 := Next(cfg, s4, es[4]).value;
    assert es[1..][1..] == es[2..] && es[2..][1..] == es[3..] && es[3..][1..] == es[4..] && es[4..][1..] == [];
    assert Run(cfg, s5, []) == Some(s5);
    assert Run(cfg, s4, es[4..]) == Some(s5);
    assert Run(cfg, s3, es[3..]) == Some(s5);
    assert Run(cfg, s2, es[2..]) == Some(s5);
    assert Run(cfg, s1, es[1..]) == Some(s5);
  }

  // An undisturbed call that does not force, on a token that is due, sends it once, stores what the server
  // grants and returns the new access token.
  lemma DueTokenIsRefreshed(cfg: Config, s: State, p: Process, token: TokenInfo, granted: TokenInfo, now: real,
      later: real)
    requires cfg.locking && s.lock == None && PcOf(s, p).Idle?
    requires s.storage == Some(token) && token.accessToken != "" && token.refreshToken != ""
    requires granted.accessToken != "" && granted.refreshToken != ""
    requires token.expiresAt != 0.0 && token.expiresAt - now < cfg.refreshThreshold(token.expiresIn)
    requires token.expiresAt - later < cfg.refreshThreshold(token.expiresIn)
    ensures
      var es := [Begin(p, false, now), Acquire(p), ReRead(p, later), Send(p), Grant(p, granted), Save(p), Release(p)];
      var t := Run(cfg, s, es);
      && t.Some? && t.value.storage == Some(granted) && t.value.lock == None
      && PcOf(t.value, p) == Idle(Some(Returned(granted.accessToken)))
      && t.value.log.requests == s.log.requests + [Request(p, false, token, later, token, Some(token))]
      && t.value.log.spends == s.log.spends + [Spend(s.version, token, false)]
  {
    var es := [Begin(p, false, now), Acquire(p), ReRead(p, later), Send(p), Grant(p, granted), Save(p), Release(p)];
    var s1 := Next(cfg, s, es[0]).value;
    var s2 := Next(cfg, s1, es[1]).value;
    var s3 := Next(cfg, s2, es[2]).value;
    var s4 := Next(cfg, s3, es[3]).value;
    AnswerIsStored(cfg, s4, p, granted);
    assert es[1..][1..] == es[2..] && es[2..][1..] == es[3..] && es[3..][1..] == es[4..];
    assert es[4..] == [Grant(p, granted), Save(p), Release(p)];
    assert Run(cfg, s3, es[3..]) == Run(cfg, s4, es[4..]);
    assert Run(cfg, s2, es[2..]) == Run(cfg, s4, es[4..]);
    assert Run(cfg, s1, es[1..]) == Run(cfg, s4, es[4..]);
  }

  lemma AnswerIsStored(cfg: Config, s: State, p: Process, granted: TokenInfo)
    requires cfg.locking && PcOf(s, p).InFlight? && granted.accessToken != "" && granted.refreshToken != ""
    ensures var t := Run(cfg, s, [Grant(p, granted), Save(p), Release(p)]);
      && t.Some? && t.value.storage == Some(granted) && t.value.lock == None
      && PcOf(t.value, p) == Idle(Some(Returned(granted.accessToken)))
      && t.value.log.requests == s.log.requests
      && t.value.log.spends == s.log.spends + [Spend(PcOf(s, p).version, PcOf(s, p).active, false)]
  {
    var es := [Grant(p, granted), Save(p), Release(p)];
    var s1 := Next(cfg, s, es[0]).value;
    var s2 := Next(cfg, s1, es[1]).value;
    var s3 := Next(cfg, s2, es[2]).value;
    assert es[1..][1..] == es[2..] && es[2..][1..] == [];
    assert Run(cfg, s3, []) == Some(s3);
    assert Run(cfg, s2, es[2..]) == Some(s3);
    assert Run(cfg, s1, es[1..]) == Some(s3);
  }

  // ---- a server that rotates refresh tokens (section 6 of RFC 6749) ----

  // The server never issues a refresh token it has issued before.
  ghost predicate Rotating(cfg: Config, s: State, es: seq<Event>)
    decreases |es|
  {
    es == [] ||
    match Next(cfg, s, es[0])
    case None => true
    case Some(t) =>
      (Grants(es[0]) ==> es[0].token.refreshToken !in s.log.issued) && Rotating(cfg, t, es[1..])
  }

  // Tokens are as different as the versions they were stored under.
  ghost predicate RotationInv(s: State) {
    && (forall k :: 0 <= k < |s.log.spends| ==> s.log.spends[k].sent.refreshToken in s.log.issued)
    && (forall k, l :: 0 <= k < l < |s.log.spends| ==>
        (s.log.spends[k].sent.refreshToken == s.log.spends[l].sent.refreshToken <==>
          s.log.spends[k].version == s.log.spends[l].version))
    && (IsValid(s.storage) ==>
        && s.storage.value.refreshToken in s.log.issued
        && forall k :: 0 <= k < |s.log.spends| ==>
          (s.log.spends[k].sent.refreshToken == s.storage.value.refreshToken <==> s.log.spends[k].version == s.version))
    && (BeingSaved(s).Some? ==> Unspent(s, BeingSaved(s).value.refreshed.refreshToken))
  }

  ghost predicate Unspent(s: State, token: string) {
    token in s.log.issued && forall k :: 0 <= k < |s.log.spends| ==> s.log.spends[k].sent.refreshToken != token
  }

  lemma NextKeepsRotation(cfg: Config, s: State, e: Event)
    requires cfg.locking && Inv(cfg, s) && SpendInv(s) && RotationInv(s) && Next(cfg, s, e).Some?
    requires Grants(e) ==> e.token.refreshToken !in s.log.issued
    ensures RotationInv(Next(cfg, s, e).value)
  {
    if Writes(e) {
      assert PcInv(cfg, s, PcOf(s, e.p));
      assert s.lock == Some(e.p);
      if e.RetryAfterGrant? {
        RetryKeepsRotation(s, e.p, PcOf(s, e.p), e.token);
      } else if Grants(e) {
        GrantKeepsRotation(s, e.p, PcOf(s, e.p), e.token, e.GrantLost?);
      } else if e.Save? {
        SaveKeepsRotation(s, e.p, PcOf(s, e.p));
      } else if e.SaveFails? {
        LossKeepsRotation(s, e.p);
      }
    } else {
      OthersWriteNothing(cfg, s, e);
    }
  }

  lemma SaveKeepsRotation(s: State, p: Process, pc: Pc)
    requires SpendInv(s) && RotationInv(s) && s.lock == Some(p) && pc == PcOf(s, p) && pc.Saving?
    ensures RotationInv(SaveRefreshed(s, p, pc))
  {
    forall k | 0 <= k < |s.log.spends| ensures s.log.spends[k].version <= s.version {
      SpendsInOrder(s.log.spends, k, |s.log.spends| - 1);
    }
  }

  lemma LossKeepsRotation(s: State, p: Process)
    requires SpendInv(s) && RotationInv(s) && s.lock == Some(p) && PcOf(s, p).Saving?
    ensures RotationInv(LoseRefreshed(s, p))
  {
  }

  lemma GrantKeepsRotation(s: State, p: Process, pc: Pc, token: TokenInfo, lost: bool)
    requires RotationInv(s) && s.lock == Some(p) && pc == PcOf(s, p) && pc.InFlight? && Holds(s, pc.active)
    requires pc.version == s.version && token.refreshToken !in s.log.issued
    ensures RotationInv(GrantRefresh(s, p, pc, token, lost))
  {
  }

  lemma RetryKeepsRotation(s: State, p: Process, pc: Pc, token: TokenInfo)
    requires RotationInv(s) && s.lock == Some(p) && pc == PcOf(s, p) && pc.InFlight? && Holds(s, pc.active)
    requires pc.version == s.version && token.refreshToken !in s.log.issued
    ensures RotationInv(RetryRequest(s, p, pc, Some(token)))
  {
  }

  lemma {:induction false} RunKeepsRotation(cfg: Config, s: State, es: seq<Event>)
    requires cfg.locking && Inv(cfg, s) && SpendInv(s) && RotationInv(s) && Rotating(cfg, s, es) &&
      Run(cfg, s, es).Some?
    ensures RotationInv(Run(cfg, s, es).value)
    decreases |es|
  {
    if es != [] {
      NextKeepsRotation(cfg, s, es[0]);
      NextKeepsSpends(cfg, s, es[0]);
      NextKeepsInv(cfg, s, es[0]);
      RunKeepsRotation(cfg, Next(cfg, s, es[0]).value, es[1..]);
    }
  }

  // Against a rotating server the same refresh token is granted twice exactly when the answers in
  // between were lost; so never while answers arrive and saves succeed.
  lemma TokenSpentAgainIffAnswersWereLost(cfg: Config, start: State, es: seq<Event>, k: nat, l: nat)
    requires cfg.locking && Initial(start) && Rotating(cfg, start, es) && Run(cfg, start, es).Some?
    requires k < l < |Run(cfg, start, es).value.log.spends|
    ensures var s := Run(cfg, start, es).value;
      s.log.spends[k].sent.refreshToken == s.log.spends[l].sent.refreshToken <==> AllLost(s.log.spends, k, l)
  {
    RunKeepsRotation(cfg, start, es);
    SpentAgainIffAnswersWereLost(cfg, Run(cfg, start, es).value, k, l);
  }

  // The server accepts exactly the refresh token it issued last, and every save succeeds.
  ghost predicate Honest(cfg: Config, s: State, es: seq<Event>, live: string)
    decreases |es|
  {
    es == [] ||
    match Next(cfg, s, es[0])
    case None => true
    case Some(t) =>
      var pc := PcOf(s, es[0].p);
      && (es[0].Grant? ==> pc.active.refreshToken == live)
      && (es[0].Reject? ==> pc.active.refreshToken != live)
      && !es[0].GrantLost? && !es[0].RetryAfterGrant? && !es[0].SaveFails? && !es[0].BuryFails?
      && Honest(cfg, t, es[1..], if es[0].Grant? then es[0].token.refreshToken else live)
  }

  ghost predicate LiveInv(s: State, live: string) {
    && s.log.burials == [] && IsValid(s.storage)
    && (forall p: Process :: !PcOf(s, p).Rejected? && !PcOf(s, p).Tombstoning?)
    && (if s.lock.Some? && PcOf(s, s.lock.value).Saving?
        then PcOf(s, s.lock.value).refreshed.refreshToken == live
        else s.storage.value.refreshToken == live)
  }

  lemma NextKeepsLive(cfg: Config, s: State, e: Event, live: string)
    requires cfg.locking && Inv(cfg, s) && LiveInv(s, live) && Honest(cfg, s, [e], live) && Next(cfg, s, e).Some?
    ensures LiveInv(Next(cfg, s, e).value, if e.Grant? then e.token.refreshToken else live)
  {
    var t := Next(cfg, s, e).value;
    assert PcInv(cfg, s, PcOf(s, e.p));
    assert InCritical(PcOf(s, e.p)) ==> s.lock == Some(e.p);
    assert !PcOf(t, e.p).Rejected? && !PcOf(t, e.p).Tombstoning?;
    forall p: Process ensures !PcOf(t, p).Rejected? && !PcOf(t, p).Tombstoning? {
      assert p != e.p ==> PcOf(t, p) == PcOf(s, p);
    }
    if s.lock.Some? && s.lock != Some(e.p) {
      assert t.lock == s.lock && PcOf(t, t.lock.value) == PcOf(s, s.lock.value);
    }
  }

  lemma {:induction false} RunKeepsLive(cfg: Config, s: State, es: seq<Event>, live: string)
    requires cfg.locking && Inv(cfg, s) && LiveInv(s, live) && Honest(cfg, s, es, live) && Run(cfg, s, es).Some?
    ensures Run(cfg, s, es).value.log.burials == [] && IsValid(Run(cfg, s, es).value.storage)
    ensures forall p: Process :: !PcOf(Run(cfg, s, es).value, p).Rejected?
    decreases |es|
  {
    if es != [] {
      assert Honest(cfg, s, [es[0]], live);
      NextKeepsLive(cfg, s, es[0], live);
      NextKeepsInv(cfg, s, es[0]);
      RunKeepsLive(cfg, Next(cfg, s, es[0]).value, es[1..], if es[0].Grant? then es[0].token.refreshToken else live);
    }
  }

  // What the lock is for: if the stored token is the one the server would accept, no interleaving
  // makes the server reject a refresh, so the user is never logged out by a race.
  lemma NoRaceEverRevokesALiveToken(cfg: Config, s: State, es: seq<Event>)
    requires cfg.locking && Initial(s) && IsValid(s.storage)
    requires Honest(cfg, s, es, s.storage.value.refreshToken) && Run(cfg, s, es).Some?
    ensures Run(cfg, s, es).value.log.burials == [] && IsValid(Run(cfg, s, es).value.storage)
    ensures forall p: Process :: !PcOf(Run(cfg, s, es).value, p).Rejected?
  {
    RunKeepsLive(cfg, s, es, s.storage.value.refreshToken);
  }

  // Without that proviso it fails: when the answer to a granted post is lost, the call posts the spent
  // token again, a server that rotates tokens rejects it, and the user is logged out.
  lemma LostAnswerRevokes(cfg: Config, s: State, p: Process, token: TokenInfo, granted: TokenInfo)
    requires cfg.locking && Initial(s) && s.storage == Some(token) && WellFormedGrant(token)
    ensures
      var t := Run(cfg, s, ForcedUpToSend(p) + [RetryAfterGrant(p, granted), Reject(p), Recover(p), Bury(p)]);
      && t.Some? && ClassifyToken(t.value.storage).Revoked?
      && t.value.log.spends == [Spend(0, token, true)] && t.value.log.burials == [Burial(token, Some(token))]
  {
    CallSends(cfg, s, p, token);
    LostGrantIsBuried(cfg, Run(cfg, s, ForcedUpToSend(p)).value, p, token, granted);
    RunOfConcat(cfg, s, ForcedUpToSend(p), [RetryAfterGrant(p, granted), Reject(p), Recover(p), Bury(p)]);
  }

  lemma LostGrantIsBuried(cfg: Config, s0: State, p: Process, token: TokenInfo, granted: TokenInfo)
    requires PcOf(s0, p).InFlight? && PcOf(s0, p).active == token && PcOf(s0, p).posts == 1
    requires s0.storage == Some(token) && WellFormedGrant(token)
    ensures var t := Run(cfg, s0, [RetryAfterGrant(p, granted), Reject(p), Recover(p), Bury(p)]);
      && t.Some? && t.value.storage == Some(RevokedTombstone(token))
      && t.value.log.spends == s0.log.spends + [Spend(PcOf(s0, p).version, token, true)]
      && t.value.log.burials == s0.log.burials + [Burial(token, Some(token))]
  {
    var es := [RetryAfterGrant(p, granted), Reject(p), Recover(p), Bury(p)];
    var s1 := Next(cfg, s0, es[0]).value;
    var s2 := Next(cfg, s1, es[1]).value;
    var s3 := Next(cfg, s2, es[2]).value;
    var s4 := Next(cfg, s3, es[3]).value;
    assert es[1..][1..] == es[2..] && es[2..][1..] == es[3..] && es[3..][1..] == [];
    assert Run(cfg, s4, []) == Some(s4);
    assert Run(cfg, s3, es[3..]) == Some(s4);
    assert Run(cfg, s2, es[2..]) == Some(s4);
    assert Run(cfg, s1, es[1..]) == Some(s4);
  }

  // ---- what happens without the lock ----

  function ForcedUpToSend(p: Process): seq<Event> {
    [Begin(p, true, 0.0), Acquire(p), ReRead(p, 0.0), Send(p)]
  }

  lemma {:induction false} RunOfConcat(cfg: Config, s: State, es: seq<Event>, fs: seq<Event>)
    requires Run(cfg, s, es).Some?
    ensures Run(cfg, s, es + fs) == Run(cfg, Run(cfg, s, es).value, fs)
    decreases |es|
  {
    if es == [] {
      assert es + fs == fs;
    } else {
      assert (es + fs)[1..] == es[1..] + fs;
      RunOfConcat(cfg, Next(cfg, s, es[0]).value, es[1..], fs);
    }
  }

  // A forced call of one process, up to its post: it finds the lock free, or locking is off.
  lemma CallSends(cfg: Config, s: State, p: Process, token: TokenInfo)
    requires cfg.locking ==> s.lock == None
    requires s.storage == Some(token) && WellFormedGrant(token) && PcOf(s, p).Idle?
    ensures var t := Run(cfg, s, ForcedUpToSend(p));
      && t.Some? && t.value.storage == s.storage && t.value.version == s.version
      && t.value.log.spends == s.log.spends && t.value.log.burials == s.log.burials
      && (forall q: Process :: q != p ==> PcOf(t.value, q) == PcOf(s, q))
      && PcOf(t.value, p).InFlight? && PcOf(t.value, p).active == token
      && PcOf(t.value, p).version == s.version && PcOf(t.value, p).posts == 1
  {
    var es := ForcedUpToSend(p);
    var s1 := Next(cfg, s, es[0]).value;
    var s2 := Next(cfg, s1, es[1]).value;
    var s3 := Next(cfg, s2, es[2]).value;
    var s4 := Next(cfg, s3, es[3]).value;
    assert es[1..][1..] == es[2..] && es[2..][1..] == es[3..] && es[3..][1..] == [];
    assert Run(cfg, s4, []) == Some(s4);
    assert Run(cfg, s3, es[3..]) == Some(s4);
    assert Run(cfg, s2, es[2..]) == Some(s4);
    assert Run(cfg, s1, es[1..]) == Some(s4);
  }

  // With locking off the same code lets two processes send the same refresh token at once.
  lemma WithoutTheLockRefreshesCollide(cfg: Config, s: State, token: TokenInfo)
    requires !cfg.locking && Initial(s) && s.storage == Some(token) && WellFormedGrant(token)
    ensures var t := Run(cfg, s, ForcedUpToSend(0) + ForcedUpToSend(1));
      && t.Some? && PcOf(t.value, 0).InFlight? && PcOf(t.value, 1).InFlight?
      && PcOf(t.value, 0).active == PcOf(t.value, 1).active == token
  {
    CallSends(cfg, s, 0, token);
    RunOfConcat(cfg, s, ForcedUpToSend(0), ForcedUpToSend(1));
    CallSends(cfg, Run(cfg, s, ForcedUpToSend(0)).value, 1, token);
  }
}
