/**
 * `login` of packages/oauth/src/oauth-manager.ts: the polling loop of the device authorization
 * grant (section 3.5 of RFC 8628). The clock counts whole seconds; a sleep advances it by at least
 * what was asked for, and every other wait by an amount the environment chooses.
 */
module DeviceLogin {
  import opened Options
  import opened Sequences
  import opened TokenStates

  datatype PollResult =
    | Success(token: TokenInfo)
    | Denied(description: string)
    | Expired
    | Pending(slowDown: bool)
    | PollFails

  datatype DeviceGrant = DeviceGrant(interval: int) | RequestFails

  // What the environment does during one turn of the loop. `next` and `requestTime` answer the
  // request for a new device code that follows an expired one.
  datatype Turn = Turn(
    aborted: bool, pollTime: nat, result: PollResult, overslept: nat, next: DeviceGrant, requestTime: nat)

  // `code` numbers the device codes, `base` is that code's interval at the start, and `interval` the
  // one in force once this poll has been answered.
  datatype Poll = Poll(at: int, code: nat, base: int, interval: int, result: PollResult)

  // StillPolling is a run cut off before the flow has ended.
  datatype Outcome =
    | LoggedIn(token: TokenInfo)
    | AuthorizationDenied(description: string)
    | TimedOut
    | Aborted
    | Failed
    | StillPolling

  function CeilSeconds(ms: int): (s: int)
    ensures 1000 * (s - 1) < ms <= 1000 * s
  {
    -((-ms) / 1000)
  }

  function BaseInterval(interval: int): int {
    if interval > 1 then interval else 1
  }

  function Bump(result: PollResult): int {
    if result.Pending? && result.slowDown then 5 else 0
  }

  predicate Retries(result: PollResult) {
    result.Pending? || result.Expired?
  }

  // Consecutive polls: a pending answer keeps the code and waits out the interval; an expired one
  // moves on to a new code with its own interval.
  ghost predicate Follows(p: Poll, q: Poll) {
    if p.result.Pending? then
      q.code == p.code && q.base == p.base && q.interval == p.interval + Bump(q.result) && q.at >= p.at + p.interval
    else
      p.result.Expired? && q.code == p.code + 1 && q.interval == q.base + Bump(q.result) && q.at >= p.at
  }

  // Every poll starts before the deadline and follows the one before it; the first opens code 0.
  ghost predicate WellTimed(polls: seq<Poll>, startedAt: int, deadlineAt: int)
    decreases |polls|
  {
    polls == [] ||
    var q := polls[|polls| - 1];
    && startedAt <= q.at < deadlineAt && q.base >= 1
    && (if |polls| == 1 then q.code == 0 && q.interval == q.base + Bump(q.result)
        else Follows(polls[|polls| - 2], q))
    && WellTimed(polls[..|polls| - 1], startedAt, deadlineAt)
  }

  // The polls are the answers of the turns, in order, each under the interval its code was granted.
  ghost predicate Answers(polls: seq<Poll>, first: DeviceGrant, turns: seq<Turn>)
    decreases |polls|
  {
    polls == [] ||
    var n := |polls|;
    && n <= |turns|
    && polls[n - 1].result == turns[n - 1].result && !turns[n - 1].aborted
    && (if n == 1 then
          first.DeviceGrant? && polls[0].base == BaseInterval(first.interval)
        else if polls[n - 2].result.Expired? then
          turns[n - 2].next.DeviceGrant? && polls[n - 1].base == BaseInterval(turns[n - 2].next.interval)
        else
          true)
    && Answers(polls[..n - 1], first, turns)
  }

  // Which ending a run has, and why. `clock` is the time at the end.
  ghost predicate Explains(
    outcome: Outcome, polls: seq<Poll>, first: DeviceGrant, turns: seq<Turn>, clock: int, deadlineAt: int)
    requires |polls| <= |turns|
  {
    var last := if |polls| == 0 then None else Some(polls[|polls| - 1].result);
    match outcome
    case LoggedIn(token) => last == Some(Success(token))
    case AuthorizationDenied(d) => last == Some(Denied(d))
    case TimedOut => clock >= deadlineAt && (last.Some? ==> Retries(last.value))
    case Aborted => |polls| < |turns| && turns[|polls|].aborted && (last.Some? ==> Retries(last.value))
    case Failed =>
      if last.None? then first.RequestFails?
      else last.value.PollFails?
           || (last.value.Expired? && turns[|polls| - 1].next.RequestFails? && clock < deadlineAt)
    case StillPolling => |polls| == |turns| && (last.Some? ==> Retries(last.value))
  }

  // The next poll of `code`, made now, follows the ones so far.
  ghost predicate Due(
    polls: seq<Poll>, first: DeviceGrant, turns: seq<Turn>, auth: DeviceGrant, code: nat, interval: int, clock: int)
    requires |polls| <= |turns|
  {
    && auth.DeviceGrant?
    && if polls == [] then
        auth == first && code == 0 && interval == BaseInterval(auth.interval)
      else
        var p := polls[|polls| - 1];
        if p.result.Pending? then
          p.code == code && p.base == BaseInterval(auth.interval) && p.interval == interval && clock >= p.at + interval
        else
          && p.result.Expired? && p.code + 1 == code && auth == turns[|polls| - 1].next
          && interval == BaseInterval(auth.interval) && clock >= p.at
  }

  lemma AppendPoll(
    polls: seq<Poll>, first: DeviceGrant, turns: seq<Turn>, auth: DeviceGrant, code: nat, interval: int, clock: int,
    startedAt: int, deadlineAt: int)
    requires WellTimed(polls, startedAt, deadlineAt) && Answers(polls, first, turns)
    requires |polls| < |turns| && !turns[|polls|].aborted && startedAt <= clock < deadlineAt
    requires Due(polls, first, turns, auth, code, interval, clock)
    ensures var r := turns[|polls|].result;
      var more := polls + [Poll(clock, code, BaseInterval(auth.interval), interval + Bump(r), r)];
      WellTimed(more, startedAt, deadlineAt) && Answers(more, first, turns)
  {
    var r := turns[|polls|].result;
    assert (polls + [Poll(clock, code, BaseInterval(auth.interval), interval + Bump(r), r)])[..|polls|] == polls;
  }

  // The inner loop: poll one device code until it expires (no ending) or the flow ends.
  method PollCode(
    startedAt: int, deadlineAt: int, first: DeviceGrant, turns: seq<Turn>, auth: DeviceGrant, code: nat,
    before: seq<Poll>, now: int)
    returns (ending: Option<Outcome>, polls: seq<Poll>, saved: seq<TokenInfo>, clock: int)
    requires WellTimed(before, startedAt, deadlineAt) && Answers(before, first, turns) && now >= startedAt
    requires |before| <= |turns| && auth.DeviceGrant?
    requires Due(before, first, turns, auth, code, BaseInterval(auth.interval), now)
    ensures WellTimed(polls, startedAt, deadlineAt) && Answers(polls, first, turns)
    ensures clock >= startedAt && |polls| <= |turns|
    ensures ending.None? ==>
      |before| < |polls| && polls[|polls| - 1].result.Expired? && polls[|polls| - 1].code == code
      && clock >= polls[|polls| - 1].at
    ensures ending.Some? ==> Explains(ending.value, polls, first, turns, clock, deadlineAt)
    ensures saved == if ending.Some? && ending.value.LoggedIn? then [ending.value.token] else []
  {
    ending, polls, saved, clock := None, before, [], now;
    var currentInterval := BaseInterval(auth.interval);
    while true
      invariant |before| <= |polls| <= |turns|
      invariant WellTimed(polls, startedAt, deadlineAt) && Answers(polls, first, turns)
      invariant clock >= startedAt && currentInterval >= 1 && saved == [] && ending.None?
      invariant Due(polls, first, turns, auth, code, currentInterval, clock)
      decreases |turns| - |polls|
    {
      if |polls| == |turns| {
        ending := Some(StillPolling);
        break;
      }
      var turn := turns[|polls|];
      if turn.aborted {
        ending := Some(Aborted);
        break;
      }
      if clock >= deadlineAt {
        ending := Some(TimedOut);
        break;
      }
      AppendPoll(polls, first, turns, auth, code, currentInterval, clock, startedAt, deadlineAt);
      var at := clock;
      clock := clock + turn.pollTime;
      if turn.result.Pending? && turn.result.slowDown {
        currentInterval := currentInterval + 5;
      }
      polls := polls + [Poll(at, code, BaseInterval(auth.interval), currentInterval, turn.result)];
      if turn.result.Success? {
        saved := saved + [turn.result.token];
        ending := Some(LoggedIn(turn.result.token));
        break;
      }
      if turn.result.Denied? {
        ending := Some(AuthorizationDenied(turn.result.description));
        break;
      }
      if turn.result.PollFails? {
        ending := Some(Failed);
        break;
      }
      if turn.result.Expired? {
        break;
      }
      clock := clock + currentInterval + turn.overslept;
    }
  }

  // `saved` lists what was written to storage.
  method Login(startedAt: int, timeoutMs: int, first: DeviceGrant, firstRequestTime: nat, turns: seq<Turn>)
    returns (outcome: Outcome, polls: seq<Poll>, saved: seq<TokenInfo>, clock: int)
    ensures WellTimed(polls, startedAt, startedAt + CeilSeconds(timeoutMs))
    ensures Answers(polls, first, turns) && |polls| <= |turns|
    ensures Explains(outcome, polls, first, turns, clock, startedAt + CeilSeconds(timeoutMs))
    ensures saved == if outcome.LoggedIn? then [outcome.token] else []
  {
    var deadlineAt := startedAt + CeilSeconds(timeoutMs);
    polls, saved, clock := [], [], startedAt;
    var auth, requestTime, code: nat := first, firstRequestTime, 0;
    while true
      invariant WellTimed(polls, startedAt, deadlineAt) && Answers(polls, first, turns)
      invariant clock >= startedAt && saved == [] && |polls| <= |turns|
      invariant polls != [] ==> polls[|polls| - 1].result.Expired? && clock < deadlineAt
      invariant auth == if polls == [] then first else turns[|polls| - 1].next
      invariant auth.DeviceGrant? ==> Due(polls, first, turns, auth, code, BaseInterval(auth.interval), clock)
      decreases |turns| - |polls|
    {
      if auth.RequestFails? {
        return Failed, polls, saved, clock;
      }
      clock := clock + requestTime;
      var ending;
      ending, polls, saved, clock := PollCode(startedAt, deadlineAt, first, turns, auth, code, polls, clock);
      if ending.Some? {
        return ending.value, polls, saved, clock;
      }
      if clock >= deadlineAt {
        return TimedOut, polls, saved, clock;
      }
      auth, requestTime, code := turns[|polls| - 1].next, turns[|polls| - 1].requestTime, code + 1;
    }
  }

  // ---- timing, for every run of the flow ----

  // No poll starts at or after the deadline, and each is placed by its predecessor.
  lemma {:induction false} WellTimedAt(polls: seq<Poll>, startedAt: int, deadlineAt: int, k: nat)
    requires WellTimed(polls, startedAt, deadlineAt) && k < |polls|
    ensures startedAt <= polls[k].at < deadlineAt && polls[k].base >= 1
    ensures if k == 0 then polls[0].code == 0 && polls[0].interval == polls[0].base + Bump(polls[0].result)
            else Follows(polls[k - 1], polls[k])
    decreases |polls|
  {
    if k < |polls| - 1 {
      WellTimedAt(polls[..|polls| - 1], startedAt, deadlineAt, k);
    }
  }

  // Slow-down answers to the code of poll k, up to and including poll k.
  function SlowDowns(polls: seq<Poll>, k: nat): nat
    requires k < |polls|
  {
    (if polls[k].result == Pending(true) then 1 else 0) +
    if k > 0 && polls[k - 1].code == polls[k].code then SlowDowns(polls, k - 1) else 0
  }

  lemma {:induction false} IntervalCountsSlowDowns(polls: seq<Poll>, startedAt: int, deadlineAt: int, k: nat)
    requires WellTimed(polls, startedAt, deadlineAt) && k < |polls|
    ensures polls[k].interval == polls[k].base + 5 * SlowDowns(polls, k)
  {
    WellTimedAt(polls, startedAt, deadlineAt, k);
    if k > 0 {
      IntervalCountsSlowDowns(polls, startedAt, deadlineAt, k - 1);
    }
  }

  // Polls of one code are at least its base interval plus five seconds per slow-down so far apart.
  lemma PollsAreSpacedOut(polls: seq<Poll>, startedAt: int, deadlineAt: int, k: nat)
    requires WellTimed(polls, startedAt, deadlineAt) && k + 1 < |polls| && polls[k].code == polls[k + 1].code
    ensures polls[k + 1].at - polls[k].at >= polls[k].base + 5 * SlowDowns(polls, k)
    ensures polls[k].base == polls[k + 1].base
  {
    IntervalCountsSlowDowns(polls, startedAt, deadlineAt, k);
    WellTimedAt(polls, startedAt, deadlineAt, k + 1);
  }

  // What the server granted for the code of poll k: the first answer, or the one after the last expiry.
  function GrantOf(polls: seq<Poll>, first: DeviceGrant, turns: seq<Turn>, k: nat): DeviceGrant
    requires k < |polls| <= |turns|
  {
    if k == 0 then first
    else if polls[k - 1].result.Expired? then turns[k - 1].next
    else GrantOf(polls, first, turns, k - 1)
  }

  lemma {:induction false} AnswersAt(polls: seq<Poll>, first: DeviceGrant, turns: seq<Turn>, k: nat)
    requires Answers(polls, first, turns) && k < |polls| <= |turns|
    ensures Answers(polls[..k + 1], first, turns)
    decreases |polls|
  {
    if k + 1 < |polls| {
      AnswersAt(polls[..|polls| - 1], first, turns, k);
      assert polls[..|polls| - 1][..k + 1] == polls[..k + 1];
    } else {
      assert polls[..k + 1] == polls;
    }
  }

  // The base interval of a code is what the server asked for, but at least one second.
  lemma {:induction false} BaseCoversTheGrant(
    polls: seq<Poll>, first: DeviceGrant, turns: seq<Turn>, startedAt: int, deadlineAt: int, k: nat)
    requires WellTimed(polls, startedAt, deadlineAt) && Answers(polls, first, turns) && k < |polls| <= |turns|
    ensures var grant := GrantOf(polls, first, turns, k);
      && grant.DeviceGrant? && polls[k].base >= grant.interval && polls[k].base >= 1
      && (polls[k].base == grant.interval || polls[k].base == 1)
  {
    WellTimedAt(polls, startedAt, deadlineAt, k);
    AnswersAt(polls, first, turns, k);
    if k > 0 {
      BaseCoversTheGrant(polls, first, turns, startedAt, deadlineAt, k - 1);
      assert polls[..k + 1][k - 1] == polls[k - 1];
    }
  }

  // The client never polls faster than the server asked for: its interval, and five seconds more for each
  // slow_down so far.
  lemma ServerIsNeverRushed(
    polls: seq<Poll>, first: DeviceGrant, turns: seq<Turn>, startedAt: int, deadlineAt: int, k: nat)
    requires WellTimed(polls, startedAt, deadlineAt) && Answers(polls, first, turns) && |polls| <= |turns|
    requires k + 1 < |polls| && polls[k].code == polls[k + 1].code
    ensures var grant := GrantOf(polls, first, turns, k);
      grant.DeviceGrant? && polls[k + 1].at - polls[k].at >= grant.interval + 5 * SlowDowns(polls, k)
  {
    BaseCoversTheGrant(polls, first, turns, startedAt, deadlineAt, k);
    PollsAreSpacedOut(polls, startedAt, deadlineAt, k);
  }

  ghost function PendingPolls(polls: seq<Poll>): nat {
    Count(polls, IsPending())
  }

  ghost function IsPending(): Poll -> bool {
    (poll: Poll) => poll.result.Pending?
  }

  lemma {:induction false} PendingPollsTakeTime(polls: seq<Poll>, startedAt: int, deadlineAt: int, k: nat)
    requires WellTimed(polls, startedAt, deadlineAt) && k < |polls|
    ensures polls[k].at >= startedAt + PendingPolls(polls[..k])
  {
    WellTimedAt(polls, startedAt, deadlineAt, k);
    if k > 0 {
      PendingPollsTakeTime(polls, startedAt, deadlineAt, k - 1);
      IntervalCountsSlowDowns(polls, startedAt, deadlineAt, k - 1);
      WellTimedAt(polls, startedAt, deadlineAt, k - 1);
      CountLast(polls[..k], IsPending());
      assert polls[..k][..k - 1] == polls[..k - 1];
    } else {
      CountNone(IsPending());
      assert polls[..0] == [];
    }
  }

  // However many codes are used, pending polls number at most the seconds of the time limit.
  lemma PendingPollsAreBounded(polls: seq<Poll>, startedAt: int, timeoutMs: int)
    requires WellTimed(polls, startedAt, startedAt + CeilSeconds(timeoutMs))
    ensures polls != [] ==> PendingPolls(polls) <= CeilSeconds(timeoutMs)
  {
    if polls != [] {
      PendingPollsTakeTime(polls, startedAt, startedAt + CeilSeconds(timeoutMs), |polls| - 1);
      CountLast(polls, IsPending());
      WellTimedAt(polls, startedAt, startedAt + CeilSeconds(timeoutMs), |polls| - 1);
    }
  }

  lemma {:induction false} SlowDownRunStretches(polls: seq<Poll>, startedAt: int, deadlineAt: int, k: nat, m: nat)
    requires WellTimed(polls, startedAt, deadlineAt) && k + m < |polls|
    requires forall i :: k <= i <= k + m ==> polls[i].result == Pending(true)
    ensures polls[k + m].base == polls[k].base
    ensures polls[k + m].interval >= polls[k].base + 5 * (m + 1)
    ensures 2 * (polls[k + m].at - polls[k].at) >= 2 * m * polls[k].base + 5 * m * (m + 1)
  {
    if m == 0 {
      IntervalCountsSlowDowns(polls, startedAt, deadlineAt, k);
    } else {
      SlowDownRunStretches(polls, startedAt, deadlineAt, k, m - 1);
      WellTimedAt(polls, startedAt, deadlineAt, k + m);
      assert 2 * m * polls[k].base == 2 * (m - 1) * polls[k].base + 2 * polls[k].base;
      assert 5 * m * (m + 1) == 5 * (m - 1) * m + 2 * (5 * m);
    }
  }

  // n slow-downs in a row fit only if (n-1)I + 5n(n-1)/2 is below the time limit (here doubled).
  lemma SlowDownsInARow(polls: seq<Poll>, startedAt: int, timeoutMs: int, k: nat, n: nat)
    requires WellTimed(polls, startedAt, startedAt + CeilSeconds(timeoutMs))
    requires n > 0 && k + n <= |polls|
    requires forall i :: k <= i < k + n ==> polls[i].result == Pending(true)
    ensures 2 * (n - 1) * polls[k].base + 5 * (n - 1) * n < 2 * CeilSeconds(timeoutMs)
  {
    SlowDownRunStretches(polls, startedAt, startedAt + CeilSeconds(timeoutMs), k, n - 1);
    WellTimedAt(polls, startedAt, startedAt + CeilSeconds(timeoutMs), k);
    WellTimedAt(polls, startedAt, startedAt + CeilSeconds(timeoutMs), k + (n - 1));
  }
}
