/**
 * The decision logic of the background token-refresh loop, over an abstract
 * clock that counts nanoseconds. One iteration of the loop is one `Step`:
 * wait three quarters of the time left, ask for a new session, then either
 * back off or adopt the new session and its expiry.
 */
module TokenRefresh {
  import opened Wrappers
  import opened GoRuntime
  import opened AuthTypes

  /** One second of Go's `time.Duration`, in nanoseconds. */
  const Second: int := 1_000_000_000

  /** The last attempt count that still sleeps `2^attempt` seconds. */
  const LastExponentialAttempt: nat := 3

  /** The sleep after every failure once the exponential regime is over. */
  const FixedBackoff: int := 30 * Second

  /** The loop's variables: failures since the last success, current session, its expiry instant. */
  datatype LoopState = LoopState(attempt: nat, session: Session, expiresAt: int)

  /**
   * What the environment supplies to one iteration: the clock at the top of
   * the iteration, the auth library's answer to the refresh request, and the
   * clock when the answer has been adopted.
   */
  datatype Round = Round(now: int, reply: AuthReply, finishedAt: int)

  /**
   * What one iteration did: the refresh token it sent, the pre-refresh sleep
   * (None when skipped), the failure backoff (None after a success), and the
   * loop variables for the next iteration.
   */
  datatype Outcome = Outcome(sentToken: string, waited: Option<int>, backoff: Option<int>, next: LoopState)

  /** `now + ExpiresIn * time.Second`. */
  function ExpiryAfter(now: int, session: Session): int
  {
    now + session.expiresIn * Second
  }

  /** The loop variables when the goroutine starts at clock `now`. */
  function Started(session: Session, now: int): LoopState
  {
    LoopState(0, session, ExpiryAfter(now, session))
  }

  /** `(time.Until(expiresAt) / 4) * 3`, with Go's truncating division. */
  function PreRefreshWait(expiresAt: int, now: int): int
  {
    Quo(expiresAt - now, 4) * 3
  }

  /**
   * The sleep after the `attempt`-th consecutive failure (the counter is
   * already incremented): never shorter than 2 seconds, never longer than
   * 30 seconds.
   */
  function BackoffDelay(attempt: nat): (d: int)
    ensures attempt >= 1 ==> 2 * Second <= d <= FixedBackoff
  {
    if attempt <= LastExponentialAttempt then
      Shl1Monotone(attempt, LastExponentialAttempt);
      Shl1(attempt) * Second
    else FixedBackoff
  }

  /**
   * One iteration of the refresh loop. It always sends the current refresh
   * token and sleeps only for a positive wait; exactly a refusal backs off,
   * keeping session and expiry and counting one more failure, while a
   * success adopts the new session with a fresh counter.
   */
  function Step(st: LoopState, round: Round): (o: Outcome)
    ensures o.sentToken == st.session.refreshToken
    ensures o.waited.Some? ==> o.waited.value > 0
    ensures o.backoff.Some? <==> round.reply.Refused?
    ensures round.reply.Refused? ==>
      o.next.session == st.session && o.next.expiresAt == st.expiresAt && o.next.attempt == st.attempt + 1
    ensures round.reply.Granted? ==> o.next.attempt == 0 && o.next.session == round.reply.session
  {
    var wait := PreRefreshWait(st.expiresAt, round.now);
    var waited := if wait > 0 then Some(wait) else None;
    match round.reply
    case Refused(_) =>
      Outcome(st.session.refreshToken, waited, Some(BackoffDelay(st.attempt + 1)), st.(attempt := st.attempt + 1))
    case Granted(s) =>
      Outcome(st.session.refreshToken, waited, None, LoopState(0, s, ExpiryAfter(round.finishedAt, s)))
  }

  /**
   * The outcomes of running the loop through `rounds`. The loop has no exit:
   * every round, whatever its answer, yields exactly one outcome and a
   * successor state.
   */
  function Trace(st: LoopState, rounds: seq<Round>): (os: seq<Outcome>)
    ensures |os| == |rounds|
    decreases |rounds|
  {
    if rounds == [] then [] else
      var o := Step(st, rounds[0]);
      [o] + Trace(o.next, rounds[1..])
  }

  /** The loop variables after running through `rounds`. */
  function Final(st: LoopState, rounds: seq<Round>): LoopState
    decreases |rounds|
  {
    if rounds == [] then st else Final(Step(st, rounds[0]).next, rounds[1..])
  }

  /** Running one more round extends the trace by that round's outcome. */
  lemma {:induction false} TraceSnoc(st: LoopState, rounds: seq<Round>, r: Round)
    ensures Trace(st, rounds + [r]) == Trace(st, rounds) + [Step(Final(st, rounds), r)]
    ensures Final(st, rounds + [r]) == Step(Final(st, rounds), r).next
    decreases |rounds|
  {
    if rounds != [] {
      assert (rounds + [r])[0] == rounds[0];
      assert (rounds + [r])[1..] == rounds[1..] + [r];
      TraceSnoc(Step(st, rounds[0]).next, rounds[1..], r);
    } else {
      assert rounds + [r] == [r];
    }
  }

  /** The `i`-th outcome is the step taken from the state the first `i` rounds lead to. */
  lemma {:induction false} TraceAt(st: LoopState, rounds: seq<Round>, i: nat)
    requires i < |rounds|
    ensures Trace(st, rounds)[i] == Step(Final(st, rounds[..i]), rounds[i])
    decreases i
  {
    if i > 0 {
      var next := Step(st, rounds[0]).next;
      TraceAt(next, rounds[1..], i - 1);
      assert rounds[..i][0] == rounds[0];
      assert rounds[..i][1..] == rounds[1..][..i - 1];
    } else {
      assert rounds[..0] == [];
    }
  }

  /**
   * The pre-refresh wait is three quarters of the remaining time, rounded
   * toward zero to a multiple of three nanoseconds: it is slept exactly when
   * at least four nanoseconds remain, never when the expiry has passed, and
   * always ends before the expiry.
   */
  lemma WaitBounds(expiresAt: int, now: int)
    ensures var w := PreRefreshWait(expiresAt, now); var remaining := expiresAt - now;
      (w > 0 <==> remaining >= 4) &&
      (remaining <= 0 ==> w <= 0) &&
      (remaining >= 0 ==> 4 * w <= 3 * remaining < 4 * w + 12) &&
      (remaining > 0 ==> 0 <= w < remaining)
  {
  }

  /**
   * A one-hour session is first refreshed after three quarters of the hour
   * still left when the first iteration reads the clock: exactly 45 minutes
   * when that reading equals the start clock, and in general within a few
   * nanoseconds of three quarters of the remaining time.
   */
  lemma HourSessionFirstWait(session: Session, startedAt: int, r: Round)
    requires session.expiresIn == 3600
    requires startedAt <= r.now <= startedAt + 3600 * Second
    ensures r.now == startedAt ==> Step(Started(session, startedAt), r).waited == Some(2700 * Second)
    ensures var w := PreRefreshWait(Started(session, startedAt).expiresAt, r.now);
      var left := 3600 * Second - (r.now - startedAt);
      4 * w <= 3 * left < 4 * w + 12 &&
      Step(Started(session, startedAt), r).waited == (if w > 0 then Some(w) else None)
  {
    WaitBounds(Started(session, startedAt).expiresAt, r.now);
  }

  /**
   * A run of failures only counts them: the `i`-th failure backs off for
   * `BackoffDelay(attempt + i + 1)`, and the session and expiry stay as they
   * were, so every retry sends the same refresh token.
   */
  lemma {:induction false} FailureStreak(st: LoopState, rounds: seq<Round>)
    requires forall i :: 0 <= i < |rounds| ==> rounds[i].reply.Refused?
    ensures Final(st, rounds) == st.(attempt := st.attempt + |rounds|)
    ensures forall i :: 0 <= i < |rounds| ==>
      Trace(st, rounds)[i].backoff == Some(BackoffDelay(st.attempt + i + 1)) &&
      Trace(st, rounds)[i].sentToken == st.session.refreshToken &&
      Trace(st, rounds)[i].next == st.(attempt := st.attempt + i + 1)
    decreases |rounds|
  {
    if rounds != [] {
      var o := Step(st, rounds[0]);
      assert o.next == st.(attempt := st.attempt + 1);
      FailureStreak(o.next, rounds[1..]);
      var os := Trace(st, rounds);
      assert os == [o] + Trace(o.next, rounds[1..]);
      forall i | 0 < i < |rounds|
        ensures os[i].backoff == Some(BackoffDelay(st.attempt + i + 1))
        ensures os[i].sentToken == st.session.refreshToken
        ensures os[i].next == st.(attempt := st.attempt + i + 1)
      {
        assert os[i] == Trace(o.next, rounds[1..])[i - 1];
      }
    }
  }

  /**
   * Starting from a fresh counter, consecutive failures sleep 2, 4 and 8
   * seconds, and every failure after the third sleeps 30 seconds.
   */
  lemma BackoffSchedule(st: LoopState, rounds: seq<Round>)
    requires st.attempt == 0
    requires forall i :: 0 <= i < |rounds| ==> rounds[i].reply.Refused?
    ensures |rounds| > 0 ==> Trace(st, rounds)[0].backoff == Some(2 * Second)
    ensures |rounds| > 1 ==> Trace(st, rounds)[1].backoff == Some(4 * Second)
    ensures |rounds| > 2 ==> Trace(st, rounds)[2].backoff == Some(8 * Second)
    ensures forall i :: 3 <= i < |rounds| ==> Trace(st, rounds)[i].backoff == Some(FixedBackoff)
  {
    FailureStreak(st, rounds);
  }

  /**
   * A success after any number of failures resets the counter, adopts the
   * new session and measures its expiry from the moment it was adopted; the
   * successful request still sent the refresh token the streak started with.
   */
  lemma RecoveryAfterFailures(st: LoopState, failures: seq<Round>, r: Round)
    requires forall i :: 0 <= i < |failures| ==> failures[i].reply.Refused?
    requires r.reply.Granted?
    ensures Final(st, failures + [r]) == LoopState(0, r.reply.session, r.finishedAt + r.reply.session.expiresIn * Second)
    ensures Trace(st, failures + [r])[|failures|].backoff == None
    ensures Trace(st, failures + [r])[|failures|].sentToken == st.session.refreshToken
  {
    FailureStreak(st, failures);
    TraceSnoc(st, failures, r);
  }

  /**
   * A failure does not bring the expiry closer, so each retry first sleeps
   * three quarters of the time left until the same expiry, and only then
   * asks again: retries are spaced by the backoff plus that wait, not by
   * the backoff alone.
   */
  lemma RetriesWaitAgain(st: LoopState, rounds: seq<Round>)
    requires forall i :: 0 <= i < |rounds| - 1 ==> rounds[i].reply.Refused?
    ensures forall i :: 0 <= i < |rounds| ==>
      Trace(st, rounds)[i].waited ==
        if PreRefreshWait(st.expiresAt, rounds[i].now) > 0 then Some(PreRefreshWait(st.expiresAt, rounds[i].now)) else None
  {
    forall i | 0 <= i < |rounds|
      ensures Trace(st, rounds)[i].waited ==
        if PreRefreshWait(st.expiresAt, rounds[i].now) > 0 then Some(PreRefreshWait(st.expiresAt, rounds[i].now)) else None
    {
      TraceAt(st, rounds, i);
      FailureStreak(st, rounds[..i]);
    }
  }

  /**
   * The loop accepts a starting session whose lifetime is not positive, and
   * then skips the wait on its first iteration and on every retry until a
   * new session arrives.
   */
  lemma NonPositiveStartSkipsWait(session: Session, startedAt: int, later: seq<Round>)
    requires session.expiresIn <= 0
    requires forall i :: 0 <= i < |later| ==> later[i].now >= startedAt
    requires forall i :: 0 <= i < |later| - 1 ==> later[i].reply.Refused?
    ensures forall i :: 0 <= i < |later| ==> Trace(Started(session, startedAt), later)[i].waited == None
  {
    var st := Started(session, startedAt);
    RetriesWaitAgain(st, later);
    forall i | 0 <= i < |later|
      ensures Trace(st, later)[i].waited == None
    {
      WaitBounds(st.expiresAt, later[i].now);
    }
  }

  /**
   * A session whose lifetime is not positive is refreshed without a pause:
   * the iteration after it is adopted, and every retry after that until a
   * new session arrives, skips the wait.
   */
  lemma NonPositiveLifetimeSkipsWait(st: LoopState, r: Round, later: seq<Round>)
    requires r.reply.Granted? && r.reply.session.expiresIn <= 0
    requires forall i :: 0 <= i < |later| ==> later[i].now >= r.finishedAt
    requires forall i :: 0 <= i < |later| - 1 ==> later[i].reply.Refused?
    ensures forall i :: 0 <= i < |later| ==> Trace(Step(st, r).next, later)[i].waited == None
  {
    var adopted := Step(st, r).next;
    RetriesWaitAgain(adopted, later);
    forall i | 0 <= i < |later|
      ensures Trace(adopted, later)[i].waited == None
    {
      WaitBounds(adopted.expiresAt, later[i].now);
    }
  }
}
