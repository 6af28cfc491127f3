/** app/utils/rate_limiter.py: a fixed-window limiter whose windows are clock minutes. */
module RateLimiter {
  import opened Prelude
  import opened Models

  type Limits = map<(string, Time), int>

  /** `now.replace(second=0, microsecond=0)`. */
  function WindowStart(now: Time): Time {
    now - now % MINUTE
  }

  /** `int(...)` of a non-integral number of seconds truncates toward zero. */
  function WholeSeconds(t: Time): int {
    if t >= 0 then t / SECOND else -(-t / SECOND)
  }

  datatype Verdict = Admitted | Rejected(retryAfter: int)

  /** The stored windows and the verdict after one check. */
  function Check(limits: Limits, key: string, limit: int, now: Time, windowSeconds: int): (Limits, Verdict) {
    var w := WindowStart(now);
    if (key, w) !in limits then (limits[(key, w) := 1], Admitted)
    else if limits[(key, w)] >= limit then
      (limits, Rejected(Max(WholeSeconds(w + windowSeconds * SECOND - now), 1)))
    else (limits[(key, w) := limits[(key, w)] + 1], Admitted)
  }

  method CheckRateLimit(db: Session, key: string, limit: int, now: Time, windowSeconds: int)
    returns (r: Result<(), Error>)
    requires db.Clean() && Schema(db.store)
    modifies db
    ensures db.Clean()
    ensures var (limits, verdict) := Check(old(db.store.limits), key, limit, now, windowSeconds);
            && db.store == old(db.store).(limits := limits)
            && (r.Ok? <==> verdict.Admitted?)
            && (verdict.Rejected? ==> r == Err(RateLimited(verdict.retryAfter)))
  {
    var w := WindowStart(now);
    if (key, w) !in db.pending.limits {
      db.pending := db.pending.(limits := db.pending.limits[(key, w) := 1]);
      var ok := db.Commit();
      return Ok(());
    }
    var count := db.pending.limits[(key, w)];
    if count >= limit {
      var retryAfter := WholeSeconds(w + windowSeconds * SECOND - now);
      return Err(RateLimited(Max(retryAfter, 1)));
    }
    db.pending := db.pending.(limits := db.pending.limits[(key, w) := count + 1]);
    var ok := db.Commit();
    return Ok(());
  }

  // ---- timed runs ----

  const WINDOW_SECONDS := 60

  datatype Request = Request(key: string, at: Time)

  datatype Timeline = Timeline(limits: Limits, admitted: seq<Request>)

  /** Any requests, for any keys, at any times (the clock may even step back), under one limit. */
  function RunAll(limit: int, reqs: seq<Request>): Timeline {
    if reqs == [] then Timeline(map[], [])
    else
      var before, r := RunAll(limit, reqs[..|reqs| - 1]), reqs[|reqs| - 1];
      var (limits, verdict) := Check(before.limits, r.key, limit, r.at, WINDOW_SECONDS);
      Timeline(limits, if verdict.Admitted? then before.admitted + [r] else before.admitted)
  }

  function InWindow(key: string, w: Time): Request -> bool {
    (r: Request) => r.key == key && WindowStart(r.at) == w
  }

  /** The half-open minute that starts at t, wherever t lies in its clock minute. */
  function InInterval(key: string, t: Time): Request -> bool {
    (r: Request) => r.key == key && t <= r.at < t + MINUTE
  }

  function StoredCount(limits: Limits, key: string, w: Time): int {
    if (key, w) in limits then limits[(key, w)] else 0
  }

  /** One check: the window's counter moves exactly when the request is admitted, and it is admitted exactly
      while the counter is below max(limit, 1). */
  lemma CheckMovesCounter(limits: Limits, r: Request, limit: int, key: string, w: Time)
    requires (key, w) in limits ==> limits[(key, w)] >= 1
    ensures var (limits', verdict) := Check(limits, r.key, limit, r.at, WINDOW_SECONDS);
            var mine := InWindow(key, w)(r);
            && (mine ==> (verdict.Admitted? <==> StoredCount(limits, key, w) < Max(limit, 1)))
            && StoredCount(limits', key, w) ==
                 StoredCount(limits, key, w) + (if mine && verdict.Admitted? then 1 else 0)
            && ((key, w) in limits' <==> (key, w) in limits || mine)
  {
    hide WindowStart, WholeSeconds;
  }

  /** A window's stored counter is the number of requests admitted in it, which is exactly the number made
      or the limit, whichever is less; the first request of a window passes whatever the limit is. */
  lemma {:induction false} WindowAdmitsExactly(limit: int, reqs: seq<Request>, key: string, w: Time)
    ensures var run := RunAll(limit, reqs);
            && StoredCount(run.limits, key, w) == Count(run.admitted, InWindow(key, w))
            && Count(run.admitted, InWindow(key, w)) == Min(Count(reqs, InWindow(key, w)), Max(limit, 1))
            && ((key, w) in run.limits <==> Count(reqs, InWindow(key, w)) > 0)
  {
    hide Check, InWindow;
    if reqs == [] {
    } else {
      var init, r := reqs[..|reqs| - 1], reqs[|reqs| - 1];
      WindowAdmitsExactly(limit, init, key, w);
      CheckMovesCounter(RunAll(limit, init).limits, r, limit, key, w);
      CountAppend(RunAll(limit, init).admitted, r, InWindow(key, w));
    }
  }

  lemma IntervalMeetsTwoWindows(key: string, t: Time, r: Request)
    requires InInterval(key, t)(r)
    ensures InWindow(key, WindowStart(t))(r) || InWindow(key, WindowStart(t) + MINUTE)(r)
  {
  }

  /** Any 60-second interval, aligned or not, admits at most twice the limit. */
  lemma IntervalAdmitsAtMost(limit: int, reqs: seq<Request>, key: string, t: Time)
    ensures Count(RunAll(limit, reqs).admitted, InInterval(key, t)) <= 2 * Max(limit, 1)
  {
    var admitted, w := RunAll(limit, reqs).admitted, WindowStart(t);
    WindowAdmitsExactly(limit, reqs, key, w);
    WindowAdmitsExactly(limit, reqs, key, w + MINUTE);
    forall r | r in admitted && InInterval(key, t)(r)
      ensures InWindow(key, w)(r) || InWindow(key, w + MINUTE)(r)
    {
      IntervalMeetsTwoWindows(key, t, r);
    }
    CountCover(admitted, InInterval(key, t), InWindow(key, w), InWindow(key, w + MINUTE));
  }

  function Burst(key: string, at: Time, n: nat): (reqs: seq<Request>)
    ensures |reqs| == n && forall i | 0 <= i < n :: reqs[i] == Request(key, at)
  {
    seq(n, _ => Request(key, at))
  }

  lemma {:induction false} AdmittedAreRequests(limit: int, reqs: seq<Request>)
    ensures forall r | r in RunAll(limit, reqs).admitted :: r in reqs
  {
    if reqs == [] {
    } else {
      AdmittedAreRequests(limit, reqs[..|reqs| - 1]);
    }
  }

  /** The bound is attained for every limit: a burst ends one minute and another opens the next. */
  lemma IntervalBoundIsTight(limit: int, key: string)
    ensures exists reqs, t :: Count(RunAll(limit, reqs).admitted, InInterval(key, t)) == 2 * Max(limit, 1)
  {
    var n: nat := Max(limit, 1);
    var late, early := Burst(key, MINUTE - 1, n), Burst(key, MINUTE, n);
    var reqs := late + early;
    var admitted := RunAll(limit, reqs).admitted;
    BurstsFillWindows(limit, key, n);
    AdmittedAreRequests(limit, reqs);
    hide RunAll, Count, WindowStart;
    assert forall r | r in admitted :: InInterval(key, MINUTE - 1)(r);
    CountAll(admitted, InInterval(key, MINUTE - 1));
    CountDisjoint(admitted, InWindow(key, 0), InWindow(key, MINUTE));
    IntervalAdmitsAtMost(limit, reqs, key, MINUTE - 1);
    assert Count(RunAll(limit, reqs).admitted, InInterval(key, MINUTE - 1)) == 2 * Max(limit, 1);
  }

  lemma BurstsFillWindows(limit: int, key: string, n: nat)
    requires n == Max(limit, 1)
    ensures var admitted := RunAll(limit, Burst(key, MINUTE - 1, n) + Burst(key, MINUTE, n)).admitted;
            Count(admitted, InWindow(key, 0)) == n && Count(admitted, InWindow(key, MINUTE)) == n
  {
    var late, early := Burst(key, MINUTE - 1, n), Burst(key, MINUTE, n);
    CountConcat(late, early, InWindow(key, 0));
    CountConcat(late, early, InWindow(key, MINUTE));
    CountAll(late, InWindow(key, 0));
    CountNone(early, InWindow(key, 0));
    CountNone(late, InWindow(key, MINUTE));
    CountAll(early, InWindow(key, MINUTE));
    WindowAdmitsExactly(limit, late + early, key, 0);
    WindowAdmitsExactly(limit, late + early, key, MINUTE);
  }

  /** A rejection stores nothing and asks for 1 to 60 seconds. Because the wait is floored, waiting exactly
      that long reaches the next window only when the window ends within a second or at a whole number of
      seconds from now; one second more always does. */
  lemma RejectionWait(limits: Limits, key: string, limit: int, now: Time)
    requires Check(limits, key, limit, now, WINDOW_SECONDS).1.Rejected?
    ensures var (limits', verdict) := Check(limits, key, limit, now, WINDOW_SECONDS);
            var end := WindowStart(now) + MINUTE;
            && limits' == limits
            && 1 <= verdict.retryAfter <= 60
            && now + (verdict.retryAfter + 1) * SECOND > end
            && (now + verdict.retryAfter * SECOND >= end <==> end - now <= SECOND || (end - now) % SECOND == 0)
  {
    var rem := WindowStart(now) + MINUTE - now;
    assert 0 < rem <= MINUTE;
    assert rem == SECOND * (rem / SECOND) + rem % SECOND;
  }

  lemma WindowsApart(a: Time, now: Time, later: Time)
    requires a <= now && later >= WindowStart(now) + MINUTE
    ensures WindowStart(a) < WindowStart(later)
  {
  }

  /** After a rejection, the same key is admitted again retry_after + 1 seconds later, provided nobody else
      spent that window: no limit is low enough to prevent it. */
  lemma RetryIsAdmitted(limit: int, reqs: seq<Request>, key: string, now: Time)
    requires forall r | r in reqs :: r.at <= now
    requires Check(RunAll(limit, reqs).limits, key, limit, now, WINDOW_SECONDS).1.Rejected?
    ensures var limits := RunAll(limit, reqs).limits;
            var wait := Check(limits, key, limit, now, WINDOW_SECONDS).1.retryAfter;
            Check(limits, key, limit, now + (wait + 1) * SECOND, WINDOW_SECONDS).1 == Admitted
  {
    var limits := RunAll(limit, reqs).limits;
    RejectionWait(limits, key, limit, now);
    var later := now + (Check(limits, key, limit, now, WINDOW_SECONDS).1.retryAfter + 1) * SECOND;
    forall r | r in reqs
      ensures !InWindow(key, WindowStart(later))(r)
    {
      WindowsApart(r.at, now, later);
    }
    hide WindowStart, WholeSeconds, RunAll, Count;
    WindowAdmitsExactly(limit, reqs, key, WindowStart(later));
    CountNone(reqs, InWindow(key, WindowStart(later)));
  }

  /** Under the same assumption, waiting exactly as announced is enough only when the window ends within a second
      or at a whole number of seconds from now. */
  lemma RetryAtAnnouncedTime(limit: int, reqs: seq<Request>, key: string, now: Time)
    requires forall r | r in reqs :: r.at <= now
    requires Check(RunAll(limit, reqs).limits, key, limit, now, WINDOW_SECONDS).1.Rejected?
    ensures var limits := RunAll(limit, reqs).limits;
            var wait := Check(limits, key, limit, now, WINDOW_SECONDS).1.retryAfter;
            var left := WindowStart(now) + MINUTE - now;
            Check(limits, key, limit, now + wait * SECOND, WINDOW_SECONDS).1 == Admitted
            <==> left <= SECOND || left % SECOND == 0
  {
    var limits := RunAll(limit, reqs).limits;
    var later := now + Check(limits, key, limit, now, WINDOW_SECONDS).1.retryAfter * SECOND;
    RejectionWait(limits, key, limit, now);
    if later >= WindowStart(now) + MINUTE {
      forall r | r in reqs
        ensures !InWindow(key, WindowStart(later))(r)
      {
        WindowsApart(r.at, now, later);
      }
      hide WindowStart, WholeSeconds, RunAll, Count;
      WindowAdmitsExactly(limit, reqs, key, WindowStart(later));
      CountNone(reqs, InWindow(key, WindowStart(later)));
    } else {
      SameWindow(now, later);
      hide WindowStart, WholeSeconds, RunAll;
    }
  }

  lemma SameWindow(now: Time, later: Time)
    requires now <= later < WindowStart(now) + MINUTE
    ensures WindowStart(later) == WindowStart(now)
  {
  }

  /** With limit 1, a second request half a second into a minute is told to wait 59 seconds, and a client that
      does so is rejected again. */
  lemma AnnouncedWaitTooShort(key: string)
    ensures var limits := RunAll(1, [Request(key, 0)]).limits;
            var now := SECOND / 2;
            && Check(limits, key, 1, now, WINDOW_SECONDS).1 == Rejected(59)
            && Check(limits, key, 1, now + 59 * SECOND, WINDOW_SECONDS).1.Rejected?
  {
    var reqs := [Request(key, 0)];
    assert reqs[..0] == [];
    assert RunAll(1, []).limits == map[];
    assert RunAll(1, reqs).limits == map[(key, 0) := 1];
  }
}
