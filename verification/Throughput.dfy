/** The limiter as the ingest endpoint uses it: keyed by an 8-character token prefix that tokens share, and
    spent by requests that are later refused, it still bounds every single webhook. */
module Throughput {
  import opened Prelude
  import opened Deduplication
  import opened Models
  import opened RateLimiter
  import opened Webhooks
  import opened GatewayRuns
  import opened Ledger

  /** The limiter's view of a run. */
  function Attempts(ops: seq<GatewayOp>): seq<Request> {
    if ops == [] then []
    else
      var op := ops[|ops| - 1];
      Attempts(ops[..|ops| - 1]) + if op.Deliver? then [Request(LimitKey(op.token), op.at)] else []
  }

  function AdmittedIn(w: World, ops: seq<GatewayOp>): seq<Request> {
    RunAll(w.cfg.webhookRateLimit, Attempts(ops)).admitted
  }

  /** The stored windows of a gateway run are those of the limiter run it contains. */
  lemma {:induction false} LimitsAreTheLimiters(w: World, ops: seq<GatewayOp>)
    ensures Run(w, ops).limits == RunAll(w.cfg.webhookRateLimit, Attempts(ops)).limits
  {
    if ops == [] {
    } else {
      var init, op := ops[..|ops| - 1], ops[|ops| - 1];
      LimitsAreTheLimiters(w, init);
      BooksAlwaysBalance(w, init);
      StepLimits(w, Run(w, init), op);
      hide Step, Check, Books;
      if op.Deliver? {
        var r := Request(LimitKey(op.token), op.at);
        assert (Attempts(init) + [r])[..|Attempts(init)|] == Attempts(init);
      } else {
        assert Attempts(ops) == Attempts(init);
      }
    }
  }

  lemma StepLimits(w: World, db: Db, op: GatewayOp)
    requires Schema(db)
    ensures Step(w, db, op).limits ==
              if op.Deliver?
              then Check(db.limits, LimitKey(op.token), w.cfg.webhookRateLimit, op.at, WINDOW_SECONDS).0
              else db.limits
  {
    match op
    case TunnelOp(op') => TunnelEffect(w, db, op');
    case Create(_, _) => WebhookOpEffect(w, db, op);
    case Rotate(_, _) => WebhookOpEffect(w, db, op);
    case Deliver(_, _, _, _, _) => DeliverEffect(w, db, op);
  }

  function Keyed(key: string, during: Time -> bool): Request -> bool {
    (r: Request) => r.key == key && during(r.at)
  }

  function TokenDuring(token: string, during: Time -> bool): Delivery -> bool {
    (x: Delivery) => x.fate.Accepted? && x.token == token && during(x.at)
  }

  function WebhookDuring(webhook: nat, during: Time -> bool): Delivery -> bool {
    (x: Delivery) => x.fate.Accepted? && x.fate.webhook == webhook && during(x.at)
  }

  /** Every accepted delivery is an admitted request under its token's prefix. */
  lemma {:induction false} AcceptedWereAdmitted(w: World, ops: seq<GatewayOp>, token: string, during: Time -> bool)
    ensures Count(History(w, ops), TokenDuring(token, during))
            <= Count(AdmittedIn(w, ops), Keyed(LimitKey(token), during))
  {
    hide AdmittedIn, FateOf, Run;
    if ops == [] {
    } else {
      var init, op := ops[..|ops| - 1], ops[|ops| - 1];
      assert ops == init + [op];
      AcceptedWereAdmitted(w, init, token, during);
      if op.Deliver? {
        DeliveryAdmitted(w, init, op);
        var r, x := Request(LimitKey(op.token), op.at), Delivery(op.token, op.at, FateOf(w, Run(w, init), op));
        assert History(w, ops) == History(w, init) + [x];
        CountAppend(History(w, init), x, TokenDuring(token, during));
        CountAppend(AdmittedIn(w, init), r, Keyed(LimitKey(token), during));
      } else {
        NothingAttempted(w, init, op);
        assert History(w, ops) == History(w, init);
      }
    }
  }

  lemma NothingAttempted(w: World, init: seq<GatewayOp>, op: GatewayOp)
    requires !op.Deliver?
    ensures AdmittedIn(w, init + [op]) == AdmittedIn(w, init)
  {
    assert (init + [op])[..|init|] == init;
    assert Attempts(init + [op]) == Attempts(init);
  }

  lemma DeliveryAdmitted(w: World, init: seq<GatewayOp>, op: GatewayOp)
    requires op.Deliver?
    ensures var r := Request(LimitKey(op.token), op.at);
            var ops := init + [op];
            && AdmittedIn(w, ops) ==
                 (if FateOf(w, Run(w, init), op).Limited? then AdmittedIn(w, init) else AdmittedIn(w, init) + [r])
  {
    var r := Request(LimitKey(op.token), op.at);
    BooksAlwaysBalance(w, init);
    LimitsAreTheLimiters(w, init);
    DeliverEffect(w, Run(w, init), op);
    assert (init + [op])[..|init|] == init;
    assert Attempts(init + [op]) == Attempts(init) + [r];
    assert (Attempts(init) + [r])[..|Attempts(init)|] == Attempts(init);
    hide FateOf, Run, Step, Books, Check;
  }

  /** With collision-free hashes one webhook answers to one token. */
  lemma WebhookHasOneToken(w: World, ops: seq<GatewayOp>, i: nat, token: string)
    requires Injective(w.env.sha256)
    requires i < |Run(w, ops).webhooks| && Run(w, ops).webhooks[i].tokenHash == w.env.sha256(token)
    ensures forall x | x in History(w, ops) && x.fate.Accepted? && x.fate.webhook == i :: x.token == token
  {
    BooksAlwaysBalance(w, ops);
    var ws, h := Run(w, ops).webhooks, History(w, ops);
    assert forall x | x in h && x.fate.Accepted? :: Traceable(w, ws, x);
  }

  lemma WebhookWithinBudget(w: World, ops: seq<GatewayOp>, i: nat, during: Time -> bool, n: nat)
    requires Injective(w.env.sha256) && i < |Run(w, ops).webhooks|
    requires forall key :: Count(AdmittedIn(w, ops), Keyed(key, during)) <= n
    ensures Count(History(w, ops), WebhookDuring(i, during)) <= n
  {
    var h := History(w, ops);
    if x :| x in h && x.fate.Accepted? && x.fate.webhook == i {
      BooksAlwaysBalance(w, ops);
      assert Traceable(w, Run(w, ops).webhooks, x);
      WebhookHasOneToken(w, ops, i, x.token);
      CountMono(h, WebhookDuring(i, during), TokenDuring(x.token, during));
      AcceptedWereAdmitted(w, ops, x.token, during);
    } else {
      CountNone(h, WebhookDuring(i, during));
    }
  }

  // ---- growth of called_count ----

  function CalledCount(db: Db, i: nat): int {
    if i < |db.webhooks| then db.webhooks[i].calledCount else 0
  }

  lemma CalledCountCounts(w: World, ops: seq<GatewayOp>, i: nat)
    ensures CalledCount(Run(w, ops), i) == Count(History(w, ops), AcceptedBy(i))
  {
    BooksAlwaysBalance(w, ops);
    var ws, h := Run(w, ops).webhooks, History(w, ops);
    if i >= |ws| {
      assert forall x | x in h && x.fate.Accepted? :: Traceable(w, ws, x);
      CountNone(h, AcceptedBy(i));
    }
  }

  /** Later requests only append to the history, one entry per delivery. */
  lemma {:induction false} HistoryExtends(
      w: World, before: seq<GatewayOp>, more: seq<GatewayOp>, during: Time -> bool)
    requires forall op | op in more && op.Deliver? :: during(op.at)
    ensures History(w, before) <= History(w, before + more)
    ensures forall k | |History(w, before)| <= k < |History(w, before + more)| ::
              during(History(w, before + more)[k].at)
  {
    if more == [] {
      assert before + more == before;
    } else {
      var init, op := more[..|more| - 1], more[|more| - 1];
      HistoryExtends(w, before, init, during);
      assert (before + more)[..|before + more| - 1] == before + init;
      hide FateOf, Run;
    }
  }

  lemma GrowthWithin(
      w: World, before: seq<GatewayOp>, more: seq<GatewayOp>, i: nat, during: Time -> bool, n: nat)
    requires Injective(w.env.sha256)
    requires forall op | op in more && op.Deliver? :: during(op.at)
    requires forall key :: Count(AdmittedIn(w, before + more), Keyed(key, during)) <= n
    ensures CalledCount(Run(w, before + more), i) - CalledCount(Run(w, before), i) <= n
  {
    var h1, h := History(w, before), History(w, before + more);
    CalledCountCounts(w, before, i);
    CalledCountCounts(w, before + more, i);
    if i < |Run(w, before + more).webhooks| {
      HistoryExtends(w, before, more, during);
      WebhookWithinBudget(w, before + more, i, during, n);
      hide History, Run;
      CountGained(h1, h, AcceptedBy(i), WebhookDuring(i, during));
    }
  }

  function DuringMinute(m: Time): Time -> bool {
    (at: Time) => WindowStart(at) == m
  }

  function DuringInterval(t: Time): Time -> bool {
    (at: Time) => t <= at < t + MINUTE
  }

  /** While all deliveries fall in one clock minute, no webhook's `called_count` grows by more than the limit,
      whatever other tokens share its prefix and whatever else happens in between. */
  lemma MinuteThroughput(w: World, before: seq<GatewayOp>, more: seq<GatewayOp>, i: nat, m: Time)
    requires Injective(w.env.sha256)
    requires forall op | op in more && op.Deliver? :: WindowStart(op.at) == m
    ensures CalledCount(Run(w, before + more), i) - CalledCount(Run(w, before), i)
            <= Max(w.cfg.webhookRateLimit, 1)
  {
    var ops, limit := before + more, w.cfg.webhookRateLimit;
    forall key
      ensures Count(AdmittedIn(w, ops), Keyed(key, DuringMinute(m))) <= Max(limit, 1)
    {
      WindowAdmitsExactly(limit, Attempts(ops), key, m);
      CountMono(AdmittedIn(w, ops), Keyed(key, DuringMinute(m)), InWindow(key, m));
    }
    hide WindowStart, AdmittedIn;
    GrowthWithin(w, before, more, i, DuringMinute(m), Max(limit, 1));
  }

  /** While all deliveries fall in any 60-second interval, it grows by at most twice the limit. */
  lemma IntervalThroughput(w: World, before: seq<GatewayOp>, more: seq<GatewayOp>, i: nat, t: Time)
    requires Injective(w.env.sha256)
    requires forall op | op in more && op.Deliver? :: t <= op.at < t + MINUTE
    ensures CalledCount(Run(w, before + more), i) - CalledCount(Run(w, before), i)
            <= 2 * Max(w.cfg.webhookRateLimit, 1)
  {
    var ops, limit := before + more, w.cfg.webhookRateLimit;
    forall key
      ensures Count(AdmittedIn(w, ops), Keyed(key, DuringInterval(t))) <= 2 * Max(limit, 1)
    {
      IntervalAdmitsAtMost(limit, Attempts(ops), key, t);
      CountMono(AdmittedIn(w, ops), Keyed(key, DuringInterval(t)), InInterval(key, t));
    }
    hide AdmittedIn;
    GrowthWithin(w, before, more, i, DuringInterval(t), 2 * Max(limit, 1));
  }
}
