/** The order in which deliveries arrive decides which event is stored first, but no counter. */
module Reordering {
  import opened Prelude
  import opened Models
  import opened RateLimiter
  import opened Webhooks
  import opened GatewayRuns
  import opened Ledger
  import opened Tokens
  import opened Throughput

  /** What an accepted delivery is counted as. */
  datatype Receipt = Receipt(webhook: nat, deviceId: string, eventId: string)

  function ReceiptsOf(x: Delivery): seq<Receipt> {
    if x.fate.Accepted? then [Receipt(x.fate.webhook, x.fate.event.deviceId, x.fate.event.eventId)] else []
  }

  function Receipts(h: seq<Delivery>): seq<Receipt> {
    FlatMap(h, ReceiptsOf)
  }

  function ByWebhook(i: nat): Receipt -> bool {
    (r: Receipt) => r.webhook == i
  }

  function ForDevice(d: string): Receipt -> bool {
    (r: Receipt) => r.deviceId == d
  }

  function KeyOf(r: Receipt): (string, string) {
    (r.deviceId, r.eventId)
  }

  lemma {:induction false} ReceiptsTellCounts(h: seq<Delivery>, i: nat, d: string)
    ensures Count(h, AcceptedBy(i)) == Count(Receipts(h), ByWebhook(i))
    ensures Count(h, AcceptedFor(d)) == Count(Receipts(h), ForDevice(d))
  {
    if h == [] {
    } else {
      var init, x := h[..|h| - 1], h[|h| - 1];
      ReceiptsTellCounts(init, i, d);
      var before := Receipts(init);
      assert Receipts(h) == before + ReceiptsOf(x);
      CountConcat(before, ReceiptsOf(x), ByWebhook(i));
      CountConcat(before, ReceiptsOf(x), ForDevice(d));
    }
  }

  function Keys(rs: seq<Receipt>): set<(string, string)> {
    set r | r in rs :: KeyOf(r)
  }

  lemma {:induction false} ReceiptsTellKeys(h: seq<Delivery>)
    ensures Delivered(h) == Keys(Receipts(h))
  {
    if h == [] {
    } else {
      var init, x := h[..|h| - 1], h[|h| - 1];
      ReceiptsTellKeys(init);
      assert Receipts(h) == Receipts(init) + ReceiptsOf(x);
      KeysConcat(Receipts(init), ReceiptsOf(x));
      KeysOfReceipt(x);
    }
  }

  lemma KeysOfReceipt(x: Delivery)
    ensures Keys(ReceiptsOf(x)) == if x.fate.Accepted? then {EventKey(x.fate.event)} else {}
  {
    if x.fate.Accepted? {
      var r := Receipt(x.fate.webhook, x.fate.event.deviceId, x.fate.event.eventId);
      assert forall y | y in [r] :: y == r;
      assert r in [r];
    }
  }

  lemma KeysConcat(a: seq<Receipt>, b: seq<Receipt>)
    ensures Keys(a + b) == Keys(a) + Keys(b)
  {
  }

  lemma SameKeys(a: seq<Receipt>, b: seq<Receipt>)
    requires multiset(a) == multiset(b)
    ensures Keys(a) == Keys(b)
  {
    forall r
      ensures r in a <==> r in b
    {
      assert r in a <==> r in multiset(a);
      assert r in b <==> r in multiset(b);
    }
  }

  lemma SameReceiptsSameDevice(w: World, ops: seq<GatewayOp>, ops': seq<GatewayOp>, d: string)
    requires multiset(Receipts(History(w, ops))) == multiset(Receipts(History(w, ops')))
    requires d in Run(w, ops).devices && d in Run(w, ops').devices
    ensures Run(w, ops).devices[d].webhookCount == Run(w, ops').devices[d].webhookCount
    ensures CalledSum(Run(w, ops).webhooks, d) == CalledSum(Run(w, ops').webhooks, d)
    ensures Count(History(w, ops), DuplicateFor(d)) == Count(History(w, ops'), DuplicateFor(d))
  {
    hide Run, History, CalledSum;
    var h, h' := History(w, ops), History(w, ops');
    CountersCount(w, ops, d);
    CountersCount(w, ops', d);
    ReceiptsTellKeys(h);
    ReceiptsTellKeys(h');
    SameKeys(Receipts(h), Receipts(h'));
    ReceiptsTellCounts(h, 0, d);
    ReceiptsTellCounts(h', 0, d);
    CountPermuted(Receipts(h), Receipts(h'), ForDevice(d));
    hide Count, Receipts;
    assert IdsOf(h, d) == IdsOf(h', d);
  }

  lemma SameReceiptsSameWebhook(w: World, ops: seq<GatewayOp>, ops': seq<GatewayOp>, i: nat)
    requires multiset(Receipts(History(w, ops))) == multiset(Receipts(History(w, ops')))
    requires i < |Run(w, ops).webhooks| && i < |Run(w, ops').webhooks|
    ensures Run(w, ops).webhooks[i].calledCount == Run(w, ops').webhooks[i].calledCount
  {
    var h, h' := History(w, ops), History(w, ops');
    BooksAlwaysBalance(w, ops);
    BooksAlwaysBalance(w, ops');
    hide Run, History;
    ReceiptsTellCounts(h, i, "");
    ReceiptsTellCounts(h', i, "");
    CountPermuted(Receipts(h), Receipts(h'), ByWebhook(i));
  }

  /** Runs whose accepted deliveries are the same up to order end with the same counters. */
  lemma SameReceiptsSameCounters(w: World, ops: seq<GatewayOp>, ops': seq<GatewayOp>)
    requires multiset(Receipts(History(w, ops))) == multiset(Receipts(History(w, ops')))
    ensures var db, db' := Run(w, ops), Run(w, ops');
            && (forall d | d in db.devices && d in db'.devices ::
                  && db.devices[d].webhookCount == db'.devices[d].webhookCount
                  && CalledSum(db.webhooks, d) == CalledSum(db'.webhooks, d)
                  && Count(History(w, ops), DuplicateFor(d)) == Count(History(w, ops'), DuplicateFor(d)))
            && (forall i: nat | i < |db.webhooks| && i < |db'.webhooks| ::
                  db.webhooks[i].calledCount == db'.webhooks[i].calledCount)
  {
    hide *;
    var db, db' := Run(w, ops), Run(w, ops');
    forall d | d in db.devices && d in db'.devices
      ensures db.devices[d].webhookCount == db'.devices[d].webhookCount
           && CalledSum(db.webhooks, d) == CalledSum(db'.webhooks, d)
           && Count(History(w, ops), DuplicateFor(d)) == Count(History(w, ops'), DuplicateFor(d))
    {
      SameReceiptsSameDevice(w, ops, ops', d);
    }
    forall i: nat | i < |db.webhooks| && i < |db'.webhooks|
      ensures db.webhooks[i].calledCount == db'.webhooks[i].calledCount
    {
      SameReceiptsSameWebhook(w, ops, ops', i);
    }
  }

  // ---- permuting the deliveries of a run ----

  predicate OnlyDeliveries(ops: seq<GatewayOp>) {
    forall op | op in ops :: op.Deliver?
  }

  /** The limiter let every one of these deliveries through. */
  predicate AllAdmitted(w: World, setup: seq<GatewayOp>, ds: seq<GatewayOp>) {
    ds == [] ||
      var init, op := ds[..|ds| - 1], ds[|ds| - 1];
      AllAdmitted(w, setup, init) && op.Deliver? && !FateOf(w, Run(w, setup + init), op).Limited?
  }

  function WindowOf(op: GatewayOp): Request -> bool
    requires op.Deliver?
  {
    InWindow(LimitKey(op.token), WindowStart(op.at))
  }

  /** Each delivery's clock minute has room under its limiter key for all that is attempted in it. */
  ghost predicate Fits(w: World, setup: seq<GatewayOp>, ds: seq<GatewayOp>) {
    forall op | op in ds && op.Deliver? ::
      Count(Attempts(setup + ds), WindowOf(op)) <= Max(w.cfg.webhookRateLimit, 1)
  }

  /** What ingest consults: which devices exist, and each webhook's hash, owner and switch. */
  ghost predicate SameDirectory(a: Db, b: Db) {
    && a.devices.Keys == b.devices.Keys
    && |a.webhooks| == |b.webhooks|
    && forall i | 0 <= i < |a.webhooks| ::
         && a.webhooks[i].tokenHash == b.webhooks[i].tokenHash
         && a.webhooks[i].deviceId == b.webhooks[i].deviceId
         && a.webhooks[i].enabled == b.webhooks[i].enabled
  }

  /** The receipt a delivery earns, limiter aside, from the directory alone. */
  function Earned(w: World, db: Db): GatewayOp -> seq<Receipt> {
    (op: GatewayOp) =>
      if !op.Deliver? || !op.body.Object? || Lookup(w.env, db, op.token).Err? then []
      else
        var i := Lookup(w.env, db, op.token).value;
        var d := db.webhooks[i].deviceId;
        var eventId := EventId(w.env, d, op.body.members);
        if eventId.None? || d !in db.devices then [] else [Receipt(i, d, eventId.value)]
  }

  lemma EarnedByDelivery(w: World, db: Db, op: GatewayOp)
    requires op.Deliver? && !FateOf(w, db, op).Limited?
    ensures ReceiptsOf(Delivery(op.token, op.at, FateOf(w, db, op))) == Earned(w, db)(op)
  {
    hide EventId, EventType, WindowStart, WholeSeconds;
    var (limits, verdict) := Check(db.limits, LimitKey(op.token), w.cfg.webhookRateLimit, op.at, WINDOW_SECONDS);
    assert Lookup(w.env, db.(limits := limits), op.token) == Lookup(w.env, db, op.token);
    hide Lookup;
  }

  lemma EarnedFromDirectory(w: World, a: Db, b: Db, op: GatewayOp)
    requires HashesUnique(a.webhooks) && HashesUnique(b.webhooks) && SameDirectory(a, b) && op.Deliver?
    ensures Earned(w, a)(op) == Earned(w, b)(op)
  {
    LookupIsExact(w.env, a, op.token);
    LookupIsExact(w.env, b, op.token);
    hide Lookup, EventId;
    assert forall i: nat | i < |a.webhooks| ::
             Matches(w.env, a.webhooks[i], op.token) == Matches(w.env, b.webhooks[i], op.token);
  }

  lemma DeliveryKeepsDirectory(w: World, db: Db, op: GatewayOp)
    requires op.Deliver? && Schema(db)
    ensures SameDirectory(db, Step(w, db, op))
  {
    DeliverEffect(w, db, op);
    hide Step, FateOf, Schema, Check;
  }

  lemma DirectoryReflexive(a: Db)
    ensures SameDirectory(a, a)
  {
  }

  lemma DirectoryTransitive(a: Db, b: Db, c: Db)
    requires SameDirectory(a, b) && SameDirectory(b, c)
    ensures SameDirectory(a, c)
  {
  }

  lemma {:induction false} DeliveriesKeepDirectory(w: World, setup: seq<GatewayOp>, ds: seq<GatewayOp>)
    requires OnlyDeliveries(ds)
    ensures SameDirectory(Run(w, setup), Run(w, setup + ds))
  {
    hide Run, Step, SameDirectory, History;
    if ds == [] {
      assert setup + ds == setup;
      DirectoryReflexive(Run(w, setup));
    } else {
      var init, op := ds[..|ds| - 1], ds[|ds| - 1];
      DeliveriesKeepDirectory(w, setup, init);
      assert setup + ds == setup + init + [op];
      OneMore(w, setup + init, op);
      BooksAlwaysBalance(w, setup + init);
      DeliveryKeepsDirectory(w, Run(w, setup + init), op);
      DirectoryTransitive(Run(w, setup), Run(w, setup + init), Run(w, setup + ds));
    }
  }

  /** One more delivery earns what it would have earned before the others. */
  lemma NextReceipt(w: World, setup: seq<GatewayOp>, init: seq<GatewayOp>, op: GatewayOp)
    requires OnlyDeliveries(init) && op.Deliver? && !FateOf(w, Run(w, setup + init), op).Limited?
    ensures ReceiptsOf(Delivery(op.token, op.at, FateOf(w, Run(w, setup + init), op)))
            == Earned(w, Run(w, setup))(op)
  {
    var base, db := Run(w, setup), Run(w, setup + init);
    BooksAlwaysBalance(w, setup);
    BooksAlwaysBalance(w, setup + init);
    assert HashesUnique(base.webhooks) && HashesUnique(db.webhooks);
    hide *;
    DeliveriesKeepDirectory(w, setup, init);
    EarnedFromDirectory(w, base, db, op);
    EarnedByDelivery(w, db, op);
  }

  lemma ReceiptsSnoc(h: seq<Delivery>, x: Delivery)
    ensures Receipts(h + [x]) == Receipts(h) + ReceiptsOf(x)
  {
    FlatMapSnoc(h, x, ReceiptsOf);
  }

  lemma SplitLast(w: World, setup: seq<GatewayOp>, init: seq<GatewayOp>, op: GatewayOp)
    requires OnlyDeliveries(init + [op]) && AllAdmitted(w, setup, init + [op])
    ensures OnlyDeliveries(init) && op.Deliver?
    ensures AllAdmitted(w, setup, init) && !FateOf(w, Run(w, setup + init), op).Limited?
  {
    hide FateOf, Run;
    assert (init + [op])[..|init|] == init;
    assert forall o | o in init :: o in init + [op];
  }

  lemma NothingEarned(earned: GatewayOp -> seq<Receipt>)
    ensures FlatMap([], earned) == []
  {
  }

  lemma {:induction false} ReceiptsOfDeliveries(w: World, setup: seq<GatewayOp>, ds: seq<GatewayOp>)
    requires OnlyDeliveries(ds) && AllAdmitted(w, setup, ds)
    ensures Receipts(History(w, setup + ds)) ==
            Receipts(History(w, setup)) + FlatMap(ds, Earned(w, Run(w, setup)))
    decreases |ds|, 1
  {
    hide *;
    if ds == [] {
      assert setup + ds == setup;
      NothingEarned(Earned(w, Run(w, setup)));
    } else {
      var init, op := ds[..|ds| - 1], ds[|ds| - 1];
      assert ds == init + [op] && setup + ds == setup + init + [op];
      ReceiptsOfOneMore(w, setup, init, op);
    }
  }

  lemma {:induction false} ReceiptsOfOneMore(w: World, setup: seq<GatewayOp>, init: seq<GatewayOp>, op: GatewayOp)
    requires OnlyDeliveries(init + [op]) && AllAdmitted(w, setup, init + [op])
    ensures Receipts(History(w, setup + init + [op])) ==
            Receipts(History(w, setup)) + FlatMap(init + [op], Earned(w, Run(w, setup)))
    decreases |init| + 1, 0
  {
    hide *;
    SplitLast(w, setup, init, op);
    var h, x := History(w, setup + init), Delivery(op.token, op.at, FateOf(w, Run(w, setup + init), op));
    ReceiptsSnoc(h, x);
    OneMore(w, setup + init, op);
    ReceiptsOfDeliveries(w, setup, init);
    NextReceipt(w, setup, init, op);
    FlatMapSnoc(init, op, Earned(w, Run(w, setup)));
  }

  // ---- when the limiter interferes ----

  /** A delivery is turned away by the limiter exactly when its key was tried as often as the limit allows in the
      same clock minute before, admitted or not. */
  lemma LimitedWhen(w: World, before: seq<GatewayOp>, op: GatewayOp)
    requires op.Deliver?
    ensures FateOf(w, Run(w, before), op).Limited? <==>
            Count(Attempts(before), WindowOf(op)) >= Max(w.cfg.webhookRateLimit, 1)
  {
    var db, limit := Run(w, before), w.cfg.webhookRateLimit;
    BooksAlwaysBalance(w, before);
    assert Schema(db);
    DeliverEffect(w, db, op);
    LimitsAreTheLimiters(w, before);
    hide Run, Books, Schema, FateOf, Step, Check;
    var key, m := LimitKey(op.token), WindowStart(op.at);
    WindowAdmitsExactly(limit, Attempts(before), key, m);
    CheckMovesCounter(db.limits, Request(key, op.at), limit, key, m);
  }

  lemma OneMoreAttempt(setup: seq<GatewayOp>, init: seq<GatewayOp>, op: GatewayOp, p: Request -> bool)
    requires op.Deliver?
    ensures Count(Attempts(setup + (init + [op])), p) ==
            Count(Attempts(setup + init), p) + if p(Request(LimitKey(op.token), op.at)) then 1 else 0
  {
    var before, r := setup + init, Request(LimitKey(op.token), op.at);
    assert setup + (init + [op]) == before + [op];
    assert (before + [op])[..|before|] == before;
    CountAppend(Attempts(before), r, p);
  }

  lemma FitsOneMore(w: World, setup: seq<GatewayOp>, init: seq<GatewayOp>, op: GatewayOp)
    requires op.Deliver?
    ensures Fits(w, setup, init + [op]) <==>
            Fits(w, setup, init) && Count(Attempts(setup + init), WindowOf(op)) < Max(w.cfg.webhookRateLimit, 1)
  {
    hide Attempts, Count, LimitKey, WindowStart;
    var ds, limit := init + [op], Max(w.cfg.webhookRateLimit, 1);
    assert forall o :: o in ds <==> o in init || o == op;
    OneMoreAttempt(setup, init, op, WindowOf(op));
    forall o | o in init && o.Deliver?
      ensures Count(Attempts(setup + ds), WindowOf(o)) >= Count(Attempts(setup + init), WindowOf(o))
      ensures WindowOf(o)(Request(LimitKey(op.token), op.at)) ==>
                Count(Attempts(setup + init), WindowOf(o)) == Count(Attempts(setup + init), WindowOf(op))
      ensures !WindowOf(o)(Request(LimitKey(op.token), op.at)) ==>
                Count(Attempts(setup + ds), WindowOf(o)) == Count(Attempts(setup + init), WindowOf(o))
    {
      OneMoreAttempt(setup, init, op, WindowOf(o));
      if WindowOf(o)(Request(LimitKey(op.token), op.at)) {
        SameCount(Attempts(setup + init), WindowOf(o), WindowOf(op));
      }
    }
    assert op in ds;
  }

  lemma SameCount<T>(s: seq<T>, p: T -> bool, q: T -> bool)
    requires forall x :: p(x) <==> q(x)
    ensures Count(s, p) == Count(s, q)
  {
    CountMono(s, p, q);
    CountMono(s, q, p);
  }

  /** The limiter lets all of the deliveries through exactly when they fit their windows. */
  lemma {:induction false} AdmittedIffFits(w: World, setup: seq<GatewayOp>, ds: seq<GatewayOp>)
    requires OnlyDeliveries(ds)
    ensures AllAdmitted(w, setup, ds) <==> Fits(w, setup, ds)
  {
    hide FateOf, Run, Attempts, Count, WindowOf;
    if ds == [] {
    } else {
      var init, op := ds[..|ds| - 1], ds[|ds| - 1];
      assert ds == init + [op];
      AdmittedIffFits(w, setup, init);
      LimitedWhen(w, setup + init, op);
      FitsOneMore(w, setup, init, op);
    }
  }

  function AttemptOf(op: GatewayOp): seq<Request> {
    if op.Deliver? then [Request(LimitKey(op.token), op.at)] else []
  }

  lemma {:induction false} AttemptsAreFlat(ops: seq<GatewayOp>)
    ensures Attempts(ops) == FlatMap(ops, AttemptOf)
  {
    if ops == [] {
    } else {
      AttemptsAreFlat(ops[..|ops| - 1]);
    }
  }

  /** Fitting does not depend on the order. */
  lemma FitsPermuted(w: World, setup: seq<GatewayOp>, ds: seq<GatewayOp>, ds': seq<GatewayOp>)
    requires multiset(ds) == multiset(ds') && Fits(w, setup, ds)
    ensures Fits(w, setup, ds')
  {
    hide Attempts, Count;
    forall op | op in ds' && op.Deliver?
      ensures Count(Attempts(setup + ds'), WindowOf(op)) <= Max(w.cfg.webhookRateLimit, 1)
    {
      assert op in multiset(ds');
      assert op in ds;
      AttemptsAreFlat(setup + ds);
      AttemptsAreFlat(setup + ds');
      assert multiset(setup + ds) == multiset(setup) + multiset(ds) == multiset(setup + ds');
      FlatMapPermuted(setup + ds, setup + ds', AttemptOf);
      CountPermuted(Attempts(setup + ds), Attempts(setup + ds'), WindowOf(op));
    }
  }

  /** After any common setup, deliveries that fit their windows may come in any other order: all are let through
      as well, and every device's and every webhook's counters end the same. */
  lemma ReorderedDeliveries(w: World, setup: seq<GatewayOp>, ds: seq<GatewayOp>, ds': seq<GatewayOp>)
    requires OnlyDeliveries(ds) && multiset(ds) == multiset(ds') && Fits(w, setup, ds)
    ensures AllAdmitted(w, setup, ds) && AllAdmitted(w, setup, ds')
    ensures var db, db' := Run(w, setup + ds), Run(w, setup + ds');
            && db.devices.Keys == db'.devices.Keys && |db.webhooks| == |db'.webhooks|
            && (forall d | d in db.devices ::
                  && db.devices[d].webhookCount == db'.devices[d].webhookCount
                  && CalledSum(db.webhooks, d) == CalledSum(db'.webhooks, d)
                  && Count(History(w, setup + ds), DuplicateFor(d)) == Count(History(w, setup + ds'), DuplicateFor(d)))
            && (forall i: nat | i < |db.webhooks| :: db.webhooks[i].calledCount == db'.webhooks[i].calledCount)
  {
    StillDeliveries(ds, ds');
    FitsPermuted(w, setup, ds, ds');
    AdmittedIffFits(w, setup, ds);
    AdmittedIffFits(w, setup, ds');
    hide Run, History, Fits, AllAdmitted, OnlyDeliveries;
    DeliveriesKeepDirectory(w, setup, ds);
    DeliveriesKeepDirectory(w, setup, ds');
    ReceiptsOfDeliveries(w, setup, ds);
    ReceiptsOfDeliveries(w, setup, ds');
    var earned, first := Earned(w, Run(w, setup)), Receipts(History(w, setup));
    FlatMapPermuted(ds, ds', earned);
    assert multiset(first + FlatMap(ds, earned)) == multiset(first) + multiset(FlatMap(ds, earned));
    assert multiset(first + FlatMap(ds', earned)) == multiset(first) + multiset(FlatMap(ds', earned));
    SameReceiptsSameCounters(w, setup + ds, setup + ds');
  }

  lemma StillDeliveries(ds: seq<GatewayOp>, ds': seq<GatewayOp>)
    requires OnlyDeliveries(ds) && multiset(ds) == multiset(ds')
    ensures OnlyDeliveries(ds')
  {
    forall op | op in ds'
      ensures op.Deliver?
    {
      assert op in multiset(ds');
      assert op in multiset(ds);
    }
  }
}
