/** Event log and counters over whole serial runs: the store is a first-wins map of the deliveries, and every
    counter counts what its name says. */
module Ledger {
  import opened Prelude
  import opened Models
  import opened Devices
  import opened Tunnels
  import opened RateLimiter
  import opened Webhooks
  import opened GatewayRuns

  // ---- reference definitions over the history ----

  /** The (device, event id) pairs some accepted delivery carried. */
  function Delivered(h: seq<Delivery>): set<(string, string)> {
    if h == [] then {}
    else
      Delivered(h[..|h| - 1])
      + if h[|h| - 1].fate.Accepted? then {EventKey(h[|h| - 1].fate.event)} else {}
  }

  /** Keep a delivery's event when nothing before it carried the same pair. */
  function FirstWins(h: seq<Delivery>): seq<Event> {
    if h == [] then []
    else
      var init, fate := h[..|h| - 1], h[|h| - 1].fate;
      FirstWins(init)
      + if fate.Accepted? && EventKey(fate.event) !in Delivered(init) then [fate.event] else []
  }

  function AcceptedFor(deviceId: string): Delivery -> bool {
    (x: Delivery) => x.fate.Accepted? && x.fate.event.deviceId == deviceId
  }

  function AcceptedBy(webhook: nat): Delivery -> bool {
    (x: Delivery) => x.fate.Accepted? && x.fate.webhook == webhook
  }

  function DuplicateFor(deviceId: string): Delivery -> bool {
    (x: Delivery) => x.fate.Accepted? && x.fate.event.deviceId == deviceId && x.fate.duplicate
  }

  function OfDevice(deviceId: string): Event -> bool {
    (e: Event) => e.deviceId == deviceId
  }

  /** Sum of `called_count` over a device's webhooks, enabled or not. */
  function CalledSum(ws: seq<Webhook>, deviceId: string): int {
    if ws == [] then 0
    else
      CalledSum(ws[..|ws| - 1], deviceId)
      + if ws[|ws| - 1].deviceId == deviceId then ws[|ws| - 1].calledCount else 0
  }

  // ---- the invariant ----

  ghost predicate Books(w: World, db: Db, h: seq<Delivery>) {
    Schema(db) && EventBooks(db, h) && WebhookBooks(w, db.webhooks, h)
  }

  /** A delivery was answered "duplicate" exactly when its pair had been delivered before. */
  ghost predicate FlagsRight(h: seq<Delivery>) {
    forall k | 0 <= k < |h| && h[k].fate.Accepted? ::
      h[k].fate.duplicate <==> EventKey(h[k].fate.event) in Delivered(h[..k])
  }

  ghost predicate EventBooks(db: Db, h: seq<Delivery>) {
    && db.events == FirstWins(h)
    && FlagsRight(h)
    && (forall e | e in db.events :: e.deviceId in db.devices)
    && (forall d | d in db.devices :: db.devices[d].webhookCount == Count(db.events, OfDevice(d)))
  }

  ghost predicate WebhookBooks(w: World, ws: seq<Webhook>, h: seq<Delivery>) {
    && (forall i: nat | i < |ws| :: ws[i].calledCount == Count(h, AcceptedBy(i)))
    && (forall x | x in h && x.fate.Accepted? :: Traceable(w, ws, x))
  }

  /** An accepted delivery points at the webhook whose token it showed. */
  ghost predicate Traceable(w: World, ws: seq<Webhook>, x: Delivery)
    requires x.fate.Accepted?
  {
    && x.fate.webhook < |ws|
    && ws[x.fate.webhook].tokenHash == w.env.sha256(x.token)
    && ws[x.fate.webhook].deviceId == x.fate.event.deviceId
  }

  lemma {:induction false} FirstWinsKeys(h: seq<Delivery>, key: (string, string))
    ensures HasEvent(FirstWins(h), key) <==> key in Delivered(h)
  {
    if h == [] {
    } else {
      var init, fate := h[..|h| - 1], h[|h| - 1].fate;
      FirstWinsKeys(init, key);
      var before, after := FirstWins(init), FirstWins(h);
      assert forall i | 0 <= i < |before| :: after[i] == before[i];
      if HasEvent(before, key) {
        var i :| 0 <= i < |before| && EventKey(before[i]) == key;
        assert EventKey(after[i]) == key;
      } else if fate.Accepted? && EventKey(fate.event) == key {
        assert EventKey(after[|before|]) == key;
      }
    }
  }

  lemma SerialRunKeepsSchema(w: World, db: Db, op: GatewayOp)
    requires Schema(db)
    ensures Schema(Step(w, db, op))
  {
    if op.Deliver? {
      DeliverKeepsSchema(w, db, op);
    }
    hide Schema;
  }

  lemma DeliverKeepsSchema(w: World, db: Db, op: GatewayOp)
    requires op.Deliver? && Schema(db)
    ensures Schema(Step(w, db, op))
  {
    DeliverEffect(w, db, op);
    var db', fate := Step(w, db, op), FateOf(w, db, op);
    hide Step, FateOf, HasEvent;
    if fate.Accepted? {
      assert ChannelsPresent(db'.devices) && HashesUnique(db'.webhooks) && OwnersExist(db');
      EventAppended(db.events, db'.events, fate);
    }
  }

  lemma EventAppended(events: seq<Event>, events': seq<Event>, fate: Fate)
    requires EventsUnique(events) && fate.Accepted?
    requires fate.duplicate == HasEvent(events, EventKey(fate.event))
    requires events' == if fate.duplicate then events else events + [fate.event]
    ensures EventsUnique(events')
  {
  }

  // ---- the invariant holds in every run ----

  lemma BooksAfterTunnelOp(w: World, db: Db, h: seq<Delivery>, op: GatewayOp)
    requires op.TunnelOp? && Books(w, db, h)
    ensures Books(w, Step(w, db, op), h)
  {
    SerialRunKeepsSchema(w, db, op);
    TunnelEffect(w, db, op.op);
    var db' := Step(w, db, op);
    hide Step, Schema, FirstWins;
    forall d | d in db'.devices && d !in db.devices
      ensures Count(db.events, OfDevice(d)) == 0
    {
      CountNone(db.events, OfDevice(d));
    }
  }

  /** Creating or rotating rewrites no hash, owner or counter and starts the new row at zero. */
  lemma WebhookOpEffect(w: World, db: Db, op: GatewayOp)
    requires op.Create? || op.Rotate?
    ensures var db' := Step(w, db, op);
            && db' == db.(webhooks := db'.webhooks)
            && |db.webhooks| <= |db'.webhooks| <= |db.webhooks| + 1
            && (forall i: nat | i < |db.webhooks| ::
                  && db'.webhooks[i] == db.webhooks[i].(enabled := db'.webhooks[i].enabled)
                  && (db'.webhooks[i].enabled ==> db.webhooks[i].enabled))
            && (|db'.webhooks| > |db.webhooks| ==> db'.webhooks[|db.webhooks|].calledCount == 0)
  {
    hide Schema;
  }

  lemma WebhookBooksAfterGrowth(w: World, ws: seq<Webhook>, ws': seq<Webhook>, h: seq<Delivery>)
    requires WebhookBooks(w, ws, h)
    requires |ws| <= |ws'| <= |ws| + 1
    requires forall i: nat | i < |ws| :: ws'[i] == ws[i].(enabled := ws'[i].enabled)
    requires |ws'| > |ws| ==> ws'[|ws|].calledCount == 0
    ensures WebhookBooks(w, ws', h)
  {
    forall x | x in h && x.fate.Accepted?
      ensures Traceable(w, ws', x)
    {
      assert Traceable(w, ws, x);
    }
    CountNone(h, AcceptedBy(|ws|));
    hide Count;
  }

  lemma BooksAfterWebhookOp(w: World, db: Db, h: seq<Delivery>, op: GatewayOp)
    requires (op.Create? || op.Rotate?) && Books(w, db, h)
    ensures Books(w, Step(w, db, op), h)
  {
    SerialRunKeepsSchema(w, db, op);
    WebhookOpEffect(w, db, op);
    hide Step, Schema, FirstWins, WebhookBooks;
    WebhookBooksAfterGrowth(w, db.webhooks, Step(w, db, op).webhooks, h);
  }

  lemma FlagsAfterDelivery(h: seq<Delivery>, x: Delivery)
    requires FlagsRight(h)
    requires x.fate.Accepted? ==> (x.fate.duplicate <==> EventKey(x.fate.event) in Delivered(h))
    ensures FlagsRight(h + [x])
  {
    var h' := h + [x];
    hide Delivered;
    forall k | 0 <= k < |h'| && h'[k].fate.Accepted?
      ensures h'[k].fate.duplicate <==> EventKey(h'[k].fate.event) in Delivered(h'[..k])
    {
      if k < |h| {
        assert h'[..k] == h[..k];
      } else {
        assert h'[..k] == h;
      }
    }
  }

  lemma FirstWinsOneMore(h: seq<Delivery>, x: Delivery)
    ensures FirstWins(h + [x]) ==
              if x.fate.Accepted? && EventKey(x.fate.event) !in Delivered(h) then FirstWins(h) + [x.fate.event]
              else FirstWins(h)
  {
    assert (h + [x])[..|h|] == h;
  }

  lemma EventBooksAfterDelivery(db: Db, db': Db, h: seq<Delivery>, x: Delivery, now: Time)
    requires EventBooks(db, h)
    requires x.fate.Accepted? ==>
               var event := x.fate.event;
               && event.deviceId in db.devices && x.fate.duplicate == HasEvent(db.events, EventKey(event))
               && db'.devices == db.devices[event.deviceId :=
                    TouchDevice(db.devices[event.deviceId], now, x.fate.duplicate)]
               && db'.events == if x.fate.duplicate then db.events else db.events + [event]
    requires !x.fate.Accepted? ==> db'.devices == db.devices && db'.events == db.events
    ensures EventBooks(db', h + [x])
  {
    hide HasEvent, FlagsRight, FirstWins, Delivered, Count;
    FirstWinsOneMore(h, x);
    if x.fate.Accepted? {
      var event := x.fate.event;
      FirstWinsKeys(h, EventKey(event));
      FlagsAfterDelivery(h, x);
      forall d | d in db'.devices
        ensures db'.devices[d].webhookCount == Count(db'.events, OfDevice(d))
      {
        CountAppend(db.events, event, OfDevice(d));
      }
    } else {
      FlagsAfterDelivery(h, x);
    }
  }

  lemma WebhookBooksAfterDelivery(
      w: World, ws: seq<Webhook>, ws': seq<Webhook>, h: seq<Delivery>, x: Delivery, now: Time)
    requires WebhookBooks(w, ws, h)
    requires x.fate.Accepted? ==>
               Traceable(w, ws, x) && ws' == ws[x.fate.webhook := TouchWebhook(ws[x.fate.webhook], now)]
    requires !x.fate.Accepted? ==> ws' == ws
    ensures WebhookBooks(w, ws', h + [x])
  {
    forall i: nat | i < |ws'|
      ensures ws'[i].calledCount == Count(h + [x], AcceptedBy(i))
    {
      CountAppend(h, x, AcceptedBy(i));
    }
    hide Count;
    forall y | y in h + [x] && y.fate.Accepted?
      ensures Traceable(w, ws', y)
    {
      assert Traceable(w, ws, y);
    }
  }

  lemma BooksAfterDelivery(w: World, db: Db, h: seq<Delivery>, op: GatewayOp)
    requires op.Deliver? && Books(w, db, h)
    ensures Books(w, Step(w, db, op), h + [Delivery(op.token, op.at, FateOf(w, db, op))])
  {
    var db', x := Step(w, db, op), Delivery(op.token, op.at, FateOf(w, db, op));
    SerialRunKeepsSchema(w, db, op);
    DeliverEffect(w, db, op);
    hide Step, FateOf, Schema, Check, EventBooks, WebhookBooks, HasEvent;
    EventBooksAfterDelivery(db, db', h, x, op.now);
    WebhookBooksAfterDelivery(w, db.webhooks, db'.webhooks, h, x, op.now);
  }

  lemma EmptyBooks(w: World)
    ensures Books(w, EMPTY_DB, [])
  {
  }

  lemma {:induction false} BooksAlwaysBalance(w: World, ops: seq<GatewayOp>)
    ensures Books(w, Run(w, ops), History(w, ops))
  {
    hide Books, Step;
    if ops == [] {
      EmptyBooks(w);
    } else {
      var init, op := ops[..|ops| - 1], ops[|ops| - 1];
      var db, h := Run(w, init), History(w, init);
      BooksAlwaysBalance(w, init);
      match op {
        case TunnelOp(_) => BooksAfterTunnelOp(w, db, h, op);
        case Create(_, _) => BooksAfterWebhookOp(w, db, h, op);
        case Rotate(_, _) => BooksAfterWebhookOp(w, db, h, op);
        case Deliver(_, _, _, _, _) => BooksAfterDelivery(w, db, h, op);
      }
      assert h + [] == h;
    }
  }

  // ---- first wins, said without recursion ----

  /** An event is stored exactly when some accepted delivery brought it and none before carried its pair. */
  lemma {:induction false} FirstWinsMeans(h: seq<Delivery>, e: Event)
    ensures e in FirstWins(h) <==>
            exists k :: 0 <= k < |h| && h[k].fate.Accepted? && h[k].fate.event == e
                        && EventKey(e) !in Delivered(h[..k])
  {
    if h == [] {
    } else {
      var init, fate := h[..|h| - 1], h[|h| - 1].fate;
      FirstWinsMeans(init, e);
      forall k | 0 <= k < |init|
        ensures h[..k] == init[..k]
      {
      }
      if e in FirstWins(init) {
        var k :| 0 <= k < |init| && init[k].fate.Accepted? && init[k].fate.event == e
                 && EventKey(e) !in Delivered(init[..k]);
        assert h[k] == init[k];
      } else if e in FirstWins(h) {
        assert h[|h| - 1].fate.event == e;
      }
      if k :| 0 <= k < |h| && h[k].fate.Accepted? && h[k].fate.event == e && EventKey(e) !in Delivered(h[..k]) {
        if k < |init| {
          assert init[k] == h[k];
        }
      }
    }
  }

  lemma {:induction false} DeliveredMeans(h: seq<Delivery>, key: (string, string))
    ensures key in Delivered(h) <==> exists k :: 0 <= k < |h| && h[k].fate.Accepted? && EventKey(h[k].fate.event) == key
  {
    if h == [] {
    } else {
      var init := h[..|h| - 1];
      DeliveredMeans(init, key);
      if key in Delivered(init) {
        var k :| 0 <= k < |init| && init[k].fate.Accepted? && EventKey(init[k].fate.event) == key;
        assert h[k] == init[k];
      }
      if k :| 0 <= k < |h| && h[k].fate.Accepted? && EventKey(h[k].fate.event) == key {
        assert k < |init| ==> init[k] == h[k];
      }
    }
  }

  // ---- the counters, read off the history ----

  /** Distinct event ids delivered for a device. */
  function IdsOf(h: seq<Delivery>, deviceId: string): set<(string, string)> {
    set key | key in Delivered(h) && key.0 == deviceId
  }

  lemma IdsOneMore(h: seq<Delivery>, d: string)
    requires h != []
    ensures var init, fate := h[..|h| - 1], h[|h| - 1].fate;
            if fate.Accepted? && fate.event.deviceId == d
            then IdsOf(h, d) == IdsOf(init, d) + {EventKey(fate.event)}
                 && (EventKey(fate.event) in IdsOf(init, d) <==> EventKey(fate.event) in Delivered(init))
            else IdsOf(h, d) == IdsOf(init, d)
  {
  }

  lemma StoredOneMore(h: seq<Delivery>, d: string)
    requires h != []
    ensures var init, fate := h[..|h| - 1], h[|h| - 1].fate;
            Count(FirstWins(h), OfDevice(d)) == Count(FirstWins(init), OfDevice(d))
            + if fate.Accepted? && EventKey(fate.event) !in Delivered(init) && fate.event.deviceId == d then 1 else 0
  {
    var init, fate := h[..|h| - 1], h[|h| - 1].fate;
    if fate.Accepted? && EventKey(fate.event) !in Delivered(init) {
      CountAppend(FirstWins(init), fate.event, OfDevice(d));
    } else {
      assert FirstWins(h) == FirstWins(init);
    }
  }

  lemma {:induction false} StoredAreDistinctIds(h: seq<Delivery>, d: string)
    ensures Count(FirstWins(h), OfDevice(d)) == |IdsOf(h, d)|
  {
    if h == [] {
      assert IdsOf(h, d) == {};
    } else {
      hide *;
      var init, fate := h[..|h| - 1], h[|h| - 1].fate;
      StoredAreDistinctIds(init, d);
      IdsOneMore(h, d);
      StoredOneMore(h, d);
      if fate.Accepted? && fate.event.deviceId == d {
        var ids, key := IdsOf(init, d), EventKey(fate.event);
        assert |ids + {key}| == |ids| + if key in ids then 0 else 1 by {
          assert key in ids ==> ids + {key} == ids;
        }
      }
    }
  }

  lemma {:induction false} StoredAndDuplicates(h: seq<Delivery>, d: string)
    requires FlagsRight(h)
    ensures Count(h, AcceptedFor(d)) == Count(FirstWins(h), OfDevice(d)) + Count(h, DuplicateFor(d))
  {
    if h == [] {
    } else {
      var init, fate := h[..|h| - 1], h[|h| - 1].fate;
      assert forall k | 0 <= k < |init| :: init[k] == h[k] && init[..k] == h[..k];
      StoredAndDuplicates(init, d);
      if fate.Accepted? && EventKey(fate.event) !in Delivered(init) {
        CountAppend(FirstWins(init), fate.event, OfDevice(d));
      } else {
        assert FirstWins(h) == FirstWins(init);
      }
    }
  }

  function AcceptedBelow(deviceId: string, n: nat): Delivery -> bool {
    (x: Delivery) => x.fate.Accepted? && x.fate.event.deviceId == deviceId && x.fate.webhook < n
  }

  lemma {:induction false} CalledSumCounts(w: World, ws: seq<Webhook>, h: seq<Delivery>, d: string, n: nat)
    requires WebhookBooks(w, ws, h) && n <= |ws|
    ensures CalledSum(ws[..n], d) == Count(h, AcceptedBelow(d, n))
  {
    if n == 0 {
      CountNone(h, AcceptedBelow(d, 0));
    } else {
      CalledSumCounts(w, ws, h, d, n - 1);
      assert ws[..n][..n - 1] == ws[..n - 1];
      assert forall x | x in h && x.fate.Accepted? :: Traceable(w, ws, x);
      if ws[n - 1].deviceId == d {
        CountSplit(h, AcceptedBelow(d, n), AcceptedBelow(d, n - 1), AcceptedBy(n - 1));
      } else {
        CountMono(h, AcceptedBelow(d, n), AcceptedBelow(d, n - 1));
        CountMono(h, AcceptedBelow(d, n - 1), AcceptedBelow(d, n));
      }
    }
  }

  /** In every run, for every device: the stored events are its distinct event ids, `webhook_count` is how many
      there are, the `called_count`s of its webhooks add up to its accepted deliveries, and those are the stored
      ones plus the ones answered as duplicates. */
  lemma CountersCount(w: World, ops: seq<GatewayOp>, d: string)
    requires d in Run(w, ops).devices
    ensures var db, h := Run(w, ops), History(w, ops);
            && db.devices[d].webhookCount == Count(db.events, OfDevice(d)) == |IdsOf(h, d)|
            && CalledSum(db.webhooks, d) == Count(h, AcceptedFor(d))
            && Count(h, AcceptedFor(d)) == db.devices[d].webhookCount + Count(h, DuplicateFor(d))
  {
    var db, h := Run(w, ops), History(w, ops);
    BooksAlwaysBalance(w, ops);
    StoredAreDistinctIds(h, d);
    StoredAndDuplicates(h, d);
    CalledSumCounts(w, db.webhooks, h, d, |db.webhooks|);
    assert db.webhooks[..|db.webhooks|] == db.webhooks;
    assert forall x | x in h && x.fate.Accepted? :: Traceable(w, db.webhooks, x);
    CountMono(h, AcceptedFor(d), AcceptedBelow(d, |db.webhooks|));
    CountMono(h, AcceptedBelow(d, |db.webhooks|), AcceptedFor(d));
  }

  /** In every run the event log is exactly the first delivery of each (device, event id), in delivery order:
      an event is stored if and only if some accepted delivery brought it and no earlier one its pair. */
  lemma LogIsFirstDeliveries(w: World, ops: seq<GatewayOp>)
    ensures var db, h := Run(w, ops), History(w, ops);
            && db.events == FirstWins(h) && EventsUnique(db.events)
            && (forall key :: HasEvent(db.events, key) <==> key in Delivered(h))
            && (forall e :: e in db.events <==>
                  exists k :: 0 <= k < |h| && h[k].fate.Accepted? && h[k].fate.event == e
                              && EventKey(e) !in Delivered(h[..k]))
  {
    var db, h := Run(w, ops), History(w, ops);
    BooksAlwaysBalance(w, ops);
    hide Run, History, FirstWins, Delivered;
    forall key
      ensures HasEvent(db.events, key) <==> key in Delivered(h)
    {
      FirstWinsKeys(h, key);
    }
    forall e
      ensures e in db.events <==>
              exists k :: 0 <= k < |h| && h[k].fate.Accepted? && h[k].fate.event == e
                          && EventKey(e) !in Delivered(h[..k])
    {
      FirstWinsMeans(h, e);
    }
  }

  // ---- activity of a device ----

  /** The time of the last delivery accepted for a device. */
  function LastAccepted(h: seq<Delivery>, d: string): Option<Time> {
    if h == [] then None
    else
      var fate := h[|h| - 1].fate;
      if fate.Accepted? && fate.event.deviceId == d then Some(fate.event.createdAt)
      else LastAccepted(h[..|h| - 1], d)
  }

  ghost predicate ActivityFollows(db: Db, h: seq<Delivery>, d: string) {
    if d in db.devices then Activity(db.devices[d], LastAccepted(h, d)) else LastAccepted(h, d).None?
  }

  lemma TunnelOpKeepsActivity(w: World, db: Db, op: Op, d: string, last: Option<Time>)
    ensures var db' := Serial(w.cfg, db, op).0;
            && (d in db.devices ==>
                  d in db'.devices && (Activity(db'.devices[d], last) <==> Activity(db.devices[d], last)))
            && (d !in db.devices && d in db'.devices ==> Activity(db'.devices[d], None))
  {
    SerialDeviceRow(w.cfg, db, op, d);
    if op.UpdateDevice? && d in db.devices {
      ChangeDeviceKeepsActivity(db.devices[d], op.deviceChanges);
    }
    hide Serial, ChangeDeviceAll;
  }

  lemma ActivityAfterDelivery(w: World, db: Db, h: seq<Delivery>, op: GatewayOp, d: string)
    requires op.Deliver? && Schema(db) && ActivityFollows(db, h, d)
    ensures ActivityFollows(Step(w, db, op), h + [Delivery(op.token, op.at, FateOf(w, db, op))], d)
  {
    var x := Delivery(op.token, op.at, FateOf(w, db, op));
    DeliverEffect(w, db, op);
    assert (h + [x])[..|h|] == h;
    hide Schema, Step, FateOf, Check, HasEvent;
  }

  /** In every run a device was last seen at its last accepted delivery, duplicates included, and is active
      exactly when it has one; nothing else moves these columns. */
  lemma {:induction false} ActivityIsLastDelivery(w: World, ops: seq<GatewayOp>, d: string)
    ensures ActivityFollows(Run(w, ops), History(w, ops), d)
  {
    hide Step, ActivityFollows, FateOf;
    if ops == [] {
      NoActivityYet(d);
    } else {
      var init, op := ops[..|ops| - 1], ops[|ops| - 1];
      var db, h := Run(w, init), History(w, init);
      ActivityIsLastDelivery(w, init, d);
      BooksAlwaysBalance(w, init);
      assert Schema(db);
      hide Books, Schema;
      if op.Deliver? {
        ActivityAfterDelivery(w, db, h, op, d);
      } else {
        assert h + [] == h;
        ActivityAfterOther(w, db, h, op, d);
      }
    }
  }

  lemma NoActivityYet(d: string)
    ensures ActivityFollows(EMPTY_DB, [], d)
  {
  }

  lemma ActivityAfterOther(w: World, db: Db, h: seq<Delivery>, op: GatewayOp, d: string)
    requires !op.Deliver? && ActivityFollows(db, h, d)
    ensures ActivityFollows(Step(w, db, op), h, d)
  {
    if op.TunnelOp? {
      TunnelOpKeepsActivity(w, db, op.op, d, LastAccepted(h, d));
      hide Serial;
    } else {
      WebhookOpEffect(w, db, op);
      hide Step;
    }
  }
}
