/** Serial runs of the whole gateway: device, tunnel, webhook and ingest requests in any order. */
module GatewayRuns {
  import opened Prelude
  import opened Values
  import opened Models
  import opened RateLimiter
  import opened Devices
  import opened Tunnels
  import opened Webhooks

  datatype GatewayOp =
    | TunnelOp(op: Op)
    | Create(deviceId: string, token: string)
    | Rotate(deviceId: string, token: string)
    | Deliver(token: string, body: Body, ip: Option<string>, at: Time, now: Time)

  /** What a run cannot change. */
  datatype World = World(env: Env, cfg: Settings)

  function Step(w: World, db: Db, op: GatewayOp): Db {
    match op
    case TunnelOp(op) => Serial(w.cfg, db, op).0
    case Create(d, token) => CreateWebhook(w.env, db, d, token).0
    case Rotate(d, token) => RotateWebhook(w.env, db, d, token).0
    case Deliver(token, body, ip, at, now) => Post(w.env, w.cfg, db, token, body, ip, at, now).0
  }

  function Run(w: World, ops: seq<GatewayOp>): Db {
    if ops == [] then EMPTY_DB
    else Step(w, Run(w, ops[..|ops| - 1]), ops[|ops| - 1])
  }

  // ---- the history of deliveries ----

  datatype Fate = Limited | Refused | Accepted(webhook: nat, event: Event, duplicate: bool)

  datatype Delivery = Delivery(token: string, at: Time, fate: Fate)

  /** How the endpoint answered, with the webhook it resolved and the event it was about. */
  function FateOf(w: World, db: Db, op: GatewayOp): Fate
    requires op.Deliver?
  {
    match Post(w.env, w.cfg, db, op.token, op.body, op.ip, op.at, op.now).1
    case Err(RateLimited(_)) => Limited
    case Err(_) => Refused
    case Ok(out) =>
      var i := Lookup(w.env, db, op.token);
      if i.Err? || !op.body.Object? then Refused
      else
        Accepted(i.value,
                 Event(out.eventId, db.webhooks[i.value].deviceId, out.eventType, Obj(op.body.members), op.ip, op.now),
                 out.duplicate)
  }

  function History(w: World, ops: seq<GatewayOp>): seq<Delivery> {
    if ops == [] then []
    else
      var init, op := ops[..|ops| - 1], ops[|ops| - 1];
      History(w, init)
      + if op.Deliver? then [Delivery(op.token, op.at, FateOf(w, Run(w, init), op))] else []
  }

  lemma OneMore(w: World, ops: seq<GatewayOp>, op: GatewayOp)
    ensures Run(w, ops + [op]) == Step(w, Run(w, ops), op)
    ensures History(w, ops + [op]) == History(w, ops)
              + if op.Deliver? then [Delivery(op.token, op.at, FateOf(w, Run(w, ops), op))] else []
  {
    hide Step, FateOf;
    assert (ops + [op])[..|ops|] == ops;
  }

  /** What one delivery does to the tables, told apart by its fate. */
  lemma DeliverEffect(w: World, db: Db, op: GatewayOp)
    requires op.Deliver? && Schema(db)
    ensures var db' := Step(w, db, op);
            var fate := FateOf(w, db, op);
            var limit := w.cfg.webhookRateLimit;
            var (limits, verdict) := Check(db.limits, LimitKey(op.token), limit, op.at, WINDOW_SECONDS);
            && db'.limits == limits
            && (fate.Limited? <==> verdict.Rejected?)
            && (!fate.Accepted? ==> db' == db.(limits := limits))
            && (fate.Accepted? ==>
                  var i, event := fate.webhook, fate.event;
                  && i < |db.webhooks| && Matches(w.env, db.webhooks[i], op.token)
                  && event.deviceId == db.webhooks[i].deviceId && event.deviceId in db.devices
                  && event.createdAt == op.now && ValidType(event.eventType)
                  && fate.duplicate == HasEvent(db.events, EventKey(event))
                  && db' == db.(
                       limits := limits,
                       devices := db.devices[event.deviceId :=
                         TouchDevice(db.devices[event.deviceId], op.now, fate.duplicate)],
                       webhooks := db.webhooks[i := TouchWebhook(db.webhooks[i], op.now)],
                       events := if fate.duplicate then db.events else db.events + [event]))
  {
    hide Schema, EventType, EventId, ValidType;
    var (limits, verdict) := Check(db.limits, LimitKey(op.token), w.cfg.webhookRateLimit, op.at, WINDOW_SECONDS);
    assert Lookup(w.env, db.(limits := limits), op.token) == Lookup(w.env, db, op.token);
    hide WholeSeconds, WindowStart;
  }

  /** A tunnel or device operation leaves webhooks, events, limits and counters alone. */
  lemma TunnelEffect(w: World, db: Db, op: Op)
    ensures var db' := Serial(w.cfg, db, op).0;
            && db'.webhooks == db.webhooks && db'.events == db.events && db'.limits == db.limits
            && db.devices.Keys <= db'.devices.Keys
            && (forall d | d in db.devices :: db'.devices[d].webhookCount == db.devices[d].webhookCount)
            && (forall d | d in db'.devices && d !in db.devices :: db'.devices[d].webhookCount == 0)
  {
    SerialWrites(w.cfg, db, op);
    var db' := Serial(w.cfg, db, op).0;
    forall d
      ensures d in db.devices ==>
                d in db'.devices && db'.devices[d].webhookCount == db.devices[d].webhookCount
      ensures d in db'.devices && d !in db.devices ==> db'.devices[d].webhookCount == 0
    {
      SerialDeviceRow(w.cfg, db, op, d);
      if op.UpdateDevice? && d in db.devices {
        ChangeDeviceBaseUrl(db.devices[d], op.deviceChanges);
      }
      hide Serial, ChangeDeviceAll, Plan;
    }
  }
}
