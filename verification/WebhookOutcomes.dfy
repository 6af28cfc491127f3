/** The outcome of every webhook request, said from the request, the tables and literals: which row or event it
    stores, what it answers, and what it leaves alone. */
module WebhookOutcomes {
  import opened Prelude
  import opened Values
  import opened Masking
  import opened Deduplication
  import opened Models
  import opened RateLimiter
  import opened Webhooks
  import opened GatewayRuns
  import opened Ledger
  import opened Tokens

  // ---- creating ----

  function FirstEight(token: string): string {
    if |token| <= 8 then token else token[..8]
  }

  /** In every reachable state a create succeeds exactly for a known device and a new hash. It then adds one enabled
      row and leaves all earlier ones as they are, so the new token works and every other one works as before. */
  lemma CreateOutcome(w: World, ops: seq<GatewayOp>, d: string, token: string)
    ensures var db := Run(w, ops);
            var (db', r) := CreateWebhook(w.env, db, d, token);
            var last := |db.webhooks|;
            && r == (if d !in db.devices then Err(NotFound("device not found"))
                     else if exists i | 0 <= i < last :: db.webhooks[i].tokenHash == w.env.sha256(token) then
                       Err(IntegrityError)
                     else Ok(()))
            && (r.Err? ==> db' == db)
            && (r.Ok? ==>
                  && db' == db.(webhooks := db.webhooks
                                  + [Webhook(d, w.env.sha256(token), FirstEight(token), true, None, 0)])
                  && Lookup(w.env, db', token) == Ok(last)
                  && forall other | w.env.sha256(other) != w.env.sha256(token) ::
                       Lookup(w.env, db', other) == Lookup(w.env, db, other))
  {
    var db := Run(w, ops);
    BooksAlwaysBalance(w, ops);
    assert Schema(db);
    hide Run, Books, Lookup;
    if d in db.devices {
      var row := Webhook(d, w.env.sha256(token), FirstEight(token), true, None, 0);
      var db' := db.(webhooks := db.webhooks + [row]);
      NewRowFits(db, db', row);
      hide Schema;
      if Schema(db') {
        SchemaHashes(db);
        SchemaHashes(db');
        LookupIsExact(w.env, db', token);
        forall other | w.env.sha256(other) != w.env.sha256(token)
          ensures Lookup(w.env, db', other) == Lookup(w.env, db, other)
        {
          OtherLookupSame(w.env, db, db', other);
        }
      }
    }
  }

  lemma NewRowFits(db: Db, db': Db, row: Webhook)
    requires Schema(db) && row.deviceId in db.devices && db' == db.(webhooks := db.webhooks + [row])
    ensures Schema(db') <==> !exists i | 0 <= i < |db.webhooks| :: db.webhooks[i].tokenHash == row.tokenHash
  {
    var n, ws' := |db.webhooks|, db'.webhooks;
    assert forall i | 0 <= i < n :: ws'[i] == db.webhooks[i];
    assert OwnersExist(db');
    if i :| 0 <= i < n && db.webhooks[i].tokenHash == row.tokenHash {
      assert ws'[i].tokenHash == ws'[n].tokenHash;
    } else {
      assert HashesUnique(ws');
    }
  }

  /** A row of another token, added at the end, changes no lookup. */
  lemma OtherLookupSame(env: Env, db: Db, db': Db, token: string)
    requires HashesUnique(db.webhooks) && HashesUnique(db'.webhooks) && |db'.webhooks| == |db.webhooks| + 1
    requires db'.webhooks[..|db.webhooks|] == db.webhooks
    requires db'.webhooks[|db.webhooks|].tokenHash != env.sha256(token)
    ensures Lookup(env, db', token) == Lookup(env, db, token)
  {
    LookupIsExact(env, db, token);
    LookupIsExact(env, db', token);
    LookupError(env, db, token);
    LookupError(env, db', token);
    hide Lookup, HashesUnique;
    var ws, ws' := db.webhooks, db'.webhooks;
    assert forall i | 0 <= i < |ws| :: ws'[i] == ws[i];
    assert !Matches(env, ws'[|ws|], token);
  }

  lemma LookupError(env: Env, db: Db, token: string)
    ensures var r := Lookup(env, db, token);
            r.Err? ==> r == Err(Crash) || r == Err(Unauthorized("invalid webhook token"))
  {
  }

  // ---- rotating ----

  /** The device's rows switched off and otherwise as they are, the other rows untouched, and the new row. */
  function Rotated(env: Env, ws: seq<Webhook>, d: string, token: string): seq<Webhook> {
    seq(|ws|, i requires 0 <= i < |ws| => if ws[i].deviceId == d then ws[i].(enabled := false) else ws[i])
    + [Webhook(d, env.sha256(token), FirstEight(token), true, None, 0)]
  }

  /** In every reachable state a rotation has the same two failing cases, stores nothing in them, and otherwise
      changes no table but this one. */
  lemma RotateOutcome(w: World, ops: seq<GatewayOp>, d: string, token: string)
    ensures var db := Run(w, ops);
            RotateWebhook(w.env, db, d, token) ==
              if d !in db.devices then (db, Err(NotFound("device not found")))
              else if exists i | 0 <= i < |db.webhooks| :: db.webhooks[i].tokenHash == w.env.sha256(token) then
                (db, Err(IntegrityError))
              else (db.(webhooks := Rotated(w.env, db.webhooks, d, token)), Ok(()))
  {
    var db := Run(w, ops);
    BooksAlwaysBalance(w, ops);
    assert Schema(db);
    RotateStores(w.env, db, d, token);
    assert RotatedRows(w.env, db.webhooks, d, token) == Rotated(w.env, db.webhooks, d, token);
    hide Run, Books, Schema, RotateWebhook, RotatedRows, Rotated;
    if d in db.devices {
      RotatedRowsFit(w.env, db, d, token);
    }
  }

  // ---- a delivery ----

  predicate KnownType(t: string) {
    t in {"sms", "call", "notification", "battery", "heartbeat"}
  }

  /** The type chosen for a payload: one that `event_type` names, or `type` when that is missing or falsy, if it is
      known, and otherwise "notification". */
  ghost predicate TypeFollows(ct: CharTables, es: seq<Entry>, chosen: string) {
    && KnownType(chosen)
    && forall t | t != "notification" ::
         chosen == t <==> && KnownType(t)
                          && (|| Names(ct, es, "event_type", t)
                              || (!GivenTruthy(es, "event_type") && Names(ct, es, "type", t)))
  }

  /** The id of a payload: the client's truthy `event_id`, else its truthy `id`, as the driver binds them, else the
      digest of device, type and content. */
  predicate IdFollows(env: Env, d: string, es: JsonObject, eventType: string, bound: Option<string>) {
    if GivenTruthy(es, "event_id") then bound == env.bindId(Get(es, "event_id").value)
    else if GivenTruthy(es, "id") then bound == env.bindId(Get(es, "id").value)
    else bound == Some(env.sha256(d + "|" + eventType + "|" + Dumps(Obj(es))))
  }

  lemma TypeRule(ct: CharTables, es: seq<Entry>)
    ensures TypeFollows(ct, es, EventType(ct, es))
  {
    forall t | t != "notification"
      ensures EventType(ct, es) == t <==>
              && KnownType(t)
              && (Names(ct, es, "event_type", t) || (!GivenTruthy(es, "event_type") && Names(ct, es, "type", t)))
    {
      hide EventType, Names, GivenTruthy;
      EventTypeIsNamed(ct, es, t);
    }
    assert KnownType(EventType(ct, es)) by {
      assert ValidType(EventType(ct, es));
    }
    hide EventType, Names, GivenTruthy, KnownType, ValidType;
  }

  lemma GivenMeansTruthy(es: seq<Entry>, k: string)
    ensures GivenTruthy(es, k) <==> Get(es, k).Some? && Truthy(Get(es, k).value)
  {
  }

  lemma IdRule(env: Env, d: string, es: JsonObject)
    ensures IdFollows(env, d, es, EventType(env.ct, es), EventId(env, d, es))
  {
    hide EventType, Dumps, Truthy, GivenTruthy, Get;
    GivenMeansTruthy(es, "event_id");
    GivenMeansTruthy(es, "id");
  }

  /** What a delivery to webhook i stores and answers, given its type and id; `db` is the tables after the limiter. */
  predicate IngestedAs(
      db: Db, db': Db, r: Result<IngestOut, Error>, i: nat, es: JsonObject, ip: Option<string>, now: Time,
      eventType: string, bound: Option<string>)
    requires i < |db.webhooks| && db.webhooks[i].deviceId in db.devices
  {
    match bound
    case None => db' == db && r == Err(Crash)
    case Some(eventId) =>
      var webhook := db.webhooks[i];
      var d, device := webhook.deviceId, db.devices[webhook.deviceId];
      var duplicate := exists k | 0 <= k < |db.events| ::
                         db.events[k].deviceId == d && db.events[k].eventId == eventId;
      && r == Ok(IngestOut(duplicate, eventId, eventType))
      && db' == db.(
           devices := db.devices[d := device.(
             lastSeenAt := Some(now), lastWebhookAt := Some(now), isActive := true, status := "active",
             webhookCount := device.webhookCount + if duplicate then 0 else 1)],
           webhooks := db.webhooks[i := webhook.(
             lastCalledAt := Some(now), calledCount := webhook.calledCount + 1)],
           events := if duplicate then db.events
                     else db.events + [Event(eventId, d, eventType, Obj(es), ip, now)])
  }

  ghost predicate Ingested(
      env: Env, db: Db, db': Db, r: Result<IngestOut, Error>, i: nat, es: JsonObject, ip: Option<string>, now: Time)
    requires i < |db.webhooks|
  {
    && db.webhooks[i].deviceId in db.devices
    && exists eventType, bound ::
         && TypeFollows(env.ct, es, eventType)
         && IdFollows(env, db.webhooks[i].deviceId, es, eventType, bound)
         && IngestedAs(db, db', r, i, es, ip, now, eventType, bound)
  }

  lemma IngestComputes(env: Env, db: Db, i: nat, es: JsonObject, ip: Option<string>, now: Time)
    requires i < |db.webhooks| && db.webhooks[i].deviceId in db.devices
    ensures var (db', r) := Ingest(env, db, i, es, ip, now);
            var d := db.webhooks[i].deviceId;
            IngestedAs(db, db', r, i, es, ip, now, EventType(env.ct, es), EventId(env, d, es))
  {
    hide EventType, EventId, HasEvent;
    var bound := EventId(env, db.webhooks[i].deviceId, es);
    if bound.Some? {
      StoredMeans(db.events, db.webhooks[i].deviceId, bound.value);
    }
  }

  lemma IngestOutcome(env: Env, db: Db, i: nat, es: JsonObject, ip: Option<string>, now: Time)
    requires i < |db.webhooks| && db.webhooks[i].deviceId in db.devices
    ensures var (db', r) := Ingest(env, db, i, es, ip, now);
            Ingested(env, db, db', r, i, es, ip, now)
  {
    TypeRule(env.ct, es);
    IdRule(env, db.webhooks[i].deviceId, es);
    IngestComputes(env, db, i, es, ip, now);
    hide EventType, EventId, TypeFollows, IdFollows, Ingest, IngestedAs;
  }

  lemma StoredMeans(events: seq<Event>, d: string, eventId: string)
    ensures HasEvent(events, (d, eventId))
            <==> exists k | 0 <= k < |events| :: events[k].deviceId == d && events[k].eventId == eventId
  {
  }

  /** The row that answers to a token. */
  predicate AnswersTo(env: Env, webhook: Webhook, token: string) {
    webhook.enabled && webhook.tokenHash == env.sha256(token)
  }

  /** The tables once a request for this token has spent its budget: the clock minute of the token's first eight
      characters. */
  function Spent(db: Db, token: string, at: Time): Db {
    var window := ("webhook:" + FirstEight(token), at - at % 60_000_000);
    db.(limits := db.limits[window := if window in db.limits then db.limits[window] + 1 else 1])
  }

  predicate Exhausted(cfg: Settings, db: Db, token: string, at: Time) {
    var window := ("webhook:" + FirstEight(token), at - at % 60_000_000);
    window in db.limits && db.limits[window] >= cfg.webhookRateLimit
  }

  /** The endpoint, case by case: the budget is spent first, whatever follows; then a body that is no JSON fails, a
      token no enabled row answers to is refused, and a JSON body that is no object fails; otherwise the payload is
      ingested for the row that answers. */
  ghost predicate Handled(
      env: Env, cfg: Settings, db: Db, db': Db, r: Result<IngestOut, Error>,
      token: string, body: Body, ip: Option<string>, at: Time, now: Time)
  {
    if Exhausted(cfg, db, token, at) then db' == db && r.Err? && r.error.RateLimited?
    else
      var db1 := Spent(db, token, at);
      if body.Malformed? then db' == db1 && r == Err(Crash)
      else if forall i | 0 <= i < |db.webhooks| :: !AnswersTo(env, db.webhooks[i], token) then
        db' == db1 && r == Err(Unauthorized("invalid webhook token"))
      else if body.NotAnObject? then db' == db1 && r == Err(Crash)
      else forall i: nat | i < |db.webhooks| && AnswersTo(env, db.webhooks[i], token) ::
             Ingested(env, db1, db', r, i, body.members, ip, now)
  }

  lemma LimiterOutcome(cfg: Settings, db: Db, token: string, at: Time)
    ensures var (limits, verdict) := Check(db.limits, LimitKey(token), cfg.webhookRateLimit, at, WINDOW_SECONDS);
            && (verdict.Rejected? <==> Exhausted(cfg, db, token, at))
            && (verdict.Admitted? ==> db.(limits := limits) == Spent(db, token, at))
  {
    hide WholeSeconds;
  }

  /** Lookup finds the one row that answers, or refuses the token. */
  lemma LookupOutcome(env: Env, db: Db, token: string)
    requires HashesUnique(db.webhooks)
    ensures forall i: nat | i < |db.webhooks| ::
              AnswersTo(env, db.webhooks[i], token) <==> Lookup(env, db, token) == Ok(i)
    ensures Lookup(env, db, token).Err? ==> Lookup(env, db, token) == Err(Unauthorized("invalid webhook token"))
  {
    LookupIsExact(env, db, token);
    LookupError(env, db, token);
    hide Lookup, HashesUnique;
    assert forall i | 0 <= i < |db.webhooks| ::
             AnswersTo(env, db.webhooks[i], token) <==> Matches(env, db.webhooks[i], token);
  }

  lemma DeliverOutcome(
      env: Env, cfg: Settings, db: Db, token: string, body: Body, ip: Option<string>, at: Time, now: Time)
    requires Schema(db)
    ensures var (db', r) := Post(env, cfg, db, token, body, ip, at, now);
            Handled(env, cfg, db, db', r, token, body, ip, at, now)
  {
    var db1 := Spent(db, token, at);
    assert HashesUnique(db.webhooks) && OwnersExist(db);
    LimiterOutcome(cfg, db, token, at);
    SpentOnlyLimits(db, token, at);
    LookupOutcome(env, db1, token);
    hide Check, Exhausted, Spent, Lookup, Ingest, Schema, HashesUnique, Ingested, AnswersTo, LimitKey;
    var found := Lookup(env, db1, token);
    if found.Ok? && body.Object? {
      IngestOutcome(env, db1, found.value, body.members, ip, now);
    }
  }

  lemma SpentOnlyLimits(db: Db, token: string, at: Time)
    ensures Spent(db, token, at) == db.(limits := Spent(db, token, at).limits)
  {
  }

  /** This delivery could have brought this event. */
  ghost predicate Brought(env: Env, op: GatewayOp, e: Event) {
    && op.Deliver? && op.body.Object?
    && e.payload == Obj(op.body.members) && e.sourceIp == op.ip && e.createdAt == op.now
    && TypeFollows(env.ct, op.body.members, e.eventType)
    && IdFollows(env, e.deviceId, op.body.members, e.eventType, Some(e.eventId))
  }

  ghost predicate BroughtBySome(env: Env, ops: seq<GatewayOp>, e: Event) {
    exists k :: 0 <= k < |ops| && Brought(env, ops[k], e)
  }

  lemma IngestBrings(
      w: World, db: Db, db': Db, r: Result<IngestOut, Error>, i: nat, op: GatewayOp)
    requires op.Deliver? && op.body.Object? && i < |db.webhooks|
    requires Ingested(w.env, db, db', r, i, op.body.members, op.ip, op.now)
    ensures forall e | e in db'.events :: e in db.events || Brought(w.env, op, e)
  {
    hide TypeFollows, IdFollows;
  }

  lemma HandledBrings(w: World, db: Db, db': Db, r: Result<IngestOut, Error>, op: GatewayOp)
    requires op.Deliver? && Handled(w.env, w.cfg, db, db', r, op.token, op.body, op.ip, op.at, op.now)
    ensures forall e | e in db'.events :: e in db.events || Brought(w.env, op, e)
  {
    var db1 := Spent(db, op.token, op.at);
    SpentOnlyLimits(db, op.token, op.at);
    hide Ingested, Brought, Spent, Exhausted;
    if i: nat :| i < |db.webhooks| && AnswersTo(w.env, db.webhooks[i], op.token)
                 && op.body.Object? && Ingested(w.env, db1, db', r, i, op.body.members, op.ip, op.now) {
      IngestBrings(w, db1, db', r, i, op);
    }
  }

  lemma DeliveryBrings(w: World, db: Db, op: GatewayOp)
    requires Schema(db) && op.Deliver?
    ensures forall e | e in Step(w, db, op).events :: e in db.events || Brought(w.env, op, e)
  {
    DeliverOutcome(w.env, w.cfg, db, op.token, op.body, op.ip, op.at, op.now);
    hide Post, Schema, Handled, Brought;
    var (db', r) := Post(w.env, w.cfg, db, op.token, op.body, op.ip, op.at, op.now);
    HandledBrings(w, db, db', r, op);
  }

  lemma OtherKeepsEvents(w: World, db: Db, op: GatewayOp)
    requires !op.Deliver?
    ensures Step(w, db, op).events == db.events
  {
    if op.TunnelOp? {
      TunnelEffect(w, db, op.op);
    } else {
      WebhookOpEffect(w, db, op);
    }
    hide Schema;
  }

  /** In every run each stored event carries the body, the address and the time of a delivery, with the type and the
      id that body calls for. */
  lemma {:induction false} StoredEventsFollowTheirPayload(w: World, ops: seq<GatewayOp>)
    ensures forall e | e in Run(w, ops).events :: BroughtBySome(w.env, ops, e)
  {
    hide Step, Brought, Schema;
    if ops == [] {
    } else {
      var init, op := ops[..|ops| - 1], ops[|ops| - 1];
      var db := Run(w, init);
      StoredEventsFollowTheirPayload(w, init);
      BooksAlwaysBalance(w, init);
      if op.Deliver? {
        DeliveryBrings(w, db, op);
      } else {
        OtherKeepsEvents(w, db, op);
      }
      hide Books;
      forall e | e in Run(w, ops).events
        ensures BroughtBySome(w.env, ops, e)
      {
        if e in db.events {
          var k :| 0 <= k < |init| && Brought(w.env, init[k], e);
          assert ops[k] == init[k];
        } else {
          assert Brought(w.env, ops[|ops| - 1], e);
        }
      }
    }
  }
}
