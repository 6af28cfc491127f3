/** app/services/webhook_service.py and the ingest endpoint in their own form: a service over a session, proved
    to carry out the operations of `Webhooks`. */
module WebhookService {
  import opened Prelude
  import opened Values
  import opened Deduplication
  import opened Models
  import opened RateLimiter
  import opened Webhooks

  /** A new event breaks the constraints exactly when its key is already stored. */
  lemma EventDecidesSchema(db: Db, event: Event)
    requires Schema(db)
    ensures Schema(db.(events := db.events + [event])) <==> !HasEvent(db.events, EventKey(event))
  {
    var db' := db.(events := db.events + [event]);
    assert OwnersExist(db');
    assert forall i | 0 <= i < |db.events| :: db'.events[i] == db.events[i];
    if HasEvent(db.events, EventKey(event)) {
      var i :| 0 <= i < |db.events| && EventKey(db.events[i]) == EventKey(event);
      assert EventKey(db'.events[i]) == EventKey(db'.events[|db.events|]);
    } else {
      assert EventsUnique(db'.events);
    }
  }

  lemma TouchKeepsSchema(db: Db, d: string, device: Device, w: nat, webhook: Webhook)
    requires Schema(db) && d in db.devices && w < |db.webhooks|
    requires device.channelType == db.devices[d].channelType
    requires webhook.tokenHash == db.webhooks[w].tokenHash && webhook.deviceId == db.webhooks[w].deviceId
    ensures Schema(db.(devices := db.devices[d := device], webhooks := db.webhooks[w := webhook]))
  {
    var db' := db.(devices := db.devices[d := device], webhooks := db.webhooks[w := webhook]);
    assert OwnersExist(db') && ChannelsPresent(db'.devices) && HashesUnique(db'.webhooks);
  }

  lemma LimitsOutsideSchema(db: Db, limits: Limits)
    ensures Schema(db.(limits := limits)) == Schema(db)
  {
  }

  class WebhookService {
    const db: Session
    const env: Env

    constructor (db: Session, env: Env)
      ensures this.db == db && this.env == env
    {
      this.db := db;
      this.env := env;
    }

    /** `token` is the generated token; a session that still holds disabled rows commits them too. */
    method Create(deviceId: string, token: string) returns (r: Result<(), Error>)
      modifies db
      ensures db.Clean()
      ensures var (db', outcome) := CreateWebhook(env, old(db.pending), deviceId, token);
              r == outcome && db.store == if r.Ok? then db' else old(db.store)
    {
      if deviceId !in db.pending.devices {
        db.Rollback();
        return Err(NotFound("device not found"));
      }
      var webhook := Webhook(
        deviceId, env.sha256(token), if |token| <= 8 then token else token[..8], true, None, 0);
      db.pending := db.pending.(webhooks := db.pending.webhooks + [webhook]);
      var ok := db.Commit();
      if !ok {
        db.Rollback();
        return Err(IntegrityError);
      }
      return Ok(());
    }

    method Rotate(deviceId: string, token: string) returns (r: Result<(), Error>)
      requires db.Clean()
      modifies db
      ensures db.Clean()
      ensures (db.store, r) == RotateWebhook(env, old(db.store), deviceId, token)
    {
      var n := |db.pending.webhooks|;
      for i := 0 to n
        invariant db.store == old(db.store)
        invariant db.pending == old(db.store).(webhooks := db.pending.webhooks) && |db.pending.webhooks| == n
        invariant forall j | 0 <= j < i ::
                    db.pending.webhooks[j] == DisableAll(old(db.store.webhooks), deviceId)[j]
        invariant forall j | i <= j < n :: db.pending.webhooks[j] == old(db.store.webhooks)[j]
      {
        if db.pending.webhooks[i].deviceId == deviceId {
          var item := db.pending.webhooks[i].(enabled := false);
          db.pending := db.pending.(webhooks := db.pending.webhooks[i := item]);
        }
      }
      assert db.pending.webhooks == DisableAll(old(db.store.webhooks), deviceId);
      r := Create(deviceId, token);
    }

    method IngestPayload(w: nat, es: JsonObject, ip: Option<string>, now: Time)
      returns (r: Result<IngestOut, Error>)
      requires db.Clean() && Schema(db.store) && w < |db.store.webhooks|
      modifies db
      ensures db.Clean() && Schema(db.store)
      ensures (db.store, r) == Ingest(env, old(db.store), w, es, ip, now)
    {
      hide Schema, EventType, EventId;
      var webhook := db.pending.webhooks[w];
      var eventType := EventType(env.ct, es);
      var bound := EventId(env, webhook.deviceId, es);
      if bound.None? {
        return Err(Crash);
      }
      var event := Event(bound.value, webhook.deviceId, eventType, Obj(es), ip, now);
      EventDecidesSchema(db.store, event);
      db.pending := db.pending.(events := db.pending.events + [event]);
      var flushed := db.Flush();
      if !flushed {
        db.Rollback();
      }
      var duplicate := !flushed;
      if webhook.deviceId !in db.pending.devices {
        db.Rollback();
        return Err(Crash);
      }
      var device := db.pending.devices[webhook.deviceId];
      device := device.(lastSeenAt := Some(now));
      device := device.(lastWebhookAt := Some(now));
      device := device.(isActive := true);
      device := device.(status := "active");
      webhook := webhook.(lastCalledAt := Some(now));
      webhook := webhook.(calledCount := webhook.calledCount + 1);
      if !duplicate {
        device := device.(webhookCount := device.webhookCount + 1);
      }
      TouchKeepsSchema(db.pending, webhook.deviceId, device, w, webhook);
      db.pending := db.pending.(
        devices := db.pending.devices[webhook.deviceId := device],
        webhooks := db.pending.webhooks[w := webhook]);
      var ok := db.Commit();
      return Ok(IngestOut(duplicate, bound.value, eventType));
    }

    /** The route handler; an error raised by any step is the response. */
    method IngestWebhook(cfg: Settings, token: string, body: Body, ip: Option<string>, at: Time, now: Time)
      returns (r: Result<IngestOut, Error>)
      requires db.Clean() && Schema(db.store)
      modifies db
      ensures db.Clean()
      ensures (db.store, r) == Webhooks.Post(env, cfg, old(db.store), token, body, ip, at, now)
    {
      hide Ingest, Lookup, Schema;
      var limit := cfg.webhookRateLimit;
      LimitsOutsideSchema(db.store, Check(db.store.limits, LimitKey(token), limit, at, WINDOW_SECONDS).0);
      var allowed := CheckRateLimit(db, LimitKey(token), cfg.webhookRateLimit, at, WINDOW_SECONDS);
      if allowed.Err? {
        return Err(allowed.error);
      }
      if body.Malformed? {
        return Err(Crash);
      }
      var webhook := Lookup(env, db.store, token);
      if webhook.Err? {
        return Err(webhook.error);
      }
      if body.NotAnObject? {
        return Err(Crash);
      }
      r := IngestPayload(webhook.value, body.members, ip, now);
    }
  }
}
