/** app/services/webhook_service.py, app/adapters/webhook_parser.py and the ingest endpoint of
    app/api/v1/webhooks.py: what each operation does to the tables. */
module Webhooks {
  import opened Prelude
  import opened Values
  import opened Masking
  import opened JsonText
  import opened Deduplication
  import opened Models
  import opened RateLimiter

  /** Library behaviour taken as given: SHA-256, Python's character tables, and how the database driver turns a
      client-supplied JSON id into text (None when it refuses the value). */
  datatype Env = Env(sha256: string -> string, ct: CharTables, bindId: Value -> Option<string>)

  type JsonObject = es: seq<Entry> | IsJson(Obj(es)) witness []

  datatype Body = Malformed | NotAnObject | Object(members: JsonObject)

  // ---- parse_webhook_payload ----

  const VALID_EVENT_TYPES := {"sms", "call", "notification", "battery", "heartbeat"}

  predicate ValidType(t: string) {
    t in VALID_EVENT_TYPES
  }

  /** `payload.get(a) or payload.get(b)`, None when both are missing or falsy. */
  function FirstTruthy(es: seq<Entry>, a: string, b: string): Option<Value> {
    var x, y := Get(es, a), Get(es, b);
    if x.Some? && Truthy(x.value) then x
    else if y.Some? && Truthy(y.value) then y
    else None
  }

  /** The text of a value that is not a string never names an event type. */
  function EventType(ct: CharTables, es: seq<Entry>): (r: string)
    ensures ValidType(r)
  {
    var raw := FirstTruthy(es, "event_type", "type");
    if raw.Some? && raw.value.Str? && ValidType(ct.lower(raw.value.s)) then ct.lower(raw.value.s)
    else "notification"
  }

  /** `payload.get(k)` is a non-empty string that lowers to t. */
  predicate Names(ct: CharTables, es: seq<Entry>, k: string, t: string) {
    match Get(es, k)
    case Some(Str(s)) => s != "" && ct.lower(s) == t
    case _ => false
  }

  predicate GivenTruthy(es: seq<Entry>, k: string) {
    && Get(es, k).Some?
    && var v := Get(es, k).value;
    && v != Null && v != Bool(false) && v != Int(0) && v != Str("") && v != Bytes([])
    && v != Arr(true, []) && v != Arr(false, []) && v != Obj([])
  }

  /** A type other than the default is chosen exactly when it is valid and named by `event_type`, or by `type`
      when `event_type` is missing or falsy. */
  lemma EventTypeIsNamed(ct: CharTables, es: seq<Entry>, t: string)
    requires t != "notification"
    ensures EventType(ct, es) == t <==>
            && ValidType(t)
            && (Names(ct, es, "event_type", t) || (!GivenTruthy(es, "event_type") && Names(ct, es, "type", t)))
  {
    hide ValidType;
  }

  /** The client's own id when it sends a truthy one, else the digest of the content. */
  function EventId(env: Env, deviceId: string, es: JsonObject): Option<string> {
    var own := FirstTruthy(es, "event_id", "id");
    if own.Some? then env.bindId(own.value)
    else Some(StableEventId(env.sha256, deviceId, EventType(env.ct, es), Obj(es)))
  }

  // ---- webhooks ----

  function Prefix(token: string): string {
    if |token| <= 8 then token else token[..8]
  }

  function NewWebhook(env: Env, deviceId: string, token: string): Webhook {
    Webhook(deviceId, env.sha256(token), Prefix(token), true, None, 0)
  }

  function CreateWebhook(env: Env, db: Db, deviceId: string, token: string): (Db, Result<(), Error>) {
    if deviceId !in db.devices then (db, Err(NotFound("device not found")))
    else
      var db' := db.(webhooks := db.webhooks + [NewWebhook(env, deviceId, token)]);
      if Schema(db') then (db', Ok(())) else (db, Err(IntegrityError))
  }

  function DisableAll(ws: seq<Webhook>, deviceId: string): (r: seq<Webhook>)
    ensures |r| == |ws|
  {
    seq(|ws|, i requires 0 <= i < |ws| => if ws[i].deviceId == deviceId then ws[i].(enabled := false) else ws[i])
  }

  /** The disabled rows reach the store only together with the new one. */
  function RotateWebhook(env: Env, db: Db, deviceId: string, token: string): (Db, Result<(), Error>) {
    var (db', r) := CreateWebhook(env, db.(webhooks := DisableAll(db.webhooks, deviceId)), deviceId, token);
    (if r.Ok? then db' else db, r)
  }

  predicate Matches(env: Env, w: Webhook, token: string) {
    w.tokenHash == env.sha256(token) && w.enabled
  }

  /** `one_or_none`: more than one match would be an uncaught error. */
  function Lookup(env: Env, db: Db, token: string): (r: Result<nat, Error>)
    ensures r.Ok? ==> r.value < |db.webhooks| && Matches(env, db.webhooks[r.value], token)
  {
    var ws := db.webhooks;
    if exists i, j | 0 <= i < j < |ws| :: Matches(env, ws[i], token) && Matches(env, ws[j], token) then Err(Crash)
    else if exists i | 0 <= i < |ws| :: Matches(env, ws[i], token) then
      var i :| 0 <= i < |ws| && Matches(env, ws[i], token);
      Ok(i)
    else Err(Unauthorized("invalid webhook token"))
  }

  // ---- ingest ----

  datatype IngestOut = IngestOut(duplicate: bool, eventId: string, eventType: string)

  predicate HasEvent(events: seq<Event>, key: (string, string)) {
    exists i | 0 <= i < |events| :: EventKey(events[i]) == key
  }

  function TouchDevice(d: Device, now: Time, duplicate: bool): Device {
    d.(lastSeenAt := Some(now), lastWebhookAt := Some(now), isActive := true, status := "active",
       webhookCount := if duplicate then d.webhookCount else d.webhookCount + 1)
  }

  function TouchWebhook(w: Webhook, now: Time): Webhook {
    w.(lastCalledAt := Some(now), calledCount := w.calledCount + 1)
  }

  function Ingest(env: Env, db: Db, w: nat, es: JsonObject, ip: Option<string>, now: Time)
    : (Db, Result<IngestOut, Error>)
    requires w < |db.webhooks|
  {
    var webhook := db.webhooks[w];
    var deviceId, eventType := webhook.deviceId, EventType(env.ct, es);
    match EventId(env, deviceId, es)
    case None => (db, Err(Crash))
    case Some(eventId) =>
      if deviceId !in db.devices then (db, Err(Crash))
      else
        var event := Event(eventId, deviceId, eventType, Obj(es), ip, now);
        var duplicate := HasEvent(db.events, EventKey(event));
        (db.(devices := db.devices[deviceId := TouchDevice(db.devices[deviceId], now, duplicate)],
             webhooks := db.webhooks[w := TouchWebhook(webhook, now)],
             events := if duplicate then db.events else db.events + [event]),
         Ok(IngestOut(duplicate, eventId, eventType)))
  }

  // ---- the endpoint ----

  function LimitKey(token: string): string {
    "webhook:" + Prefix(token)
  }

  /** `POST /webhooks/smsforwarder/{token}`: limiter, body, lookup, ingest. `at` is the limiter's clock reading
      and `now` the one that stamps the event. Whatever fails after the limiter, its count stays spent. */
  function Post(env: Env, cfg: Settings, db: Db, token: string, body: Body, ip: Option<string>, at: Time, now: Time)
    : (Db, Result<IngestOut, Error>)
  {
    var (limits, verdict) := Check(db.limits, LimitKey(token), cfg.webhookRateLimit, at, WINDOW_SECONDS);
    if verdict.Rejected? then (db, Err(RateLimited(verdict.retryAfter)))
    else
      var db1 := db.(limits := limits);
      if body.Malformed? then (db1, Err(Crash))
      else
        match Lookup(env, db1, token)
        case Err(e) => (db1, Err(e))
        case Ok(w) =>
          if body.NotAnObject? then (db1, Err(Crash))
          else Ingest(env, db1, w, body.members, ip, now)
  }
}
