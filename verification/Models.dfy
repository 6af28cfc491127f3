/** The models package and app/db/session.py: rows, the constraints the database enforces, and a session. */
module Models {
  import opened Prelude
  import opened Values

  /** Microseconds since the epoch, UTC. */
  type Time = int

  const SECOND: Time := 1_000_000
  const MINUTE: Time := 60 * SECOND

  /** `channelType` is a NOT NULL column that a request can nevertheless set to null. */
  datatype Device = Device(
    deviceName: Option<string>,
    channelType: Option<string>,
    baseUrl: Option<string>,
    signSecret: Option<string>,
    status: string,
    isActive: bool,
    lastSeenAt: Option<Time>,
    lastWebhookAt: Option<Time>,
    webhookCount: int)

  /** `authToken` is the plaintext: encryption and decryption are an inverse pair. */
  datatype Tunnel = Tunnel(
    enabled: bool,
    proxyType: string,
    proxyName: string,
    localIp: string,
    localPort: int,
    remotePort: int,
    authToken: string,
    internalBaseUrl: string,
    publicBaseUrl: Option<string>,
    previousBaseUrl: Option<string>,
    useEncryption: bool,
    useCompression: bool,
    status: string,
    lastConfigAt: Option<Time>)

  datatype Webhook = Webhook(
    deviceId: string,
    tokenHash: string,
    tokenPrefix: string,
    enabled: bool,
    lastCalledAt: Option<Time>,
    calledCount: int)

  datatype Event = Event(
    eventId: string,
    deviceId: string,
    eventType: string,
    payload: Value,
    sourceIp: Option<string>,
    createdAt: Time)

  datatype LogStatus = Pending | Success | Failed

  datatype CommandLog = CommandLog(
    deviceId: string,
    userId: Option<int>,
    commandType: string,
    channelType: string,
    status: LogStatus,
    requestSummary: Value,
    responseSummary: Value,
    errorMsg: Option<string>,
    completedAt: Option<Time>)

  /** The tables. Devices and tunnels are keyed by their unique `device_id`, logs by `request_id`, rate
      limits by (`resource_key`, `window_start`); webhooks and events are listed in insertion order. */
  datatype Db = Db(
    devices: map<string, Device>,
    tunnels: map<string, Tunnel>,
    webhooks: seq<Webhook>,
    events: seq<Event>,
    limits: map<(string, Time), int>,
    logs: map<string, CommandLog>)

  const EMPTY_DB := Db(map[], map[], [], [], map[], map[])

  /** The part of app/core/config.py that the services read; constant during a run. */
  datatype Settings = Settings(
    portMin: int,
    portMax: int,
    internalHost: string,
    publicHost: string,
    frpsToken: string,
    webhookRateLimit: int)

  datatype Error =
    | NotFound(msg: string)
    | Conflict(msg: string)
    | Unauthorized(msg: string)
    | RateLimited(retryAfter: int)
    | ChannelError(msg: string)
    | IntegrityError  // a constraint violation nobody catches: the request fails and nothing is stored
    | Crash           // any other uncaught exception, with the same effect

  // ---- constraints ----

  predicate ChannelsPresent(devices: map<string, Device>) {
    forall d | d in devices :: devices[d].channelType.Some?
  }

  predicate PortsUnique(tunnels: map<string, Tunnel>) {
    forall d, e | d in tunnels && e in tunnels && d != e :: tunnels[d].remotePort != tunnels[e].remotePort
  }

  predicate HashesUnique(webhooks: seq<Webhook>) {
    forall i, j | 0 <= i < j < |webhooks| :: webhooks[i].tokenHash != webhooks[j].tokenHash
  }

  predicate EventsUnique(events: seq<Event>) {
    forall i, j | 0 <= i < j < |events| :: EventKey(events[i]) != EventKey(events[j])
  }

  function EventKey(e: Event): (string, string) {
    (e.deviceId, e.eventId)
  }

  predicate OwnersExist(db: Db) {
    && (forall d | d in db.tunnels :: d in db.devices)
    && (forall i | 0 <= i < |db.webhooks| :: db.webhooks[i].deviceId in db.devices)
  }

  predicate Schema(db: Db) {
    && ChannelsPresent(db.devices)
    && PortsUnique(db.tunnels)
    && HashesUnique(db.webhooks)
    && EventsUnique(db.events)
    && OwnersExist(db)
  }

  /** A unit of work: `pending` is what its objects hold, `store` what the database holds. Nothing reaches
      the store before a flush or commit, and a failed one leaves the store as it was. */
  class Session {
    var store: Db
    var pending: Db

    constructor (db: Db)
      ensures store == pending == db
    {
      store := db;
      pending := db;
    }

    ghost predicate Clean()
      reads this
    {
      pending == store
    }

    /** Sends the pending rows inside the transaction; false is an IntegrityError. */
    method Flush() returns (ok: bool)
      ensures ok == Schema(pending)
    {
      ok := Schema(pending);
    }

    method Commit() returns (ok: bool)
      modifies this
      ensures pending == old(pending)
      ensures ok == Schema(pending)
      ensures store == if ok then pending else old(store)
    {
      ok := Schema(pending);
      if ok {
        store := pending;
      }
    }

    /** Also what closing a session does to uncommitted work. */
    method Rollback()
      modifies this
      ensures store == old(store) && pending == store
    {
      pending := store;
    }
  }
}
