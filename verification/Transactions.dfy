/** What one unit of work does to the tables: the ORM writes, for a row it loaded, only the columns whose
    value changed, and the database accepts or refuses the whole unit. */
module Transactions {
  import opened Prelude
  import opened Models

  datatype RowWrite<T> = Insert(row: T) | Update(loaded: T, row: T)

  datatype Txn = Txn(id: string, device: Option<RowWrite<Device>>, tunnel: Option<RowWrite<Tunnel>>)

  /** One column of an UPDATE: left alone unless this unit of work changed it since loading the row. */
  function Column<T(==)>(loaded: T, row: T, current: T): T {
    if row == loaded then current else row
  }

  function MergeDevice(l: Device, n: Device, c: Device): Device {
    Device(
      Column(l.deviceName, n.deviceName, c.deviceName),
      Column(l.channelType, n.channelType, c.channelType),
      Column(l.baseUrl, n.baseUrl, c.baseUrl),
      Column(l.signSecret, n.signSecret, c.signSecret),
      Column(l.status, n.status, c.status),
      Column(l.isActive, n.isActive, c.isActive),
      Column(l.lastSeenAt, n.lastSeenAt, c.lastSeenAt),
      Column(l.lastWebhookAt, n.lastWebhookAt, c.lastWebhookAt),
      Column(l.webhookCount, n.webhookCount, c.webhookCount))
  }

  function MergeTunnel(l: Tunnel, n: Tunnel, c: Tunnel): Tunnel {
    Tunnel(
      Column(l.enabled, n.enabled, c.enabled),
      Column(l.proxyType, n.proxyType, c.proxyType),
      Column(l.proxyName, n.proxyName, c.proxyName),
      Column(l.localIp, n.localIp, c.localIp),
      Column(l.localPort, n.localPort, c.localPort),
      Column(l.remotePort, n.remotePort, c.remotePort),
      Column(l.authToken, n.authToken, c.authToken),
      Column(l.internalBaseUrl, n.internalBaseUrl, c.internalBaseUrl),
      Column(l.publicBaseUrl, n.publicBaseUrl, c.publicBaseUrl),
      Column(l.previousBaseUrl, n.previousBaseUrl, c.previousBaseUrl),
      Column(l.useEncryption, n.useEncryption, c.useEncryption),
      Column(l.useCompression, n.useCompression, c.useCompression),
      Column(l.status, n.status, c.status),
      Column(l.lastConfigAt, n.lastConfigAt, c.lastConfigAt))
  }

  /** The devices table after a write; None when the write cannot be carried out at all. */
  function WriteDevice(devices: map<string, Device>, id: string, w: Option<RowWrite<Device>>)
    : Option<map<string, Device>>
  {
    match w
    case None => Some(devices)
    case Some(Insert(row)) => if id in devices then None else Some(devices[id := row])
    case Some(Update(loaded, row)) =>
      if id in devices then Some(devices[id := MergeDevice(loaded, row, devices[id])]) else None
  }

  function WriteTunnel(tunnels: map<string, Tunnel>, id: string, w: Option<RowWrite<Tunnel>>)
    : Option<map<string, Tunnel>>
  {
    match w
    case None => Some(tunnels)
    case Some(Insert(row)) => if id in tunnels then None else Some(tunnels[id := row])
    case Some(Update(loaded, row)) =>
      if id in tunnels then Some(tunnels[id := MergeTunnel(loaded, row, tunnels[id])]) else None
  }

  function Write(db: Db, t: Txn): Option<Db> {
    var devices :- WriteDevice(db.devices, t.id, t.device);
    var tunnels :- WriteTunnel(db.tunnels, t.id, t.tunnel);
    Some(db.(devices := devices, tunnels := tunnels))
  }

  /** Commit against the current tables: all of the unit, or (None) nothing. */
  function Apply(db: Db, t: Txn): (r: Option<Db>)
    ensures r.Some? ==> Schema(r.value)
  {
    var db' :- Write(db, t);
    if Schema(db') then Some(db') else None
  }

  // ---- overlapping writes ----

  predicate OneWriter<T(==)>(a: T, a': T, b: T, b': T) {
    a' == a || b' == b
  }

  /** No tunnel column is changed by both units of work. */
  predicate DisjointTunnelWrites(a: Tunnel, a': Tunnel, b: Tunnel, b': Tunnel) {
    && OneWriter(a.enabled, a'.enabled, b.enabled, b'.enabled)
    && OneWriter(a.proxyType, a'.proxyType, b.proxyType, b'.proxyType)
    && OneWriter(a.proxyName, a'.proxyName, b.proxyName, b'.proxyName)
    && OneWriter(a.localIp, a'.localIp, b.localIp, b'.localIp)
    && OneWriter(a.localPort, a'.localPort, b.localPort, b'.localPort)
    && OneWriter(a.remotePort, a'.remotePort, b.remotePort, b'.remotePort)
    && OneWriter(a.authToken, a'.authToken, b.authToken, b'.authToken)
    && OneWriter(a.internalBaseUrl, a'.internalBaseUrl, b.internalBaseUrl, b'.internalBaseUrl)
    && OneWriter(a.publicBaseUrl, a'.publicBaseUrl, b.publicBaseUrl, b'.publicBaseUrl)
    && OneWriter(a.previousBaseUrl, a'.previousBaseUrl, b.previousBaseUrl, b'.previousBaseUrl)
    && OneWriter(a.useEncryption, a'.useEncryption, b.useEncryption, b'.useEncryption)
    && OneWriter(a.useCompression, a'.useCompression, b.useCompression, b'.useCompression)
    && OneWriter(a.status, a'.status, b.status, b'.status)
    && OneWriter(a.lastConfigAt, a'.lastConfigAt, b.lastConfigAt, b'.lastConfigAt)
  }

  predicate DisjointDeviceWrites(a: Device, a': Device, b: Device, b': Device) {
    && OneWriter(a.deviceName, a'.deviceName, b.deviceName, b'.deviceName)
    && OneWriter(a.channelType, a'.channelType, b.channelType, b'.channelType)
    && OneWriter(a.baseUrl, a'.baseUrl, b.baseUrl, b'.baseUrl)
    && OneWriter(a.signSecret, a'.signSecret, b.signSecret, b'.signSecret)
    && OneWriter(a.status, a'.status, b.status, b'.status)
    && OneWriter(a.isActive, a'.isActive, b.isActive, b'.isActive)
    && OneWriter(a.lastSeenAt, a'.lastSeenAt, b.lastSeenAt, b'.lastSeenAt)
    && OneWriter(a.lastWebhookAt, a'.lastWebhookAt, b.lastWebhookAt, b'.lastWebhookAt)
    && OneWriter(a.webhookCount, a'.webhookCount, b.webhookCount, b'.webhookCount)
  }

  /** Units of work that change different columns of a row may commit in either order: no change of
      either is lost. */
  lemma DisjointTunnelWritesCommute(a: Tunnel, a': Tunnel, b: Tunnel, b': Tunnel, c: Tunnel)
    requires DisjointTunnelWrites(a, a', b, b')
    ensures MergeTunnel(a, a', MergeTunnel(b, b', c)) == MergeTunnel(b, b', MergeTunnel(a, a', c))
    ensures MergeTunnel(a, a', a) == a'
  {
  }

  lemma DisjointDeviceWritesCommute(a: Device, a': Device, b: Device, b': Device, c: Device)
    requires DisjointDeviceWrites(a, a', b, b')
    ensures MergeDevice(a, a', MergeDevice(b, b', c)) == MergeDevice(b, b', MergeDevice(a, a', c))
    ensures MergeDevice(a, a', a) == a'
  {
  }
}
