/** app/services/tunnel_service.py: what each tunnel operation reads and what it then writes. */
module Tunnels {
  import opened Prelude
  import opened Decimal
  import opened Models
  import opened Transactions
  import opened Devices

  datatype EnableIn = EnableIn(
    localIp: string, localPort: int, remotePort: Option<int>, syncDeviceBaseUrl: bool,
    useEncryption: bool, useCompression: bool)

  /** One item of the update payload; a null value is skipped. */
  datatype TunnelChange =
    | SetLocalIp(ip: Option<string>)
    | SetLocalPort(port: Option<int>)
    | SetEncryption(encryption: Option<bool>)
    | SetCompression(compression: Option<bool>)

  function InternalBaseUrl(cfg: Settings, port: int): string {
    "http://" + cfg.internalHost + ":" + Render(port)
  }

  function PublicBaseUrl(cfg: Settings, port: int): string {
    "tcp://" + cfg.publicHost + ":" + Render(port)
  }

  function ProxyName(deviceId: string): string {
    var name := "smsf-" + deviceId;
    if |name| <= 128 then name else name[..128]
  }

  /** 128 characters leave 123 for the device id. */
  lemma ShortName(id: string)
    ensures ProxyName(id) == "smsf-" + (if |id| <= 123 then id else id[..123])
  {
    assert |id| > 123 ==> ("smsf-" + id)[..128] == "smsf-" + id[..123];
  }

  // ---- the allocator ----

  predicate PortAllowed(cfg: Settings, port: int) {
    cfg.portMin <= port <= cfg.portMax
  }

  function UsedPorts(cfg: Settings, tunnels: map<string, Tunnel>): set<int> {
    set d | d in tunnels && PortAllowed(cfg, tunnels[d].remotePort) :: tunnels[d].remotePort
  }

  function LeastFree(used: set<int>, lo: int, hi: int): (r: Option<int>)
    ensures r.Some? ==> lo <= r.value <= hi && r.value !in used
    ensures r.Some? ==> forall q | lo <= q < r.value :: q in used
    ensures r.None? ==> forall q | lo <= q <= hi :: q in used
    decreases hi - lo
  {
    if lo > hi then None
    else if lo !in used then Some(lo)
    else LeastFree(used, lo + 1, hi)
  }

  function NextPort(cfg: Settings, db: Db): Option<int> {
    LeastFree(UsedPorts(cfg, db.tunnels), cfg.portMin, cfg.portMax)
  }

  /** An explicit port, or the least free one; `or` also passes over an explicit zero. */
  function ChosenPort(cfg: Settings, db: Db, p: EnableIn): Option<int> {
    if p.remotePort.Some? && p.remotePort.value != 0 then p.remotePort else NextPort(cfg, db)
  }

  // ---- rows ----

  function FreshTunnel(cfg: Settings, id: string, port: int, p: EnableIn): Tunnel {
    Tunnel(false, "tcp", ProxyName(id), "127.0.0.1", p.localPort, port, cfg.frpsToken,
           InternalBaseUrl(cfg, port), None, None, true, true, "pending", None)
  }

  function BaseRow(cfg: Settings, db: Db, id: string, port: int, p: EnableIn): Tunnel {
    if id in db.tunnels then db.tunnels[id] else FreshTunnel(cfg, id, port, p)
  }

  /** The row an enable leaves behind, built on the old row when there is one. */
  function EnabledTunnel(cfg: Settings, base: Tunnel, device: Device, port: int, p: EnableIn): Tunnel {
    base.(
      remotePort := port,
      authToken := cfg.frpsToken,
      internalBaseUrl := InternalBaseUrl(cfg, port),
      enabled := true,
      proxyType := "tcp",
      localIp := p.localIp,
      localPort := p.localPort,
      publicBaseUrl := Some(PublicBaseUrl(cfg, port)),
      previousBaseUrl := device.baseUrl,
      useEncryption := p.useEncryption,
      useCompression := p.useCompression,
      status := "active")
  }

  function ChangeTunnel(t: Tunnel, c: TunnelChange): Tunnel {
    match c
    case SetLocalIp(v) => if v.Some? then t.(localIp := v.value) else t
    case SetLocalPort(v) => if v.Some? then t.(localPort := v.value) else t
    case SetEncryption(v) => if v.Some? then t.(useEncryption := v.value) else t
    case SetCompression(v) => if v.Some? then t.(useCompression := v.value) else t
  }

  function ChangeTunnelAll(t: Tunnel, changes: seq<TunnelChange>): Tunnel {
    if changes == [] then t
    else ChangeTunnel(ChangeTunnelAll(t, changes[..|changes| - 1]), changes[|changes| - 1])
  }

  /** An update never reaches the columns that identify, place or switch the tunnel. */
  predicate SamePlacement(t: Tunnel, r: Tunnel) {
    && r.enabled == t.enabled && r.status == t.status && r.proxyType == t.proxyType && r.proxyName == t.proxyName
    && r.remotePort == t.remotePort && r.internalBaseUrl == t.internalBaseUrl
    && r.publicBaseUrl == t.publicBaseUrl && r.previousBaseUrl == t.previousBaseUrl
  }

  /** Nothing but local address and transport flags differs. */
  predicate SameButFour(t: Tunnel, r: Tunnel) {
    r == t.(localIp := r.localIp, localPort := r.localPort,
            useEncryption := r.useEncryption, useCompression := r.useCompression)
  }

  lemma OneChangeReachesFour(t: Tunnel, r: Tunnel, c: TunnelChange)
    requires SameButFour(t, r)
    ensures SameButFour(t, ChangeTunnel(r, c))
  {
  }

  lemma {:induction false} ChangeReachesFour(t: Tunnel, changes: seq<TunnelChange>)
    ensures SameButFour(t, ChangeTunnelAll(t, changes))
  {
    if changes == [] {
    } else {
      hide ChangeTunnel, SameButFour;
      var init := changes[..|changes| - 1];
      ChangeReachesFour(t, init);
      OneChangeReachesFour(t, ChangeTunnelAll(t, init), changes[|changes| - 1]);
    }
  }

  lemma ChangeTunnelKeepsPlacement(t: Tunnel, changes: seq<TunnelChange>)
    ensures SamePlacement(t, ChangeTunnelAll(t, changes))
    ensures ChangeTunnelAll(t, changes).authToken == t.authToken
  {
    ChangeReachesFour(t, changes);
    hide ChangeTunnelAll;
  }

  predicate GivesValue(c: TunnelChange) {
    match c
    case SetLocalIp(v) => v.Some?
    case SetLocalPort(v) => v.Some?
    case SetEncryption(v) => v.Some?
    case SetCompression(v) => v.Some?
  }

  predicate SameTunnelColumn(a: TunnelChange, b: TunnelChange) {
    || (a.SetLocalIp? && b.SetLocalIp?) || (a.SetLocalPort? && b.SetLocalPort?)
    || (a.SetEncryption? && b.SetEncryption?) || (a.SetCompression? && b.SetCompression?)
  }

  /** The column the change names holds the value it gives. */
  predicate TunnelHolds(t: Tunnel, c: TunnelChange) {
    match c
    case SetLocalIp(v) => Some(t.localIp) == v
    case SetLocalPort(v) => Some(t.localPort) == v
    case SetEncryption(v) => Some(t.useEncryption) == v
    case SetCompression(v) => Some(t.useCompression) == v
  }

  /** An update leaves in each column the last value given for it, nulls passed over. */
  lemma {:induction false} LastTunnelChangeHolds(t: Tunnel, changes: seq<TunnelChange>, i: nat)
    requires i < |changes| && GivesValue(changes[i])
    requires forall j | i < j < |changes| && GivesValue(changes[j]) :: !SameTunnelColumn(changes[i], changes[j])
    ensures TunnelHolds(ChangeTunnelAll(t, changes), changes[i])
  {
    if i < |changes| - 1 {
      LastTunnelChangeHolds(t, changes[..|changes| - 1], i);
    }
  }

  /** A column given no value keeps the one it has. */
  lemma {:induction false} UnnamedTunnelColumnStays(t: Tunnel, changes: seq<TunnelChange>, c: TunnelChange)
    requires forall j | 0 <= j < |changes| && GivesValue(changes[j]) :: !SameTunnelColumn(c, changes[j])
    ensures TunnelHolds(ChangeTunnelAll(t, changes), c) <==> TunnelHolds(t, c)
  {
    if changes == [] {
    } else {
      UnnamedTunnelColumnStays(t, changes[..|changes| - 1], c);
    }
  }

  // ---- reading phase of each operation ----

  function PlanEnable(cfg: Settings, db: Db, id: string, p: EnableIn): Result<Txn, Error> {
    if id !in db.devices then Err(NotFound("device not found"))
    else if id in db.tunnels && db.tunnels[id].enabled then Err(Conflict("device tunnel already enabled"))
    else
      var device, chosen := db.devices[id], ChosenPort(cfg, db, p);
      if chosen.None? then Err(Conflict("no frps remote ports available"))
      else if !PortAllowed(cfg, chosen.value) then Err(Conflict("remote port is outside frps allow range"))
      else
        var port := chosen.value;
        var base := BaseRow(cfg, db, id, port, p);
        var row := EnabledTunnel(cfg, base, device, port, p);
        Ok(Txn(id,
               if p.syncDeviceBaseUrl
               then Some(Update(device, device.(baseUrl := Some(row.internalBaseUrl)))) else None,
               Some(if id in db.tunnels then Update(base, row) else Insert(row))))
  }

  function PlanTunnelWrite(db: Db, id: string, row: Tunnel -> Tunnel): Result<Txn, Error> {
    if id !in db.devices then Err(NotFound("device not found"))
    else if id !in db.tunnels then Err(NotFound("device tunnel not found"))
    else Ok(Txn(id, None, Some(Update(db.tunnels[id], row(db.tunnels[id])))))
  }

  function PlanDisable(db: Db, id: string): Result<Txn, Error> {
    if id !in db.devices then Err(NotFound("device not found"))
    else if id !in db.tunnels then Err(NotFound("device tunnel not found"))
    else
      var device, tunnel := db.devices[id], db.tunnels[id];
      Ok(Txn(id,
             Some(Update(device, device.(baseUrl := tunnel.previousBaseUrl))),
             Some(Update(tunnel, tunnel.(enabled := false, status := "disabled")))))
  }

  // ---- operations ----

  datatype Op =
    | CreateDevice(id: string, device: DeviceCreate)
    | UpdateDevice(id: string, deviceChanges: seq<DeviceChange>)
    | Enable(id: string, request: EnableIn)
    | UpdateTunnel(id: string, tunnelChanges: seq<TunnelChange>)
    | Disable(id: string)
    | RotateToken(id: string)
    | RenderConfig(id: string, now: Time)

  function Plan(cfg: Settings, db: Db, op: Op): Result<Txn, Error> {
    match op
    case CreateDevice(id, p) => PlanCreate(db, id, p)
    case UpdateDevice(id, changes) => PlanUpdate(db, id, changes)
    case Enable(id, p) => PlanEnable(cfg, db, id, p)
    case UpdateTunnel(id, changes) => PlanTunnelWrite(db, id, t => ChangeTunnelAll(t, changes))
    case Disable(id) => PlanDisable(db, id)
    case RotateToken(id) => PlanTunnelWrite(db, id, (t: Tunnel) => t.(authToken := cfg.frpsToken))
    case RenderConfig(id, now) => PlanTunnelWrite(db, id, (t: Tunnel) => t.(lastConfigAt := Some(now)))
  }

  /** How a refused commit is reported: only `enable` catches it. */
  function CommitFailure(op: Op): Error {
    if op.Enable? then Conflict("remote port already allocated") else IntegrityError
  }

  /** The operation carried out alone: read, then commit against the same tables. */
  function Serial(cfg: Settings, db: Db, op: Op): (Db, Result<(), Error>) {
    match Plan(cfg, db, op)
    case Err(e) => (db, Err(e))
    case Ok(t) =>
      match Apply(db, t)
      case None => (db, Err(CommitFailure(op)))
      case Some(db') => (db', Ok(()))
  }

  lemma MergeUnchangedSince()
    ensures forall d, d' {:trigger MergeDevice(d, d', d)} :: MergeDevice(d, d', d) == d'
    ensures forall t, t' {:trigger MergeTunnel(t, t', t)} :: MergeTunnel(t, t', t) == t'
  {
  }

  /** Alone, a plan that got as far as a port either stores both rows or reports the port as taken. */
  lemma SerialEnable(cfg: Settings, db: Db, id: string, p: EnableIn, port: int)
    requires id in db.devices && (id in db.tunnels ==> !db.tunnels[id].enabled)
    requires ChosenPort(cfg, db, p) == Some(port) && PortAllowed(cfg, port)
    ensures var device := db.devices[id];
            var row := EnabledTunnel(cfg, BaseRow(cfg, db, id, port, p), device, port, p);
            var device' := if p.syncDeviceBaseUrl then device.(baseUrl := Some(row.internalBaseUrl)) else device;
            var db' := db.(devices := db.devices[id := device'], tunnels := db.tunnels[id := row]);
            Serial(cfg, db, Enable(id, p)) ==
              if Schema(db') then (db', Ok(())) else (db, Err(Conflict("remote port already allocated")))
  {
    hide Schema, MergeDevice, MergeTunnel, EnabledTunnel, FreshTunnel, NextPort;
    MergeUnchangedSince();
    assert db.devices[id := db.devices[id]] == db.devices;
  }

  /** The device row a plan writes: a new one, the old one with another base URL, or the old one changed. */
  lemma PlannedDeviceRow(cfg: Settings, db: Db, op: Op)
    ensures var p := Plan(cfg, db, op);
            p.Ok? ==>
              && p.value.id == op.id
              && (match p.value.device
                  case None => true
                  case Some(Insert(row)) => op.CreateDevice? && row == NewDevice(op.device)
                  case Some(Update(loaded, row)) =>
                    && op.id in db.devices && loaded == db.devices[op.id]
                    && (|| row == loaded.(baseUrl := row.baseUrl)
                        || (op.UpdateDevice? && row == ChangeDeviceAll(loaded, op.deviceChanges))))
  {
    hide EnabledTunnel, FreshTunnel, NextPort, ChangeTunnelAll, ChangeDeviceAll, InternalBaseUrl;
  }

  lemma PlannedTunnelRow(cfg: Settings, db: Db, op: Op)
    ensures var p := Plan(cfg, db, op);
            p.Ok? && p.value.tunnel.Some? && p.value.tunnel.value.Update? ==>
              op.id in db.tunnels && p.value.tunnel.value.loaded == db.tunnels[op.id]
  {
    hide EnabledTunnel, FreshTunnel, NextPort, ChangeTunnelAll, ChangeDeviceAll, InternalBaseUrl;
  }

  function Stored<T>(rows: map<string, T>, id: string, w: Option<RowWrite<T>>): map<string, T> {
    if w.None? then rows else rows[id := w.value.row]
  }

  /** Alone, a unit of work stores its rows as they are, or nothing. */
  lemma SerialWrites(cfg: Settings, db: Db, op: Op)
    ensures var (db', r) := Serial(cfg, db, op);
            var p := Plan(cfg, db, op);
            && (r.Err? ==> db' == db)
            && (r.Ok? ==>
                  && p.Ok? && p.value.id == op.id
                  && db' == db.(devices := Stored(db.devices, op.id, p.value.device),
                                tunnels := Stored(db.tunnels, op.id, p.value.tunnel))
                  && (p.value.device.Some? && p.value.device.value.Insert? ==> op.id !in db.devices)
                  && (p.value.tunnel.Some? && p.value.tunnel.value.Insert? ==> op.id !in db.tunnels))
  {
    PlannedDeviceRow(cfg, db, op);
    PlannedTunnelRow(cfg, db, op);
    MergeUnchangedSince();
    hide Plan, Schema, MergeDevice, MergeTunnel;
  }

  /** What a serial operation does to any one device row. */
  lemma SerialDeviceRow(cfg: Settings, db: Db, op: Op, d: string)
    ensures var db' := Serial(cfg, db, op).0;
            && (d in db.devices ==>
                  && d in db'.devices
                  && (|| db'.devices[d] == db.devices[d].(baseUrl := db'.devices[d].baseUrl)
                      || (op.UpdateDevice? && db'.devices[d] == ChangeDeviceAll(db.devices[d], op.deviceChanges))))
            && (d !in db.devices && d in db'.devices ==> op.CreateDevice? && db'.devices[d] == NewDevice(op.device))
  {
    PlannedDeviceRow(cfg, db, op);
    SerialWrites(cfg, db, op);
    hide Plan, Serial, ChangeDeviceAll;
  }
}
