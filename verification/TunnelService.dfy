/** app/services/device_service.py and app/services/tunnel_service.py in their own form: services that assign
    row columns over a session and commit, proved to carry out the serial operations of `Tunnels`. */
module TunnelService {
  import opened Prelude
  import opened Models
  import opened Transactions
  import opened Devices
  import opened Tunnels
  import opened FrpcToml

  /** The method's report agrees with the operation's outcome. */
  predicate Reports<T>(r: Result<T, Error>, outcome: Result<(), Error>) {
    match outcome
    case Ok(_) => r.Ok?
    case Err(e) => r == Err(e)
  }

  class DeviceService {
    const db: Session
    const cfg: Settings

    constructor (db: Session, cfg: Settings)
      ensures this.db == db && this.cfg == cfg
    {
      this.db := db;
      this.cfg := cfg;
    }

    /** `deviceId` is the generated id. */
    method Create(deviceId: string, p: DeviceCreate) returns (r: Result<Device, Error>)
      requires db.Clean()
      modifies db
      ensures db.Clean()
      ensures var (db', outcome) := Serial(cfg, old(db.store), CreateDevice(deviceId, p));
              && db.store == db' && Reports(r, outcome)
              && (r.Ok? ==> deviceId in db.store.devices && r.value == db.store.devices[deviceId])
    {
      if deviceId in db.pending.devices {
        return Err(IntegrityError);
      }
      var device := Device(
        p.deviceName, Some(p.channelType), p.baseUrl, if p.signSecret == Some("") then None else p.signSecret,
        "inactive", false, None, None, 0);
      db.pending := db.pending.(devices := db.pending.devices[deviceId := device]);
      var ok := db.Commit();
      if !ok {
        db.Rollback();
        return Err(IntegrityError);
      }
      return Ok(db.store.devices[deviceId]);
    }

    method Update(deviceId: string, changes: seq<DeviceChange>) returns (r: Result<Device, Error>)
      requires db.Clean()
      modifies db
      ensures db.Clean()
      ensures var (db', outcome) := Serial(cfg, old(db.store), UpdateDevice(deviceId, changes));
              && db.store == db' && Reports(r, outcome)
              && (r.Ok? ==> deviceId in db.store.devices && r.value == db.store.devices[deviceId])
    {
      hide Schema, MergeDevice, MergeTunnel;
      MergeUnchangedSince();
      if deviceId !in db.pending.devices {
        return Err(NotFound("device not found"));
      }
      var device := db.pending.devices[deviceId];
      if TouchesBaseUrl(changes) {
        if deviceId in db.pending.tunnels && db.pending.tunnels[deviceId].enabled {
          return Err(Conflict("base_url is managed by tunnel"));
        }
      }
      for i := 0 to |changes|
        invariant device == ChangeDeviceAll(db.pending.devices[deviceId], changes[..i])
      {
        device := ChangeDevice(device, changes[i]);
        assert changes[..i + 1][..i] == changes[..i];
      }
      assert changes[..|changes|] == changes;
      db.pending := db.pending.(devices := db.pending.devices[deviceId := device]);
      var ok := db.Commit();
      if !ok {
        db.Rollback();
        return Err(IntegrityError);
      }
      return Ok(db.store.devices[deviceId]);
    }
  }

  class TunnelService {
    const db: Session
    const cfg: Settings

    constructor (db: Session, cfg: Settings)
      ensures this.db == db && this.cfg == cfg
    {
      this.db := db;
      this.cfg := cfg;
    }

    /** Scans the range upward: the first port no tunnel row holds, enabled or not. */
    method NextRemotePort() returns (r: Option<int>)
      ensures r == NextPort(cfg, db.pending)
      ensures r.Some? ==> PortAllowed(cfg, r.value)
      ensures r.Some? ==> forall d | d in db.pending.tunnels :: db.pending.tunnels[d].remotePort != r.value
    {
      var used := UsedPorts(cfg, db.pending.tunnels);
      var port := cfg.portMin;
      while port <= cfg.portMax
        invariant port >= cfg.portMin
        invariant LeastFree(used, cfg.portMin, cfg.portMax) == LeastFree(used, port, cfg.portMax)
        decreases cfg.portMax - port
      {
        if port !in used {
          return Some(port);
        }
        port := port + 1;
      }
      return None;
    }

    /** The column assignments of `enable` on a new or existing row. */
    method AssignEnabled(deviceId: string, device: Device, port: int, p: EnableIn) returns (tunnel: Tunnel)
      ensures tunnel == EnabledTunnel(cfg, BaseRow(cfg, db.pending, deviceId, port, p), device, port, p)
    {
      hide InternalBaseUrl, PublicBaseUrl, ProxyName;
      if deviceId !in db.pending.tunnels {
        tunnel := Tunnel(
          false, "tcp", ProxyName(deviceId), "127.0.0.1", p.localPort, port, cfg.frpsToken,
          InternalBaseUrl(cfg, port), None, None, true, true, "pending", None);
      } else {
        tunnel := db.pending.tunnels[deviceId];
        tunnel := tunnel.(remotePort := port);
        tunnel := tunnel.(authToken := cfg.frpsToken);
        tunnel := tunnel.(internalBaseUrl := InternalBaseUrl(cfg, port));
      }
      tunnel := tunnel.(enabled := true, proxyType := "tcp");
      tunnel := tunnel.(localIp := p.localIp, localPort := p.localPort);
      tunnel := tunnel.(publicBaseUrl := Some(PublicBaseUrl(cfg, port)));
      tunnel := tunnel.(previousBaseUrl := device.baseUrl);
      tunnel := tunnel.(useEncryption := p.useEncryption, useCompression := p.useCompression);
      tunnel := tunnel.(status := "active");
    }

    method Enable(deviceId: string, p: EnableIn) returns (r: Result<Tunnel, Error>)
      requires db.Clean()
      modifies db
      ensures db.Clean()
      ensures var (db', outcome) := Serial(cfg, old(db.store), Tunnels.Enable(deviceId, p));
              && db.store == db' && Reports(r, outcome)
              && (r.Ok? ==> deviceId in db.store.tunnels && r.value == db.store.tunnels[deviceId])
    {
      hide Schema, MergeDevice, MergeTunnel;
      MergeUnchangedSince();
      if deviceId !in db.pending.devices {
        return Err(NotFound("device not found"));
      }
      var device := db.pending.devices[deviceId];
      if deviceId in db.pending.tunnels && db.pending.tunnels[deviceId].enabled {
        return Err(Conflict("device tunnel already enabled"));
      }
      var chosen := p.remotePort;
      if chosen.None? || chosen.value == 0 {
        chosen := NextRemotePort();
      }
      if chosen.None? {
        return Err(Conflict("no frps remote ports available"));
      }
      var port := chosen.value;
      if port < cfg.portMin || port > cfg.portMax {
        return Err(Conflict("remote port is outside frps allow range"));
      }
      var tunnel := AssignEnabled(deviceId, device, port, p);
      if p.syncDeviceBaseUrl {
        device := device.(baseUrl := Some(tunnel.internalBaseUrl));
      }
      SerialEnable(cfg, db.store, deviceId, p, port);
      hide Serial, EnabledTunnel, FreshTunnel;
      var ok := CommitRows(deviceId, device, tunnel);
      return if ok then Ok(tunnel) else Err(Conflict("remote port already allocated"));
    }

    method Update(deviceId: string, changes: seq<TunnelChange>) returns (r: Result<Tunnel, Error>)
      requires db.Clean()
      modifies db
      ensures db.Clean()
      ensures var (db', outcome) := Serial(cfg, old(db.store), UpdateTunnel(deviceId, changes));
              && db.store == db' && Reports(r, outcome)
              && (r.Ok? ==> deviceId in db.store.tunnels && r.value == db.store.tunnels[deviceId])
    {
      hide Schema, MergeDevice, MergeTunnel;
      MergeUnchangedSince();
      var found := RequireTunnel(deviceId);
      if found.Err? {
        return found;
      }
      var tunnel := found.value;
      for i := 0 to |changes|
        invariant tunnel == ChangeTunnelAll(found.value, changes[..i])
      {
        tunnel := ChangeTunnel(tunnel, changes[i]);
        assert changes[..i + 1][..i] == changes[..i];
      }
      assert changes[..|changes|] == changes;
      r := Store(deviceId, tunnel);
    }

    method Disable(deviceId: string) returns (r: Result<Tunnel, Error>)
      requires db.Clean()
      modifies db
      ensures db.Clean()
      ensures var (db', outcome) := Serial(cfg, old(db.store), Tunnels.Disable(deviceId));
              && db.store == db' && Reports(r, outcome)
              && (r.Ok? ==> deviceId in db.store.tunnels && r.value == db.store.tunnels[deviceId])
    {
      hide Schema, MergeDevice, MergeTunnel;
      MergeUnchangedSince();
      var found := RequireTunnel(deviceId);
      if found.Err? {
        return found;
      }
      var device, tunnel := db.pending.devices[deviceId], found.value;
      tunnel := tunnel.(enabled := false);
      tunnel := tunnel.(status := "disabled");
      device := device.(baseUrl := tunnel.previousBaseUrl);
      var ok := CommitRows(deviceId, device, tunnel);
      return if ok then Ok(tunnel) else Err(IntegrityError);
    }

    method RotateToken(deviceId: string) returns (r: Result<string, Error>)
      requires db.Clean()
      modifies db
      ensures db.Clean()
      ensures var (db', outcome) := Serial(cfg, old(db.store), Tunnels.RotateToken(deviceId));
              && db.store == db' && Reports(r, outcome) && (r.Ok? ==> r.value == cfg.frpsToken)
    {
      hide Schema, MergeDevice, MergeTunnel;
      MergeUnchangedSince();
      var found := RequireTunnel(deviceId);
      if found.Err? {
        return Err(found.error);
      }
      var stored := Store(deviceId, found.value.(authToken := cfg.frpsToken));
      if stored.Err? {
        return Err(stored.error);
      }
      return Ok(cfg.frpsToken);
    }

    /** `now` is the clock reading recorded on the row. */
    method RenderConfig(deviceId: string, now: Time) returns (r: Result<ConfigFile, Error>)
      requires db.Clean()
      modifies db
      ensures db.Clean()
      ensures var (db', outcome) := Serial(cfg, old(db.store), Tunnels.RenderConfig(deviceId, now));
              && db.store == db' && Reports(r, outcome)
              && (r.Ok? ==> deviceId in db.store.tunnels && r.value == Rendered(cfg, db.store.tunnels[deviceId]))
    {
      hide Schema, MergeDevice, MergeTunnel, Toml;
      MergeUnchangedSince();
      var found := RequireTunnel(deviceId);
      if found.Err? {
        return Err(found.error);
      }
      var stored := Store(deviceId, found.value.(lastConfigAt := Some(now)));
      if stored.Err? {
        return Err(stored.error);
      }
      return Ok(ConfigFile(stored.value.proxyName + "-frpc.toml", Toml(cfg, stored.value)));
    }

    method RequireTunnel(deviceId: string) returns (r: Result<Tunnel, Error>)
      ensures r.Ok? <==> deviceId in db.pending.devices && deviceId in db.pending.tunnels
      ensures r.Ok? ==> r.value == db.pending.tunnels[deviceId]
      ensures r.Err? ==> r.error == NotFound(
                if deviceId in db.pending.devices then "device tunnel not found" else "device not found")
    {
      if deviceId !in db.pending.devices {
        return Err(NotFound("device not found"));
      }
      if deviceId !in db.pending.tunnels {
        return Err(NotFound("device tunnel not found"));
      }
      return Ok(db.pending.tunnels[deviceId]);
    }

    /** Commits both rows, or rolls both back. */
    method CommitRows(deviceId: string, device: Device, tunnel: Tunnel) returns (ok: bool)
      requires db.Clean()
      modifies db
      ensures db.Clean()
      ensures var db' := old(db.store).(
                devices := old(db.store.devices)[deviceId := device],
                tunnels := old(db.store.tunnels)[deviceId := tunnel]);
              ok == Schema(db') && db.store == if ok then db' else old(db.store)
    {
      db.pending := db.pending.(
        devices := db.pending.devices[deviceId := device],
        tunnels := db.pending.tunnels[deviceId := tunnel]);
      ok := db.Commit();
      if !ok {
        db.Rollback();
      }
    }

    method Store(deviceId: string, tunnel: Tunnel) returns (r: Result<Tunnel, Error>)
      requires db.Clean()
      modifies db
      ensures db.Clean()
      ensures var db' := old(db.store).(tunnels := old(db.store.tunnels)[deviceId := tunnel]);
              && db.store == (if Schema(db') then db' else old(db.store))
              && r == if Schema(db') then Ok(tunnel) else Err(IntegrityError)
    {
      db.pending := db.pending.(tunnels := db.pending.tunnels[deviceId := tunnel]);
      var ok := db.Commit();
      if !ok {
        db.Rollback();
        return Err(IntegrityError);
      }
      return Ok(tunnel);
    }
  }
}
