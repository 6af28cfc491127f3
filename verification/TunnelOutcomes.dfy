/** The outcome of every device and tunnel request, said from the request and the settings: when it succeeds, with
    which error it fails otherwise, and what exactly it leaves in the tables. Everything here holds in any state that
    meets the constraints, so in every reachable one. */
module TunnelOutcomes {
  import opened Prelude
  import opened Decimal
  import opened Models
  import opened Transactions
  import opened Devices
  import opened Tunnels
  import opened PortSafety
  import opened BaseUrls

  // ---- devices ----

  /** A new id gets an inactive device with the columns of the request; a secret is kept unless it is empty. */
  lemma CreateDeviceOutcome(cfg: Settings, db: Db, id: string, p: DeviceCreate)
    requires Schema(db)
    ensures Serial(cfg, db, CreateDevice(id, p)) ==
              if id in db.devices then (db, Err(IntegrityError))
              else
                (db.(devices := db.devices[id := Device(
                       p.deviceName, Some(p.channelType), p.baseUrl,
                       if p.signSecret == Some("") then None else p.signSecret,
                       "inactive", false, None, None, 0)]),
                 Ok(()))
  {
    var row := NewDevice(p);
    var db' := db.(devices := db.devices[id := row]);
    assert id !in db.devices ==> Schema(db');
  }

  predicate NamesUrl(changes: seq<DeviceChange>) {
    exists i | 0 <= i < |changes| :: changes[i].SetBaseUrl?
  }

  /** The last channel the request names is null. */
  predicate EndsWithoutChannel(changes: seq<DeviceChange>) {
    exists i | 0 <= i < |changes| ::
      changes[i] == SetChannel(None) && forall j | i < j < |changes| :: !changes[j].SetChannel?
  }

  /** A row the request's changes lead to: the last change that counts in each column, nothing else touched. */
  ghost predicate Changed(row: Device, row': Device, changes: seq<DeviceChange>) {
    && (forall i | 0 <= i < |changes| && DeviceChangeCounts(changes[i])
                   && (forall j | i < j < |changes| && DeviceChangeCounts(changes[j]) ::
                         !SameDeviceColumn(changes[i], changes[j])) ::
          DeviceHolds(row', changes[i]))
    && (forall c | forall j | 0 <= j < |changes| && DeviceChangeCounts(changes[j]) ::
                     !SameDeviceColumn(c, changes[j]) ::
          DeviceHolds(row', c) <==> DeviceHolds(row, c))
    && row'.status == row.status && row'.isActive == row.isActive && row'.lastSeenAt == row.lastSeenAt
    && row'.lastWebhookAt == row.lastWebhookAt && row'.webhookCount == row.webhookCount
  }

  lemma ChangesChange(d: Device, changes: seq<DeviceChange>)
    ensures Changed(d, ChangeDeviceAll(d, changes), changes)
  {
    ChangeDeviceKeepsActivity(d, changes);
    ChangeDeviceBaseUrl(d, changes);
    hide ChangeDeviceAll, DeviceHolds, SameDeviceColumn, DeviceChangeCounts;
    forall i | 0 <= i < |changes| && DeviceChangeCounts(changes[i])
               && (forall j | i < j < |changes| && DeviceChangeCounts(changes[j]) ::
                     !SameDeviceColumn(changes[i], changes[j]))
      ensures DeviceHolds(ChangeDeviceAll(d, changes), changes[i])
    {
      LastDeviceChangeHolds(d, changes, i);
    }
    forall c | forall j | 0 <= j < |changes| && DeviceChangeCounts(changes[j]) :: !SameDeviceColumn(c, changes[j])
      ensures DeviceHolds(ChangeDeviceAll(d, changes), c) <==> DeviceHolds(d, c)
    {
      UnnamedDeviceColumnStays(d, changes, c);
    }
  }

  lemma EndsOneMore(init: seq<DeviceChange>, last: DeviceChange)
    ensures EndsWithoutChannel(init + [last])
            <==> if last.SetChannel? then last.channel.None? else EndsWithoutChannel(init)
  {
    var changes := init + [last];
    assert changes[|init|] == last;
    assert forall i | 0 <= i < |init| :: changes[i] == init[i];
    if !last.SetChannel? && EndsWithoutChannel(init) {
      var i :| 0 <= i < |init| && init[i] == SetChannel(None) && forall j | i < j < |init| :: !init[j].SetChannel?;
      assert changes[i] == SetChannel(None);
    }
  }

  lemma {:induction false} ChannelAfter(d: Device, changes: seq<DeviceChange>)
    requires d.channelType.Some?
    ensures ChangeDeviceAll(d, changes).channelType.None? <==> EndsWithoutChannel(changes)
  {
    hide EndsWithoutChannel;
    if changes == [] {
      NoChannelNamed();
    } else {
      var init, last := changes[..|changes| - 1], changes[|changes| - 1];
      ChannelAfter(d, init);
      EndsOneMore(init, last);
      assert changes == init + [last];
    }
  }

  lemma NoChannelNamed()
    ensures !EndsWithoutChannel([])
  {
  }

  lemma RowFitsSchema(db: Db, id: string, row: Device)
    requires Schema(db) && id in db.devices
    ensures Schema(db.(devices := db.devices[id := row])) <==> row.channelType.Some?
  {
    var db' := db.(devices := db.devices[id := row]);
    assert OwnersExist(db');
    assert !row.channelType.Some? ==> id in db'.devices && db'.devices[id].channelType.None?;
  }

  /** An update succeeds exactly for a known device, without a base URL under an enabled tunnel, and without leaving
      the channel null; it then changes that row only. */
  lemma UpdateDeviceOutcome(cfg: Settings, db: Db, id: string, changes: seq<DeviceChange>)
    requires Schema(db)
    ensures var (db', r) := Serial(cfg, db, UpdateDevice(id, changes));
            && r == (if id !in db.devices then Err(NotFound("device not found"))
                     else if NamesUrl(changes) && id in db.tunnels && db.tunnels[id].enabled then
                       Err(Conflict("base_url is managed by tunnel"))
                     else if EndsWithoutChannel(changes) then Err(IntegrityError)
                     else Ok(()))
            && (r.Err? ==> db' == db)
            && (r.Ok? ==>
                  && id in db.devices && id in db'.devices
                  && db' == db.(devices := db.devices[id := db'.devices[id]])
                  && Changed(db.devices[id], db'.devices[id], changes))
  {
    MergeUnchangedSince();
    if id in db.devices {
      var row := ChangeDeviceAll(db.devices[id], changes);
      ChannelAfter(db.devices[id], changes);
      RowFitsSchema(db, id, row);
      ChangesChange(db.devices[id], changes);
      hide Schema, MergeDevice, ChangeDeviceAll, Changed, EndsWithoutChannel;
      assert db.(devices := db.devices[id := row], tunnels := db.tunnels) == db.(devices := db.devices[id := row]);
    }
  }

  // ---- enabling ----

  /** Both rows of an enabled device, from the request and the settings; an existing tunnel keeps its proxy name and
      the time of its last configuration. */
  ghost predicate EnabledRows(
      cfg: Settings, db: Db, db': Db, id: string, p: EnableIn, port: int)
    requires id in db.devices
  {
    var device, own := db.devices[id], "http://" + cfg.internalHost + ":" + Render(port);
    && id in db'.devices && id in db'.tunnels
    && db' == db.(devices := db.devices[id := db'.devices[id]], tunnels := db.tunnels[id := db'.tunnels[id]])
    && db'.devices[id] == device.(baseUrl := if p.syncDeviceBaseUrl then Some(own) else device.baseUrl)
    && db'.tunnels[id] == Tunnel(
         true, "tcp",
         if id in db.tunnels then db.tunnels[id].proxyName
         else "smsf-" + (if |id| <= 123 then id else id[..123]),
         p.localIp, p.localPort, port, cfg.frpsToken, own,
         Some("tcp://" + cfg.publicHost + ":" + Render(port)),
         device.baseUrl, p.useEncryption, p.useCompression, "active",
         if id in db.tunnels then db.tunnels[id].lastConfigAt else None)
  }

  /** The rows an enable would store, and when they fit the constraints. */
  lemma EnabledRowsFit(cfg: Settings, db: Db, db': Db, id: string, p: EnableIn, port: int)
    requires Schema(db) && id in db.devices && EnabledRows(cfg, db, db', id, p, port)
    ensures Schema(db') <==> !TakenByOther(db, id, port)
  {
    assert ChannelsPresent(db'.devices);
    hide Schema, TakenByOther;
    PortDecidesSchema(db, db', id);
  }

  lemma EnableWrites(cfg: Settings, db: Db, id: string, p: EnableIn, port: int)
    requires id in db.devices
    ensures var device := db.devices[id];
            var row := EnabledTunnel(cfg, BaseRow(cfg, db, id, port, p), device, port, p);
            var device' := if p.syncDeviceBaseUrl then device.(baseUrl := Some(row.internalBaseUrl)) else device;
            var db' := db.(devices := db.devices[id := device'], tunnels := db.tunnels[id := row]);
            EnabledRows(cfg, db, db', id, p, port)
  {
    ShortName(id);
    hide ProxyName;
  }

  lemma EnableWithPort(cfg: Settings, db: Db, id: string, p: EnableIn, port: int)
    requires Schema(db) && id in db.devices && !Enabled(db, id)
    requires ChosenPort(cfg, db, p) == Some(port) && PortAllowed(cfg, port)
    ensures var (db', r) := Serial(cfg, db, Enable(id, p));
            && r == (if TakenByOther(db, id, port) then Err(Conflict("remote port already allocated")) else Ok(()))
            && (r.Err? ==> db' == db)
            && (r.Ok? ==> EnabledRows(cfg, db, db', id, p, port))
  {
    SerialEnable(cfg, db, id, p, port);
    EnableWrites(cfg, db, id, p, port);
    var device := db.devices[id];
    var row := EnabledTunnel(cfg, BaseRow(cfg, db, id, port, p), device, port, p);
    var device' := if p.syncDeviceBaseUrl then device.(baseUrl := Some(row.internalBaseUrl)) else device;
    hide Serial, Schema, TakenByOther, EnabledRows, EnabledTunnel, BaseRow, ChosenPort;
    EnabledRowsFit(cfg, db, db.(devices := db.devices[id := device'], tunnels := db.tunnels[id := row]), id, p, port);
  }

  /** The least port of the range that no row holds. */
  predicate LeastUntaken(cfg: Settings, db: Db, port: int) {
    && cfg.portMin <= port <= cfg.portMax && !Taken(db, port)
    && forall q | cfg.portMin <= q < port :: Taken(db, q)
  }

  /** With an explicit port, which zero is not, exactly that port is used or refused. */
  lemma ExplicitEnableOutcome(cfg: Settings, db: Db, id: string, p: EnableIn, port: int)
    requires Schema(db) && p.remotePort == Some(port) && port != 0
    ensures var (db', r) := Serial(cfg, db, Enable(id, p));
            && r == (if id !in db.devices then Err(NotFound("device not found"))
                     else if id in db.tunnels && db.tunnels[id].enabled then
                       Err(Conflict("device tunnel already enabled"))
                     else if !(cfg.portMin <= port <= cfg.portMax) then
                       Err(Conflict("remote port is outside frps allow range"))
                     else if exists e | e in db.tunnels && e != id :: db.tunnels[e].remotePort == port then
                       Err(Conflict("remote port already allocated"))
                     else Ok(()))
            && (r.Err? ==> db' == db)
            && (r.Ok? ==> id in db.devices && EnabledRows(cfg, db, db', id, p, port))
  {
    if id in db.devices && !Enabled(db, id) && PortAllowed(cfg, port) {
      EnableWithPort(cfg, db, id, p, port);
      hide Serial, Schema, EnabledRows;
      assert TakenByOther(db, id, port) <==> exists e | e in db.tunnels && e != id :: db.tunnels[e].remotePort == port;
    } else {
      hide Schema, EnabledTunnel, FreshTunnel, NextPort, EnabledRows;
    }
  }

  /** Without one, the least port no row holds is used, the device's own old row included; it fails only when there
      is none. */
  lemma AutomaticEnableOutcome(cfg: Settings, db: Db, id: string, p: EnableIn)
    requires Schema(db) && (p.remotePort == None || p.remotePort == Some(0))
    ensures var (db', r) := Serial(cfg, db, Enable(id, p));
            && r == (if id !in db.devices then Err(NotFound("device not found"))
                     else if id in db.tunnels && db.tunnels[id].enabled then
                       Err(Conflict("device tunnel already enabled"))
                     else if forall q | cfg.portMin <= q <= cfg.portMax :: Taken(db, q) then
                       Err(Conflict("no frps remote ports available"))
                     else Ok(()))
            && (r.Err? ==> db' == db)
            && (r.Ok? ==>
                  && id in db.devices && id in db'.tunnels && LeastUntaken(cfg, db, db'.tunnels[id].remotePort)
                  && EnabledRows(cfg, db, db', id, p, db'.tunnels[id].remotePort))
  {
    NextIsLeastUntaken(cfg, db);
    var next := NextPort(cfg, db);
    if id in db.devices && !Enabled(db, id) && next.Some? {
      EnableWithPort(cfg, db, id, p, next.value);
      assert !TakenByOther(db, id, next.value);
      hide Serial, Schema;
    } else {
      hide Schema, EnabledTunnel, FreshTunnel, NextPort, EnabledRows, LeastUntaken;
    }
  }

  lemma NextIsLeastUntaken(cfg: Settings, db: Db)
    ensures var r := NextPort(cfg, db);
            && (r.None? <==> forall q | cfg.portMin <= q <= cfg.portMax :: Taken(db, q))
            && (r.Some? ==> LeastUntaken(cfg, db, r.value))
  {
    var used := UsedPorts(cfg, db.tunnels);
    assert forall q | cfg.portMin <= q <= cfg.portMax :: q in used <==> Taken(db, q);
    hide UsedPorts, LeastFree;
  }

  // ---- the other tunnel requests ----

  /** What every request on an existing tunnel answers when device or tunnel is missing. */
  function Missing(db: Db, id: string): Result<(), Error> {
    if id !in db.devices then Err(NotFound("device not found"))
    else if id !in db.tunnels then Err(NotFound("device tunnel not found"))
    else Ok(())
  }

  lemma RowsFitSchema(db: Db, id: string, device: Device, row: Tunnel)
    requires Schema(db) && id in db.devices && id in db.tunnels
    requires device.channelType == db.devices[id].channelType && row.remotePort == db.tunnels[id].remotePort
    ensures Schema(db.(devices := db.devices[id := device], tunnels := db.tunnels[id := row]))
  {
    var db' := db.(devices := db.devices[id := device], tunnels := db.tunnels[id := row]);
    assert OwnersExist(db') && ChannelsPresent(db'.devices) && PortsUnique(db'.tunnels);
  }

  lemma TunnelWriteOutcome(cfg: Settings, db: Db, op: Op, row: Tunnel)
    requires Schema(db) && op.id in db.devices && op.id in db.tunnels
    requires row.remotePort == db.tunnels[op.id].remotePort
    requires Plan(cfg, db, op) == Ok(Txn(op.id, None, Some(Update(db.tunnels[op.id], row))))
    ensures Serial(cfg, db, op) == (db.(tunnels := db.tunnels[op.id := row]), Ok(()))
  {
    hide Plan, Schema, MergeTunnel, MergeDevice;
    MergeUnchangedSince();
    RowsFitSchema(db, op.id, db.devices[op.id], row);
    assert db.devices[op.id := db.devices[op.id]] == db.devices;
  }

  /** Disabling switches the tunnel off, keeps all else of it, its port included, and puts the saved URL on the
      device, whether or not the tunnel was on. */
  lemma DisableOutcome(cfg: Settings, db: Db, id: string)
    requires Schema(db)
    ensures var (db', r) := Serial(cfg, db, Disable(id));
            && r == Missing(db, id)
            && db' == if r.Err? then db else
                 db.(devices := db.devices[id := db.devices[id].(baseUrl := db.tunnels[id].previousBaseUrl)],
                     tunnels := db.tunnels[id := db.tunnels[id].(enabled := false, status := "disabled")])
  {
    if id in db.devices && id in db.tunnels {
      var device, row := db.devices[id], db.tunnels[id];
      RowsFitSchema(db, id, device.(baseUrl := row.previousBaseUrl), row.(enabled := false, status := "disabled"));
      hide Schema, MergeTunnel, MergeDevice;
      MergeUnchangedSince();
    }
  }

  /** Rotating stores the configured token and changes nothing else. */
  lemma RotateTokenOutcome(cfg: Settings, db: Db, id: string)
    requires Schema(db)
    ensures var (db', r) := Serial(cfg, db, RotateToken(id));
            && r == Missing(db, id)
            && db' == if r.Err? then db else
                 db.(tunnels := db.tunnels[id := db.tunnels[id].(authToken := cfg.frpsToken)])
  {
    if id in db.devices && id in db.tunnels {
      TunnelWriteOutcome(cfg, db, RotateToken(id), db.tunnels[id].(authToken := cfg.frpsToken));
    }
  }

  /** Rendering a configuration records the time and changes nothing else. */
  lemma RenderConfigOutcome(cfg: Settings, db: Db, id: string, now: Time)
    requires Schema(db)
    ensures var (db', r) := Serial(cfg, db, RenderConfig(id, now));
            && r == Missing(db, id)
            && db' == if r.Err? then db else
                 db.(tunnels := db.tunnels[id := db.tunnels[id].(lastConfigAt := Some(now))])
  {
    if id in db.devices && id in db.tunnels {
      TunnelWriteOutcome(cfg, db, RenderConfig(id, now), db.tunnels[id].(lastConfigAt := Some(now)));
    }
  }

  /** An update always goes through and reaches only address and transport flags, each of which ends with the last
      value given for it. */
  lemma UpdateTunnelOutcome(cfg: Settings, db: Db, id: string, changes: seq<TunnelChange>)
    requires Schema(db)
    ensures var (db', r) := Serial(cfg, db, UpdateTunnel(id, changes));
            && r == Missing(db, id)
            && (r.Err? ==> db' == db)
            && (r.Ok? ==>
                  var row := db.tunnels[id];
                  && id in db'.tunnels && db' == db.(tunnels := db.tunnels[id := db'.tunnels[id]])
                  && var row' := db'.tunnels[id];
                  && row' == row.(localIp := row'.localIp, localPort := row'.localPort,
                                  useEncryption := row'.useEncryption, useCompression := row'.useCompression)
                  && (forall i | 0 <= i < |changes| && GivesValue(changes[i])
                                 && (forall j | i < j < |changes| && GivesValue(changes[j]) ::
                                       !SameTunnelColumn(changes[i], changes[j])) ::
                        TunnelHolds(row', changes[i]))
                  && (forall c | forall j | 0 <= j < |changes| && GivesValue(changes[j]) ::
                                   !SameTunnelColumn(c, changes[j]) ::
                        TunnelHolds(row', c) <==> TunnelHolds(row, c)))
  {
    if id in db.devices && id in db.tunnels {
      var row := db.tunnels[id];
      var row' := ChangeTunnelAll(row, changes);
      ChangeReachesFour(row, changes);
      TunnelWriteOutcome(cfg, db, UpdateTunnel(id, changes), row');
      hide Serial, Schema, ChangeTunnelAll, TunnelHolds, SameTunnelColumn, GivesValue;
      forall i | 0 <= i < |changes| && GivesValue(changes[i])
                 && (forall j | i < j < |changes| && GivesValue(changes[j]) ::
                       !SameTunnelColumn(changes[i], changes[j]))
        ensures TunnelHolds(row', changes[i])
      {
        LastTunnelChangeHolds(row, changes, i);
      }
      forall c | forall j | 0 <= j < |changes| && GivesValue(changes[j]) :: !SameTunnelColumn(c, changes[j])
        ensures TunnelHolds(row', c) <==> TunnelHolds(row, c)
      {
        UnnamedTunnelColumnStays(row, changes, c);
      }
    }
  }
}
