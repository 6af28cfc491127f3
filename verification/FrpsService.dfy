/** app/services/frps_service.py: joining the frps dashboard's proxies with the devices' tunnels. */
module FrpsService {
  import opened Prelude
  import opened Models
  import opened Tunnels
  import opened PortSafety

  datatype Proxy = Proxy(
    name: string,
    status: string,
    remotePort: Option<int>,
    clientVersion: Option<string>,
    todayTrafficIn: Option<string>,
    todayTrafficOut: Option<string>,
    lastStartTime: Option<Time>)

  datatype Item = Item(
    deviceId: string,
    deviceName: Option<string>,
    channelType: Option<string>,
    baseUrl: Option<string>,
    tunnelEnabled: bool,
    proxyName: string,
    remotePort: int,
    localIp: string,
    localPort: int,
    connected: bool,
    frpsStatus: string,
    clientVersion: Option<string>,
    todayTrafficIn: Option<string>,
    todayTrafficOut: Option<string>,
    lastStartTime: Option<Time>)

  datatype Listing = Listing(items: seq<Item>, total: nat, connected: nat)

  // ---- the service ----

  /** `{proxy.name: proxy for proxy in proxies}` */
  function ProxiesByName(proxies: seq<Proxy>): map<string, Proxy> {
    if proxies == [] then map[]
    else
      var last := proxies[|proxies| - 1];
      ProxiesByName(proxies[..|proxies| - 1])[last.name := last]
  }

  function Find(byName: map<string, Proxy>, name: string): Option<Proxy> {
    if name in byName then Some(byName[name]) else None
  }

  /** `lower` is `str.lower`. */
  predicate Online(lower: string -> string, proxy: Option<Proxy>) {
    proxy.Some? && lower(proxy.value.status) == "online"
  }

  function BuildItem(lower: string -> string, id: string, d: Device, t: Tunnel, proxy: Option<Proxy>): Item {
    Item(id, d.deviceName, d.channelType, d.baseUrl, t.enabled, t.proxyName, t.remotePort, t.localIp, t.localPort,
         Online(lower, proxy),
         if proxy.Some? then proxy.value.status else "missing",
         if proxy.Some? then proxy.value.clientVersion else None,
         if proxy.Some? then proxy.value.todayTrafficIn else None,
         if proxy.Some? then proxy.value.todayTrafficOut else None,
         if proxy.Some? then proxy.value.lastStartTime else None)
  }

  function Smallest(ids: set<string>, tunnels: map<string, Tunnel>): (m: string)
    requires ids != {} && ids <= tunnels.Keys && PortsUnique(tunnels)
    ensures m in ids && forall d | d in ids :: tunnels[m].remotePort <= tunnels[d].remotePort
  {
    SmallestExists(ids, tunnels);
    var m :| m in ids && forall d | d in ids :: tunnels[m].remotePort <= tunnels[d].remotePort;
    m
  }

  lemma {:induction false} SmallestExists(ids: set<string>, tunnels: map<string, Tunnel>)
    requires ids != {} && ids <= tunnels.Keys
    ensures exists m :: m in ids && forall d | d in ids :: tunnels[m].remotePort <= tunnels[d].remotePort
  {
    var x :| x in ids;
    var rest := ids - {x};
    if rest != {} {
      SmallestExists(rest, tunnels);
      var m :| m in rest && forall d | d in rest :: tunnels[m].remotePort <= tunnels[d].remotePort;
      var least := if tunnels[x].remotePort <= tunnels[m].remotePort then x else m;
      assert forall d | d in ids :: d == x || d in rest;
      assert forall d | d in ids :: tunnels[least].remotePort <= tunnels[d].remotePort;
    } else {
      assert ids == {x};
    }
  }

  /** The join of both tables, `ORDER BY remote_port ASC`. */
  function OrderedRows(ids: set<string>, tunnels: map<string, Tunnel>): seq<string>
    requires ids <= tunnels.Keys && PortsUnique(tunnels)
  {
    if ids == {} then []
    else
      var m := Smallest(ids, tunnels);
      [m] + OrderedRows(ids - {m}, tunnels)
  }

  function Items(lower: string -> string, db: Db, byName: map<string, Proxy>, rows: seq<string>): seq<Item>
    requires forall i | 0 <= i < |rows| :: rows[i] in db.devices && rows[i] in db.tunnels
  {
    seq(|rows|, i requires 0 <= i < |rows| =>
      BuildItem(lower, rows[i], db.devices[rows[i]], db.tunnels[rows[i]],
                Find(byName, db.tunnels[rows[i]].proxyName)))
  }

  function Connected(): Item -> bool {
    (item: Item) => item.connected
  }

  /** `fetched` is the dashboard's answer, or the failure to get one. */
  function ListDevices(lower: string -> string, db: Db, fetched: Result<seq<Proxy>, Error>, connectedOnly: bool)
    : Result<Listing, Error>
    requires Schema(db)
  {
    match fetched
    case Err(e) => Err(e)
    case Ok(proxies) =>
      RowsAreJoined(db.tunnels.Keys, db.tunnels);
      var rows := OrderedRows(db.tunnels.Keys, db.tunnels);
      var all := Items(lower, db, ProxiesByName(proxies), rows);
      var items := if connectedOnly then FlatMap(all, Keep(Connected())) else all;
      Ok(Listing(items, |items|, Count(items, Connected())))
  }

  // ---- the rows ----

  /** Each id once, in the order of its port. */
  ghost predicate InPortOrder(rows: seq<string>, ids: set<string>, tunnels: map<string, Tunnel>)
    requires ids <= tunnels.Keys
  {
    && |rows| == |ids| && (forall i | 0 <= i < |rows| :: rows[i] in ids) && (forall d | d in ids :: d in rows)
    && forall i, j | 0 <= i < j < |rows| :: tunnels[rows[i]].remotePort < tunnels[rows[j]].remotePort
  }

  lemma PrependLeast(m: string, rest: seq<string>, ids: set<string>, tunnels: map<string, Tunnel>)
    requires m in ids && ids <= tunnels.Keys && InPortOrder(rest, ids - {m}, tunnels)
    requires forall d | d in ids && d != m :: tunnels[m].remotePort < tunnels[d].remotePort
    ensures InPortOrder([m] + rest, ids, tunnels)
  {
    var rows := [m] + rest;
    assert forall i | 0 < i < |rows| :: rows[i] == rest[i - 1];
    assert forall d | d in ids :: d == m || d in ids - {m};
    assert |ids - {m}| == |ids| - 1;
  }

  lemma {:induction false} RowsAreJoined(ids: set<string>, tunnels: map<string, Tunnel>)
    requires ids <= tunnels.Keys && PortsUnique(tunnels)
    ensures InPortOrder(OrderedRows(ids, tunnels), ids, tunnels)
  {
    if ids == {} {
    } else {
      var m := Smallest(ids, tunnels);
      var rest := OrderedRows(ids - {m}, tunnels);
      RowsAreJoined(ids - {m}, tunnels);
      assert OrderedRows(ids, tunnels) == [m] + rest;
      hide InPortOrder, OrderedRows;
      PrependLeast(m, rest, ids, tunnels);
    }
  }

  // ---- the dictionary join ----

  /** A search from the end of the dashboard's list. */
  function LastNamed(proxies: seq<Proxy>, name: string): (r: Option<Proxy>)
    ensures r.Some? ==> r.value.name == name && r.value in proxies
    ensures r.None? ==> forall p | p in proxies :: p.name != name
  {
    if proxies == [] then None
    else if proxies[|proxies| - 1].name == name then Some(proxies[|proxies| - 1])
    else LastNamed(proxies[..|proxies| - 1], name)
  }

  lemma {:induction false} JoinIsLastWins(proxies: seq<Proxy>, name: string)
    ensures Find(ProxiesByName(proxies), name) == LastNamed(proxies, name)
  {
    if proxies == [] {
    } else {
      JoinIsLastWins(proxies[..|proxies| - 1], name);
    }
  }

  // ---- the listing ----

  ghost predicate Ascending(items: seq<Item>) {
    forall i, j | 0 <= i < j < |items| :: items[i].remotePort < items[j].remotePort
  }

  predicate Lists(items: seq<Item>, d: string) {
    exists i | 0 <= i < |items| :: items[i].deviceId == d
  }

  /** The item shows this device's rows, joined to the last proxy of the dashboard's list that bears the
      tunnel's name, and is connected exactly when that one is online. */
  ghost predicate Shows(lower: string -> string, db: Db, proxies: seq<Proxy>, item: Item) {
    && item.deviceId in db.tunnels && item.deviceId in db.devices
    && var d, t := db.devices[item.deviceId], db.tunnels[item.deviceId];
       var proxy := LastNamed(proxies, t.proxyName);
    && item.deviceName == d.deviceName && item.channelType == d.channelType && item.baseUrl == d.baseUrl
    && item.tunnelEnabled == t.enabled && item.proxyName == t.proxyName && item.remotePort == t.remotePort
    && item.localIp == t.localIp && item.localPort == t.localPort
    && (item.connected <==> proxy.Some? && lower(proxy.value.status) == "online")
    && (match proxy
        case None =>
          && item.frpsStatus == "missing" && item.clientVersion.None? && item.lastStartTime.None?
          && item.todayTrafficIn.None? && item.todayTrafficOut.None?
        case Some(p) =>
          && item.frpsStatus == p.status && item.clientVersion == p.clientVersion
          && item.lastStartTime == p.lastStartTime
          && item.todayTrafficIn == p.todayTrafficIn && item.todayTrafficOut == p.todayTrafficOut)
  }

  lemma ItemsShowRows(lower: string -> string, db: Db, proxies: seq<Proxy>, rows: seq<string>)
    requires forall i | 0 <= i < |rows| :: rows[i] in db.devices && rows[i] in db.tunnels
    ensures var items := Items(lower, db, ProxiesByName(proxies), rows);
            && |items| == |rows|
            && forall i | 0 <= i < |rows| ::
                 && Shows(lower, db, proxies, items[i]) && items[i].deviceId == rows[i]
                 && items[i].remotePort == db.tunnels[rows[i]].remotePort
  {
    forall i | 0 <= i < |rows|
      ensures var item := Items(lower, db, ProxiesByName(proxies), rows)[i];
              && Shows(lower, db, proxies, item) && item.deviceId == rows[i]
              && item.remotePort == db.tunnels[rows[i]].remotePort
    {
      JoinIsLastWins(proxies, db.tunnels[rows[i]].proxyName);
      hide ProxiesByName, LastNamed, Find;
    }
  }

  /** One item for each tunnel and no other, strictly ascending by port. */
  lemma ListingIsTheJoin(lower: string -> string, db: Db, proxies: seq<Proxy>)
    requires Schema(db)
    ensures var r := ListDevices(lower, db, Ok(proxies), false);
            && r.Ok? && r.value.total == |r.value.items| == |db.tunnels|
            && r.value.connected == Count(r.value.items, Connected())
            && Ascending(r.value.items)
            && (forall d | d in db.tunnels :: Lists(r.value.items, d))
            && forall item | item in r.value.items :: Shows(lower, db, proxies, item)
  {
    var tunnels := db.tunnels;
    RowsAreJoined(tunnels.Keys, tunnels);
    var rows := OrderedRows(tunnels.Keys, tunnels);
    var items := Items(lower, db, ProxiesByName(proxies), rows);
    assert ListDevices(lower, db, Ok(proxies), false) == Ok(Listing(items, |items|, Count(items, Connected())));
    assert forall i | 0 <= i < |rows| :: rows[i] in db.devices;
    hide Schema, ListDevices, OrderedRows, Items, Shows, ProxiesByName, Count;
    ItemsShowRows(lower, db, proxies, rows);
    ItemsFollowRows(items, rows, tunnels);
  }

  lemma ItemsFollowRows(items: seq<Item>, rows: seq<string>, tunnels: map<string, Tunnel>)
    requires InPortOrder(rows, tunnels.Keys, tunnels) && |items| == |rows|
    requires forall i | 0 <= i < |rows| ::
               items[i].deviceId == rows[i] && items[i].remotePort == tunnels[rows[i]].remotePort
    ensures Ascending(items) && forall d | d in tunnels :: Lists(items, d)
  {
    forall d | d in tunnels
      ensures Lists(items, d)
    {
      assert d in rows;
      var i :| 0 <= i < |rows| && rows[i] == d;
      assert items[i].deviceId == d;
    }
  }

  lemma {:induction false} KeptAreConnected(items: seq<Item>)
    ensures forall item | item in FlatMap(items, Keep(Connected())) :: item.connected
  {
    if items == [] {
    } else {
      KeptAreConnected(items[..|items| - 1]);
    }
  }

  /** Asking for connected devices only gives exactly the connected items of the full listing, in its order; the
      number connected is the same and is then the total. A failed fetch fails both alike. */
  lemma ConnectedOnly(lower: string -> string, db: Db, fetched: Result<seq<Proxy>, Error>)
    requires Schema(db)
    ensures var full := ListDevices(lower, db, fetched, false);
            var some := ListDevices(lower, db, fetched, true);
            && (full.Err? ==> fetched == Err(full.error) && some == full)
            && (full.Ok? ==>
                  && some.Ok? && some.value.items == FlatMap(full.value.items, Keep(Connected()))
                  && some.value.total == some.value.connected == full.value.connected
                  && forall item :: item in some.value.items <==> item in full.value.items && item.connected)
  {
    var full := ListDevices(lower, db, fetched, false);
    if full.Ok? {
      var items := full.value.items;
      var kept := FlatMap(items, Keep(Connected()));
      KeptAreConnected(items);
      CountAll(kept, Connected());
      CountIsLength(items, Connected());
      forall item
        ensures item in kept <==> item in items && item.connected
      {
        InFlatMap(items, Keep(Connected()), item);
        assert item.connected ==> item in Keep(Connected())(item);
      }
    }
  }

  // ---- whose proxy is it? ----

  function Take(s: string, n: nat): string {
    if |s| <= n then s else s[..n]
  }

  /** Truncation to 128 characters leaves 123 for the device id: names collide exactly on that prefix. */
  lemma ProxyNamesAgree(a: string, b: string)
    ensures ProxyName(a) == ProxyName(b) <==> Take(a, 123) == Take(b, 123)
  {
    ShortName(a);
    ShortName(b);
    PrefixCancels("smsf-", Take(a, 123), Take(b, 123));
  }

  /** The tables after any interleaving of device and tunnel operations. */
  ghost function Reached(cfg: Settings, steps: seq<Step>): (db: Db)
    ensures Schema(db) && AllDerived(cfg, db.tunnels)
  {
    RunsAreOk(cfg, steps);
    RunSteps(cfg, steps).db
  }

  /** In every reachable state a proxy of the dashboard's list is shown on two devices only if their ids agree on
      the first 123 characters: never for ids of at most 123 characters. */
  lemma ProxyHasOneDevice(
      lower: string -> string, cfg: Settings, steps: seq<Step>, proxies: seq<Proxy>, i: nat, j: nat)
    requires i < j < |ListDevices(lower, Reached(cfg, steps), Ok(proxies), false).value.items|
    ensures var items := ListDevices(lower, Reached(cfg, steps), Ok(proxies), false).value.items;
            && items[i].deviceId != items[j].deviceId
            && items[i].proxyName == ProxyName(items[i].deviceId)
            && (items[i].proxyName == items[j].proxyName
                <==> Take(items[i].deviceId, 123) == Take(items[j].deviceId, 123))
            && (|items[i].deviceId| <= 123 && |items[j].deviceId| <= 123 ==>
                  items[i].proxyName != items[j].proxyName)
  {
    var db := Reached(cfg, steps);
    var items := ListDevices(lower, db, Ok(proxies), false).value.items;
    ListingIsTheJoin(lower, db, proxies);
    ProxyNamesAgree(items[i].deviceId, items[j].deviceId);
    hide Reached, ListDevices, ProxyName, LastNamed, InternalBaseUrl, PublicBaseUrl, Online;
    assert items[i] in items && items[j] in items;
  }
}
