/** Tunnel and device operations from any number of sessions at once: every operation is a reading step and,
    any time later, a commit step, and the steps of different sessions interleave freely. */
module PortSafety {
  import opened Prelude
  import opened Decimal
  import opened Models
  import opened Transactions
  import opened Devices
  import opened Tunnels

  datatype Step = Begin(session: nat, op: Op) | Commit(session: nat)

  datatype Sys = Sys(db: Db, inFlight: map<nat, Txn>)

  function Next(cfg: Settings, s: Sys, step: Step): Sys {
    match step
    case Begin(n, op) =>
      (match Plan(cfg, s.db, op)
       case Err(_) => s
       case Ok(t) => s.(inFlight := s.inFlight[n := t]))
    case Commit(n) =>
      if n !in s.inFlight then s
      else
        var after := Apply(s.db, s.inFlight[n]);
        Sys(if after.Some? then after.value else s.db, s.inFlight - {n})
  }

  function RunSteps(cfg: Settings, steps: seq<Step>): Sys {
    if steps == [] then Sys(EMPTY_DB, map[])
    else Next(cfg, RunSteps(cfg, steps[..|steps| - 1]), steps[|steps| - 1])
  }

  // ---- what every row keeps ----

  /** The columns computed from other columns say what they should. */
  ghost predicate Derived(cfg: Settings, id: string, t: Tunnel) {
    && PortAllowed(cfg, t.remotePort)
    && t.internalBaseUrl == InternalBaseUrl(cfg, t.remotePort)
    && t.publicBaseUrl == Some(PublicBaseUrl(cfg, t.remotePort))
    && t.status == (if t.enabled then "active" else "disabled")
    && t.proxyType == "tcp"
    && t.proxyName == ProxyName(id)
    && t.authToken == cfg.frpsToken
  }

  ghost predicate AllDerived(cfg: Settings, tunnels: map<string, Tunnel>) {
    forall d | d in tunnels :: Derived(cfg, d, tunnels[d])
  }

  ghost predicate TxnDerived(cfg: Settings, t: Txn) {
    match t.tunnel
    case None => true
    case Some(Insert(row)) => Derived(cfg, t.id, row)
    case Some(Update(loaded, row)) => Derived(cfg, t.id, loaded) && Derived(cfg, t.id, row)
  }

  ghost predicate SysOk(cfg: Settings, s: Sys) {
    && Schema(s.db)
    && AllDerived(cfg, s.db.tunnels)
    && forall n | n in s.inFlight :: TxnDerived(cfg, s.inFlight[n])
  }

  lemma UrlsIdentifyPort(cfg: Settings, p: int, q: int)
    ensures InternalBaseUrl(cfg, p) == InternalBaseUrl(cfg, q) <==> p == q
    ensures PublicBaseUrl(cfg, p) == PublicBaseUrl(cfg, q) <==> p == q
  {
    RenderInjective(p, q);
    PrefixCancels("http://" + cfg.internalHost + ":", Render(p), Render(q));
    PrefixCancels("tcp://" + cfg.publicHost + ":", Render(p), Render(q));
  }

  lemma PrefixCancels(a: string, x: string, y: string)
    ensures a + x == a + y <==> x == y
  {
    assert (a + x)[|a|..] == x && (a + y)[|a|..] == y;
  }

  /** Column-wise merging of three consistent rows is consistent: a URL column is written exactly when the port
      is, because distinct ports print differently. */
  lemma MergeKeepsDerived(cfg: Settings, id: string, l: Tunnel, n: Tunnel, c: Tunnel)
    requires Derived(cfg, id, l) && Derived(cfg, id, n) && Derived(cfg, id, c)
    ensures Derived(cfg, id, MergeTunnel(l, n, c))
  {
    UrlsIdentifyPort(cfg, l.remotePort, n.remotePort);
    hide InternalBaseUrl, PublicBaseUrl, ProxyName;
  }

  lemma PlanIsDerived(cfg: Settings, db: Db, op: Op)
    requires AllDerived(cfg, db.tunnels)
    ensures var p := Plan(cfg, db, op); p.Ok? ==> TxnDerived(cfg, p.value)
  {
    hide InternalBaseUrl, PublicBaseUrl, ProxyName, NextPort;
    if op.UpdateTunnel? && op.id in db.tunnels {
      ChangeTunnelKeepsPlacement(db.tunnels[op.id], op.tunnelChanges);
    }
    hide ChangeTunnelAll, ChangeDeviceAll;
  }

  lemma ApplyKeepsDerived(cfg: Settings, db: Db, t: Txn)
    requires AllDerived(cfg, db.tunnels) && TxnDerived(cfg, t)
    ensures var r := Apply(db, t); r.Some? ==> AllDerived(cfg, r.value.tunnels)
  {
    if t.tunnel.Some? && t.tunnel.value.Update? && t.id in db.tunnels {
      MergeKeepsDerived(cfg, t.id, t.tunnel.value.loaded, t.tunnel.value.row, db.tunnels[t.id]);
    }
    hide Schema, MergeDevice, MergeTunnel, Derived;
  }

  lemma {:induction false} RunsAreOk(cfg: Settings, steps: seq<Step>)
    ensures SysOk(cfg, RunSteps(cfg, steps))
  {
    hide Schema, Derived, Plan, Apply;
    if steps == [] {
      EmptyIsOk(cfg);
    } else {
      var s, step := RunSteps(cfg, steps[..|steps| - 1]), steps[|steps| - 1];
      RunsAreOk(cfg, steps[..|steps| - 1]);
      if step.Begin? {
        PlanIsDerived(cfg, s.db, step.op);
      } else if step.session in s.inFlight {
        ApplyKeepsDerived(cfg, s.db, s.inFlight[step.session]);
      }
    }
  }

  lemma EmptyIsOk(cfg: Settings)
    ensures Schema(EMPTY_DB) && AllDerived(cfg, EMPTY_DB.tunnels)
  {
  }

  /** Over all interleavings: no two tunnels on one port, no port outside the range, and every tunnel's URLs,
      status and proxy name agree with its port, switch and device. */
  lemma PortsAreSafe(cfg: Settings, steps: seq<Step>)
    ensures var tunnels := RunSteps(cfg, steps).db.tunnels;
            && (forall d, e | d in tunnels && e in tunnels && d != e ::
                  tunnels[d].remotePort != tunnels[e].remotePort)
            && (forall d | d in tunnels :: Derived(cfg, d, tunnels[d]))
  {
    RunsAreOk(cfg, steps);
  }

  /** Two enabled tunnels whose devices were synced to them never share a base URL. */
  lemma SyncedBaseUrlsDiffer(cfg: Settings, steps: seq<Step>, d: string, e: string)
    requires var db := RunSteps(cfg, steps).db;
             && d != e && d in db.tunnels && e in db.tunnels && db.tunnels[d].enabled && db.tunnels[e].enabled
             && d in db.devices && db.devices[d].baseUrl == Some(db.tunnels[d].internalBaseUrl)
             && e in db.devices && db.devices[e].baseUrl == Some(db.tunnels[e].internalBaseUrl)
    ensures var db := RunSteps(cfg, steps).db;
            db.devices[d].baseUrl != db.devices[e].baseUrl
  {
    var db := RunSteps(cfg, steps).db;
    PortsAreSafe(cfg, steps);
    UrlsIdentifyPort(cfg, db.tunnels[d].remotePort, db.tunnels[e].remotePort);
    hide InternalBaseUrl, PublicBaseUrl, RunSteps;
  }

  // ---- the allocator ----

  function RangeSize(cfg: Settings): nat {
    if cfg.portMin <= cfg.portMax then cfg.portMax - cfg.portMin + 1 else 0
  }

  lemma {:induction false} DistinctPortsCount(keys: set<string>, tunnels: map<string, Tunnel>)
    requires keys <= tunnels.Keys && PortsUnique(tunnels)
    ensures |set d | d in keys :: tunnels[d].remotePort| == |keys|
  {
    if keys == {} {
    } else {
      var x :| x in keys;
      var rest := keys - {x};
      DistinctPortsCount(rest, tunnels);
      var ports := set d | d in rest :: tunnels[d].remotePort;
      assert (set d | d in keys :: tunnels[d].remotePort) == ports + {tunnels[x].remotePort};
    }
  }

  function PortRange(lo: int, hi: int): (r: set<int>)
    ensures forall p :: p in r <==> lo <= p <= hi
    ensures |r| == if lo <= hi then hi - lo + 1 else 0
    decreases hi - lo
  {
    if lo > hi then {} else PortRange(lo, hi - 1) + {hi}
  }

  /** Some tunnel row, enabled or not, holds the port. */
  predicate Taken(db: Db, port: int) {
    exists d | d in db.tunnels :: db.tunnels[d].remotePort == port
  }

  /** Pigeonhole: distinct in-range ports exhaust the range exactly when there are as many as it has. The port
      offered otherwise is the least one no row holds. */
  lemma AllocatorIsExact(cfg: Settings, db: Db)
    requires PortsUnique(db.tunnels) && forall d | d in db.tunnels :: PortAllowed(cfg, db.tunnels[d].remotePort)
    ensures |db.tunnels| <= RangeSize(cfg)
    ensures NextPort(cfg, db).None? <==> |db.tunnels| == RangeSize(cfg)
    ensures var r := NextPort(cfg, db); r.Some? ==>
              && PortAllowed(cfg, r.value) && !Taken(db, r.value)
              && forall q | cfg.portMin <= q < r.value :: Taken(db, q)
  {
    var used, range := UsedPorts(cfg, db.tunnels), PortRange(cfg.portMin, cfg.portMax);
    assert used == set d | d in db.tunnels.Keys :: db.tunnels[d].remotePort;
    DistinctPortsCount(db.tunnels.Keys, db.tunnels);
    SubsetSize(used, range);
    var r := NextPort(cfg, db);
    hide LeastFree;
    if r.None? {
      assert used == range;
    } else {
      assert r.value in range && r.value !in used;
      assert forall q | q in used :: Taken(db, q);
    }
  }

  /** In every reachable state an enable without a port gets one exactly while rows are fewer than ports, and
      a tunnel that is enabled again that way always moves, its own old port counting as taken. */
  lemma AutomaticEnable(cfg: Settings, steps: seq<Step>, id: string, p: EnableIn)
    requires var db := RunSteps(cfg, steps).db;
             id in db.devices && (id in db.tunnels ==> !db.tunnels[id].enabled)
    requires p.remotePort.None? || p.remotePort.value == 0
    ensures var db := RunSteps(cfg, steps).db;
            var (db', outcome) := Serial(cfg, db, Enable(id, p));
            && (outcome.Ok? <==> |db.tunnels| < RangeSize(cfg))
            && (outcome.Err? ==> outcome == Err(Conflict("no frps remote ports available")) && db' == db)
            && (outcome.Ok? ==> id in db'.tunnels && db'.tunnels[id].enabled)
            && (outcome.Ok? && id in db.tunnels ==> db'.tunnels[id].remotePort != db.tunnels[id].remotePort)
  {
    var db := RunSteps(cfg, steps).db;
    RunsAreOk(cfg, steps);
    hide RunSteps;
    assert forall d | d in db.tunnels :: Derived(cfg, d, db.tunnels[d]);
    AllocatorIsExact(cfg, db);
    var next := NextPort(cfg, db);
    if next.Some? {
      SerialEnable(cfg, db, id, p, next.value);
      FreePortFitsSchema(cfg, db, id, p, next.value);
    } else {
      hide NextPort;
    }
  }

  /** Rows of an enable that chose a port no other device holds satisfy the constraints. */
  lemma FreePortFitsSchema(cfg: Settings, db: Db, id: string, p: EnableIn, port: int)
    requires Schema(db) && id in db.devices
    requires forall d | d in db.tunnels && d != id :: db.tunnels[d].remotePort != port
    ensures var device := db.devices[id];
            var row := EnabledTunnel(cfg, BaseRow(cfg, db, id, port, p), device, port, p);
            var device' := if p.syncDeviceBaseUrl then device.(baseUrl := Some(row.internalBaseUrl)) else device;
            Schema(db.(devices := db.devices[id := device'], tunnels := db.tunnels[id := row]))
  {
    hide InternalBaseUrl, PublicBaseUrl, ProxyName;
  }

  // ---- lost races ----

  /** The port a commit would leave on the device's row. */
  function PortAfter(db: Db, t: Txn): int
    requires t.tunnel.Some?
  {
    match t.tunnel.value
    case Insert(row) => row.remotePort
    case Update(loaded, row) =>
      if t.id in db.tunnels then Column(loaded.remotePort, row.remotePort, db.tunnels[t.id].remotePort)
      else row.remotePort
  }

  lemma MergedColumns(l: Device, n: Device, c: Device, lt: Tunnel, nt: Tunnel, ct: Tunnel)
    ensures n.channelType == l.channelType ==> MergeDevice(l, n, c).channelType == c.channelType
    ensures MergeTunnel(lt, nt, ct).remotePort == Column(lt.remotePort, nt.remotePort, ct.remotePort)
  {
  }

  /** Another device's row holds the port. */
  predicate TakenByOther(db: Db, id: string, port: int) {
    exists e | e in db.tunnels && e != id :: db.tunnels[e].remotePort == port
  }

  /** The tables an enable would leave behind, before the constraints are checked. */
  lemma StaleEnableWrites(cfg: Settings, seen: Db, db: Db, id: string, p: EnableIn)
    requires ChannelsPresent(db.devices) && id in db.devices && (id in seen.tunnels ==> id in db.tunnels)
    requires PlanEnable(cfg, seen, id, p).Ok?
    ensures var t := PlanEnable(cfg, seen, id, p).value;
            var w := Write(db, t);
            && t.tunnel.Some? && t.id == id
            && (w.None? <==> id !in seen.tunnels && id in db.tunnels)
            && (w.Some? ==>
                  && w.value == db.(devices := w.value.devices, tunnels := w.value.tunnels)
                  && ChannelsPresent(w.value.devices) && w.value.devices.Keys == db.devices.Keys
                  && w.value.tunnels.Keys == db.tunnels.Keys + {id}
                  && (forall e | e in db.tunnels && e != id :: w.value.tunnels[e] == db.tunnels[e])
                  && w.value.tunnels[id].remotePort == PortAfter(db, t))
  {
    hide NextPort, MergeDevice, MergeTunnel, InternalBaseUrl, PublicBaseUrl, ProxyName;
    var t := PlanEnable(cfg, seen, id, p).value;
    var d := db.devices[id];
    var ct := if id in db.tunnels then db.tunnels[id] else t.tunnel.value.row;
    var (dl, dn) := if t.device.Some? then (t.device.value.loaded, t.device.value.row) else (d, d);
    var (tl, tn) := if t.tunnel.value.Update? then (t.tunnel.value.loaded, t.tunnel.value.row) else (ct, ct);
    MergedColumns(dl, dn, d, tl, tn, ct);
  }

  lemma PortDecidesSchema(db: Db, db': Db, id: string)
    requires Schema(db) && id in db.devices && id in db'.tunnels
    requires db' == db.(devices := db'.devices, tunnels := db'.tunnels)
    requires ChannelsPresent(db'.devices) && db'.devices.Keys == db.devices.Keys
    requires db'.tunnels.Keys == db.tunnels.Keys + {id}
    requires forall e | e in db.tunnels && e != id :: db'.tunnels[e] == db.tunnels[e]
    ensures Schema(db') <==> !TakenByOther(db, id, db'.tunnels[id].remotePort)
  {
    assert OwnersExist(db');
    if TakenByOther(db, id, db'.tunnels[id].remotePort) {
      var e :| e in db.tunnels && e != id && db.tunnels[e].remotePort == db'.tunnels[id].remotePort;
      assert db'.tunnels[e].remotePort == db'.tunnels[id].remotePort;
    } else {
      assert PortsUnique(db'.tunnels);
    }
  }

  /** An enable planned on an earlier snapshot is refused exactly when, by the time it commits, its port is on
      another device's row or another session has created the device's row; a refusal stores nothing. */
  lemma StaleEnableCommit(cfg: Settings, seen: Db, db: Db, id: string, p: EnableIn)
    requires Schema(db) && seen.devices.Keys <= db.devices.Keys && seen.tunnels.Keys <= db.tunnels.Keys
    requires PlanEnable(cfg, seen, id, p).Ok?
    ensures var t := PlanEnable(cfg, seen, id, p).value;
            var r := Apply(db, t);
            && t.tunnel.Some? && t.id == id
            && (r.None? <==> (id !in seen.tunnels && id in db.tunnels) || TakenByOther(db, id, PortAfter(db, t)))
            && (r.Some? ==>
                  && r.value.devices.Keys == db.devices.Keys && r.value.tunnels.Keys == db.tunnels.Keys + {id}
                  && r.value.tunnels[id].remotePort == PortAfter(db, t)
                  && forall e | e in db.tunnels && e != id :: r.value.tunnels[e] == db.tunnels[e])
  {
    assert id in seen.devices;
    StaleEnableWrites(cfg, seen, db, id, p);
    var t := PlanEnable(cfg, seen, id, p).value;
    var w := Write(db, t);
    hide PlanEnable, Write, PortAfter, Schema;
    if w.Some? {
      PortDecidesSchema(db, w.value, id);
    }
  }

  /** Commits in the given order; the flags say which went through. */
  function CommitAll(db: Db, txns: seq<Txn>): (Db, seq<bool>) {
    if txns == [] then (db, [])
    else
      var (before, flags) := CommitAll(db, txns[..|txns| - 1]);
      var r := Apply(before, txns[|txns| - 1]);
      (if r.Some? then r.value else before, flags + [r.Some?])
  }

  datatype EnableRequest = EnableRequest(id: string, payload: EnableIn)

  /** Several enables read the same tables and picked the same free port. */
  ghost predicate SamePick(cfg: Settings, db: Db, reqs: seq<EnableRequest>, txns: seq<Txn>, port: int) {
    && |txns| == |reqs|
    && forall i | 0 <= i < |reqs| ::
         && ChosenPort(cfg, db, reqs[i].payload) == Some(port)
         && PlanEnable(cfg, db, reqs[i].id, reqs[i].payload) == Ok(txns[i])
  }

  lemma PlannedPort(cfg: Settings, db: Db, db': Db, id: string, p: EnableIn, port: int)
    requires PlanEnable(cfg, db, id, p).Ok? && ChosenPort(cfg, db, p) == Some(port) && !Taken(db, port)
    ensures PlanEnable(cfg, db, id, p).value.tunnel.Some?
    ensures PortAfter(db', PlanEnable(cfg, db, id, p).value) == port
  {
    hide NextPort, InternalBaseUrl, PublicBaseUrl, ProxyName;
  }

  /** The tables once the device `first` holds the port: nothing but its own rows has changed. */
  ghost predicate Won(db: Db, after: Db, first: string, port: int) {
    && Schema(after)
    && after.devices.Keys == db.devices.Keys && after.tunnels.Keys == db.tunnels.Keys + {first}
    && first in after.tunnels && after.tunnels[first].remotePort == port
    && forall e | e in db.tunnels && e != first :: after.tunnels[e] == db.tunnels[e]
  }

  /** One more enable of the same pick, after the port is won: only the winner itself, updating the row it had
      before, gets through. */
  lemma LateEnable(cfg: Settings, db: Db, after: Db, first: string, id: string, p: EnableIn, port: int)
    requires Schema(db) && !Taken(db, port) && Won(db, after, first, port)
    requires ChosenPort(cfg, db, p) == Some(port) && PlanEnable(cfg, db, id, p).Ok?
    ensures var r := Apply(after, PlanEnable(cfg, db, id, p).value);
            && (r.Some? <==> id == first && first in db.tunnels)
            && (r.Some? ==> Won(db, r.value, first, port))
  {
    StaleEnableCommit(cfg, db, after, id, p);
    PlannedPort(cfg, db, after, id, p, port);
    assert id != first ==> TakenByOther(after, id, port);
    assert PortsUnique(after.tunnels);
    hide PlanEnable, ChosenPort, Apply, PortAfter, Schema;
  }

  lemma FirstEnable(cfg: Settings, db: Db, id: string, p: EnableIn, port: int)
    requires Schema(db) && !Taken(db, port)
    requires ChosenPort(cfg, db, p) == Some(port) && PlanEnable(cfg, db, id, p).Ok?
    ensures var r := Apply(db, PlanEnable(cfg, db, id, p).value);
            r.Some? && Won(db, r.value, id, port)
  {
    StaleEnableCommit(cfg, db, db, id, p);
    PlannedPort(cfg, db, db, id, p, port);
    hide PlanEnable, ChosenPort, Apply, PortAfter, Schema;
  }

  /** Whatever the order, the first to commit takes the port. A later one gets through exactly when it is for
      the same device and that device already had a row: it then writes the port the row already holds. */
  lemma {:induction false} RacingEnables(
      cfg: Settings, db: Db, reqs: seq<EnableRequest>, txns: seq<Txn>, port: int)
    requires Schema(db) && !Taken(db, port) && reqs != [] && SamePick(cfg, db, reqs, txns, port)
    ensures var (after, flags) := CommitAll(db, txns);
            var first := reqs[0].id;
            && |flags| == |txns|
            && (forall i | 0 <= i < |flags| ::
                  flags[i] <==> i == 0 || (reqs[i].id == first && first in db.tunnels))
            && Won(db, after, first, port)
  {
    hide Schema, PlanEnable, ChosenPort, Apply, Won;
    var n := |reqs| - 1;
    var first, last := reqs[0], reqs[n];
    if n == 0 {
      assert CommitAll(db, txns[..0]) == (db, []);
      FirstEnable(cfg, db, first.id, first.payload, port);
    } else {
      RacingEnables(cfg, db, reqs[..n], txns[..n], port);
      LateEnable(cfg, db, CommitAll(db, txns[..n]).0, first.id, last.id, last.payload, port);
    }
  }

  /** For different devices exactly the first to commit succeeds. */
  lemma ExactlyOneCommits(
      cfg: Settings, db: Db, reqs: seq<EnableRequest>, txns: seq<Txn>, port: int)
    requires Schema(db) && !Taken(db, port) && reqs != [] && SamePick(cfg, db, reqs, txns, port)
    ensures var flags := CommitAll(db, txns).1;
            |flags| == |txns| &&
            ((forall i | 0 <= i < |flags| :: flags[i] <==> i == 0)
             <==> reqs[0].id !in db.tunnels || forall i | 0 < i < |reqs| :: reqs[i].id != reqs[0].id)
  {
    RacingEnables(cfg, db, reqs, txns, port);
    hide *;
  }

  /** Two sessions that read a device's disabled row and picked one free port both enable it. */
  lemma SameDeviceCommitsTwice(cfg: Settings, db: Db, id: string, p: EnableIn, q: EnableIn, port: int)
    requires Schema(db) && id in db.tunnels && !db.tunnels[id].enabled && !Taken(db, port) && PortAllowed(cfg, port)
    requires ChosenPort(cfg, db, p) == Some(port) && ChosenPort(cfg, db, q) == Some(port)
    ensures PlanEnable(cfg, db, id, p).Ok? && PlanEnable(cfg, db, id, q).Ok?
    ensures var t, u := PlanEnable(cfg, db, id, p).value, PlanEnable(cfg, db, id, q).value;
            && Apply(db, t).Some?
            && Apply(Apply(db, t).value, u).Some?
            && id in Apply(Apply(db, t).value, u).value.tunnels
            && Apply(Apply(db, t).value, u).value.tunnels[id].remotePort == port
  {
    assert id in db.devices;
    FirstEnable(cfg, db, id, p, port);
    var t := PlanEnable(cfg, db, id, p).value;
    LateEnable(cfg, db, Apply(db, t).value, id, id, q, port);
    hide PlanEnable, Apply, ChosenPort, Schema;
  }
}
