/** Who owns a device's base URL over a whole serial run: the user, lent to the tunnel while it is enabled. */
module BaseUrls {
  import opened Prelude
  import opened Models
  import opened Transactions
  import opened Devices
  import opened Tunnels
  import opened PortSafety

  function RunSerial(cfg: Settings, ops: seq<Op>): Db {
    if ops == [] then EMPTY_DB
    else Serial(cfg, RunSerial(cfg, ops[..|ops| - 1]), ops[|ops| - 1]).0
  }

  function StepsOf(ops: seq<Op>): seq<Step> {
    if ops == [] then []
    else StepsOf(ops[..|ops| - 1]) + [Begin(0, ops[|ops| - 1])] + [Commit(0)]
  }

  /** A serial run is the interleaving in which every commit directly follows its reading step, so whatever
      holds over all interleavings holds of it. */
  lemma {:induction false} SerialIsAnInterleaving(cfg: Settings, ops: seq<Op>)
    ensures RunSteps(cfg, StepsOf(ops)) == Sys(RunSerial(cfg, ops), map[])
  {
    hide Plan, Apply;
    if ops == [] {
    } else {
      var init, op := ops[..|ops| - 1], ops[|ops| - 1];
      SerialIsAnInterleaving(cfg, init);
      var s := StepsOf(init);
      var s1 := s + [Begin(0, op)];
      var s2 := s1 + [Commit(0)];
      assert s1[..|s|] == s && s2[..|s1|] == s1;
      assert RunSteps(cfg, s1) == Next(cfg, RunSteps(cfg, s), Begin(0, op));
      assert RunSteps(cfg, s2) == Next(cfg, RunSteps(cfg, s1), Commit(0));
    }
  }

  // ---- what the user supplied ----

  predicate NamesBaseUrl(op: Op) {
    op.CreateDevice? || (op.UpdateDevice? && TouchesBaseUrl(op.deviceChanges))
  }

  function NamedBaseUrl(op: Op): Option<string> {
    match op
    case CreateDevice(_, p) => p.baseUrl
    case UpdateDevice(_, changes) => NewBaseUrl(changes, None)
    case _ => None
  }

  /** The base URLs the user successfully supplied for a device, oldest first; None is an explicit "no URL". */
  function Supplied(cfg: Settings, ops: seq<Op>, id: string): seq<Option<string>> {
    if ops == [] then []
    else
      var init, op := ops[..|ops| - 1], ops[|ops| - 1];
      Supplied(cfg, init, id)
      + if op.id == id && NamesBaseUrl(op) && Serial(cfg, RunSerial(cfg, init), op).1.Ok?
        then [NamedBaseUrl(op)] else []
  }

  predicate Enabled(db: Db, id: string) {
    id in db.tunnels && db.tunnels[id].enabled
  }

  // ---- what one serial operation does ----

  lemma SerialOtherDevices(cfg: Settings, db: Db, op: Op, d: string)
    requires d != op.id
    ensures var db' := Serial(cfg, db, op).0;
            && (d in db'.devices <==> d in db.devices) && (d in db.devices ==> db'.devices[d] == db.devices[d])
            && (d in db'.tunnels <==> d in db.tunnels) && (d in db.tunnels ==> db'.tunnels[d] == db.tunnels[d])
  {
    hide Schema, Plan, MergeDevice, MergeTunnel;
    PlanTouchesOnlyId(cfg, db, op);
  }

  lemma PlanTouchesOnlyId(cfg: Settings, db: Db, op: Op)
    ensures var p := Plan(cfg, db, op); p.Ok? ==> p.value.id == op.id
  {
  }

  /** The columns that decide who owns the base URL, before and after a successful operation. */
  lemma SerialOwnDevice(cfg: Settings, db: Db, op: Op)
    requires Schema(db)
    ensures var (db', outcome) := Serial(cfg, db, op);
            var id := op.id;
            && (outcome.Err? ==> db' == db)
            && (outcome.Ok? ==>
                  && id in db'.devices
                  && (match op
                      case CreateDevice(_, p) =>
                        id !in db.devices && db'.tunnels == db.tunnels && db'.devices[id].baseUrl == p.baseUrl
                      case UpdateDevice(_, changes) =>
                        && id in db.devices && db'.tunnels == db.tunnels
                        && db'.devices[id].baseUrl == NewBaseUrl(changes, db.devices[id].baseUrl)
                        && (TouchesBaseUrl(changes) ==> !Enabled(db, id))
                      case Enable(_, p) =>
                        && id in db.devices && !Enabled(db, id) && Enabled(db', id)
                        && db'.tunnels[id].previousBaseUrl == db.devices[id].baseUrl
                        && db'.devices[id].baseUrl == (if p.syncDeviceBaseUrl
                             then Some(db'.tunnels[id].internalBaseUrl) else db.devices[id].baseUrl)
                      case Disable(_) =>
                        && id in db.devices && id in db.tunnels && id in db'.tunnels && !Enabled(db', id)
                        && db'.tunnels[id].previousBaseUrl == db.tunnels[id].previousBaseUrl
                        && db'.devices[id].baseUrl == db.tunnels[id].previousBaseUrl
                      case _ =>
                        && db'.devices == db.devices && id in db.tunnels && id in db'.tunnels
                        && SamePlacement(db.tunnels[id], db'.tunnels[id])))
  {
    SerialWrites(cfg, db, op);
    hide Serial, Schema, InternalBaseUrl, PublicBaseUrl, ProxyName, NextPort;
    match op
    case UpdateDevice(id, changes) =>
      if id in db.devices {
        ChangeDeviceBaseUrl(db.devices[id], changes);
      }
    case UpdateTunnel(id, changes) =>
      if id in db.tunnels {
        ChangeTunnelKeepsPlacement(db.tunnels[id], changes);
      }
    case _ =>
  }

  lemma {:induction false} NamedUrlIsNew(changes: seq<DeviceChange>, current: Option<string>)
    ensures NewBaseUrl(changes, current) == if TouchesBaseUrl(changes) then NewBaseUrl(changes, None) else current
  {
    if changes == [] {
    } else {
      var init, last := changes[..|changes| - 1], changes[|changes| - 1];
      NamedUrlIsNew(init, current);
      assert forall i | 0 <= i < |init| :: init[i] == changes[i];
      assert TouchesBaseUrl(changes) <==> TouchesBaseUrl(init) || last.SetBaseUrl?;
    }
  }

  lemma SerialRunSchema(cfg: Settings, ops: seq<Op>)
    ensures Schema(RunSerial(cfg, ops)) && AllDerived(cfg, RunSerial(cfg, ops).tunnels)
  {
    SerialIsAnInterleaving(cfg, ops);
    RunsAreOk(cfg, StepsOf(ops));
  }

  // ---- every serial run ----

  /** Without a tunnel in charge, the base URL is one the user supplied; with one, it is the tunnel's own or the
      saved one; and what is saved was supplied by the user. */
  ghost predicate BaseUrlOwned(db: Db, id: string, supplied: seq<Option<string>>) {
    id in db.devices ==>
      && (!Enabled(db, id) ==> db.devices[id].baseUrl in supplied)
      && (Enabled(db, id) ==> || db.devices[id].baseUrl == Some(db.tunnels[id].internalBaseUrl)
                              || db.devices[id].baseUrl == db.tunnels[id].previousBaseUrl)
      && (id in db.tunnels ==> db.tunnels[id].previousBaseUrl in supplied)
  }

  lemma {:induction false} BaseUrlAlwaysOwned(cfg: Settings, ops: seq<Op>, id: string)
    ensures BaseUrlOwned(RunSerial(cfg, ops), id, Supplied(cfg, ops, id))
  {
    if ops == [] {
    } else {
      var init, op := ops[..|ops| - 1], ops[|ops| - 1];
      var db := RunSerial(cfg, init);
      BaseUrlAlwaysOwned(cfg, init, id);
      SerialRunSchema(cfg, init);
      OwnedStep(cfg, db, op, id, Supplied(cfg, init, id));
      hide Serial, Schema, BaseUrlOwned;
    }
  }

  lemma OwnedStep(cfg: Settings, db: Db, op: Op, id: string, supplied: seq<Option<string>>)
    requires Schema(db) && BaseUrlOwned(db, id, supplied)
    ensures var (db', outcome) := Serial(cfg, db, op);
            BaseUrlOwned(db', id, supplied + if op.id == id && NamesBaseUrl(op) && outcome.Ok?
                                             then [NamedBaseUrl(op)] else [])
  {
    if op.id != id {
      SerialOtherDevices(cfg, db, op, id);
      assert supplied + [] == supplied;
    } else {
      SerialOwnDevice(cfg, db, op);
      if op.UpdateDevice? && id in db.devices {
        NamedUrlIsNew(op.deviceChanges, db.devices[id].baseUrl);
      }
      assert OwnersExist(db);
    }
    hide Serial, Schema, NewBaseUrl, TouchesBaseUrl;
  }

  // ---- runs whose disables hit enabled tunnels ----

  /** The base URL as the user knows it, whether in force or saved by an enabled tunnel. */
  function UserUrl(db: Db, id: string): Option<string>
    requires id in db.devices
  {
    if Enabled(db, id) then db.tunnels[id].previousBaseUrl else db.devices[id].baseUrl
  }

  /** A disable that restores rather than overwrites: its tunnel is enabled, or what it saved is in force. */
  predicate RestoringDisable(db: Db, op: Op) {
    op.Disable? && op.id in db.devices && op.id in db.tunnels ==>
      db.tunnels[op.id].enabled || db.tunnels[op.id].previousBaseUrl == db.devices[op.id].baseUrl
  }

  predicate Disciplined(cfg: Settings, ops: seq<Op>) {
    ops == [] ||
      (Disciplined(cfg, ops[..|ops| - 1]) && RestoringDisable(RunSerial(cfg, ops[..|ops| - 1]), ops[|ops| - 1]))
  }

  ghost predicate UserUrlIsLatest(db: Db, id: string, supplied: seq<Option<string>>) {
    id in db.devices ==> supplied != [] && UserUrl(db, id) == supplied[|supplied| - 1]
  }

  /** In a disciplined run every device's base URL, in force or saved, is the latest the user supplied, through
      any number of enable and disable cycles of any devices. */
  lemma {:induction false} DisciplinedRunsKeepLatest(cfg: Settings, ops: seq<Op>, id: string)
    requires Disciplined(cfg, ops)
    ensures UserUrlIsLatest(RunSerial(cfg, ops), id, Supplied(cfg, ops, id))
  {
    if ops == [] {
    } else {
      var init, op := ops[..|ops| - 1], ops[|ops| - 1];
      DisciplinedRunsKeepLatest(cfg, init, id);
      SerialRunSchema(cfg, init);
      LatestStep(cfg, RunSerial(cfg, init), op, id, Supplied(cfg, init, id));
      hide Serial, Schema, UserUrlIsLatest;
    }
  }

  /** One step keeps the latest URL exactly when it is not a disable that overwrites. */
  lemma LatestStep(cfg: Settings, db: Db, op: Op, id: string, supplied: seq<Option<string>>)
    requires Schema(db) && UserUrlIsLatest(db, id, supplied)
    ensures var (db', outcome) := Serial(cfg, db, op);
            UserUrlIsLatest(db', id, supplied + if op.id == id && NamesBaseUrl(op) && outcome.Ok?
                                                then [NamedBaseUrl(op)] else [])
            <==> (op.id == id ==> RestoringDisable(db, op))
  {
    if op.id != id {
      SerialOtherDevices(cfg, db, op, id);
      assert supplied + [] == supplied;
    } else {
      SerialOwnDevice(cfg, db, op);
      if op.UpdateDevice? && id in db.devices {
        NamedUrlIsNew(op.deviceChanges, db.devices[id].baseUrl);
      }
      if op.Disable? {
        DisableSucceeds(cfg, db, id);
      }
      assert OwnersExist(db);
    }
    hide Serial, Schema, NewBaseUrl, TouchesBaseUrl;
  }

  lemma DisableSucceeds(cfg: Settings, db: Db, id: string)
    requires Schema(db)
    ensures Serial(cfg, db, Disable(id)).1.Ok? <==> id in db.devices && id in db.tunnels
  {
    MergeUnchangedSince();
    hide MergeDevice, MergeTunnel;
  }

  /** After a disciplined run, disabling a device's tunnel leaves the user's latest base URL in force exactly
      when the tunnel is enabled or what it saved already is in force. */
  lemma DisableRestoresLatest(cfg: Settings, ops: seq<Op>, id: string)
    requires Disciplined(cfg, ops)
    requires id in RunSerial(cfg, ops).devices && id in RunSerial(cfg, ops).tunnels
    ensures var db := RunSerial(cfg, ops);
            var (db', outcome) := Serial(cfg, db, Disable(id));
            var supplied := Supplied(cfg, ops, id);
            && outcome.Ok? && supplied != [] && id in db'.devices && !Enabled(db', id)
            && (db'.devices[id].baseUrl == supplied[|supplied| - 1] <==> RestoringDisable(db, Disable(id)))
  {
    DisciplinedRunsKeepLatest(cfg, ops, id);
    SerialRunSchema(cfg, ops);
    var db := RunSerial(cfg, ops);
    SerialOwnDevice(cfg, db, Disable(id));
    DisableSucceeds(cfg, db, id);
    hide Serial, Schema, RunSerial, Supplied, Disciplined;
  }

  lemma Extend(cfg: Settings, ops: seq<Op>, op: Op, id: string)
    ensures var (db', outcome) := Serial(cfg, RunSerial(cfg, ops), op);
            && RunSerial(cfg, ops + [op]) == db'
            && Supplied(cfg, ops + [op], id) == Supplied(cfg, ops, id) +
                 if op.id == id && NamesBaseUrl(op) && outcome.Ok? then [NamedBaseUrl(op)] else []
  {
    assert (ops + [op])[..|ops|] == ops;
    hide Serial;
  }

  lemma CreateSucceeds(cfg: Settings, db: Db, id: string, p: DeviceCreate)
    requires Schema(db)
    ensures Serial(cfg, db, CreateDevice(id, p)).1.Ok? <==> id !in db.devices
  {
  }

  lemma UrlUpdateSucceeds(cfg: Settings, db: Db, id: string, url: Option<string>)
    requires Schema(db) && id in db.devices && !Enabled(db, id)
    ensures Serial(cfg, db, UpdateDevice(id, [SetBaseUrl(url)])).1.Ok?
  {
    MergeUnchangedSince();
    var change := SetBaseUrl(url);
    var d := db.devices[id];
    assert ChangeDeviceAll(d, [change]) == ChangeDevice(ChangeDeviceAll(d, [change][..0]), change);
    hide MergeDevice;
  }

  lemma OneUrlChange(url: Option<string>, current: Option<string>)
    ensures TouchesBaseUrl([SetBaseUrl(url)]) && NewBaseUrl([SetBaseUrl(url)], current) == url
  {
    assert [SetBaseUrl(url)][0].SetBaseUrl?;
  }

  function FirstCycle(id: string, p: EnableIn, a: string): seq<Op> {
    [CreateDevice(id, DeviceCreate(None, "hybrid", Some(a), None))] + [Enable(id, p)] + [Disable(id)]
  }

  /** A first tunnel of a known device can be enabled and disabled while ports remain. */
  lemma EnableThenDisable(cfg: Settings, ops: seq<Op>, id: string, p: EnableIn)
    requires var db := RunSerial(cfg, ops);
             id in db.devices && id !in db.tunnels && |db.tunnels| < RangeSize(cfg) && p.remotePort.None?
    ensures var db := RunSerial(cfg, ops);
            var after := ops + [Enable(id, p)] + [Disable(id)];
            var db' := RunSerial(cfg, after);
            && id in db'.devices && id in db'.tunnels && !Enabled(db', id)
            && db'.tunnels[id].previousBaseUrl == db.devices[id].baseUrl
            && Supplied(cfg, after, id) == Supplied(cfg, ops, id)
  {
    hide Serial, Schema, RunSerial, Supplied, StepsOf, RunSteps;
    var next := ops + [Enable(id, p)];
    SerialRunSchema(cfg, ops);
    SerialRunSchema(cfg, next);
    Extend(cfg, ops, Enable(id, p), id);
    SerialIsAnInterleaving(cfg, ops);
    AutomaticEnable(cfg, StepsOf(ops), id, p);
    SerialOwnDevice(cfg, RunSerial(cfg, ops), Enable(id, p));
    Extend(cfg, next, Disable(id), id);
    DisableSucceeds(cfg, RunSerial(cfg, next), id);
    SerialOwnDevice(cfg, RunSerial(cfg, next), Disable(id));
  }

  lemma FirstCycleRuns(cfg: Settings, id: string, p: EnableIn, a: string)
    requires cfg.portMin <= cfg.portMax && p.remotePort.None?
    ensures var db := RunSerial(cfg, FirstCycle(id, p, a));
            && id in db.devices && id in db.tunnels && !Enabled(db, id)
            && db.tunnels[id].previousBaseUrl == Some(a)
            && Supplied(cfg, FirstCycle(id, p, a), id) == [Some(a)]
  {
    var create := CreateDevice(id, DeviceCreate(None, "hybrid", Some(a), None));
    assert RunSerial(cfg, []) == EMPTY_DB && Supplied(cfg, [], id) == [];
    hide Serial, RunSerial, Supplied;
    Extend(cfg, [], create, id);
    assert [] + [create] == [create];
    CreateSucceeds(cfg, EMPTY_DB, id, create.device);
    SerialOwnDevice(cfg, EMPTY_DB, create);
    EnableThenDisable(cfg, [create], id, p);
  }

  /** The undisciplined case is real: create with A, enable, disable, change to B, disable again. The second
      disable succeeds and puts A back although the user supplied B since. */
  lemma DisablingTwiceForgetsUpdate(cfg: Settings, id: string, p: EnableIn, a: string, b: string)
    requires cfg.portMin <= cfg.portMax && p.remotePort.None?
    ensures var ops := FirstCycle(id, p, a) + [UpdateDevice(id, [SetBaseUrl(Some(b))])] + [Disable(id)];
            && id in RunSerial(cfg, ops).devices
            && RunSerial(cfg, ops).devices[id].baseUrl == Some(a)
            && Supplied(cfg, ops, id) == [Some(a), Some(b)]
  {
    hide *;
    var changed := FirstCycle(id, p, a) + [UpdateDevice(id, [SetBaseUrl(Some(b))])];
    ChangeAfterCycle(cfg, id, p, a, b);
    DisableOnceMore(cfg, changed, id);
  }

  lemma DisableOnceMore(cfg: Settings, ops: seq<Op>, id: string)
    requires id in RunSerial(cfg, ops).devices && id in RunSerial(cfg, ops).tunnels
    ensures var db, db' := RunSerial(cfg, ops), RunSerial(cfg, ops + [Disable(id)]);
            && id in db'.devices && db'.devices[id].baseUrl == db.tunnels[id].previousBaseUrl
            && Supplied(cfg, ops + [Disable(id)], id) == Supplied(cfg, ops, id)
  {
    hide Serial, Schema, RunSerial, Supplied;
    SerialRunSchema(cfg, ops);
    Extend(cfg, ops, Disable(id), id);
    DisableSucceeds(cfg, RunSerial(cfg, ops), id);
    SerialOwnDevice(cfg, RunSerial(cfg, ops), Disable(id));
  }

  lemma ChangeAfterCycle(cfg: Settings, id: string, p: EnableIn, a: string, b: string)
    requires cfg.portMin <= cfg.portMax && p.remotePort.None?
    ensures var ops := FirstCycle(id, p, a) + [UpdateDevice(id, [SetBaseUrl(Some(b))])];
            var db := RunSerial(cfg, ops);
            && id in db.devices && id in db.tunnels && db.tunnels[id].previousBaseUrl == Some(a)
            && Supplied(cfg, ops, id) == [Some(a), Some(b)]
  {
    hide Serial, Schema, RunSerial, Supplied, FirstCycle, NewBaseUrl, TouchesBaseUrl;
    var change := UpdateDevice(id, [SetBaseUrl(Some(b))]);
    var cycle := FirstCycle(id, p, a);
    FirstCycleRuns(cfg, id, p, a);
    OneUrlChange(Some(b), None);
    SerialRunSchema(cfg, cycle);
    Extend(cfg, cycle, change, id);
    UrlUpdateSucceeds(cfg, RunSerial(cfg, cycle), id, Some(b));
    SerialOwnDevice(cfg, RunSerial(cfg, cycle), change);
  }
}
