/** Who owns a device's base URL when sessions overlap: ownership as in serial runs survives exactly as long as no
    commit writes over columns that changed since it read them. */
module Ownership {
  import opened Prelude
  import opened Models
  import opened Transactions
  import opened Devices
  import opened Tunnels
  import opened PortSafety
  import opened BaseUrls

  // ---- what each unit of work in flight has read ----

  datatype Reading = Reading(seen: Db, op: Op)

  function Readings(cfg: Settings, steps: seq<Step>): map<nat, Reading> {
    if steps == [] then map[]
    else
      var init := steps[..|steps| - 1];
      var readings, db := Readings(cfg, init), RunSteps(cfg, init).db;
      match steps[|steps| - 1]
      case Begin(n, op) => if Plan(cfg, db, op).Ok? then readings[n := Reading(db, op)] else readings
      case Commit(n) => readings - {n}
  }

  lemma {:induction false} ReadingsArePlans(cfg: Settings, steps: seq<Step>)
    ensures var r, s := Readings(cfg, steps), RunSteps(cfg, steps);
            && r.Keys == s.inFlight.Keys
            && forall n | n in r :: Plan(cfg, r[n].seen, r[n].op) == Ok(s.inFlight[n])
  {
    hide Plan, Apply;
    if steps == [] {
    } else {
      ReadingsArePlans(cfg, steps[..|steps| - 1]);
    }
  }

  /** The commit goes through and is one of this device's. */
  predicate Commits(cfg: Settings, before: seq<Step>, step: Step, id: string) {
    && step.Commit? && step.session in Readings(cfg, before) && Readings(cfg, before)[step.session].op.id == id
    && step.session in RunSteps(cfg, before).inFlight
    && Apply(RunSteps(cfg, before).db, RunSteps(cfg, before).inFlight[step.session]).Some?
  }

  /** The base URLs the user has supplied for a device by committed creates and updates. */
  function Given(cfg: Settings, steps: seq<Step>, id: string): seq<Option<string>> {
    if steps == [] then []
    else
      var init, step := steps[..|steps| - 1], steps[|steps| - 1];
      Given(cfg, init, id)
      + if Commits(cfg, init, step, id) && NamesBaseUrl(Readings(cfg, init)[step.session].op)
        then [NamedBaseUrl(Readings(cfg, init)[step.session].op)] else []
  }

  // ---- when a commit keeps ownership ----

  /** A base URL is in order under an enabled tunnel: the tunnel's own or the saved one. */
  predicate InOrder(url: Option<string>, own: string, saved: Option<string>) {
    url == Some(own) || url == saved
  }

  /** The update leaves the URL as it read it, or meets no enabled tunnel, or names a URL that is in order. */
  predicate UpdateKeeps(seen: Db, db: Db, id: string, changes: seq<DeviceChange>)
    requires id in seen.devices
  {
    var url := NewBaseUrl(changes, seen.devices[id].baseUrl);
    || url == seen.devices[id].baseUrl
    || !Enabled(db, id)
    || InOrder(url, db.tunnels[id].internalBaseUrl, db.tunnels[id].previousBaseUrl)
  }

  /** Switching off: the saved URL it read is written back, or the one in force is the user's. Switching off what
      it read as already off: the tunnel still is, or what is then in force is in order. */
  predicate DisableKeeps(seen: Db, db: Db, id: string, supplied: seq<Option<string>>)
    requires id in seen.devices && id in seen.tunnels && id in db.devices
  {
    var saved, url := seen.tunnels[id].previousBaseUrl, seen.devices[id].baseUrl;
    if seen.tunnels[id].enabled then saved != url || db.devices[id].baseUrl in supplied
    else
      || !Enabled(db, id)
      || InOrder(Column(url, saved, db.devices[id].baseUrl),
                 db.tunnels[id].internalBaseUrl, db.tunnels[id].previousBaseUrl)
  }

  /** The tunnel URL on the row once an enable for `own` has committed. */
  function Placed(seen: Db, db: Db, id: string, own: string): string
    requires id in seen.tunnels ==> id in db.tunnels
  {
    if id in seen.tunnels then Column(seen.tunnels[id].internalBaseUrl, own, db.tunnels[id].internalBaseUrl) else own
  }

  /** The saved URL once an enable that read `url` has committed. */
  function Saved(seen: Db, db: Db, id: string, url: Option<string>): Option<string>
    requires id in seen.tunnels ==> id in db.tunnels
  {
    if id in seen.tunnels then Column(seen.tunnels[id].previousBaseUrl, url, db.tunnels[id].previousBaseUrl) else url
  }

  predicate WritesUrl(url: Option<string>, own: string, p: EnableIn) {
    p.syncDeviceBaseUrl && url != Some(own)
  }

  /** An enable that writes its own URL finds that URL placed on the row, or saved; one that writes none finds the
      URL in force in order. */
  predicate EnableKeeps(cfg: Settings, seen: Db, db: Db, id: string, p: EnableIn, port: int)
    requires id in seen.devices && id in db.devices && (id in seen.tunnels ==> id in db.tunnels)
  {
    var own, read := InternalBaseUrl(cfg, port), seen.devices[id].baseUrl;
    InOrder(if WritesUrl(read, own, p) then Some(own) else db.devices[id].baseUrl,
            Placed(seen, db, id, own), Saved(seen, db, id, read))
  }

  /** Exactly when committing an operation planned on `seen` keeps ownership in `db`. */
  predicate KeepsOwner(cfg: Settings, seen: Db, db: Db, op: Op, supplied: seq<Option<string>>)
    requires Plan(cfg, seen, op).Ok? && Apply(db, Plan(cfg, seen, op).value).Some?
  {
    match op
    case UpdateDevice(id, changes) => UpdateKeeps(seen, db, id, changes)
    case Enable(id, p) =>
      if id in db.devices && (id in seen.tunnels ==> id in db.tunnels) then
        EnableKeeps(cfg, seen, db, id, p, ChosenPort(cfg, seen, p).value)
      else true
    case Disable(id) => if id in db.devices then DisableKeeps(seen, db, id, supplied) else true
    case _ => true
  }

  // ---- one commit ----

  lemma MoreSupplied(db: Db, id: string, s: seq<Option<string>>, more: seq<Option<string>>)
    requires BaseUrlOwned(db, id, s)
    ensures BaseUrlOwned(db, id, s + more)
  {
  }

  /** The columns that decide ownership are merged each on its own. */
  lemma UrlColumnsMerge()
    ensures forall l, n, c {:trigger MergeDevice(l, n, c)} ::
              MergeDevice(l, n, c).baseUrl == Column(l.baseUrl, n.baseUrl, c.baseUrl)
    ensures forall l, n, c {:trigger MergeTunnel(l, n, c)} ::
              && MergeTunnel(l, n, c).enabled == Column(l.enabled, n.enabled, c.enabled)
              && MergeTunnel(l, n, c).internalBaseUrl == Column(l.internalBaseUrl, n.internalBaseUrl, c.internalBaseUrl)
              && MergeTunnel(l, n, c).previousBaseUrl == Column(l.previousBaseUrl, n.previousBaseUrl, c.previousBaseUrl)
  {
  }

  lemma UpdateCommit(
      cfg: Settings, seen: Db, db: Db, id: string, changes: seq<DeviceChange>, supplied: seq<Option<string>>)
    requires BaseUrlOwned(db, id, supplied)
    requires Plan(cfg, seen, UpdateDevice(id, changes)).Ok?
    requires Apply(db, Plan(cfg, seen, UpdateDevice(id, changes)).value).Some?
    ensures var op := UpdateDevice(id, changes);
            var db' := Apply(db, Plan(cfg, seen, op).value).value;
            BaseUrlOwned(db', id, supplied + if NamesBaseUrl(op) then [NamedBaseUrl(op)] else [])
            <==> UpdateKeeps(seen, db, id, changes)
  {
    var l := seen.devices[id];
    ChangeDeviceBaseUrl(l, changes);
    NamedUrlIsNew(changes, l.baseUrl);
    hide Schema, ChangeDeviceAll, NewBaseUrl, TouchesBaseUrl;
  }

  lemma DisableCommit(cfg: Settings, seen: Db, db: Db, id: string, supplied: seq<Option<string>>)
    requires BaseUrlOwned(seen, id, supplied) && BaseUrlOwned(db, id, supplied)
    requires Plan(cfg, seen, Disable(id)).Ok? && Apply(db, Plan(cfg, seen, Disable(id)).value).Some?
    ensures id in seen.devices && id in seen.tunnels && id in db.devices
    ensures BaseUrlOwned(Apply(db, Plan(cfg, seen, Disable(id)).value).value, id, supplied)
            <==> DisableKeeps(seen, db, id, supplied)
  {
    hide Schema;
  }

  lemma EnableColumns(cfg: Settings, seen: Db, db: Db, id: string, p: EnableIn)
    requires OwnersExist(db)
    requires Plan(cfg, seen, Enable(id, p)).Ok? && Apply(db, Plan(cfg, seen, Enable(id, p)).value).Some?
    ensures id in seen.devices && id in db.devices && (id in seen.tunnels ==> id in db.tunnels)
    ensures !Enabled(seen, id) && ChosenPort(cfg, seen, p).Some?
    ensures var db' := Apply(db, Plan(cfg, seen, Enable(id, p)).value).value;
            var own, read := InternalBaseUrl(cfg, ChosenPort(cfg, seen, p).value), seen.devices[id].baseUrl;
            && Enabled(db', id) && id in db'.devices
            && db'.devices[id].baseUrl == (if WritesUrl(read, own, p) then Some(own) else db.devices[id].baseUrl)
            && db'.tunnels[id].internalBaseUrl == Placed(seen, db, id, own)
            && db'.tunnels[id].previousBaseUrl == Saved(seen, db, id, read)
  {
    assert Schema(Apply(db, Plan(cfg, seen, Enable(id, p)).value).value);
    hide InternalBaseUrl, PublicBaseUrl, ProxyName, NextPort, Schema, MergeDevice, MergeTunnel;
    UrlColumnsMerge();
  }

  lemma EnableCommit(cfg: Settings, seen: Db, db: Db, id: string, p: EnableIn, supplied: seq<Option<string>>)
    requires Schema(db) && BaseUrlOwned(seen, id, supplied) && BaseUrlOwned(db, id, supplied)
    requires Plan(cfg, seen, Enable(id, p)).Ok? && Apply(db, Plan(cfg, seen, Enable(id, p)).value).Some?
    ensures id in seen.devices && id in db.devices && (id in seen.tunnels ==> id in db.tunnels)
    ensures ChosenPort(cfg, seen, p).Some?
    ensures BaseUrlOwned(Apply(db, Plan(cfg, seen, Enable(id, p)).value).value, id, supplied)
            <==> EnableKeeps(cfg, seen, db, id, p, ChosenPort(cfg, seen, p).value)
  {
    EnableColumns(cfg, seen, db, id, p);
    hide Plan, Apply, InternalBaseUrl, ChosenPort, Schema;
  }

  /** The remaining operations touch none of these columns, or create the device. */
  lemma OtherCommit(cfg: Settings, seen: Db, db: Db, op: Op, supplied: seq<Option<string>>)
    requires Schema(db) && BaseUrlOwned(db, op.id, supplied)
    requires !op.UpdateDevice? && !op.Enable? && !op.Disable?
    requires Plan(cfg, seen, op).Ok? && Apply(db, Plan(cfg, seen, op).value).Some?
    ensures var db' := Apply(db, Plan(cfg, seen, op).value).value;
            BaseUrlOwned(db', op.id, supplied + if NamesBaseUrl(op) then [NamedBaseUrl(op)] else [])
  {
    assert OwnersExist(db);
    if op.UpdateTunnel? {
      ChangeTunnelKeepsPlacement(seen.tunnels[op.id], op.tunnelChanges);
    }
    hide Schema, ChangeTunnelAll, MergeDevice, MergeTunnel;
    UrlColumnsMerge();
  }

  /** A commit keeps ownership exactly when `KeepsOwner` says so, whatever happened since its reading. */
  lemma CommitKeeps(cfg: Settings, seen: Db, db: Db, op: Op, supplied: seq<Option<string>>)
    requires Schema(db) && BaseUrlOwned(seen, op.id, supplied) && BaseUrlOwned(db, op.id, supplied)
    requires Plan(cfg, seen, op).Ok? && Apply(db, Plan(cfg, seen, op).value).Some?
    ensures var db' := Apply(db, Plan(cfg, seen, op).value).value;
            BaseUrlOwned(db', op.id, supplied + if NamesBaseUrl(op) then [NamedBaseUrl(op)] else [])
            <==> KeepsOwner(cfg, seen, db, op, supplied)
  {
    assert supplied + [] == supplied;
    match op
    case UpdateDevice(id, changes) => UpdateCommit(cfg, seen, db, id, changes, supplied);
    case Enable(id, p) => EnableCommit(cfg, seen, db, id, p, supplied);
    case Disable(id) => DisableCommit(cfg, seen, db, id, supplied);
    case _ => OtherCommit(cfg, seen, db, op, supplied);
    hide Plan, Apply, Schema, BaseUrlOwned, EnableKeeps, UpdateKeeps, DisableKeeps;
  }

  lemma CommitLeavesOthers(db: Db, t: Txn, id: string)
    requires t.id != id && Apply(db, t).Some?
    ensures var db' := Apply(db, t).value;
            && (id in db'.devices <==> id in db.devices) && (id in db.devices ==> db'.devices[id] == db.devices[id])
            && (id in db'.tunnels <==> id in db.tunnels) && (id in db.tunnels ==> db'.tunnels[id] == db.tunnels[id])
  {
    hide Schema, MergeDevice, MergeTunnel;
  }

  /** Nothing that decides the device's base URL has changed since the reading. */
  predicate SameUrlColumns(seen: Db, db: Db, id: string) {
    && (id in seen.devices ==> id in db.devices && db.devices[id].baseUrl == seen.devices[id].baseUrl)
    && (id in seen.tunnels <==> id in db.tunnels)
    && (id in seen.tunnels ==>
          && db.tunnels[id].enabled == seen.tunnels[id].enabled
          && db.tunnels[id].internalBaseUrl == seen.tunnels[id].internalBaseUrl
          && db.tunnels[id].previousBaseUrl == seen.tunnels[id].previousBaseUrl)
  }

  /** No operation loses ownership by itself: one whose columns nobody touched meanwhile keeps it. */
  lemma UndisturbedCommitKeeps(cfg: Settings, seen: Db, db: Db, op: Op, supplied: seq<Option<string>>)
    requires BaseUrlOwned(seen, op.id, supplied) && SameUrlColumns(seen, db, op.id)
    requires Plan(cfg, seen, op).Ok? && Apply(db, Plan(cfg, seen, op).value).Some?
    ensures KeepsOwner(cfg, seen, db, op, supplied)
  {
    if op.UpdateDevice? {
      NamedUrlIsNew(op.deviceChanges, seen.devices[op.id].baseUrl);
    }
    hide Schema, Apply, InternalBaseUrl, EnabledTunnel, FreshTunnel, ChosenPort;
  }

  /** For a device without a tunnel row yet: a syncing enable always keeps ownership, one that does not sync exactly
      when the URL in force is still the one it read, or its own. */
  lemma FirstEnableKeeps(cfg: Settings, seen: Db, db: Db, id: string, p: EnableIn, port: int)
    requires id in seen.devices && id in db.devices && id !in seen.tunnels
    ensures EnableKeeps(cfg, seen, db, id, p, port) <==>
            var own, read := InternalBaseUrl(cfg, port), seen.devices[id].baseUrl;
            WritesUrl(read, own, p) || db.devices[id].baseUrl == read || db.devices[id].baseUrl == Some(own)
  {
    hide InternalBaseUrl;
  }

  // ---- every interleaving ----

  ghost predicate OwnedAfter(cfg: Settings, steps: seq<Step>, id: string) {
    BaseUrlOwned(RunSteps(cfg, steps).db, id, Given(cfg, steps, id))
  }

  /** The device's base URL is owned in every state of the run. */
  ghost predicate OwnedThroughout(cfg: Settings, steps: seq<Step>, id: string) {
    forall k | 0 <= k <= |steps| :: OwnedAfter(cfg, steps[..k], id)
  }

  ghost predicate StepKeeps(cfg: Settings, before: seq<Step>, step: Step, id: string) {
    Commits(cfg, before, step, id) ==>
      var reading, s := Readings(cfg, before)[step.session], RunSteps(cfg, before);
      && Plan(cfg, reading.seen, reading.op) == Ok(s.inFlight[step.session])
      && KeepsOwner(cfg, reading.seen, s.db, reading.op, Given(cfg, before, id))
  }

  ghost predicate EveryCommitKeeps(cfg: Settings, steps: seq<Step>, id: string) {
    forall k | 0 <= k < |steps| :: StepKeeps(cfg, steps[..k], steps[k], id)
  }

  lemma OwnedOneMore(cfg: Settings, init: seq<Step>, step: Step, id: string)
    ensures OwnedThroughout(cfg, init + [step], id)
            <==> OwnedThroughout(cfg, init, id) && OwnedAfter(cfg, init + [step], id)
    ensures EveryCommitKeeps(cfg, init + [step], id)
            <==> EveryCommitKeeps(cfg, init, id) && StepKeeps(cfg, init, step, id)
    ensures OwnedThroughout(cfg, init, id) ==> OwnedAfter(cfg, init, id)
  {
    hide OwnedAfter, StepKeeps;
    var steps := init + [step];
    assert forall k | 0 <= k <= |init| :: steps[..k] == init[..k];
    assert steps[..|steps|] == steps && init[..|init|] == init && steps[|init|] == step;
    assert forall k | 0 <= k < |init| :: steps[k] == init[k];
  }

  /** Whatever a unit of work in flight has read was owned, in an owned run. */
  ghost predicate ReadingsOwned(cfg: Settings, steps: seq<Step>, id: string) {
    forall n | n in Readings(cfg, steps) && Readings(cfg, steps)[n].op.id == id ::
      BaseUrlOwned(Readings(cfg, steps)[n].seen, id, Given(cfg, steps, id))
  }

  lemma RunOneMore(cfg: Settings, init: seq<Step>, step: Step, id: string)
    ensures RunSteps(cfg, init + [step]) == Next(cfg, RunSteps(cfg, init), step)
    ensures var readings, db := Readings(cfg, init), RunSteps(cfg, init).db;
            Readings(cfg, init + [step]) ==
              match step
              case Begin(n, op) => if Plan(cfg, db, op).Ok? then readings[n := Reading(db, op)] else readings
              case Commit(n) => readings - {n}
    ensures Given(cfg, init + [step], id) == Given(cfg, init, id)
              + if Commits(cfg, init, step, id) && NamesBaseUrl(Readings(cfg, init)[step.session].op)
                then [NamedBaseUrl(Readings(cfg, init)[step.session].op)] else []
  {
    hide Next, Plan, Commits, NamedBaseUrl, NamesBaseUrl;
    assert (init + [step])[..|init|] == init;
  }

  lemma ReadingsStayOwned(cfg: Settings, init: seq<Step>, step: Step, id: string)
    requires ReadingsOwned(cfg, init, id) && OwnedAfter(cfg, init, id)
    ensures ReadingsOwned(cfg, init + [step], id)
  {
    RunOneMore(cfg, init, step, id);
    hide RunSteps, Readings, Given, Next, Plan, Commits, NamedBaseUrl, NamesBaseUrl;
    var more := Given(cfg, init + [step], id)[|Given(cfg, init, id)|..];
    assert Given(cfg, init + [step], id) == Given(cfg, init, id) + more;
    forall seen | BaseUrlOwned(seen, id, Given(cfg, init, id))
      ensures BaseUrlOwned(seen, id, Given(cfg, init + [step], id))
    {
      MoreSupplied(seen, id, Given(cfg, init, id), more);
    }
    hide BaseUrlOwned;
  }

  /** One step of an owned run: it stays owned exactly when a commit of the device keeps ownership. */
  lemma OwnedStepIff(cfg: Settings, init: seq<Step>, step: Step, id: string)
    requires ReadingsOwned(cfg, init, id) && OwnedAfter(cfg, init, id)
    ensures OwnedAfter(cfg, init + [step], id) <==> StepKeeps(cfg, init, step, id)
  {
    RunOneMore(cfg, init, step, id);
    ReadingsArePlans(cfg, init);
    RunsAreOk(cfg, init);
    var s, given := RunSteps(cfg, init), Given(cfg, init, id);
    assert Schema(s.db);
    assert given + [] == given;
    hide RunSteps, Readings, Given, Plan, Apply, Schema, SysOk, KeepsOwner, NamedBaseUrl, NamesBaseUrl;
    if Commits(cfg, init, step, id) {
      var reading := Readings(cfg, init)[step.session];
      CommitKeeps(cfg, reading.seen, s.db, reading.op, given);
      hide BaseUrlOwned;
    } else if step.Commit? && step.session in s.inFlight && Apply(s.db, s.inFlight[step.session]).Some? {
      var reading := Readings(cfg, init)[step.session];
      PlanTouchesOnlyId(cfg, reading.seen, reading.op);
      CommitLeavesOthers(s.db, s.inFlight[step.session], id);
    }
  }

  lemma {:induction false} OwnedRunReadings(cfg: Settings, steps: seq<Step>, id: string)
    requires OwnedThroughout(cfg, steps, id)
    ensures ReadingsOwned(cfg, steps, id) && OwnedAfter(cfg, steps, id)
  {
    hide OwnedAfter, RunSteps, Given, BaseUrlOwned, OwnedThroughout;
    if steps == [] {
      NothingOwnedYet(cfg, id);
    } else {
      var init, step := steps[..|steps| - 1], steps[|steps| - 1];
      assert steps == init + [step];
      OwnedOneMore(cfg, init, step, id);
      OwnedRunReadings(cfg, init, id);
      ReadingsStayOwned(cfg, init, step, id);
    }
  }

  lemma NothingOwnedYet(cfg: Settings, id: string)
    ensures OwnedAfter(cfg, [], id) && OwnedThroughout(cfg, [], id)
  {
    assert OwnedAfter(cfg, [], id);
  }

  /** Over all interleavings of all sessions: a device's base URL is owned in every state of a run exactly when
      every one of its commits met the condition for its operation. */
  lemma {:induction false} OwnedExactly(cfg: Settings, steps: seq<Step>, id: string)
    ensures OwnedThroughout(cfg, steps, id) <==> EveryCommitKeeps(cfg, steps, id)
  {
    hide OwnedAfter, StepKeeps, OwnedThroughout, ReadingsOwned;
    if steps == [] {
      NothingOwnedYet(cfg, id);
    } else {
      hide EveryCommitKeeps;
      var init, step := steps[..|steps| - 1], steps[|steps| - 1];
      assert steps == init + [step];
      OwnedExactly(cfg, init, id);
      OwnedOneMore(cfg, init, step, id);
      if OwnedThroughout(cfg, init, id) {
        OwnedRunReadings(cfg, init, id);
        OwnedStepIff(cfg, init, step, id);
      }
    }
  }

  // ---- orders in which ownership is lost ----

  /** The lock of `DeviceService.update` is read before its commit: an update that read while the tunnel was off
      and commits after an enable puts its own base URL in force on the enabled tunnel's device, where a later
      disable replaces it by the older saved one. */
  lemma StaleUpdateOverridesTunnel(cfg: Settings, steps: seq<Step>, id: string, p: EnableIn, url: string)
    requires var db := RunSteps(cfg, steps).db;
             && id in db.devices && !Enabled(db, id) && |db.tunnels| < RangeSize(cfg)
             && p.remotePort.None? && p.syncDeviceBaseUrl && db.devices[id].baseUrl != Some(url)
    ensures var db := RunSteps(cfg, steps).db;
            var update := Plan(cfg, db, UpdateDevice(id, [SetBaseUrl(Some(url))]));
            var enable := Plan(cfg, db, Enable(id, p));
            && update.Ok? && enable.Ok?
            && var first := Apply(db, enable.value);
            && first.Some? && Enabled(first.value, id)
            && var second := Apply(first.value, update.value);
            && second.Some? && Enabled(second.value, id) && id in second.value.devices
            && second.value.devices[id].baseUrl == Some(url) != second.value.tunnels[id].previousBaseUrl
            && second.value.tunnels == first.value.tunnels
  {
    var db := RunSteps(cfg, steps).db;
    RunsAreOk(cfg, steps);
    AutomaticEnable(cfg, steps, id, p);
    assert Schema(db);
    hide RunSteps, SysOk, Schema;
    OneUrlChange(Some(url), None);
    SerialOwnDevice(cfg, db, Enable(id, p));
    var db1 := Serial(cfg, db, Enable(id, p)).0;
    StaleUpdateApplies(cfg, db, db1, id, url);
    hide Plan, Apply;
  }

  lemma StaleUpdateApplies(cfg: Settings, db: Db, now: Db, id: string, url: string)
    requires Schema(now) && id in db.devices && id in now.devices && !Enabled(db, id)
    requires db.devices[id].baseUrl != Some(url)
    ensures var update := Plan(cfg, db, UpdateDevice(id, [SetBaseUrl(Some(url))]));
            && update.Ok?
            && var r := Apply(now, update.value);
            && r.Some? && r.value == now.(devices := now.devices[id := now.devices[id].(baseUrl := Some(url))])
  {
    var d, c := db.devices[id], SetBaseUrl(Some(url));
    assert ChangeDeviceAll(d, [c]) == ChangeDevice(ChangeDeviceAll(d, [c][..0]), c) == d.(baseUrl := Some(url));
  }

  /** An enable that read base URL A and commits after the user changed it to B saves A. Syncing, it takes B out of
      force for good: the next disable puts A back. Not syncing, it leaves B in force over a saved A, and B is in
      order only if it happens to be the tunnel's own URL. The update passed its lock both times. */
  lemma StaleEnableSavesOldUrl(cfg: Settings, steps: seq<Step>, id: string, p: EnableIn, url: string)
    requires var db := RunSteps(cfg, steps).db;
             && id in db.devices && id !in db.tunnels && |db.tunnels| < RangeSize(cfg)
             && p.remotePort.None? && db.devices[id].baseUrl != Some(url)
    ensures var db := RunSteps(cfg, steps).db;
            var enable := Plan(cfg, db, Enable(id, p));
            var update := Plan(cfg, db, UpdateDevice(id, [SetBaseUrl(Some(url))]));
            && enable.Ok? && update.Ok?
            && var first := Apply(db, update.value);
            && first.Some? && id in first.value.devices && first.value.devices[id].baseUrl == Some(url)
            && var second := Apply(first.value, enable.value);
            && second.Some? && Enabled(second.value, id) && id in second.value.devices
            && second.value.tunnels[id].previousBaseUrl == db.devices[id].baseUrl
            && second.value.devices[id].baseUrl ==
                 (if WritesUrl(db.devices[id].baseUrl, second.value.tunnels[id].internalBaseUrl, p)
                  then Some(second.value.tunnels[id].internalBaseUrl) else Some(url))
  {
    var db := RunSteps(cfg, steps).db;
    RunsAreOk(cfg, steps);
    AutomaticEnable(cfg, steps, id, p);
    assert Schema(db);
    hide RunSteps, SysOk;
    var update, enable := Plan(cfg, db, UpdateDevice(id, [SetBaseUrl(Some(url))])), Plan(cfg, db, Enable(id, p));
    StaleUpdateApplies(cfg, db, db, id, url);
    var now := Apply(db, update.value).value;
    assert enable.Ok? && Serial(cfg, db, Enable(id, p)).1.Ok?;
    hide Schema, Apply, InternalBaseUrl, NextPort;
    assert now.tunnels == db.tunnels;
    StaleEnableCommit(cfg, db, db, id, p);
    StaleEnableCommit(cfg, db, now, id, p);
    EnableColumns(cfg, db, now, id, p);
  }
}
