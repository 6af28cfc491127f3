/** Any number of dispatches in flight, their awaited calls returning in any order, with every other request of
    the gateway in between (task cancellation excluded). */
module Lifecycle {
  import opened Prelude
  import opened Values
  import opened Masking
  import opened Scrubbing
  import opened Models
  import opened GatewayRuns
  import opened Ledger
  import opened Commands

  datatype Action =
    | Dispatch(requestId: string, deviceId: string, command: string, payload: Payload, userId: Option<int>, now: Time)
    | Return(requestId: string, result: AdapterResult, now: Time)
    | Other(op: GatewayOp)

  datatype Sys = Sys(db: Db, inFlight: map<string, Call>)

  function Next(w: World, s: Sys, a: Action): Sys {
    match a
    case Dispatch(id, d, command, payload, userId, now) =>
      var (db, r) := Begin(w.env.ct, s.db, id, d, command, payload, userId, now);
      Sys(db, if r.Ok? && r.value.Awaiting? then s.inFlight[id := r.value.call] else s.inFlight)
    case Return(id, result, now) =>
      if id in s.inFlight && id in s.db.logs then
        Sys(Resume(w.env.ct, s.db, id, result, now), s.inFlight - {id})
      else s
    case Other(op) => s.(db := Step(w, s.db, op))
  }

  function Trace(w: World, actions: seq<Action>): Sys {
    if actions == [] then Sys(EMPTY_DB, map[])
    else Next(w, Trace(w, actions[..|actions| - 1]), actions[|actions| - 1])
  }

  /** A dispatch starts when its device is known and its generated id is new. */
  predicate Starts(s: Sys, a: Action) {
    a.Dispatch? && a.deviceId in s.db.devices && a.requestId !in s.db.logs
  }

  function StartedCount(w: World, actions: seq<Action>): nat {
    if actions == [] then 0
    else
      var init := actions[..|actions| - 1];
      StartedCount(w, init) + if Starts(Trace(w, init), actions[|actions| - 1]) then 1 else 0
  }

  // ---- one step ----

  lemma OtherKeepsLogs(w: World, db: Db, op: GatewayOp)
    requires Schema(db)
    ensures Step(w, db, op).logs == db.logs && Schema(Step(w, db, op))
  {
    SerialRunKeepsSchema(w, db, op);
    if op.Deliver? {
      DeliverEffect(w, db, op);
    }
    hide Schema;
  }

  /** How one step treats the log of one request. */
  ghost predicate LogStep(w: World, s: Sys, s': Sys, a: Action, id: string) {
    if id in s.db.logs then
      && id in s'.db.logs
      && (s'.db.logs[id] == s.db.logs[id]
          || (a.Return? && a.requestId == id && id in s.inFlight
              && s'.db.logs[id] == FinishedLog(w.env.ct, s.db.logs[id], OutcomeOf(a.result), a.now)))
    else
      id in s'.db.logs <==> Starts(s, a) && a.requestId == id
  }

  lemma StepTreatsLogs(w: World, s: Sys, a: Action)
    requires Schema(s.db)
    ensures Schema(Next(w, s, a).db)
    ensures forall id :: LogStep(w, s, Next(w, s, a), a, id)
  {
    hide Query, PendingLog, FinishedLog;
    match a
    case Dispatch(id, d, command, payload, userId, now) =>
      LogsOutsideSchema(s.db, Next(w, s, a).db);
      hide Schema;
    case Return(id, result, now) =>
      LogsOutsideSchema(s.db, Next(w, s, a).db);
      hide Schema;
    case Other(op) =>
      OtherKeepsLogs(w, s.db, op);
      hide Schema, Step;
  }

  lemma LogsOutsideSchema(db: Db, db': Db)
    requires db' == db.(logs := db'.logs)
    ensures Schema(db') == Schema(db)
  {
  }

  // ---- every run ----

  /** Nothing left to scrub in either summary, and a completion time exactly when finished. */
  ghost predicate LogSound(ct: CharTables, log: CommandLog) {
    && Normal(ct, log.requestSummary)
    && Normal(ct, log.responseSummary)
    && (log.completedAt.Some? <==> !log.status.Pending?)
  }

  ghost predicate Sound(w: World, s: Sys) {
    && Schema(s.db)
    && s.inFlight.Keys <= s.db.logs.Keys
    && (forall id | id in s.db.logs :: s.db.logs[id].status.Pending? <==> id in s.inFlight)
    && (forall id | id in s.db.logs :: LogSound(w.env.ct, s.db.logs[id]))
  }

  lemma PendingLogSound(
      ct: CharTables, device: Device, d: string, command: string, payload: seq<Entry>, userId: Option<int>)
    requires Sane(ct)
    ensures var log := PendingLog(ct, device, d, command, payload, userId);
            LogSound(ct, log) && log.status.Pending?
  {
    ScrubReachesNormalForm(ct, Obj(payload));
    hide Scrub;
  }

  lemma FinishedLogSound(ct: CharTables, log: CommandLog, outcome: Outcome, now: Time)
    requires Sane(ct) && LogSound(ct, log)
    ensures var log' := FinishedLog(ct, log, outcome, now);
            LogSound(ct, log') && !log'.status.Pending?
  {
    ScrubReachesNormalForm(ct, if outcome.Succeeded? then outcome.data else Obj([]));
    hide Scrub, Normal;
  }

  lemma SoundWithLog(w: World, s: Sys, s': Sys, id: string, log: CommandLog)
    requires Sound(w, s) && LogSound(w.env.ct, log)
    requires s'.db == s.db.(logs := s.db.logs[id := log])
    requires forall x | x != id :: x in s'.inFlight <==> x in s.inFlight
    requires log.status.Pending? <==> id in s'.inFlight
    ensures Sound(w, s')
  {
    LogsOutsideSchema(s.db, s'.db);
    hide Schema, LogSound;
  }

  lemma SoundAfterDispatch(w: World, s: Sys, a: Action)
    requires Sane(w.env.ct) && Sound(w, s) && a.Dispatch?
    ensures Sound(w, Next(w, s, a))
  {
    if Starts(s, a) {
      var device, ct := s.db.devices[a.deviceId], w.env.ct;
      var log := PendingLog(ct, device, a.deviceId, a.command, a.payload, a.userId);
      var progress := Query(s.db, device, a.deviceId, a.command, a.payload);
      PendingLogSound(ct, device, a.deviceId, a.command, a.payload, a.userId);
      hide Query, PendingLog, LogSound, Schema;
      if progress.Finished? {
        FinishedLogSound(ct, log, progress.outcome, a.now);
        hide FinishedLog;
        SoundWithLog(w, s, Next(w, s, a), a.requestId, FinishedLog(ct, log, progress.outcome, a.now));
      } else {
        SoundWithLog(w, s, Next(w, s, a), a.requestId, log);
      }
    }
  }

  lemma SoundAfterReturn(w: World, s: Sys, a: Action)
    requires Sane(w.env.ct) && Sound(w, s) && a.Return?
    ensures Sound(w, Next(w, s, a))
  {
    if a.requestId in s.inFlight {
      var log := s.db.logs[a.requestId];
      FinishedLogSound(w.env.ct, log, OutcomeOf(a.result), a.now);
      hide FinishedLog, Schema, LogSound;
      SoundWithLog(w, s, Next(w, s, a), a.requestId, FinishedLog(w.env.ct, log, OutcomeOf(a.result), a.now));
    }
  }

  lemma SoundAfterOther(w: World, s: Sys, a: Action)
    requires Sound(w, s) && a.Other?
    ensures Sound(w, Next(w, s, a))
  {
    OtherKeepsLogs(w, s.db, a.op);
    hide Schema, Step, LogSound;
  }

  lemma TraceOneMore(w: World, actions: seq<Action>, a: Action)
    ensures Trace(w, actions + [a]) == Next(w, Trace(w, actions), a)
    ensures StartedCount(w, actions + [a]) == StartedCount(w, actions) + if Starts(Trace(w, actions), a) then 1 else 0
  {
    assert (actions + [a])[..|actions|] == actions;
    hide Next;
  }

  lemma {:induction false} RunsAreSound(w: World, actions: seq<Action>)
    requires Sane(w.env.ct)
    ensures Sound(w, Trace(w, actions))
  {
    hide Next, Sound;
    if actions == [] {
      EmptyIsSound(w);
    } else {
      var s, a := Trace(w, actions[..|actions| - 1]), actions[|actions| - 1];
      RunsAreSound(w, actions[..|actions| - 1]);
      match a {
        case Dispatch(_, _, _, _, _, _) => SoundAfterDispatch(w, s, a);
        case Return(_, _, _) => SoundAfterReturn(w, s, a);
        case Other(_) => SoundAfterOther(w, s, a);
      }
    }
  }

  lemma EmptyIsSound(w: World)
    ensures Sound(w, Sys(EMPTY_DB, map[]))
  {
  }

  /** In every run the pending logs are exactly the dispatches in flight, and nothing a log stores about request
      or response has anything left to scrub. */
  lemma PendingLogsAreInFlight(w: World, actions: seq<Action>)
    requires Sane(w.env.ct)
    ensures var s := Trace(w, actions);
            && s.inFlight.Keys == set id | id in s.db.logs && s.db.logs[id].status.Pending?
    ensures var logs := Trace(w, actions).db.logs;
            forall id | id in logs ::
              Normal(w.env.ct, logs[id].requestSummary) && Normal(w.env.ct, logs[id].responseSummary)
  {
    RunsAreSound(w, actions);
    hide Trace, Normal, Schema;
  }

  lemma NothingYet(w: World)
    ensures Trace(w, []).db.logs == map[] && StartedCount(w, []) == 0
  {
  }

  /** Every dispatch that starts leaves exactly one log, and nothing else does. */
  lemma {:induction false} OneLogPerDispatch(w: World, actions: seq<Action>)
    requires Sane(w.env.ct)
    ensures |Trace(w, actions).db.logs| == StartedCount(w, actions)
  {
    hide *;
    if actions == [] {
      NothingYet(w);
    } else {
      var init, a := actions[..|actions| - 1], actions[|actions| - 1];
      var s := Trace(w, init);
      OneLogPerDispatch(w, init);
      RunsAreSound(w, init);
      TraceOneMore(w, init, a);
      assert actions == init + [a];
      SoundSchema(w, s);
      StepTreatsLogs(w, s, a);
      LogKeysGrow(w, s, Next(w, s, a), a);
    }
  }

  lemma SoundSchema(w: World, s: Sys)
    requires Sound(w, s)
    ensures Schema(s.db)
  {
  }

  lemma LogKeysGrow(w: World, s: Sys, s': Sys, a: Action)
    requires forall id :: LogStep(w, s, s', a, id)
    ensures |s'.db.logs| == |s.db.logs| + if Starts(s, a) then 1 else 0
  {
    hide FinishedLog;
    forall id
      ensures id in s'.db.logs <==> id in s.db.logs || (Starts(s, a) && id == a.requestId)
    {
      assert LogStep(w, s, s', a, id);
    }
    if Starts(s, a) {
      assert s'.db.logs.Keys == s.db.logs.Keys + {a.requestId};
    } else {
      assert s'.db.logs.Keys == s.db.logs.Keys;
    }
  }

  lemma FinishedStays(w: World, s: Sys, a: Action, id: string)
    requires Sound(w, s) && id in s.db.logs && !s.db.logs[id].status.Pending?
    ensures id in Next(w, s, a).db.logs && Next(w, s, a).db.logs[id] == s.db.logs[id]
  {
    StepTreatsLogs(w, s, a);
    hide Next, Schema, FinishedLog, LogSound;
    assert LogStep(w, s, Next(w, s, a), a, id);
  }

  /** Once finished, a log never changes again, whatever follows. */
  lemma {:induction false} FinishedForever(w: World, before: seq<Action>, more: seq<Action>, id: string)
    requires Sane(w.env.ct)
    requires id in Trace(w, before).db.logs && !Trace(w, before).db.logs[id].status.Pending?
    ensures id in Trace(w, before + more).db.logs
    ensures Trace(w, before + more).db.logs[id] == Trace(w, before).db.logs[id]
  {
    hide *;
    if more == [] {
      assert before + more == before;
    } else {
      var init, a := more[..|more| - 1], more[|more| - 1];
      FinishedForever(w, before, init, id);
      assert before + more == before + init + [a];
      TraceOneMore(w, before + init, a);
      RunsAreSound(w, before + init);
      FinishedStays(w, Trace(w, before + init), a, id);
    }
  }

  lemma PendingStep(w: World, s: Sys, a: Action, id: string)
    requires Sound(w, s) && id in s.db.logs && s.db.logs[id].status.Pending?
    ensures var s', log := Next(w, s, a), s.db.logs[id];
            && id in s'.db.logs
            && s'.db.logs[id] == if a.Return? && a.requestId == id
                                 then FinishedLog(w.env.ct, log, OutcomeOf(a.result), a.now) else log
  {
    if !(a.Return? && a.requestId == id) {
      StepTreatsLogs(w, s, a);
      hide Next, Schema, FinishedLog, LogSound;
      assert LogStep(w, s, Next(w, s, a), a, id);
    } else {
      hide Schema, FinishedLog, LogSound, Begin, Step;
    }
  }

  /** A pending log finishes exactly when its own call returns: to success with the scrubbed data, or to failed
      with the error, its request side untouched. */
  lemma FinishesOnReturn(w: World, actions: seq<Action>, a: Action, id: string)
    requires Sane(w.env.ct)
    requires id in Trace(w, actions).db.logs && Trace(w, actions).db.logs[id].status.Pending?
    ensures var log, s' := Trace(w, actions).db.logs[id], Trace(w, actions + [a]);
            && id in s'.db.logs
            && (s'.db.logs[id].status.Pending? <==> !(a.Return? && a.requestId == id))
            && (s'.db.logs[id].status.Pending? ==> s'.db.logs[id] == log)
            && (!s'.db.logs[id].status.Pending? ==>
                  s'.db.logs[id] == log.(
                    status := if a.result.Data? then Success else Failed,
                    responseSummary := if a.result.Data? then Scrub(w.env.ct, a.result.data) else Obj([]),
                    errorMsg := match a.result
                                case Data(_) => None
                                case AppFailure(msg) => Some(msg)
                                case OtherFailure(text) => Some(text),
                    completedAt := Some(a.now)))
  {
    assert Scrub(w.env.ct, Obj([])) == Obj([]);
    hide Trace, Next, Sound, Scrub;
    var s := Trace(w, actions);
    RunsAreSound(w, actions);
    TraceOneMore(w, actions, a);
    PendingStep(w, s, a, id);
  }

  // ---- the calls a device receives ----

  /** The call is for its log's command, a known one, and goes to the base URL of a device not webhook-only. */
  ghost predicate CallAllowed(call: Call, log: CommandLog) {
    && log.commandType in COMMAND_PATHS && call.path == COMMAND_PATHS[log.commandType]
    && call.baseUrl != "" && log.channelType != "webhook_only"
  }

  ghost predicate CallsAllowed(w: World, s: Sys) {
    forall id | id in s.inFlight :: id in s.db.logs && CallAllowed(s.inFlight[id], s.db.logs[id])
  }

  /** What a dispatch asks of a device before the device is called. */
  predicate MayCall(device: Device, command: string, payload: seq<Entry>) {
    && ModeOf(payload) == Realtime && command in COMMAND_PATHS
    && device.channelType != Some("webhook_only") && device.baseUrl.GetOr("") != ""
  }

  lemma QueryCalls(db: Db, device: Device, d: string, command: string, payload: Payload)
    ensures var q := Query(db, device, d, command, payload);
            && (q.Awaiting? <==> MayCall(device, command, payload))
            && (q.Awaiting? ==>
                  q.call == Call(device.baseUrl.GetOr(""), COMMAND_PATHS[command], WithoutMode(payload),
                                 device.signSecret))
  {
    hide QueryCache;
  }

  lemma DispatchCalls(w: World, s: Sys, a: Action)
    requires Sound(w, s) && Starts(s, a)
    ensures var device, s' := s.db.devices[a.deviceId], Next(w, s, a);
            && (a.requestId in s'.inFlight <==> MayCall(device, a.command, a.payload))
            && (a.requestId in s'.inFlight ==>
                  s'.inFlight[a.requestId] == Call(device.baseUrl.GetOr(""), COMMAND_PATHS[a.command],
                                                   WithoutMode(a.payload), device.signSecret))
  {
    QueryCalls(s.db, s.db.devices[a.deviceId], a.deviceId, a.command, a.payload);
    hide Query, MayCall, Schema, LogSound, PendingLog, FinishedLog, WithoutMode;
  }

  lemma DispatchKeepsCalls(w: World, s: Sys, a: Action)
    requires Schema(s.db) && CallsAllowed(w, s) && Starts(s, a)
    ensures CallsAllowed(w, Next(w, s, a))
  {
    var device := s.db.devices[a.deviceId];
    assert device.channelType.Some?;
    QueryCalls(s.db, device, a.deviceId, a.command, a.payload);
    hide Query, Schema, Scrub, FinishedLog, WithoutMode;
  }

  lemma ReturnCalls(w: World, s: Sys, a: Action)
    requires CallsAllowed(w, s) && a.Return?
    ensures CallsAllowed(w, Next(w, s, a))
  {
    hide CallAllowed, FinishedLog;
  }

  lemma OtherCalls(w: World, s: Sys, a: Action)
    requires Sound(w, s) && CallsAllowed(w, s) && (a.Other? || (a.Dispatch? && !Starts(s, a)))
    ensures CallsAllowed(w, Next(w, s, a))
  {
    if a.Other? {
      OtherKeepsLogs(w, s.db, a.op);
      hide Schema, Step, CallAllowed;
    } else {
      hide Query, PendingLog, FinishedLog, CallAllowed;
    }
  }

  /** In every run each call in flight is one the gateway may make, and belongs to a log. */
  lemma {:induction false} CallsInFlightAreAllowed(w: World, actions: seq<Action>)
    requires Sane(w.env.ct)
    ensures CallsAllowed(w, Trace(w, actions))
  {
    if actions == [] {
      assert Trace(w, actions) == Sys(EMPTY_DB, map[]);
    } else {
      hide *;
      var init, a := actions[..|actions| - 1], actions[|actions| - 1];
      var s := Trace(w, init);
      CallsInFlightAreAllowed(w, init);
      RunsAreSound(w, init);
      assert actions == init + [a];
      TraceOneMore(w, init, a);
      if Starts(s, a) {
        SoundSchema(w, s);
        DispatchKeepsCalls(w, s, a);
      } else if a.Return? {
        ReturnCalls(w, s, a);
      } else {
        OtherCalls(w, s, a);
      }
    }
  }

  /** In every run a dispatch that starts calls its device exactly when it is in realtime mode, for a known
      command, and the device is not webhook-only and has a base URL; the call goes to that URL, at the command's
      path, with the payload but for its mode. No other step starts a call. */
  lemma CalledOnlyWhenAllowed(w: World, actions: seq<Action>, a: Action)
    requires Sane(w.env.ct)
    ensures var s, s' := Trace(w, actions), Trace(w, actions + [a]);
            && (Starts(s, a) ==>
                  var device := s.db.devices[a.deviceId];
                  && a.requestId !in s.inFlight
                  && (a.requestId in s'.inFlight <==> MayCall(device, a.command, a.payload))
                  && (a.requestId in s'.inFlight ==>
                        s'.inFlight[a.requestId] == Call(device.baseUrl.GetOr(""), COMMAND_PATHS[a.command],
                                                         WithoutMode(a.payload), device.signSecret)))
            && forall id | id in s'.inFlight && id !in s.inFlight :: Starts(s, a) && id == a.requestId
  {
    var s := Trace(w, actions);
    RunsAreSound(w, actions);
    CallsInFlightAreAllowed(w, actions);
    TraceOneMore(w, actions, a);
    if Starts(s, a) {
      DispatchCalls(w, s, a);
    }
    NewCallsAreDispatches(w, s, a);
    hide Trace, Next, MayCall, CallsAllowed, Schema, LogSound, WithoutMode;
  }

  lemma NewCallsAreDispatches(w: World, s: Sys, a: Action)
    ensures forall id | id in Next(w, s, a).inFlight && id !in s.inFlight :: Starts(s, a) && id == a.requestId
  {
    hide Query, PendingLog, FinishedLog, Step;
  }

  // ---- error texts ----

  predicate FailureText(r: AdapterResult, text: string) {
    (r.AppFailure? && r.msg == text) || (r.OtherFailure? && r.text == text)
  }

  /** Unlike the summaries, the error text is stored as raised: it holds a phone number exactly when the failure
      it reports does. */
  lemma ErrorTextIsNotScrubbed(w: World, actions: seq<Action>, a: Action, id: string)
    requires Sane(w.env.ct) && a.Return? && a.requestId == id
    requires id in Trace(w, actions).db.logs && Trace(w, actions).db.logs[id].status.Pending?
    ensures var logs := Trace(w, actions + [a]).db.logs;
            && id in logs
            && ((logs[id].errorMsg.Some? && !NoPhone(w.env.ct, logs[id].errorMsg.value))
                <==> exists text :: FailureText(a.result, text) && !NoPhone(w.env.ct, text))
  {
    FinishesOnReturn(w, actions, a, id);
    hide Trace, NoPhone, Scrub;
    var stored := Trace(w, actions + [a]).db.logs[id].errorMsg;
    assert forall text :: FailureText(a.result, text) <==> stored == Some(text);
  }
}
