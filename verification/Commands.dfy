/** app/services/command_service.py: a dispatch writes a log, runs up to the awaited device call, and finishes
    the log when the call returns; other dispatches and requests run in between. */
module Commands {
  import opened Prelude
  import opened Values
  import opened Masking
  import opened Scrubbing
  import opened Models
  import opened EventCache

  const COMMAND_PATHS := map[
    "config.query" := "/config/query",
    "sms.query" := "/sms/query",
    "call.query" := "/call/query",
    "contact.query" := "/contact/query",
    "battery.query" := "/battery/query",
    "location.query" := "/location/query"]

  const EVENT_TYPES := map[
    "sms.query" := "sms",
    "call.query" := "call",
    "contact.query" := "contact",
    "battery.query" := "battery",
    "location.query" := "location"]

  predicate IntOrAbsent(es: seq<Entry>, k: string) {
    Get(es, k).None? || Get(es, k).value.Int?
  }

  /** The request schemas admit only integer page arguments. */
  type Payload = es: seq<Entry> | IntOrAbsent(es, "page_num") && IntOrAbsent(es, "page_size") witness []

  function IntArg(es: seq<Entry>, k: string, default: int): int {
    var v := Get(es, k);
    if v.Some? && v.value.Int? then v.value.n else default
  }

  datatype Mode = Realtime | Cache | Unsupported

  /** `str(payload.get("mode", "realtime"))`; the text of a value that is not a string is no mode. */
  function ModeOf(es: seq<Entry>): Mode {
    match Get(es, "mode")
    case None => Realtime
    case Some(v) =>
      if v == Str("realtime") then Realtime else if v == Str("cache") then Cache else Unsupported
  }

  /** The payload without its mode, as sent to the device. */
  function WithoutMode(es: seq<Entry>): seq<Entry> {
    if es == [] then []
    else
      WithoutMode(es[..|es| - 1])
      + if es[|es| - 1].key == Key(true, "mode") then [] else [es[|es| - 1]]
  }

  // ---- logs ----

  function PendingLog(
      ct: CharTables, device: Device, deviceId: string, command: string, payload: seq<Entry>, userId: Option<int>)
    : CommandLog
  {
    CommandLog(deviceId, userId, command, device.channelType.GetOr(""), Pending,
               Scrub(ct, Obj(payload)), Obj([]), None, None)
  }

  datatype Outcome = Succeeded(data: Value) | FailedWith(msg: string)

  function FinishedLog(ct: CharTables, log: CommandLog, outcome: Outcome, now: Time): CommandLog {
    match outcome
    case Succeeded(data) =>
      log.(status := Success, responseSummary := Scrub(ct, data), errorMsg := None, completedAt := Some(now))
    case FailedWith(msg) =>
      log.(status := Failed, responseSummary := Scrub(ct, Obj([])), errorMsg := Some(msg), completedAt := Some(now))
  }

  // ---- up to the await ----

  datatype Call = Call(baseUrl: string, path: string, payload: seq<Entry>, secret: Option<string>)

  datatype Progress = Finished(outcome: Outcome) | Awaiting(call: Call)

  function Payloads(page: seq<Event>): seq<Value> {
    seq(|page|, i requires 0 <= i < |page| => page[i].payload)
  }

  function QueryCache(db: Db, deviceId: string, command: string, payload: Payload): Outcome {
    if command !in EVENT_TYPES then FailedWith("cache mode is not supported for this command")
    else
      var num, size := IntArg(payload, "page_num", 1), IntArg(payload, "page_size", 10);
      var page := CachePage(db, deviceId, EVENT_TYPES[command], num, size);
      Succeeded(Obj([
        Entry(Key(true, "items"), Arr(true, Payloads(page.items))),
        Entry(Key(true, "total"), Int(page.total)),
        Entry(Key(true, "page_num"), Int(num)),
        Entry(Key(true, "page_size"), Int(size))]))
  }

  function QueryRealtime(device: Device, command: string, payload: seq<Entry>): Progress {
    if device.channelType == Some("webhook_only") then
      Finished(FailedWith("device only supports cache mode"))
    else if device.baseUrl == None || device.baseUrl == Some("") then
      Finished(FailedWith("device base_url is required for realtime mode"))
    else if command !in COMMAND_PATHS then Finished(FailedWith("unsupported command type"))
    else
      Awaiting(Call(device.baseUrl.value, COMMAND_PATHS[command], WithoutMode(payload), device.signSecret))
  }

  function Query(db: Db, device: Device, deviceId: string, command: string, payload: Payload): Progress {
    match ModeOf(payload)
    case Cache => Finished(QueryCache(db, deviceId, command, payload))
    case Realtime => QueryRealtime(device, command, payload)
    case Unsupported => Finished(FailedWith("unsupported query mode"))
  }

  /** From the request to its end or its await; a log that is not awaited is finished at once. */
  function Begin(
      ct: CharTables, db: Db, requestId: string, deviceId: string, command: string, payload: Payload,
      userId: Option<int>, now: Time)
    : (Db, Result<Progress, Error>)
  {
    if deviceId !in db.devices then (db, Err(NotFound("device not found")))
    else if requestId in db.logs then (db, Err(IntegrityError))
    else
      var device := db.devices[deviceId];
      var log := PendingLog(ct, device, deviceId, command, payload, userId);
      var progress := Query(db, device, deviceId, command, payload);
      var log' := if progress.Finished? then FinishedLog(ct, log, progress.outcome, now) else log;
      (db.(logs := db.logs[requestId := log']), Ok(progress))
  }

  // ---- after the await ----

  /** The awaited call returned data or raised, an application error or any other. */
  datatype AdapterResult = Data(data: Value) | AppFailure(msg: string) | OtherFailure(text: string)

  function OutcomeOf(r: AdapterResult): Outcome {
    match r
    case Data(v) => Succeeded(v)
    case AppFailure(msg) => FailedWith(msg)
    case OtherFailure(text) => FailedWith(text)
  }

  function Resume(ct: CharTables, db: Db, requestId: string, r: AdapterResult, now: Time): Db
    requires requestId in db.logs
  {
    db.(logs := db.logs[requestId := FinishedLog(ct, db.logs[requestId], OutcomeOf(r), now)])
  }

  // ---- the service over a session ----

  class CommandService {
    const db: Session
    const ct: CharTables

    constructor (db: Session, ct: CharTables)
      ensures this.db == db && this.ct == ct
    {
      this.db := db;
      this.ct := ct;
    }

    method CreateLog(requestId: string, deviceId: string, command: string, payload: seq<Entry>, userId: Option<int>)
      returns (ok: bool)
      requires db.Clean() && Schema(db.store) && deviceId in db.store.devices
      modifies db
      ensures db.Clean()
      ensures ok == (requestId !in old(db.store.logs))
      ensures var log := PendingLog(ct, old(db.store.devices)[deviceId], deviceId, command, payload, userId);
              db.store == if ok then old(db.store).(logs := old(db.store.logs)[requestId := log]) else old(db.store)
    {
      if requestId in db.pending.logs {
        return false;
      }
      var summary := ScrubValue(ct, Obj(payload));
      var device := db.pending.devices[deviceId];
      var log := CommandLog(
        deviceId, userId, command, device.channelType.GetOr(""), Pending, summary, Obj([]), None, None);
      db.pending := db.pending.(logs := db.pending.logs[requestId := log]);
      ok := db.Commit();
    }

    method FinishLog(requestId: string, outcome: Outcome, now: Time)
      requires db.Clean() && Schema(db.store) && requestId in db.store.logs
      modifies db
      ensures db.Clean()
      ensures db.store == old(db.store).(logs := old(db.store.logs)[requestId :=
                FinishedLog(ct, old(db.store.logs)[requestId], outcome, now)])
    {
      var log := db.pending.logs[requestId];
      log := log.(status := if outcome.Succeeded? then Success else Failed);
      var response := if outcome.Succeeded? then outcome.data else Obj([]);
      var summary := ScrubValue(ct, response);
      log := log.(responseSummary := summary);
      log := log.(errorMsg := if outcome.Succeeded? then None else Some(outcome.msg));
      log := log.(completedAt := Some(now));
      db.pending := db.pending.(logs := db.pending.logs[requestId := log]);
      var ok := db.Commit();
    }

    /** `dispatch` up to its await or its end. */
    method DispatchBegin(
        requestId: string, deviceId: string, command: string, payload: Payload, userId: Option<int>, now: Time)
      returns (r: Result<Progress, Error>)
      requires db.Clean() && Schema(db.store)
      modifies db
      ensures db.Clean()
      ensures (db.store, r) == Begin(ct, old(db.store), requestId, deviceId, command, payload, userId, now)
    {
      if deviceId !in db.pending.devices {
        return Err(NotFound("device not found"));
      }
      var device := db.pending.devices[deviceId];
      ghost var before := db.store;
      var created := CreateLog(requestId, deviceId, command, payload, userId);
      if !created {
        return Err(IntegrityError);
      }
      var progress := Query(db.store, device, deviceId, command, payload);
      LogsOutside(before, db.store, device, deviceId, command, payload);
      hide Query, PendingLog, FinishedLog, Schema;
      if progress.Finished? {
        FinishLog(requestId, progress.outcome, now);
        var log := db.store.logs[requestId];
        assert db.store.logs == before.logs[requestId := log];
      }
      return Ok(progress);
    }

    /** `dispatch` from the return of its await. */
    method DispatchEnd(requestId: string, r: AdapterResult, now: Time)
      requires db.Clean() && Schema(db.store) && requestId in db.store.logs
      modifies db
      ensures db.Clean()
      ensures db.store == Resume(ct, old(db.store), requestId, r, now)
    {
      FinishLog(requestId, OutcomeOf(r), now);
    }
  }

  /** Queries and constraints do not look at logs. */
  lemma LogsOutside(db: Db, db': Db, device: Device, deviceId: string, command: string, payload: Payload)
    requires db' == db.(logs := db'.logs)
    ensures Query(db', device, deviceId, command, payload) == Query(db, device, deviceId, command, payload)
    ensures Schema(db') == Schema(db)
  {
  }
}
