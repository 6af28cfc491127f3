/** What a dispatch answers, stores and sends, said from the request, the tables and literals; and the guarantees of
    cache pagination for the pages so dispatched. */
module DispatchOutcomes {
  import opened Prelude
  import opened Values
  import opened Masking
  import opened Scrubbing
  import opened Models
  import opened GatewayRuns
  import opened Ledger
  import opened EventCache
  import opened Commands
  import opened Lifecycle

  // ---- the tables of commands ----

  predicate CommandPath(command: string, path: string) {
    || (command == "config.query" && path == "/config/query")
    || (command == "sms.query" && path == "/sms/query")
    || (command == "call.query" && path == "/call/query")
    || (command == "contact.query" && path == "/contact/query")
    || (command == "battery.query" && path == "/battery/query")
    || (command == "location.query" && path == "/location/query")
  }

  predicate CachedType(command: string, eventType: string) {
    || (command == "sms.query" && eventType == "sms")
    || (command == "call.query" && eventType == "call")
    || (command == "contact.query" && eventType == "contact")
    || (command == "battery.query" && eventType == "battery")
    || (command == "location.query" && eventType == "location")
  }

  lemma PathsAreThose(command: string)
    ensures command in COMMAND_PATHS <==> exists path :: CommandPath(command, path)
    ensures command in COMMAND_PATHS ==> CommandPath(command, COMMAND_PATHS[command])
    ensures forall path, path' | CommandPath(command, path) && CommandPath(command, path') :: path == path'
  {
    assert command in COMMAND_PATHS ==> CommandPath(command, COMMAND_PATHS[command]);
  }

  lemma TypesAreThose(command: string)
    ensures command in EVENT_TYPES <==> exists t :: CachedType(command, t)
    ensures command in EVENT_TYPES ==> CachedType(command, EVENT_TYPES[command])
    ensures forall t, t' | CachedType(command, t) && CachedType(command, t') :: t == t'
  {
    assert command in EVENT_TYPES ==> CachedType(command, EVENT_TYPES[command]);
  }

  // ---- a page of the cache ----

  function Sought(d: string, t: string): Event -> bool {
    (e: Event) => e.deviceId == d && e.eventType == t
  }

  /** The events sought, oldest first. */
  function Found(events: seq<Event>, d: string, t: string): seq<Event> {
    FlatMap(events, Keep(Sought(d, t)))
  }

  /** The payloads at positions off onward of the newest-first listing, at most size of them. */
  ghost predicate Listed(found: seq<Event>, off: int, size: int, items: seq<Value>) {
    && off >= 0 && size >= 0
    && |items| == Max(0, Min(size, |found| - off))
    && forall k | 0 <= k < |items| :: items[k] == found[|found| - 1 - (off + k)].payload
  }

  /** The answer to a page request: the payloads on the page, how many events match in all, and both arguments. */
  ghost predicate PageAnswer(db: Db, d: string, t: string, num: int, size: int, data: Value) {
    exists items ::
      && data == Obj([
           Entry(Key(true, "items"), Arr(true, items)),
           Entry(Key(true, "total"), Int(|Found(db.events, d, t)|)),
           Entry(Key(true, "page_num"), Int(num)),
           Entry(Key(true, "page_size"), Int(size))])
      && (Increasing(db.events) && num >= 1 && size >= 0 ==>
            Listed(Found(db.events, d, t), (num - 1) * size, size, items))
  }

  lemma {:induction false} MatchingIsFound(events: seq<Event>, d: string, t: string)
    ensures Matching(events, d, t) == Found(events, d, t)
  {
    if events == [] {
    } else {
      MatchingIsFound(events[..|events| - 1], d, t);
    }
  }

  lemma WindowIsListed(found: seq<Event>, off: nat, size: nat)
    ensures Listed(found, off, size, Payloads(Window(Reverse(found), off, size)))
  {
  }

  lemma NotNegative(a: nat, b: nat)
    ensures a * b >= 0
  {
  }

  lemma PageIsListed(db: Db, d: string, t: string, num: int, size: int)
    requires Increasing(db.events) && num >= 1 && size >= 0
    ensures Listed(Found(db.events, d, t), (num - 1) * size, size, Payloads(CachePage(db, d, t, num, size).items))
  {
    var found, off := Found(db.events, d, t), (num - 1) * size;
    NotNegative(num - 1, size);
    MatchingIsFound(db.events, d, t);
    MatchingIncreasing(db.events, d, t);
    NewestFirstReverses(found);
    assert CachePage(db, d, t, num, size).items == Window(Reverse(found), off, size);
    hide *;
    WindowIsListed(found, off, size);
  }

  /** A missing page argument counts as its default. */
  function ArgumentOr(payload: seq<Entry>, k: string, default: int): int {
    match Get(payload, k)
    case Some(Int(n)) => n
    case _ => default
  }

  lemma QueryCacheAnswers(db: Db, d: string, command: string, t: string, payload: Payload)
    requires CachedType(command, t)
    ensures var r := QueryCache(db, d, command, payload);
            && r.Succeeded?
            && PageAnswer(db, d, t, ArgumentOr(payload, "page_num", 1), ArgumentOr(payload, "page_size", 10), r.data)
  {
    TypesAreThose(command);
    var num, size := ArgumentOr(payload, "page_num", 1), ArgumentOr(payload, "page_size", 10);
    var page := CachePage(db, d, t, num, size);
    assert IntArg(payload, "page_num", 1) == num && IntArg(payload, "page_size", 10) == size;
    assert EVENT_TYPES[command] == t && page.total == |Found(db.events, d, t)| by {
      MatchingIsFound(db.events, d, t);
    }
    hide CachePage, Found, Listed, Increasing, CachedType, IntArg, ArgumentOr, IntOrAbsent, Get;
    if Increasing(db.events) && num >= 1 && size >= 0 {
      PageIsListed(db, d, t, num, size);
    }
    var items := Payloads(page.items);
    assert QueryCache(db, d, command, payload).data == Obj([
      Entry(Key(true, "items"), Arr(true, items)),
      Entry(Key(true, "total"), Int(page.total)),
      Entry(Key(true, "page_num"), Int(num)),
      Entry(Key(true, "page_size"), Int(size))]);
  }

  // ---- a dispatch up to its await ----

  function NotTheMode(): Entry -> bool {
    (e: Entry) => e.key != Key(true, "mode")
  }

  lemma {:induction false} WithoutModeKeepsTheRest(es: seq<Entry>)
    ensures WithoutMode(es) == FlatMap(es, Keep(NotTheMode()))
  {
    if es == [] {
    } else {
      WithoutModeKeepsTheRest(es[..|es| - 1]);
    }
  }

  /** In cache mode: the page, for the five commands that have one. */
  ghost predicate FromCache(db: Db, d: string, command: string, payload: seq<Entry>, progress: Progress) {
    if forall t :: !CachedType(command, t) then
      progress == Finished(FailedWith("cache mode is not supported for this command"))
    else
      && progress.Finished? && progress.outcome.Succeeded?
      && forall t | CachedType(command, t) ::
           PageAnswer(db, d, t, ArgumentOr(payload, "page_num", 1), ArgumentOr(payload, "page_size", 10),
                      progress.outcome.data)
  }

  /** In realtime mode: a call of the device, unless something stands in its way, which is said. */
  ghost predicate FromDevice(device: Device, command: string, payload: seq<Entry>, progress: Progress) {
    if device.channelType == Some("webhook_only") then
      progress == Finished(FailedWith("device only supports cache mode"))
    else if device.baseUrl == None || device.baseUrl == Some("") then
      progress == Finished(FailedWith("device base_url is required for realtime mode"))
    else if forall path :: !CommandPath(command, path) then
      progress == Finished(FailedWith("unsupported command type"))
    else
      && progress.Awaiting? && Some(progress.call.baseUrl) == device.baseUrl
      && CommandPath(command, progress.call.path)
      && progress.call.payload == FlatMap(payload, Keep(NotTheMode()))
      && progress.call.secret == device.signSecret
  }

  /** Realtime is the mode of a payload that names none. */
  ghost predicate Performs(db: Db, d: string, command: string, payload: seq<Entry>, progress: Progress)
    requires d in db.devices
  {
    var mode := Get(payload, "mode");
    if mode == Some(Str("cache")) then FromCache(db, d, command, payload, progress)
    else if mode == None || mode == Some(Str("realtime")) then
      FromDevice(db.devices[d], command, payload, progress)
    else progress == Finished(FailedWith("unsupported query mode"))
  }

  lemma QueryCachePerforms(db: Db, d: string, command: string, payload: Payload)
    ensures FromCache(db, d, command, payload, Finished(QueryCache(db, d, command, payload)))
  {
    TypesAreThose(command);
    forall t | CachedType(command, t)
      ensures PageAnswer(db, d, t, ArgumentOr(payload, "page_num", 1), ArgumentOr(payload, "page_size", 10),
                         QueryCache(db, d, command, payload).data)
      ensures QueryCache(db, d, command, payload).Succeeded?
    {
      QueryCacheAnswers(db, d, command, t, payload);
    }
    hide PageAnswer, CachedType, CachePage, ArgumentOr;
  }

  lemma QueryRealtimePerforms(device: Device, command: string, payload: seq<Entry>)
    ensures FromDevice(device, command, payload, QueryRealtime(device, command, payload))
  {
    PathsAreThose(command);
    WithoutModeKeepsTheRest(payload);
    hide CommandPath, WithoutMode;
  }

  lemma QueryPerforms(db: Db, d: string, command: string, payload: Payload)
    requires d in db.devices
    ensures Performs(db, d, command, payload, Query(db, db.devices[d], d, command, payload))
  {
    QueryCachePerforms(db, d, command, payload);
    QueryRealtimePerforms(db.devices[d], command, payload);
    hide FromCache, FromDevice, QueryCache, QueryRealtime;
  }

  /** The log a dispatch leaves when it has got this far. */
  function LogOf(
      ct: CharTables, device: Device, d: string, command: string, payload: seq<Entry>, userId: Option<int>,
      progress: Progress, now: Time): CommandLog
  {
    var channel, request := device.channelType.GetOr(""), Scrub(ct, Obj(payload));
    match progress
    case Awaiting(_) => CommandLog(d, userId, command, channel, Pending, request, Obj([]), None, None)
    case Finished(Succeeded(data)) =>
      CommandLog(d, userId, command, channel, Success, request, Scrub(ct, data), None, Some(now))
    case Finished(FailedWith(msg)) =>
      CommandLog(d, userId, command, channel, Failed, request, Obj([]), Some(msg), Some(now))
  }

  /** A dispatch for a known device under a new id performs what its mode says and leaves that log, touching nothing
      else; the two failing cases store nothing. */
  lemma DispatchOutcome(
      ct: CharTables, db: Db, requestId: string, d: string, command: string, payload: Payload, userId: Option<int>,
      now: Time)
    ensures var (db', r) := Begin(ct, db, requestId, d, command, payload, userId, now);
            if d !in db.devices then db' == db && r == Err(NotFound("device not found"))
            else if requestId in db.logs then db' == db && r == Err(IntegrityError)
            else
              && r.Ok? && Performs(db, d, command, payload, r.value)
              && db' == db.(logs := db.logs[requestId :=
                              LogOf(ct, db.devices[d], d, command, payload, userId, r.value, now)])
  {
    if d in db.devices {
      QueryPerforms(db, d, command, payload);
      assert Scrub(ct, Obj([])) == Obj([]);
      hide Query, Performs, Scrub;
    }
  }
}
