/** The guarantees of cache pagination for what a client sees: the answers to page requests dispatched at points of a
    run, with any dispatches, returns and other requests in between. */
module DispatchedPages {
  import opened Prelude
  import opened Values
  import opened Masking
  import opened Models
  import opened Webhooks
  import opened GatewayRuns
  import opened EventCache
  import opened Commands
  import opened Lifecycle
  import opened DispatchOutcomes

  // ---- the event log along a trace ----

  predicate Delivers(a: Action) {
    a.Other? && a.op.Deliver?
  }

  /** The clock readings that stamp events strictly increase. */
  predicate ClockForward(actions: seq<Action>) {
    forall i, j | 0 <= i < j < |actions| && Delivers(actions[i]) && Delivers(actions[j]) ::
      actions[i].op.now < actions[j].op.now
  }

  predicate Stamped(at: Time, actions: seq<Action>) {
    exists i | 0 <= i < |actions| :: Delivers(actions[i]) && actions[i].op.now == at
  }

  /** At most the event of a delivery is added, with its time. */
  ghost predicate Appends(events: seq<Event>, events': seq<Event>, a: Action) {
    || events' == events
    || (Delivers(a) && |events'| == |events| + 1 && events'[..|events|] == events
        && events'[|events|].createdAt == a.op.now)
  }

  lemma ActionAppends(w: World, s: Sys, a: Action)
    requires Schema(s.db)
    ensures Appends(s.db.events, Next(w, s, a).db.events, a)
  {
    if a.Other? {
      StepAppends(w, s.db, a.op);
    }
    hide Step, Schema, Query, PendingLog, FinishedLog;
  }

  lemma TraceAppends(w: World, init: seq<Action>, a: Action)
    requires Sane(w.env.ct)
    ensures Appends(Trace(w, init).db.events, Trace(w, init + [a]).db.events, a)
  {
    RunsAreSound(w, init);
    SoundSchema(w, Trace(w, init));
    TraceOneMore(w, init, a);
    ActionAppends(w, Trace(w, init), a);
    hide Trace, Next, Schema, Sound;
  }

  lemma {:induction false} EventsStay(w: World, actions: seq<Action>, a: nat, b: nat)
    requires Sane(w.env.ct) && a <= b <= |actions|
    ensures Trace(w, actions[..a]).db.events <= Trace(w, actions[..b]).db.events
    decreases b - a
  {
    hide Trace;
    if a == b {
    } else {
      EventsStay(w, actions, a, b - 1);
      assert actions[..b] == actions[..b - 1] + [actions[b - 1]];
      TraceAppends(w, actions[..b - 1], actions[b - 1]);
    }
  }

  lemma StampsStay(init: seq<Action>, a: Action, at: Time)
    ensures Stamped(at, init) ==> Stamped(at, init + [a])
    ensures Delivers(a) ==> Stamped(a.op.now, init + [a])
  {
    var actions := init + [a];
    assert actions[|init|] == a;
    if i :| 0 <= i < |init| && Delivers(init[i]) && init[i].op.now == at {
      assert actions[i] == init[i];
    }
  }

  lemma OrderOneMore(events: seq<Event>, events': seq<Event>, init: seq<Action>, a: Action)
    requires Appends(events, events', a) && ClockForward(init + [a]) && Increasing(events)
    requires forall e | e in events :: Stamped(e.createdAt, init)
    ensures Increasing(events') && forall e | e in events' :: Stamped(e.createdAt, init + [a])
  {
    var actions := init + [a];
    assert actions[|init|] == a && forall i | 0 <= i < |init| :: actions[i] == init[i];
    forall e | e in events'
      ensures Stamped(e.createdAt, actions)
    {
      StampsStay(init, a, e.createdAt);
      assert e !in events ==> e == events'[|events|];
    }
    forall k | 0 <= k < |events| && Delivers(a)
      ensures events[k].createdAt < a.op.now
    {
      assert Stamped(events[k].createdAt, init);
    }
  }

  /** With an increasing clock the event log is in the order of its times in every state of a trace. */
  lemma {:induction false} TraceInOrder(w: World, actions: seq<Action>)
    requires Sane(w.env.ct) && ClockForward(actions)
    ensures Increasing(Trace(w, actions).db.events)
    ensures forall e | e in Trace(w, actions).db.events :: Stamped(e.createdAt, actions)
  {
    if actions == [] {
    } else {
      var init, a := actions[..|actions| - 1], actions[|actions| - 1];
      assert forall i | 0 <= i < |init| :: init[i] == actions[i];
      TraceInOrder(w, init);
      TraceAppends(w, init, a);
      assert actions == init + [a];
      hide Trace, Appends, Increasing, Stamped, ClockForward, Sane;
      OrderOneMore(Trace(w, init).db.events, Trace(w, actions).db.events, init, a);
    }
  }

  // ---- pages ----

  /** A dispatch for page num, of the given size, of a cached command's events. */
  predicate AsksPage(s: Sys, a: Action, d: string, command: string, num: int, size: int) {
    && Starts(s, a) && a.deviceId == d && a.command == command && Get(a.payload, "mode") == Some(Str("cache"))
    && ArgumentOr(a.payload, "page_num", 1) == num && ArgumentOr(a.payload, "page_size", 10) == size
  }

  function AnswerOf(w: World, s: Sys, a: Action): Result<Progress, Error>
    requires a.Dispatch?
  {
    Begin(w.env.ct, s.db, a.requestId, a.deviceId, a.command, a.payload, a.userId, a.now).1
  }

  /** What the client reads off an answer under a key of the result. */
  function Field(answer: Result<Progress, Error>, k: string): Option<Value> {
    match answer
    case Ok(Finished(Succeeded(Obj(es)))) => Get(es, k)
    case _ => None
  }

  function ItemsOf(answer: Result<Progress, Error>): seq<Value> {
    match Field(answer, "items")
    case Some(Arr(_, items)) => items
    case _ => []
  }

  lemma ReadPage(items: seq<Value>, total: int, num: int, size: int)
    ensures var es := [Entry(Key(true, "items"), Arr(true, items)), Entry(Key(true, "total"), Int(total)),
                       Entry(Key(true, "page_num"), Int(num)), Entry(Key(true, "page_size"), Int(size))];
            Get(es, "items") == Some(Arr(true, items)) && Get(es, "total") == Some(Int(total))
  {
    var a, b := Entry(Key(true, "items"), Arr(true, items)), Entry(Key(true, "total"), Int(total));
    var c, d := Entry(Key(true, "page_num"), Int(num)), Entry(Key(true, "page_size"), Int(size));
    assert [a, b, c, d][..3] == [a, b, c] && [a, b, c][..2] == [a, b] && [a, b][..1] == [a];
    assert Get([a], "items") == Some(a.value);
    assert Get([a, b], "items") == Get([a], "items") && Get([a, b], "total") == Some(b.value);
    assert Get([a, b, c], "items") == Get([a, b], "items") && Get([a, b, c], "total") == Get([a, b], "total");
  }

  /** The answer to a page request is that page of the matching events, and their number. */
  lemma PageAnswered(w: World, s: Sys, a: Action, d: string, command: string, t: string, num: int, size: int)
    requires AsksPage(s, a, d, command, num, size) && CachedType(command, t)
    ensures var answer := AnswerOf(w, s, a);
            && Field(answer, "total") == Some(Int(|Found(s.db.events, d, t)|))
            && (Increasing(s.db.events) && num >= 1 && size >= 0 ==>
                  Listed(Found(s.db.events, d, t), (num - 1) * size, size, ItemsOf(answer)))
  {
    DispatchOutcome(w.env.ct, s.db, a.requestId, d, command, a.payload, a.userId, a.now);
    hide Begin, Found, Listed, Increasing, CachedType, ArgumentOr;
    var answer := AnswerOf(w, s, a);
    assert PageAnswer(s.db, d, t, num, size, answer.value.outcome.data);
    var data := answer.value.outcome.data;
    hide PageAnswer;
    var items := PageParts(s.db, d, t, num, size, data);
    ReadPage(items, |Found(s.db.events, d, t)|, num, size);
    hide Get;
  }

  lemma PageParts(db: Db, d: string, t: string, num: int, size: int, data: Value) returns (items: seq<Value>)
    requires PageAnswer(db, d, t, num, size, data)
    ensures data == Obj([Entry(Key(true, "items"), Arr(true, items)),
                         Entry(Key(true, "total"), Int(|Found(db.events, d, t)|)),
                         Entry(Key(true, "page_num"), Int(num)), Entry(Key(true, "page_size"), Int(size))])
    ensures Increasing(db.events) && num >= 1 && size >= 0 ==>
              Listed(Found(db.events, d, t), (num - 1) * size, size, items)
  {
    hide Found, Listed, Increasing;
    items :|
      && data == Obj([
           Entry(Key(true, "items"), Arr(true, items)),
           Entry(Key(true, "total"), Int(|Found(db.events, d, t)|)),
           Entry(Key(true, "page_num"), Int(num)),
           Entry(Key(true, "page_size"), Int(size))])
      && (Increasing(db.events) && num >= 1 && size >= 0 ==>
            Listed(Found(db.events, d, t), (num - 1) * size, size, items));
  }

  // ---- fetching page after page ----

  /** Pages 1, 2, ... of one size are asked for at these points of the run. */
  ghost predicate Fetches(w: World, actions: seq<Action>, cuts: seq<nat>, d: string, command: string, n: nat) {
    && cuts != [] && (forall i, j | 0 <= i < j < |cuts| :: cuts[i] < cuts[j])
    && (forall p | 0 <= p < |cuts| :: cuts[p] < |actions|)
    && forall p | 0 <= p < |cuts| ::
         AsksPage(Trace(w, actions[..cuts[p]]), actions[cuts[p]], d, command, p + 1, n)
  }

  function AnswerAt(w: World, actions: seq<Action>, k: nat): Result<Progress, Error>
    requires k < |actions| && actions[k].Dispatch?
  {
    AnswerOf(w, Trace(w, actions[..k]), actions[k])
  }

  function EventsAt(w: World, actions: seq<Action>, k: nat): seq<Event>
    requires k <= |actions|
  {
    Trace(w, actions[..k]).db.events
  }

  lemma ListedIsWindow(found: seq<Event>, off: nat, size: nat, items: seq<Value>)
    requires Listed(found, off, size, items)
    ensures items == Payloads(Window(Reverse(found), off, size))
    ensures |Window(Reverse(found), off, size)| == |items|
  {
  }

  /** The page at position p of a fetch. */
  lemma FetchedPage(
      w: World, actions: seq<Action>, cuts: seq<nat>, d: string, command: string, t: string, n: nat, p: nat)
    requires Sane(w.env.ct) && ClockForward(actions) && CachedType(command, t)
    requires Fetches(w, actions, cuts, d, command, n) && p < |cuts|
    ensures cuts[p] < |actions| && actions[cuts[p]].Dispatch?
    ensures var found := Found(EventsAt(w, actions, cuts[p]), d, t);
            var page := Window(Reverse(found), p * n, n);
            && Increasing(EventsAt(w, actions, cuts[p])) && p * n >= 0
            && ItemsOf(AnswerAt(w, actions, cuts[p])) == Payloads(page)
            && |ItemsOf(AnswerAt(w, actions, cuts[p]))| == |page|
            && Field(AnswerAt(w, actions, cuts[p]), "total") == Some(Int(|found|))
  {
    var k := cuts[p];
    var s, a := Trace(w, actions[..k]), actions[k];
    assert AsksPage(s, a, d, command, p + 1, n);
    assert ClockForward(actions[..k]);
    TraceInOrder(w, actions[..k]);
    PageAnswered(w, s, a, d, command, t, p + 1, n);
    NotNegative(p, n);
    hide Trace, AnswerOf, AsksPage, Found, Listed, Increasing, ClockForward, ItemsOf, Field, Window, Reverse;
    assert (p + 1 - 1) * n == p * n;
    ListedIsWindow(Found(s.db.events, d, t), p * n, n, ItemsOf(AnswerOf(w, s, a)));
  }

  lemma FoundExtends(a: seq<Event>, b: seq<Event>, d: string, t: string)
    requires a <= b
    ensures Found(a, d, t) <= Found(b, d, t)
  {
    MatchingIsFound(a, d, t);
    MatchingIsFound(b, d, t);
    MatchingExtends(a, b, d, t);
  }

  lemma FoundMeans(events: seq<Event>, d: string, t: string, e: Event)
    ensures e in Found(events, d, t) <==> e in events && e.deviceId == d && e.eventType == t
  {
    MatchingIsFound(events, d, t);
    MatchingMembers(events, d, t);
  }

  lemma FoundGrow(w: World, actions: seq<Action>, cuts: seq<nat>, d: string, command: string, t: string, n: nat)
    requires Sane(w.env.ct) && Fetches(w, actions, cuts, d, command, n)
    ensures forall i, j | 0 <= i < j < |cuts| ::
              Found(EventsAt(w, actions, cuts[i]), d, t) <= Found(EventsAt(w, actions, cuts[j]), d, t)
  {
    forall i, j | 0 <= i < j < |cuts|
      ensures Found(EventsAt(w, actions, cuts[i]), d, t) <= Found(EventsAt(w, actions, cuts[j]), d, t)
    {
      EventsStay(w, actions, cuts[i], cuts[j]);
      FoundExtends(EventsAt(w, actions, cuts[i]), EventsAt(w, actions, cuts[j]), d, t);
    }
  }

  /** A client that dispatches pages 1, 2, ... of one size until an answer comes back short, whatever else happens in
      between, has been sent every event of that device and type stored when it started. */
  lemma DispatchedPagesNeverSkip(
      w: World, actions: seq<Action>, cuts: seq<nat>, d: string, command: string, t: string, n: nat, e: Event)
    requires Sane(w.env.ct) && ClockForward(actions) && CachedType(command, t)
    requires Fetches(w, actions, cuts, d, command, n)
    requires var last := cuts[|cuts| - 1];
             last < |actions| && actions[last].Dispatch? && |ItemsOf(AnswerAt(w, actions, last))| < n
    requires e in EventsAt(w, actions, cuts[0]) && e.deviceId == d && e.eventType == t
    ensures exists p :: 0 <= p < |cuts| && actions[cuts[p]].Dispatch?
                        && e.payload in ItemsOf(AnswerAt(w, actions, cuts[p]))
  {
    hide *;
    var ms, pages := PagesFetched(w, actions, cuts, d, command, t, n);
    FetchedPagesFit(w, actions, cuts, d, command, t, n, ms, pages);
    FoundMeans(EventsAt(w, actions, cuts[0]), d, t, e);
    var p := SomePageHas(ms, pages, n, e);
  }

  /** At this fetch m was there to be found and page was sent. */
  ghost predicate Sent(
      w: World, actions: seq<Action>, k: nat, d: string, t: string, n: nat, p: nat, m: seq<Event>, page: seq<Value>)
  {
    && k < |actions| && actions[k].Dispatch?
    && m == Found(EventsAt(w, actions, k), d, t)
    && page == ItemsOf(AnswerAt(w, actions, k))
    && p * n >= 0 && page == Payloads(Window(Reverse(m), p * n, n))
  }

  lemma PageSent(w: World, actions: seq<Action>, cuts: seq<nat>, d: string, command: string, t: string, n: nat, p: nat)
    returns (m: seq<Event>, page: seq<Value>)
    requires Sane(w.env.ct) && ClockForward(actions) && CachedType(command, t)
    requires Fetches(w, actions, cuts, d, command, n) && p < |cuts|
    ensures Sent(w, actions, cuts[p], d, t, n, p, m, page)
  {
    hide Fetches, CachedType, ClockForward, Trace, AnswerAt, EventsAt, Found, ItemsOf, Field, Window, Reverse, Payloads;
    FetchedPage(w, actions, cuts, d, command, t, n, p);
    m, page := Found(EventsAt(w, actions, cuts[p]), d, t), ItemsOf(AnswerAt(w, actions, cuts[p]));
  }

  lemma PagesFetched(
      w: World, actions: seq<Action>, cuts: seq<nat>, d: string, command: string, t: string, n: nat)
    returns (ms: seq<seq<Event>>, pages: seq<seq<Value>>)
    requires Sane(w.env.ct) && ClockForward(actions) && CachedType(command, t)
    requires Fetches(w, actions, cuts, d, command, n)
    ensures |pages| == |ms| == |cuts|
    ensures forall p | 0 <= p < |cuts| :: Sent(w, actions, cuts[p], d, t, n, p, ms[p], pages[p])
  {
    hide *;
    ms, pages := [], [];
    for q := 0 to |cuts|
      invariant |ms| == |pages| == q
      invariant forall p | 0 <= p < q :: Sent(w, actions, cuts[p], d, t, n, p, ms[p], pages[p])
    {
      var m, page := PageSent(w, actions, cuts, d, command, t, n, q);
      ms, pages := ms + [m], pages + [page];
    }
  }

  lemma FetchedPagesFit(
      w: World, actions: seq<Action>, cuts: seq<nat>, d: string, command: string, t: string, n: nat,
      ms: seq<seq<Event>>, pages: seq<seq<Value>>)
    requires Sane(w.env.ct) && Fetches(w, actions, cuts, d, command, n) && |pages| == |ms| == |cuts|
    requires forall p | 0 <= p < |cuts| :: Sent(w, actions, cuts[p], d, t, n, p, ms[p], pages[p])
    ensures |cuts| > 0 && OnlyGrows(ms)
    ensures cuts[0] < |actions| && ms[0] == Found(EventsAt(w, actions, cuts[0]), d, t)
    ensures forall p | 0 <= p < |cuts| ::
              && cuts[p] < |actions| && actions[cuts[p]].Dispatch?
              && pages[p] == ItemsOf(AnswerAt(w, actions, cuts[p]))
              && p * n >= 0 && pages[p] == Payloads(Window(Reverse(ms[p]), p * n, n))
  {
    assert cuts != [];
    FoundGrow(w, actions, cuts, d, command, t, n);
    hide Fetches, Trace, AnswerAt, EventsAt, Found, ItemsOf, Window, Reverse, Payloads;
    assert Sent(w, actions, cuts[0], d, t, n, 0, ms[0], pages[0]);
  }

  lemma SomePageHas(ms: seq<seq<Event>>, pages: seq<seq<Value>>, n: nat, e: Event) returns (p: nat)
    requires |pages| == |ms| > 0 && OnlyGrows(ms) && e in ms[0]
    requires forall p | 0 <= p < |ms| :: p * n >= 0 && pages[p] == Payloads(Window(Reverse(ms[p]), p * n, n))
    requires |pages[|ms| - 1]| < n
    ensures p < |ms| && e.payload in pages[p]
  {
    hide Window, Reverse, OnlyGrows;
    var k :| 0 <= k < |ms[0]| && ms[0][k] == e;
    var last := |ms| - 1;
    assert last * n >= 0 && |Window(Reverse(ms[last]), last * n, n)| == |pages[last]|;
    p := NothingSkipped(ms, n, k);
    InPayloads(Window(Reverse(ms[p]), p * n, n), e);
  }

  lemma InPayloads(page: seq<Event>, e: Event)
    requires e in page
    ensures e.payload in Payloads(page)
  {
    var i :| 0 <= i < |page| && page[i] == e;
    assert Payloads(page)[i] == e.payload;
  }

  /** The answers to the first q page requests, one after the other. */
  ghost function Received(w: World, actions: seq<Action>, cuts: seq<nat>, q: nat): seq<Value>
    requires q <= |cuts| && forall p | 0 <= p < q :: cuts[p] < |actions| && actions[cuts[p]].Dispatch?
  {
    if q == 0 then []
    else Received(w, actions, cuts, q - 1) + ItemsOf(AnswerAt(w, actions, cuts[q - 1]))
  }

  /** No event is stored between the first page request and the last. */
  ghost predicate AtRest(w: World, actions: seq<Action>, cuts: seq<nat>)
    requires forall p | 0 <= p < |cuts| :: cuts[p] < |actions|
  {
    forall p | 0 <= p < |cuts| :: EventsAt(w, actions, cuts[p]) == EventsAt(w, actions, cuts[0])
  }

  lemma {:induction false} ReceivedIsPrefix(
      w: World, actions: seq<Action>, cuts: seq<nat>, d: string, command: string, t: string, n: nat, q: nat)
    requires Sane(w.env.ct) && ClockForward(actions) && CachedType(command, t)
    requires Fetches(w, actions, cuts, d, command, n) && AtRest(w, actions, cuts) && q <= |cuts|
    ensures forall p | 0 <= p < q :: cuts[p] < |actions| && actions[cuts[p]].Dispatch?
    ensures var listed := Reverse(Found(EventsAt(w, actions, cuts[0]), d, t));
            && q * n >= 0
            && Received(w, actions, cuts, q) == Payloads(listed[..Min(q * n, |listed|)])
  {
    hide Trace, AnswerAt, EventsAt, Found, ItemsOf, Field, Window, Reverse, ClockForward, CachedType, Fetches;
    if q == 0 {
    } else {
      ReceivedIsPrefix(w, actions, cuts, d, command, t, n, q - 1);
      FetchedPage(w, actions, cuts, d, command, t, n, q - 1);
      assert EventsAt(w, actions, cuts[q - 1]) == EventsAt(w, actions, cuts[0]);
      hide Min, AtRest, AsksPage;
      OnePageMore(Reverse(Found(EventsAt(w, actions, cuts[0]), d, t)), q, n);
    }
  }

  lemma OnePageMore(listed: seq<Event>, q: nat, n: nat)
    requires q >= 1 && (q - 1) * n >= 0
    ensures q * n >= 0
    ensures Payloads(listed[..Min((q - 1) * n, |listed|)]) + Payloads(Window(listed, (q - 1) * n, n)) ==
            Payloads(listed[..Min(q * n, |listed|)])
  {
    assert q * n == (q - 1) * n + n;
    WindowExtends(listed, (q - 1) * n, n);
  }

  /** While no event is stored in between, such a client has been sent exactly the matching events, newest first, each
      once, and every answer gave their number as the total. */
  lemma DispatchedPagesAtRest(
      w: World, actions: seq<Action>, cuts: seq<nat>, d: string, command: string, t: string, n: nat)
    requires Sane(w.env.ct) && ClockForward(actions) && CachedType(command, t)
    requires Fetches(w, actions, cuts, d, command, n) && AtRest(w, actions, cuts)
    requires var last := cuts[|cuts| - 1];
             last < |actions| && actions[last].Dispatch? && |ItemsOf(AnswerAt(w, actions, last))| < n
    ensures forall p | 0 <= p < |cuts| :: cuts[p] < |actions| && actions[cuts[p]].Dispatch?
    ensures var found := Found(EventsAt(w, actions, cuts[0]), d, t);
            && Received(w, actions, cuts, |cuts|) == Payloads(Reverse(found))
            && forall p | 0 <= p < |cuts| :: Field(AnswerAt(w, actions, cuts[p]), "total") == Some(Int(|found|))
  {
    hide Trace, AnswerAt, EventsAt, Found, ItemsOf, Field, Window, Reverse, ClockForward, CachedType, Received;
    var q, found := |cuts|, Found(EventsAt(w, actions, cuts[0]), d, t);
    ReceivedIsPrefix(w, actions, cuts, d, command, t, n, q);
    hide Fetches;
    forall p | 0 <= p < |cuts|
      ensures Field(AnswerAt(w, actions, cuts[p]), "total") == Some(Int(|found|))
    {
      FetchedPage(w, actions, cuts, d, command, t, n, p);
    }
    FetchedPage(w, actions, cuts, d, command, t, n, q - 1);
    ShortPrefixIsAll(Reverse(found), q, n);
  }

  lemma ShortPrefixIsAll(listed: seq<Event>, q: nat, n: nat)
    requires q >= 1 && (q - 1) * n >= 0 && |Window(listed, (q - 1) * n, n)| < n
    ensures q * n >= 0 && listed[..Min(q * n, |listed|)] == listed
  {
    assert q * n == (q - 1) * n + n;
    WindowExtends(listed, (q - 1) * n, n);
  }
}
