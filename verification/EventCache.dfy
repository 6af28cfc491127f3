/** `CommandService._query_cache`: newest-first offset pagination over the event log, read while ingests go on. */
module EventCache {
  import opened Prelude
  import opened Models
  import opened RateLimiter
  import opened Webhooks
  import opened GatewayRuns
  import opened Ledger

  // ---- the query ----

  function Matching(events: seq<Event>, d: string, t: string): seq<Event> {
    if events == [] then []
    else
      var e := events[|events| - 1];
      Matching(events[..|events| - 1], d, t) + if e.deviceId == d && e.eventType == t then [e] else []
  }

  function InsertNewest(e: Event, s: seq<Event>): seq<Event> {
    if s == [] || e.createdAt > s[0].createdAt then [e] + s
    else [s[0]] + InsertNewest(e, s[1..])
  }

  /** `ORDER BY created_at DESC`. */
  function NewestFirst(s: seq<Event>): seq<Event> {
    if s == [] then [] else InsertNewest(s[|s| - 1], NewestFirst(s[..|s| - 1]))
  }

  /** `OFFSET off LIMIT n` as SQLite reads them: a negative offset is none, a negative limit no limit. */
  function Window<T>(s: seq<T>, off: int, n: int): seq<T> {
    var lo := Min(Max(off, 0), |s|);
    s[lo..if n < 0 then |s| else Min(lo + n, |s|)]
  }

  datatype Page = Page(items: seq<Event>, total: nat)

  function CachePage(db: Db, d: string, t: string, pageNum: int, pageSize: int): Page {
    var found := Matching(db.events, d, t);
    Page(Window(NewestFirst(found), (pageNum - 1) * pageSize, pageSize), |found|)
  }

  // ---- order ----

  predicate Increasing(s: seq<Event>) {
    forall i, j | 0 <= i < j < |s| :: s[i].createdAt < s[j].createdAt
  }

  function Reverse<T>(s: seq<T>): (r: seq<T>)
    ensures |r| == |s| && forall i | 0 <= i < |s| :: r[i] == s[|s| - 1 - i]
  {
    seq(|s|, i requires 0 <= i < |s| => s[|s| - 1 - i])
  }

  /** With distinct timestamps in arrival order, newest first is the log backwards. */
  lemma {:induction false} NewestFirstReverses(s: seq<Event>)
    requires Increasing(s)
    ensures NewestFirst(s) == Reverse(s)
  {
    if s == [] {
    } else {
      var init, e := s[..|s| - 1], s[|s| - 1];
      NewestFirstReverses(init);
      assert init != [] ==> Reverse(init)[0] == s[|s| - 2];
      assert Reverse(s) == [e] + Reverse(init);
    }
  }

  /** The matching events of a log are a subsequence of it, so growth of the log only appends to them. */
  lemma {:induction false} MatchingExtends(a: seq<Event>, b: seq<Event>, d: string, t: string)
    requires a <= b
    ensures Matching(a, d, t) <= Matching(b, d, t)
  {
    if a == b {
    } else {
      assert a <= b[..|b| - 1];
      MatchingExtends(a, b[..|b| - 1], d, t);
    }
  }

  lemma {:induction false} MatchingMembers(s: seq<Event>, d: string, t: string)
    ensures forall e :: e in Matching(s, d, t) <==> e in s && e.deviceId == d && e.eventType == t
  {
    if s == [] {
    } else {
      var init, e := s[..|s| - 1], s[|s| - 1];
      MatchingMembers(init, d, t);
      assert s == init + [e];
    }
  }

  lemma {:induction false} MatchingIncreasing(s: seq<Event>, d: string, t: string)
    requires Increasing(s)
    ensures Increasing(Matching(s, d, t))
  {
    if s == [] {
    } else {
      var init, e := s[..|s| - 1], s[|s| - 1];
      MatchingIncreasing(init, d, t);
      MatchingMembers(init, d, t);
      var found := Matching(init, d, t);
      forall i | 0 <= i < |found|
        ensures found[i].createdAt < e.createdAt
      {
        assert found[i] in init;
      }
    }
  }

  // ---- windows ----

  lemma WindowExtends<T>(s: seq<T>, off: nat, n: nat)
    ensures s[..Min(off, |s|)] + Window(s, off, n) == s[..Min(off + n, |s|)]
    ensures |Window(s, off, n)| < n <==> n > 0 && |s| < off + n
  {
  }

  lemma InWindow<T>(s: seq<T>, off: nat, n: nat, i: nat)
    requires off <= i < off + n && i < |s|
    ensures s[i] in Window(s, off, n)
  {
    assert Window(s, off, n)[i - off] == s[i];
  }

  // ---- pages of a log at rest ----

  /** Pages 1 to q, one after the other. */
  function Fetched(db: Db, d: string, t: string, n: nat, q: nat): seq<Event> {
    if q == 0 then [] else Fetched(db, d, t, n, q - 1) + CachePage(db, d, t, q, n).items
  }

  lemma {:induction false} FetchedIsAPrefix(db: Db, d: string, t: string, n: nat, q: nat)
    ensures var found := NewestFirst(Matching(db.events, d, t));
            && q * n >= 0
            && Fetched(db, d, t, n, q) == found[..Min(q * n, |found|)]
  {
    hide NewestFirst, Matching;
    if q == 0 {
    } else {
      FetchedIsAPrefix(db, d, t, n, q - 1);
      assert q * n == (q - 1) * n + n;
      WindowExtends(NewestFirst(Matching(db.events, d, t)), (q - 1) * n, n);
      hide Window;
    }
  }

  /** Fetching pages 1, 2, ... of a log nobody appends to until one comes back short yields exactly the matching
      events, newest first, each once; and every page reports their number as the total. */
  lemma PagesAtRest(db: Db, d: string, t: string, n: nat, q: nat)
    requires q >= 1 && Increasing(db.events)
    requires |CachePage(db, d, t, q, n).items| < n
    ensures var found := Matching(db.events, d, t);
            && Fetched(db, d, t, n, q) == Reverse(found)
            && (forall i, j | 0 <= i < j < |found| :: Reverse(found)[i] != Reverse(found)[j])
            && (forall p :: CachePage(db, d, t, p, n).total == |found|)
  {
    var found := Matching(db.events, d, t);
    var listed := NewestFirst(found);
    MatchingIncreasing(db.events, d, t);
    NewestFirstReverses(found);
    FetchedIsAPrefix(db, d, t, n, q);
    ShortPageIsLast(db, d, t, n, q);
    hide NewestFirst, Matching, Fetched, CachePage, Window;
    assert Fetched(db, d, t, n, q) == listed[..|listed|] == listed;
    forall i, j | 0 <= i < j < |found|
      ensures Reverse(found)[i] != Reverse(found)[j]
    {
      assert found[|found| - 1 - j].createdAt < found[|found| - 1 - i].createdAt;
    }
    forall p
      ensures CachePage(db, d, t, p, n).total == |found|
    {
      TotalIsCount(db, d, t, p, n);
    }
  }

  lemma TotalIsCount(db: Db, d: string, t: string, pageNum: int, pageSize: int)
    ensures CachePage(db, d, t, pageNum, pageSize).total == |Matching(db.events, d, t)|
  {
  }

  lemma ShortPageIsLast(db: Db, d: string, t: string, n: nat, q: nat)
    requires q >= 1 && |CachePage(db, d, t, q, n).items| < n
    ensures q * n >= |NewestFirst(Matching(db.events, d, t))|
  {
    var listed := NewestFirst(Matching(db.events, d, t));
    hide NewestFirst, Matching;
    assert q * n == (q - 1) * n + n && (q - 1) * n >= 0;
    WindowExtends(listed, (q - 1) * n, n);
  }

  // ---- pages of a log that grows between fetches ----

  predicate OnlyGrows(ms: seq<seq<Event>>) {
    forall i, j | 0 <= i < j < |ms| :: ms[i] <= ms[j]
  }

  /** The backwards index of the k-th oldest match at fetch p, if no earlier page contained it. */
  lemma {:induction false} NotPassed(ms: seq<seq<Event>>, n: nat, k: nat, p: nat)
    requires p < |ms| && OnlyGrows(ms) && k < |ms[0]|
    requires forall j | 0 <= j < p :: !(j * n <= |ms[j]| - 1 - k < j * n + n)
    ensures |ms[p]| - 1 - k >= p * n
  {
    if p > 0 {
      NotPassed(ms, n, k, p - 1);
      assert p * n == (p - 1) * n + n;
      assert ms[p - 1] <= ms[p];
    } else {
      assert p * n == 0;
    }
  }

  lemma FoundAt(ms: seq<seq<Event>>, n: nat, k: nat, p: nat)
    requires p < |ms| && OnlyGrows(ms) && k < |ms[0]|
    requires p * n <= |ms[p]| - 1 - k < p * n + n
    ensures ms[0][k] in Window(Reverse(ms[p]), p * n, n)
  {
    assert p * n >= 0;
    assert p > 0 ==> ms[0] <= ms[p];
    var i := |ms[p]| - 1 - k;
    assert Reverse(ms[p])[i] == ms[p][k] == ms[0][k];
    InWindow(Reverse(ms[p]), p * n, n, i);
  }

  /** One page size, pages in order, a log that only grows: when a page comes back short, everything that was in
      the log at the first fetch has been on some page. */
  lemma NothingSkipped(ms: seq<seq<Event>>, n: nat, k: nat) returns (p: nat)
    requires |ms| > 0 && k < |ms[0]| && OnlyGrows(ms)
    requires |Window(Reverse(ms[|ms| - 1]), (|ms| - 1) * n, n)| < n
    ensures p < |ms| && ms[0][k] in Window(Reverse(ms[p]), p * n, n)
  {
    p := 0;
    while p < |ms| - 1 && !(p * n <= |ms[p]| - 1 - k < p * n + n)
      invariant p <= |ms| - 1
      invariant forall j | 0 <= j < p :: !(j * n <= |ms[j]| - 1 - k < j * n + n)
    {
      p := p + 1;
    }
    NotPassed(ms, n, k, p);
    assert p * n >= 0;
    WindowExtends(Reverse(ms[p]), p * n, n);
    hide Window;
    FoundAt(ms, n, k, p);
  }

  // ---- fetches inside a gateway run ----

  /** The clock readings that stamp events strictly increase. */
  predicate ClockIncreasing(ops: seq<GatewayOp>) {
    forall i, j | 0 <= i < j < |ops| && ops[i].Deliver? && ops[j].Deliver? :: ops[i].now < ops[j].now
  }

  /** One request appends at most the event it delivers, stamped by its clock reading. */
  lemma StepAppends(w: World, db: Db, op: GatewayOp)
    requires Schema(db)
    ensures var db' := Step(w, db, op);
            || db'.events == db.events
            || (op.Deliver? && |db'.events| == |db.events| + 1 && db'.events[..|db.events|] == db.events
                && db'.events[|db.events|].createdAt == op.now
                && ValidType(db'.events[|db.events|].eventType))
  {
    hide ValidType, Schema;
    match op
    case TunnelOp(op') => TunnelEffect(w, db, op');
    case Create(_, _) => WebhookOpEffect(w, db, op);
    case Rotate(_, _) => WebhookOpEffect(w, db, op);
    case Deliver(_, _, _, _, _) => DeliverEffect(w, db, op);
  }

  lemma {:induction false} EventsAppended(w: World, ops: seq<GatewayOp>, a: nat, b: nat)
    requires a <= b <= |ops|
    ensures Run(w, ops[..a]).events <= Run(w, ops[..b]).events
    decreases b - a
  {
    hide Step;
    if a < b {
      EventsAppended(w, ops, a, b - 1);
      assert ops[..b] == ops[..b - 1] + [ops[b - 1]];
      OneMore(w, ops[..b - 1], ops[b - 1]);
      BooksAlwaysBalance(w, ops[..b - 1]);
      StepAppends(w, Run(w, ops[..b - 1]), ops[b - 1]);
      hide Books, Run;
    }
  }

  predicate StampedIn(at: Time, ops: seq<GatewayOp>) {
    exists i | 0 <= i < |ops| :: ops[i].Deliver? && ops[i].now == at
  }

  lemma StampsGrow(at: Time, ops: seq<GatewayOp>, op: GatewayOp)
    ensures StampedIn(at, ops) ==> StampedIn(at, ops + [op])
    ensures op.Deliver? ==> StampedIn(op.now, ops + [op])
  {
    var ops' := ops + [op];
    assert ops'[|ops|] == op;
    if i :| 0 <= i < |ops| && ops[i].Deliver? && ops[i].now == at {
      assert ops'[i] == ops[i];
    }
  }

  lemma {:induction false} EventsAreStamped(w: World, ops: seq<GatewayOp>)
    ensures forall e | e in Run(w, ops).events :: StampedIn(e.createdAt, ops)
  {
    hide Step, StampedIn;
    if ops == [] {
    } else {
      var init, op := ops[..|ops| - 1], ops[|ops| - 1];
      EventsAreStamped(w, init);
      SchemaAlways(w, init);
      StepAppends(w, Run(w, init), op);
      var events, events' := Run(w, init).events, Run(w, ops).events;
      hide Run;
      assert ops == init + [op];
      forall e | e in events'
        ensures StampedIn(e.createdAt, ops)
      {
        StampsGrow(e.createdAt, init, op);
        assert e !in events ==> e == events'[|events|];
      }
    }
  }

  /** With an increasing clock the log is strictly ordered by time. */
  lemma {:induction false} EventsInOrder(w: World, ops: seq<GatewayOp>)
    requires ClockIncreasing(ops)
    ensures Increasing(Run(w, ops).events)
  {
    hide Step;
    if ops == [] {
    } else {
      var init, op := ops[..|ops| - 1], ops[|ops| - 1];
      assert forall i | 0 <= i < |init| :: init[i] == ops[i];
      EventsInOrder(w, init);
      EventsAreStamped(w, init);
      SchemaAlways(w, init);
      StepAppends(w, Run(w, init), op);
      var events := Run(w, init).events;
      hide Run;
      forall k | 0 <= k < |events| && op.Deliver?
        ensures events[k].createdAt < op.now
      {
        assert StampedIn(events[k].createdAt, init);
      }
    }
  }

  lemma PageIsWindow(db: Db, d: string, t: string, p: nat, n: nat)
    requires Increasing(db.events)
    ensures CachePage(db, d, t, p + 1, n).items == Window(Reverse(Matching(db.events, d, t)), p * n, n)
  {
    MatchingIncreasing(db.events, d, t);
    NewestFirstReverses(Matching(db.events, d, t));
    hide NewestFirst, Matching, Window;
  }

  /** Pages 1, 2, ... of one size are fetched at ever later points of a run, any requests in between, until one
      comes back short: every event of that device and type stored at the first fetch is on some fetched page. */
  lemma PaginationNeverSkips(w: World, ops: seq<GatewayOp>, cuts: seq<nat>, d: string, t: string, n: nat)
    requires ClockIncreasing(ops) && cuts != []
    requires forall i, j | 0 <= i < j < |cuts| :: cuts[i] <= cuts[j]
    requires forall i | 0 <= i < |cuts| :: cuts[i] <= |ops|
    requires |CachePage(Run(w, ops[..cuts[|cuts| - 1]]), d, t, |cuts|, n).items| < n
    ensures forall e | e in Matching(Run(w, ops[..cuts[0]]).events, d, t) ::
              exists p :: 0 <= p < |cuts| && e in CachePage(Run(w, ops[..cuts[p]]), d, t, p + 1, n).items
  {
    hide Run, CachePage, Window, NewestFirst;
    var ms := seq(|cuts|, p requires 0 <= p < |cuts| => Matching(Run(w, ops[..cuts[p]]).events, d, t));
    forall p: nat | p < |cuts|
      ensures CachePage(Run(w, ops[..cuts[p]]), d, t, p + 1, n).items == Window(Reverse(ms[p]), p * n, n)
    {
      assert ClockIncreasing(ops[..cuts[p]]);
      EventsInOrder(w, ops[..cuts[p]]);
      PageIsWindow(Run(w, ops[..cuts[p]]), d, t, p, n);
    }
    forall i, j | 0 <= i < j < |ms|
      ensures ms[i] <= ms[j]
    {
      EventsAppended(w, ops, cuts[i], cuts[j]);
      MatchingExtends(Run(w, ops[..cuts[i]]).events, Run(w, ops[..cuts[j]]).events, d, t);
    }
    hide Matching;
    var last := |cuts| - 1;
    assert CachePage(Run(w, ops[..cuts[last]]), d, t, last + 1, n).items == Window(Reverse(ms[last]), last * n, n);
    forall e | e in ms[0]
      ensures exists p :: 0 <= p < |cuts| && e in CachePage(Run(w, ops[..cuts[p]]), d, t, p + 1, n).items
    {
      var k :| 0 <= k < |ms[0]| && ms[0][k] == e;
      var p := NothingSkipped(ms, n, k);
      assert e in CachePage(Run(w, ops[..cuts[p]]), d, t, p + 1, n).items;
    }
  }

  lemma {:induction false} StoredTypesAreValid(w: World, ops: seq<GatewayOp>)
    ensures forall e | e in Run(w, ops).events :: ValidType(e.eventType)
  {
    hide Step, ValidType, Books;
    if ops == [] {
    } else {
      var init, op := ops[..|ops| - 1], ops[|ops| - 1];
      StoredTypesAreValid(w, init);
      SchemaAlways(w, init);
      StepAppends(w, Run(w, init), op);
    }
  }

  lemma SchemaAlways(w: World, ops: seq<GatewayOp>)
    ensures Schema(Run(w, ops))
  {
    BooksAlwaysBalance(w, ops);
  }

  lemma NotAnEventType(t: string)
    requires t == "contact" || t == "location"
    ensures !ValidType(t)
  {
  }

  /** Ingest never stores these two types, so contact and location queries find an empty cache in every run. */
  lemma ContactAndLocationCachesAreEmpty(w: World, ops: seq<GatewayOp>, d: string, t: string, p: int, n: int)
    requires t == "contact" || t == "location"
    ensures CachePage(Run(w, ops), d, t, p, n) == Page([], 0)
  {
    hide ValidType;
    var found := Matching(Run(w, ops).events, d, t);
    assert found != [] ==> found[0] in found;
    StoredTypesAreValid(w, ops);
    MatchingMembers(Run(w, ops).events, d, t);
    NotAnEventType(t);
    hide Run, Matching;
  }
}
