/** `WebhookService.ingest` on its own, limiter aside: in whatever order the same payloads are ingested, on whatever
    tables, the counters and the stored ids end the same. */
module IngestOrder {
  import opened Prelude
  import opened Values
  import opened Models
  import opened Webhooks

  /** One call of `ingest`, for the webhook at this position. */
  datatype Arrival = Arrival(webhook: nat, members: JsonObject, ip: Option<string>, now: Time)

  function IngestOne(env: Env, db: Db, a: Arrival): Db {
    if a.webhook < |db.webhooks| then Ingest(env, db, a.webhook, a.members, a.ip, a.now).0 else db
  }

  function IngestAll(env: Env, db: Db, arrivals: seq<Arrival>): Db {
    if arrivals == [] then db
    else IngestOne(env, IngestAll(env, db, arrivals[..|arrivals| - 1]), arrivals[|arrivals| - 1])
  }

  // ---- what one call counts as ----

  /** The (device, event id) pair a call is about, if it gets as far as counting it. */
  function KeyOf(env: Env, db: Db, a: Arrival): Option<(string, string)> {
    if a.webhook >= |db.webhooks| then None
    else
      var d := db.webhooks[a.webhook].deviceId;
      var eventId :- EventId(env, d, a.members);
      if d in db.devices then Some((d, eventId)) else None
  }

  /** All that later calls and the counters can see of the tables: who owns which webhook, what is stored, and
      the counters themselves. */
  ghost predicate SameCounters(a: Db, b: Db) {
    && a.devices.Keys == b.devices.Keys
    && (forall d | d in a.devices :: a.devices[d].webhookCount == b.devices[d].webhookCount)
    && |a.webhooks| == |b.webhooks|
    && (forall i | 0 <= i < |a.webhooks| ::
          && a.webhooks[i].deviceId == b.webhooks[i].deviceId
          && a.webhooks[i].calledCount == b.webhooks[i].calledCount)
    && (forall key :: HasEvent(a.events, key) <==> HasEvent(b.events, key))
  }

  /** What a counted call does to them. */
  ghost predicate Counted(db: Db, db': Db, i: nat, key: (string, string)) {
    && db'.devices.Keys == db.devices.Keys
    && (forall d | d in db.devices ::
          db'.devices[d].webhookCount ==
            db.devices[d].webhookCount + if d == key.0 && !HasEvent(db.events, key) then 1 else 0)
    && |db'.webhooks| == |db.webhooks|
    && (forall j | 0 <= j < |db.webhooks| ::
          && db'.webhooks[j].deviceId == db.webhooks[j].deviceId
          && db'.webhooks[j].calledCount == db.webhooks[j].calledCount + if j == i then 1 else 0)
    && (forall k :: HasEvent(db'.events, k) <==> HasEvent(db.events, k) || k == key)
  }

  lemma EventStored(events: seq<Event>, e: Event)
    ensures forall k :: HasEvent(events + [e], k) <==> HasEvent(events, k) || k == EventKey(e)
  {
    var events' := events + [e];
    assert forall i | 0 <= i < |events| :: events'[i] == events[i];
    assert events'[|events|] == e;
  }

  lemma IngestCounts(env: Env, db: Db, a: Arrival)
    ensures var key := KeyOf(env, db, a);
            if key.Some? then Counted(db, IngestOne(env, db, a), a.webhook, key.value)
            else IngestOne(env, db, a) == db
  {
    hide EventId, EventType, HasEvent;
    var key := KeyOf(env, db, a);
    if key.Some? {
      var event := Event(key.value.1, key.value.0, EventType(env.ct, a.members), Obj(a.members), a.ip, a.now);
      EventStored(db.events, event);
    }
  }

  lemma SameKey(env: Env, a: Db, b: Db, x: Arrival)
    requires SameCounters(a, b)
    ensures KeyOf(env, a, x) == KeyOf(env, b, x)
  {
    hide EventId, HasEvent;
  }

  lemma CountedKeepsKeys(env: Env, db: Db, x: Arrival, y: Arrival)
    ensures KeyOf(env, IngestOne(env, db, x), y) == KeyOf(env, db, y)
  {
    IngestCounts(env, db, x);
    hide EventId, HasEvent, IngestOne;
  }

  // ---- order ----

  lemma SameTransitive(a: Db, b: Db, c: Db)
    requires SameCounters(a, b) && SameCounters(b, c)
    ensures SameCounters(a, c)
  {
    hide HasEvent;
  }

  lemma OneRespects(env: Env, a: Db, b: Db, x: Arrival)
    requires SameCounters(a, b)
    ensures SameCounters(IngestOne(env, a, x), IngestOne(env, b, x))
  {
    SameKey(env, a, b, x);
    IngestCounts(env, a, x);
    IngestCounts(env, b, x);
    var key := KeyOf(env, a, x);
    hide IngestOne, KeyOf, HasEvent, SameCounters, Counted;
    if key.Some? {
      BothCounted(a, IngestOne(env, a, x), b, IngestOne(env, b, x), x.webhook, key.value);
    }
  }

  lemma BothCounted(a: Db, a': Db, b: Db, b': Db, i: nat, key: (string, string))
    requires SameCounters(a, b) && Counted(a, a', i, key) && Counted(b, b', i, key)
    ensures SameCounters(a', b')
  {
    hide HasEvent;
  }

  lemma {:induction false} AllRespect(env: Env, a: Db, b: Db, arrivals: seq<Arrival>)
    requires SameCounters(a, b)
    ensures SameCounters(IngestAll(env, a, arrivals), IngestAll(env, b, arrivals))
  {
    hide SameCounters, IngestOne;
    if arrivals == [] {
    } else {
      var init, x := arrivals[..|arrivals| - 1], arrivals[|arrivals| - 1];
      AllRespect(env, a, b, init);
      OneRespects(env, IngestAll(env, a, init), IngestAll(env, b, init), x);
    }
  }

  lemma Swap(env: Env, db: Db, x: Arrival, y: Arrival)
    ensures SameCounters(IngestOne(env, IngestOne(env, db, x), y), IngestOne(env, IngestOne(env, db, y), x))
  {
    CountedKeepsKeys(env, db, x, y);
    CountedKeepsKeys(env, db, y, x);
    IngestCounts(env, db, x);
    IngestCounts(env, db, y);
    IngestCounts(env, IngestOne(env, db, x), y);
    IngestCounts(env, IngestOne(env, db, y), x);
    hide IngestOne, KeyOf, HasEvent;
  }

  lemma OneMoreArrival(env: Env, db: Db, arrivals: seq<Arrival>, x: Arrival)
    ensures IngestAll(env, db, arrivals + [x]) == IngestOne(env, IngestAll(env, db, arrivals), x)
    ensures IngestAll(env, db, [x]) == IngestOne(env, db, x)
  {
    hide IngestOne;
    assert (arrivals + [x])[..|arrivals|] == arrivals;
    assert [x][..0] == [];
  }

  lemma {:induction false} IngestConcat(env: Env, db: Db, before: seq<Arrival>, after: seq<Arrival>)
    ensures IngestAll(env, db, before + after) == IngestAll(env, IngestAll(env, db, before), after)
  {
    hide IngestOne;
    if after == [] {
      assert before + after == before;
    } else {
      var init, x := after[..|after| - 1], after[|after| - 1];
      assert before + after == before + init + [x];
      IngestConcat(env, db, before, init);
      OneMoreArrival(env, db, before + init, x);
    }
  }

  lemma {:induction false} MoveToEnd(env: Env, db: Db, x: Arrival, after: seq<Arrival>)
    ensures SameCounters(IngestAll(env, db, [x] + after), IngestAll(env, db, after + [x]))
  {
    hide *;
    if after == [] {
      assert [x] + after == after + [x] == [x];
      SameReflexive(IngestAll(env, db, [x]));
    } else {
      var init, y := after[..|after| - 1], after[|after| - 1];
      var a, b, c := IngestAll(env, db, [x] + init), IngestAll(env, db, init + [x]), IngestAll(env, db, init);
      MoveToEnd(env, db, x, init);
      assert [x] + after == [x] + init + [y] && after == init + [y];
      OneMoreArrival(env, db, [x] + init, y);
      OneMoreArrival(env, db, init, x);
      OneMoreArrival(env, db, init, y);
      OneMoreArrival(env, db, after, x);
      OneRespects(env, a, b, y);
      Swap(env, c, x, y);
      SameTransitive(IngestOne(env, a, y), IngestOne(env, b, y), IngestAll(env, db, after + [x]));
    }
  }

  lemma SameReflexive(a: Db)
    ensures SameCounters(a, a)
  {
  }

  /** Any two orders of the same calls, from any tables, end with the same counters, the same stored ids and the
      same answer to what every later call counts as. */
  lemma {:induction false} IngestInAnyOrder(env: Env, db: Db, s: seq<Arrival>, t: seq<Arrival>)
    requires multiset(s) == multiset(t)
    ensures SameCounters(IngestAll(env, db, s), IngestAll(env, db, t))
    decreases |s|
  {
    hide *;
    if s == [] {
      assert |multiset(t)| == 0;
      SameReflexive(IngestAll(env, db, []));
    } else {
      var init, x := s[..|s| - 1], s[|s| - 1];
      var i := FindLast(s, t);
      var before, after := t[..i], t[i + 1..];
      assert t == before + ([x] + after) && s == init + [x];
      assert (before + after) + [x] == before + (after + [x]);
      var u, v := IngestAll(env, db, before + after), IngestAll(env, db, before);
      IngestInAnyOrder(env, db, init, before + after);
      OneRespects(env, IngestAll(env, db, init), u, x);
      OneMoreArrival(env, db, init, x);
      OneMoreArrival(env, db, before + after, x);
      IngestConcat(env, db, before, after + [x]);
      IngestConcat(env, db, before, [x] + after);
      MoveToEnd(env, v, x, after);
      SameSymmetric(IngestAll(env, v, [x] + after), IngestAll(env, v, after + [x]));
      SameTransitive(IngestAll(env, db, s), IngestAll(env, v, after + [x]), IngestAll(env, db, t));
    }
  }

  lemma SameSymmetric(a: Db, b: Db)
    requires SameCounters(a, b)
    ensures SameCounters(b, a)
  {
    hide HasEvent;
  }
}
