/** app/utils/deduplication.py: the fallback event id, a digest of device, type and canonical JSON. */
module Deduplication {
  import opened Prelude
  import opened Values
  import opened JsonText

  // ---- string order (Python compares code points) ----

  predicate Less(a: string, b: string) {
    if b == "" then false
    else if a == "" then true
    else a[0] < b[0] || (a[0] == b[0] && Less(a[1..], b[1..]))
  }

  lemma {:induction false} LessTotal(a: string, b: string)
    ensures Less(a, b) || a == b || Less(b, a)
    ensures !(Less(a, b) && Less(b, a)) && !Less(a, a)
  {
    if a != "" && b != "" {
      LessTotal(a[1..], b[1..]);
      LessTotal(a[1..], a[1..]);
      assert a == [a[0]] + a[1..] && b == [b[0]] + b[1..];
    } else if a != "" {
      LessTotal(a[1..], a[1..]);
    }
  }

  lemma {:induction false} LessTransitive(a: string, b: string, c: string)
    requires Less(a, b) && Less(b, c)
    ensures Less(a, c)
  {
    if a != "" && a[0] == b[0] == c[0] {
      LessTransitive(a[1..], b[1..], c[1..]);
    }
  }

  // ---- sort_keys=True ----

  predicate KeySorted(es: seq<Entry>) {
    forall i, j | 0 <= i < j < |es| :: Less(es[i].key.text, es[j].key.text)
  }

  function Insert(e: Entry, es: seq<Entry>): (r: seq<Entry>)
    ensures forall x :: x in r <==> x == e || x in es
    ensures |r| == |es| + 1
  {
    if es == [] then [e]
    else if Less(e.key.text, es[0].key.text) then [e] + es
    else
      var r := [es[0]] + Insert(e, es[1..]);
      assert es == [es[0]] + es[1..];
      r
  }

  function SortByKey(es: seq<Entry>): (r: seq<Entry>)
    ensures forall x :: x in r <==> x in es
    ensures |r| == |es|
  {
    if es == [] then []
    else
      assert es == [es[0]] + es[1..];
      Insert(es[0], SortByKey(es[1..]))
  }

  lemma {:induction false} InsertSorted(e: Entry, es: seq<Entry>)
    requires KeySorted(es) && forall x | x in es :: x.key.text != e.key.text
    ensures KeySorted(Insert(e, es))
  {
    if es == [] {
    } else {
      LessTotal(e.key.text, es[0].key.text);
      assert es[0] in es;
      if Less(e.key.text, es[0].key.text) {
        forall j | 0 < j < |es|
          ensures Less(e.key.text, es[j].key.text)
        {
          LessTransitive(e.key.text, es[0].key.text, es[j].key.text);
        }
      } else {
        var tail := es[1..];
        InsertSorted(e, tail);
        forall x | x in Insert(e, tail)
          ensures Less(es[0].key.text, x.key.text)
        {
          if x != e {
            var j :| 0 <= j < |tail| && tail[j] == x;
            assert x == es[j + 1];
          }
        }
      }
    }
  }

  predicate StringKeys(es: seq<Entry>) {
    DistinctKeys(es) && forall i | 0 <= i < |es| :: es[i].key.isStr
  }

  lemma {:induction false} SortByKeySorts(es: seq<Entry>)
    requires StringKeys(es)
    ensures KeySorted(SortByKey(es))
  {
    if es == [] {
    } else {
      SortByKeySorts(es[1..]);
      forall x | x in SortByKey(es[1..])
        ensures x.key.text != es[0].key.text
      {
        var j :| 0 <= j < |es| - 1 && es[1..][j] == x;
        assert x == es[j + 1];
        assert es[0].key != es[j + 1].key;
      }
      InsertSorted(es[0], SortByKey(es[1..]));
    }
  }

  lemma KeySortedDistinct(es: seq<Entry>)
    requires KeySorted(es)
    ensures DistinctKeys(es)
  {
    forall i, j | 0 <= i < j < |es|
      ensures es[i].key != es[j].key
    {
      LessTotal(es[i].key.text, es[j].key.text);
    }
  }

  /** A set of entries has one sorted listing. */
  lemma {:induction false} OneSortedListing(a: seq<Entry>, b: seq<Entry>)
    requires KeySorted(a) && KeySorted(b)
    requires forall x :: x in a <==> x in b
    ensures a == b
  {
    assert a != [] ==> a[0] in b;
    assert b != [] ==> b[0] in a;
    if a == [] {
    } else {
      HeadIsLeast(a, b[0]);
      HeadIsLeast(b, a[0]);
      LessTotal(a[0].key.text, b[0].key.text);
      TailMembers(a);
      TailMembers(b);
      OneSortedListing(a[1..], b[1..]);
      assert a == [a[0]] + a[1..] && b == [b[0]] + b[1..];
    }
  }

  lemma HeadIsLeast(a: seq<Entry>, x: Entry)
    requires KeySorted(a) && x in a
    ensures x == a[0] || Less(a[0].key.text, x.key.text)
  {
  }

  lemma TailMembers(a: seq<Entry>)
    requires KeySorted(a) && a != []
    ensures KeySorted(a[1..])
    ensures forall x :: x in a[1..] <==> x in a && x != a[0]
  {
    assert a == [a[0]] + a[1..];
    forall j | 0 < j < |a|
      ensures a[j] != a[0]
    {
      LessTotal(a[0].key.text, a[j].key.text);
    }
  }

  /** Keys sorted at every depth. */
  function Canon(v: Value): (r: Value)
    requires IsJson(v)
    decreases v, 1
  {
    match v
    case Arr(_, items) =>
      Arr(true, seq(|items|, i requires 0 <= i < |items| => Canon(items[i])))
    case Obj(es) => Obj(SortByKey(CanonEntries(es)))
    case _ => v
  }

  function CanonEntry(e: Entry): Entry
    requires IsJson(e.value)
    decreases e, 0
  {
    Entry(e.key, Canon(e.value))
  }

  function CanonEntries(es: seq<Entry>): (r: seq<Entry>)
    requires forall i | 0 <= i < |es| :: IsJson(es[i].value)
    ensures |r| == |es| && forall i | 0 <= i < |es| :: r[i] == CanonEntry(es[i])
    decreases es, 0
  {
    seq(|es|, i requires 0 <= i < |es| => CanonEntry(es[i]))
  }

  /** `json.dumps(payload, sort_keys=True, ensure_ascii=False)`. */
  function Dumps(v: Value): string
    requires IsJson(v)
  {
    CanonIsJson(v);
    Print(Canon(v))
  }

  lemma {:induction false} CanonIsJson(v: Value)
    requires IsJson(v)
    ensures IsJson(Canon(v))
    decreases v
  {
    match v
    case Arr(_, items) =>
      forall i | 0 <= i < |items|
        ensures IsJson(Canon(items[i]))
      {
        CanonIsJson(items[i]);
      }
    case Obj(es) =>
      var ces := CanonEntries(es);
      forall i | 0 <= i < |es|
        ensures IsJson(ces[i].value)
      {
        CanonIsJson(es[i].value);
      }
      assert StringKeys(ces);
      SortByKeySorts(ces);
      KeySortedDistinct(SortByKey(ces));
      forall i | 0 <= i < |ces|
        ensures SortByKey(ces)[i].key.isStr && IsJson(SortByKey(ces)[i].value)
      {
        assert SortByKey(ces)[i] in ces;
      }
    case _ =>
  }

  // ---- what a JSON text means ----

  /** JSON values as Python compares them: a dict is a map, so key order does not exist. */
  datatype Meaning =
    | MNull
    | MBool(b: bool)
    | MInt(n: int)
    | MStr(s: string)
    | MArr(items: seq<Meaning>)
    | MObj(members: map<string, Meaning>)

  ghost function MeaningOf(v: Value): Meaning
    requires IsJson(v)
    decreases v, 0
  {
    match v
    case Null => MNull
    case Bool(b) => MBool(b)
    case Int(n) => MInt(n)
    case Str(s) => MStr(s)
    case Arr(_, items) => MArr(seq(|items|, i requires 0 <= i < |items| => MeaningOf(items[i])))
    case Obj(es) => MObj(MembersOf(es))
  }

  ghost function MembersOf(es: seq<Entry>): map<string, Meaning>
    requires forall i | 0 <= i < |es| :: IsJson(es[i].value)
    decreases es, 1
  {
    if es == [] then map[]
    else MembersOf(es[..|es| - 1])[es[|es| - 1].key.text := MeaningOfEntry(es[|es| - 1])]
  }

  ghost function MeaningOfEntry(e: Entry): Meaning
    requires IsJson(e.value)
    decreases e, 0
  {
    MeaningOf(e.value)
  }

  /** Distinct string keys over JSON values: the entries of a JSON dict. */
  ghost predicate JsonEntries(es: seq<Entry>) {
    StringKeys(es) && forall i | 0 <= i < |es| :: IsJson(es[i].value)
  }

  /** The map of a dict holds exactly its entries. */
  lemma {:induction false} MembersOfDict(es: seq<Entry>)
    requires JsonEntries(es)
    ensures forall i | 0 <= i < |es| ::
              && es[i].key.text in MembersOf(es)
              && MembersOf(es)[es[i].key.text] == MeaningOfEntry(es[i])
    ensures forall k | k in MembersOf(es) :: exists i :: 0 <= i < |es| && es[i].key == Key(true, k)
  {
    hide MeaningOfEntry, IsJson;
    if es == [] {
    } else {
      var init, e := es[..|es| - 1], es[|es| - 1];
      assert forall i | 0 <= i < |init| :: init[i] == es[i] && es[i].key.text != e.key.text;
      MembersOfDict(init);
      assert MembersOf(es) == MembersOf(init)[e.key.text := MeaningOfEntry(e)];
      hide MembersOf;
      KeysListed(init, e, MembersOf(init).Keys);
      assert es == init + [e];
    }
  }

  /** Adding an entry lists its key as well. */
  lemma KeysListed(init: seq<Entry>, e: Entry, keys: set<string>)
    requires e.key.isStr
    requires forall k | k in keys :: exists i :: 0 <= i < |init| && init[i].key == Key(true, k)
    ensures var es := init + [e];
            forall k | k in keys + {e.key.text} :: exists i :: 0 <= i < |es| && es[i].key == Key(true, k)
  {
    var es := init + [e];
    forall k | k in keys + {e.key.text}
      ensures exists i :: 0 <= i < |es| && es[i].key == Key(true, k)
    {
      if k == e.key.text {
        assert es[|init|].key == Key(true, k);
      } else {
        var i :| 0 <= i < |init| && init[i].key == Key(true, k);
        assert es[i].key == Key(true, k);
      }
    }
  }

  /** Sorting the keys at every depth changes nothing a reader of the JSON can see. */
  lemma {:induction false} CanonKeepsMeaning(v: Value)
    requires IsJson(v) && IsJson(Canon(v))
    ensures MeaningOf(Canon(v)) == MeaningOf(v)
    decreases v, 0
  {
    match v
    case Arr(_, items) =>
      forall i | 0 <= i < |items|
        ensures IsJson(Canon(items[i])) && MeaningOf(Canon(items[i])) == MeaningOf(items[i])
      {
        CanonIsJson(items[i]);
        CanonKeepsMeaning(items[i]);
      }
    case Obj(es) =>
      var ces := CanonEntries(es);
      forall i | 0 <= i < |es|
        ensures IsJson(ces[i].value) && MeaningOfEntry(ces[i]) == MeaningOfEntry(es[i])
      {
        CanonEntryKeepsMeaning(es[i]);
      }
      SameMembers(es, ces, SortByKey(ces));
    case _ =>
  }

  lemma {:induction false} CanonEntryKeepsMeaning(e: Entry)
    requires IsJson(e.value)
    ensures IsJson(CanonEntry(e).value) && MeaningOfEntry(CanonEntry(e)) == MeaningOfEntry(e)
    decreases e, 0
  {
    CanonIsJson(e.value);
    CanonKeepsMeaning(e.value);
  }

  lemma SameMembers(es: seq<Entry>, ces: seq<Entry>, sorted: seq<Entry>)
    requires JsonEntries(es) && JsonEntries(sorted) && |ces| == |es|
    requires forall x :: x in ces <==> x in sorted
    requires forall i | 0 <= i < |es| ::
               ces[i].key == es[i].key && IsJson(ces[i].value) && MeaningOfEntry(ces[i]) == MeaningOfEntry(es[i])
    ensures MembersOf(es) == MembersOf(sorted)
  {
    hide MembersOf, MeaningOfEntry, IsJson;
    var m, n := MembersOf(es), MembersOf(sorted);
    MembersOfDict(es);
    MembersOfDict(sorted);
    forall i | 0 <= i < |es|
      ensures es[i].key.text in n && n[es[i].key.text] == MeaningOfEntry(es[i])
    {
      assert ces[i] in sorted;
      var j :| 0 <= j < |sorted| && sorted[j] == ces[i];
    }
    forall k | k in n
      ensures k in m
    {
      var j :| 0 <= j < |sorted| && sorted[j].key == Key(true, k);
      assert sorted[j] in ces;
    }
    assert m == n;
  }

  /** Values with one meaning have one canonical form. */
  lemma {:induction false} MeaningFixesCanon(v: Value, w: Value)
    requires IsJson(v) && IsJson(w) && MeaningOf(v) == MeaningOf(w)
    ensures Canon(v) == Canon(w)
    decreases v, 0
  {
    match v
    case Arr(_, vs) =>
      forall i | 0 <= i < |vs|
        ensures Canon(vs[i]) == Canon(w.items[i])
      {
        assert MeaningOf(vs[i]) == MeaningOf(v).items[i];
        assert MeaningOf(w.items[i]) == MeaningOf(w).items[i];
        MeaningFixesCanon(vs[i], w.items[i]);
      }
    case Obj(es) =>
      var fs := w.entries;
      MembersOfDict(es);
      MembersOfDict(fs);
      forall i, j | 0 <= i < |es| && 0 <= j < |fs| && es[i].key == fs[j].key
        ensures CanonEntry(es[i]) == CanonEntry(fs[j])
      {
        MeaningFixesCanonEntry(es[i], fs[j]);
      }
      SameListing(es, fs);
    case _ =>
  }

  lemma {:induction false} MeaningFixesCanonEntry(e: Entry, f: Entry)
    requires IsJson(e.value) && IsJson(f.value) && e.key == f.key && MeaningOfEntry(e) == MeaningOfEntry(f)
    ensures CanonEntry(e) == CanonEntry(f)
    decreases e, 0
  {
    MeaningFixesCanon(e.value, f.value);
  }

  lemma SameListing(es: seq<Entry>, fs: seq<Entry>)
    requires JsonEntries(es) && JsonEntries(fs) && MembersOf(es) == MembersOf(fs)
    requires forall i, j | 0 <= i < |es| && 0 <= j < |fs| && es[i].key == fs[j].key ::
               CanonEntry(es[i]) == CanonEntry(fs[j])
    ensures SortByKey(CanonEntries(es)) == SortByKey(CanonEntries(fs))
  {
    hide MembersOf, MeaningOfEntry, IsJson, SortByKey;
    var a, b := CanonEntries(es), CanonEntries(fs);
    MembersOfDict(es);
    MembersOfDict(fs);
    forall i | 0 <= i < |es|
      ensures a[i] in b
    {
      var j :| 0 <= j < |fs| && fs[j].key == Key(true, es[i].key.text);
      assert a[i] == b[j];
    }
    forall j | 0 <= j < |fs|
      ensures b[j] in a
    {
      var i :| 0 <= i < |es| && es[i].key == Key(true, fs[j].key.text);
      assert a[i] == b[j];
    }
    assert StringKeys(a) && StringKeys(b);
    SortByKeySorts(a);
    SortByKeySorts(b);
    OneSortedListing(SortByKey(a), SortByKey(b));
  }

  /** The dumped text identifies the JSON value, key order ignored at every depth. */
  lemma DumpsIdentifiesMeaning(v: Value, w: Value)
    requires IsJson(v) && IsJson(w)
    ensures Dumps(v) == Dumps(w) <==> MeaningOf(v) == MeaningOf(w)
  {
    CanonIsJson(v);
    CanonIsJson(w);
    PrintInjective(Canon(v), Canon(w));
    if Dumps(v) == Dumps(w) {
      CanonKeepsMeaning(v);
      CanonKeepsMeaning(w);
    }
    if MeaningOf(v) == MeaningOf(w) {
      MeaningFixesCanon(v, w);
    }
  }

  // ---- stable_event_id ----

  ghost predicate Injective(h: string -> string) {
    forall a, b :: h(a) == h(b) ==> a == b
  }

  function StableEventId(sha256: string -> string, deviceId: string, eventType: string, payload: Value): string
    requires IsJson(payload)
  {
    sha256(deviceId + "|" + eventType + "|" + Dumps(payload))
  }

  lemma {:induction false} SplitAtBar(a: string, x: string, b: string, y: string)
    requires '|' !in a && '|' !in b
    ensures a + "|" + x == b + "|" + y <==> a == b && x == y
    decreases |a|
  {
    var s, t := a + "|" + x, b + "|" + y;
    if a == "" || b == "" {
      assert a != "" ==> s[0] == a[0] && a[0] in a;
      assert b != "" ==> t[0] == b[0] && b[0] in b;
      assert a == "" ==> s[1..] == x;
      assert b == "" ==> t[1..] == y;
    } else {
      SplitAtBar(a[1..], x, b[1..], y);
      assert s == [a[0]] + (a[1..] + "|" + x) && t == [b[0]] + (b[1..] + "|" + y);
      assert s == t ==> s[0] == t[0] && s[1..] == t[1..];
      assert a == [a[0]] + a[1..] && b == [b[0]] + b[1..];
    }
  }

  /** Two payloads get one fallback id exactly when device, event type and JSON value agree. */
  lemma StableEventIdIdentifiesContent(
      sha256: string -> string, d: string, t: string, v: Value, d': string, t': string, v': Value)
    requires Injective(sha256) && IsJson(v) && IsJson(v')
    requires '|' !in d && '|' !in d' && '|' !in t && '|' !in t'
    ensures StableEventId(sha256, d, t, v) == StableEventId(sha256, d', t', v') <==>
            d == d' && t == t' && MeaningOf(v) == MeaningOf(v')
  {
    var x, y := Dumps(v), Dumps(v');
    assert d + "|" + t + "|" + x == d + "|" + (t + "|" + x);
    assert d' + "|" + t' + "|" + y == d' + "|" + (t' + "|" + y);
    SplitAtBar(d, t + "|" + x, d', t' + "|" + y);
    SplitAtBar(t, x, t', y);
    DumpsIdentifiesMeaning(v, v');
  }
}
