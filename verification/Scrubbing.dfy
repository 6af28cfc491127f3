/** app/utils/masking.py, `scrub`: what may be written to command logs and audit logs. */
module Scrubbing {
  import opened Prelude
  import opened Values
  import opened Masking

  function ScrubItem(ct: CharTables, e: Entry): Value
    decreases e, 0
  {
    if Sensitive(ct, e.key.text) then Str("***")
    else if ContentKey(ct, e.key.text) && e.value.Str? then
      Obj([Entry(Key(true, "content_length"), Int(|e.value.s|))])
    else Scrub(ct, e.value)
  }

  /** The dict built by the first |es| iterations over a mapping's items. */
  function ScrubEntries(ct: CharTables, es: seq<Entry>): seq<Entry>
    decreases es, 0
  {
    if es == [] then []
    else
      var e := es[|es| - 1];
      Put(ScrubEntries(ct, es[..|es| - 1]), Key(true, e.key.text), ScrubItem(ct, e))
  }

  function Scrub(ct: CharTables, v: Value): Value
    decreases v, 0
  {
    match v
    case Str(s) => Str(MaskPhone(ct, s))
    case Obj(es) => Obj(ScrubEntries(ct, es))
    case Arr(_, items) =>
      Arr(true, seq(|items|, i requires 0 <= i < |items| => Scrub(ct, items[i])))
    case _ => v
  }

  /** The source's own form: a local dict filled in a loop, a new list for a sequence. */
  method ScrubValue(ct: CharTables, v: Value) returns (r: Value)
    ensures r == Scrub(ct, v)
    decreases v, 0
  {
    match v
    case Str(s) =>
      r := Str(MaskPhone(ct, s));
    case Obj(es) =>
      var cleaned := ScrubMapping(ct, es);
      r := Obj(cleaned);
    case Arr(_, items) =>
      var cleaned := ScrubSequence(ct, items);
      r := Arr(true, cleaned);
    case _ =>
      r := v;
  }

  method ScrubMapping(ct: CharTables, es: seq<Entry>) returns (cleaned: seq<Entry>)
    ensures cleaned == ScrubEntries(ct, es)
    decreases es, 0
  {
    cleaned := [];
    for i := 0 to |es|
      invariant cleaned == ScrubEntries(ct, es[..i])
    {
      var cell := ScrubCell(ct, es[i]);
      cleaned := Put(cleaned, Key(true, es[i].key.text), cell);
      assert es[..i + 1][..i] == es[..i];
    }
    assert es[..|es|] == es;
  }

  method ScrubCell(ct: CharTables, e: Entry) returns (cell: Value)
    ensures cell == ScrubItem(ct, e)
    decreases e, 0
  {
    if Sensitive(ct, e.key.text) {
      cell := Str("***");
    } else if ContentKey(ct, e.key.text) && e.value.Str? {
      cell := Obj([Entry(Key(true, "content_length"), Int(|e.value.s|))]);
    } else {
      cell := ScrubValue(ct, e.value);
    }
  }

  method ScrubSequence(ct: CharTables, items: seq<Value>) returns (cleaned: seq<Value>)
    ensures |cleaned| == |items|
    ensures forall i | 0 <= i < |items| :: cleaned[i] == Scrub(ct, items[i])
    decreases items, 0
  {
    cleaned := [];
    for i := 0 to |items|
      invariant |cleaned| == i
      invariant forall j | 0 <= j < i :: cleaned[j] == Scrub(ct, items[j])
    {
      var cell := ScrubValue(ct, items[i]);
      cleaned := cleaned + [cell];
    }
  }

  // ---- normal form ----

  /** Nothing left to scrub: no phone number in any string value at any depth, every sensitive key holds
      the placeholder, no content key holds a string, keys are distinct strings. */
  ghost predicate Normal(ct: CharTables, v: Value) {
    match v
    case Str(s) => NoPhone(ct, s)
    case Obj(es) => DistinctKeys(es) && forall i | 0 <= i < |es| :: NormalEntry(ct, es[i])
    case Arr(isList, items) => isList && forall i | 0 <= i < |items| :: Normal(ct, items[i])
    case _ => true
  }

  ghost predicate NormalEntry(ct: CharTables, e: Entry) {
    && e.key.isStr
    && (Sensitive(ct, e.key.text) ==> e.value == Str("***"))
    && (ContentKey(ct, e.key.text) && !Sensitive(ct, e.key.text) ==> !e.value.Str?)
    && Normal(ct, e.value)
  }

  lemma PlaceholdersNormal(ct: CharTables, n: int)
    requires Sane(ct)
    ensures Normal(ct, Str("***"))
    ensures Normal(ct, Obj([Entry(Key(true, "content_length"), Int(n))]))
  {
    var t := "content_length";
    assert t[|t| - 7..] == "_length";
  }

  // ---- one pass reaches the normal form ----

  lemma {:induction false} ScrubIsNormal(ct: CharTables, v: Value)
    requires Sane(ct)
    ensures Normal(ct, Scrub(ct, v))
    decreases v, 0
  {
    match v
    case Str(s) => MaskPhoneLeavesNoPhone(ct, s);
    case Obj(es) => ScrubEntriesAreNormal(ct, es);
    case Arr(_, items) =>
      forall i | 0 <= i < |items|
        ensures Normal(ct, Scrub(ct, items[i]))
      {
        ScrubIsNormal(ct, items[i]);
      }
    case _ =>
  }

  lemma {:induction false} ScrubEntriesAreNormal(ct: CharTables, es: seq<Entry>)
    requires Sane(ct)
    ensures Normal(ct, Obj(ScrubEntries(ct, es)))
    decreases es, 0
  {
    if es == [] {
    } else {
      var e := es[|es| - 1];
      ScrubEntriesAreNormal(ct, es[..|es| - 1]);
      ScrubItemIsNormal(ct, e);
      var done, cell := ScrubEntries(ct, es[..|es| - 1]), Entry(Key(true, e.key.text), ScrubItem(ct, e));
      assert NormalEntry(ct, cell);
      assert forall x | x in Put(done, cell.key, cell.value) :: x in done || x == cell;
      assert forall x | x in done :: NormalEntry(ct, x);
    }
  }

  lemma {:induction false} ScrubItemIsNormal(ct: CharTables, e: Entry)
    requires Sane(ct)
    ensures NormalEntry(ct, Entry(Key(true, e.key.text), ScrubItem(ct, e)))
    decreases e, 0
  {
    ScrubIsNormal(ct, e.value);
    PlaceholdersNormal(ct, if e.value.Str? then |e.value.s| else 0);
  }

  lemma {:induction false} ScrubFixesNormal(ct: CharTables, v: Value)
    requires Normal(ct, v)
    ensures Scrub(ct, v) == v
    decreases v, 0
  {
    match v
    case Str(s) => MaskPhoneFixpoint(ct, s);
    case Obj(es) =>
      forall i | 0 <= i < |es|
        ensures ScrubItem(ct, es[i]) == es[i].value
      {
        ScrubItemFixesNormal(ct, es[i]);
      }
      CleanEntriesKept(ct, es);
    case Arr(_, items) =>
      forall i | 0 <= i < |items|
        ensures Scrub(ct, items[i]) == items[i]
      {
        ScrubFixesNormal(ct, items[i]);
      }
    case _ =>
  }

  lemma FreshEntryAppended(ct: CharTables, es: seq<Entry>, e: Entry)
    requires ScrubEntries(ct, es) == es && ScrubItem(ct, e) == e.value
    requires e.key.isStr && forall i | 0 <= i < |es| :: es[i].key != e.key
    ensures ScrubEntries(ct, es + [e]) == es + [e]
  {
    assert (es + [e])[..|es|] == es;
  }

  lemma {:induction false} CleanEntriesKept(ct: CharTables, es: seq<Entry>)
    requires DistinctKeys(es)
    requires forall i | 0 <= i < |es| :: es[i].key.isStr && ScrubItem(ct, es[i]) == es[i].value
    ensures ScrubEntries(ct, es) == es
  {
    if es == [] {
    } else {
      var init, e := es[..|es| - 1], es[|es| - 1];
      CleanEntriesKept(ct, init);
      FreshEntryAppended(ct, init, e);
      assert es == init + [e];
    }
  }

  lemma {:induction false} ScrubItemFixesNormal(ct: CharTables, e: Entry)
    requires NormalEntry(ct, e)
    ensures ScrubItem(ct, e) == e.value
    decreases e, 0
  {
    ScrubFixesNormal(ct, e.value);
  }

  /** Scrubbing is idempotent, and its image is exactly the normal values. */
  lemma ScrubReachesNormalForm(ct: CharTables, v: Value)
    requires Sane(ct)
    ensures Normal(ct, Scrub(ct, v))
    ensures Scrub(ct, Scrub(ct, v)) == Scrub(ct, v)
    ensures Normal(ct, v) <==> Scrub(ct, v) == v
  {
    ScrubIsNormal(ct, v);
    ScrubFixesNormal(ct, Scrub(ct, v));
    if Normal(ct, v) {
      ScrubFixesNormal(ct, v);
    }
  }

  // ---- what each key is left with ----

  lemma PutStores(es: seq<Entry>, k: Key, v: Value)
    ensures Entry(k, v) in Put(es, k, v)
    ensures forall e | e in es && e.key != k :: e in Put(es, k, v)
  {
    var r := Put(es, k, v);
    if HasKey(es, k) {
      var i :| 0 <= i < |es| && es[i].key == k;
      assert r[i] == Entry(k, v);
      forall e | e in es && e.key != k
        ensures e in r
      {
        var j :| 0 <= j < |es| && es[j] == e;
        assert r[j] == e;
      }
    } else {
      assert r == es + [Entry(k, v)];
    }
  }

  /** The value written for an entry: a placeholder, the length of the text, or the scrubbed value. */
  function Cell(ct: CharTables, e: Entry): Value {
    var key := ct.lower(e.key.text);
    if key in {"token", "webhook_token", "sign", "secret", "password", "authorization"}
       || EndsWith(key, "_secret") then Str("***")
    else if key in {"content", "sms_content", "message", "body"} && e.value.Str? then
      Obj([Entry(Key(true, "content_length"), Int(|e.value.s|))])
    else Scrub(ct, e.value)
  }

  lemma ItemIsCell(ct: CharTables, e: Entry)
    ensures ScrubItem(ct, e) == Cell(ct, e)
  {
    hide Scrub;
  }

  predicate HasText(es: seq<Entry>, t: string) {
    exists i | 0 <= i < |es| :: es[i].key.text == t
  }

  /** No later entry has the same text: its value is the one a dict keeps. */
  predicate LastOfText(es: seq<Entry>, i: nat)
    requires i < |es|
  {
    forall j | i < j < |es| :: es[j].key.text != es[i].key.text
  }

  lemma TextOneMore(init: seq<Entry>, e: Entry, t: string)
    ensures HasText(init + [e], t) <==> t == e.key.text || HasText(init, t)
  {
    var es := init + [e];
    assert es[|init|] == e && forall i | 0 <= i < |init| :: es[i] == init[i];
  }

  lemma {:induction false} ScrubbedKeys(ct: CharTables, es: seq<Entry>, k: Key)
    ensures DistinctKeys(ScrubEntries(ct, es))
    ensures HasKey(ScrubEntries(ct, es), k) <==> k.isStr && HasText(es, k.text)
  {
    hide ScrubItem, HasText;
    if es == [] {
      assert !HasText([], k.text) by {
        NoText(k.text);
      }
    } else {
      var init, e := es[..|es| - 1], es[|es| - 1];
      ScrubbedKeys(ct, init, k);
      TextOneMore(init, e, k.text);
      assert es == init + [e];
    }
  }

  lemma NoText(t: string)
    ensures !HasText([], t)
  {
  }

  lemma {:induction false} ScrubbedCell(ct: CharTables, es: seq<Entry>, i: nat)
    requires i < |es| && LastOfText(es, i)
    ensures Entry(Key(true, es[i].key.text), Cell(ct, es[i])) in ScrubEntries(ct, es)
  {
    var init, e := es[..|es| - 1], es[|es| - 1];
    var done, key := ScrubEntries(ct, init), Key(true, e.key.text);
    ItemIsCell(ct, e);
    PutStores(done, key, Cell(ct, e));
    assert ScrubEntries(ct, es) == Put(done, key, Cell(ct, e));
    if i == |init| {
    } else {
      hide Cell, ScrubItem, Put, ScrubEntries;
      assert e.key.text != es[i].key.text;
      ScrubbedCell(ct, init, i);
    }
  }

  /** A scrubbed mapping has the texts of the keys, each once, with the cell of the last entry of that text. */
  lemma ScrubbedMapping(ct: CharTables, es: seq<Entry>)
    ensures var r := ScrubEntries(ct, es);
            && DistinctKeys(r)
            && (forall k :: HasKey(r, k) <==> k.isStr && HasText(es, k.text))
            && forall i: nat | i < |es| && LastOfText(es, i) ::
                 Entry(Key(true, es[i].key.text), Cell(ct, es[i])) in r
  {
    hide *;
    forall k
      ensures DistinctKeys(ScrubEntries(ct, es))
      ensures HasKey(ScrubEntries(ct, es), k) <==> k.isStr && HasText(es, k.text)
    {
      ScrubbedKeys(ct, es, k);
    }
    ScrubbedKeys(ct, es, Key(true, ""));
    forall i: nat | i < |es| && LastOfText(es, i)
      ensures Entry(Key(true, es[i].key.text), Cell(ct, es[i])) in ScrubEntries(ct, es)
    {
      ScrubbedCell(ct, es, i);
    }
  }

  // ---- two runs ----

  /** Same shape and keys; the contents may differ under sensitive keys, in strings of one length under
      content keys, and in the hidden digits of phone numbers. */
  ghost predicate SamePublic(ct: CharTables, v: Value, w: Value) {
    match (v, w)
    case (Str(s), Str(t)) => SamePublicText(ct, s, t)
    case (Obj(es), Obj(fs)) =>
      |es| == |fs| && forall i | 0 <= i < |es| :: SamePublicEntry(ct, es[i], fs[i])
    case (Arr(_, vs), Arr(_, ws)) =>
      |vs| == |ws| && forall i | 0 <= i < |vs| :: SamePublic(ct, vs[i], ws[i])
    case _ => v == w
  }

  ghost predicate SamePublicEntry(ct: CharTables, e: Entry, f: Entry) {
    && e.key.text == f.key.text
    && (|| Sensitive(ct, e.key.text)
        || (ContentKey(ct, e.key.text) && e.value.Str? && f.value.Str? && |e.value.s| == |f.value.s|)
        || SamePublic(ct, e.value, f.value))
  }

  /** Logs depend on the public part only: two values that agree on it scrub to the same summary. */
  lemma {:induction false} ScrubHidesSecrets(ct: CharTables, v: Value, w: Value)
    requires Sane(ct) && SamePublic(ct, v, w)
    ensures Scrub(ct, v) == Scrub(ct, w)
    decreases v, 0
  {
    match (v, w)
    case (Str(s), Str(t)) => MaskPhoneRevealsExactlyPublicText(ct, s, t);
    case (Obj(es), Obj(fs)) => ScrubEntriesHideSecrets(ct, es, fs);
    case (Arr(_, vs), Arr(_, ws)) =>
      forall i | 0 <= i < |vs|
        ensures Scrub(ct, vs[i]) == Scrub(ct, ws[i])
      {
        ScrubHidesSecrets(ct, vs[i], ws[i]);
      }
    case _ =>
  }

  lemma {:induction false} ScrubEntriesHideSecrets(ct: CharTables, es: seq<Entry>, fs: seq<Entry>)
    requires Sane(ct) && |es| == |fs|
    requires forall i | 0 <= i < |es| :: SamePublicEntry(ct, es[i], fs[i])
    ensures ScrubEntries(ct, es) == ScrubEntries(ct, fs)
    decreases es, 0
  {
    if es == [] {
    } else {
      ScrubEntriesHideSecrets(ct, es[..|es| - 1], fs[..|fs| - 1]);
      ScrubItemHidesSecrets(ct, es[|es| - 1], fs[|fs| - 1]);
    }
  }

  lemma {:induction false} ScrubItemHidesSecrets(ct: CharTables, e: Entry, f: Entry)
    requires Sane(ct) && SamePublicEntry(ct, e, f)
    ensures ScrubItem(ct, e) == ScrubItem(ct, f)
    decreases e, 0
  {
    if SamePublic(ct, e.value, f.value) {
      ScrubHidesSecrets(ct, e.value, f.value);
      assert e.value.Str? ==> |e.value.s| == |f.value.s|;
    }
  }
}
