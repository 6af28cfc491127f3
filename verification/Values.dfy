/** Python values as the gateway handles them: JSON bodies, log summaries and anything nested in them. */
module Values {
  import opened Prelude

  /** A mapping key. Only its text survives scrubbing; keys that are not strings are stringified. */
  datatype Key = Key(isStr: bool, text: string)

  datatype Entry = Entry(key: Key, value: Value)

  /** `Opaque` stands for every other Python object (floats, dates, ...). A mapping lists its entries in
      insertion order; `Arr(false, ...)` is a tuple. */
  datatype Value =
    | Null
    | Bool(b: bool)
    | Int(n: int)
    | Str(s: string)
    | Bytes(bytes: seq<bv8>)
    | Arr(isList: bool, items: seq<Value>)
    | Obj(entries: seq<Entry>)
    | Opaque(tag: int)

  predicate DistinctKeys(es: seq<Entry>) {
    forall i, j | 0 <= i < j < |es| :: es[i].key != es[j].key
  }

  predicate HasKey(es: seq<Entry>, k: Key) {
    exists i | 0 <= i < |es| :: es[i].key == k
  }

  /** `d[k] = v` on an insertion-ordered dict: overwrite in place, otherwise append. */
  function Put(es: seq<Entry>, k: Key, v: Value): (r: seq<Entry>)
    ensures DistinctKeys(es) ==> DistinctKeys(r)
    ensures forall x :: HasKey(r, x) <==> HasKey(es, x) || x == k
    ensures forall e | e in r :: e in es || e == Entry(k, v)
  {
    if HasKey(es, k) then
      var r := seq(|es|, i requires 0 <= i < |es| => if es[i].key == k then Entry(k, v) else es[i]);
      assert forall i | 0 <= i < |es| :: r[i].key == es[i].key;
      r
    else
      var r := es + [Entry(k, v)];
      assert forall i | 0 <= i < |es| :: r[i] == es[i];
      assert r[|es|].key == k;
      r
  }

  /** `d.get(k)` for a string key. */
  function Get(es: seq<Entry>, k: string): (r: Option<Value>)
    ensures r.Some? <==> HasKey(es, Key(true, k))
    ensures r.Some? ==> Entry(Key(true, k), r.value) in es
  {
    if es == [] then None
    else if es[|es| - 1].key == Key(true, k) then
      assert HasKey(es, Key(true, k));
      Some(es[|es| - 1].value)
    else
      var r := Get(es[..|es| - 1], k);
      assert HasKey(es, Key(true, k)) ==> HasKey(es[..|es| - 1], Key(true, k)) by {
        if HasKey(es, Key(true, k)) {
          var i :| 0 <= i < |es| && es[i].key == Key(true, k);
          assert es[..|es| - 1][i].key == Key(true, k);
        }
      }
      r
  }

  /** Python truthiness, which decides every `a or b` in the gateway. */
  predicate Truthy(v: Value) {
    match v
    case Null => false
    case Bool(b) => b
    case Int(n) => n != 0
    case Str(s) => s != ""
    case Bytes(bs) => bs != []
    case Arr(_, items) => items != []
    case Obj(es) => es != []
    case Opaque(_) => true
  }
}
