/** Small shared vocabulary: optional values, outcomes, and counting over histories. */
module Prelude {

  datatype Option<+T> = None | Some(value: T) {
    predicate IsFailure() {
      None?
    }

    function PropagateFailure<U>(): Option<U>
      requires None?
    {
      None
    }

    function Extract(): T
      requires Some?
    {
      value
    }

    function GetOr(default: T): T {
      if Some? then value else default
    }
  }

  datatype Result<+T, +E> = Ok(value: T) | Err(error: E)

  function Max(a: int, b: int): int {
    if a < b then b else a
  }

  function Min(a: int, b: int): int {
    if a < b then a else b
  }

  /** How many elements of a history satisfy a predicate. */
  function Count<T>(s: seq<T>, p: T -> bool): nat {
    if s == [] then 0
    else Count(s[..|s| - 1], p) + (if p(s[|s| - 1]) then 1 else 0)
  }

  lemma CountAppend<T>(s: seq<T>, x: T, p: T -> bool)
    ensures Count(s + [x], p) == Count(s, p) + (if p(x) then 1 else 0)
  {
    assert (s + [x])[..|s|] == s;
  }

  lemma {:induction false} CountConcat<T>(s: seq<T>, t: seq<T>, p: T -> bool)
    ensures Count(s + t, p) == Count(s, p) + Count(t, p)
  {
    if t == [] {
      assert s + t == s;
    } else {
      CountConcat(s, t[..|t| - 1], p);
      assert (s + t)[..|s + t| - 1] == s + t[..|t| - 1];
    }
  }

  /** If p is covered by q and r, so are the counts. */
  lemma {:induction false} CountCover<T>(s: seq<T>, p: T -> bool, q: T -> bool, r: T -> bool)
    requires forall x | x in s :: p(x) ==> q(x) || r(x)
    ensures Count(s, p) <= Count(s, q) + Count(s, r)
  {
    if s == [] {
    } else {
      CountCover(s[..|s| - 1], p, q, r);
    }
  }

  lemma {:induction false} CountMono<T>(s: seq<T>, p: T -> bool, q: T -> bool)
    requires forall x | x in s :: p(x) ==> q(x)
    ensures Count(s, p) <= Count(s, q)
  {
    if s == [] {
    } else {
      CountMono(s[..|s| - 1], p, q);
    }
  }

  lemma {:induction false} CountAll<T>(s: seq<T>, p: T -> bool)
    requires forall x | x in s :: p(x)
    ensures Count(s, p) == |s|
  {
    if s == [] {
    } else {
      CountAll(s[..|s| - 1], p);
    }
  }

  lemma {:induction false} CountNone<T>(s: seq<T>, p: T -> bool)
    requires forall x | x in s :: !p(x)
    ensures Count(s, p) == 0
  {
    if s == [] {
    } else {
      CountNone(s[..|s| - 1], p);
    }
  }

  lemma {:induction false} CountDisjoint<T>(s: seq<T>, p: T -> bool, q: T -> bool)
    requires forall x | x in s :: !(p(x) && q(x))
    ensures Count(s, p) + Count(s, q) <= |s|
  {
    if s == [] {
    } else {
      CountDisjoint(s[..|s| - 1], p, q);
    }
  }

  lemma {:induction false} CountSplit<T>(s: seq<T>, p: T -> bool, q: T -> bool, r: T -> bool)
    requires forall x | x in s :: (p(x) <==> q(x) || r(x)) && !(q(x) && r(x))
    ensures Count(s, p) == Count(s, q) + Count(s, r)
  {
    if s == [] {
    } else {
      CountSplit(s[..|s| - 1], p, q, r);
    }
  }

  /** What a history gained since a prefix, counted by p, if every gain counts for q as well. */
  lemma CountGained<T>(h1: seq<T>, h: seq<T>, p: T -> bool, q: T -> bool)
    requires h1 <= h
    requires forall k | |h1| <= k < |h| :: p(h[k]) ==> q(h[k])
    ensures Count(h, p) - Count(h1, p) <= Count(h, q)
  {
    var ext := h[|h1|..];
    assert h == h1 + ext;
    assert forall k | 0 <= k < |ext| :: ext[k] == h[|h1| + k];
    CountConcat(h1, ext, p);
    CountConcat(h1, ext, q);
    CountMono(ext, p, q);
  }

  function Keep<T>(p: T -> bool): T -> seq<T> {
    (x: T) => if p(x) then [x] else []
  }

  lemma {:induction false} CountIsLength<T>(s: seq<T>, p: T -> bool)
    ensures Count(s, p) == |FlatMap(s, Keep(p))|
  {
    if s == [] {
    } else {
      CountIsLength(s[..|s| - 1], p);
    }
  }

  /** Counting depends only on which elements occur how often. */
  lemma {:induction false} CountPermuted<T>(s: seq<T>, t: seq<T>, p: T -> bool)
    requires multiset(s) == multiset(t)
    ensures Count(s, p) == Count(t, p)
  {
    CountIsLength(s, p);
    CountIsLength(t, p);
    FlatMapPermuted(s, t, Keep(p));
    assert |FlatMap(s, Keep(p))| == |multiset(FlatMap(s, Keep(p)))|;
    assert |FlatMap(t, Keep(p))| == |multiset(FlatMap(t, Keep(p)))|;
  }

  /** A finite set of indices or names never outgrows a set containing it. */
  lemma {:induction false} SubsetSize<T>(a: set<T>, b: set<T>)
    requires a <= b
    ensures |a| <= |b|
    ensures |a| == |b| ==> a == b
  {
    assert b == a + (b - a);
    assert |b| == |a| + |b - a|;
  }

  /** Consumes a literal prefix. */
  function Expect(s: string, lit: string): (r: Option<string>)
    ensures r.Some? ==> s == lit + r.value
  {
    if lit <= s then Some(s[|lit|..]) else None
  }

  lemma ExpectAppend(lit: string, rest: string)
    ensures lit <= lit + rest && Expect(lit + rest, lit) == Some(rest)
  {
    assert (lit + rest)[|lit|..] == rest;
  }

  /** Concatenation of what f makes of each element. */
  function FlatMap<A, B>(s: seq<A>, f: A -> seq<B>): seq<B> {
    if s == [] then [] else FlatMap(s[..|s| - 1], f) + f(s[|s| - 1])
  }

  lemma FlatMapSnoc<A, B>(s: seq<A>, x: A, f: A -> seq<B>)
    ensures FlatMap(s + [x], f) == FlatMap(s, f) + f(x)
  {
    assert (s + [x])[..|s|] == s;
  }

  lemma {:induction false} FlatMapConcat<A, B>(s: seq<A>, t: seq<A>, f: A -> seq<B>)
    ensures FlatMap(s + t, f) == FlatMap(s, f) + FlatMap(t, f)
  {
    if t == [] {
      assert s + t == s;
    } else {
      FlatMapConcat(s, t[..|t| - 1], f);
      assert (s + t)[..|s + t| - 1] == s + t[..|t| - 1];
    }
  }

  lemma FlatMapTakeOut<A, B>(before: seq<A>, x: A, after: seq<A>, f: A -> seq<B>)
    ensures multiset(FlatMap(before + [x] + after, f)) == multiset(FlatMap(before + after, f)) + multiset(f(x))
  {
    var a, b := FlatMap(before, f), FlatMap(after, f);
    FlatMapConcat(before, after, f);
    FlatMapConcat(before + [x], after, f);
    assert (before + [x])[..|before|] == before;
    assert FlatMap(before + [x], f) == a + f(x);
    assert multiset(a + f(x) + b) == multiset(a) + multiset(f(x)) + multiset(b);
    assert multiset(a + b) == multiset(a) + multiset(b);
  }

  lemma FindLast<T>(s: seq<T>, t: seq<T>) returns (i: nat)
    requires multiset(s) == multiset(t) && s != []
    ensures i < |t| && t[i] == s[|s| - 1]
    ensures multiset(s[..|s| - 1]) == multiset(t[..i] + t[i + 1..])
  {
    var init, x := s[..|s| - 1], s[|s| - 1];
    assert s == init + [x];
    assert x in multiset(s) && x in multiset(t);
    i :| 0 <= i < |t| && t[i] == x;
    var before, after := t[..i], t[i + 1..];
    assert t == before + ([x] + after);
    MultisetCancel(multiset(init), multiset(before) + multiset(after), x);
  }

  lemma MultisetCancel<T>(a: multiset<T>, b: multiset<T>, x: T)
    requires a + multiset{x} == b + multiset{x}
    ensures a == b
  {
    assert a == (a + multiset{x}) - multiset{x};
    assert b == (b + multiset{x}) - multiset{x};
  }

  lemma {:induction false} FlatMapPermuted<A, B>(s: seq<A>, t: seq<A>, f: A -> seq<B>)
    requires multiset(s) == multiset(t)
    ensures multiset(FlatMap(s, f)) == multiset(FlatMap(t, f))
    decreases |s|
  {
    if s == [] {
      assert |multiset(t)| == 0;
    } else {
      var init, x := s[..|s| - 1], s[|s| - 1];
      assert FlatMap(s, f) == FlatMap(init, f) + f(x);
      hide FlatMap;
      var i := FindLast(s, t);
      FlatMapPermuted(init, t[..i] + t[i + 1..], f);
      FlatMapTakeOut(t[..i], x, t[i + 1..], f);
      assert t == t[..i] + [x] + t[i + 1..];
    }
  }

  lemma {:induction false} InFlatMap<A, B>(s: seq<A>, f: A -> seq<B>, b: B)
    ensures b in FlatMap(s, f) <==> exists a :: a in s && b in f(a)
  {
    if s == [] {
    } else {
      InFlatMap(s[..|s| - 1], f, b);
    }
  }
}
