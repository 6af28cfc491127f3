/** `str(int)` and its inverse. Ports, lengths and JSON numbers are all printed this way. */
module Decimal {
  import opened Prelude

  const DIGITS := "0123456789"

  predicate IsAsciiDigit(c: char) {
    '0' <= c <= '9'
  }

  /** What may follow a printed number without being read as part of it. */
  predicate NoLeadingDigit(s: string) {
    s == "" || !IsAsciiDigit(s[0])
  }

  function DigitValue(c: char): (d: nat)
    requires IsAsciiDigit(c)
    ensures d < 10 && DIGITS[d] == c
  {
    c as int - '0' as int
  }

  function RenderNat(n: nat): (s: string)
    ensures s != "" && forall c | c in s :: IsAsciiDigit(c)
  {
    if n < 10 then [DIGITS[n]] else RenderNat(n / 10) + [DIGITS[n % 10]]
  }

  function Render(n: int): string {
    if n < 0 then "-" + RenderNat(-n) else RenderNat(n)
  }

  function NatValue(s: string): nat
    requires forall c | c in s :: IsAsciiDigit(c)
  {
    if s == "" then 0 else 10 * NatValue(s[..|s| - 1]) + DigitValue(s[|s| - 1])
  }

  lemma NatValueAppend(s: string, d: nat)
    requires d < 10 && forall c | c in s :: IsAsciiDigit(c)
    ensures NatValue(s + [DIGITS[d]]) == 10 * NatValue(s) + d
  {
    assert (s + [DIGITS[d]])[..|s|] == s;
  }

  lemma {:induction false} NatValueOfRender(n: nat)
    ensures NatValue(RenderNat(n)) == n
  {
    if n < 10 {
      assert RenderNat(n)[..0] == "";
    } else {
      NatValueOfRender(n / 10);
      NatValueAppend(RenderNat(n / 10), n % 10);
    }
  }

  /** Length of the leading block of digits. */
  function DigitPrefix(s: string): (k: nat)
    ensures k <= |s|
    ensures forall i | 0 <= i < k :: IsAsciiDigit(s[i])
    ensures k < |s| ==> !IsAsciiDigit(s[k])
  {
    if NoLeadingDigit(s) then 0 else 1 + DigitPrefix(s[1..])
  }

  function ReadNat(s: string): (r: Option<(nat, string)>)
    ensures r.Some? ==> |r.value.1| < |s|
  {
    var k := DigitPrefix(s);
    if k == 0 then None else Some((NatValue(s[..k]), s[k..]))
  }

  /** Reads an optionally signed decimal and returns the unread rest. */
  function ReadInt(s: string): (r: Option<(int, string)>)
    ensures r.Some? ==> |r.value.1| < |s|
  {
    if s != "" && s[0] == '-' then
      var (n, rest) :- ReadNat(s[1..]);
      Some((0 - n as int, rest))
    else
      var (n, rest) :- ReadNat(s);
      Some((n as int, rest))
  }

  lemma ReadNatRender(n: nat, rest: string)
    requires NoLeadingDigit(rest)
    ensures ReadNat(RenderNat(n) + rest) == Some((n, rest))
  {
    var d := RenderNat(n);
    var k := DigitPrefix(d + rest);
    assert forall i | 0 <= i < |d| :: (d + rest)[i] == d[i] && d[i] in d;
    assert rest != "" ==> (d + rest)[|d|] == rest[0];
    assert (d + rest)[..k] == d && (d + rest)[k..] == rest;
    NatValueOfRender(n);
  }

  lemma ReadIntSign(d: string, n: nat, rest: string)
    requires ReadNat(d + rest) == Some((n, rest))
    requires d != "" && IsAsciiDigit(d[0])
    ensures ReadInt(d + rest) == Some((n as int, rest))
    ensures ReadInt("-" + d + rest) == Some((0 - n, rest))
  {
    assert (d + rest)[0] == d[0];
    assert ("-" + d + rest)[1..] == d + rest;
  }

  /** Round trip: a printed number is read back, whatever follows it. */
  lemma ReadIntRender(n: int, rest: string)
    requires NoLeadingDigit(rest)
    ensures ReadInt(Render(n) + rest) == Some((n, rest))
  {
    var m: nat := if n < 0 then -n else n;
    var d := RenderNat(m);
    assert d[0] in d;
    ReadNatRender(m, rest);
    ReadIntSign(d, m, rest);
  }

  /** Distinct numbers print differently. */
  lemma RenderInjective(m: int, n: int)
    ensures Render(m) == Render(n) <==> m == n
  {
    ReadIntRender(m, "");
    ReadIntRender(n, "");
    assert Render(m) + "" == Render(m) && Render(n) + "" == Render(n);
  }
}
