/** app/utils/masking.py: phone masking and recursive scrubbing of log summaries. */
module Masking {
  import opened Prelude
  import opened Values

  /** Python's Unicode tables are inputs: `\d` and `str.lower`. */
  datatype CharTables = CharTables(isDigit: char -> bool, lower: string -> string)

  /** All that the proofs need of the tables; both facts hold of Python's. */
  ghost predicate Sane(ct: CharTables) {
    !ct.isDigit('*') && ct.lower("content_length") == "content_length"
  }

  const SENSITIVE_KEYS := {"token", "webhook_token", "sign", "secret", "password", "authorization"}
  const CONTENT_KEYS := {"content", "sms_content", "message", "body"}

  predicate EndsWith(s: string, suffix: string) {
    |suffix| <= |s| && s[|s| - |suffix|..] == suffix
  }

  predicate Sensitive(ct: CharTables, key: string) {
    ct.lower(key) in SENSITIVE_KEYS || EndsWith(ct.lower(key), "_secret")
  }

  predicate ContentKey(ct: CharTables, key: string) {
    ct.lower(key) in CONTENT_KEYS
  }

  // ---- the phone pattern ----

  predicate AllDigits(ct: CharTables, s: string, b: nat, e: nat)
    requires b <= e <= |s|
  {
    forall i | b <= i < e :: ct.isDigit(s[i])
  }

  /** The pattern matches at b: look-behind, 3 + 4 + 4 digits, look-ahead. */
  predicate MatchAt(ct: CharTables, s: string, b: nat) {
    && b + 11 <= |s|
    && (b == 0 || !ct.isDigit(s[b - 1]))
    && AllDigits(ct, s, b, b + 11)
    && (b + 11 == |s| || !ct.isDigit(s[b + 11]))
  }

  /** `\1****\2`: the first three and the last four digits survive. */
  function Replacement(s: string, b: nat): (r: string)
    requires b + 11 <= |s|
    ensures |r| == 11 && forall k: nat | k < 11 :: r[k] == if 3 <= k < 7 then '*' else s[b + k]
  {
    s[b..b + 3] + "****" + s[b + 7..b + 11]
  }

  /** `PHONE_RE.sub`: scan left to right, rewrite a match and continue after it. */
  function MaskFrom(ct: CharTables, s: string, i: nat): string
    requires i <= |s|
    decreases |s| - i
  {
    if i == |s| then ""
    else if MatchAt(ct, s, i) then Replacement(s, i) + MaskFrom(ct, s, i + 11)
    else [s[i]] + MaskFrom(ct, s, i + 1)
  }

  function MaskPhone(ct: CharTables, s: string): string {
    MaskFrom(ct, s, 0)
  }

  // ---- what masking means ----

  /** [b, e) is a maximal block of digits. */
  predicate MaximalRun(ct: CharTables, s: string, b: nat, e: nat) {
    && b < e <= |s|
    && AllDigits(ct, s, b, e)
    && (b == 0 || !ct.isDigit(s[b - 1]))
    && (e == |s| || !ct.isDigit(s[e]))
  }

  /** A maximal run of exactly eleven digits starts at b. */
  predicate PhoneRun(ct: CharTables, s: string, b: nat) {
    MaximalRun(ct, s, b, b + 11)
  }

  /** Position i is one of the middle four digits of a maximal run of exactly eleven. */
  ghost predicate Hidden(ct: CharTables, s: string, i: nat) {
    exists b: nat :: PhoneRun(ct, s, b) && b + 3 <= i < b + 7
  }

  lemma MatchesDoNotOverlap(ct: CharTables, s: string, i: nat)
    requires MatchAt(ct, s, i)
    ensures forall b: nat | i < b < i + 11 :: !MatchAt(ct, s, b)
  {
  }

  lemma HiddenInMatch(ct: CharTables, s: string, i: nat, j: nat)
    requires MatchAt(ct, s, i) && i <= j < i + 11
    ensures Hidden(ct, s, j) <==> i + 3 <= j < i + 7
  {
    assert PhoneRun(ct, s, i);
    OneRunPerPosition(ct, s, j);
  }

  lemma {:induction false} MaskFromAt(ct: CharTables, s: string, i: nat, j: nat)
    requires i <= |s|
    requires forall b: nat | b < i < b + 11 :: !MatchAt(ct, s, b)
    ensures |MaskFrom(ct, s, i)| == |s| - i
    ensures i <= j < |s| ==> MaskFrom(ct, s, i)[j - i] == if Hidden(ct, s, j) then '*' else s[j]
    decreases |s| - i
  {
    if i == |s| {
    } else if MatchAt(ct, s, i) {
      MatchesDoNotOverlap(ct, s, i);
      MaskFromAt(ct, s, i + 11, j);
      if i <= j < i + 11 {
        HiddenInMatch(ct, s, i, j);
      }
    } else {
      MaskFromAt(ct, s, i + 1, j);
      if i == j {
        forall b: nat | PhoneRun(ct, s, b)
          ensures !(b + 3 <= j < b + 7)
        {
          assert MatchAt(ct, s, b);
        }
      }
    }
  }

  /** Maximal runs that share a position are the same run. */
  lemma OneRunPerPosition(ct: CharTables, s: string, i: nat)
    ensures forall b: nat, e: nat, b': nat, e': nat
              | MaximalRun(ct, s, b, e) && MaximalRun(ct, s, b', e') && b <= i < e && b' <= i < e' ::
              b == b' && e == e'
  {
  }

  lemma MaskPhoneAt(ct: CharTables, s: string)
    ensures |MaskPhone(ct, s)| == |s|
    ensures forall j: nat | j < |s| ::
              MaskPhone(ct, s)[j] == if Hidden(ct, s, j) then '*' else s[j]
  {
    MaskFromAt(ct, s, 0, 0);
    forall j: nat | j < |s|
      ensures MaskPhone(ct, s)[j] == if Hidden(ct, s, j) then '*' else s[j]
    {
      MaskFromAt(ct, s, 0, j);
    }
  }

  /** The scanner meets the maximal-run specification: length kept, non-digits kept, and a position of a
      maximal run changes exactly when the run has eleven digits and the position is at offset 3 to 6. */
  lemma MaskPhoneMeetsRuns(ct: CharTables, s: string)
    requires Sane(ct)
    ensures |MaskPhone(ct, s)| == |s|
    ensures forall i: nat | i < |s| && !ct.isDigit(s[i]) :: MaskPhone(ct, s)[i] == s[i]
    ensures forall b: nat, e: nat, i: nat | MaximalRun(ct, s, b, e) && b <= i < e ::
              && (MaskPhone(ct, s)[i] != s[i] <==> e - b == 11 && b + 3 <= i < b + 7)
              && (MaskPhone(ct, s)[i] != s[i] ==> MaskPhone(ct, s)[i] == '*')
  {
    MaskPhoneAt(ct, s);
    forall b: nat, e: nat, i: nat | MaximalRun(ct, s, b, e) && b <= i < e
      ensures && (MaskPhone(ct, s)[i] != s[i] <==> e - b == 11 && b + 3 <= i < b + 7)
              && (MaskPhone(ct, s)[i] != s[i] ==> MaskPhone(ct, s)[i] == '*')
    {
      OneRunPerPosition(ct, s, i);
      assert Hidden(ct, s, i) <==> e - b == 11 && b + 3 <= i < b + 7 by {
        if e - b == 11 && b + 3 <= i < b + 7 {
          assert PhoneRun(ct, s, b);
        }
      }
    }
  }

  ghost predicate NoPhone(ct: CharTables, s: string) {
    forall b: nat :: !PhoneRun(ct, s, b)
  }

  lemma PhoneRunHides(ct: CharTables, s: string, b: nat)
    ensures PhoneRun(ct, s, b) ==> Hidden(ct, s, b + 3)
  {
  }

  /** No eleven-digit run survives, not even one pieced together from neighbours. */
  lemma MaskPhoneLeavesNoPhone(ct: CharTables, s: string)
    requires Sane(ct)
    ensures NoPhone(ct, MaskPhone(ct, s))
  {
    var r := MaskPhone(ct, s);
    MaskPhoneAt(ct, s);
    forall b: nat
      ensures !PhoneRun(ct, r, b)
    {
      if PhoneRun(ct, r, b) {
        assert forall i | b <= i < b + 11 :: r[i] == s[i] && !Hidden(ct, s, i);
        assert AllDigits(ct, s, b, b + 11);
        if b > 0 && ct.isDigit(s[b - 1]) {
          assert false;
        } else if b + 11 < |s| && ct.isDigit(s[b + 11]) {
          assert false;
        } else {
          PhoneRunHides(ct, s, b);
          assert false;
        }
      }
    }
  }

  lemma MaskPhoneFixpoint(ct: CharTables, s: string)
    requires NoPhone(ct, s)
    ensures MaskPhone(ct, s) == s
  {
    MaskPhoneAt(ct, s);
  }

  /** Two texts that differ only in hidden digits. */
  ghost predicate SamePublicText(ct: CharTables, s: string, t: string) {
    && |s| == |t|
    && forall i: nat | i < |s| :: s[i] == t[i] || (Hidden(ct, s, i) && ct.isDigit(t[i]))
  }

  lemma SamePublicRuns(ct: CharTables, s: string, t: string, i: nat)
    requires SamePublicText(ct, s, t)
    ensures Hidden(ct, s, i) <==> Hidden(ct, t, i)
  {
    assert forall j: nat | j < |s| :: ct.isDigit(s[j]) <==> ct.isDigit(t[j]);
    assert forall b: nat :: PhoneRun(ct, s, b) <==> PhoneRun(ct, t, b);
  }

  /** A position that shows an asterisk after masking. */
  ghost predicate Starred(ct: CharTables, s: string, i: nat)
    requires i < |s|
  {
    Hidden(ct, s, i) || s[i] == '*'
  }

  /** Exactly which texts mask alike: same length, and at every position the same character, hidden in both or in
      neither, or an asterisk in both results. */
  lemma MaskPhoneEqual(ct: CharTables, s: string, t: string)
    ensures MaskPhone(ct, s) == MaskPhone(ct, t) <==>
            && |s| == |t|
            && forall i: nat | i < |s| ::
                 (s[i] == t[i] && (Hidden(ct, s, i) <==> Hidden(ct, t, i))) || (Starred(ct, s, i) && Starred(ct, t, i))
  {
    MaskPhoneAt(ct, s);
    MaskPhoneAt(ct, t);
    var a, b := MaskPhone(ct, s), MaskPhone(ct, t);
    hide MaskPhone, Hidden;
    if |s| == |t| {
      assert a == b <==> forall i: nat | i < |s| :: a[i] == b[i];
    }
  }

  /** Where no text holds an asterisk, the masked text reveals exactly the public part. */
  lemma MaskPhoneRevealsExactlyPublicText(ct: CharTables, s: string, t: string)
    requires Sane(ct)
    ensures SamePublicText(ct, s, t) ==> MaskPhone(ct, s) == MaskPhone(ct, t)
    ensures '*' !in s && '*' !in t ==>
              (MaskPhone(ct, s) == MaskPhone(ct, t) <==> SamePublicText(ct, s, t))
  {
    MaskPhoneEqual(ct, s, t);
    if SamePublicText(ct, s, t) {
      forall i: nat | i < |s|
        ensures Hidden(ct, s, i) <==> Hidden(ct, t, i)
      {
        SamePublicRuns(ct, s, t, i);
      }
    }
    assert '*' !in s ==> forall i: nat | i < |s| :: s[i] != '*';
    assert '*' !in t ==> forall i: nat | i < |t| :: t[i] != '*';
  }

  /** The asterisk matters: a number and its own masked form differ in public text and mask alike. */
  lemma NumberAndMaskedFormCollide(ct: CharTables, d: char)
    requires Sane(ct) && ct.isDigit(d)
    ensures var s := seq(11, _ => d);
            var t := [d, d, d] + "****" + [d, d, d, d];
            && MaskPhone(ct, s) == t == MaskPhone(ct, t)
            && !SamePublicText(ct, s, t)
  {
    var s: string := seq(11, _ => d);
    var t := [d, d, d] + "****" + [d, d, d, d];
    assert MatchAt(ct, s, 0) && Replacement(s, 0) == t;
    assert MaskFrom(ct, s, 11) == "" && MaskFrom(ct, s, 0) == t + "" == t;
    assert t[3] == '*' && s[3] == d;
    MaskPhoneLeavesNoPhone(ct, s);
    MaskPhoneFixpoint(ct, t);
  }
}
