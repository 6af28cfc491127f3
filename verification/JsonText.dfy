/** `json.dumps(..., ensure_ascii=False)` and a reader for its output (section 7 of RFC 8259 for strings). */
module JsonText {
  import opened Prelude
  import opened Values
  import opened Decimal

  /** What `request.json()` yields, numbers being integers: lists and dicts with distinct string keys. */
  predicate IsJson(v: Value) {
    match v
    case Bytes(_) => false
    case Opaque(_) => false
    case Arr(isList, items) => isList && forall i | 0 <= i < |items| :: IsJson(items[i])
    case Obj(es) => DistinctKeys(es) && forall i | 0 <= i < |es| :: es[i].key.isStr && IsJson(es[i].value)
    case _ => true
  }

  // ---- strings ----

  const HEX := "0123456789abcdef"

  /** `ESCAPE_DCT` of Python's encoder: quote, backslash, and every control character. */
  function EscapeChar(c: char): (r: string)
    ensures r != "" && r[0] != '"'
  {
    if c == '"' then "\\\""
    else if c == '\\' then "\\\\"
    else if c == '\n' then "\\n"
    else if c == '\r' then "\\r"
    else if c == '\t' then "\\t"
    else if c == '\U{08}' then "\\b"
    else if c == '\U{0C}' then "\\f"
    else if c < ' ' then "\\u00" + [HEX[c as int / 16], HEX[c as int % 16]]
    else [c]
  }

  function Escape(s: string): string {
    if s == "" then "" else EscapeChar(s[0]) + Escape(s[1..])
  }

  function HexValue(c: char): Option<nat> {
    if '0' <= c <= '9' then Some(c as int - '0' as int)
    else if 'a' <= c <= 'f' then Some(c as int - 'a' as int + 10)
    else None
  }

  /** One character of a string body, escaped or plain. */
  function ReadChar(s: string): (r: Option<(char, string)>)
    ensures r.Some? ==> |r.value.1| < |s|
  {
    if s == "" || s[0] == '"' || s[0] < ' ' then None
    else if s[0] != '\\' then Some((s[0], s[1..]))
    else if |s| < 2 then None
    else if s[1] == '"' || s[1] == '\\' then Some((s[1], s[2..]))
    else if s[1] == 'n' then Some(('\n', s[2..]))
    else if s[1] == 'r' then Some(('\r', s[2..]))
    else if s[1] == 't' then Some(('\t', s[2..]))
    else if s[1] == 'b' then Some(('\U{08}', s[2..]))
    else if s[1] == 'f' then Some(('\U{0C}', s[2..]))
    else if "\\u00" <= s && |s| >= 6 then
      var hi :- HexValue(s[4]);
      var lo :- HexValue(s[5]);
      Some(((16 * hi + lo) as char, s[6..]))
    else None
  }

  lemma ReadEscapedChar(c: char, rest: string)
    ensures ReadChar(EscapeChar(c) + rest) == Some((c, rest))
  {
    var t := EscapeChar(c) + rest;
    if EscapeChar(c) == [c] {
      assert t[1..] == rest;
    } else if |EscapeChar(c)| == 2 {
      assert t[2..] == rest;
    } else {
      var n := c as int;
      assert HexValue(HEX[n / 16]) == Some(n / 16) && HexValue(HEX[n % 16]) == Some(n % 16);
      assert t[..4] == "\\u00" && t[6..] == rest;
    }
  }

  /** A string body up to and including its closing quote. */
  function ReadChars(s: string): (r: Option<(string, string)>)
    ensures r.Some? ==> |r.value.1| < |s|
    decreases |s|
  {
    if s != "" && s[0] == '"' then Some(("", s[1..]))
    else
      var (c, more) :- ReadChar(s);
      var (cs, rest) :- ReadChars(more);
      Some(([c] + cs, rest))
  }

  lemma {:induction false} ReadEscaped(s: string, rest: string)
    ensures ReadChars(Escape(s) + "\"" + rest) == Some((s, rest))
  {
    hide EscapeChar, ReadChar;
    var t := Escape(s) + "\"" + rest;
    if s == "" {
      assert t == "\"" + rest;
    } else {
      var more := Escape(s[1..]) + "\"" + rest;
      assert t == EscapeChar(s[0]) + more;
      assert t[0] == EscapeChar(s[0])[0];
      ReadEscapedChar(s[0], more);
      ReadEscaped(s[1..], rest);
      assert [s[0]] + s[1..] == s;
    }
  }

  // ---- values ----

  function Quoted(s: string): string {
    "\"" + Escape(s) + "\""
  }

  function Print(v: Value): string
    requires IsJson(v)
    decreases v, 0
  {
    match v
    case Null => "null"
    case Bool(b) => if b then "true" else "false"
    case Int(n) => Render(n)
    case Str(s) => Quoted(s)
    case Arr(_, items) => if items == [] then "[]" else "[" + PrintItems(items) + "]"
    case Obj(es) => if es == [] then "{}" else "{" + PrintMembers(es) + "}"
  }

  function PrintItems(items: seq<Value>): string
    requires items != [] && forall i | 0 <= i < |items| :: IsJson(items[i])
    decreases items, 1
  {
    if |items| == 1 then Print(items[0])
    else Print(items[0]) + ", " + PrintItems(items[1..])
  }

  function PrintMember(e: Entry): string
    requires IsJson(e.value)
    decreases e, 0
  {
    Quoted(e.key.text) + ": " + Print(e.value)
  }

  function PrintMembers(es: seq<Entry>): string
    requires es != [] && forall i | 0 <= i < |es| :: IsJson(es[i].value)
    decreases es, 1
  {
    if |es| == 1 then PrintMember(es[0])
    else PrintMember(es[0]) + ", " + PrintMembers(es[1..])
  }

  // ---- reading back ----

  function ReadValue(s: string): (r: Option<(Value, string)>)
    ensures r.Some? ==> |r.value.1| < |s|
    decreases |s|, 0
  {
    if s == "" then None
    else if s[0] == 'n' then
      var rest :- Expect(s, "null");
      Some((Null, rest))
    else if s[0] == 't' then
      var rest :- Expect(s, "true");
      Some((Bool(true), rest))
    else if s[0] == 'f' then
      var rest :- Expect(s, "false");
      Some((Bool(false), rest))
    else if s[0] == '"' then
      var (t, rest) :- ReadChars(s[1..]);
      Some((Str(t), rest))
    else if s[0] == '[' then
      if |s| > 1 && s[1] == ']' then Some((Arr(true, []), s[2..]))
      else
        var (items, rest) :- ReadItems(s[1..]);
        Some((Arr(true, items), rest))
    else if s[0] == '{' then
      if |s| > 1 && s[1] == '}' then Some((Obj([]), s[2..]))
      else
        var (es, rest) :- ReadMembers(s[1..]);
        Some((Obj(es), rest))
    else
      var (n, rest) :- ReadInt(s);
      Some((Int(n), rest))
  }

  function ReadItems(s: string): (r: Option<(seq<Value>, string)>)
    ensures r.Some? ==> |r.value.1| < |s|
    decreases |s|, 1
  {
    var (v, more) :- ReadValue(s);
    if more != "" && more[0] == ']' then Some(([v], more[1..]))
    else
      var next :- Expect(more, ", ");
      var (vs, rest) :- ReadItems(next);
      Some(([v] + vs, rest))
  }

  function ReadMember(s: string): (r: Option<(Entry, string)>)
    ensures r.Some? ==> |r.value.1| < |s|
    decreases |s|, 1
  {
    var body :- Expect(s, "\"");
    var (k, colon) :- ReadChars(body);
    var text :- Expect(colon, ": ");
    var (v, rest) :- ReadValue(text);
    Some((Entry(Key(true, k), v), rest))
  }

  function ReadMembers(s: string): (r: Option<(seq<Entry>, string)>)
    ensures r.Some? ==> |r.value.1| < |s|
    decreases |s|, 2
  {
    var (e, more) :- ReadMember(s);
    if more != "" && more[0] == '}' then Some(([e], more[1..]))
    else
      var next :- Expect(more, ", ");
      var (es, rest) :- ReadMembers(next);
      Some(([e] + es, rest))
  }

  lemma IntHead(n: int)
    ensures Render(n) != "" && (Render(n)[0] == '-' || IsAsciiDigit(Render(n)[0]))
  {
    var d := RenderNat(if n < 0 then -n else n);
    assert d[0] in d;
  }

  /** The first character of a printed value never closes a list. */
  lemma PrintHead(v: Value)
    requires IsJson(v)
    ensures Print(v) != "" && Print(v)[0] != ']'
  {
    if v.Int? {
      IntHead(v.n);
    }
  }

  lemma ItemsHead(items: seq<Value>)
    requires items != [] && forall i | 0 <= i < |items| :: IsJson(items[i])
    ensures PrintItems(items) != "" && PrintItems(items)[0] != ']'
  {
    hide Print;
    PrintHead(items[0]);
    assert PrintItems(items)[0] == Print(items[0])[0];
  }

  lemma MembersHead(es: seq<Entry>)
    requires es != [] && forall i | 0 <= i < |es| :: IsJson(es[i].value)
    ensures PrintMembers(es) != "" && PrintMembers(es)[0] == '"'
  {
    hide Print, Escape;
    var m := PrintMember(es[0]);
    assert m[0] == Quoted(es[0].key.text)[0] == '"';
    assert PrintMembers(es)[0] == m[0];
  }

  lemma ReadNumberText(t: string, n: int, rest: string)
    requires t != "" && (t[0] == '-' || IsAsciiDigit(t[0]))
    requires ReadInt(t + rest) == Some((n, rest))
    ensures ReadValue(t + rest) == Some((Int(n), rest))
  {
    assert (t + rest)[0] == t[0];
  }

  lemma ReadNumber(n: int, rest: string)
    requires NoLeadingDigit(rest)
    ensures ReadValue(Render(n) + rest) == Some((Int(n), rest))
  {
    IntHead(n);
    ReadIntRender(n, rest);
    ReadNumberText(Render(n), n, rest);
  }

  lemma ReadString(body: string, t: string, rest: string)
    requires ReadChars(body) == Some((t, rest))
    ensures ReadValue("\"" + body) == Some((Str(t), rest))
  {
    assert ("\"" + body)[1..] == body;
  }

  lemma ReadQuoted(t: string, rest: string)
    ensures ReadValue(Quoted(t) + rest) == Some((Str(t), rest))
  {
    var body := Escape(t) + "\"" + rest;
    ReadEscaped(t, rest);
    ReadString(body, t, rest);
    assert Quoted(t) + rest == "\"" + body;
  }

  lemma ReadBracketed(text: string, items: seq<Value>, rest: string)
    requires text != "" && text[0] != ']' && ReadItems(text + "]" + rest) == Some((items, rest))
    ensures ReadValue("[" + text + "]" + rest) == Some((Arr(true, items), rest))
  {
    hide ReadItems, ReadMembers, ReadChars, ReadInt, Expect;
    var s := "[" + text + "]" + rest;
    assert s[1..] == text + "]" + rest;
    assert s[1] == text[0];
  }

  lemma ReadBraced(text: string, es: seq<Entry>, rest: string)
    requires text != "" && text[0] != '}' && ReadMembers(text + "}" + rest) == Some((es, rest))
    ensures ReadValue("{" + text + "}" + rest) == Some((Obj(es), rest))
  {
    hide ReadItems, ReadMembers, ReadChars, ReadInt, Expect;
    var s := "{" + text + "}" + rest;
    assert s[1..] == text + "}" + rest;
    assert s[1] == text[0];
  }

  lemma ReadEmpty(rest: string)
    ensures ReadValue("[]" + rest) == Some((Arr(true, []), rest))
    ensures ReadValue("{}" + rest) == Some((Obj([]), rest))
  {
    assert ("[]" + rest)[2..] == rest;
    assert ("{}" + rest)[2..] == rest;
  }

  lemma ReadLiteral(v: Value, rest: string)
    requires v.Null? || v.Bool?
    ensures ReadValue(Print(v) + rest) == Some((v, rest))
  {
    ExpectAppend(Print(v), rest);
  }

  /** Round trip: the reader recovers a printed value and leaves exactly what follows it. */
  lemma {:induction false} ReadPrint(v: Value, rest: string)
    requires IsJson(v) && NoLeadingDigit(rest)
    ensures ReadValue(Print(v) + rest) == Some((v, rest))
    decreases v, 0
  {
    match v
    case Int(n) => ReadNumber(n, rest);
    case Str(t) => ReadQuoted(t, rest);
    case Arr(_, items) =>
      if items == [] {
        ReadEmpty(rest);
      } else {
        ItemsHead(items);
        ReadPrintedItems(items, rest);
        ReadBracketed(PrintItems(items), items, rest);
      }
    case Obj(es) =>
      if es == [] {
        ReadEmpty(rest);
      } else {
        MembersHead(es);
        ReadPrintedMembers(es, rest);
        ReadBraced(PrintMembers(es), es, rest);
      }
    case _ => ReadLiteral(v, rest);
  }

  lemma {:induction false} ReadPrintedItems(items: seq<Value>, rest: string)
    requires items != [] && forall i | 0 <= i < |items| :: IsJson(items[i])
    ensures ReadItems(PrintItems(items) + "]" + rest) == Some((items, rest))
    decreases items, 1
  {
    var s := PrintItems(items) + "]" + rest;
    if |items| == 1 {
      assert s == Print(items[0]) + ("]" + rest);
      ReadPrint(items[0], "]" + rest);
      assert items == [items[0]];
    } else {
      var tail := PrintItems(items[1..]) + "]" + rest;
      assert s == Print(items[0]) + (", " + tail);
      ReadPrint(items[0], ", " + tail);
      ExpectAppend(", ", tail);
      ReadPrintedItems(items[1..], rest);
      assert items == [items[0]] + items[1..];
    }
  }

  lemma ReadMemberParts(chars: string, k: string, text: string, v: Value, rest: string)
    requires ReadChars(chars) == Some((k, ": " + text)) && ReadValue(text) == Some((v, rest))
    ensures ReadMember("\"" + chars) == Some((Entry(Key(true, k), v), rest))
  {
    ExpectAppend("\"", chars);
    ExpectAppend(": ", text);
  }

  lemma MemberText(k: string, v: string, rest: string)
    ensures "\"" + k + "\"" + ": " + v + rest == "\"" + (k + "\"" + (": " + (v + rest)))
  {
  }

  lemma {:induction false} ReadPrintedMember(e: Entry, rest: string)
    requires e.key.isStr && IsJson(e.value) && NoLeadingDigit(rest)
    ensures ReadMember(PrintMember(e) + rest) == Some((e, rest))
    decreases e, 0
  {
    var k, p := Escape(e.key.text), Print(e.value);
    ReadPrint(e.value, rest);
    ReadEscaped(e.key.text, ": " + (p + rest));
    ReadMemberParts(k + "\"" + (": " + (p + rest)), e.key.text, p + rest, e.value, rest);
    MemberText(k, p, rest);
  }

  lemma ReadLastMember(m: string, e: Entry, rest: string)
    requires ReadMember(m + ("}" + rest)) == Some((e, "}" + rest))
    ensures ReadMembers(m + "}" + rest) == Some(([e], rest))
  {
    assert m + "}" + rest == m + ("}" + rest);
  }

  lemma ReadMoreMembers(m: string, e: Entry, tail: string, es: seq<Entry>, rest: string)
    requires ReadMember(m + (", " + (tail + "}" + rest))) == Some((e, ", " + (tail + "}" + rest)))
    requires ReadMembers(tail + "}" + rest) == Some((es, rest))
    ensures ReadMembers(m + ", " + tail + "}" + rest) == Some(([e] + es, rest))
  {
    hide ReadMember;
    var s := tail + "}" + rest;
    ExpectAppend(", ", s);
    assert m + ", " + tail + "}" + rest == m + (", " + s);
  }

  lemma {:induction false} ReadPrintedMembers(es: seq<Entry>, rest: string)
    requires es != [] && forall i | 0 <= i < |es| :: es[i].key.isStr && IsJson(es[i].value)
    ensures ReadMembers(PrintMembers(es) + "}" + rest) == Some((es, rest))
    decreases es, 1
  {
    hide PrintMember, ReadMembers;
    var m := PrintMember(es[0]);
    if |es| == 1 {
      ReadPrintedMember(es[0], "}" + rest);
      ReadLastMember(m, es[0], rest);
      assert es == [es[0]];
    } else {
      var tail := PrintMembers(es[1..]);
      ReadPrintedMember(es[0], ", " + (tail + "}" + rest));
      ReadPrintedMembers(es[1..], rest);
      ReadMoreMembers(m, es[0], tail, es[1..], rest);
      assert es == [es[0]] + es[1..];
    }
  }

  /** Distinct values print differently. */
  lemma PrintInjective(v: Value, w: Value)
    requires IsJson(v) && IsJson(w)
    ensures Print(v) == Print(w) <==> v == w
  {
    ReadPrint(v, "");
    ReadPrint(w, "");
    assert Print(v) + "" == Print(v) && Print(w) + "" == Print(w);
  }
}
