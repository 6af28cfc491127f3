/** The frpc configuration file (app/services/tunnel_service.py) and a reader for the subset of TOML v1.0.0 it is
    written in: bare keys, basic strings without escapes, integers, booleans, arrays of tables. */
module FrpcToml {
  import opened Prelude
  import opened Decimal
  import opened Models
  import opened Tunnels
  import opened PortSafety

  const FRPS_BIND_PORT := 7000

  // ---- the printer ----

  function Join(sep: string, lines: seq<string>): string {
    if lines == [] then ""
    else if |lines| == 1 then lines[0]
    else lines[0] + sep + Join(sep, lines[1..])
  }

  function RenderBool(b: bool): string {
    if b then "true" else "false"
  }

  function Quoted(s: string): string {
    "\"" + s + "\""
  }

  function Assign(key: string, shown: string): string {
    key + " = " + shown
  }

  function Lines(cfg: Settings, t: Tunnel): seq<string> {
    [ Assign("serverAddr", Quoted(cfg.publicHost)),
      Assign("serverPort", Render(FRPS_BIND_PORT)),
      "",
      Assign("auth.method", Quoted("token")),
      Assign("auth.token", Quoted(t.authToken)),
      "",
      "[[proxies]]",
      Assign("name", Quoted(t.proxyName)),
      Assign("type", Quoted("tcp")),
      Assign("localIP", Quoted(t.localIp)),
      Assign("localPort", Render(t.localPort)),
      Assign("remotePort", Render(t.remotePort)),
      Assign("transport.useEncryption", RenderBool(t.useEncryption)),
      Assign("transport.useCompression", RenderBool(t.useCompression)),
      "" ]
  }

  function Toml(cfg: Settings, t: Tunnel): string {
    Join("\n", Lines(cfg, t))
  }

  datatype ConfigFile = ConfigFile(filename: string, content: string)

  function Rendered(cfg: Settings, t: Tunnel): ConfigFile {
    ConfigFile(t.proxyName + "-frpc.toml", Toml(cfg, t))
  }

  // ---- the reader ----

  datatype Scalar = Text(text: string) | Number(number: int) | Flag(flag: bool)

  datatype Statement = Blank | Header(name: string) | Pair(key: string, value: Scalar)

  predicate IsKeyChar(c: char) {
    'a' <= c <= 'z' || 'A' <= c <= 'Z' || '0' <= c <= '9' || c == '_' || c == '-' || c == '.'
  }

  predicate IsKey(s: string) {
    s != "" && forall i | 0 <= i < |s| :: IsKeyChar(s[i])
  }

  /** A character a basic string may hold unescaped. */
  predicate IsPlain(c: char) {
    c != '"' && c != '\\' && (c == '\t' || ' ' <= c) && c != '\U{7F}'
  }

  predicate Plain(s: string) {
    forall i | 0 <= i < |s| :: IsPlain(s[i])
  }

  predicate PlainValue(v: Scalar) {
    v.Text? ==> Plain(v.text)
  }

  function SplitLines(s: string): (r: seq<string>)
    ensures r != []
  {
    if s == "" then [""]
    else
      var rest := SplitLines(s[1..]);
      if s[0] == '\n' then [""] + rest else [[s[0]] + rest[0]] + rest[1..]
  }

  function KeyLength(s: string): (k: nat)
    ensures k <= |s|
    ensures forall i | 0 <= i < k :: IsKeyChar(s[i])
    ensures k < |s| ==> !IsKeyChar(s[k])
  {
    if s == "" || !IsKeyChar(s[0]) then 0 else 1 + KeyLength(s[1..])
  }

  function ReadScalar(s: string): (r: Option<Scalar>)
    ensures r.Some? ==> PlainValue(r.value)
  {
    if s == "true" then Some(Flag(true))
    else if s == "false" then Some(Flag(false))
    else if |s| >= 2 && s[0] == '"' && s[|s| - 1] == '"' then
      if Plain(s[1..|s| - 1]) then Some(Text(s[1..|s| - 1])) else None
    else
      var (n, rest) :- ReadInt(s);
      if rest == "" then Some(Number(n)) else None
  }

  function ReadStatement(line: string): (r: Option<Statement>)
    ensures r.Some? && r.value.Pair? ==> PlainValue(r.value.value)
  {
    if line == "" then Some(Blank)
    else if |line| > 4 && line[..2] == "[[" && line[|line| - 2..] == "]]" then
      if IsKey(line[2..|line| - 2]) then Some(Header(line[2..|line| - 2])) else None
    else
      var k := KeyLength(line);
      var rest :- Expect(line[k..], " = ");
      var v :- ReadScalar(rest);
      if k > 0 then Some(Pair(line[..k], v)) else None
  }

  function ReadStatements(lines: seq<string>): (r: Option<seq<Statement>>)
    ensures r.Some? ==> forall i | 0 <= i < |r.value| :: r.value[i].Pair? ==> PlainValue(r.value[i].value)
  {
    if lines == [] then Some([])
    else
      var first :- ReadStatement(lines[0]);
      var rest :- ReadStatements(lines[1..]);
      Some([first] + rest)
  }

  /** Where the table that starts at `from` ends. */
  function TableEnd(doc: seq<Statement>, from: nat): (k: nat)
    requires from <= |doc|
    ensures from <= k <= |doc|
    ensures forall i | from <= i < k :: !doc[i].Header?
    ensures k < |doc| ==> doc[k].Header?
    decreases |doc| - from
  {
    if from == |doc| || doc[from].Header? then from else TableEnd(doc, from + 1)
  }

  function Lookup(table: seq<Statement>, key: string): (r: Option<Scalar>)
    ensures r.Some? ==> Pair(key, r.value) in table
  {
    if table == [] then None
    else if table[0].Pair? && table[0].key == key then Some(table[0].value)
    else Lookup(table[1..], key)
  }

  /** What the frp client takes from the file. */
  datatype Frpc = Frpc(
    serverAddr: string, serverPort: int, token: string, proxyName: string, proxyType: string,
    localIp: string, localPort: int, remotePort: int, useEncryption: bool, useCompression: bool)

  function LookupText(table: seq<Statement>, key: string): (r: Option<string>)
    ensures r.Some? <==> Lookup(table, key).Some? && Lookup(table, key).value.Text?
    ensures r.Some? ==> Lookup(table, key) == Some(Text(r.value))
  {
    var v :- Lookup(table, key);
    if v.Text? then Some(v.text) else None
  }

  function LookupNumber(table: seq<Statement>, key: string): (r: Option<int>)
    ensures r.Some? ==> Lookup(table, key) == Some(Number(r.value))
  {
    var v :- Lookup(table, key);
    if v.Number? then Some(v.number) else None
  }

  function LookupFlag(table: seq<Statement>, key: string): (r: Option<bool>)
    ensures r.Some? ==> Lookup(table, key) == Some(Flag(r.value))
  {
    var v :- Lookup(table, key);
    if v.Flag? then Some(v.flag) else None
  }

  /** The top-level table and the single `proxies` table after it. */
  function ReadTables(root: seq<Statement>, proxy: seq<Statement>): Option<Frpc> {
    var serverAddr :- LookupText(root, "serverAddr");
    var serverPort :- LookupNumber(root, "serverPort");
    var token :- LookupText(root, "auth.token");
    var name :- LookupText(proxy, "name");
    var proxyType :- LookupText(proxy, "type");
    var localIp :- LookupText(proxy, "localIP");
    var localPort :- LookupNumber(proxy, "localPort");
    var remotePort :- LookupNumber(proxy, "remotePort");
    var encryption :- LookupFlag(proxy, "transport.useEncryption");
    var compression :- LookupFlag(proxy, "transport.useCompression");
    if LookupText(root, "auth.method") == Some("token") then
      Some(Frpc(serverAddr, serverPort, token, name, proxyType, localIp, localPort, remotePort,
                encryption, compression))
    else None
  }

  function ReadDocument(doc: seq<Statement>): Option<Frpc> {
    var k := TableEnd(doc, 0);
    if k < |doc| && doc[k] == Header("proxies") then
      ReadTables(doc[..k], doc[k + 1..TableEnd(doc, k + 1)])
    else None
  }

  function Read(text: string): Option<Frpc> {
    var doc :- ReadStatements(SplitLines(text));
    ReadDocument(doc)
  }

  // ---- round trip ----

  function Meaning(cfg: Settings, t: Tunnel): Frpc {
    Frpc(cfg.publicHost, FRPS_BIND_PORT, t.authToken, t.proxyName, "tcp", t.localIp, t.localPort, t.remotePort,
         t.useEncryption, t.useCompression)
  }

  /** The fields printed between quotes hold no quote, backslash or control character. */
  predicate PlainFields(cfg: Settings, t: Tunnel) {
    Plain(cfg.publicHost) && Plain(t.authToken) && Plain(t.proxyName) && Plain(t.localIp)
  }

  predicate OneLine(s: string) {
    '\n' !in s
  }

  lemma {:induction false} SplitFirstLine(line: string, rest: string)
    requires OneLine(line)
    ensures SplitLines(line + "\n" + rest) == [line] + SplitLines(rest)
    ensures SplitLines(line) == [line]
  {
    var s := line + "\n" + rest;
    if line == "" {
      assert s[1..] == rest;
    } else {
      SplitFirstLine(line[1..], rest);
      assert s[1..] == line[1..] + "\n" + rest;
      assert [line[0]] + line[1..] == line;
    }
  }

  lemma {:induction false} SplitJoin(lines: seq<string>)
    requires lines != [] && forall i | 0 <= i < |lines| :: OneLine(lines[i])
    ensures SplitLines(Join("\n", lines)) == lines
  {
    if |lines| == 1 {
      SplitFirstLine(lines[0], "");
    } else {
      SplitJoin(lines[1..]);
      SplitFirstLine(lines[0], Join("\n", lines[1..]));
    }
  }

  lemma {:induction false} KeyLengthAt(key: string, rest: string)
    requires IsKey(key) && rest != "" && !IsKeyChar(rest[0])
    ensures KeyLength(key + rest) == |key|
  {
    var k := KeyLength(key + rest);
    assert forall i | 0 <= i < |key| :: (key + rest)[i] == key[i];
    assert (key + rest)[|key|] == rest[0];
  }

  lemma PairLine(key: string, shown: string, v: Scalar)
    requires IsKey(key) && ReadScalar(shown) == Some(v)
    ensures ReadStatement(key + " = " + shown) == Some(Pair(key, v))
  {
    var line := key + (" = " + shown);
    assert key + " = " + shown == line;
    KeyLengthAt(key, " = " + shown);
    ExpectAppend(" = ", shown);
    assert line[..|key|] == key && line[|key|..] == " = " + shown;
    assert line[0] == key[0] && IsKeyChar(line[0]);
    assert |line| > 4 ==> line[..2][0] == line[0];
  }

  lemma TextScalar(s: string)
    requires Plain(s)
    ensures ReadScalar(Quoted(s)) == Some(Text(s))
    ensures OneLine(Quoted(s))
  {
    var q := Quoted(s);
    assert q[0] == '"' && q[1..|q| - 1] == s;
    assert "true"[0] == 't' && "false"[0] == 'f';
    assert forall i | 0 <= i < |s| :: s[i] != '\n';
  }

  lemma {:induction false} NumberScalar(n: int)
    ensures ReadScalar(Render(n)) == Some(Number(n))
    ensures OneLine(Render(n))
  {
    ReadIntRender(n, "");
    var d := Render(n);
    assert d + "" == d;
    var digits := RenderNat(if n < 0 then -n else n);
    assert digits[0] in digits;
    assert d[0] == '-' || IsAsciiDigit(d[0]);
    assert "true"[0] == 't' && "false"[0] == 'f';
  }

  lemma {:induction false} StatementsOf(lines: seq<string>, doc: seq<Statement>)
    requires |lines| == |doc|
    requires forall i | 0 <= i < |lines| :: ReadStatement(lines[i]) == Some(doc[i])
    ensures ReadStatements(lines) == Some(doc)
  {
    if lines == [] {
    } else {
      StatementsOf(lines[1..], doc[1..]);
      assert doc == [doc[0]] + doc[1..];
    }
  }

  /** The statements on the printed lines, one for one. */
  function Root(cfg: Settings, t: Tunnel): seq<Statement> {
    [ Pair("serverAddr", Text(cfg.publicHost)),
      Pair("serverPort", Number(FRPS_BIND_PORT)),
      Blank,
      Pair("auth.method", Text("token")),
      Pair("auth.token", Text(t.authToken)),
      Blank ]
  }

  function Proxy(t: Tunnel): seq<Statement> {
    [ Pair("name", Text(t.proxyName)),
      Pair("type", Text("tcp")),
      Pair("localIP", Text(t.localIp)),
      Pair("localPort", Number(t.localPort)),
      Pair("remotePort", Number(t.remotePort)),
      Pair("transport.useEncryption", Flag(t.useEncryption)),
      Pair("transport.useCompression", Flag(t.useCompression)),
      Blank ]
  }

  predicate ReadsAs(line: string, st: Statement) {
    OneLine(line) && ReadStatement(line) == Some(st)
  }

  lemma RootKeys()
    ensures IsKey("serverAddr") && IsKey("serverPort") && IsKey("auth.method") && IsKey("auth.token")
  {
  }

  lemma ProxyKeys()
    ensures IsKey("name") && IsKey("type") && IsKey("localIP") && IsKey("localPort") && IsKey("remotePort")
    ensures IsKey("transport.useEncryption") && IsKey("transport.useCompression")
  {
  }

  lemma AssignReads(key: string, shown: string, v: Scalar)
    requires IsKey(key) && OneLine(shown) && ReadScalar(shown) == Some(v)
    ensures ReadsAs(Assign(key, shown), Pair(key, v))
  {
    PairLine(key, shown, v);
    assert OneLine(key);
  }

  lemma TextLine(key: string, s: string)
    requires IsKey(key) && Plain(s)
    ensures ReadsAs(Assign(key, Quoted(s)), Pair(key, Text(s)))
  {
    TextScalar(s);
    AssignReads(key, Quoted(s), Text(s));
  }

  lemma NumberLine(key: string, n: int)
    requires IsKey(key)
    ensures ReadsAs(Assign(key, Render(n)), Pair(key, Number(n)))
  {
    NumberScalar(n);
    AssignReads(key, Render(n), Number(n));
  }

  lemma FlagLine(key: string, b: bool)
    requires IsKey(key)
    ensures ReadsAs(Assign(key, RenderBool(b)), Pair(key, Flag(b)))
  {
    AssignReads(key, RenderBool(b), Flag(b));
  }

  lemma FixedLines()
    ensures ReadsAs("", Blank) && ReadsAs("[[proxies]]", Header("proxies"))
    ensures Plain("token") && Plain("tcp")
  {
    var line := "[[proxies]]";
    assert line[..2] == "[[" && line[|line| - 2..] == "]]" && line[2..|line| - 2] == "proxies";
  }

  lemma LinesRead(cfg: Settings, t: Tunnel)
    requires PlainFields(cfg, t)
    ensures var lines, doc := Lines(cfg, t), Root(cfg, t) + [Header("proxies")] + Proxy(t);
            |lines| == |doc| && forall i | 0 <= i < |doc| :: ReadsAs(lines[i], doc[i])
  {
    FixedLines();
    RootKeys();
    ProxyKeys();
    hide ReadsAs, Assign, Quoted, Render, RenderBool, IsKey, Plain, OneLine;
    TextLine("serverAddr", cfg.publicHost);
    NumberLine("serverPort", FRPS_BIND_PORT);
    TextLine("auth.method", "token");
    TextLine("auth.token", t.authToken);
    TextLine("name", t.proxyName);
    TextLine("type", "tcp");
    TextLine("localIP", t.localIp);
    NumberLine("localPort", t.localPort);
    NumberLine("remotePort", t.remotePort);
    FlagLine("transport.useEncryption", t.useEncryption);
    FlagLine("transport.useCompression", t.useCompression);
  }

  predicate UniqueKeys(table: seq<Statement>) {
    forall i, j | 0 <= i < j < |table| && table[i].Pair? && table[j].Pair? :: table[i].key != table[j].key
  }

  lemma {:induction false} LookupAt(table: seq<Statement>, i: nat, key: string, v: Scalar)
    requires UniqueKeys(table) && i < |table| && table[i] == Pair(key, v)
    ensures Lookup(table, key) == Some(v)
  {
    if i == 0 {
    } else {
      LookupAt(table[1..], i - 1, key, v);
    }
  }

  lemma RootKeysUnique(cfg: Settings, t: Tunnel)
    ensures UniqueKeys(Root(cfg, t))
  {
  }

  lemma ProxyKeysUnique(t: Tunnel)
    ensures UniqueKeys(Proxy(t))
  {
  }

  lemma RootRead(cfg: Settings, t: Tunnel)
    ensures var root := Root(cfg, t);
            && Lookup(root, "serverAddr") == Some(Text(cfg.publicHost))
            && Lookup(root, "serverPort") == Some(Number(FRPS_BIND_PORT))
            && Lookup(root, "auth.method") == Some(Text("token"))
            && Lookup(root, "auth.token") == Some(Text(t.authToken))
  {
    hide UniqueKeys, Lookup;
    var root := Root(cfg, t);
    RootKeysUnique(cfg, t);
    LookupAt(root, 0, "serverAddr", Text(cfg.publicHost));
    LookupAt(root, 1, "serverPort", Number(FRPS_BIND_PORT));
    LookupAt(root, 3, "auth.method", Text("token"));
    LookupAt(root, 4, "auth.token", Text(t.authToken));
  }

  lemma ProxyReadAddress(t: Tunnel)
    ensures var proxy := Proxy(t);
            && Lookup(proxy, "name") == Some(Text(t.proxyName))
            && Lookup(proxy, "type") == Some(Text("tcp"))
            && Lookup(proxy, "localIP") == Some(Text(t.localIp))
            && Lookup(proxy, "localPort") == Some(Number(t.localPort))
  {
    hide UniqueKeys, Lookup;
    var proxy := Proxy(t);
    ProxyKeysUnique(t);
    LookupAt(proxy, 0, "name", Text(t.proxyName));
    LookupAt(proxy, 1, "type", Text("tcp"));
    LookupAt(proxy, 2, "localIP", Text(t.localIp));
    LookupAt(proxy, 3, "localPort", Number(t.localPort));
  }

  lemma ProxyReadTransport(t: Tunnel)
    ensures var proxy := Proxy(t);
            && Lookup(proxy, "remotePort") == Some(Number(t.remotePort))
            && Lookup(proxy, "transport.useEncryption") == Some(Flag(t.useEncryption))
            && Lookup(proxy, "transport.useCompression") == Some(Flag(t.useCompression))
  {
    hide UniqueKeys, Lookup;
    var proxy := Proxy(t);
    ProxyKeysUnique(t);
    LookupAt(proxy, 4, "remotePort", Number(t.remotePort));
    LookupAt(proxy, 5, "transport.useEncryption", Flag(t.useEncryption));
    LookupAt(proxy, 6, "transport.useCompression", Flag(t.useCompression));
  }

  lemma TablesRead(cfg: Settings, t: Tunnel)
    ensures ReadTables(Root(cfg, t), Proxy(t)) == Some(Meaning(cfg, t))
  {
    RootRead(cfg, t);
    ProxyReadAddress(t);
    ProxyReadTransport(t);
    hide Lookup, Root, Proxy;
  }

  lemma {:induction false} TableEndIs(doc: seq<Statement>, from: nat, k: nat)
    requires from <= k <= |doc| && forall i | from <= i < k :: !doc[i].Header?
    requires k < |doc| ==> doc[k].Header?
    ensures TableEnd(doc, from) == k
    decreases k - from
  {
    if from < k {
      TableEndIs(doc, from + 1, k);
    }
  }

  lemma DocumentReads(root: seq<Statement>, proxy: seq<Statement>)
    requires forall i | 0 <= i < |root| :: !root[i].Header?
    requires forall i | 0 <= i < |proxy| :: !proxy[i].Header?
    ensures ReadDocument(root + [Header("proxies")] + proxy) == ReadTables(root, proxy)
  {
    hide ReadTables, TableEnd;
    var doc, r := root + [Header("proxies")] + proxy, |root|;
    assert doc[..r] == root && doc[r] == Header("proxies") && doc[r + 1..|doc|] == proxy;
    assert forall i | 0 <= i < r :: doc[i] == root[i];
    assert forall i | r < i < |doc| :: doc[i] == proxy[i - r - 1];
    TableEndIs(doc, 0, r);
    TableEndIs(doc, r + 1, |doc|);
  }

  lemma NoHeaders(cfg: Settings, t: Tunnel)
    ensures forall i | 0 <= i < |Root(cfg, t)| :: !Root(cfg, t)[i].Header?
    ensures forall i | 0 <= i < |Proxy(t)| :: !Proxy(t)[i].Header?
  {
    hide Plain;
  }

  lemma PlainTomlReads(cfg: Settings, t: Tunnel)
    requires PlainFields(cfg, t)
    ensures Read(Toml(cfg, t)) == Some(Meaning(cfg, t))
  {
    LinesRead(cfg, t);
    TablesRead(cfg, t);
    NoHeaders(cfg, t);
    hide Lines, Root, Proxy, ReadDocument, ReadStatement, ReadTables, Join, SplitLines, Meaning, Plain;
    var lines, doc := Lines(cfg, t), Root(cfg, t) + [Header("proxies")] + Proxy(t);
    DocumentReads(Root(cfg, t), Proxy(t));
    SplitJoin(lines);
    StatementsOf(lines, doc);
  }

  predicate PlainFrpc(c: Frpc) {
    Plain(c.serverAddr) && Plain(c.token) && Plain(c.proxyName) && Plain(c.localIp)
  }

  lemma ReadIsPlain(text: string)
    ensures var r := Read(text); r.Some? ==> PlainFrpc(r.value)
  {
    hide Plain, Lookup, SplitLines, ReadStatements, TableEnd;
  }

  /** Round trip, and its exact condition: the file reads back as this configuration precisely when no quoted
      field holds a quote, a backslash or a control character other than tab. */
  lemma ReadToml(cfg: Settings, t: Tunnel)
    ensures Read(Toml(cfg, t)) == Some(Meaning(cfg, t)) <==> PlainFields(cfg, t)
  {
    if PlainFields(cfg, t) {
      PlainTomlReads(cfg, t);
    }
    hide Toml, Read, Plain;
    ReadIsPlain(Toml(cfg, t));
  }

  /** Configurations with such fields print alike only when they are the same configuration. */
  lemma TomlInjective(cfg: Settings, t: Tunnel, cfg': Settings, t': Tunnel)
    requires PlainFields(cfg, t) && PlainFields(cfg', t')
    ensures Toml(cfg, t) == Toml(cfg', t') <==> Meaning(cfg, t) == Meaning(cfg', t')
  {
    ReadToml(cfg, t);
    ReadToml(cfg', t');
    hide Read, Plain, Render, RenderBool, Quoted, Assign, Join;
  }

  /** In every reachable state, over all interleavings, the file rendered for a device opens that device's own
      port under its own proxy name, and no other device's file is the same. */
  lemma RenderedConfigsAreOwn(cfg: Settings, steps: seq<Step>, d: string, e: string)
    requires var tunnels := RunSteps(cfg, steps).db.tunnels;
             && d in tunnels && PlainFields(cfg, tunnels[d]) && e in tunnels && PlainFields(cfg, tunnels[e])
    ensures var tunnels := RunSteps(cfg, steps).db.tunnels;
            var read := Read(Toml(cfg, tunnels[d]));
            && read.Some?
            && read.value.serverAddr == cfg.publicHost && read.value.serverPort == 7000
            && read.value.token == cfg.frpsToken
            && read.value.proxyName == "smsf-" + (if |d| <= 123 then d else d[..123]) && read.value.proxyType == "tcp"
            && Rendered(cfg, tunnels[d]).filename == read.value.proxyName + "-frpc.toml"
            && Rendered(cfg, tunnels[d]).content == Toml(cfg, tunnels[d])
            && tunnels[d].internalBaseUrl == "http://" + cfg.internalHost + ":" + Render(read.value.remotePort)
            && (Toml(cfg, tunnels[d]) == Toml(cfg, tunnels[e]) <==> d == e)
  {
    var tunnels := RunSteps(cfg, steps).db.tunnels;
    PortsAreSafe(cfg, steps);
    ReadToml(cfg, tunnels[d]);
    TomlInjective(cfg, tunnels[d], cfg, tunnels[e]);
    ShortName(d);
    hide RunSteps, Read, Toml, Plain, ProxyName, InternalBaseUrl, PublicBaseUrl;
  }
}
