/** The text of nginx upstream blocks (internal/controller/proxy_helpers.go) and a reader for it. */
module UpstreamText {
  import opened Text

  datatype UpstreamHost = UpstreamHost(hostname: string, port: nat)

  /** What one generated block says. */
  datatype Upstream = Upstream(name: string, keepalive: bool, hosts: seq<UpstreamHost>)

  const LB_SERVER_PREFIX := "xlb"

  // ---------------------------------------------------------------- printer

  function HostHashText(h: UpstreamHost): string {
    h.hostname + "-" + Decimal(h.port)
  }

  /** The text that is hashed into an upstream name. */
  function HashText(hosts: seq<UpstreamHost>): string {
    if hosts == [] then "" else HostHashText(hosts[0]) + HashText(hosts[1..])
  }

  /** `digest` stands for the hexadecimal xxhash of its argument. */
  function UpstreamName(rName: string, rNamespace: string, hosts: seq<UpstreamHost>, digest: string -> string): string {
    LB_SERVER_PREFIX + "-" + TrimSuffix(rName + "-" + rNamespace, '-') + "-" + digest(HashText(hosts))
  }

  function ServerWords(h: UpstreamHost): seq<string> {
    ["server", h.hostname + ":" + Decimal(h.port), "max_fails=3", "fail_timeout=30s"]
  }

  function BalanceDirectives(keepalive: bool): seq<seq<string>> {
    if keepalive then [KEEPALIVE, KEEPALIVE_TIMEOUT, KEEPALIVE_REQUESTS] else [LEAST_CONN]
  }

  function ServerDirectives(hosts: seq<UpstreamHost>): seq<seq<string>> {
    seq(|hosts|, i requires 0 <= i < |hosts| => ServerWords(hosts[i]))
  }

  const LEAST_CONN := ["least_conn"]
  const KEEPALIVE := ["keepalive", "32"]
  const KEEPALIVE_TIMEOUT := ["keepalive_timeout", "60s"]
  const KEEPALIVE_REQUESTS := ["keepalive_requests", "1000"]

  /** One directive line of a block: indentation, words, semicolon, newline. */
  function LineText(words: seq<string>): string {
    "    " + Join(words, " ") + ";\n"
  }

  function Lines(ds: seq<seq<string>>): string {
    if ds == [] then "" else LineText(ds[0]) + Lines(ds[1..])
  }

  function Opening(name: string): string {
    "upstream" + " " + name + " " + "{" + "\n"
  }

  function BlockText(u: Upstream): string {
    Opening(u.name) + Lines(BalanceDirectives(u.keepalive)) + "\n" + Lines(ServerDirectives(u.hosts)) + "}"
  }

  function BlockTexts(us: seq<Upstream>): seq<string> {
    seq(|us|, i requires 0 <= i < |us| => BlockText(us[i]))
  }

  lemma {:induction false} LinesAppend(ds: seq<seq<string>>, d: seq<string>)
    ensures Lines(ds + [d]) == Lines(ds) + LineText(d)
  {
    hide LineText;
    if ds == [] {
      assert Lines([d][1..]) == "";
    } else {
      LinesAppend(ds[1..], d);
      assert (ds + [d])[1..] == ds[1..] + [d];
    }
  }

  lemma ThreeLines(a: seq<string>, b: seq<string>, c: seq<string>)
    ensures Lines([a]) == LineText(a) && Lines([a, b, c]) == LineText(a) + LineText(b) + LineText(c)
  {
    hide LineText;
    LinesAppend([], a);
    LinesAppend([a], b);
    LinesAppend([a, b], c);
    assert [] + [a] == [a] && [a] + [b] == [a, b] && [a, b] + [c] == [a, b, c];
    assert Lines([]) == "";
  }

  lemma KeepaliveLines()
    ensures LineText(KEEPALIVE) + LineText(KEEPALIVE_TIMEOUT) + LineText(KEEPALIVE_REQUESTS)
            == Lines(BalanceDirectives(true))
    ensures LineText(LEAST_CONN) == Lines(BalanceDirectives(false))
  {
    hide LineText, Lines, KEEPALIVE, KEEPALIVE_TIMEOUT, KEEPALIVE_REQUESTS, LEAST_CONN;
    ThreeLines(KEEPALIVE, KEEPALIVE_TIMEOUT, KEEPALIVE_REQUESTS);
    ThreeLines(LEAST_CONN, LEAST_CONN, LEAST_CONN);
  }

  lemma {:induction false} HashTextAppend(a: seq<UpstreamHost>, h: UpstreamHost)
    ensures HashText(a + [h]) == HashText(a) + HostHashText(h)
  {
    hide HostHashText;
    if a == [] {
    } else {
      HashTextAppend(a[1..], h);
      assert (a + [h])[1..] == a[1..] + [h];
    }
  }

  /** The name loop of the source: one accumulating string. */
  method GenerateNginxUpstreamName(rName: string, rNamespace: string, hosts: seq<UpstreamHost>,
                                   digest: string -> string)
    returns (name: string)
    ensures name == UpstreamName(rName, rNamespace, hosts, digest)
    ensures rNamespace != "" && rNamespace[|rNamespace| - 1] != '-' ==>
              name == "xlb-" + rName + "-" + rNamespace + "-" + digest(HashText(hosts))
  {
    if rNamespace != "" && rNamespace[|rNamespace| - 1] != '-' {
      NameParts(rName, rNamespace, hosts, digest);
    }
    name := Join([rName, rNamespace], "-");
    assert Join([rName, rNamespace][1..], "-") == rNamespace;
    name := TrimSuffix(name, '-');
    var strHosts := "";
    for i := 0 to |hosts|
      invariant strHosts == HashText(hosts[..i])
    {
      HashTextAppend(hosts[..i], hosts[i]);
      assert hosts[..i + 1] == hosts[..i] + [hosts[i]];
      strHosts := strHosts + HostHashText(hosts[i]);
    }
    assert hosts[..|hosts|] == hosts;
    name := LB_SERVER_PREFIX + "-" + name + "-" + digest(strHosts);
  }

  /** The server loop of the source. */
  method PrintServers(hosts: seq<UpstreamHost>) returns (text: string)
    ensures text == Lines(ServerDirectives(hosts))
  {
    hide LineText, ServerWords;
    text := "";
    for i := 0 to |hosts|
      invariant text == Lines(ServerDirectives(hosts)[..i])
    {
      var ds := ServerDirectives(hosts);
      LinesAppend(ds[..i], ds[i]);
      assert ds[..i + 1] == ds[..i] + [ds[i]];
      text := text + LineText(ServerWords(hosts[i]));
    }
    assert ServerDirectives(hosts)[..|hosts|] == ServerDirectives(hosts);
  }

  /** An empty host list gives an empty name and text; any other list gives the block with exactly these servers. */
  method GenerateNginxUpstreamConfig(rName: string, rNamespace: string, hosts: seq<UpstreamHost>, keepalive: bool,
                                     digest: string -> string)
    returns (name: string, config: string)
    ensures hosts == [] ==> name == "" && config == ""
    ensures hosts != [] ==> name == UpstreamName(rName, rNamespace, hosts, digest)
                            && config == BlockText(Upstream(name, keepalive, hosts))
  {
    hide LineText, UpstreamName, Lines, Opening, ServerDirectives;
    KeepaliveLines();
    name, config := "", "";
    if |hosts| > 0 {
      name := GenerateNginxUpstreamName(rName, rNamespace, hosts, digest);
      config := Opening(name);
      if !keepalive {
        config := config + LineText(LEAST_CONN);
      }
      if keepalive {
        config := config + (LineText(KEEPALIVE) + LineText(KEEPALIVE_TIMEOUT) + LineText(KEEPALIVE_REQUESTS));
      }
      config := config + "\n";
      var servers := PrintServers(hosts);
      config := config + servers;
      config := config + "}";
    }
  }

  // ---------------------------------------------------------------- reader

  datatype Token = Word(text: string) | Semicolon | Open | Close

  predicate IsSpace(c: char) { c == ' ' || c == '\n' }
  predicate IsPunctuation(c: char) { c == ';' || c == '{' || c == '}' }
  predicate IsBreak(c: char) { IsSpace(c) || IsPunctuation(c) }

  predicate Unbroken(s: string) {
    forall i :: 0 <= i < |s| ==> !IsBreak(s[i])
  }

  /** The string reads as one word. */
  predicate Solid(s: string) {
    s != "" && Unbroken(s)
  }

  function PunctuationToken(c: char): Token
    requires IsPunctuation(c)
  {
    if c == ';' then Semicolon else if c == '{' then Open else Close
  }

  /** Length of the longest prefix without a break character. */
  function WordLength(s: string): (n: nat)
    ensures n <= |s|
  {
    if s == "" || IsBreak(s[0]) then 0 else 1 + WordLength(s[1..])
  }

  /** Words are separated by blanks; `;`, `{` and `}` stand alone. */
  function Lex(s: string): seq<Token>
    decreases |s|
  {
    if s == "" then []
    else if IsSpace(s[0]) then Lex(s[1..])
    else if IsPunctuation(s[0]) then [PunctuationToken(s[0])] + Lex(s[1..])
    else
      var n := WordLength(s);
      if n == 0 then [] else [Word(s[..n])] + Lex(s[n..])
  }

  /** The words before the first semicolon, and what follows it. */
  function ReadDirective(ts: seq<Token>): (r: Option<(seq<string>, seq<Token>)>)
    ensures r.Some? ==> |r.value.1| < |ts|
  {
    if ts == [] then None
    else match ts[0]
      case Semicolon => Some(([], ts[1..]))
      case Word(w) =>
        (match ReadDirective(ts[1..])
         case Some(p) => Some(([w] + p.0, p.1))
         case None => None)
      case _ => None
  }

  /** Directives up to the closing brace, and what follows it. */
  function ReadBody(ts: seq<Token>): (r: Option<(seq<seq<string>>, seq<Token>)>)
    ensures r.Some? ==> |r.value.1| < |ts|
    decreases |ts|
  {
    if ts == [] then None
    else if ts[0] == Close then Some(([], ts[1..]))
    else match ReadDirective(ts)
      case None => None
      case Some(d) =>
        match ReadBody(d.1)
        case None => None
        case Some(b) => Some(([d.0] + b.0, b.1))
  }

  /** A server address: the port follows the last colon. */
  function ReadAddress(w: string): Option<UpstreamHost> {
    var k := LastIndex(w, ':');
    if k < 0 || !AllDigits(w[k + 1..]) then None
    else Some(UpstreamHost(w[..k], ParseDecimal(w[k + 1..])))
  }

  /** The addresses of the `server` directives, in order. */
  function ReadServers(ds: seq<seq<string>>): Option<seq<UpstreamHost>> {
    if ds == [] then Some([])
    else match ReadServers(ds[1..])
      case None => None
      case Some(rest) =>
        if |ds[0]| < 2 || ds[0][0] != "server" then Some(rest)
        else match ReadAddress(ds[0][1])
          case None => None
          case Some(h) => Some([h] + rest)
  }

  /** A sequence of `upstream NAME { directives }` blocks. */
  function ReadBlocks(ts: seq<Token>): Option<seq<Upstream>>
    decreases |ts|
  {
    if ts == [] then Some([])
    else if |ts| < 3 || ts[0] != Word("upstream") || !ts[1].Word? || ts[2] != Open then None
    else match ReadBody(ts[3..])
      case None => None
      case Some(b) =>
        match ReadServers(b.0)
        case None => None
        case Some(hosts) =>
          match ReadBlocks(b.1)
          case None => None
          case Some(rest) =>
            Some([Upstream(ts[1].text, exists d :: d in b.0 && d != [] && d[0] == "keepalive", hosts)] + rest)
  }

  function ParseUpstreams(s: string): Option<seq<Upstream>> {
    ReadBlocks(Lex(s))
  }

  // ---------------------------------------------------------------- round trip

  predicate Readable(u: Upstream) {
    Solid(u.name) && forall h :: h in u.hosts ==> Unbroken(h.hostname)
  }

  lemma {:induction false} WordLengthOf(w: string, rest: string)
    requires forall i :: 0 <= i < |w| ==> !IsBreak(w[i])
    requires rest == "" || IsBreak(rest[0])
    ensures WordLength(w + rest) == |w|
  {
    if w == "" {
      assert w + rest == rest;
    } else {
      WordLengthOf(w[1..], rest);
      assert (w + rest)[1..] == w[1..] + rest;
    }
  }

  lemma LexWord(w: string, rest: string)
    requires Solid(w)
    requires rest == "" || IsBreak(rest[0])
    ensures Lex(w + rest) == [Word(w)] + Lex(rest)
  {
    WordLengthOf(w, rest);
    assert (w + rest)[..|w|] == w && (w + rest)[|w|..] == rest;
  }

  lemma LexSpace(s: string)
    ensures Lex(" " + s) == Lex(s) && Lex("\n" + s) == Lex(s)
  {
    assert (" " + s)[1..] == s && ("\n" + s)[1..] == s;
  }

  lemma LexIndent(s: string)
    ensures Lex("    " + s) == Lex(s)
  {
    LexSpace(s);
    LexSpace(" " + s);
    LexSpace(" " + (" " + s));
    LexSpace(" " + (" " + (" " + s)));
    assert "    " + s == " " + (" " + (" " + (" " + s)));
  }

  lemma LexPunctuation(s: string)
    ensures Lex(";" + s) == [Semicolon] + Lex(s)
    ensures Lex("{" + s) == [Open] + Lex(s)
    ensures Lex("}" + s) == [Close] + Lex(s)
  {
    assert (";" + s)[1..] == s && ("{" + s)[1..] == s && ("}" + s)[1..] == s;
  }

  function LineTokens(words: seq<string>): seq<Token> {
    seq(|words|, i requires 0 <= i < |words| => Word(words[i])) + [Semicolon]
  }

  lemma LexJoined(word: string, tail: string, rest: string)
    requires Solid(word)
    ensures Lex(word + " " + tail + ";" + rest) == [Word(word)] + Lex(tail + ";" + rest)
  {
    LexSpace(tail + ";" + rest);
    LexWord(word, " " + (tail + ";" + rest));
    FiveParts(word, " ", tail, ";", rest);
  }

  lemma FiveParts(a: string, b: string, c: string, d: string, e: string)
    ensures a + b + c + d + e == a + (b + (c + d + e))
  {
  }

  lemma LexLast(word: string, rest: string)
    requires Solid(word)
    ensures Lex(word + ";" + rest) == [Word(word), Semicolon] + Lex(rest)
  {
    LexWord(word, ";" + rest);
    LexPunctuation(rest);
    Associative(word, ";", rest);
  }

  lemma LineTokensCons(word: string, words: seq<string>, rest: seq<Token>)
    ensures LineTokens([word] + words) + rest == [Word(word)] + (LineTokens(words) + rest)
  {
  }

  lemma {:induction false} LexWords(words: seq<string>, rest: string)
    requires words != [] && forall w :: w in words ==> Solid(w)
    ensures Lex(Join(words, " ") + ";" + rest) == LineTokens(words) + Lex(rest)
  {
    hide Lex, Solid;
    if |words| == 1 {
      LexLast(words[0], rest);
    } else {
      hide LineTokens;
      LexWords(words[1..], rest);
      LexJoined(words[0], Join(words[1..], " "), rest);
      LineTokensCons(words[0], words[1..], Lex(rest));
      assert [words[0]] + words[1..] == words;
    }
  }

  lemma LexLine(words: seq<string>, rest: string)
    requires words != [] && forall w :: w in words ==> Solid(w)
    ensures Lex(LineText(words) + rest) == LineTokens(words) + Lex(rest)
  {
    hide Lex, Solid, Join, LineTokens;
    LexWords(words, "\n" + rest);
    LexSpace(rest);
    LexIndent(Join(words, " ") + ";" + ("\n" + rest));
    LineParts("    ", Join(words, " "), rest);
  }

  lemma LineParts(indent: string, joined: string, rest: string)
    ensures indent + joined + ";\n" + rest == indent + (joined + ";" + ("\n" + rest))
  {
  }

  lemma Associative(a: string, b: string, c: string)
    ensures a + b + c == a + (b + c)
  {
  }

  predicate SolidDirective(d: seq<string>) {
    d != [] && forall w :: w in d ==> Solid(w)
  }

  lemma {:induction false} LexLines(ds: seq<seq<string>>, rest: string)
    requires forall d :: d in ds ==> SolidDirective(d)
    ensures Lex(Lines(ds) + rest) == DirectiveTokens(ds) + Lex(rest)
  {
    hide Lex, LineText, LineTokens, Solid;
    if ds == [] {
      assert Lines(ds) + rest == rest;
    } else {
      assert SolidDirective(ds[0]);
      LexLines(ds[1..], rest);
      LexLine(ds[0], Lines(ds[1..]) + rest);
      Associative(LineText(ds[0]), Lines(ds[1..]), rest);
    }
  }

  lemma SolidWords(h: UpstreamHost)
    requires Unbroken(h.hostname)
    ensures SolidDirective(ServerWords(h))
  {
    var d := Decimal(h.port);
    var w := h.hostname + ":" + d;
    forall i | 0 <= i < |w| ensures !IsBreak(w[i]) {
      if i > |h.hostname| {
        assert w[i] == d[i - |h.hostname| - 1];
      }
    }
  }

  lemma SolidDirectives(u: Upstream)
    requires Readable(u)
    ensures forall d :: d in BalanceDirectives(u.keepalive) ==> SolidDirective(d)
    ensures forall d :: d in ServerDirectives(u.hosts) ==> SolidDirective(d)
  {
    hide ServerWords, Solid, Unbroken;
    SolidBalance();
    forall d | d in ServerDirectives(u.hosts) ensures SolidDirective(d) {
      var i :| 0 <= i < |u.hosts| && d == ServerWords(u.hosts[i]);
      SolidWords(u.hosts[i]);
    }
  }

  lemma SolidBalance()
    ensures SolidDirective(LEAST_CONN) && SolidDirective(KEEPALIVE)
    ensures SolidDirective(KEEPALIVE_TIMEOUT) && SolidDirective(KEEPALIVE_REQUESTS)
  {
  }

  lemma LastColon(hostname: string, tail: string)
    requires ':' !in tail
    ensures var w := hostname + ":" + tail;
            LastIndex(w, ':') == |hostname| && w[..|hostname|] == hostname && w[|hostname| + 1..] == tail
  {
    var w := hostname + ":" + tail;
    var k := LastIndex(w, ':');
    hide LastIndex;
    assert w[|hostname|] == ':' && w[|hostname| + 1..] == tail;
    assert forall i :: |hostname| < i < |w| ==> w[i] == tail[i - |hostname| - 1];
    assert forall i :: k < i < |w| ==> w[i] == w[k + 1..][i - k - 1];
  }

  lemma DecimalHasNoColon(n: nat)
    ensures ':' !in Decimal(n)
  {
  }

  lemma AddressRoundTrip(h: UpstreamHost)
    ensures ReadAddress(h.hostname + ":" + Decimal(h.port)) == Some(h)
  {
    hide LastIndex, Decimal, AllDigits;
    DecimalHasNoColon(h.port);
    LastColon(h.hostname, Decimal(h.port));
    DecimalRoundTrip(h.port);
  }

  function DirectiveTokens(ds: seq<seq<string>>): seq<Token> {
    if ds == [] then [] else LineTokens(ds[0]) + DirectiveTokens(ds[1..])
  }

  lemma {:induction false} ReadLine(words: seq<string>, rest: seq<Token>)
    ensures ReadDirective(LineTokens(words) + rest) == Some((words, rest))
  {
    var ts := LineTokens(words) + rest;
    if words == [] {
      assert ts[1..] == rest;
    } else {
      ReadLine(words[1..], rest);
      assert ts[1..] == LineTokens(words[1..]) + rest;
      assert [words[0]] + words[1..] == words;
    }
  }

  lemma {:induction false} ReadDirectives(ds: seq<seq<string>>, rest: seq<Token>)
    ensures ReadBody(DirectiveTokens(ds) + ([Close] + rest)) == Some((ds, rest))
  {
    hide LineTokens;
    var ts := DirectiveTokens(ds) + ([Close] + rest);
    if ds == [] {
      assert ts == [Close] + rest;
    } else {
      var more := DirectiveTokens(ds[1..]) + ([Close] + rest);
      assert ts == LineTokens(ds[0]) + more;
      ReadLine(ds[0], more);
      ReadDirectives(ds[1..], rest);
      assert ts[0] != Close;
      assert [ds[0]] + ds[1..] == ds;
    }
  }

  lemma {:induction false} DirectiveTokensAppend(a: seq<seq<string>>, b: seq<seq<string>>)
    ensures DirectiveTokens(a + b) == DirectiveTokens(a) + DirectiveTokens(b)
  {
    if a == [] {
      assert a + b == b;
    } else {
      DirectiveTokensAppend(a[1..], b);
      assert (a + b)[1..] == a[1..] + b;
    }
  }

  function Directives(u: Upstream): seq<seq<string>> {
    BalanceDirectives(u.keepalive) + ServerDirectives(u.hosts)
  }

  lemma LexHead(keyword: string, name: string, rest: string)
    requires Solid(keyword) && Solid(name)
    ensures Lex(keyword + " " + name + " " + "{" + "\n" + rest) == [Word(keyword), Word(name), Open] + Lex(rest)
  {
    var tail := "\n" + rest;
    LexSpace(rest);
    LexPunctuation(tail);
    LexSpace("{" + tail);
    LexWord(name, " " + ("{" + tail));
    LexSpace(name + (" " + ("{" + tail)));
    LexWord(keyword, " " + (name + (" " + ("{" + tail))));
    SevenParts(keyword, " ", name, " ", "{", "\n", rest);
  }

  lemma LexOpening(name: string, rest: string)
    requires Solid(name)
    ensures Lex(Opening(name) + rest) == [Word("upstream"), Word(name), Open] + Lex(rest)
  {
    LexHead("upstream", name, rest);
  }

  lemma SevenParts(a: string, b: string, c: string, d: string, e: string, f: string, g: string)
    ensures a + b + c + d + e + f + g == a + (b + (c + (d + (e + (f + g)))))
  {
  }

  lemma SixParts(a: string, b: string, c: string, d: string, e: string, f: string)
    ensures a + b + c + d + e + f == a + (b + (c + (d + (e + f))))
  {
  }

  lemma BlockIsParts(u: Upstream, rest: string)
    ensures BlockText(u) + rest
         == Opening(u.name)
            + (Lines(BalanceDirectives(u.keepalive)) + ("\n" + (Lines(ServerDirectives(u.hosts)) + ("}" + rest))))
  {
    hide Opening, Lines, BalanceDirectives, ServerDirectives;
    SixParts(Opening(u.name), Lines(BalanceDirectives(u.keepalive)), "\n", Lines(ServerDirectives(u.hosts)), "}", rest);
  }

  lemma LexBlock(u: Upstream, rest: string)
    requires Readable(u)
    ensures Lex(BlockText(u) + rest)
         == [Word("upstream"), Word(u.name), Open] + DirectiveTokens(Directives(u)) + ([Close] + Lex(rest))
  {
    hide Lex, Opening, Lines, BalanceDirectives, ServerDirectives, BlockText, Solid, DirectiveTokens;
    var balance, servers := BalanceDirectives(u.keepalive), ServerDirectives(u.hosts);
    var closing := "}" + rest;
    SolidDirectives(u);
    BlockIsParts(u, rest);
    LexPunctuation(rest);
    LexLines(servers, closing);
    LexSpace(Lines(servers) + closing);
    LexLines(balance, "\n" + (Lines(servers) + closing));
    LexOpening(u.name, Lines(balance) + ("\n" + (Lines(servers) + closing)));
    DirectiveTokensAppend(balance, servers);
  }

  lemma ReadServerWords(h: UpstreamHost)
    ensures var ws := ServerWords(h); |ws| >= 2 && ws[0] == "server" && ReadAddress(ws[1]) == Some(h)
  {
    AddressRoundTrip(h);
  }

  lemma {:induction false} ReadServerDirectives(hosts: seq<UpstreamHost>)
    ensures ReadServers(ServerDirectives(hosts)) == Some(hosts)
  {
    hide ServerWords, ReadAddress;
    if hosts == [] {
    } else {
      ReadServerDirectives(hosts[1..]);
      assert ServerDirectives(hosts)[1..] == ServerDirectives(hosts[1..]);
      ReadServerWords(hosts[0]);
      assert [hosts[0]] + hosts[1..] == hosts;
    }
  }

  lemma {:induction false} ReadServersSkips(a: seq<seq<string>>, b: seq<seq<string>>)
    requires forall d :: d in a ==> d != [] && d[0] != "server"
    ensures ReadServers(a + b) == ReadServers(b)
  {
    if a == [] {
      assert a + b == b;
    } else {
      assert forall d :: d in a[1..] ==> d in a;
      assert a[0] in a;
      ReadServersSkips(a[1..], b);
      assert (a + b)[1..] == a[1..] + b;
    }
  }

  lemma ReadBlockDirectives(u: Upstream)
    ensures ReadServers(Directives(u)) == Some(u.hosts)
    ensures (exists d :: d in Directives(u) && d != [] && d[0] == "keepalive") <==> u.keepalive
  {
    ReadServerDirectives(u.hosts);
    ReadServersSkips(BalanceDirectives(u.keepalive), ServerDirectives(u.hosts));
    if u.keepalive {
      assert Directives(u)[0] == KEEPALIVE;
    } else {
      forall d | d in Directives(u) ensures d != [] && d[0] != "keepalive" {
        assert d in BalanceDirectives(false) || d in ServerDirectives(u.hosts);
      }
    }
  }

  lemma ReadBlockOf(name: string, ds: seq<seq<string>>, rest: seq<Token>)
    ensures ReadBlocks([Word("upstream"), Word(name), Open] + DirectiveTokens(ds) + ([Close] + rest))
         == (match ReadServers(ds) case None => None case Some(hosts) =>
             match ReadBlocks(rest) case None => None case Some(us) =>
             Some([Upstream(name, exists d :: d in ds && d != [] && d[0] == "keepalive", hosts)] + us))
  {
    hide DirectiveTokens, ReadServers, ReadBody;
    var ts := [Word("upstream"), Word(name), Open] + DirectiveTokens(ds) + ([Close] + rest);
    assert ts[3..] == DirectiveTokens(ds) + ([Close] + rest);
    ReadDirectives(ds, rest);
  }

  lemma ReadOneBlock(u: Upstream, rest: seq<Token>)
    ensures ReadBlocks([Word("upstream"), Word(u.name), Open] + DirectiveTokens(Directives(u)) + ([Close] + rest))
         == (match ReadBlocks(rest) case None => None case Some(us) => Some([u] + us))
  {
    hide Directives, DirectiveTokens, ReadServers, ReadBlocks;
    ReadBlockOf(u.name, Directives(u), rest);
    ReadBlockDirectives(u);
  }

  /** Reading the merged text gives the printed blocks back, in order. */
  lemma {:induction false} PrintParse(us: seq<Upstream>)
    requires forall u :: u in us ==> Readable(u)
    ensures ParseUpstreams(Join(BlockTexts(us), "\n")) == Some(us)
  {
    hide BlockText, Directives, Readable;
    if us == [] {
      assert BlockTexts(us) == [];
    } else {
      var rest := if |us| == 1 then "" else "\n" + Join(BlockTexts(us[1..]), "\n");
      assert BlockTexts(us)[1..] == BlockTexts(us[1..]);
      assert Join(BlockTexts(us), "\n") == BlockText(us[0]) + rest;
      PrintParse(us[1..]);
      if |us| == 1 {
        assert us[1..] == [];
        assert BlockTexts([]) == [];
      }
      LexSpace(Join(BlockTexts(us[1..]), "\n"));
      assert Lex(rest) == Lex(Join(BlockTexts(us[1..]), "\n"));
      LexBlock(us[0], rest);
      ReadOneBlock(us[0], Lex(rest));
      assert [us[0]] + us[1..] == us;
    }
  }

  // ---------------------------------------------------------------- what the hashed text determines

  /** One shared port and no '-' in a host name: the shape a NodePort service gives. */
  predicate SharedPort(hosts: seq<UpstreamHost>, port: nat) {
    forall h :: h in hosts ==> h.port == port && '-' !in h.hostname
  }

  lemma {:induction false} HashTextTail(hosts: seq<UpstreamHost>, port: nat)
    requires hosts != [] && SharedPort(hosts, port)
    ensures exists head :: HashText(hosts) == head + "-" + Decimal(port)
  {
    if |hosts| == 1 {
      assert HashText(hosts[1..]) == "";
      assert HashText(hosts) == hosts[0].hostname + "-" + Decimal(port);
    } else {
      HashTextTail(hosts[1..], port);
      var head :| HashText(hosts[1..]) == head + "-" + Decimal(port);
      assert HashText(hosts) == (HostHashText(hosts[0]) + head) + "-" + Decimal(port);
    }
  }

  lemma DashTail(a: string, m: string, b: string, n: string)
    requires a + "-" + m == b + "-" + n
    requires '-' !in m && '-' !in n
    ensures a == b && m == n
  {
    var s := a + "-" + m;
    assert s[|a|] == '-' && s[|b|] == '-';
    assert forall i :: |a| < i < |s| ==> s[i] == m[i - |a| - 1];
    assert forall i :: |b| < i < |s| ==> s[i] == n[i - |b| - 1];
    assert a == s[..|a|] && b == s[..|b|] && m == s[|a| + 1..] && n == s[|b| + 1..];
  }

  lemma DashHead(a: string, m: string, b: string, n: string)
    requires a + "-" + m == b + "-" + n
    requires '-' !in a && '-' !in b
    ensures a == b && m == n
  {
    var s := a + "-" + m;
    assert s[|a|] == '-' && s[|b|] == '-';
    assert forall i :: 0 <= i < |a| ==> s[i] == a[i];
    assert forall i :: 0 <= i < |b| ==> s[i] == b[i];
    assert a == s[..|a|] && b == s[..|b|] && m == s[|a| + 1..] && n == s[|b| + 1..];
  }

  lemma {:induction false} HashTextInjectiveAtPort(xs: seq<UpstreamHost>, ys: seq<UpstreamHost>, port: nat)
    requires SharedPort(xs, port) && SharedPort(ys, port)
    requires HashText(xs) == HashText(ys)
    ensures xs == ys
  {
    assert (xs != [] ==> |HashText(xs)| > 0) && (ys != [] ==> |HashText(ys)| > 0);
    if xs != [] && ys != [] {
      var d := Decimal(port);
      assert HashText(xs) == xs[0].hostname + "-" + (d + HashText(xs[1..]));
      assert HashText(ys) == ys[0].hostname + "-" + (d + HashText(ys[1..]));
      DashHead(xs[0].hostname, d + HashText(xs[1..]), ys[0].hostname, d + HashText(ys[1..]));
      assert HashText(xs[1..]) == (d + HashText(xs[1..]))[|d|..] == (d + HashText(ys[1..]))[|d|..] == HashText(ys[1..]);
      HashTextInjectiveAtPort(xs[1..], ys[1..], port);
      assert xs == [xs[0]] + xs[1..] && ys == [ys[0]] + ys[1..];
    }
  }

  lemma DecimalHasNoDash(n: nat)
    ensures '-' !in Decimal(n)
  {
  }

  /** The hashed text determines a list with one shared port and no '-' in its host names, port included. */
  lemma HashTextInjective(xs: seq<UpstreamHost>, p: nat, ys: seq<UpstreamHost>, q: nat)
    requires SharedPort(xs, p) && SharedPort(ys, q)
    requires HashText(xs) == HashText(ys)
    ensures xs == ys
  {
    assert (xs != [] ==> |HashText(xs)| > 0) && (ys != [] ==> |HashText(ys)| > 0);
    if xs != [] && ys != [] {
      HashTextTail(xs, p);
      HashTextTail(ys, q);
      var a :| HashText(xs) == a + "-" + Decimal(p);
      var b :| HashText(ys) == b + "-" + Decimal(q);
      DecimalHasNoDash(p);
      DecimalHasNoDash(q);
      DashTail(a, Decimal(p), b, Decimal(q));
      DecimalRoundTrip(p);
      DecimalRoundTrip(q);
      HashTextInjectiveAtPort(xs, ys, p);
    }
  }

  /** Without the shared port two different target lists can give the same text, hence the same upstream name. */
  lemma HashTextCollides()
    ensures var xs := [UpstreamHost("a.com", 8), UpstreamHost("0b.com", 1)];
            var ys := [UpstreamHost("a.com", 80), UpstreamHost("b.com", 1)];
            xs != ys && HashText(xs) == HashText(ys)
  {
    var xs := [UpstreamHost("a.com", 8), UpstreamHost("0b.com", 1)];
    var ys := [UpstreamHost("a.com", 80), UpstreamHost("b.com", 1)];
    assert Decimal(80) == Decimal(8) + "0";
    assert HashText(xs[1..]) == "0b.com-" + Decimal(1) && HashText(ys[1..]) == "b.com-" + Decimal(1);
    assert HashText(xs) == "a.com-" + Decimal(8) + ("0b.com-" + Decimal(1));
    assert HashText(ys) == "a.com-" + (Decimal(8) + "0") + ("b.com-" + Decimal(1));
    assert xs[0] != ys[0];
  }

  // ---------------------------------------------------------------- which lists are determined by their text

  /** Some '-' is directly followed by a digit: the text reads as the end of one target and the start of the next. */
  predicate DashDigit(s: string) {
    exists i :: 0 <= i < |s| - 1 && s[i] == '-' && '0' <= s[i + 1] <= '9'
  }

  /** A target ends where a '-' is followed by its port. */
  lemma DashAt(h: UpstreamHost, rest: string)
    ensures var s := HostHashText(h) + rest;
            |h.hostname| + 1 < |s| && s[|h.hostname|] == '-' && '0' <= s[|h.hostname| + 1] <= '9'
  {
    var s := HostHashText(h) + rest;
    assert s[|h.hostname| + 1] == Decimal(h.port)[0];
  }

  /** In the text of one target without such a place, only the last '-' is followed by a digit. */
  lemma OnlyDash(h: UpstreamHost, i: nat)
    requires !DashDigit(h.hostname)
    requires var s := HostHashText(h); i + 1 < |s| && s[i] == '-' && '0' <= s[i + 1] <= '9'
    ensures i == |h.hostname|
  {
    var s, d := HostHashText(h), Decimal(h.port);
    assert s[|h.hostname|] == '-';
    assert forall k :: 0 <= k < |h.hostname| ==> s[k] == h.hostname[k];
    assert forall k :: |h.hostname| < k < |s| ==> s[k] == d[k - |h.hostname| - 1];
  }

  lemma TextOfOne(h: UpstreamHost)
    ensures HashText([h]) == HostHashText(h)
  {
    assert [h][1..] == [];
    assert HashText([]) == "";
  }

  /** No other list has the text of a single target without such a place. */
  lemma SingleIsDetermined(h: UpstreamHost, ys: seq<UpstreamHost>)
    requires !DashDigit(h.hostname) && HashText(ys) == HashText([h])
    ensures ys == [h]
  {
    hide HostHashText, DashDigit, Decimal;
    TextOfOne(h);
    DashAt(h, "");
    assert HostHashText(h) + "" == HostHashText(h);
    var y, rest := ys[0], HashText(ys[1..]);
    DashAt(y, rest);
    OnlyDash(h, |y.hostname|);
    SameHead(h, y, rest);
    NoDashInPort(h.port, y.port, rest);
    TextHasDash(ys[1..]);
    assert ys == [y] + ys[1..];
  }

  lemma TextHasDash(ys: seq<UpstreamHost>)
    ensures ys != [] ==> '-' in HashText(ys)
  {
    if ys != [] {
      DashAt(ys[0], HashText(ys[1..]));
    }
  }

  lemma SameHead(h: UpstreamHost, y: UpstreamHost, rest: string)
    requires HostHashText(y) + rest == HostHashText(h) && |y.hostname| == |h.hostname|
    ensures y.hostname == h.hostname && Decimal(y.port) + rest == Decimal(h.port)
    ensures rest == "" ==> y == h
  {
    var s, n := HostHashText(h), |h.hostname|;
    assert y.hostname == s[..n] == h.hostname;
    assert Decimal(y.port) + rest == s[n + 1..] == Decimal(h.port);
    DecimalRoundTrip(y.port);
    DecimalRoundTrip(h.port);
    if rest == "" {
      assert Decimal(y.port) == Decimal(h.port);
    }
  }

  lemma NoDashInPort(port: nat, part: nat, rest: string)
    requires Decimal(part) + rest == Decimal(port)
    ensures '-' !in rest
  {
    assert forall i :: 0 <= i < |rest| ==> rest[i] == Decimal(port)[|Decimal(part)| + i];
  }

  /** Read as one target, any text of two or more gives a second list. */
  lemma ManyAreAmbiguous(xs: seq<UpstreamHost>) returns (ys: seq<UpstreamHost>)
    requires |xs| >= 2
    ensures HashText(ys) == HashText(xs) && ys != xs
  {
    var last := xs[|xs| - 1];
    var front := HashText(xs[..|xs| - 1]);
    assert xs == xs[..|xs| - 1] + [last];
    HashTextAppend(xs[..|xs| - 1], last);
    var y := UpstreamHost(front + last.hostname, last.port);
    TextOfOne(y);
    ys := [y];
    assert HostHashText(y) == front + HostHashText(last);
  }

  /** A host name with such a place splits into two targets. */
  lemma DashDigitIsAmbiguous(h: UpstreamHost) returns (ys: seq<UpstreamHost>)
    requires DashDigit(h.hostname)
    ensures HashText(ys) == HashText([h]) && ys != [h]
  {
    var i :| 0 <= i < |h.hostname| - 1 && h.hostname[i] == '-' && '0' <= h.hostname[i + 1] <= '9';
    var digit := h.hostname[i + 1] as int - '0' as int;
    var a, b := UpstreamHost(h.hostname[..i], digit), UpstreamHost(h.hostname[i + 2..], h.port);
    ys := [a, b];
    TextOfOne(h);
    TextOfOne(b);
    assert ys[1..] == [b];
    assert Decimal(digit) == [h.hostname[i + 1]];
    assert h.hostname == h.hostname[..i] + "-" + [h.hostname[i + 1]] + h.hostname[i + 2..];
  }

  /** The exact limit: the hashed text determines a list, among all lists, if and only if the list is empty or one
      target whose host name has no '-' directly before a digit. */
  lemma HashTextDetermines(xs: seq<UpstreamHost>)
    ensures (forall ys :: HashText(ys) == HashText(xs) ==> ys == xs)
            <==> xs == [] || (|xs| == 1 && !DashDigit(xs[0].hostname))
  {
    hide HashText, DashDigit;
    if |xs| >= 2 {
      var ys := ManyAreAmbiguous(xs);
    } else if |xs| == 1 {
      assert xs == [xs[0]];
      if DashDigit(xs[0].hostname) {
        var ys := DashDigitIsAmbiguous(xs[0]);
      } else {
        forall ys | HashText(ys) == HashText(xs) ensures ys == xs {
          SingleIsDetermined(xs[0], ys);
        }
      }
    } else {
      forall ys | HashText(ys) == HashText(xs) ensures ys == xs {
        EmptyIsDetermined(ys);
      }
    }
  }

  lemma EmptyIsDetermined(ys: seq<UpstreamHost>)
    requires HashText(ys) == HashText([])
    ensures ys == []
  {
    TextHasDash(ys);
    assert HashText([]) == "";
  }

  // ---------------------------------------------------------------- what a name tells

  /** A name consists of prefix, resource and digest; Kubernetes names are not empty and do not end in '-'. */
  lemma NameParts(rName: string, rNamespace: string, hosts: seq<UpstreamHost>, digest: string -> string)
    requires rNamespace != "" && rNamespace[|rNamespace| - 1] != '-'
    ensures UpstreamName(rName, rNamespace, hosts, digest)
            == "xlb-" + rName + "-" + rNamespace + "-" + digest(HashText(hosts))
  {
    hide HashText;
    assert "xlb-" == "xlb" + "-";
  }

  /** The digest gives these two texts different values if they differ. */
  predicate Separates(digest: string -> string, a: string, b: string) {
    digest(a) == digest(b) ==> a == b
  }

  /** Two target lists of one resource have one name exactly when they have one hashed text. */
  lemma NamesSeparate(rName: string, rNamespace: string, xs: seq<UpstreamHost>, ys: seq<UpstreamHost>,
                      digest: string -> string)
    requires Separates(digest, HashText(xs), HashText(ys))
    ensures UpstreamName(rName, rNamespace, xs, digest) == UpstreamName(rName, rNamespace, ys, digest)
            <==> HashText(xs) == HashText(ys)
  {
    hide HashText, TrimSuffix;
    var head := LB_SERVER_PREFIX + "-" + TrimSuffix(rName + "-" + rNamespace, '-') + "-";
    var a, b := digest(HashText(xs)), digest(HashText(ys));
    assert (head + a)[|head|..] == a && (head + b)[|head|..] == b;
  }

  /** So two lists of the shape a NodePort service gives have one name exactly when they are equal. */
  lemma NamesTellTargets(rName: string, rNamespace: string, xs: seq<UpstreamHost>, p: nat,
                         ys: seq<UpstreamHost>, q: nat, digest: string -> string)
    requires SharedPort(xs, p) && SharedPort(ys, q) && Separates(digest, HashText(xs), HashText(ys))
    ensures UpstreamName(rName, rNamespace, xs, digest) == UpstreamName(rName, rNamespace, ys, digest) <==> xs == ys
  {
    hide HashText, UpstreamName, SharedPort;
    NamesSeparate(rName, rNamespace, xs, ys, digest);
    if HashText(xs) == HashText(ys) {
      HashTextInjective(xs, p, ys, q);
    }
  }

  // ---------------------------------------------------------------- the text itself

  function ServerLines(hosts: seq<UpstreamHost>): string {
    if hosts == [] then ""
    else "    server " + hosts[0].hostname + ":" + Decimal(hosts[0].port) + " max_fails=3 fail_timeout=30s;\n"
         + ServerLines(hosts[1..])
  }

  /** A block character by character. */
  lemma BlockTextIs(u: Upstream)
    ensures BlockText(u)
            == "upstream " + u.name + " {\n"
               + (if u.keepalive
                  then "    keepalive 32;\n" + "    keepalive_timeout 60s;\n" + "    keepalive_requests 1000;\n"
                  else "    least_conn;\n")
               + "\n" + ServerLines(u.hosts) + "}"
  {
    hide LineText, Lines;
    OpeningText(u.name);
    BalanceText();
    ServersText(u.hosts);
  }

  lemma OpeningText(name: string)
    ensures Opening(name) == "upstream " + name + " {\n"
  {
  }

  lemma BalanceText()
    ensures Lines(BalanceDirectives(true))
            == "    keepalive 32;\n" + "    keepalive_timeout 60s;\n" + "    keepalive_requests 1000;\n"
    ensures Lines(BalanceDirectives(false)) == "    least_conn;\n"
  {
    hide Lines, LineText;
    KeepaliveLines();
    KeepaliveText();
    TimeoutText();
    RequestsText();
    LeastConnText();
  }

  lemma LeastConnText()
    ensures LineText(LEAST_CONN) == "    least_conn;\n"
  {
  }

  lemma KeepaliveText()
    ensures LineText(KEEPALIVE) == "    keepalive 32;\n"
  {
    TwoWords("    ", "keepalive", " ", "32", ";\n");
  }

  lemma TimeoutText()
    ensures LineText(KEEPALIVE_TIMEOUT) == "    keepalive_timeout 60s;\n"
  {
    TwoWords("    ", "keepalive_timeout", " ", "60s", ";\n");
  }

  lemma RequestsText()
    ensures LineText(KEEPALIVE_REQUESTS) == "    keepalive_requests 1000;\n"
  {
    TwoWords("    ", "keepalive_requests", " ", "1000", ";\n");
  }

  lemma TwoWords(indent: string, a: string, sep: string, b: string, end: string)
    ensures indent + Join([a, b], sep) + end == indent + a + sep + b + end
  {
    assert [a, b][1..] == [b];
  }

  /** Concatenation is associative; the parts are variables, so no literal is unfolded. */
  lemma FourJoined(sep: string, a: string, b: string, c: string, d: string)
    ensures Join([a, b, c, d], sep) == a + sep + b + sep + c + sep + d
  {
    assert [a, b, c, d][1..] == [b, c, d] && [b, c, d][1..] == [c, d] && [c, d][1..] == [d];
    assert Join([c, d], sep) == c + sep + d;
    assert Join([b, c, d], sep) == b + sep + (c + sep + d);
    assert Join([a, b, c, d], sep) == a + sep + (b + sep + (c + sep + d));
  }

  lemma ServerText(h: UpstreamHost)
    ensures LineText(ServerWords(h))
            == "    server " + h.hostname + ":" + Decimal(h.port) + " max_fails=3 fail_timeout=30s;\n"
  {
    hide Decimal, Join;
    var address := h.hostname + ":" + Decimal(h.port);
    FourJoined(" ", "server", address, "max_fails=3", "fail_timeout=30s");
    assert "    " + "server" + " " == "    server ";
    assert " " + "max_fails=3" + " " + "fail_timeout=30s" + ";\n" == " max_fails=3 fail_timeout=30s;\n";
    LineAround("    ", "server", " ", h.hostname, ":", Decimal(h.port), "max_fails=3", "fail_timeout=30s", ";\n");
  }

  lemma LineAround(indent: string, word: string, sep: string, name: string, colon: string, port: string,
                   b: string, c: string, end: string)
    ensures indent + (word + sep + (name + colon + port) + sep + b + sep + c) + end
            == (indent + word + sep) + name + colon + port + (sep + b + sep + c + end)
  {
  }

  lemma {:induction false} ServersText(hosts: seq<UpstreamHost>)
    ensures Lines(ServerDirectives(hosts)) == ServerLines(hosts)
  {
    hide LineText, ServerWords, Decimal;
    if hosts != [] {
      assert ServerDirectives(hosts)[1..] == ServerDirectives(hosts[1..]);
      ServerText(hosts[0]);
      ServersText(hosts[1..]);
    }
  }
}
