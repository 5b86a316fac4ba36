/** The web proxy over SSH (web_proxy.go): each local HTTP request is
    replayed on the remote host by a `curl` command run in an SSH session,
    and curl's output is cut back into headers and body.

    The SSH session and the remote command's output are parameters; the
    local HTTP server and its goroutine are outside the model. Header maps
    are ordered lists of a key and its values, in the order Go's map
    iteration happened to give them. */
module WebProxy {
  import opened Outcome
  import opened Text

  const SessionNotFound := "session not found"

  /** What a started proxy forwards to. */
  datatype Handler = Handler(remoteHost: string, remotePort: int)

  /** `StartWebProxy`: the session must exist; an empty remote host means
      "localhost"; the proxy is named after its local port. */
  function StartWebProxy(live: set<string>, sessionId: string, localPort: int, remoteHost: string, remotePort: int)
    : (r: Result<(string, Handler)>)
    ensures sessionId !in live <==> r == Err(SessionNotFound)
    ensures r.Ok? ==> (r.value.1.remoteHost == (if remoteHost == "" then "localhost" else remoteHost)
                       && r.value.1.remotePort == remotePort)
  {
    if sessionId !in live then Err(SessionNotFound)
    else Ok(("webproxy-" + IntToString(localPort), Handler(if remoteHost == "" then "localhost" else remoteHost, remotePort)))
  }

  /** The proxy id names its local port: reading the number back after
      "webproxy-" gives the port. */
  lemma ProxyIdNamesPort(live: set<string>, sessionId: string, localPort: nat, remoteHost: string, remotePort: int)
    requires sessionId in live
    ensures var id := StartWebProxy(live, sessionId, localPort, remoteHost, remotePort).value.0;
      HasPrefix(id, "webproxy-") && ParseNat(id[9..]) == localPort
  {
    var id := "webproxy-" + IntToString(localPort);
    assert id[9..] == NatToString(localPort);
    ParseNatToString(localPort);
  }

  /** The URL a request is replayed to. */
  function TargetUrl(h: Handler, requestUri: string): string {
    "http://" + h.remoteHost + ":" + IntToString(h.remotePort) + requestUri
  }

  // ---------------------------------------------------------------------
  // How a POSIX shell reads words (enough of it for the curl command)
  // ---------------------------------------------------------------------

  /** Reads one word of a command line: outside quotes a space ends the
      word, a single quote opens a quoted run and a backslash takes the
      next character as it is; inside quotes everything up to the next
      single quote is taken as it is. Gives the word and the text after
      the space that ended it, or nothing for an unterminated quote or a
      trailing backslash. */
  function Scan(s: string, quoted: bool, acc: string): (r: Option<(string, string)>)
    ensures r.Some? && s == [] ==> r.value.1 == []
    ensures r.Some? && s != [] ==> |r.value.1| < |s|
    decreases |s|
  {
    if s == [] then (if quoted then None else Some((acc, [])))
    else if quoted then
      (if s[0] == '\'' then Scan(s[1..], false, acc) else Scan(s[1..], true, acc + [s[0]]))
    else if s[0] == ' ' then Some((acc, s[1..]))
    else if s[0] == '\'' then Scan(s[1..], true, acc)
    else if s[0] == '\\' then (if |s| < 2 then None else Scan(s[2..], false, acc + [s[1]]))
    else Scan(s[1..], false, acc + [s[0]])
  }

  /** The words of a command line, one space between words. */
  function Words(s: string): Option<seq<string>>
    decreases |s|
  {
    if s == [] then Some([])
    else match Scan(s, false, [])
      case None => None
      case Some((w, rest)) =>
        match Words(rest)
        case None => None
        case Some(ws) => Some([w] + ws)
  }

  /** Words in front of what the rest of a command line reads as. */
  function Prepend(ws: seq<string>, rest: Option<seq<string>>): Option<seq<string>> {
    if rest.Some? then Some(ws + rest.value) else None
  }

  /** A word the shell reads as it is written. */
  predicate Plain(w: string) {
    w != [] && ' ' !in w && '\'' !in w && '\\' !in w
  }

  /** Every single quote becomes `'\''`: close the quoted run, an escaped
      quote, open a new run. */
  function EscapeQuotes(s: string): string {
    if s == [] then [] else (if s[0] == '\'' then "'\\''" else [s[0]]) + EscapeQuotes(s[1..])
  }

  /** How the command quotes an argument: as written, by wrapping it in
      single quotes; escaped, by also escaping the quotes inside it. */
  datatype Quoting = AsWritten | Escaped

  function Quote(q: Quoting, s: string): string {
    if q == AsWritten then "'" + s + "'" else "'" + EscapeQuotes(s) + "'"
  }

  /** The method as the command writes it: bare as written, quoted escaped. */
  function MethodWord(q: Quoting, m: string): string {
    if q == AsWritten then m else Quote(q, m)
  }

  lemma {:induction false} ScanPlain(w: string, tail: string, acc: string)
    requires ' ' !in w && '\'' !in w && '\\' !in w
    ensures Scan(w + tail, false, acc) == Scan(tail, false, acc + w)
    decreases |w|
  {
    if w == [] {
      assert w + tail == tail;
      assert acc + w == acc;
    } else {
      assert (w + tail)[1..] == w[1..] + tail;
      ScanPlain(w[1..], tail, acc + [w[0]]);
      assert acc + [w[0]] + w[1..] == acc + w;
    }
  }

  lemma {:induction false} ScanEscaped(v: string, tail: string, acc: string)
    ensures Scan(EscapeQuotes(v) + tail, true, acc) == Scan(tail, true, acc + v)
    decreases |v|
  {
    if v == [] {
      assert EscapeQuotes(v) + tail == tail;
      assert acc + v == acc;
    } else {
      var x := EscapeQuotes(v[1..]) + tail;
      ScanEscaped(v[1..], tail, acc + [v[0]]);
      assert acc + [v[0]] + v[1..] == acc + v;
      if v[0] == '\'' {
        assert EscapeQuotes(v) + tail == "'\\''" + x;
        ScanEscapedQuote(x, acc);
      } else {
        var s := [v[0]] + x;
        assert EscapeQuotes(v) + tail == s;
        assert s[1..] == x;
      }
    }
  }

  lemma ScanEscapedQuote(x: string, acc: string)
    ensures Scan("'\\''" + x, true, acc) == Scan(x, true, acc + "'")
  {
    var s := "'\\''" + x;
    var s1 := s[1..];
    assert s1 == "\\''" + x;
    assert s1[0] == '\\' && s1[1] == '\'';
    assert s1[2..] == "'" + x;
    assert ("'" + x)[0] == '\'' && ("'" + x)[1..] == x;
    assert acc + [s1[1]] == acc + "'";
    calc {
      Scan(s, true, acc);
      Scan(s1, false, acc);
      Scan(s1[2..], false, acc + [s1[1]]);
      Scan(x, true, acc + "'");
    }
  }

  /** Concatenation is associative. */
  lemma Assoc<T>(a: seq<T>, b: seq<T>, c: seq<T>)
    ensures a + b + c == a + (b + c)
  {
  }

  /** An escaped-quoted argument reads back as the argument. */
  lemma ScanQuoted(v: string, tail: string, acc: string)
    ensures Scan(Quote(Escaped, v) + tail, false, acc) == Scan(tail, false, acc + v)
  {
    var s := Quote(Escaped, v) + tail;
    assert s == "'" + (EscapeQuotes(v) + ("'" + tail));
    assert s[1..] == EscapeQuotes(v) + ("'" + tail);
    ScanEscaped(v, "'" + tail, acc);
    assert ("'" + tail)[1..] == tail;
  }

  lemma PrependPrepend(a: seq<string>, b: seq<string>, o: Option<seq<string>>)
    ensures Prepend(a, Prepend(b, o)) == Prepend(a + b, o)
  {
    if o.Some? {
      assert a + (b + o.value) == a + b + o.value;
    }
  }

  lemma PrependNil(o: Option<seq<string>>)
    ensures Prepend([], o) == o
  {
    if o.Some? {
      assert [] + o.value == o.value;
    }
  }

  lemma WordsPlain(w: string, rest: string)
    requires Plain(w)
    ensures Words(w + (" " + rest)) == Prepend([w], Words(rest))
  {
    var s := w + (" " + rest);
    ScanPlain(w, " " + rest, []);
    assert [] + w == w;
    assert (" " + rest)[1..] == rest;
    assert Scan(s, false, []) == Some((w, rest));
  }

  lemma WordsQuoted(v: string, rest: string)
    ensures Words(Quote(Escaped, v) + (" " + rest)) == Prepend([v], Words(rest))
  {
    var s := Quote(Escaped, v) + (" " + rest);
    ScanQuoted(v, " " + rest, []);
    assert [] + v == v;
    assert (" " + rest)[1..] == rest;
    assert s[0] == '\'';
    assert Scan(s, false, []) == Some((v, rest));
  }

  lemma WordsLastQuoted(v: string)
    ensures Words(Quote(Escaped, v)) == Some([v])
  {
    var s := Quote(Escaped, v);
    ScanQuoted(v, [], []);
    assert s + [] == s;
    assert [] + v == v;
    assert [v] + [] == [v];
    assert s[0] == '\'';
    assert Scan(s, false, []) == Some((v, []));
  }

  // ---------------------------------------------------------------------
  // The curl command
  // ---------------------------------------------------------------------

  /** An incoming request: method, request URI, headers and body. */
  datatype Request = Request(verb: string, requestUri: string, headers: seq<(string, seq<string>)>, body: string)

  /** Headers the command leaves out. */
  predicate Skipped(key: string) {
    key == "Host" || key == "Connection" || HasPrefix(key, "Sec-")
  }

  /** Only a POST or PUT with a non-empty body sends it. */
  predicate SendsBody(r: Request) {
    (r.verb == "POST" || r.verb == "PUT") && r.body != ""
  }

  /** The `-H` option for one value of a header, unless the header is skipped. */
  function HeaderOption(q: Quoting, key: string, value: string): string {
    if Skipped(key) then "" else "-H " + Quote(q, key + ": " + value) + " "
  }

  function ValuesText(q: Quoting, key: string, values: seq<string>): string {
    if values == [] then "" else HeaderOption(q, key, values[0]) + ValuesText(q, key, values[1..])
  }

  function HeadersText(q: Quoting, headers: seq<(string, seq<string>)>): string {
    if headers == [] then "" else ValuesText(q, headers[0].0, headers[0].1) + HeadersText(q, headers[1..])
  }

  function MethodText(q: Quoting, m: string): string {
    if m != "GET" then "-X " + MethodWord(q, m) + " " else ""
  }

  function BodyText(q: Quoting, r: Request): string {
    if SendsBody(r) then "--data-binary " + Quote(q, r.body) + " " else ""
  }

  /** The command the proxy runs for a request. */
  function Command(q: Quoting, r: Request, url: string): string {
    "curl -s -i " + MethodText(q, r.verb) + HeadersText(q, r.headers) + BodyText(q, r) + Quote(q, url)
  }

  /** The arguments curl is meant to receive. */
  function HeaderArgs(key: string, value: string): seq<string> {
    if Skipped(key) then [] else ["-H", key + ": " + value]
  }

  function ValuesArgs(key: string, values: seq<string>): seq<string> {
    if values == [] then [] else HeaderArgs(key, values[0]) + ValuesArgs(key, values[1..])
  }

  function HeadersArgs(headers: seq<(string, seq<string>)>): seq<string> {
    if headers == [] then [] else ValuesArgs(headers[0].0, headers[0].1) + HeadersArgs(headers[1..])
  }

  function MethodArgs(m: string): seq<string> {
    if m != "GET" then ["-X", m] else []
  }

  function BodyArgs(r: Request): seq<string> {
    if SendsBody(r) then ["--data-binary", r.body] else []
  }

  function CurlArgs(r: Request, url: string): seq<string> {
    ["curl", "-s", "-i"] + MethodArgs(r.verb) + HeadersArgs(r.headers) + BodyArgs(r) + [url]
  }

  /** `"w " + rest`, spelled out word by word. */
  lemma SpaceAfter(w: string, rest: string)
    ensures (w + " ") + rest == w + (" " + rest)
  {
    Assoc(w, " ", rest);
  }

  lemma OptionWords(key: string, value: string, tail: string)
    ensures Words(HeaderOption(Escaped, key, value) + tail) == Prepend(HeaderArgs(key, value), Words(tail))
  {
    if Skipped(key) {
      assert HeaderOption(Escaped, key, value) + tail == tail;
      PrependNil(Words(tail));
    } else {
      var v := key + ": " + value;
      var qv := Quote(Escaped, v);
      calc {
        HeaderOption(Escaped, key, value) + tail;
        ("-H " + qv + " ") + tail;
        { Assoc("-H " + qv, " ", tail); }
        ("-H " + qv) + (" " + tail);
        { Assoc("-H ", qv, " " + tail); }
        "-H " + (qv + (" " + tail));
        { assert "-H " == "-H" + " "; SpaceAfter("-H", qv + (" " + tail)); }
        "-H" + (" " + (qv + (" " + tail)));
      }
      WordsPlain("-H", qv + (" " + tail));
      WordsQuoted(v, tail);
      PrependPrepend(["-H"], [v], Words(tail));
      assert ["-H"] + [v] == HeaderArgs(key, value);
    }
  }

  lemma {:induction false} ValuesWords(key: string, values: seq<string>, rest: string)
    ensures Words(ValuesText(Escaped, key, values) + rest) == Prepend(ValuesArgs(key, values), Words(rest))
    decreases |values|
  {
    if values == [] {
      assert ValuesText(Escaped, key, values) + rest == rest;
      PrependNil(Words(rest));
    } else {
      var tail := ValuesText(Escaped, key, values[1..]) + rest;
      ValuesWords(key, values[1..], rest);
      Assoc(HeaderOption(Escaped, key, values[0]), ValuesText(Escaped, key, values[1..]), rest);
      OptionWords(key, values[0], tail);
      PrependPrepend(HeaderArgs(key, values[0]), ValuesArgs(key, values[1..]), Words(rest));
    }
  }

  lemma {:induction false} HeadersWords(headers: seq<(string, seq<string>)>, rest: string)
    ensures Words(HeadersText(Escaped, headers) + rest) == Prepend(HeadersArgs(headers), Words(rest))
    decreases |headers|
  {
    if headers == [] {
      assert HeadersText(Escaped, headers) + rest == rest;
      PrependNil(Words(rest));
    } else {
      var tail := HeadersText(Escaped, headers[1..]) + rest;
      HeadersWords(headers[1..], rest);
      ValuesWords(headers[0].0, headers[0].1, tail);
      Assoc(ValuesText(Escaped, headers[0].0, headers[0].1), HeadersText(Escaped, headers[1..]), rest);
      PrependPrepend(ValuesArgs(headers[0].0, headers[0].1), HeadersArgs(headers[1..]), Words(rest));
    }
  }

  lemma MethodWords(m: string, rest: string)
    ensures Words(MethodText(Escaped, m) + rest) == Prepend(MethodArgs(m), Words(rest))
  {
    if m != "GET" {
      var qm := Quote(Escaped, m);
      calc {
        MethodText(Escaped, m) + rest;
        ("-X " + qm + " ") + rest;
        { Assoc("-X " + qm, " ", rest); }
        ("-X " + qm) + (" " + rest);
        { Assoc("-X ", qm, " " + rest); }
        "-X " + (qm + (" " + rest));
        { assert "-X " == "-X" + " "; SpaceAfter("-X", qm + (" " + rest)); }
        "-X" + (" " + (qm + (" " + rest)));
      }
      WordsPlain("-X", qm + (" " + rest));
      WordsQuoted(m, rest);
      PrependPrepend(["-X"], [m], Words(rest));
      assert ["-X"] + [m] == MethodArgs(m);
    } else {
      assert MethodText(Escaped, m) + rest == rest;
      PrependNil(Words(rest));
    }
  }

  lemma BodyWords(r: Request, url: string)
    ensures Words(BodyText(Escaped, r) + Quote(Escaped, url)) == Some(BodyArgs(r) + [url])
  {
    var t := Quote(Escaped, url);
    WordsLastQuoted(url);
    if SendsBody(r) {
      var qb := Quote(Escaped, r.body);
      calc {
        BodyText(Escaped, r) + t;
        ("--data-binary " + qb + " ") + t;
        { Assoc("--data-binary " + qb, " ", t); }
        ("--data-binary " + qb) + (" " + t);
        { Assoc("--data-binary ", qb, " " + t); }
        "--data-binary " + (qb + (" " + t));
        { assert "--data-binary " == "--data-binary" + " "; SpaceAfter("--data-binary", qb + (" " + t)); }
        "--data-binary" + (" " + (qb + (" " + t)));
      }
      WordsPlain("--data-binary", qb + (" " + t));
      WordsQuoted(r.body, t);
      PrependPrepend(["--data-binary"], [r.body], Words(t));
      assert ["--data-binary"] + [r.body] + [url] == BodyArgs(r) + [url];
    } else {
      assert BodyText(Escaped, r) + t == t;
      assert BodyArgs(r) + [url] == [url];
    }
  }

  /** The fixed start of the command, word by word. */
  lemma CurlStart(t: string)
    ensures "curl -s -i " + t == "curl" + (" " + ("-s" + (" " + ("-i" + (" " + t)))))
  {
    assert "curl -s -i " == "curl" + " " + "-s" + " " + "-i" + " ";
  }

  /** With escaping, the remote shell hands curl exactly the intended
      arguments, whatever the method, headers, body and URL hold. */
  lemma CommandWords(r: Request, url: string)
    ensures Words(Command(Escaped, r, url)) == Some(CurlArgs(r, url))
  {
    var c := "curl -s -i ";
    var m := MethodText(Escaped, r.verb);
    var h := HeadersText(Escaped, r.headers);
    var b := BodyText(Escaped, r);
    var t0 := b + Quote(Escaped, url);
    BodyWords(r, url);
    var t1 := h + t0;
    HeadersWords(r.headers, t0);
    var t2 := m + t1;
    MethodWords(r.verb, t1);
    calc {
      Command(Escaped, r, url);
      c + m + h + b + Quote(Escaped, url);
      { Assoc(c + m + h, b, Quote(Escaped, url)); }
      c + m + h + t0;
      { Assoc(c + m, h, t0); }
      c + m + t1;
      { Assoc(c, m, t1); }
      c + t2;
      { CurlStart(t2); }
      "curl" + (" " + ("-s" + (" " + ("-i" + (" " + t2)))));
    }
    WordsPlain("-i", t2);
    WordsPlain("-s", "-i" + (" " + t2));
    WordsPlain("curl", "-s" + (" " + ("-i" + (" " + t2))));
    var ma, ha, ba := MethodArgs(r.verb), HeadersArgs(r.headers), BodyArgs(r);
    calc {
      ["curl"] + (["-s"] + (["-i"] + (ma + (ha + (ba + [url])))));
      { assert ["curl"] + (["-s"] + ["-i"]) == ["curl", "-s", "-i"];
        Assoc(["-s"], ["-i"], ma + (ha + (ba + [url])));
        Assoc(["curl"], ["-s"] + ["-i"], ma + (ha + (ba + [url]))); }
      ["curl", "-s", "-i"] + (ma + (ha + (ba + [url])));
      { Assoc(["curl", "-s", "-i"], ma, ha + (ba + [url])); }
      ["curl", "-s", "-i"] + ma + (ha + (ba + [url]));
      { Assoc(["curl", "-s", "-i"] + ma, ha, ba + [url]); }
      ["curl", "-s", "-i"] + ma + ha + (ba + [url]);
      { Assoc(["curl", "-s", "-i"] + ma + ha, ba, [url]); }
      CurlArgs(r, url);
    }
  }

  /** A method made only of letters, digits and '-': a word every POSIX
      shell reads as it stands. (The model's `Scan` treats `|`, `&`, `;`,
      `$` and `` ` `` as ordinary characters, which a real shell does not,
      so `Plain` is not enough for a bare method.) */
  predicate Token(m: string) {
    m != [] && forall k :: 0 <= k < |m| ==> TokenChar(m[k])
  }

  predicate TokenChar(c: char) {
    ('a' <= c <= 'z') || ('A' <= c <= 'Z') || ('0' <= c <= '9') || c == '-'
  }

  /** No kept header line holds a single quote. */
  predicate ValuesQuoteFree(key: string, values: seq<string>) {
    Skipped(key) || forall j :: 0 <= j < |values| ==> '\'' !in key + ": " + values[j]
  }

  predicate HeadersQuoteFree(headers: seq<(string, seq<string>)>) {
    forall i :: 0 <= i < |headers| ==> ValuesQuoteFree(headers[i].0, headers[i].1)
  }

  /** When the bug cannot fire: the method is GET or a token, and no single
      quote appears in a kept header line, a sent body or the URL. */
  predicate AsWrittenReadable(r: Request, url: string) {
    (r.verb == "GET" || Token(r.verb))
    && HeadersQuoteFree(r.headers)
    && (SendsBody(r) ==> '\'' !in r.body)
    && '\'' !in url
  }

  lemma {:induction false} EscapeQuotesFree(s: string)
    requires '\'' !in s
    ensures EscapeQuotes(s) == s
    decreases |s|
  {
    if s != [] {
      assert '\'' !in s[1..] by {
        forall k | 0 <= k < |s[1..]| ensures s[1..][k] != '\'' {
          assert s[1..][k] == s[k + 1];
        }
      }
      EscapeQuotesFree(s[1..]);
      assert [s[0]] + s[1..] == s;
    }
  }

  /** Quoting a quote-free argument is the same with or without escaping. */
  lemma QuoteFreeSame(q: Quoting, s: string)
    requires '\'' !in s
    ensures Quote(q, s) == Quote(Escaped, s)
  {
    EscapeQuotesFree(s);
  }

  lemma {:induction false} ValuesTextSame(q: Quoting, key: string, values: seq<string>)
    requires ValuesQuoteFree(key, values)
    ensures ValuesText(q, key, values) == ValuesText(Escaped, key, values)
    decreases |values|
  {
    if values != [] {
      if !Skipped(key) {
        QuoteFreeSame(q, key + ": " + values[0]);
        assert forall j :: 0 <= j < |values[1..]| ==> values[1..][j] == values[j + 1];
      }
      ValuesTextSame(q, key, values[1..]);
    }
  }

  lemma {:induction false} HeadersTextSame(q: Quoting, headers: seq<(string, seq<string>)>)
    requires HeadersQuoteFree(headers)
    ensures HeadersText(q, headers) == HeadersText(Escaped, headers)
    decreases |headers|
  {
    if headers != [] {
      ValuesTextSame(q, headers[0].0, headers[0].1);
      assert forall i :: 0 <= i < |headers[1..]| ==> headers[1..][i] == headers[i + 1];
      HeadersTextSame(q, headers[1..]);
    }
  }

  lemma TokenPlain(m: string)
    requires Token(m)
    ensures Plain(m)
  {
    assert forall k :: 0 <= k < |m| ==> m[k] != ' ' && m[k] != '\'' && m[k] != '\\' by {
      forall k | 0 <= k < |m| ensures m[k] != ' ' && m[k] != '\'' && m[k] != '\\' {
        assert TokenChar(m[k]);
      }
    }
  }

  /** As written, when no argument holds a single quote and the method is a
      token, the remote shell hands curl exactly the intended arguments:
      the bug of the quoting fires only on those inputs. */
  lemma CommandWordsAsWritten(r: Request, url: string)
    requires AsWrittenReadable(r, url)
    ensures Words(Command(AsWritten, r, url)) == Some(CurlArgs(r, url))
  {
    HeadersTextSame(AsWritten, r.headers);
    QuoteFreeSame(AsWritten, url);
    if SendsBody(r) {
      QuoteFreeSame(AsWritten, r.body);
    }
    assert BodyText(AsWritten, r) == BodyText(Escaped, r);
    var c := "curl -s -i ";
    var h := HeadersText(Escaped, r.headers);
    var b := BodyText(Escaped, r);
    var u := Quote(Escaped, url);
    var t1 := h + (b + u);
    CommandWords(r, url);
    if r.verb == "GET" {
      assert Command(AsWritten, r, url) == Command(Escaped, r, url);
    } else {
      TokenPlain(r.verb);
      var m := MethodText(AsWritten, r.verb);
      var me := MethodText(Escaped, r.verb);
      AsWrittenMethodWords(r.verb, t1);
      MethodWords(r.verb, t1);
      SameAfterCurl(m, me, t1);
      Split5(c, m, h, b, u);
      Split5(c, me, h, b, u);
      assert Command(AsWritten, r, url) == c + m + h + b + u;
      assert Command(Escaped, r, url) == c + me + h + b + u;
    }
  }

  lemma Split5(c: string, m: string, h: string, b: string, u: string)
    ensures c + m + h + b + u == c + (m + (h + (b + u)))
  {
  }

  /** Two method texts the shell reads alike give commands it reads alike. */
  lemma SameAfterCurl(m: string, me: string, t1: string)
    requires Words(m + t1) == Words(me + t1)
    ensures Words("curl -s -i " + (m + t1)) == Words("curl -s -i " + (me + t1))
  {
    WordsCurl(m + t1);
    WordsCurl(me + t1);
  }

  lemma WordsCurl(x: string)
    ensures Words("curl -s -i " + x) == Prepend(["curl", "-s", "-i"], Words(x))
  {
    CurlStart(x);
    WordsPlain("-i", x);
    WordsPlain("-s", "-i" + (" " + x));
    WordsPlain("curl", "-s" + (" " + ("-i" + (" " + x))));
    PrependPrepend(["-s"], ["-i"], Words(x));
    PrependPrepend(["curl"], ["-s", "-i"], Words(x));
    assert ["-s"] + ["-i"] == ["-s", "-i"];
    assert ["curl"] + ["-s", "-i"] == ["curl", "-s", "-i"];
  }

  /** The text after the `--data-binary` option when the body is a single
      quote and the URL is "u", quoted as written: the shell runs out of
      text inside a quoted run. */
  lemma UnterminatedQuote()
    ensures Words("''' 'u'") == None
  {
    var s := "''' 'u'";
    assert s[1..] == "'' 'u'" && s[2..] == "' 'u'" && s[3..] == " 'u'";
    assert s[4..] == "'u'" && s[5..] == "u'" && s[6..] == "'" && s[7..] == "";
    assert [] + [' '] == " ";
    assert " " + ['u'] == " u";
    calc {
      Scan(s, false, []);
      Scan(s[1..], true, []);
      Scan(s[2..], false, []);
      Scan(s[3..], true, []);
      Scan(s[4..], true, " ");
      Scan(s[5..], false, " ");
      Scan(s[6..], false, " u");
      Scan(s[7..], true, " u");
      None;
    }
  }

  /** The body and URL of that command, quoted as written. */
  lemma AsWrittenBodyWords(r: Request)
    requires r == Request("POST", "/", [], "'")
    ensures Words(BodyText(AsWritten, r) + Quote(AsWritten, "u")) == None
  {
    AsWrittenBodyText(r);
    UnterminatedQuote();
    WordsPlain("--data-binary", "''' 'u'");
  }

  lemma AsWrittenBodyText(r: Request)
    requires r == Request("POST", "/", [], "'")
    ensures BodyText(AsWritten, r) + Quote(AsWritten, "u") == "--data-binary" + (" " + "''' 'u'")
  {
    var qu := Quote(AsWritten, "u");
    var qb := Quote(AsWritten, "'");
    assert qb == "'''" && qu == "'u'";
    assert qb + (" " + qu) == "''' 'u'";
    calc {
      BodyText(AsWritten, r) + qu;
      ("--data-binary " + qb + " ") + qu;
      { Assoc("--data-binary " + qb, " ", qu); }
      ("--data-binary " + qb) + (" " + qu);
      { Assoc("--data-binary ", qb, " " + qu); }
      "--data-binary " + (qb + (" " + qu));
      { assert "--data-binary " == "--data-binary" + " "; SpaceAfter("--data-binary", qb + (" " + qu)); }
      "--data-binary" + (" " + "''' 'u'");
    }
  }

  /** A bare method, as written, is read as it stands. */
  lemma AsWrittenMethodWords(m: string, rest: string)
    requires Plain(m) && m != "GET"
    ensures Words(MethodText(AsWritten, m) + rest) == Prepend(["-X", m], Words(rest))
  {
    calc {
      MethodText(AsWritten, m) + rest;
      ("-X " + m + " ") + rest;
      { Assoc("-X " + m, " ", rest); }
      ("-X " + m) + (" " + rest);
      { Assoc("-X ", m, " " + rest); }
      "-X " + (m + (" " + rest));
      { assert "-X " == "-X" + " "; SpaceAfter("-X", m + (" " + rest)); }
      "-X" + (" " + (m + (" " + rest)));
    }
    WordsPlain(m, rest);
    WordsPlain("-X", m + (" " + rest));
    PrependPrepend(["-X"], [m], Words(rest));
    assert ["-X"] + [m] == ["-X", m];
  }

  /** As written, a POST body holding a single quote ends the quoted run
      early, and the remote shell cannot read the command at all. */
  lemma AsWrittenQuoteBreaksCommand()
    ensures Words(Command(AsWritten, Request("POST", "/", [], "'"), "u")) == None
  {
    var r := Request("POST", "/", [], "'");
    var c := "curl -s -i ";
    var m := MethodText(AsWritten, "POST");
    var h := HeadersText(AsWritten, []);
    var b := BodyText(AsWritten, r);
    var qu := Quote(AsWritten, "u");
    var t0 := b + qu;
    AsWrittenBodyWords(r);
    var t2 := m + t0;
    AsWrittenMethodWords("POST", t0);
    assert h == "";
    calc {
      Command(AsWritten, r, "u");
      c + m + h + b + qu;
      { assert c + m + h == c + m; }
      c + m + b + qu;
      { Assoc(c + m, b, qu); }
      c + m + t0;
      { Assoc(c, m, t0); }
      c + t2;
      { CurlStart(t2); }
      "curl" + (" " + ("-s" + (" " + ("-i" + (" " + t2)))));
    }
    WordsPlain("-i", t2);
    WordsPlain("-s", "-i" + (" " + t2));
    WordsPlain("curl", "-s" + (" " + ("-i" + (" " + t2))));
  }

  /** The command builder: the fixed start, the method, one `-H` option per
      header value in the order the header map gave them, the body, then
      the URL. */
  method BuildCommand(q: Quoting, r: Request, url: string) returns (cmd: string)
    ensures cmd == Command(q, r, url)
  {
    cmd := "curl -s -i ";
    if r.verb != "GET" {
      cmd := cmd + ("-X " + MethodWord(q, r.verb) + " ");
    } else {
      assert cmd == cmd + MethodText(q, r.verb);
    }
    cmd := AppendHeaders(q, r.headers, cmd);
    if SendsBody(r) {
      cmd := cmd + ("--data-binary " + Quote(q, r.body) + " ");
    } else {
      assert cmd == cmd + BodyText(q, r);
    }
    cmd := cmd + Quote(q, url);
  }

  /** The outer header loop. */
  method AppendHeaders(q: Quoting, headers: seq<(string, seq<string>)>, start: string) returns (cmd: string)
    ensures cmd == start + HeadersText(q, headers)
  {
    cmd := start;
    var i := 0;
    assert start + HeadersText(q, headers[..0]) == start;
    while i < |headers|
      invariant 0 <= i <= |headers|
      invariant cmd == start + HeadersText(q, headers[..i])
    {
      cmd := AppendValues(q, headers[i].0, headers[i].1, cmd);
      HeadersSnoc(q, headers, i);
      Assoc(start, HeadersText(q, headers[..i]), ValuesText(q, headers[i].0, headers[i].1));
      i := i + 1;
    }
    assert headers[..i] == headers;
  }

  /** The inner loop over one header's values. */
  method AppendValues(q: Quoting, key: string, values: seq<string>, start: string) returns (cmd: string)
    ensures cmd == start + ValuesText(q, key, values)
  {
    cmd := start;
    var j := 0;
    assert start + ValuesText(q, key, values[..0]) == start;
    while j < |values|
      invariant 0 <= j <= |values|
      invariant cmd == start + ValuesText(q, key, values[..j])
    {
      ValuesSnoc(q, key, values, j);
      Assoc(start, ValuesText(q, key, values[..j]), HeaderOption(q, key, values[j]));
      if !Skipped(key) {
        cmd := cmd + ("-H " + Quote(q, key + ": " + values[j]) + " ");
      } else {
        assert cmd == cmd + HeaderOption(q, key, values[j]);
      }
      j := j + 1;
    }
    assert values[..j] == values;
  }

  lemma {:induction false} ValuesConcat(q: Quoting, key: string, a: seq<string>, b: seq<string>)
    ensures ValuesText(q, key, a + b) == ValuesText(q, key, a) + ValuesText(q, key, b)
    decreases |a|
  {
    if a == [] {
      assert a + b == b;
    } else {
      assert (a + b)[0] == a[0];
      assert (a + b)[1..] == a[1..] + b;
      ValuesConcat(q, key, a[1..], b);
    }
  }

  lemma ValuesSnoc(q: Quoting, key: string, values: seq<string>, j: nat)
    requires j < |values|
    ensures ValuesText(q, key, values[..j + 1]) == ValuesText(q, key, values[..j]) + HeaderOption(q, key, values[j])
  {
    assert values[..j + 1] == values[..j] + [values[j]];
    ValuesConcat(q, key, values[..j], [values[j]]);
    assert [values[j]][1..] == [];
  }

  lemma {:induction false} HeadersConcat(q: Quoting, a: seq<(string, seq<string>)>, b: seq<(string, seq<string>)>)
    ensures HeadersText(q, a + b) == HeadersText(q, a) + HeadersText(q, b)
    decreases |a|
  {
    if a == [] {
      assert a + b == b;
    } else {
      assert (a + b)[0] == a[0];
      assert (a + b)[1..] == a[1..] + b;
      HeadersConcat(q, a[1..], b);
    }
  }

  lemma HeadersSnoc(q: Quoting, headers: seq<(string, seq<string>)>, i: nat)
    requires i < |headers|
    ensures HeadersText(q, headers[..i + 1]) == HeadersText(q, headers[..i]) + ValuesText(q, headers[i].0, headers[i].1)
  {
    assert headers[..i + 1] == headers[..i] + [headers[i]];
    HeadersConcat(q, headers[..i], [headers[i]]);
    assert [headers[i]][1..] == [];
  }

  // ---------------------------------------------------------------------
  // Cutting curl's output into headers and body
  // ---------------------------------------------------------------------

  /** The head and body of curl's output: cut at the first blank line
      written "\r\n\r\n", else at the first "\n\n". */
  function SplitResponse(out: string): Option<(string, string)> {
    match IndexOf(out, "\r\n\r\n")
    case Some(i) => Some((out[..i], out[i + 4..]))
    case None =>
      match IndexOf(out, "\n\n")
      case Some(i) => Some((out[..i], out[i + 2..]))
      case None => None
  }

  /** Cutting at the first occurrence of `sep`: the pieces give `s` back,
      and the separator does not occur before it, not even overlapping it. */
  lemma FirstOccurrence(s: string, sep: string, i: nat)
    requires sep != []
    requires OccursAt(s, sep, i)
    requires forall j :: 0 <= j < i ==> !OccursAt(s, sep, j)
    ensures s == s[..i] + sep + s[i + |sep|..]
    ensures !Contains(s[..i] + sep[..|sep| - 1], sep)
  {
    assert s[i..i + |sep|] == sep;
    assert s == s[..i] + s[i..i + |sep|] + s[i + |sep|..];
    var pre := s[..i] + sep[..|sep| - 1];
    assert pre == s[..i + |sep| - 1];
    if Contains(pre, sep) {
      var j := IndexOf(pre, sep).value;
      assert OccursAt(pre, sep, j);
      assert pre[j..j + |sep|] == s[j..j + |sep|];
      assert OccursAt(s, sep, j);
      assert false;
    }
  }

  /** Head, separator and body give the output back; the separator is the
      first one, and "\n\n" is used only when there is no "\r\n\r\n". */
  lemma SplitResponseRoundTrip(out: string)
    ensures SplitResponse(out).None? <==> !Contains(out, "\r\n\r\n") && !Contains(out, "\n\n")
    ensures SplitResponse(out).Some? ==>
      var (head, body) := SplitResponse(out).value;
      (out == head + "\r\n\r\n" + body && !Contains(head + "\r\n\r", "\r\n\r\n"))
      || (!Contains(out, "\r\n\r\n") && out == head + "\n\n" + body && !Contains(head + "\n", "\n\n"))
  {
    match IndexOf(out, "\r\n\r\n")
    case Some(i) =>
      FirstOccurrence(out, "\r\n\r\n", i);
      assert "\r\n\r\n"[..3] == "\r\n\r";
    case None =>
      match IndexOf(out, "\n\n")
      case Some(i) =>
        FirstOccurrence(out, "\n\n", i);
        assert "\n\n"[..1] == "\n";
      case None =>
  }

  /** One header line: trimmed, and split at its first colon when that is
      not its first character. */
  function HeaderLine(line: string): Option<(string, string)> {
    var t := TrimSpace(line);
    if t == "" then None
    else match IndexOf(t, ":")
      case Some(c) => if c > 0 then Some((TrimSpace(t[..c]), TrimSpace(t[c + 1..]))) else None
      case None => None
  }

  /** A parsed header line has a non-empty key without a colon, and key and
      value carry no surrounding white space. */
  lemma HeaderLineShape(line: string)
    requires HeaderLine(line).Some?
    ensures var (k, v) := HeaderLine(line).value;
      k != "" && ':' !in k && !IsSpace(k[0]) && !IsSpace(k[|k| - 1])
      && (v == "" || (!IsSpace(v[0]) && !IsSpace(v[|v| - 1])))
  {
    var t := TrimSpace(line);
    var c := IndexOf(t, ":").value;
    assert t[..c][0] == t[0];
    TrimSpaceKeeps(t[..c]);
    ColonFreeBefore(t, c);
    SubstringFree(t[..c], TrimSpace(t[..c]), ':');
  }

  /** Trimming a string that starts with a non-space leaves something. */
  lemma TrimSpaceKeeps(s: string)
    requires s != [] && !IsSpace(s[0])
    ensures TrimSpace(s) != []
  {
    assert TrimLeft(s) == s;
  }

  lemma ColonFreeBefore(t: string, c: nat)
    requires c <= |t|
    requires forall j :: 0 <= j < c ==> !OccursAt(t, ":", j)
    ensures ':' !in t[..c]
  {
    forall j | 0 <= j < c
      ensures t[..c][j] != ':'
    {
      assert t[j..j + 1] == [t[j]];
      assert !OccursAt(t, ":", j);
    }
  }

  lemma SubstringFree(s: string, r: string, x: char)
    requires exists i, j :: 0 <= i <= j <= |s| && r == s[i..j]
    requires x !in s
    ensures x !in r
  {
    var i, j :| 0 <= i <= j <= |s| && r == s[i..j];
    assert forall k :: 0 <= k < |r| ==> r[k] == s[i + k];
  }

  /** The parsed form of each line of the head; the first line, the status
      line, sets nothing. */
  function Entries(lines: seq<string>): seq<Option<(string, string)>> {
    seq(|lines|, i requires 0 <= i < |lines| => if i == 0 then None else HeaderLine(lines[i]))
  }

  /** Setting each parsed key in turn. */
  function Assign(entries: seq<Option<(string, string)>>): map<string, string> {
    if entries == [] then map[]
    else
      var m := Assign(entries[..|entries| - 1]);
      match entries[|entries| - 1]
      case None => m
      case Some((k, v)) => m[k := v]
  }

  /** The header map of a head cut into lines. */
  function HeaderMap(lines: seq<string>): map<string, string> {
    Assign(Entries(lines))
  }

  predicate SetsKey(entries: seq<Option<(string, string)>>, i: int, k: string)
    requires 0 <= i < |entries|
  {
    entries[i].Some? && entries[i].value.0 == k
  }

  /** A key is set exactly when some entry sets it. */
  lemma {:induction false} AssignKeys(entries: seq<Option<(string, string)>>, k: string)
    ensures k in Assign(entries) <==> exists i :: 0 <= i < |entries| && SetsKey(entries, i, k)
    decreases |entries|
  {
    if entries != [] {
      var n := |entries| - 1;
      var init := entries[..n];
      AssignKeys(init, k);
      assert forall i :: 0 <= i < n ==> init[i] == entries[i];
      if k in Assign(entries) && !SetsKey(entries, n, k) {
        var i :| 0 <= i < |init| && SetsKey(init, i, k);
        assert SetsKey(entries, i, k);
      }
      if exists i :: 0 <= i < |entries| && SetsKey(entries, i, k) {
        var i :| 0 <= i < |entries| && SetsKey(entries, i, k);
        if i < n {
          assert SetsKey(init, i, k);
        }
      }
    }
  }

  /** A key holds the value of the last entry that sets it. */
  lemma {:induction false} AssignLastWins(entries: seq<Option<(string, string)>>, k: string, i: nat)
    requires i < |entries| && SetsKey(entries, i, k)
    requires forall j :: i < j < |entries| ==> !SetsKey(entries, j, k)
    ensures k in Assign(entries) && Assign(entries)[k] == entries[i].value.1
    decreases |entries|
  {
    var n := |entries| - 1;
    if i < n {
      var init := entries[..n];
      assert forall j :: 0 <= j < n ==> init[j] == entries[j];
      forall j | i < j < |init|
        ensures !SetsKey(init, j, k)
      {
        assert init[j] == entries[j];
        assert !SetsKey(entries, j, k);
      }
      AssignLastWins(init, k, i);
      assert !SetsKey(entries, n, k);
    }
  }

  predicate KeyAt(lines: seq<string>, i: int, k: string)
    requires 0 <= i < |lines|
  {
    HeaderLine(lines[i]).Some? && HeaderLine(lines[i]).value.0 == k
  }

  /** The header map holds a key exactly when a line after the status line
      carries it. */
  lemma HeaderMapKeys(lines: seq<string>, k: string)
    ensures k in HeaderMap(lines) <==> exists i :: 1 <= i < |lines| && KeyAt(lines, i, k)
  {
    var e := Entries(lines);
    AssignKeys(e, k);
    assert forall i :: 0 <= i < |lines| ==> (SetsKey(e, i, k) <==> 1 <= i && KeyAt(lines, i, k));
  }

  /** The last line carrying a key gives its value. */
  lemma HeaderMapLastWins(lines: seq<string>, k: string, i: nat)
    requires 1 <= i < |lines| && KeyAt(lines, i, k)
    requires forall j :: i < j < |lines| ==> !KeyAt(lines, j, k)
    ensures k in HeaderMap(lines) && HeaderMap(lines)[k] == HeaderLine(lines[i]).value.1
  {
    var e := Entries(lines);
    assert e[i] == HeaderLine(lines[i]);
    forall j | i < j < |e|
      ensures !SetsKey(e, j, k)
    {
      assert e[j] == HeaderLine(lines[j]);
      assert !KeyAt(lines, j, k);
    }
    AssignLastWins(e, k, i);
  }

  lemma AssignStep(e: seq<Option<(string, string)>>, i: nat)
    requires i < |e|
    ensures e[i].None? ==> Assign(e[..i + 1]) == Assign(e[..i])
    ensures e[i].Some? ==> Assign(e[..i + 1]) == Assign(e[..i])[e[i].value.0 := e[i].value.1]
  {
    assert e[..i + 1][..i] == e[..i];
    assert e[..i + 1][i] == e[i];
  }

  /** One pass of the header loop: trim the line and cut it at its first
      colon, keeping it only when a key comes before the colon. */
  method ParseHeaderLine(raw: string) returns (entry: Option<(string, string)>)
    ensures entry == HeaderLine(raw)
  {
    entry := None;
    var line := TrimSpace(raw);
    if line != "" {
      var colon := IndexOf(line, ":");
      if colon.Some? && colon.value > 0 {
        entry := Some((TrimSpace(line[..colon.value]), TrimSpace(line[colon.value + 1..])));
      }
    }
  }

  /** The header loop: every line after the first, trimmed, sets its key. */
  method ParseHeaders(head: string) returns (m: map<string, string>)
    ensures m == HeaderMap(Split(head, '\n'))
  {
    var lines := Split(head, '\n');
    ghost var e := Entries(lines);
    m := map[];
    var i := 0;
    while i < |lines|
      invariant 0 <= i <= |lines|
      invariant m == Assign(e[..i])
    {
      AssignStep(e, i);
      if i > 0 {
        var entry := ParseHeaderLine(lines[i]);
        assert e[i] == entry;
        if entry.Some? {
          m := m[entry.value.0 := entry.value.1];
        }
      } else {
        assert e[i] == None;
      }
      i := i + 1;
    }
    assert e[..i] == e;
  }

  // ---------------------------------------------------------------------
  // Serving one request
  // ---------------------------------------------------------------------

  /** What the local client receives. */
  datatype Response = Response(status: int, headers: map<string, string>, body: string)

  /** `http.Error`: the status, a plain-text type, and the message on a line. */
  function HttpError(msg: string, status: int): Response {
    Response(status, map["Content-Type" := "text/plain; charset=utf-8", "X-Content-Type-Options" := "nosniff"], msg + "\n")
  }

  /** `ServeHTTP`: open an SSH session (`sessionOk`), run the command built
      with quoting `q` (`AsWritten` is the source's, `Escaped` the
      corrected one), and cut its output (`output`) into the response.
      Returns the command run, if any. As written, a command the shell
      cannot read makes curl's run fail, which `output` then reports. */
  method ServeHTTP(q: Quoting, h: Handler, r: Request, sessionOk: bool, output: Result<string>)
    returns (cmd: Option<string>, resp: Response)
    ensures !sessionOk ==> cmd.None? && resp == HttpError("SSH session failed", 500)
    ensures sessionOk ==> cmd == Some(Command(q, r, TargetUrl(h, r.requestUri)))
    ensures sessionOk && output.Err? ==> resp == HttpError("Remote request failed", 502)
    ensures sessionOk && output.Ok? ==>
      match SplitResponse(output.value)
      case Some((head, body)) => resp == Response(200, HeaderMap(Split(head, '\n')), body)
      case None => resp == Response(200, map[], output.value)
  {
    var url := TargetUrl(h, r.requestUri);
    if !sessionOk {
      return None, HttpError("SSH session failed", 500);
    }
    var c := BuildCommand(q, r, url);
    cmd := Some(c);
    if output.Err? {
      return cmd, HttpError("Remote request failed", 502);
    }
    var parts := SplitResponse(output.value);
    if parts.Some? {
      var headers := ParseHeaders(parts.value.0);
      resp := Response(200, headers, parts.value.1);
    } else {
      resp := Response(200, map[], output.value);
    }
  }
}
