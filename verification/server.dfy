/**
 * The static file server of `src/server.rs`: how one request is turned into
 * one response. The socket read and write around it are not modelled; the
 * request arrives as decoded text and the html directory is a map from path
 * to what reading that path yields.
 */
module Server {
  import opened Wrappers
  import opened Text

  /** What sits at a path that exists: a file that reads as UTF-8 text, or
      something `read_to_string` rejects (a directory, binary data, no
      permission). */
  datatype Entry = Readable(contents: string) | Unreadable

  type Files = map<string, Entry>

  /** Outcome of `open_html_file_async`. */
  datatype Lookup = Found(contents: string) | NotFound | OtherError

  /** `open_html_file_async`: a path that does not exist is NotFound, before
      any read is attempted; an existing path is read as text. */
  function OpenHtmlFile(files: Files, path: string): (r: Lookup)
    ensures r.NotFound? <==> path !in files
    ensures r.Found? <==> path in files && files[path].Readable?
    ensures r.Found? ==> r.contents == files[path].contents
  {
    if path !in files then NotFound
    else match files[path]
      case Readable(contents) => Found(contents)
      case Unreadable => OtherError
  }

  /** `PathBuf::join` on Unix: an absolute name replaces the base, an empty
      base gives the name, otherwise a separator is added unless the base
      already ends with one. Nothing is normalised: `..` passes through. */
  function Join(dir: string, name: string): (p: string)
    ensures |name| > 0 && name[0] == '/' ==> p == name
    ensures !(|name| > 0 && name[0] == '/') && (dir == [] || dir[|dir| - 1] == '/')
            ==> p == dir + name
    ensures !(|name| > 0 && name[0] == '/') && dir != [] && dir[|dir| - 1] != '/'
            ==> p == dir + "/" + name
  {
    if |name| > 0 && name[0] == '/' then name
    else if dir == [] || dir[|dir| - 1] == '/' then dir + name
    else dir + "/" + name
  }

  const Status200 := "HTTP/1.1 200 OK"
  const Status400 := "HTTP/1.1 400 BAD REQUEST"
  const Status404 := "HTTP/1.1 404 NOT FOUND"
  const Status405 := "HTTP/1.1 405 METHOD NOT ALLOWED"
  const Status500 := "HTTP/1.1 500 INTERNAL SERVER ERROR"

  const Body400 := "400 Bad Request"
  const Body404 := "404 Not Found"
  const Body405 := "405 Method Not Allowed"
  const Body500 := "500 Internal Server Error"

  /** The one request line that takes the index branch. */
  const IndexRequestLine := "GET / HTTP/1.1"

  datatype Reply = Reply(status: string, body: string)

  /** The five status lines the server can send. */
  predicate IsStatusLine(s: string) {
    s == Status200 || s == Status400 || s == Status404 || s == Status405 || s == Status500
  }

  /** The body of a 404: the html directory's `404.html` if it can be read,
      the built-in text otherwise. */
  function NotFoundBody(files: Files, dir: string): (body: string)
    ensures OpenHtmlFile(files, Join(dir, "404.html")).Found? ==>
              body == files[Join(dir, "404.html")].contents
    ensures !OpenHtmlFile(files, Join(dir, "404.html")).Found? ==> body == Body404
  {
    match OpenHtmlFile(files, Join(dir, "404.html"))
    case Found(contents) => contents
    case _ => Body404
  }

  /** Serving the file `name` of the html directory: 200 with its contents,
      404 when it does not exist, 500 when it exists but cannot be read. */
  function Serve(files: Files, dir: string, name: string): (r: Reply)
    ensures IsStatusLine(r.status) && r.status != Status400 && r.status != Status405
    ensures r.status == Status200 <==> Join(dir, name) in files && files[Join(dir, name)].Readable?
    ensures r.status == Status200 ==> r.body == files[Join(dir, name)].contents
    ensures r.status == Status404 <==> Join(dir, name) !in files
    ensures r.status == Status404 ==> r.body == NotFoundBody(files, dir)
    ensures r.status == Status500 <==> Join(dir, name) in files && files[Join(dir, name)].Unreadable?
    ensures r.status == Status500 ==> r.body == Body500
  {
    match OpenHtmlFile(files, Join(dir, name))
    case Found(contents) => Reply(Status200, contents)
    case NotFound => Reply(Status404, NotFoundBody(files, dir))
    case OtherError => Reply(Status500, Body500)
  }

  /** The four ways `handle_connection` reads a request line. */
  datatype RequestKind = IndexPage | NotGet | GetPath(path: string) | Malformed

  function Classify(line: string): (k: RequestKind)
    ensures k.IndexPage? <==> line == IndexRequestLine
    ensures k.GetPath? ==> IsWord(k.path) && |Tokens(line)| >= 2
                           && Tokens(line)[0] == "GET" && Tokens(line)[1] == k.path
  {
    if line == IndexRequestLine then IndexPage
    else
      var words := Tokens(line);
      if |words| == 0 || words[0] != "GET" then NotGet
      else if |words| >= 2 then GetPath(words[1])
      else Malformed
  }

  /** The status line and body chosen for a request line. The first
      character of the path token is dropped whatever it is. */
  function Route(files: Files, dir: string, line: string): (r: Reply)
    ensures IsStatusLine(r.status)
  {
    match Classify(line)
    case IndexPage => Serve(files, dir, "index.html")
    case NotGet => Reply(Status405, Body405)
    case GetPath(path) => Serve(files, dir, path[1..])
    case Malformed => Reply(Status400, Body400)
  }

  const LengthHeader := "\r\nContent-Length: "
  const HeaderEnd := "\r\n\r\n"

  /** The response bytes: status line, the one `Content-Length` header giving
      the UTF-8 length of the body, an empty line, the body. */
  function Frame(r: Reply): (msg: string)
    ensures r.status <= msg
    ensures |msg| > |r.body| && msg[|msg| - |r.body|..] == r.body
  {
    var msg := r.status + (LengthHeader + (Decimal(Utf8Length(r.body)) + (HeaderEnd + r.body)));
    assert msg[..|r.status|] == r.status;
    assert msg[|msg| - |r.body|..] == r.body;
    msg
  }

  /** The whole of `handle_connection` between its read and its write: every
      response reads back as one of the five status lines, a length equal to
      the body's UTF-8 byte length, and the body. */
  function HandleRequest(files: Files, dir: string, request: string): (msg: string)
    ensures var r := Route(files, dir, FirstLine(request));
            ParseFrame(msg) == Some(Parsed(r.status, Utf8Length(r.body), r.body))
  {
    var r := Route(files, dir, FirstLine(request));
    StatusLinesHaveNoCR(r.status);
    FrameRoundTrip(r);
    Frame(r)
  }

  /** A response as a client reads it back. */
  datatype Parsed = Parsed(status: string, length: nat, body: string)

  /** Reads a response of the shape the server writes: the status line runs
      to the first carriage return, then the header, a decimal length, the
      empty line, and the rest is the body. */
  function ParseFrame(msg: string): Option<Parsed> {
    match Find(msg, '\r')
    case None => None
    case Some(i) =>
      var afterStatus := msg[i..];
      if !(LengthHeader <= afterStatus) then None
      else
        var field := afterStatus[|LengthHeader|..];
        var n := DigitRun(field);
        if n == 0 || !(HeaderEnd <= field[n..]) then None
        else Some(Parsed(msg[..i], ParseDecimal(field[..n]), field[n + |HeaderEnd|..]))
  }

  /** Framing can be undone: the status line, the advertised length (the
      body's UTF-8 byte length) and the body come back. */
  lemma {:induction false} FrameRoundTrip(r: Reply)
    requires '\r' !in r.status
    ensures ParseFrame(Frame(r)) == Some(Parsed(r.status, Utf8Length(r.body), r.body))
  {
    var length := Utf8Length(r.body);
    ParseFramed(r.status, Decimal(length), r.body);
    DecimalRoundTrip(length);
  }

  /** ParseFrame reads back any status line free of carriage returns, any
      non-empty digit string and any body. */
  lemma {:induction false} ParseFramed(status: string, digits: string, body: string)
    requires '\r' !in status
    requires |digits| > 0 && IsDigits(digits)
    ensures ParseFrame(status + (LengthHeader + (digits + (HeaderEnd + body))))
            == Some(Parsed(status, ParseDecimal(digits), body))
  {
    var field := digits + (HeaderEnd + body);
    var afterStatus := LengthHeader + field;
    var msg := status + afterStatus;
    StatusEndsAtCR(status, afterStatus);
    assert msg[..|status|] == status;
    assert msg[|status|..] == afterStatus;
    assert afterStatus[|LengthHeader|..] == field;
    FieldParts(digits, body);
    ParseFrameSteps(msg, |status|, |digits|);
  }

  /** One unfolding of ParseFrame, step by step. */
  lemma ParseFrameSteps(msg: string, i: nat, n: nat)
    requires Find(msg, '\r') == Some(i)
    requires LengthHeader <= msg[i..]
    requires var field := msg[i..][|LengthHeader|..];
             && DigitRun(field) == n && n > 0 && HeaderEnd <= field[n..]
    ensures var field := msg[i..][|LengthHeader|..];
            ParseFrame(msg) == Some(Parsed(msg[..i], ParseDecimal(field[..n]), field[n + |HeaderEnd|..]))
  {
  }

  /** The first carriage return after a status line without one is the one
      that ends it. */
  lemma StatusEndsAtCR(status: string, rest: string)
    requires '\r' !in status
    requires |rest| > 0 && rest[0] == '\r'
    ensures Find(status + rest, '\r') == Some(|status|)
  {
    var msg := status + rest;
    assert msg[..|status|] == status;
    FindAt(msg, '\r', |status|);
  }

  /** After the header name: the digits, then the empty line, then the body. */
  lemma {:induction false} FieldParts(digits: string, body: string)
    requires |digits| > 0 && IsDigits(digits)
    ensures var field := digits + (HeaderEnd + body);
            && DigitRun(field) == |digits| && field[..|digits|] == digits
            && HeaderEnd <= field[|digits|..] && field[|digits| + |HeaderEnd|..] == body
  {
    var tail := HeaderEnd + body;
    var field := digits + tail;
    DigitRunOf(digits, tail);
    assert field[..|digits|] == digits;
    assert field[|digits|..] == tail;
    assert field[|digits| + |HeaderEnd|..] == tail[|HeaderEnd|..] == body;
  }

  /** No status line the server sends contains a carriage return. */
  lemma StatusLinesHaveNoCR(s: string)
    requires IsStatusLine(s)
    ensures '\r' !in s
  {
    if s == Status200 {
      assert forall i | 0 <= i < |Status200| :: Status200[i] != '\r';
    } else if s == Status400 {
      assert forall i | 0 <= i < |Status400| :: Status400[i] != '\r';
    } else if s == Status404 {
      assert forall i | 0 <= i < |Status404| :: Status404[i] != '\r';
    } else if s == Status405 {
      assert forall i | 0 <= i < |Status405| :: Status405[i] != '\r';
    } else {
      assert forall i | 0 <= i < |Status500| :: Status500[i] != '\r';
    }
  }

  /** The request line is the first line of the request, whatever follows
      its CRLF. */
  lemma {:induction false} RequestLineIsFirstLine(files: Files, dir: string, line: string, rest: string)
    requires '\n' !in line
    ensures HandleRequest(files, dir, line + "\r\n" + rest) == Frame(Route(files, dir, line))
  {
    FirstLineOf(line, "\r\n", rest);
  }

  /** A request with no line at all is routed as an empty request line. */
  lemma EmptyRequest(files: Files, dir: string)
    ensures HandleRequest(files, dir, "") == Frame(Reply(Status405, Body405))
  {
    assert FirstLine("") == "";
    RouteBlankLine(files, dir, "");
  }

  lemma {:induction false} IndexLineTokens()
    ensures Tokens(IndexRequestLine) == ["GET", "/", "HTTP/1.1"]
  {
    assert IndexRequestLine == "GET" + " " + "/" + " " + "HTTP/1.1";
    TokensOfThree("GET", "/", "HTTP/1.1");
  }

  /** `GET / HTTP/1.1` looks up `index.html`; found, it is served with 200. */
  lemma {:induction false} RouteIndex(files: Files, dir: string)
    ensures Route(files, dir, IndexRequestLine) == Serve(files, dir, "index.html")
    ensures OpenHtmlFile(files, Join(dir, "index.html")).Found? ==>
              Route(files, dir, IndexRequestLine)
                == Reply(Status200, files[Join(dir, "index.html")].contents)
  {
  }

  /** A request line whose first token is missing or is not `GET` gets 405,
      whatever the html directory holds. */
  lemma {:induction false} RouteNotGet(files: Files, dir: string, line: string)
    requires Tokens(line) == [] || Tokens(line)[0] != "GET"
    ensures Route(files, dir, line) == Reply(Status405, Body405)
  {
    IndexLineTokens();
  }

  /** An empty or blank request line gets 405, not 400. */
  lemma {:induction false} RouteBlankLine(files: Files, dir: string, line: string)
    requires AllWhitespace(line)
    ensures Route(files, dir, line) == Reply(Status405, Body405)
  {
    RouteNotGet(files, dir, line);
  }

  /** Every other GET with a path serves the html directory joined with the
      path token minus its first character. */
  lemma {:induction false} RouteGetPath(files: Files, dir: string, line: string)
    requires line != IndexRequestLine
    requires |Tokens(line)| >= 2 && Tokens(line)[0] == "GET"
    ensures Route(files, dir, line) == Serve(files, dir, Tokens(line)[1][1..])
  {
  }

  /** 400 is sent exactly when the request line is the single token `GET`. */
  lemma {:induction false} BadRequestIff(files: Files, dir: string, line: string)
    ensures Route(files, dir, line).status == Status400 <==> Tokens(line) == ["GET"]
    ensures Route(files, dir, line).status == Status400 ==> Route(files, dir, line).body == Body400
  {
    MalformedIff(line);
  }

  /** The malformed branch is taken exactly for the single token `GET`. */
  lemma {:induction false} MalformedIff(line: string)
    ensures Classify(line).Malformed? <==> Tokens(line) == ["GET"]
  {
    var words := Tokens(line);
    assert words == ["GET"] <==> |words| == 1 && words[0] == "GET";
    if line == IndexRequestLine {
      IndexLineTokens();
      assert |words| == 3;
    }
  }

  /** 405 is sent exactly when the request line is not the index line and
      does not begin with the token `GET`. */
  lemma {:induction false} MethodNotAllowedIff(files: Files, dir: string, line: string)
    ensures Route(files, dir, line).status == Status405
            <==> Tokens(line) == [] || Tokens(line)[0] != "GET"
  {
    IndexLineTokens();
  }

  /** A request line `GET <path> <version>` serves `path` without its first
      character, unless it is exactly the index line `GET / HTTP/1.1`. */
  lemma {:induction false} RouteRequestLine(files: Files, dir: string, path: string, version: string)
    requires IsWord(path) && IsWord(version)
    requires path != "/" || version != "HTTP/1.1"
    ensures Route(files, dir, "GET " + path + " " + version) == Serve(files, dir, path[1..])
  {
    var line := "GET " + path + " " + version;
    assert line == "GET" + " " + path + " " + version;
    TokensOfThree("GET", path, version);
    NotIndexLine(line);
    RouteGetPath(files, dir, line);
  }

  /** A line whose tokens differ from the index line's is not the index line. */
  lemma {:induction false} NotIndexLine(line: string)
    requires Tokens(line) != ["GET", "/", "HTTP/1.1"]
    ensures line != IndexRequestLine
  {
    IndexLineTokens();
  }

  /** `GET / HTTP/1.0` is not the index branch: it looks up the html
      directory itself, through an empty relative path. */
  lemma {:induction false} Http10Root(files: Files, dir: string)
    ensures Route(files, dir, "GET / HTTP/1.0") == Serve(files, dir, "")
  {
    assert "GET / HTTP/1.0" == "GET " + "/" + " " + "HTTP/1.0";
    assert "HTTP/1.0"[7] != "HTTP/1.1"[7];
    RouteRequestLine(files, dir, "/", "HTTP/1.0");
  }

  /** No `..` check: the looked-up path keeps the parent-directory step. */
  lemma {:induction false} DotDotIsServed(files: Files, dir: string, name: string)
    requires IsWord(name)
    requires dir != [] && dir[|dir| - 1] != '/'
    ensures Route(files, dir, "GET /../" + name + " HTTP/1.1") == Serve(files, dir, "../" + name)
    ensures Join(dir, "../" + name) == dir + "/../" + name
  {
    assert "GET /../" == "GET " + "/../";
    PrefixedPathRoute(files, dir, "/../", name);
    assert "/../" == "/" + "../";
    JoinBelow(dir, "../", name);
  }

  /** A path token starting with `//` becomes an absolute path, which the
      join lets replace the html directory altogether. */
  lemma {:induction false} DoubleSlashEscapes(files: Files, dir: string, name: string)
    requires IsWord(name)
    ensures Route(files, dir, "GET //" + name + " HTTP/1.1") == Serve(files, dir, "/" + name)
    ensures Join(dir, "/" + name) == "/" + name
  {
    assert "GET //" == "GET " + "//";
    PrefixedPathRoute(files, dir, "//", name);
  }

  /** A GET of HTTP/1.1 for a path made of a fixed word and a name serves the
      path without its leading `/`. */
  lemma {:induction false} PrefixedPathRoute(files: Files, dir: string, prefix: string, name: string)
    requires IsWord(prefix) && IsWord(name) && prefix[0] == '/'
    ensures Route(files, dir, "GET " + prefix + name + " HTTP/1.1") == Serve(files, dir, prefix[1..] + name)
  {
    var path := prefix + name;
    JoinedWord(prefix, name);
    assert path[1..] == prefix[1..] + name;
    assert "GET " + prefix + name + " HTTP/1.1" == "GET " + path + " " + "HTTP/1.1";
    RouteRequestLine(files, dir, path, "HTTP/1.1");
  }

  /** Joining a relative name under a directory that does not end in `/`. */
  lemma {:induction false} JoinBelow(dir: string, sub: string, name: string)
    requires dir != [] && dir[|dir| - 1] != '/'
    requires sub != [] && sub[0] != '/'
    ensures Join(dir, sub + name) == dir + ("/" + sub) + name
  {
    assert dir + "/" + (sub + name) == dir + ("/" + sub) + name;
  }
}
