# microstatus: a verified model of the file server, the service parser and the HTTP probe

microstatus probes network services (ping, TCP port, HTTP), publishes a status
site, and serves that site over a small HTTP file server. This project models
the deterministic parts of three source files:

- `src/server.rs`: how `handle_connection` turns one request into one
  response. It takes the request line, classifies it, looks the file up in the
  html directory (falling back to `404.html`), picks one of five status lines
  and a body, and frames them as status line, `Content-Length` header, empty
  line and body. This is the message format of section 2.1 of RFC 9112, with one
  header. The html directory is a map from path to `Readable(text)` or
  `Unreadable`. `open_html_file_async` is the lookup over that map.
- `src/web.rs`: the `ServiceType` parser, `Service::default`, and
  `create_html`. `create_html` is a method of a `FileSystem` class. The class
  holds a map of file contents, a set of directories, the paths the process may
  not create, and the paths whose writes fail.
- `src/lib.rs`: the URL `check_http` requests, and how the outcome of that
  request becomes up or down. The network request is a function parameter.

Modules: `Wrappers` (Option, Result), `Text` (the Rust `str` behaviour the
code relies on: `lines`, `split_whitespace`, `rfind`, ASCII lowercasing, the
decimal rendering of a length, `String::len` as UTF-8 bytes), `Server`, `Web`,
`Probe`.

Three behaviours of the code are worth knowing:

- The server refuses no `..` segment (`Server.DotDotIsServed`), and a path
  token starting with `//` escapes the html directory
  (`Server.DoubleSlashEscapes`).
- Only the exact line `GET / HTTP/1.1` maps `/` to `index.html`.
  `GET / HTTP/1.0` looks up the html directory itself (`Server.Http10Root`).
- An empty or blank request line gets 405. The only 400 is a line whose single
  token is `GET` (`Server.BadRequestIff`).

## Model

| member | source | states |
|---|---|---|
| `Text.FirstLine` | src/server.rs:51 | the request line is a prefix of the request with no line feed; it is the whole request if there is no line feed, otherwise it stops at the first LF or at a CR right before it |
| `Text.FirstLineOf` | src/server.rs:51 | a line followed by CRLF (or by LF when it does not end in CR) is exactly what `lines().next()` returns, whatever follows |
| `Text.Tokens` | src/server.rs:62-65 | `split_whitespace` yields non-empty tokens free of Unicode whitespace, and yields none exactly when the line is blank |
| `Text.TokensOfThree` | src/server.rs:62-65 | three words separated by single spaces split into exactly those three tokens |
| `Text.RFind` | src/web.rs:82 | `rfind('/')` is None exactly when there is no `/`; otherwise it is an index holding `/` with no `/` after it |
| `Text.ToLowerAscii` | src/web.rs:19 | lowercasing keeps the length, turns each upper-case ASCII letter into its lower-case letter, keeps every other character, and leaves no upper-case ASCII letter |
| `Text.ToLowerIdempotent` | src/web.rs:19 | lowercasing twice is lowercasing once |
| `Text.Decimal` | src/server.rs:81 | the length is written as a non-empty string of decimal digits with no leading zero |
| `Text.DecimalRoundTrip` | src/server.rs:81 | reading the written length as a decimal number gives the length back |
| `Text.Utf8Length` | src/server.rs:80 | `String::len` counts between one and four bytes per character, and equals the character count exactly when the text is ASCII |
| `Server.OpenHtmlFile` | src/server.rs:90-102 | a missing path is NotFound before any read; an existing path is Found with its text when readable, OtherError otherwise |
| `Server.Join` | src/server.rs:67 | an absolute name replaces the html directory; otherwise the name is appended to it, with a `/` between them unless the directory is empty or already ends in one |
| `Server.NotFoundBody` | src/server.rs:58 | the 404 body is the text of `404.html` if it can be read, and the literal `404 Not Found` after any error |
| `Server.Serve` | src/server.rs:55-61 | the lookup gives 200 with the file's contents, 404 with the fallback body exactly when the file is missing, or 500 with the literal body exactly when it exists but cannot be read; never 400 or 405 |
| `Server.Classify` | src/server.rs:53-65 | the index branch is taken exactly for `GET / HTTP/1.1`; a path is only taken from a line whose first token is `GET`, and it is its second token |
| `Server.Route` | src/server.rs:53-78 | the status line is always one of the five the server defines |
| `Server.Frame` | src/server.rs:80-81 | the response starts with the status line and ends with the body |
| `Server.HandleRequest` | src/server.rs:50-81 | every response reads back as its status line, a Content-Length equal to the body's UTF-8 byte length, and its body |
| `Server.FrameRoundTrip` | src/server.rs:80-81 | for any status line without CR, parsing the framed response returns the status line, the body's byte length and the body |
| `Server.ParseFramed` | src/server.rs:81 | the response layout (status, header, digits, empty line, body) is read back part by part |
| `Server.RequestLineIsFirstLine` | src/server.rs:50-51 | whatever follows the first CRLF of a request (headers, body) has no effect on the response |
| `Server.EmptyRequest` | src/server.rs:51 | a request with no line at all is answered with 405 |
| `Server.RouteIndex` | src/server.rs:53-56 | `GET / HTTP/1.1` looks up `index.html`; when it is found the reply is 200 with its contents |
| `Server.RouteNotGet` | src/server.rs:62-64 | a line whose first token is missing or is not `GET` gets 405 with `405 Method Not Allowed`, whatever the directory holds |
| `Server.RouteBlankLine` | src/server.rs:62-64 | an empty or whitespace-only request line gets 405, not 400 |
| `Server.MethodNotAllowedIff` | src/server.rs:62-64 | the status is 405 exactly when the line has no first token or its first token is not `GET` |
| `Server.RouteGetPath` | src/server.rs:65-67 | any other GET with a second token serves the html directory joined with that token minus its first character |
| `Server.MalformedIff` | src/server.rs:62-77 | the branch without a path is taken exactly when `GET` is the line's only token |
| `Server.BadRequestIff` | src/server.rs:75-77 | the status is 400 exactly when the line's only token is `GET`, and the body is then `400 Bad Request` |
| `Server.RouteRequestLine` | src/server.rs:65-67 | `GET <path> <version>`, unless it is the index line, serves `path` with its first character dropped |
| `Server.PrefixedPathRoute` | src/server.rs:65-67 | `GET <prefix><name> HTTP/1.1`, with a prefix starting with `/`, serves the prefix minus its `/` followed by the name |
| `Server.Http10Root` | src/server.rs:53 | `GET / HTTP/1.0` is not the index branch; it looks up the empty relative path |
| `Server.DotDotIsServed` | src/server.rs:67 | `GET /../name` looks up `<dir>/../name`; no parent-directory step is refused |
| `Server.DoubleSlashEscapes` | src/server.rs:67 | `GET //name` looks up the absolute path `/name`, outside the html directory |
| `Web.ParseServiceType` | src/web.rs:16-25 | the parse succeeds exactly when the lowercased input is `ping`, `port` or `http`, and then gives the tag with that name; otherwise the error is `unknown service type: ` followed by the lowercased input |
| `Web.ParseName` | src/web.rs:20-22 | every tag parses back from its lower-case name |
| `Web.ParseIgnoresCase` | src/web.rs:19 | inputs that lowercase alike parse alike, and lowercasing the input first changes nothing |
| `Web.ParseAnyCase` | src/web.rs:19-22 | a tag's name written with any of its letters in upper case parses to that tag |
| `Web.ParseUpperCase` | src/web.rs:19-22 | `PING`, `Port` and `hTTp` parse to Ping, Port and Http |
| `Web.DefaultService` | src/web.rs:37-47 | the default service has empty name and host, type Ping, is down, has no port and uses SSL |
| `Web.ParentToCreate` | src/web.rs:82-83 | there is no directory to create exactly when the name has no `/`; otherwise the directory is the text before the last `/`, and what follows that `/` contains no `/` |
| `Web.Chain` | src/web.rs:84 | `create_dir_all` makes the directory itself (when non-empty) and every parent component of it, i.e. each non-empty prefix that ends before a `/`, and nothing else |
| `Web.FileSystem.CreateDirAll` | src/web.rs:84 | it succeeds exactly when no directory on the way is a file and every missing one may be created, and then all of them exist; a failure changes nothing |
| `Web.FileSystem.CreateFile` | src/web.rs:89 | creating a file succeeds exactly when it is allowed, and leaves it empty; nothing else changes |
| `Web.FileSystem.WriteAll` | src/web.rs:90 | the write succeeds exactly when the device accepts it, and then the file holds the contents; nothing else changes |
| `Web.FileSystem.CreateHtml` | src/web.rs:81-92 | a directory failure stops before any file is touched; a create failure can only come from the name itself, never a missing parent; a write failure leaves the file empty; success leaves exactly this file holding the contents and no other file changed |
| `Probe.ProbeUrl` | src/lib.rs:18-24 | the URL always begins with `http://` or `https://` and ends with the host |
| `Probe.KeepsExplicitScheme` | src/lib.rs:18-19 | a host already beginning with `http://` or `https://` is used unchanged, whatever `ssl` says |
| `Probe.PrefixesScheme` | src/lib.rs:20-23 | otherwise the URL is `https://` plus the host when `ssl` is set and `http://` plus the host when not |
| `Probe.ProbeUrlIdempotent` | src/lib.rs:18-19 | building a URL from a built URL, with either flag, returns it unchanged |
| `Probe.UpperCaseSchemeIsPrefixed` | src/lib.rs:18 | the scheme test is case-sensitive: `HTTP://x` gets a second scheme in front |
| `Probe.CheckHttp` | src/lib.rs:17-38 | the probe fails with an error only when the client cannot be built; otherwise it is up exactly when the request to the probe URL returns a 2xx status |
| `Probe.TransportErrorIsDown` | src/lib.rs:37 | a transport error is reported as down, not as an error |

## Left out

- The TCP accept loop, one task per connection, and the socket read and write in `run_server` and `handle_connection` (src/server.rs:10-48, 83-86). The request arrives as text; the response is returned as text.
- The 1024-byte read buffer and lossy UTF-8 decoding (src/server.rs:43-50). A request without a line feed keeps the buffer's trailing NUL padding in the real server; the model has no padding.
- `&path[1..]` panics when the path token begins with a multi-byte character. The model works on characters, so it drops that character instead.
- Real file-system semantics. `Join` follows `PathBuf::join` on Unix only (no Windows prefixes), and paths are not normalised: `a//b`, `a/./b` and `a/` are different keys of the map. `exists()` and `read_to_string` become one map lookup, so a file removed between the two calls is not modelled.
- `Web.FileSystem.CreateDirAll`: a real `create_dir_all` that fails part way keeps the parent directories it already made. The model makes none of them on failure. Why an operation fails (permission, full disk) is given by the `readOnly` and `failingWrites` sets, not derived.
- `Web.FileSystem.WriteAll`: a real `write_all` can fail after writing part of the contents. The model leaves the file empty on failure.
- `Text.ToLowerAscii`: Rust's `to_lowercase` is Unicode-aware; the model lowercases ASCII letters only. The three accepted names are the same under both. The error message differs for inputs with non-ASCII upper-case letters.
- The `println!` in `create_html` (src/web.rs:86), the YAML loading stub `load_yaml`, the askama templates and `generate` (src/web.rs:50-79, 94-102): printing, external libraries and I/O.
- The probes `check_ping` (spawns `ping`) and `check_port` (DNS and a timed TCP connect), and the reqwest client settings (certificate checks off, at most 10 redirects) (src/lib.rs:7-15, 26-30, 41-50): foreign calls. In `Probe.CheckHttp` the client build and the request are parameters.
- `src/cli.rs` and `src/main.rs`: argument parsing and printing around the probes.
