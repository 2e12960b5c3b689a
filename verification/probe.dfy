/**
 * The HTTP probe of `src/lib.rs`: which URL it requests for a host, and how
 * the outcome of the request becomes up or down. The request itself is a
 * parameter, since it is a network call.
 */
module Probe {
  import opened Wrappers

  const HttpScheme := "http://"
  const HttpsScheme := "https://"

  /** The exact, case-sensitive scheme test of `check_http`. */
  predicate HasScheme(url: string) {
    HttpScheme <= url || HttpsScheme <= url
  }

  /** The URL `check_http` requests: the host as given when it already names
      a scheme, otherwise the host behind the scheme `ssl` selects. */
  function ProbeUrl(host: string, ssl: bool): (url: string)
    ensures HasScheme(url)
    ensures |host| <= |url| && url[|url| - |host|..] == host
  {
    if HttpScheme <= host || HttpsScheme <= host then host
    else if ssl then HttpsScheme + host
    else HttpScheme + host
  }

  /** A host that names its scheme is requested unchanged, whatever `ssl`. */
  lemma KeepsExplicitScheme(host: string, ssl: bool)
    requires HasScheme(host)
    ensures ProbeUrl(host, ssl) == host
  {
  }

  /** A bare host gets `https://` when `ssl` is set and `http://` when not. */
  lemma PrefixesScheme(host: string, ssl: bool)
    requires !HasScheme(host)
    ensures ProbeUrl(host, ssl) == (if ssl then HttpsScheme else HttpScheme) + host
  {
  }

  /** Building a URL from a built URL changes nothing, with either flag. */
  lemma ProbeUrlIdempotent(host: string, ssl: bool, ssl': bool)
    ensures ProbeUrl(ProbeUrl(host, ssl), ssl') == ProbeUrl(host, ssl)
  {
  }

  /** The scheme test is case-sensitive: an upper-case scheme is not seen
      and a second scheme is put in front. */
  lemma UpperCaseSchemeIsPrefixed(rest: string, ssl: bool)
    ensures ProbeUrl("HTTP://" + rest, ssl) == (if ssl then HttpsScheme else HttpScheme) + "HTTP://" + rest
  {
    var host := "HTTP://" + rest;
    assert host[0] == 'H';
    assert !(HttpScheme <= host) by { assert HttpScheme[0] == 'h'; }
    assert !(HttpsScheme <= host) by { assert HttpsScheme[0] == 'h'; }
  }

  /** An HTTP status code as reqwest represents it. */
  newtype StatusCode = x: int | 100 <= x < 1000 witness 200

  /** What sending the request gives: a response, or a transport error
      (DNS, connection, timeout, too many redirects). */
  datatype SendOutcome = Response(status: StatusCode) | TransportError

  /** `StatusCode::is_success`: the 2xx range. */
  predicate IsSuccess(status: StatusCode) {
    200 <= status <= 299
  }

  /** Building the client is the one step that can fail with an error. */
  datatype ProbeError = ClientBuildFailed

  /** `check_http`: request the probe URL through `send`; a 2xx response is
      up, any other response or a transport error is down. */
  function CheckHttp(host: string, ssl: bool, clientBuilds: bool,
                     send: string -> SendOutcome): (r: Result<bool, ProbeError>)
    ensures r.Err? <==> !clientBuilds
    ensures r.Ok? ==> (r.value <==> send(ProbeUrl(host, ssl)).Response?
                                     && IsSuccess(send(ProbeUrl(host, ssl)).status))
  {
    if !clientBuilds then Err(ClientBuildFailed)
    else
      match send(ProbeUrl(host, ssl))
      case Response(status) => Ok(IsSuccess(status))
      case TransportError => Ok(false)
  }

  /** A transport error is reported as down, never as an error. */
  lemma TransportErrorIsDown(host: string, ssl: bool, send: string -> SendOutcome)
    requires send(ProbeUrl(host, ssl)) == TransportError
    ensures CheckHttp(host, ssl, true, send) == Ok(false)
  {
  }
}
