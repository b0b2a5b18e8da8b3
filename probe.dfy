/** One HTTP probe of a page (`urlTest`), with the network round trip as an input. */
module Probe {
  import opened Wrappers
  import opened Text

  /** What the HTTP library makes of one GET. `http.NewRequest` may refuse the URL
      (a control character, a malformed host or port): the request is then nil and
      `RoundTrip` dereferences it. Otherwise the transport fails (DNS, refused
      connection, TLS) or answers with a status, content type and whole body.
      `elapsed` is the time from dispatch until then, in any fixed unit. */
  datatype Transport =
    | Rejected
    | Failed(elapsed: int)
    | Responded(status: int, elapsed: int, contentType: string, body: string)

  /** The four values `urlTest` returns. */
  datatype Outcome = Outcome(code: int, duration: int, contentType: string, content: string)

  const Scheme: string := "http://"

  /** Status reported when the transport fails; the same number as a real "Not Found". */
  const FailureSentinel: int := 404

  /** The URL actually requested: `http://` is prefixed unless the URL already contains it anywhere. */
  function NormalizeUrl(url: string): (r: string)
    ensures Contains(url, Scheme) ==> r == url
    ensures !Contains(url, Scheme) ==> r == Scheme + url
  {
    if Contains(url, Scheme) then url else Scheme + url
  }

  /** The requested URL always contains the scheme, and normalising is idempotent. */
  lemma NormalizeUrlIdempotent(url: string)
    ensures Contains(NormalizeUrl(url), Scheme)
    ensures NormalizeUrl(NormalizeUrl(url)) == NormalizeUrl(url)
  {
    if !Contains(url, Scheme) {
      PrefixContained(Scheme + url, Scheme);
    }
  }

  /** Only the literal `http://` counts: an `https://` URL gets a second scheme in front. */
  lemma HttpsGetsPrefixed()
    ensures NormalizeUrl("https://h") == "http://https://h"
  {
    var s := "https://h";
    // Each suffix from the sixth character on is shorter than the scheme; the first
    // five disagree with it at the character shown.
    assert s[4] != Scheme[4] && s[1] != Scheme[0] && s[2] != Scheme[0];
    assert s[3] != Scheme[0] && s[4] != Scheme[0];
    assert s[1..][0] == s[1] && s[2..][0] == s[2] && s[3..][0] == s[3] && s[4..][0] == s[4];
    assert s[1..][1..] == s[2..] && s[2..][1..] == s[3..] && s[3..][1..] == s[4..];
    assert s[4..][1..] == s[5..];
    ShorterNotContained(s[5..], Scheme);
  }

  /** `urlTest(url)`: the transport answers for the normalised URL; a failure becomes
      the sentinel outcome with empty content type and body, a response passes through.
      A refused URL has no outcome: the panic in `RoundTrip` ends the whole process. */
  function UrlTest(url: string, fetch: string -> Transport): (r: Option<Outcome>)
    ensures r.None? <==> fetch(NormalizeUrl(url)).Rejected?
    ensures fetch(NormalizeUrl(url)).Failed? ==>
              r == Some(Outcome(FailureSentinel, fetch(NormalizeUrl(url)).elapsed, "", ""))
    ensures fetch(NormalizeUrl(url)).Responded? ==>
              var t := fetch(NormalizeUrl(url));
              r == Some(Outcome(t.status, t.elapsed, t.contentType, t.body))
  {
    match fetch(NormalizeUrl(url))
    case Rejected => None
    case Failed(elapsed) => Some(Outcome(FailureSentinel, elapsed, "", ""))
    case Responded(status, elapsed, contentType, body) => Some(Outcome(status, elapsed, contentType, body))
  }

  /** A transport failure cannot be told apart from a genuine empty 404 response. */
  lemma FailureLooksLikeNotFound(url: string, fetch: string -> Transport, elapsed: int)
    requires fetch(NormalizeUrl(url)) == Failed(elapsed)
    ensures UrlTest(url, fetch) == UrlTest(url, u => Responded(404, elapsed, "", ""))
  {
  }
}
