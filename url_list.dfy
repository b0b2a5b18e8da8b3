/** The first checker (`checker.go`): read a list of URLs, one per line, and time a GET of each. */
module UrlList {
  import opened Wrappers
  import opened Text
  import opened Probe

  /** What `URLTest` returns: the elapsed time and the status code. */
  datatype Timing = Timing(duration: int, code: int)

  /** Status this checker reports when the transport fails. */
  const CheckerFailureCode: int := 500

  /** Separator between a scheme and a host. A URL without it parses with no
      `http`/`https` scheme or with an empty host, and the transport refuses both. */
  const Authority: string := "://"

  /** `URLTest(url)`: the URL is requested exactly as given, with no scheme added.
      A refused URL has no timing, since the panic in `RoundTrip` ends the process;
      a URL without "://" never reaches the network and reads as (0, 500), like any
      other failure; a response reads as (elapsed, status). */
  function URLTest(url: string, fetch: string -> Transport): (r: Option<Timing>)
    ensures r.None? <==> fetch(url).Rejected?
    ensures fetch(url).Failed? ==> r == Some(Timing(0, CheckerFailureCode))
    ensures fetch(url).Responded? && !Contains(url, Authority) ==> r == Some(Timing(0, CheckerFailureCode))
    ensures fetch(url).Responded? && Contains(url, Authority) ==>
              r == Some(Timing(fetch(url).elapsed, fetch(url).status))
  {
    match fetch(url)
    case Rejected => None
    case Failed(_) => Some(Timing(0, 500))
    case Responded(status, elapsed, _, _) =>
      if Contains(url, Authority) then Some(Timing(elapsed, status)) else Some(Timing(0, 500))
  }

  /** The producer loop of `main`: split the file on "\n" and queue every non-empty
      line, verbatim and in file order. */
  method EnqueueUrls(content: string) returns (queue: seq<string>)
    ensures queue == NonEmpty(SplitLines(content))
    ensures forall i :: 0 <= i < |queue| ==> queue[i] != "" && '\n' !in queue[i]
    ensures |queue| == |SplitLines(content)| - CountEmpty(SplitLines(content))
  {
    var urls := SplitLines(content);
    queue := [];
    for i := 0 to |urls|
      invariant queue == NonEmpty(urls[..i])
    {
      assert urls[..i + 1][..i] == urls[..i];
      if urls[i] != "" {
        queue := queue + [urls[i]];
      }
    }
    assert urls[..|urls|] == urls;
    SplitLinesNewlineFree(content);
    NonEmptyLength(urls);
  }

  /** Lines keep their carriage return, and the empty segment after the final
      newline is not queued. */
  lemma CarriageReturnKept()
    ensures NonEmpty(SplitLines("a\r\nb\n")) == ["a\r", "b"]
  {
    var s := "a\r\nb\n";
    assert s[1..] == "\r\nb\n" && s[2..] == "\nb\n" && s[3..] == "b\n" && s[4..] == "\n";
    assert s[1..][1..] == s[2..] && s[2..][1..] == s[3..] && s[3..][1..] == s[4..] && s[4..][1..] == "";
    assert SplitLines(s[4..]) == ["", ""];
    assert SplitLines(s[3..]) == [[s[3]] + "", ""];
    assert [s[3]] + "" == "b";
    assert SplitLines(s[2..]) == ["", "b", ""];
    assert SplitLines(s[1..]) == [[s[1]] + "", "b", ""];
    assert [s[1]] + "" == "\r";
    assert SplitLines(s) == [[s[0]] + "\r", "b", ""];
    assert [s[0]] + "\r" == "a\r";
    assert ["a\r", "b", ""][..2] == ["a\r", "b"];
  }
}
