/** String helpers with the meaning Go's `strings` package gives them:
    substring search, joining with a separator and splitting on a newline. */
module Text {

  /** `needle` occurs as a contiguous part of `hay` (strings.Contains). */
  predicate Contains(hay: string, needle: string)
    decreases |hay|
  {
    needle <= hay || (|hay| > 0 && Contains(hay[1..], needle))
  }

  /** A prefix is in particular a contained substring. */
  lemma PrefixContained(hay: string, needle: string)
    requires needle <= hay
    ensures Contains(hay, needle)
  {
  }

  /** A text shorter than the needle cannot contain it. */
  lemma {:induction false} ShorterNotContained(hay: string, needle: string)
    requires |hay| < |needle|
    ensures !Contains(hay, needle)
    decreases |hay|
  {
    if |hay| > 0 {
      ShorterNotContained(hay[1..], needle);
    }
  }

  /** A text contains every part it is assembled from, wherever that part sits. */
  lemma {:induction false} ContainsMiddle(before: string, needle: string, after: string)
    ensures Contains(before + needle + after, needle)
    decreases |before|
  {
    if |before| == 0 {
      assert before + needle + after == needle + after;
    } else {
      ContainsMiddle(before[1..], needle, after);
      assert (before + needle + after)[1..] == before[1..] + needle + after;
    }
  }

  /** In a text made of four parts, the first is a prefix, and the middle two, together
      or the third alone, are contained. */
  lemma FourParts(a: string, b: string, c: string, d: string)
    ensures a <= a + b + c + d
    ensures Contains(a + b + c + d, b + c)
    ensures Contains(a + b + c + d, c)
  {
    ContainsMiddle(a, b + c, d);
    ContainsMiddle(a + b, c, d);
    assert a + b + c + d == a + (b + c) + d;
  }

  /** strings.Join: the parts separated by `sep`. */
  function Join(parts: seq<string>, sep: string): string
  {
    if |parts| == 0 then ""
    else if |parts| == 1 then parts[0]
    else parts[0] + sep + Join(parts[1..], sep)
  }

  /** strings.Split(s, "\n"): the maximal newline-free segments of `s`, in order.
      There is always at least one segment; "" gives [""] and a trailing newline
      gives a trailing empty segment. */
  function SplitLines(s: string): (r: seq<string>)
    ensures |r| >= 1
    decreases |s|
  {
    if |s| == 0 then [""]
    else
      var rest := SplitLines(s[1..]);
      if s[0] == '\n' then [""] + rest
      else [[s[0]] + rest[0]] + rest[1..]
  }

  /** No segment produced by SplitLines contains a newline. */
  lemma {:induction false} SplitLinesNewlineFree(s: string)
    ensures forall i :: 0 <= i < |SplitLines(s)| ==> '\n' !in SplitLines(s)[i]
    decreases |s|
  {
    if |s| > 0 {
      SplitLinesNewlineFree(s[1..]);
    }
  }

  /** Joining the segments back with "\n" gives the original text: splitting loses nothing. */
  lemma {:induction false} SplitLinesJoin(s: string)
    ensures Join(SplitLines(s), "\n") == s
    decreases |s|
  {
    if |s| > 0 {
      var rest := SplitLines(s[1..]);
      SplitLinesJoin(s[1..]);
      if s[0] == '\n' {
        assert ([""] + rest)[1..] == rest;
        assert Join([""] + rest, "\n") == "" + "\n" + Join(rest, "\n");
        assert s == [s[0]] + s[1..];
      } else {
        var first := [s[0]] + rest[0];
        var r := [first] + rest[1..];
        if |rest| == 1 {
          assert Join(r, "\n") == first;
          assert s == [s[0]] + s[1..];
        } else {
          assert r[1..] == rest[1..];
          assert Join(r, "\n") == first + "\n" + Join(rest[1..], "\n");
          assert Join(rest, "\n") == rest[0] + "\n" + Join(rest[1..], "\n");
          assert s == [s[0]] + s[1..];
        }
      }
    }
  }

  /** The segments that are not empty, in their original order. */
  function NonEmpty(segments: seq<string>): (r: seq<string>)
    ensures |r| <= |segments|
    ensures forall i :: 0 <= i < |r| ==> r[i] != ""
    ensures forall i :: 0 <= i < |r| ==> r[i] in segments
    ensures forall x :: x in segments && x != "" ==> x in r
    decreases |segments|
  {
    if |segments| == 0 then []
    else
      var init := NonEmpty(segments[..|segments| - 1]);
      var last := segments[|segments| - 1];
      assert segments == segments[..|segments| - 1] + [last];
      if last == "" then init else init + [last]
  }

  /** Number of empty segments. */
  function CountEmpty(segments: seq<string>): nat
    decreases |segments|
  {
    if |segments| == 0 then 0
    else CountEmpty(segments[..|segments| - 1]) + (if segments[|segments| - 1] == "" then 1 else 0)
  }

  /** Exactly the empty segments are dropped. */
  lemma {:induction false} NonEmptyLength(segments: seq<string>)
    ensures |NonEmpty(segments)| == |segments| - CountEmpty(segments)
    decreases |segments|
  {
    if |segments| > 0 {
      NonEmptyLength(segments[..|segments| - 1]);
    }
  }
}
