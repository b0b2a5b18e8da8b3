/** Assembly of an alert mail in the shape of section 2.1 of RFC 5322: header
    lines `name: value` ended by CRLF, an empty line, then the body. */
module Mail {
  import opened Text

  /** One header line, as `fmt.Sprintf("%s: %s\r\n", k, v)` writes it. */
  function HeaderLine(name: string, value: string): (line: string)
    ensures |line| == |name| + |value| + 4
    ensures line[..|name|] == name
    ensures line[|line| - 2..] == "\r\n"
  {
    name + ": " + value + "\r\n"
  }

  /** The three headers an alert carries; recipients are joined with ",". */
  function AlertHeaders(sender: string, recipients: seq<string>, subject: string): (h: map<string, string>)
    ensures h.Keys == {"From", "To", "Subject"} && |h| == 3
    ensures h["From"] == sender && h["To"] == Join(recipients, ",") && h["Subject"] == subject
  {
    var h := map["From" := sender, "To" := Join(recipients, ","), "Subject" := subject];
    assert h.Keys == {"From", "To", "Subject"};
    h
  }

  /** `order` lists every header name exactly once: one possible iteration order of the map. */
  predicate IsKeyOrder(order: seq<string>, headers: map<string, string>)
  {
    && (forall i :: 0 <= i < |order| ==> order[i] in headers)
    && (forall k :: k in headers ==> k in order)
    && (forall i, j :: 0 <= i < j < |order| ==> order[i] != order[j])
  }

  /** The header lines written in the given order. */
  function HeaderBlock(headers: map<string, string>, order: seq<string>): string
    requires forall i :: 0 <= i < |order| ==> order[i] in headers
    decreases |order|
  {
    if |order| == 0 then ""
    else
      var k := order[|order| - 1];
      HeaderBlock(headers, order[..|order| - 1]) + HeaderLine(k, headers[k])
  }

  /** The message loop of `sendEmail`: every header, in whatever order the map is
      iterated, then an empty line and the body. The order used is returned with it. */
  method AssembleMessage(headers: map<string, string>, body: string) returns (message: string, order: seq<string>)
    ensures IsKeyOrder(order, headers)
    ensures message == HeaderBlock(headers, order) + "\r\n" + body
  {
    message := "";
    order := [];
    var remaining := headers.Keys;
    while remaining != {}
      invariant forall i :: 0 <= i < |order| ==> order[i] in headers && order[i] !in remaining
      invariant forall k :: k in headers ==> k in order || k in remaining
      invariant remaining <= headers.Keys
      invariant forall i, j :: 0 <= i < j < |order| ==> order[i] != order[j]
      invariant message == HeaderBlock(headers, order)
      decreases remaining
    {
      var k :| k in remaining;
      message := message + HeaderLine(k, headers[k]);
      order := order + [k];
      remaining := remaining - {k};
    }
    message := message + "\r\n" + body;
  }

  /** A repetition-free sequence has as many distinct elements as positions. */
  lemma {:induction false} DistinctCardinality(s: seq<string>)
    requires forall i, j :: 0 <= i < j < |s| ==> s[i] != s[j]
    ensures |set x | x in s| == |s|
    decreases |s|
  {
    if |s| > 0 {
      var init := s[..|s| - 1];
      DistinctCardinality(init);
      assert (set x | x in s) == (set x | x in init) + {s[|s| - 1]};
      assert s[|s| - 1] !in (set x | x in init);
    }
  }

  /** Every iteration order has exactly one line per header. */
  lemma KeyOrderLength(order: seq<string>, headers: map<string, string>)
    requires IsKeyOrder(order, headers)
    ensures |order| == |headers|
  {
    DistinctCardinality(order);
    assert (set x | x in order) == headers.Keys;
  }

  /** A repetition-free sequence holds each of its elements exactly once. */
  lemma {:induction false} DistinctOccursOnce(s: seq<string>, k: string)
    requires forall i, j :: 0 <= i < j < |s| ==> s[i] != s[j]
    requires k in s
    ensures multiset(s)[k] == 1
    decreases |s|
  {
    var init, last := s[..|s| - 1], s[|s| - 1];
    assert s == init + [last];
    assert multiset(s) == multiset(init) + multiset{last};
    if last == k {
      assert k !in init;
    } else {
      DistinctOccursOnce(init, k);
    }
  }

  /** In an alert mail From, To and Subject each head exactly one line, whatever the order. */
  lemma AlertHeaderOrder(sender: string, recipients: seq<string>, subject: string, order: seq<string>)
    requires IsKeyOrder(order, AlertHeaders(sender, recipients, subject))
    ensures |order| == 3
    ensures multiset(order)["From"] == 1 && multiset(order)["To"] == 1 && multiset(order)["Subject"] == 1
  {
    var h := AlertHeaders(sender, recipients, subject);
    KeyOrderLength(order, h);
    DistinctOccursOnce(order, "From");
    DistinctOccursOnce(order, "To");
    DistinctOccursOnce(order, "Subject");
  }
}
