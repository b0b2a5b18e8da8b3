/** When a probe result raises an alert, and the words the alert uses. */
module Incident {
  import opened Text

  /** The only status counted as healthy. */
  const Healthy: int := 200

  /** The alert rule of the result loop: exactly one of the previous status and the
      new code is 200, so the first failure and the first recovery are reported and
      a repeated failure or a repeated success is silent. */
  function AlertFires(lastStatus: int, code: int): (fires: bool)
    ensures fires <==> ((lastStatus == Healthy) != (code == Healthy))
    ensures lastStatus == Healthy && code == Healthy ==> !fires
    ensures lastStatus != Healthy && code != Healthy ==> !fires
  {
    (lastStatus == 200 && code != 200) || (lastStatus != 200 && code == 200)
  }

  /** Severity word for an OPEN incident: 500 is an alert, 404 a fatal error, anything else a warning. */
  function Label(code: int): (word: string)
    ensures code == 500 ==> word == "Alert"
    ensures code == 404 ==> word == "Fatal Error"
    ensures code != 500 && code != 404 ==> word == "Warning"
  {
    if code == 500 then "Alert"
    else if code == 404 then "Fatal Error"
    else "Warning"
  }

  const OpenPrefix: string := "Incident OPEN ("
  const ClosedPrefix: string := "Incident CLOSED for "

  /** Subject of an alert about `url` whose new status is `code`. */
  function Subject(url: string, code: int): (subject: string)
    ensures code != Healthy ==> subject == OpenPrefix + Label(code) + ") for " + url
    ensures code == Healthy ==> subject == ClosedPrefix + url
  {
    if code != 200 then OpenPrefix + Label(code) + ") for " + url
    else ClosedPrefix + url
  }

  /** The subject tells an opened incident from a closed one, and ends with the URL. */
  lemma SubjectKinds(url: string, code: int)
    ensures OpenPrefix <= Subject(url, code) <==> code != Healthy
    ensures ClosedPrefix <= Subject(url, code) <==> code == Healthy
    ensures |Subject(url, code)| >= |url| && Subject(url, code)[|Subject(url, code)| - |url|..] == url
  {
    var s := Subject(url, code);
    assert OpenPrefix[9] != ClosedPrefix[9];
    if code != Healthy {
      assert s[..|OpenPrefix|] == OpenPrefix;
      assert s[9] == OpenPrefix[9];
    } else {
      assert s[..|ClosedPrefix|] == ClosedPrefix;
      assert s[9] == ClosedPrefix[9];
    }
  }

  /** When the alert fires its subject says OPEN exactly when the page was healthy
      before, and CLOSED exactly when it was not. */
  lemma AlertSubjectMatchesTransition(lastStatus: int, code: int, url: string)
    requires AlertFires(lastStatus, code)
    ensures OpenPrefix <= Subject(url, code) <==> lastStatus == Healthy
    ensures ClosedPrefix <= Subject(url, code) <==> lastStatus != Healthy
  {
    SubjectKinds(url, code);
  }

  /** Greeting and sender line that open every alert body. */
  const Greeting: string := "Hi there,\n\n" + "This is a notification sent by Ping®.\n\n"

  /** Closing lines of every alert body. */
  const Signature: string := "Best regards,\n" + "Ping®\r\n"

  /** Body of the alert mail: the greeting, the incident line (severity word and URL
      for an OPEN incident, the CLOSED line for a recovery) and the signature. */
  function Body(url: string, code: int): (body: string)
    ensures Greeting <= body
    ensures code != Healthy ==> Contains(body, "Incident (" + Label(code) + ") for " + url)
    ensures code == Healthy ==> Contains(body, ClosedPrefix + url)
    ensures Contains(body, url)
  {
    var rest := if code != 200 then
                  ", has been assigned to you.\n\n" +
                  "You will be notified when the page goes live back again.\n\n" + Signature
                else "\n\n" + Signature;
    var lead := if code != 200 then "Incident (" + Label(code) + ") for " else ClosedPrefix;
    FourParts(Greeting, lead, url, rest);
    Greeting + lead + url + rest
  }

  /** Mail settings; `recipients` are the addresses alerts go to. */
  datatype SmtpSettings = SmtpSettings(
    email: string,
    password: string,
    server: string,
    port: string,
    recipients: seq<string>)

  /** Settings that were never loaded: every field holds its zero value. */
  const UnsetSettings: SmtpSettings := SmtpSettings("", "", "", "", [])

  /** What a `sendEmail` call does: nothing, or one message handed to the relay
      `server` (host and port joined by ":") from `sender` to `recipients`. */
  datatype Delivery =
    | Skipped
    | Sent(server: string, sender: string, recipients: seq<string>, message: string)
}
