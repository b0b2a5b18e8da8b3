/** The older engine (`checker/checker.go`): same alert rule, but the history entry
    keeps the failed body, the page only gets its status and modification time, and
    the mail subject already carries a "Subject: " prefix. */
module Checker {
  import opened Text
  import opened Documents
  import opened Records
  import opened Repository
  import opened Incident
  import opened Mail
  import opened Ping

  /** The history entry of one result, with the body of a failed probe. */
  function CheckerEntry(row: PageResult, now: Time): (e: PageEntry)
    ensures e.code == row.code && e.page == row.page.base.id && e.load == row.duration
    ensures e.base.created == now && e.base.modified == now
    ensures row.code != Healthy ==> e.content == row.content
    ensures row.code == Healthy ==> e.content == ""
  {
    PageEntry(InsertDefaults(Base(NoId, ZeroTime, ZeroTime), now), row.duration, row.code, row.page.base.id,
              RetainedContent(row.code, row.content))
  }

  /** The page after its result is recorded: only status and modification time change;
      this revision neither reschedules the page nor stores a body on it. */
  function CheckerPage(p: Page, code: int, now: Time): (q: Page)
    ensures q.lastStatus == code && q.base.modified == now
    ensures q.nextPing == p.nextPing && q.content == p.content
    ensures SameAdminFields(q, p)
  {
    p.(lastStatus := code, base := p.base.(modified := now))
  }

  /** The store after the rows have been upserted in order. */
  function CheckerApplied(store: map<PageId, Page>, rows: seq<PageResult>, now: Time): map<PageId, Page>
    decreases |rows|
  {
    if |rows| == 0 then store
    else
      var last := rows[|rows| - 1];
      CheckerApplied(store, rows[..|rows| - 1], now)[last.page.base.id := CheckerPage(last.page, last.code, now)]
  }

  /** The result loop of this revision: alerts requested, entries inserted into the
      history collection in order, pages upserted. */
  method ProcessResults(repo: PageRepository, results: seq<PageResult>, now: Time)
    returns (alerts: seq<Alert>, history: seq<PageEntry>)
    modifies repo
    ensures repo.pages == CheckerApplied(old(repo.pages), results, now)
    ensures alerts == AlertsOf(results)
    ensures |history| == |results|
    ensures forall i :: 0 <= i < |results| ==> history[i] == CheckerEntry(results[i], now)
  {
    alerts, history := [], [];
    for i := 0 to |results|
      invariant repo.pages == CheckerApplied(old(repo.pages), results[..i], now)
      invariant alerts == AlertsOf(results[..i])
      invariant |history| == i
      invariant forall j :: 0 <= j < i ==> history[j] == CheckerEntry(results[j], now)
    {
      var row := results[i];
      assert results[..i + 1][..i] == results[..i];
      if AlertFires(row.page.lastStatus, row.code) {
        alerts := alerts + [Alert(row.page.url, row.code)];
      }
      history := history + [CheckerEntry(row, now)];
      repo.Upsert(CheckerPage(row.page, row.code, now));
    }
    assert results[..|results|] == results;
  }

  /** This revision never moves a stored page's next-ping instant and never replaces
      its content: each page in the store afterwards has the next-ping instant and the
      content of the copy it came from, the stored one or the one a result carried. */
  lemma {:induction false} CheckerKeepsScheduleAndContent(store: map<PageId, Page>, rows: seq<PageResult>, now: Time, id: PageId)
    requires id in CheckerApplied(store, rows, now)
    ensures var after := CheckerApplied(store, rows, now)[id];
            || (id in store && after.nextPing == store[id].nextPing && after.content == store[id].content)
            || (exists i :: 0 <= i < |rows| && rows[i].page.base.id == id &&
                  after.nextPing == rows[i].page.nextPing && after.content == rows[i].page.content)
    decreases |rows|
  {
    if |rows| > 0 {
      var init := rows[..|rows| - 1];
      var last := rows[|rows| - 1];
      var after := CheckerApplied(store, rows, now)[id];
      if last.page.base.id != id {
        CheckerKeepsScheduleAndContent(store, init, now, id);
        if !(id in store && after.nextPing == store[id].nextPing && after.content == store[id].content) {
          var i :| 0 <= i < |init| && init[i].page.base.id == id &&
                   after.nextPing == init[i].page.nextPing && after.content == init[i].page.content;
          assert rows[i] == init[i];
        }
      }
    }
  }

  /** The subject of this revision: the plain subject with "Subject: " before it and a blank after it. */
  function CheckerSubject(url: string, code: int): (subject: string)
    ensures subject == "Subject: " + Subject(url, code) + " "
  {
    if code != 200 then "Subject: " + OpenPrefix + Label(code) + ") for " + url + " "
    else "Subject: " + ClosedPrefix + url + " "
  }

  /** When the alert fires, this revision's subject begins with "Subject: " and the OPEN
      prefix exactly when the page was healthy before, and with "Subject: " and the
      CLOSED prefix exactly when it was not. */
  lemma CheckerSubjectMatchesTransition(lastStatus: int, code: int, url: string)
    requires AlertFires(lastStatus, code)
    ensures "Subject: " + OpenPrefix <= CheckerSubject(url, code) <==> lastStatus == Healthy
    ensures "Subject: " + ClosedPrefix <= CheckerSubject(url, code) <==> lastStatus != Healthy
  {
    var s := CheckerSubject(url, code);
    var open, closed := "Subject: " + OpenPrefix, "Subject: " + ClosedPrefix;
    assert open[18] != closed[18];
    if code != Healthy {
      assert s == open + Label(code) + ") for " + url + " ";
      assert s[..|open|] == open;
      assert s[18] == open[18];
    } else {
      assert s == closed + url + " ";
      assert s[..|closed|] == closed;
      assert s[18] == closed[18];
    }
  }

  /** Since the header name is written again in front of it, the subject line of the
      mail reads "Subject: Subject: ...". */
  lemma SubjectLineDoubled(url: string, code: int)
    ensures HeaderLine("Subject", CheckerSubject(url, code)) == "Subject: Subject: " + Subject(url, code) + " \r\n"
  {
    var s := Subject(url, code);
    assert "Subject" + ": " == "Subject: ";
    calc {
      HeaderLine("Subject", CheckerSubject(url, code));
      "Subject" + ": " + ("Subject: " + s + " ") + "\r\n";
      ("Subject: " + "Subject: ") + s + (" " + "\r\n");
    }
    assert "Subject: " + "Subject: " == "Subject: Subject: ";
    assert " " + "\r\n" == " \r\n";
  }

  /** Body of this revision: the same greeting, incident line and signature, but the
      URL is set in backticks. */
  function CheckerBody(url: string, code: int): (body: string)
    ensures Greeting <= body
    ensures code != Healthy ==> Contains(body, "Incident (" + Label(code) + ") for " + ("`" + url + "`"))
    ensures code == Healthy ==> Contains(body, ClosedPrefix + ("`" + url + "`"))
    ensures Contains(body, "`" + url + "`")
  {
    var rest := if code != 200 then
                  ", has been assigned to you.\n\n" +
                  "You will be notified when the page goes live back again.\n\n" + Signature
                else "\n\n" + Signature;
    var lead := if code != 200 then "Incident (" + Label(code) + ") for " else ClosedPrefix;
    FourParts(Greeting, lead, "`" + url + "`", rest);
    Greeting + lead + ("`" + url + "`") + rest
  }

  /** This revision also needs a password before it sends. */
  predicate CheckerSettingsIncomplete(s: SmtpSettings)
  {
    s.email == "" || s.password == "" || s.server == "" || s.port == "" || |s.recipients| == 0
  }

  /** `sendEmail(url, code)` of this revision. */
  method CheckerSendEmail(settings: SmtpSettings, url: string, code: int) returns (d: Delivery, order: seq<string>)
    ensures d.Skipped? <==> CheckerSettingsIncomplete(settings)
    ensures d.Sent? ==> d.server == settings.server + ":" + settings.port
    ensures d.Sent? ==> d.sender == settings.email && d.recipients == settings.recipients
    ensures d.Sent? ==>
              var headers := AlertHeaders(settings.email, settings.recipients, CheckerSubject(url, code));
              IsKeyOrder(order, headers) && d.message == HeaderBlock(headers, order) + "\r\n" + CheckerBody(url, code)
  {
    if CheckerSettingsIncomplete(settings) {
      return Skipped, [];
    }
    var headers := AlertHeaders(settings.email, settings.recipients, CheckerSubject(url, code));
    var message;
    message, order := AssembleMessage(headers, CheckerBody(url, code));
    d := Sent(settings.server + ":" + settings.port, settings.email, settings.recipients, message);
  }

  /** Settings complete enough for this revision are complete enough for the newer one. */
  lemma CheckerStricterThanPing(s: SmtpSettings)
    ensures SettingsIncomplete(s) ==> CheckerSettingsIncomplete(s)
  {
  }
}
