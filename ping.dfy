/** One run of the monitoring engine (`cmd/ping`): probe the due pages, then, for
    every result, decide on an alert, build the history entry and advance the page. */
module Ping {
  import opened Wrappers
  import opened Documents
  import opened Records
  import opened Repository
  import opened Probe
  import opened Incident
  import opened Mail

  /** A page together with the outcome of its probe. */
  datatype PageResult = PageResult(page: Page, code: int, duration: int, content: string)

  /** A `sendEmail(url, code)` call requested by the result loop. */
  datatype Alert = Alert(url: string, code: int)

  /** The worker pool, run sequentially: every page is probed once, in order. When a
      probe panics on a refused URL the process ends and no result is handled. */
  function ProbeAll(pages: seq<Page>, fetch: string -> Transport): (results: Option<seq<PageResult>>)
    ensures results.None? <==> exists i :: 0 <= i < |pages| && UrlTest(pages[i].url, fetch).None?
    ensures results.Some? ==> |results.value| == |pages|
    ensures results.Some? ==> forall i :: 0 <= i < |pages| ==>
              && UrlTest(pages[i].url, fetch).Some?
              && results.value[i].page == pages[i]
              && results.value[i].code == UrlTest(pages[i].url, fetch).value.code
              && results.value[i].duration == UrlTest(pages[i].url, fetch).value.duration
              && results.value[i].content == UrlTest(pages[i].url, fetch).value.content
  {
    if exists i :: 0 <= i < |pages| && UrlTest(pages[i].url, fetch).None? then None
    else
      Some(seq(|pages|, i requires 0 <= i < |pages| =>
        var o := UrlTest(pages[i].url, fetch).value;
        PageResult(pages[i], o.code, o.duration, o.content)))
  }

  /** The body worth keeping from a probe: the body of a failed probe, nothing from a healthy one. */
  function RetainedContent(code: int, body: string): (kept: string)
    ensures code == Healthy ==> kept == ""
    ensures code != Healthy ==> kept == body
  {
    if code != 200 then body else ""
  }

  /** The page after its probe result is recorded at `now`: new status, modification
      time, next ping `interval` minutes later, and the body only from a failed,
      non-empty probe. The fields of the administration API are carried over. */
  function ProcessedPage(p: Page, code: int, body: string, now: Time): (q: Page)
    ensures q.lastStatus == code && q.base.modified == now
    ensures q.nextPing == now + p.interval * SecondsPerMinute
    ensures code == Healthy ==> q.content == p.content
    ensures code != Healthy && body != "" ==> q.content == body
    ensures body == "" ==> q.content == p.content
    ensures SameAdminFields(q, p)
  {
    var content := RetainedContent(code, body);
    var q := p.(lastStatus := code,
                base := p.base.(modified := now),
                nextPing := now + p.interval * 60);
    if content != "" then q.(content := content) else q
  }

  /** The history entry of one result: code, page id, both timestamps `now`;
      this revision's entry type has no body. */
  function HistoryEntry(row: PageResult, now: Time): (e: PageEntry)
    ensures e.code == row.code && e.page == row.page.base.id && e.load == row.duration
    ensures e.base.created == now && e.base.modified == now && e.base.id == NoId
    ensures e.content == ""
  {
    PageEntry(InsertDefaults(Base(NoId, ZeroTime, ZeroTime), now), row.duration, row.code, row.page.base.id, "")
  }

  /** The store after the rows have been upserted in order. */
  function Applied(store: map<PageId, Page>, rows: seq<PageResult>, now: Time): map<PageId, Page>
    decreases |rows|
  {
    if |rows| == 0 then store
    else
      var last := rows[|rows| - 1];
      Applied(store, rows[..|rows| - 1], now)[last.page.base.id := ProcessedPage(last.page, last.code, last.content, now)]
  }

  /** The alerts the rows request, in order. */
  function AlertsOf(rows: seq<PageResult>): seq<Alert>
    decreases |rows|
  {
    if |rows| == 0 then []
    else
      var last := rows[|rows| - 1];
      AlertsOf(rows[..|rows| - 1]) + (if AlertFires(last.page.lastStatus, last.code) then [Alert(last.page.url, last.code)] else [])
  }

  /** The result loop of `main`. Returns the alerts requested and the history entries
      built (the entry store of this revision keeps none of them). */
  method ProcessResults(repo: PageRepository, results: seq<PageResult>, now: Time)
    returns (alerts: seq<Alert>, entries: seq<PageEntry>)
    modifies repo
    ensures repo.pages == Applied(old(repo.pages), results, now)
    ensures alerts == AlertsOf(results)
    ensures |entries| == |results|
    ensures forall i :: 0 <= i < |results| ==> entries[i] == HistoryEntry(results[i], now)
  {
    alerts, entries := [], [];
    for i := 0 to |results|
      invariant repo.pages == Applied(old(repo.pages), results[..i], now)
      invariant alerts == AlertsOf(results[..i])
      invariant |entries| == i
      invariant forall j :: 0 <= j < i ==> entries[j] == HistoryEntry(results[j], now)
    {
      var row := results[i];
      assert results[..i + 1][..i] == results[..i];
      if AlertFires(row.page.lastStatus, row.code) {
        alerts := alerts + [Alert(row.page.url, row.code)];
      }
      entries := entries + [HistoryEntry(row, now)];
      repo.Upsert(ProcessedPage(row.page, row.code, row.content, now));
    }
    assert results[..|results|] == results;
  }

  /** Some row carries the page with this id. */
  predicate Processed(rows: seq<PageResult>, id: PageId)
  {
    exists i :: 0 <= i < |rows| && rows[i].page.base.id == id
  }

  /** A processed page is stored as the processed form of one of its rows
      (the last one, when a page has several). */
  lemma {:induction false} AppliedProcessed(store: map<PageId, Page>, rows: seq<PageResult>, now: Time, id: PageId)
    requires Processed(rows, id)
    ensures id in Applied(store, rows, now)
    ensures exists i :: 0 <= i < |rows| && rows[i].page.base.id == id &&
              Applied(store, rows, now)[id] == ProcessedPage(rows[i].page, rows[i].code, rows[i].content, now)
    decreases |rows|
  {
    var last := rows[|rows| - 1];
    var init := rows[..|rows| - 1];
    if last.page.base.id != id {
      var i :| 0 <= i < |rows| && rows[i].page.base.id == id;
      assert init[i].page.base.id == id;
      AppliedProcessed(store, init, now, id);
      var j :| 0 <= j < |init| && init[j].page.base.id == id &&
               Applied(store, init, now)[id] == ProcessedPage(init[j].page, init[j].code, init[j].content, now);
      assert rows[j] == init[j];
    }
  }

  /** A page no row carries keeps its stored value. */
  lemma {:induction false} AppliedUntouched(store: map<PageId, Page>, rows: seq<PageResult>, now: Time, id: PageId)
    requires !Processed(rows, id)
    ensures id in Applied(store, rows, now) <==> id in store
    ensures id in store ==> Applied(store, rows, now)[id] == store[id]
    decreases |rows|
  {
    if |rows| > 0 {
      var init := rows[..|rows| - 1];
      assert !Processed(init, id) by {
        forall i | 0 <= i < |init| ensures init[i].page.base.id != id {
          assert init[i] == rows[i];
        }
      }
      AppliedUntouched(store, init, now, id);
    }
  }

  /** Scheduling: after a run at `now`, a processed page is selected by `PagesForPing(t)`
      exactly when `t` is at least its interval past `now`. With an interval of one
      minute or more it is not due again before then; with an interval of zero or
      less it is due again at once. */
  lemma ProcessedDueAgain(store: map<PageId, Page>, rows: seq<PageResult>, now: Time, id: PageId, t: Time)
    requires Processed(rows, id)
    ensures id in Applied(store, rows, now)
    ensures id in PagesForPing(Applied(store, rows, now), t) <==>
              t >= now + Applied(store, rows, now)[id].interval * SecondsPerMinute
  {
    AppliedProcessed(store, rows, now, id);
  }

  /** Selecting again right after a run finds nothing, provided every page that was
      due got a result and every processed page has an interval of at least a minute. */
  lemma NothingDueRightAfterRun(store: map<PageId, Page>, rows: seq<PageResult>, now: Time)
    requires forall id :: id in PagesForPing(store, now) ==> Processed(rows, id)
    requires forall i :: 0 <= i < |rows| ==> rows[i].page.interval >= 1
    ensures PagesForPing(Applied(store, rows, now), now) == map[]
  {
    var after := Applied(store, rows, now);
    forall id | id in after
      ensures after[id].nextPing > now
    {
      if Processed(rows, id) {
        AppliedProcessed(store, rows, now, id);
      } else {
        AppliedUntouched(store, rows, now, id);
      }
    }
  }

  /** The mail settings of this revision are never loaded, so they are incomplete. */
  predicate SettingsIncomplete(s: SmtpSettings)
  {
    s.email == "" || s.server == "" || s.port == "" || |s.recipients| == 0
  }

  /** `sendEmail(url, code)`: skipped when the settings are incomplete, otherwise one
      message with From, To and Subject headers in map order, an empty line and the body. */
  method SendEmail(settings: SmtpSettings, url: string, code: int) returns (d: Delivery, order: seq<string>)
    ensures d.Skipped? <==> SettingsIncomplete(settings)
    ensures d.Sent? ==> d.server == settings.server + ":" + settings.port
    ensures d.Sent? ==> d.sender == settings.email && d.recipients == settings.recipients
    ensures d.Sent? ==>
              var headers := AlertHeaders(settings.email, settings.recipients, Subject(url, code));
              IsKeyOrder(order, headers) && d.message == HeaderBlock(headers, order) + "\r\n" + Body(url, code)
  {
    if SettingsIncomplete(settings) {
      return Skipped, [];
    }
    var headers := AlertHeaders(settings.email, settings.recipients, Subject(url, code));
    var message;
    message, order := AssembleMessage(headers, Body(url, code));
    d := Sent(settings.server + ":" + settings.port, settings.email, settings.recipients, message);
  }

  /** The settings value `sendEmail` reads is never assigned, so every alert of this
      revision is skipped, whatever its URL and code. */
  method UnloadedSettingsSkip(url: string, code: int) returns (d: Delivery)
    ensures d == Skipped
  {
    var order;
    d, order := SendEmail(UnsetSettings, url, code);
  }

  /** A healthy page whose probe cannot reach the server opens a "Fatal Error" incident,
      and the retained body is empty, so the page keeps its previous content. */
  lemma UnreachableOpensIncident(p: Page, fetch: string -> Transport, now: Time)
    requires p.lastStatus == Healthy
    requires fetch(NormalizeUrl(p.url)).Failed?
    ensures ProbeAll([p], fetch).Some?
    ensures var row := ProbeAll([p], fetch).value[0];
            && AlertFires(p.lastStatus, row.code)
            && Subject(p.url, row.code) == "Incident OPEN (Fatal Error) for " + p.url
            && ProcessedPage(p, row.code, row.content, now).content == p.content
  {
  }

  /** A page that was failing and answers 200 closes its incident, keeps its last error
      body, and is next due a whole interval later. */
  lemma RecoveryClosesIncident(p: Page, body: string, now: Time)
    requires p.lastStatus != Healthy && p.interval >= 1
    ensures AlertFires(p.lastStatus, 200)
    ensures Subject(p.url, 200) == ClosedPrefix + p.url
    ensures ProcessedPage(p, 200, body, now).content == p.content
    ensures ProcessedPage(p, 200, body, now).nextPing > now
  {
  }
}
