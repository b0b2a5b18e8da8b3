# Ping monitor: the result-processing core, in Dafny

Ping is a small synthetic-monitoring tool written in Go. It keeps a collection
of monitored pages. On each run it selects the pages that are due, sends a GET
to each, and handles every result in three steps. First it decides whether the
result opens or closes an incident and needs an alert mail. Then it writes a
history entry. Finally it advances the page's status, schedule and last error
body. An administration API creates and edits the pages.

This project models that core as Dafny code and proves its properties:

- the result loop of `cmd/ping/ping.go`;
- the same loop in the older revision `checker/checker.go`;
- the first URL-list checker, `checker.go`;
- the page store of `pageRepository.go`, as a map from id to page;
- the timestamp defaults of `default.go`;
- the request rules of `cmd/server/handler.go` and of the older `main.go`.

Conventions:

- Time is a whole number of seconds, and Go's zero `time.Time` is `0`.
- Intervals are minutes. `NextPing` is `now + Interval * 60`.
- Page ids are natural numbers. `0` stands for the empty ObjectId.
- The probe is an input, `fetch: string -> Transport`: the network's answer
  for each URL.
- The mail relay is reduced to the `Delivery` the code would hand it.

Modules, one per file:

- `Text`: `strings.Contains`, `Join`, `Split` on `"\n"`.
- `Wrappers`: `Option` and `Result`.
- `Documents`: `DocumentBase` and its defaults.
- `Records`: `Page` and `PageEntry`.
- `Repository`: the page store.
- `Probe`: `urlTest`.
- `Incident`: the alert rule and the alert texts.
- `Mail`: message assembly.
- `Ping`: the `cmd/ping` run.
- `Checker`: `checker/checker.go`.
- `UrlList`: `checker.go`.
- `Http`, `Handler`, `LegacyApi`: the administration API.

Where the code and the documentation disagree, this model follows the code:

- A transport failure is reported as status 404 (500 in `checker.go`), not as a
  separate tag.
- The URL is prefixed with `http://` whenever the text `http://` is missing, even
  if it already has another scheme.
- `PagesForPing` does not look at `Disabled`.
- In `cmd/ping` a 200 result leaves the stored error body in place; it is not
  cleared.
- `cmd/ping/ping.go` never assigns its mail settings, so every alert there is
  skipped.

## Model

| member | source | states |
|---|---|---|
| `Incident.AlertFires` | cmd/ping/ping.go:119-122 | an alert is requested exactly when one, and only one, of the previous status and the new code is 200; 200 after 200 and non-200 after non-200 are silent |
| `Incident.AlertSubjectMatchesTransition` | cmd/ping/ping.go:119-122 | when the alert fires, the subject built at lines 209-220 says OPEN exactly when the page was healthy before and CLOSED exactly when it was not |
| `Incident.Label` | cmd/ping/ping.go:202-208 | the severity word is "Alert" for 500, "Fatal Error" for 404 and "Warning" for every other code |
| `Incident.Subject` | cmd/ping/ping.go:200-228 | the subject is "Incident OPEN (label) for url" for a non-200 code and "Incident CLOSED for url" for 200 |
| `Incident.SubjectKinds` | cmd/ping/ping.go:209-220 | the OPEN prefix appears exactly for non-200 codes and the CLOSED prefix exactly for 200; the subject always ends with the URL |
| `Incident.Body` | cmd/ping/ping.go:211-227 | the body opens with the fixed greeting; for a non-200 code it holds the line "Incident (label) for url", for 200 the line "Incident CLOSED for url"; it always contains the URL |
| `Probe.NormalizeUrl` | cmd/ping/ping.go:161-163 | a URL that contains "http://" is requested unchanged; any other URL gets "http://" in front |
| `Probe.NormalizeUrlIdempotent` | cmd/ping/ping.go:161-163 | the requested URL always contains "http://", and normalising twice equals normalising once |
| `Probe.HttpsGetsPrefixed` | cmd/ping/ping.go:161-163 | "https://h" is requested as "http://https://h" |
| `Probe.UrlTest` | cmd/ping/ping.go:160-192 | the transport answers for the normalised URL; a failure becomes (404, elapsed, "", ""), a response passes status, time, content type and body through; a URL the request builder refuses gives no outcome at all, because the nil request panics. The `urlTest` of checker/checker.go:111-143 is the same function |
| `Probe.FailureLooksLikeNotFound` | cmd/ping/ping.go:172-178 | a transport failure gives exactly the outcome of a genuine empty 404 response |
| `Ping.ProbeAll` | cmd/ping/ping.go:97-114 | the worker pool run sequentially: no results at all, so the result loop never runs, exactly when some page's URL is refused; otherwise one result per page, in page order, carrying that page's `urlTest` outcome |
| `Ping.RetainedContent` | cmd/ping/ping.go:126-129 | the kept body is the probe body when the code is not 200 and empty when it is 200 |
| `Ping.ProcessedPage` | cmd/ping/ping.go:142-149 | the processed page has LastStatus = code, Modified = now and NextPing = now + Interval minutes; its content changes only for a non-200 code with a non-empty body, so a 200 never replaces the last error body; id, created, name, description, URL, rescue URL, interval and disabled are carried over |
| `Ping.HistoryEntry` | cmd/ping/ping.go:131-132 | one entry per result with the result's code and duration, the page's id, Created = Modified = now, and no body |
| `Ping.ProcessResults` | cmd/ping/ping.go:116-157 | after the loop the store is the old store with each result's processed page upserted in order; the alerts requested are exactly the results meeting the alert rule, in order; entry i is the history entry of result i |
| `Ping.AppliedProcessed` | cmd/ping/ping.go:142-151 | every page some result carries is in the store afterwards, as the processed form of one of its results |
| `Ping.AppliedUntouched` | cmd/ping/ping.go:151 | a page no result carries keeps its stored value |
| `Ping.ProcessedDueAgain` | pageRepository.go:47-53 | a processed page is selected by `PagesForPing(t)` exactly when t is at least now + Interval minutes: with an interval of a minute or more it is not due earlier, with an interval of 0 or less it is due at once |
| `Ping.NothingDueRightAfterRun` | cmd/ping/ping.go:116-157 | if every due page got a result and every interval is at least a minute, selecting again at the same instant finds nothing |
| `Ping.SendEmail` | cmd/ping/ping.go:194-241 | skipped exactly when sender, server or port is empty or there is no recipient; otherwise From, To (recipients joined by ",") and Subject lines in some map order, an empty line and the body, for the relay "server:port" |
| `Ping.UnloadedSettingsSkip` | cmd/ping/ping.go:35 | the settings value is never assigned, so `SendEmail` on it skips the mail for every URL and code |
| `Ping.UnreachableOpensIncident` | cmd/ping/ping.go:172-178 | a healthy page whose probe fails opens a "Fatal Error" incident and keeps its previous content |
| `Ping.RecoveryClosesIncident` | cmd/ping/ping.go:119-149 | a failing page answering 200 raises a CLOSED alert, keeps its last error body and is next due strictly after now |
| `Checker.CheckerEntry` | checker/checker.go:83-89 | the entry copies code, duration and page id; its content is the body for a non-200 code and empty for 200 |
| `Checker.CheckerPage` | checker/checker.go:99-102 | only LastStatus = code and Modified = now change; NextPing and content stay as they were |
| `Checker.ProcessResults` | checker/checker.go:73-108 | the store gains each result's updated page in order; the alerts follow the same rule; entry i is the entry of result i |
| `Checker.CheckerKeepsScheduleAndContent` | checker/checker.go:99-102 | every page in the store afterwards has the NextPing and the content it had in the store or in the result it came from |
| `Checker.CheckerSubject` | checker/checker.go:155-173 | this revision's subject is "Subject: " + the plain subject + " " |
| `Checker.CheckerSubjectMatchesTransition` | checker/checker.go:76-79 | when this revision's alert fires, its subject begins with "Subject: Incident OPEN (" exactly when the page was healthy before and with "Subject: Incident CLOSED for " exactly when it was not |
| `Checker.SubjectLineDoubled` | checker/checker.go:184-194 | the Subject header line therefore reads "Subject: Subject: Incident ..." |
| `Checker.CheckerBody` | checker/checker.go:164-180 | the body opens with the same greeting, holds the incident line with the URL between backticks ("Incident (label) for `url`" or "Incident CLOSED for `url`"), and always contains the backticked URL |
| `Checker.CheckerSendEmail` | checker/checker.go:145-194 | skipped exactly when email, password, server or port is empty or there is no recipient; otherwise the assembled message of this revision |
| `Checker.CheckerStricterThanPing` | checker/checker.go:148 | every setting the newer revision would skip on, this one skips on too |
| `Mail.HeaderLine` | checker/checker.go:192 | a header line begins with the name, ends with CRLF and is four characters longer than name and value |
| `Mail.AlertHeaders` | checker/checker.go:184-187 | exactly the three headers From, To and Subject, To being the recipients joined by "," |
| `Mail.AssembleMessage` | checker/checker.go:190-194 | the message is one header line per header, in an order that lists every header exactly once, followed by CRLF and the body |
| `Mail.KeyOrderLength` | checker/checker.go:191-193 | any such order has exactly as many lines as there are headers |
| `Mail.AlertHeaderOrder` | checker/checker.go:184-194 | in an alert mail From, To and Subject each head exactly one line, whatever the order |
| `UrlList.EnqueueUrls` | checker.go:14-36 | the queue is the non-empty lines of the file, verbatim and in file order; none is empty or contains a newline; their number is the number of lines minus the empty ones |
| `UrlList.CarriageReturnKept` | checker.go:32-36 | "a\r\nb\n" queues "a\r" and "b": the carriage return is kept and the empty last line is dropped |
| `UrlList.URLTest` | checker.go:41-60 | the URL is requested as given; a refused URL gives no timing (the nil request panics); a failure, or any URL without "://", reads (0, 500); a response to a URL with "://" reads (elapsed, status) |
| `Text.SplitLinesJoin` | checker.go:15 | joining the split lines with "\n" gives the file back |
| `Text.SplitLinesNewlineFree` | checker.go:15 | no split line contains a newline |
| `Text.NonEmpty` | checker.go:32-36 | the filtered lines are non-empty lines of the input, and every non-empty input line is among them |
| `Text.NonEmptyLength` | checker.go:32-38 | exactly the empty lines are dropped |
| `Repository.PagesForPing` | pageRepository.go:47-53 | exactly the stored pages with NextPing <= now, unchanged |
| `Repository.DisabledNotConsulted` | pageRepository.go:47-53 | toggling Disabled never changes which pages are due |
| `Repository.DueIsMonotone` | pageRepository.go:49 | a page due at some instant is due at every later one |
| `Repository.PageRepository.Find` | pageRepository.go:78-86 | the stored page for a known id, not found otherwise |
| `Repository.PageRepository.Create` | pageRepository.go:88-110 | a duplicate URL fails with "already exist" before the empty-URL check; an empty URL fails next; a failed write fails last; each failure leaves the store unchanged and assigns no id; success stores the page under a new id not used before, returns it with that id and grows the store by one |
| `Repository.PageRepository.Update` | pageRepository.go:112-119 | a known id has its whole document replaced; an unknown id is not found and changes nothing |
| `Repository.PageRepository.Upsert` | pageRepository.go:121-125 | the page is stored under its id whether or not the id existed; other ids are unchanged |
| `Repository.PageRepository.Delete` | pageRepository.go:127-134 | only the entry with that id is removed; an absent id is not found |
| `Documents.InsertDefaults` | default.go:15-18 | Created and Modified become t; the id is unchanged |
| `Documents.UpdateDefaults` | default.go:19-21 | Modified becomes t; Created and the id are unchanged |
| `Documents.DefaultsIdempotent` | default.go:15-21 | both stamps are idempotent for a fixed t |
| `Documents.InsertThenUpdate` | default.go:15-21 | an insert at t1 then an update at t2 leaves Created = t1 and Modified = t2 |
| `Documents.DocumentBase.SetInsertDefaults` | default.go:15-18 | the object's fields become the insert defaults of their old value |
| `Documents.DocumentBase.SetUpdateDefaults` | default.go:19-21 | the object's fields become the update defaults of their old value |
| `Documents.StampInsertThenUpdate` | main.go:25-31 | the same two methods, duplicated in this file, applied in sequence to one object: Created from the insert, Modified from the update, the id untouched |
| `Http.ExactMatch` | cmd/server/handler.go:81 | the request goes on exactly when the header equals the one expected value; otherwise it gets the given error |
| `Http.ErrorResponse` | cmd/server/handler.go:33-38 | an error response has the error's status, the API media type and the error alone as payload |
| `Handler.AcceptHandler` | cmd/server/handler.go:79-90 | the request goes on exactly when Accept is "application/json"; otherwise 406 not_acceptable |
| `Handler.ContentTypeHandler` | cmd/server/handler.go:94-105 | the request goes on exactly when Content-Type is "application/json"; otherwise 415 unsupported_media_type |
| `Handler.AllowCorsHandler` | cmd/server/handler.go:134-142 | OPTIONS gets 200 with the three CORS headers; any other method gets nothing written |
| `Handler.PagesHandler` | cmd/server/handler.go:145-166 | a failed listing is the 400 bad_request error with no page data; a listing is 200 with the pages and the CORS and content-type headers |
| `Handler.UpdateProjection` | cmd/server/handler.go:215-223 | the stored record keeps only interval, description, name, URL and rescue URL from the body; the id comes from the path, Modified is now; LastStatus, content, Disabled, NextPing and Created are zero |
| `Handler.EditedPageIsDueAndRecovers` | cmd/server/handler.go:215-225 | an edited page is due at once, and its next 200 raises a CLOSED alert because its status was reset to 0 |
| `Handler.UpdatePageHandler` | cmd/server/handler.go:208-236 | a known page is replaced whole by the projection and answered 204; an unknown one changes nothing and is answered 500 |
| `Handler.CreatePageHandler` | cmd/server/handler.go:187-206 | Created = Modified = now before the create; 201 with the stored page exactly when the create succeeds, otherwise 500 and no change |
| `LegacyApi.AcceptHandler` | main.go:165-176 | the request goes on exactly when Accept is "application/vnd.api+json"; otherwise 406 |
| `LegacyApi.ContentTypeHandler` | main.go:178-189 | the request goes on exactly when Content-Type is "application/vnd.api+json"; otherwise 415 |
| `LegacyApi.PlainJsonRefused` | main.go:165-189 | plain "application/json" is refused by both gates of this revision |
| `LegacyApi.UpdateBody` | main.go:261-269 | the whole body is stored, with the id from the path and Modified = now; no field is dropped |
| `LegacyApi.LegacyRepository.Create` | main.go:79-89 | no URL or duplicate check; a failed write leaves the store unchanged and assigns no id; otherwise the page is stored under a new id and returned with it |
| `LegacyApi.LegacyRepository.Update` | main.go:91-98 | a known id has its whole document replaced; an unknown id is not found |
| `LegacyApi.CreatePageHandler` | main.go:245-259 | Created = Modified = now; 201 with the stored page exactly when the write succeeds, otherwise 500 and no change |
| `LegacyApi.UpdatePageHandler` | main.go:261-276 | a known page becomes the whole body (204); an unknown one gives 500 and no change |

## Left out

- HTTP probing: the round trip and the body read are the input `fetch`. No per-request timeout is modelled, because the source sets none.
- URL parsing: which URLs `http.NewRequest` refuses (a space in the host, a control character such as the "\r" kept by `UrlList.CarriageReturnKept`) is decided by `fetch` as `Rejected`. The model gives only the consequence: the panic in a worker goroutine ends the process, so the run handles no result.
- The worker pool: the goroutines, the channel and the `WaitGroup`. `ProbeAll` runs the probes one after another. The source appends to `results` from several goroutines without a lock. So it does not guarantee one result per page, and the result loops accept any result list.
- SMTP transport: dial, TLS, auth, `Rcpt`, `Data`, and the `log.Panic` exits. Only the skip check and the message text are modelled.
- MongoDB sessions, index creation, configuration loading, logging and the router wiring.
- Storage write failures other than "not found" and the failed create, in these places:
  - the `Upsert` at cmd/ping/ping.go:151-155, which ends the run with `log.Panic`;
  - the history `Insert` at checker/checker.go:91-94, which ends the run with `log.Panic` before the page is upserted;
  - the `UpsertId` at checker/checker.go:102, whose error is dropped (lines 104-106 test the `Insert` error again);
  - `Update` and `Delete` in cmd/server/handler.go:225-228 and 244-247, where the error reaches `recoverHandler` through `Panicln` and becomes the 500 response.
  The result loops assume every write succeeds. In the handlers only the "not found" failure is modelled.
- `bson.ObjectIdHex` panicking on a malformed id in a path. Ids here are already numbers.
- `Repository.PageRepository.Create`: the new id (`bson.NewObjectId`) is a parameter. It is required to be non-zero and unused, as the library's uniqueness guarantee promises. A page whose body already carried an id is stored under the new id.
- `pageEntryRepository.go`: `Create` stores nothing, so `Ping.ProcessResults` returns the entries it built and persists none.
- `Pages`/`AllPages` of the repository and `pages()` of `checker/checker.go` list every page. They are not modelled apart from the store itself, because `checker/checker.go` processes whatever results it has.
- `pageHandler`, `deletepageHandler`, `bodyHandler` (JSON decoding), `recoverHandler` and `loggingHandler` are response plumbing. The only effect taken from `recoverHandler` is that a handler panic becomes the 500 error.
- `Load = Duration.Seconds()` is a float. The duration is kept as an opaque integer.
- Wall-clock time: the separate `time.Now()` calls of one result are treated as one instant `now`.
- `Ping.ProcessedPage`: does not model the int64 nanosecond overflow of `time.Minute * Interval`, because intervals of millions of minutes are outside any configured use.
- The minute-precision drift the source notes in a comment on `NextPing` is not modelled: time is exact here.
- The `checker/checker.go` page record has no `Disabled` or `NextPing` fields. The model reuses the common page record, and the update there carries both fields unchanged.
