/** The request rules of the administration API (`cmd/server/handler.go`). */
module Handler {
  import opened Wrappers
  import opened Documents
  import opened Records
  import opened Repository
  import opened Incident
  import opened Http

  const MediaType: string := "application/json"

  const ErrBadRequest: ApiError :=
    ApiError("bad_request", 400, "Bad request", "Request body is not well-formed. It must be JSON.")
  const ErrNotAcceptable: ApiError :=
    ApiError("not_acceptable", 406, "Not Acceptable", "Accept header must be set to 'application/json'.")
  const ErrUnsupportedMediaType: ApiError :=
    ApiError("unsupported_media_type", 415, "Unsupported Media Type", "Content-Type header must be set to: 'application/json'.")
  const ErrInternalServer: ApiError :=
    ApiError("internal_server_error", 500, "Internal Server Error", "Something went wrong.")

  /** The headers that open the API to any origin. */
  const CorsHeaders: map<string, string> := map[
    "Access-Control-Allow-Origin" := "*",
    "Access-Control-Allow-Headers" := "Origin, X-Requested-With, Content-Type, Accept",
    "Access-Control-Allow-Methods" := "POST, DELETE, PUT"]

  /** `acceptHandler`: the request goes on only when Accept is exactly the JSON media
      type; otherwise 406 Not Acceptable (section 15.5.7 of RFC 9110). */
  function AcceptHandler(accept: string): (g: Gate)
    ensures g.Next? <==> accept == "application/json"
    ensures g.Reject? ==> g.error == ErrNotAcceptable && g.error.status == 406
  {
    ExactMatch(accept, MediaType, ErrNotAcceptable)
  }

  /** `contentTypeHandler`: the body is accepted only when Content-Type is exactly the
      JSON media type; otherwise 415 Unsupported Media Type (section 15.5.16 of RFC 9110). */
  function ContentTypeHandler(contentType: string): (g: Gate)
    ensures g.Next? <==> contentType == "application/json"
    ensures g.Reject? ==> g.error == ErrUnsupportedMediaType && g.error.status == 415
  {
    ExactMatch(contentType, MediaType, ErrUnsupportedMediaType)
  }

  /** `allowCorsHandler`: an OPTIONS request gets 200 and the CORS headers; for any
      other method the handler writes nothing. */
  function AllowCorsHandler(verb: string): (r: Option<Response>)
    ensures r.Some? <==> verb == "OPTIONS"
    ensures r.Some? ==> r.value.status == 200 && r.value.headers == CorsHeaders && r.value.payload == NoPayload
  {
    if verb == "OPTIONS" then Some(Response(200, CorsHeaders, NoPayload)) else None
  }

  /** `pagesHandler`: a failed listing is a 400 carrying only the error; a successful
      one lists the pages with the CORS headers. */
  function PagesHandler(listing: Result<seq<Page>, RepoError>): (r: Response)
    ensures listing.Err? ==> r == ErrorResponse(ErrBadRequest, MediaType) && r.status == 400
    ensures listing.Err? ==> !r.payload.PageList?
    ensures listing.Ok? ==> r.status == 200 && r.payload == PageList(listing.value)
    ensures listing.Ok? ==> r.headers.Keys == CorsHeaders.Keys + {"Content-Type"}
  {
    match listing
    case Err(_) => ErrorResponse(ErrBadRequest, MediaType)
    case Ok(pages) => Response(200, CorsHeaders["Content-Type" := MediaType], PageList(pages))
  }

  /** The record `updatepageHandler` writes: five fields from the request body, the id
      from the path, the modification time `now`; every other field is its zero value. */
  function UpdateProjection(id: PageId, body: Page, now: Time): (q: Page)
    ensures q.interval == body.interval && q.description == body.description && q.name == body.name
    ensures q.url == body.url && q.rescueUrl == body.rescueUrl
    ensures q.base == Base(id, ZeroTime, now)
    ensures q.lastStatus == 0 && q.content == "" && !q.disabled && q.nextPing == ZeroTime
  {
    var update := ZeroPage.(interval := body.interval, description := body.description, name := body.name,
                            url := body.url, rescueUrl := body.rescueUrl);
    update.(base := UpdateDefaults(update.base.(id := id), now))
  }

  /** An edited page is due at once, and the first 200 it answers raises a CLOSED alert,
      even if it was healthy before the edit. */
  lemma EditedPageIsDueAndRecovers(id: PageId, body: Page, now: Time, t: Time)
    requires t >= ZeroTime
    ensures IsDue(UpdateProjection(id, body, now), t)
    ensures AlertFires(UpdateProjection(id, body, now).lastStatus, Healthy)
    ensures Subject(body.url, Healthy) == ClosedPrefix + body.url
  {
  }

  /** `updatepageHandler` behind the gates: the whole stored document is replaced by the
      projection (204); a missing page makes `Update` fail, the handler panics and the
      recovery middleware answers 500. */
  method UpdatePageHandler(repo: PageRepository, id: PageId, body: Page, now: Time) returns (r: Response)
    modifies repo
    ensures id in old(repo.pages) ==> repo.pages == old(repo.pages)[id := UpdateProjection(id, body, now)]
    ensures id in old(repo.pages) ==> r == Response(204, CorsHeaders, NoPayload)
    ensures id !in old(repo.pages) ==> repo.pages == old(repo.pages) && r == ErrorResponse(ErrInternalServer, MediaType)
  {
    var update := UpdateProjection(id, body, now);
    var outcome := repo.Update(update);
    if outcome.Err? {
      return ErrorResponse(ErrInternalServer, MediaType);
    }
    r := Response(204, CorsHeaders, NoPayload);
  }

  /** `createpageHandler` behind the gates: both timestamps are set to `now`, then the
      page is created (201 with the stored page); a failed create panics and the
      recovery middleware answers 500. */
  method CreatePageHandler(repo: PageRepository, body: Page, now: Time, newId: PageId, writeFails: bool)
    returns (r: Response)
    requires newId != NoId && newId !in repo.pages
    modifies repo
    ensures var stamped := body.(base := InsertDefaults(body.base, now));
            && (r.status == 201 <==> !UrlTaken(old(repo.pages), body.url) && body.url != "" && !writeFails)
            && (r.status == 201 ==> r.payload == OnePage(stamped.(base := stamped.base.(id := newId)))
                                    && repo.pages == old(repo.pages)[newId := stamped.(base := stamped.base.(id := newId))])
            && (r.status != 201 ==> r == ErrorResponse(ErrInternalServer, MediaType) && repo.pages == old(repo.pages))
  {
    var stamped := body.(base := InsertDefaults(body.base, now));
    var created := repo.Create(stamped, newId, writeFails);
    if created.Err? {
      return ErrorResponse(ErrInternalServer, MediaType);
    }
    r := Response(201, CorsHeaders["Content-Type" := MediaType], OnePage(created.value));
  }
}
