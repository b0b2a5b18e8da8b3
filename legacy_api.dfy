/** The first administration API (`main.go`): its own page record, JSON:API media
    type gates, and a repository that creates without any validation. */
module LegacyApi {
  import opened Wrappers
  import opened Documents
  import opened Repository
  import opened Http

  const MediaType: string := "application/vnd.api+json"

  const ErrNotAcceptable: ApiError :=
    ApiError("not_acceptable", 406, "Not Acceptable", "Accept header must be set to 'application/vnd.api+json'.")
  const ErrUnsupportedMediaType: ApiError :=
    ApiError("unsupported_media_type", 415, "Unsupported Media Type", "Content-Type header must be set to: 'application/vnd.api+json'.")
  const ErrInternalServer: ApiError :=
    ApiError("internal_server_error", 500, "Internal Server Error", "Something went wrong.")

  /** The page record of this revision. */
  datatype LegacyPage = LegacyPage(base: Base, url: string, interval: int, status: bool)

  /** `acceptHandler`: only Accept exactly `application/vnd.api+json` goes on, otherwise 406. */
  function AcceptHandler(accept: string): (g: Gate)
    ensures g.Next? <==> accept == "application/vnd.api+json"
    ensures g.Reject? ==> g.error == ErrNotAcceptable && g.error.status == 406
  {
    ExactMatch(accept, MediaType, ErrNotAcceptable)
  }

  /** `contentTypeHandler`: only Content-Type exactly `application/vnd.api+json` goes on, otherwise 415. */
  function ContentTypeHandler(contentType: string): (g: Gate)
    ensures g.Next? <==> contentType == "application/vnd.api+json"
    ensures g.Reject? ==> g.error == ErrUnsupportedMediaType && g.error.status == 415
  {
    ExactMatch(contentType, MediaType, ErrUnsupportedMediaType)
  }

  /** The plain JSON media type of the later API is refused by both gates here. */
  lemma PlainJsonRefused()
    ensures AcceptHandler("application/json").Reject?
    ensures ContentTypeHandler("application/json").Reject?
  {
    assert "application/json"[12] != MediaType[12];
  }

  /** The record `updatepageHandler` writes: the whole request body, with the id from
      the path and the modification time `now`; no field is dropped. */
  function UpdateBody(id: PageId, body: LegacyPage, now: Time): (q: LegacyPage)
    ensures q.url == body.url && q.interval == body.interval && q.status == body.status
    ensures q.base == Base(id, body.base.created, now)
  {
    body.(base := UpdateDefaults(body.base.(id := id), now))
  }

  class LegacyRepository {
    var pages: map<PageId, LegacyPage>

    constructor (initial: map<PageId, LegacyPage>)
      ensures pages == initial
    {
      pages := initial;
    }

    /** `Create(page)`: no check on the URL or on duplicates; the page is written under
        the new id and receives that id only once the write has succeeded. */
    method Create(page: LegacyPage, newId: PageId, writeFails: bool) returns (r: Result<LegacyPage, RepoError>)
      requires newId != NoId && newId !in pages
      modifies this
      ensures r.Ok? <==> !writeFails
      ensures r.Err? ==> r.error == WriteFailed && pages == old(pages)
      ensures r.Ok? ==> r.value == page.(base := page.base.(id := newId))
      ensures r.Ok? ==> pages == old(pages)[newId := r.value] && |pages| == |old(pages)| + 1
    {
      if writeFails {
        return Err(WriteFailed);
      }
      var stored := page.(base := page.base.(id := newId));
      pages := pages[newId := stored];
      r := Ok(stored);
    }

    /** `Update(page)`: replaces the whole document under the page's id. */
    method Update(page: LegacyPage) returns (r: Result<(), RepoError>)
      modifies this
      ensures r.Ok? <==> page.base.id in old(pages)
      ensures r.Ok? ==> pages == old(pages)[page.base.id := page]
      ensures r.Err? ==> r.error == NotFound && pages == old(pages)
    {
      if page.base.id !in pages {
        return Err(NotFound);
      }
      pages := pages[page.base.id := page];
      r := Ok(());
    }
  }

  /** `createpageHandler`: both timestamps set to `now`, then created (201); a failed
      write panics and the recovery middleware answers 500. An empty or repeated URL is
      stored like any other. */
  method CreatePageHandler(repo: LegacyRepository, body: LegacyPage, now: Time, newId: PageId, writeFails: bool)
    returns (status: int, stored: Option<LegacyPage>)
    requires newId != NoId && newId !in repo.pages
    modifies repo
    ensures status == 201 <==> !writeFails
    ensures status != 201 ==> status == 500 && stored == None && repo.pages == old(repo.pages)
    ensures status == 201 ==>
              && stored == Some(body.(base := Base(newId, now, now)))
              && repo.pages == old(repo.pages)[newId := stored.value]
  {
    var stamped := body.(base := InsertDefaults(body.base, now));
    var created := repo.Create(stamped, newId, writeFails);
    if created.Err? {
      return ErrInternalServer.status, None;
    }
    status, stored := 201, Some(created.value);
  }

  /** `updatepageHandler`: the stored document becomes the whole body (204); a missing
      page panics and the recovery middleware answers 500. */
  method UpdatePageHandler(repo: LegacyRepository, id: PageId, body: LegacyPage, now: Time) returns (status: int)
    modifies repo
    ensures id in old(repo.pages) ==> status == 204 && repo.pages == old(repo.pages)[id := UpdateBody(id, body, now)]
    ensures id !in old(repo.pages) ==> status == 500 && repo.pages == old(repo.pages)
  {
    var outcome := repo.Update(UpdateBody(id, body, now));
    if outcome.Err? {
      return ErrInternalServer.status;
    }
    status := 204;
  }
}
