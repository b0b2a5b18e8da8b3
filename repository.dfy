/** The page collection behind `PageRepository`, as an in-memory map from id to page. */
module Repository {
  import opened Wrappers
  import opened Documents
  import opened Records

  datatype RepoError =
    | AlreadyExists   // "Page already exist"
    | MissingUrl      // "Page cannot be created without the URL value"
    | WriteFailed     // the storage layer refused the write
    | NotFound        // no document with that id

  /** A page is due for probing once its next-ping instant has been reached. */
  predicate IsDue(p: Page, now: Time)
  {
    p.nextPing <= now
  }

  /** The query of `PagesForPing`: the stored pages whose next-ping instant is not after `now`. */
  function PagesForPing(store: map<PageId, Page>, now: Time): (due: map<PageId, Page>)
    ensures forall id :: id in due <==> id in store && store[id].nextPing <= now
    ensures forall id :: id in due ==> due[id] == store[id]
  {
    map id | id in store && IsDue(store[id], now) :: store[id]
  }

  /** Selection ignores the disabled flag: toggling it never changes what is due. */
  lemma DisabledNotConsulted(store: map<PageId, Page>, id: PageId, flag: bool, now: Time)
    requires id in store
    ensures PagesForPing(store[id := store[id].(disabled := flag)], now).Keys == PagesForPing(store, now).Keys
  {
  }

  /** A page due at some instant stays due at every later instant. */
  lemma DueIsMonotone(store: map<PageId, Page>, t1: Time, t2: Time)
    requires t1 <= t2
    ensures PagesForPing(store, t1).Keys <= PagesForPing(store, t2).Keys
  {
  }

  /** Some stored page already has this URL (the lookup `Find({url: ...})` that precedes a create). */
  predicate UrlTaken(store: map<PageId, Page>, url: string)
  {
    exists id :: id in store && store[id].url == url
  }

  class PageRepository {
    var pages: map<PageId, Page>

    constructor (initial: map<PageId, Page>)
      ensures pages == initial
    {
      pages := initial;
    }

    /** `Find(id)`: the page stored under `id`, or not found. */
    function Find(id: PageId): (r: Result<Page, RepoError>)
      reads this
      ensures r.Ok? <==> id in pages
      ensures r.Ok? ==> r.value == pages[id]
      ensures r.Err? ==> r.error == NotFound
    {
      if id in pages then Ok(pages[id]) else Err(NotFound)
    }

    /** `Create(page)`. The duplicate-URL check comes first, then the empty-URL check,
        then the write under `newId`, the id `bson.NewObjectId()` draws (never one in use).
        Only a successful write gives the page its id. */
    method Create(page: Page, newId: PageId, writeFails: bool) returns (r: Result<Page, RepoError>)
      requires newId != NoId && newId !in pages
      modifies this
      ensures UrlTaken(old(pages), page.url) ==> r == Err(AlreadyExists)
      ensures !UrlTaken(old(pages), page.url) && page.url == "" ==> r == Err(MissingUrl)
      ensures !UrlTaken(old(pages), page.url) && page.url != "" && writeFails ==> r == Err(WriteFailed)
      ensures r.Err? ==> pages == old(pages)
      ensures r.Ok? <==> !UrlTaken(old(pages), page.url) && page.url != "" && !writeFails
      ensures r.Ok? ==> r.value == page.(base := page.base.(id := newId))
      ensures r.Ok? ==> pages == old(pages)[newId := r.value]
      ensures r.Ok? ==> newId !in old(pages) && |pages| == |old(pages)| + 1
    {
      if UrlTaken(pages, page.url) {
        return Err(AlreadyExists);
      }
      if page.url == "" {
        return Err(MissingUrl);
      }
      if writeFails {
        return Err(WriteFailed);
      }
      var stored := page.(base := page.base.(id := newId));
      pages := pages[newId := stored];
      r := Ok(stored);
    }

    /** `Update(page)`: replaces the whole document stored under the page's id. */
    method Update(page: Page) returns (r: Result<(), RepoError>)
      modifies this
      ensures r.Ok? <==> page.base.id in old(pages)
      ensures r.Ok? ==> pages == old(pages)[page.base.id := page]
      ensures r.Err? ==> r.error == NotFound && pages == old(pages)
    {
      if page.base.id !in pages {
        return Err(NotFound);
      }
      pages := pages[page.base.id := page];
      r := Ok(());
    }

    /** `Upsert(page)`: stores the page under its id whether or not the id was present. */
    method Upsert(page: Page)
      modifies this
      ensures pages == old(pages)[page.base.id := page]
      ensures forall id :: id in old(pages) && id != page.base.id ==> id in pages && pages[id] == old(pages)[id]
    {
      pages := pages[page.base.id := page];
    }

    /** `Delete(id)`: removes the page with that id and nothing else. */
    method Delete(id: PageId) returns (r: Result<(), RepoError>)
      modifies this
      ensures r.Ok? <==> id in old(pages)
      ensures r.Err? ==> r.error == NotFound
      ensures pages == old(pages) - {id}
    {
      if id !in pages {
        return Err(NotFound);
      }
      pages := pages - {id};
      r := Ok(());
    }
  }
}
