/** The monitored page and its history entry, as stored. */
module Records {
  import opened Documents

  /** A monitored page. The engine owns `lastStatus`, `base.modified`, `nextPing`
      and `content`; every other field belongs to the administration API. */
  datatype Page = Page(
    base: Base,
    name: string,
    description: string,
    url: string,
    rescueUrl: string,
    interval: int,       // minutes between two probes
    lastStatus: int,     // status code of the last probe, 0 before the first
    content: string,     // last body kept for diagnostics
    disabled: bool,
    nextPing: Time)      // the page is due once this instant is reached

  /** A page whose every field holds Go's zero value. */
  const ZeroPage: Page := Page(Base(NoId, ZeroTime, ZeroTime), "", "", "", "", 0, 0, "", false, ZeroTime)

  /** One probe in the history collection. `load` is the probe duration. */
  datatype PageEntry = PageEntry(base: Base, load: int, code: int, page: PageId, content: string)

  /** The fields owned by the administration API are the same in both pages. */
  predicate SameAdminFields(p: Page, q: Page)
  {
    && p.base.id == q.base.id
    && p.base.created == q.base.created
    && p.name == q.name
    && p.description == q.description
    && p.url == q.url
    && p.rescueUrl == q.rescueUrl
    && p.interval == q.interval
    && p.disabled == q.disabled
  }
}
