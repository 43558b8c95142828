/**
 * The offset pagination filter of the root package (offset_pagination.go): a page number
 * and an optional page size, turned into LIMIT and OFFSET. The arithmetic is Go's 64-bit
 * `int`, so the offset wraps around.
 */
module OffsetPagination {
  import opened Base

  /** The LIMIT and OFFSET handed to the query. */
  datatype Window = Window(limit: Int64, offset: Int64)

  /** `init`: a page of 0 or below is the first page. */
  function NormalPage(page: Int64): (r: Int64)
    ensures r >= 1
    ensures page >= 1 ==> r == page
    ensures page <= 0 ==> r == 1
  {
    if page <= 0 then 1 else page
  }

  /** Normalising twice is normalising once. */
  lemma NormalPageIdempotent(page: Int64)
    ensures NormalPage(NormalPage(page)) == NormalPage(page)
  {
  }

  /** `(page - 1) * limit` in Go's `int`. */
  function PageOffset(page: Int64, limit: Int64): (r: Int64)
    requires page >= 1
    ensures IsInt64((page - 1) * limit) ==> r == (page - 1) * limit
  {
    Wrap64((page - 1) * limit)
  }

  /** Without overflow, the offset skips the `page - 1` earlier pages and is never negative for a non-negative limit. */
  lemma OffsetSkipsEarlierPages(page: Int64, limit: Int64)
    requires page >= 1 && limit >= 0 && IsInt64((page - 1) * limit)
    ensures PageOffset(page, limit) == (page - 1) * limit >= 0
  {
  }

  /** A page far enough out makes the offset wrap to a negative value. */
  lemma OffsetWraps(page: Int64, limit: Int64)
    requires page == 0x4000_0000_0000_0000 && limit == 4
    ensures PageOffset(page, limit) == -4
  {
    assert (page - 1) * limit == 0x1_0000_0000_0000_0000 - 4;
  }

  /** What `Build` hands to the query for a normalised page: nothing without a limit. */
  function WindowOf(page: Int64, limit: Option<Int64>): (r: Option<Window>)
    requires page >= 1
    ensures r.None? <==> limit.None?
    ensures r.Some? ==> r.value.limit == limit.value
    ensures r.Some? ==> r.value.offset == PageOffset(page, limit.value)
    ensures r.Some? && page == 1 ==> r.value.offset == 0
  {
    match limit
    case None => None
    case Some(l) => Some(Window(l, PageOffset(page, l)))
  }

  /** Page 0 and page 1 give the same window: the first page, at offset 0. */
  lemma FirstPage(limit: Int64)
    ensures WindowOf(NormalPage(0), Some(limit)) == WindowOf(NormalPage(1), Some(limit)) == Some(Window(limit, 0))
  {
  }

  class OffsetPagination {
    var page: Int64
    var limit: Option<Int64>

    /** `NewOffsetPagination`: page 0, no limit. */
    constructor()
      ensures page == 0 && limit == None
    {
      page, limit := 0, None;
    }

    method Init()
      modifies this
      ensures page == NormalPage(old(page)) && limit == old(limit)
    {
      if page <= 0 {
        page := 1;
      }
    }

    /** `Offset`: the limit is present even when it is 0. */
    method Offset(page: Int64, limit: Int64)
      modifies this
      ensures this.page == page && this.limit == Some(limit)
    {
      this.page := page;
      this.limit := Some(limit);
    }

    /**
     * `Build`: normalises the page for good, then emits the limit and the offset of the
     * page when there is a limit, and nothing otherwise. A second call gives the same
     * window, because the page stays normalised.
     */
    method Build() returns (w: Option<Window>)
      modifies this
      ensures page == NormalPage(old(page)) && limit == old(limit)
      ensures w == WindowOf(page, limit)
    {
      Init();
      w := None;
      if limit.Some? {
        w := Some(Window(limit.value, Wrap64((page - 1) * limit.value)));
      }
    }
  }
}
