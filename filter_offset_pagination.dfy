/**
 * The offset pagination filter of the `filter` package (pgquery/filter/offset_pagination.go):
 * a page number and a page size, both plain `int`s, with a default page size for a size
 * of 0 or below; pagination is emitted only for a positive size.
 */
module FilterOffsetPagination {
  import opened Base
  import P = OffsetPagination

  /** `init`, for the limit: 0 or below takes the default. */
  function NormalLimit(limit: Int64, defaultLimit: Int64): (r: Int64)
    ensures limit > 0 ==> r == limit
    ensures limit <= 0 ==> r == defaultLimit
  {
    if limit <= 0 then defaultLimit else limit
  }

  /** For a fixed default, normalising twice is normalising once. */
  lemma NormalLimitIdempotent(limit: Int64, defaultLimit: Int64)
    ensures NormalLimit(NormalLimit(limit, defaultLimit), defaultLimit) == NormalLimit(limit, defaultLimit)
  {
  }

  /** What `Build` hands to the query for normalised fields: nothing unless the limit is positive. */
  function WindowOf(page: Int64, limit: Int64): (r: Option<P.Window>)
    requires page >= 1
    ensures r.Some? <==> limit > 0
    ensures r.Some? ==> r.value.limit == limit && r.value.offset == P.PageOffset(page, limit)
  {
    if limit > 0 then Some(P.Window(limit, P.PageOffset(page, limit))) else None
  }

  /** With neither a positive limit nor a positive default, no pagination is emitted. */
  lemma NoLimitNoPagination(page: Int64, limit: Int64, defaultLimit: Int64)
    requires limit <= 0 && defaultLimit <= 0
    ensures WindowOf(P.NormalPage(page), NormalLimit(limit, defaultLimit)).None?
  {
  }

  /**
   * As the code is written, an emitted offset can be negative: `(page - 1) * limit`
   * overflows Go's `int` for page 2^62 and limit 4 and wraps to -4.
   */
  lemma NegativeOffset(page: Int64, limit: Int64)
    requires page == 0x4000_0000_0000_0000 && limit == 4
    ensures WindowOf(P.NormalPage(page), NormalLimit(limit, 0)) == Some(P.Window(4, -4))
  {
    P.OffsetWraps(page, limit);
  }

  /**
   * A reference window in exact arithmetic: the offset skips the `page - 1` earlier pages and
   * is never negative.
   */
  function ExactWindow(page: Int64, limit: Int64): (r: Option<(Int64, nat)>)
    requires page >= 1
    ensures r.Some? <==> limit > 0
    ensures r.Some? ==> r.value.0 == limit && r.value.1 == (page - 1) * limit
  {
    if limit > 0 then Some((limit, (page - 1) * limit)) else None
  }

  /** Where Go's arithmetic does not overflow, the window agrees with the exact one. */
  lemma ExactAgrees(page: Int64, limit: Int64)
    requires page >= 1 && IsInt64((page - 1) * limit)
    ensures WindowOf(page, limit).Some? <==> ExactWindow(page, limit).Some?
    ensures WindowOf(page, limit).Some? ==> WindowOf(page, limit).value.offset == ExactWindow(page, limit).value.1
  {
  }

  class OffsetPagination {
    var defaultLimit: Int64
    var page: Int64
    var limit: Int64

    /** `NewOffsetPagination`: no default limit. */
    constructor(page: Int64, limit: Int64)
      ensures this.page == page && this.limit == limit && defaultLimit == 0
    {
      this.page, this.limit := page, limit;
      defaultLimit := 0;
    }

    method Init()
      modifies this
      ensures page == P.NormalPage(old(page)) && limit == NormalLimit(old(limit), old(defaultLimit))
      ensures defaultLimit == old(defaultLimit)
    {
      if page <= 0 {
        page := 1;
      }
      if limit <= 0 {
        limit := defaultLimit;
      }
    }

    method DefaultLimit(limit: Int64)
      modifies this
      ensures defaultLimit == limit && page == old(page) && this.limit == old(this.limit)
    {
      defaultLimit := limit;
    }

    /**
     * `Build`: normalises the page and the limit for good, then emits the limit and the
     * offset of the page when the limit is positive.
     */
    method Build() returns (w: Option<P.Window>)
      modifies this
      ensures page == P.NormalPage(old(page)) && limit == NormalLimit(old(limit), old(defaultLimit))
      ensures defaultLimit == old(defaultLimit)
      ensures w == WindowOf(page, limit)
    {
      Init();
      w := None;
      if limit > 0 {
        w := Some(P.Window(limit, Wrap64((page - 1) * limit)));
      }
    }
  }

  /** Page 1 with limit 0 and a default of 5: limit 5 at offset 0. */
  method DefaultLimitExample() returns (w: Option<P.Window>)
    ensures w == Some(P.Window(5, 0))
  {
    var f := new OffsetPagination(1, 0);
    f.DefaultLimit(5);
    w := f.Build();
  }
}
