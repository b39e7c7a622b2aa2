/** The page result built by the four-argument PageInfoImpl constructor: from a list of rows,
    the total row count, a requested page number and a page size it derives the page
    number actually shown, the page count, the neighbouring pages and the row offset. */
module Paging {

  /** Range of a Java `int`. */
  const INT_MIN: int := -0x8000_0000
  const INT_MAX: int := 0x7FFF_FFFF

  predicate IsInt(x: int) { INT_MIN <= x <= INT_MAX }

  function Max(a: int, b: int): int { if a < b then b else a }
  function Min(a: int, b: int): int { if a < b then a else b }

  /** The arguments the constructor is modelled for: Java ints for the page number and size,
      a positive page size, and a row count small enough that no int field overflows. */
  predicate ValidArgs(total: int, pageNum: int, pageSize: int)
  {
    IsInt(pageNum) && 0 < pageSize <= INT_MAX && 0 <= total < INT_MAX
  }

  /** Ceiling of total / pageSize: the smallest n with total <= n * pageSize. */
  function CeilDiv(total: int, pageSize: int): (n: int)
    requires pageSize > 0
    ensures (n - 1) * pageSize < total <= n * pageSize
  {
    (total + pageSize - 1) / pageSize
  }

  /** The values of the derived fields of a page result. */
  datatype PageFields = PageFields(
    pageNum: int,
    prePage: int,
    hasPrePage: bool,
    totalPages: int,
    nextPage: int,
    hasNextPage: bool,
    offset: int)

  /** The derived fields, defined declaratively: the requested page raised to 1, the previous page
      taken from that raised (not yet clamped) page, the page clamped to the page count, the next
      page capped at the page count, and the offset of the clamped page. */
  function Derived(total: int, pageNum: int, pageSize: int): (f: PageFields)
    requires pageSize > 0
    ensures f.totalPages == CeilDiv(total, pageSize)
    ensures f.pageNum <= f.totalPages
    ensures f.totalPages >= 1 ==> f.pageNum >= 1
    ensures 1 <= pageNum <= f.totalPages ==> f.pageNum == pageNum
    ensures pageNum < 1 && f.totalPages >= 1 ==> f.pageNum == 1
    ensures pageNum > f.totalPages ==> f.pageNum == f.totalPages
    ensures f.prePage >= 1
    ensures f.hasPrePage <==> pageNum >= 2
    ensures f.hasPrePage ==> f.prePage == pageNum - 1
    ensures !f.hasPrePage ==> f.prePage == 1
    ensures f.nextPage <= f.totalPages
    ensures f.hasNextPage <==> f.pageNum + 1 <= f.totalPages
    ensures f.hasNextPage ==> f.nextPage == f.pageNum + 1
    ensures !f.hasNextPage ==> f.nextPage == f.totalPages
    ensures f.offset == (f.pageNum - 1) * pageSize
  {
    var raised := Max(pageNum, 1);
    var totalPages := CeilDiv(total, pageSize);
    var shown := Min(raised, totalPages);
    PageFields(
      shown,
      Max(raised - 1, 1),
      raised >= 2,
      totalPages,
      Min(shown + 1, totalPages),
      shown < totalPages,
      (shown - 1) * pageSize)
  }

  /** With a non-negative total the page count is exactly the ceiling of total / pageSize,
      and it is zero precisely when there are no rows. */
  lemma TotalPagesIsCeiling(total: int, pageNum: int, pageSize: int)
    requires pageSize > 0 && total >= 0
    ensures var f := Derived(total, pageNum, pageSize);
            f.totalPages >= 0 &&
            (f.totalPages == 0 <==> total == 0) &&
            f.totalPages * pageSize >= total &&
            (f.totalPages - 1) * pageSize < total
  {}

  /** An empty result has zero pages: the page number ends at 0, there is no next page, and the
      offset is one page before the first row. */
  lemma EmptyTotal(pageNum: int, pageSize: int)
    requires pageSize > 0
    ensures var f := Derived(0, pageNum, pageSize);
            f.totalPages == 0 && f.pageNum == 0 && f.nextPage == 0 && !f.hasNextPage &&
            f.offset == -pageSize
  {}

  /** When there is at least one row, the offset is the index of a row: the first row of the
      shown page, which lies in [0, total). */
  lemma OffsetIsARow(total: int, pageNum: int, pageSize: int)
    requires pageSize > 0 && total > 0
    ensures var f := Derived(total, pageNum, pageSize);
            0 <= f.offset < total
  {}

  /** Under the modelled arguments every derived field is a Java int, so the model's unbounded
      arithmetic agrees with the source's 32-bit arithmetic (no cast saturates, no sum or
      product wraps). */
  lemma FieldsFitInInt(total: int, pageNum: int, pageSize: int)
    requires ValidArgs(total, pageNum, pageSize)
    ensures var f := Derived(total, pageNum, pageSize);
            IsInt(f.pageNum) && IsInt(f.prePage) && IsInt(f.totalPages) &&
            IsInt(f.nextPage) && IsInt(f.offset) && IsInt(f.pageNum + 1)
  {}

  /** A requested page number below 1 behaves exactly as page 1: the raise happens before any
      other field is derived. */
  lemma BelowOneActsAsOne(total: int, pageNum: int, pageSize: int)
    requires pageSize > 0 && pageNum < 1
    ensures Derived(total, pageNum, pageSize) == Derived(total, 1, pageSize)
  {}

  /** The previous page comes from the requested page before it is clamped, so it can lie
      past the last page: 45 rows, 10 per page, page 10 requested. */
  lemma ClampExample()
    ensures Derived(45, 10, 10) ==
      PageFields(pageNum := 5, prePage := 9, hasPrePage := true, totalPages := 5,
                 nextPage := 5, hasNextPage := false, offset := 40)
  {}

  /** PageInfoImpl: the fields the four-argument constructor stores and derives. */
  class PageInfoImpl<T> {
    var list: seq<T>
    var total: int
    var pageNum: int
    var pageSize: int
    var prePage: int
    var hasPrePage: bool
    var totalPages: int
    var nextPage: int
    var hasNextPage: bool
    var offset: int

    function Fields(): PageFields
      reads this
    {
      PageFields(pageNum, prePage, hasPrePage, totalPages, nextPage, hasNextPage, offset)
    }

    /** Assigns the fields in the order the source does: the page number is raised, the
        previous page is taken, and only then is the page number clamped to the page count. */
    constructor (list: seq<T>, total: int, pageNum: int, pageSize: int)
      requires ValidArgs(total, pageNum, pageSize)
      ensures this.list == list && this.total == total && this.pageSize == pageSize
      ensures Fields() == Derived(total, pageNum, pageSize)
    {
      new;
      this.pageNum := pageNum;
      if pageNum < 1 {
        this.pageNum := 1;
      }
      this.pageSize := pageSize;
      this.total := total;
      this.list := list;
      this.prePage := this.pageNum - 1;
      if this.prePage < 1 {
        this.hasPrePage := false;
        this.prePage := 1;
      } else {
        this.hasPrePage := true;
      }
      this.totalPages := CeilDiv(total, pageSize);
      if this.pageNum > this.totalPages {
        this.pageNum := this.totalPages;
      }
      this.nextPage := this.pageNum + 1;
      if this.nextPage > this.totalPages {
        this.hasNextPage := false;
        this.nextPage := this.totalPages;
      } else {
        this.hasNextPage := true;
      }
      this.offset := (this.pageNum - 1) * pageSize;
    }
  }
}
