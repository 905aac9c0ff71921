/** The pagination window of a list request, computed from the raw `limit`
    and page (`p`) query parameters. */
module Pagination {

  /** A query-string parameter as the handler sees it: not given at all,
      given as the empty string, given as a string that reads as the
      integer `value`, or given as a string that reads as NaN. Strings
      that read as a fraction or as Infinity are not modelled. */
  datatype Param = Absent | EmptyStr | Num(value: int) | NonNumeric

  /** What the calculator returns: "no limit" (paginate nothing), "error"
      (a parameter is invalid), or a window of `numPerPage` rows starting
      `offset` rows in. */
  datatype LimitResult = NoLimit | Error | Window(numPerPage: nat, offset: nat)

  /** A JavaScript number, as far as integers go: an integer or NaN. */
  datatype JsNumber = Int(i: int) | NaN

  /** Page size used when `limit` is given but empty. */
  const DefaultPageSize: nat := 10

  /** JavaScript's numeric conversion of a parameter (`+p`, or the implicit
      one in `p >= 0` and `p - 1`): the empty string reads as 0, an absent
      value (`undefined`) and a non-numeric string as NaN. */
  function ToNumber(p: Param): (n: JsNumber)
    ensures n.Int? <==> p.EmptyStr? || p.Num?
    ensures p.EmptyStr? ==> n == Int(0)
    ensures p.Num? ==> n == Int(p.value)
  {
    match p
    case Absent => NaN
    case EmptyStr => Int(0)
    case Num(v) => Int(v)
    case NonNumeric => NaN
  }

  /** A limit that yields a page size: the empty string, or a number at
      least 0. */
  predicate LimitAccepted(limit: Param) {
    limit.EmptyStr? || (limit.Num? && limit.value >= 0)
  }

  /** The page size an accepted limit stands for. */
  function PageSize(limit: Param): (size: nat)
    requires LimitAccepted(limit)
  {
    if limit.EmptyStr? then DefaultPageSize else limit.value
  }

  /** A page that can be served: omitted (page 1), or a number at least 1. */
  predicate PageAccepted(page: Param) {
    page.Absent? || (page.Num? && page.value >= 1)
  }

  /** How many whole pages come before an accepted page. */
  function PagesBefore(page: Param): (skipped: nat)
    requires PageAccepted(page)
  {
    if page.Absent? then 0 else page.value - 1
  }

  /** The reference definition of the calculator: an absent limit means no
      pagination whatever the page; otherwise both parameters must be
      accepted, and the window skips `PagesBefore(page)` whole pages. */
  function Paginate(limit: Param, page: Param): (r: LimitResult) {
    if limit.Absent? then NoLimit
    else if !LimitAccepted(limit) || !PageAccepted(page) then Error
    else Window(PageSize(limit), PageSize(limit) * PagesBefore(page))
  }

  /** The calculator as the handler runs it: the defaults of the missing
      parameters, then the limit, then the page, with an early "error"
      exit at each step. */
  method GetLimit(limit: Param, page: Param) returns (r: LimitResult)
    ensures r == Paginate(limit, page)
  {
    // `page = 1` is the default of an omitted page.
    var p := if page.Absent? then Num(1) else page;

    if limit.Absent? {
      return NoLimit;
    }

    var numPerPage: nat := 0;
    var l := ToNumber(limit);
    if limit.EmptyStr? {
      numPerPage := numPerPage + DefaultPageSize;
    } else if l.Int? && l.i >= 0 {
      numPerPage := numPerPage + l.i;
    } else {
      return Error;
    }

    var offset: nat := 0;
    var n := ToNumber(p);
    if n.Int? && n.i > 1 {
      offset := offset + numPerPage * (n.i - 1);
    } else if n == Int(1) {
      offset := offset + 0;
    } else {
      return Error;
    }

    return Window(numPerPage, offset);
  }

  /** An absent limit means no pagination, even when the page is invalid:
      the page is not looked at. */
  lemma AbsentLimitIgnoresPage(page: Param)
    ensures Paginate(Absent, page) == NoLimit
  {
  }

  /** An empty limit gives pages of 10 rows, whenever the page is valid. */
  lemma EmptyLimitDefaultSize(page: Param)
    ensures Paginate(EmptyStr, page).Window? <==> PageAccepted(page)
    ensures Paginate(EmptyStr, page).Window? ==> Paginate(EmptyStr, page).numPerPage == 10
  {
  }

  /** A numeric limit of at least 0 is the page size as given. */
  lemma NumericLimitAsGiven(n: int, page: Param)
    requires n >= 0
    ensures Paginate(Num(n), page).Window? <==> PageAccepted(page)
    ensures Paginate(Num(n), page).Window? ==> Paginate(Num(n), page).numPerPage == n
  {
  }

  /** A limit of 0 is a window of no rows at offset 0 on every valid page,
      not an error and not "no limit". */
  lemma ZeroLimitEmptyWindow(page: Param)
    requires PageAccepted(page)
    ensures Paginate(Num(0), page) == Window(0, 0)
  {
  }

  /** A negative or non-numeric limit is an error, and the page does not
      matter: the limit is checked first. */
  lemma BadLimitIsError(limit: Param, page: Param)
    requires limit.NonNumeric? || (limit.Num? && limit.value < 0)
    ensures Paginate(limit, page) == Error
  {
  }

  /** Page 1, or no page, starts at the first row. */
  lemma FirstPageAtStart(limit: Param, page: Param)
    requires LimitAccepted(limit)
    requires page.Absent? || page == Num(1)
    ensures Paginate(limit, page) == Window(PageSize(limit), 0)
  {
  }

  /** Page `p` above 1 skips `p - 1` whole pages. */
  lemma LaterPageOffset(limit: Param, p: int)
    requires LimitAccepted(limit)
    requires p > 1
    ensures Paginate(limit, Num(p)).Window?
    ensures Paginate(limit, Num(p)).offset == Paginate(limit, Num(p)).numPerPage * (p - 1)
  {
  }

  /** With a valid limit, a page below 1, an empty page or a non-numeric
      page is an error. */
  lemma BadPageIsError(limit: Param, page: Param)
    requires LimitAccepted(limit)
    requires page.EmptyStr? || page.NonNumeric? || (page.Num? && page.value < 1)
    ensures Paginate(limit, page) == Error
  {
  }

  /** Every window starts on a page boundary: the offset is a whole number
      of pages. */
  lemma WindowOnPageBoundary(limit: Param, page: Param)
    requires Paginate(limit, page).Window?
    ensures exists k: nat :: Paginate(limit, page).offset == Paginate(limit, page).numPerPage * k
  {
    var k := PagesBefore(page);
    assert Paginate(limit, page).offset == Paginate(limit, page).numPerPage * k;
  }

  /** Consecutive pages are adjacent windows of the same size: page `p + 1`
      starts where page `p` ends, so the pages neither overlap nor leave a
      gap. */
  lemma ConsecutivePagesAdjacent(limit: Param, p: int)
    requires LimitAccepted(limit)
    requires p >= 1
    ensures Paginate(limit, Num(p)).Window? && Paginate(limit, Num(p + 1)).Window?
    ensures Paginate(limit, Num(p + 1)).numPerPage == Paginate(limit, Num(p)).numPerPage
    ensures Paginate(limit, Num(p + 1)).offset ==
      Paginate(limit, Num(p)).offset + Paginate(limit, Num(p)).numPerPage
  {
  }

  /** A limit of 5 on page 3 skips 10 rows and takes 5. */
  lemma ThirdPageOfFive()
    ensures Paginate(Num(5), Num(3)) == Window(5, 10)
  {
  }
}
