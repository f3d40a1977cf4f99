/** Pagination arithmetic: defaulting of page and limit, the number of rows to
    skip, and the page count `Math.ceil(total / limit)`. */
module Pagination {
  import opened Common

  /** Pagination options as whole numbers, as the reservation and user
      controllers pass them after `Number`; an absent option is `None`. */
  datatype Options = Options(page: Option<int>, limit: Option<int>, sortBy: Option<string>, sortOrder: Option<string>)

  /** What `calculatePagination` returns. */
  datatype Window = Window(page: int, limit: int, skip: int, sortBy: string, sortOrder: string)

  /** The `meta` block of a list response. `totalPage` is `None` where JavaScript
      would produce a non-finite number (a division by a zero limit). */
  datatype Meta = Meta(page: int, limit: int, total: int, totalPage: Option<int>)

  const DEFAULT_PAGE := 1
  const DEFAULT_LIMIT := 10
  const DEFAULT_SORT_BY := "createdAt"
  const DEFAULT_SORT_ORDER := "desc"

  /** `Number(x || d)` for a number option: 0 and absence are falsy. */
  function NumberOr(x: Option<int>, d: int): int {
    if x.Some? && x.value != 0 then x.value else d
  }

  /** `x || d` for a string option: the empty string and absence are falsy. */
  function StringOr(x: Option<string>, d: string): string {
    if Truthy(x) then x.value else d
  }

  function CalculatePagination(o: Options): (w: Window)
    ensures o.page.None? || o.page == Some(0) ==> w.page == DEFAULT_PAGE
    ensures o.page.Some? && o.page.value != 0 ==> w.page == o.page.value
    ensures o.limit.None? || o.limit == Some(0) ==> w.limit == DEFAULT_LIMIT
    ensures o.limit.Some? && o.limit.value != 0 ==> w.limit == o.limit.value
    ensures w.page != 0 && w.limit != 0
    ensures w.page == 1 ==> w.skip == 0
    ensures w.skip % w.limit == 0
    ensures w.page >= 1 && w.limit >= 1 ==> 0 <= w.skip && w.skip + w.limit == w.page * w.limit
    ensures !Truthy(o.sortBy) ==> w.sortBy == DEFAULT_SORT_BY
    ensures Truthy(o.sortBy) ==> w.sortBy == o.sortBy.value
    ensures !Truthy(o.sortOrder) ==> w.sortOrder == DEFAULT_SORT_ORDER
    ensures Truthy(o.sortOrder) ==> w.sortOrder == o.sortOrder.value
  {
    var page := NumberOr(o.page, DEFAULT_PAGE);
    var limit := NumberOr(o.limit, DEFAULT_LIMIT);
    MultipleMod(page - 1, limit);
    Window(page, limit, (page - 1) * limit, StringOr(o.sortBy, DEFAULT_SORT_BY), StringOr(o.sortOrder, DEFAULT_SORT_ORDER))
  }

  lemma MultipleMod(k: int, m: int)
    requires m != 0
    ensures (k * m) % m == 0
  {
    if m > 0 {
      assert (k * m) / m == k && (k * m) % m == 0 by {
        LemmaDivMultiple(k, m);
      }
    } else {
      assert (k * m) == (-k) * (-m);
      LemmaDivMultiple(-k, -m);
      assert ((-k) * (-m)) % (-m) == 0;
      // Euclidean remainder does not depend on the sign of the divisor
      assert (k * m) % m == (k * m) % (-m);
    }
  }

  lemma LemmaDivMultiple(k: int, m: int)
    requires m > 0
    ensures (k * m) / m == k && (k * m) % m == 0
  {
    var q, r := (k * m) / m, (k * m) % m;
    assert k * m == q * m + r && 0 <= r < m;
    assert (k - q) * m == r;
    if k - q >= 1 {
      MultiplyMonotone(k - q, 1, m);
      assert false;
    } else if k - q <= -1 {
      MultiplyMonotone(-1, k - q, m);
      assert false;
    }
  }

  /** `Math.ceil(total / limit)`; `None` where the division is by zero. */
  function TotalPage(total: int, limit: int): (r: Option<int>)
    ensures r.None? <==> limit == 0
    ensures limit > 0 ==> r.value * limit >= total && (r.value - 1) * limit < total
    ensures limit < 0 ==> r.value * limit <= total && (r.value - 1) * limit > total
  {
    if limit == 0 then None
    else if limit > 0 then
      CeilingDivision(total, limit);
      Some(-((-total) / limit))
    else
      CeilingDivision(-total, -limit);
      Some(-(total / (-limit)))
  }

  /** The least `n` with `n * m >= t`, for positive `m`. */
  lemma CeilingDivision(t: int, m: int)
    requires m > 0
    ensures (-((-t) / m)) * m >= t
    ensures (-((-t) / m) - 1) * m < t
  {
    var q, r := (-t) / m, (-t) % m;
    assert -t == q * m + r && 0 <= r < m;
    assert (-q) * m == t + r;
    assert (-q - 1) * m == t + r - m;
  }

  /** With a positive limit, the page count is the least n covering `total`
      rows, and it is zero exactly when there are no rows. */
  lemma TotalPageIsLeastCover(total: nat, limit: int, n: int)
    requires limit > 0
    ensures TotalPage(total, limit).Some?
    ensures n * limit >= total ==> TotalPage(total, limit).value <= n
    ensures TotalPage(total, limit) == Some(0) <==> total == 0
  {
    var p := TotalPage(total, limit).value;
    if n * limit >= total && p > n {
      assert (p - 1) * limit >= n * limit by {
        assert p - 1 >= n;
        MultiplyMonotone(p - 1, n, limit);
      }
    }
    if total == 0 {
      assert p * limit >= 0 && (p - 1) * limit < 0;
      if p >= 1 { MultiplyMonotone(p, 1, limit); }
      if p <= -1 { MultiplyMonotone(0, p, limit); }
    }
  }

  lemma MultiplyMonotone(a: int, b: int, m: int)
    requires a >= b && m > 0
    ensures a * m >= b * m
  {
    assert a * m - b * m == (a - b) * m;
  }

  /** `paginationHelper(options, total)`: the list `meta` with the page count. */
  function PaginationHelper(o: Options, total: int): (m: Meta)
    ensures m.total == total
    ensures m.limit != 0 && m.page != 0 && m.totalPage.Some?
    ensures m.limit > 0 ==> m.totalPage.value * m.limit >= total && (m.totalPage.value - 1) * m.limit < total
    ensures o.page.None? ==> m.page == DEFAULT_PAGE
    ensures o.limit.None? ==> m.limit == DEFAULT_LIMIT
  {
    var page := NumberOr(o.page, DEFAULT_PAGE);
    var limit := NumberOr(o.limit, DEFAULT_LIMIT);
    Meta(page, limit, total, TotalPage(total, limit))
  }

  /** The helper and `calculatePagination` default page and limit the same way. */
  lemma PaginationHelperMatchesWindow(o: Options, total: int)
    ensures PaginationHelper(o, total).page == CalculatePagination(o).page
    ensures PaginationHelper(o, total).limit == CalculatePagination(o).limit
    ensures PaginationHelper(o, total).totalPage == TotalPage(total, CalculatePagination(o).limit)
  {
  }
}
