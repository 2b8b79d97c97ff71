/**
  Page counts as JavaScript computes them, `Math.ceil(total / limit)`, shared by
  the HubSpot accounts metadata and SkillSync's pagination metadata.
*/
module Paging {

  /** A `Math.ceil` result: a whole number, or `Infinity`/`NaN` for a zero page size. */
  datatype PageCount = Pages(n: int) | Infinity | NaN

  /** `Math.ceil(total / limit)` */
  function TotalPages(total: nat, limit: int): (r: PageCount)
    ensures limit > 0 ==> r.Pages? && r.n >= 0
    ensures limit > 0 ==> total <= r.n * limit && (total > 0 ==> (r.n - 1) * limit < total)
    ensures limit > 0 && total == 0 ==> r == Pages(0)
    ensures limit < 0 ==> r.Pages? && r.n <= 0 && r.n * limit <= total < (r.n - 1) * limit
    ensures limit == 0 ==> r == (if total == 0 then NaN else Infinity)
  {
    if limit > 0 then
      var n := (total + limit - 1) / limit;
      CeilBounds(total, limit);
      Pages(n)
    else if limit == 0 then
      if total == 0 then NaN else Infinity
    else
      var n := -(total / -limit);
      FloorBounds(total, -limit);
      Pages(n)
  }

  lemma CeilBounds(total: nat, limit: int)
    requires limit > 0
    ensures var n := (total + limit - 1) / limit;
            n >= 0 && total <= n * limit && (total > 0 ==> (n - 1) * limit < total)
  {
    var n := (total + limit - 1) / limit;
    var rem := (total + limit - 1) % limit;
    assert n * limit + rem == total + limit - 1;
  }

  lemma FloorBounds(total: nat, k: int)
    requires k > 0
    ensures var q := total / k; q >= 0 && q * k <= total < (q + 1) * k
  {
    var q := total / k;
    assert q * k + total % k == total;
  }

  /**
    The "there is a next page" test `page * limit < total` says exactly that
    `page` is below the page count.
  */
  lemma {:induction false} HasNextIffBelowPageCount(total: nat, page: int, limit: int)
    requires limit > 0
    ensures page * limit < total <==> page < TotalPages(total, limit).n
  {
    var n := TotalPages(total, limit).n;
    if page < n {
      MulMonotone(page, n - 1, limit);
    } else {
      MulMonotone(n, page, limit);
    }
  }

  /** Multiplying by a non-negative factor keeps the order. */
  lemma MulMonotone(a: int, b: int, k: int)
    requires a <= b && k >= 0
    ensures a * k <= b * k
  {
    var d := b - a;
    assert b * k == a * k + d * k;
  }
}
