/**
 * The pagination bar: first / previous / numbered / next / last buttons,
 * showing at most five page numbers centred on the current page.
 */
module Pagination {

  /** How many page numbers are shown on each side of the current one. */
  const Delta := 2

  function Max(a: int, b: int): int { if a >= b then a else b }

  function Min(a: int, b: int): int { if a <= b then a else b }

  /** The bar is drawn only when there is more than one page. */
  predicate Rendered(totalPages: int) {
    totalPages > 1
  }

  /**
   * The page numbers shown: every integer from `max(1, current - 2)` to
   * `min(total, current + 2)`, increasing (empty when that span is empty).
   */
  function Range(current: int, total: int): (r: seq<int>)
    ensures |r| == Max(0, Min(total, current + Delta) - Max(1, current - Delta) + 1)
    ensures forall i :: 0 <= i < |r| ==> r[i] == Max(1, current - Delta) + i
  {
    var left, right := Max(1, current - Delta), Min(total, current + Delta);
    seq(Max(0, right - left + 1), i => left + i)
  }

  /** The range is consecutive and increasing, holds at most five pages, and all of them exist. */
  lemma RangeBounds(current: int, total: int)
    ensures |Range(current, total)| <= 2 * Delta + 1
    ensures forall i :: 0 <= i < |Range(current, total)| ==> 1 <= Range(current, total)[i] <= total
    ensures forall i :: 0 <= i < |Range(current, total)| - 1 ==>
              Range(current, total)[i + 1] == Range(current, total)[i] + 1
  {
  }

  /** A current page that exists is always among the numbers shown. */
  lemma RangeHasCurrent(current: int, total: int)
    requires 1 <= current <= total
    ensures current in Range(current, total)
  {
    var r := Range(current, total);
    assert r[current - Max(1, current - Delta)] == current;
  }

  /** Away from both ends the bar shows exactly five pages. */
  lemma RangeFull(current: int, total: int)
    requires 1 + Delta <= current <= total - Delta
    ensures Range(current, total) == [current - 2, current - 1, current, current + 1, current + 2]
  {
  }

  datatype NavButton = First | Prev | Next | Last

  /** First and previous are disabled on page 1, next and last on the final page. */
  predicate Disabled(b: NavButton, current: int, total: int) {
    match b
    case First | Prev => current == 1
    case Next | Last => current == total
  }

  /** The page a navigation button asks for. */
  function Target(b: NavButton, current: int, total: int): (p: int)
    ensures b == First ==> p == 1
    ensures b == Prev ==> p == current - 1
    ensures b == Next ==> p == current + 1
    ensures b == Last ==> p == total
  {
    match b
    case First => 1
    case Prev => current - 1
    case Next => current + 1
    case Last => total
  }

  /**
   * From an existing page, every enabled button, and every number in the
   * range, leads to an existing page.
   */
  lemma NavigationStaysInRange(current: int, total: int)
    requires 1 <= current <= total
    ensures forall b :: !Disabled(b, current, total) ==> 1 <= Target(b, current, total) <= total
    ensures forall p :: p in Range(current, total) ==> 1 <= p <= total
  {
    RangeBounds(current, total);
  }

  /** Previous and next move by one page, and are enabled exactly when that page exists. */
  lemma StepEnabledIff(current: int, total: int)
    requires 1 <= current <= total
    ensures !Disabled(Prev, current, total) <==> 1 <= Target(Prev, current, total)
    ensures !Disabled(Next, current, total) <==> Target(Next, current, total) <= total
  {
  }
}
