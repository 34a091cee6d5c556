/**
 * The product listing: the search filter over title and category, the
 * eight-per-page split, the "Showing a–b of n" summary, and the
 * query / current-page state the search box and the pagination bar drive.
 */
module ProductList {
  import opened Text
  import opened Seqs
  import opened Product
  import Pagination

  const PageSize := 8

  /** The search query as it is matched: lower-cased, then trimmed. */
  function Query(raw: string): (q: string)
    ensures q == [] <==> AllSpace(raw)
  {
    var q := Trim(Lower(raw));
    TrimEmptyIffBlank(Lower(raw));
    assert AllSpace(Lower(raw)) <==> AllSpace(raw) by {
      forall i | 0 <= i < |raw| ensures IsSpace(Lower(raw)[i]) <==> IsSpace(raw[i]) {
        LowerKeepsSpace(raw[i]);
      }
    }
    q
  }

  /** Does the product's lower-cased title or category contain `q`? */
  function MatchesQuery(q: string): Product -> bool {
    (p: Product) => Contains(Lower(p.title), q) || Contains(Lower(p.category), q)
  }

  /**
   * The products shown for the search box content `raw`: all of them for a
   * blank query, otherwise those whose title or category contains it.
   */
  function Filtered(products: seq<Product>, raw: string): (r: seq<Product>)
    ensures AllSpace(raw) ==> r == products
    ensures !AllSpace(raw) ==> r == Filter(products, MatchesQuery(Query(raw)))
    ensures !AllSpace(raw) ==> forall i :: 0 <= i < |r| ==> MatchesQuery(Query(raw))(r[i])
    ensures !AllSpace(raw) ==>
              forall i :: 0 <= i < |products| && MatchesQuery(Query(raw))(products[i]) ==> products[i] in r
    ensures forall p :: p in r ==> p in products
  {
    var q := Query(raw);
    if q == [] then products else Filter(products, MatchesQuery(q))
  }

  /** The number of pages for `n` products: `n` divided by the page size, rounded up. */
  function TotalPages(n: nat): (t: nat)
    ensures n == 0 <==> t == 0
    ensures t > 0 ==> (t - 1) * PageSize < n <= t * PageSize
  {
    (n + PageSize - 1) / PageSize
  }

  /** The pagination bar is drawn exactly when the matches fill more than one page. */
  lemma BarShownIff(n: nat)
    ensures Pagination.Rendered(TotalPages(n)) <==> n > PageSize
  {
  }

  /** A slice with JavaScript's rules: negative positions count from the end, and both ends are clipped to the list. */
  function Slice<T>(s: seq<T>, start: int, end: int): (r: seq<T>)
    ensures 0 <= start <= end <= |s| ==> r == s[start..end]
    ensures 0 <= start && |s| <= end ==> r == s[Min(start, |s|)..]
    ensures |r| <= |s|
  {
    var from := if start < 0 then Max(|s| + start, 0) else Min(start, |s|);
    var to := if end < 0 then Max(|s| + end, 0) else Min(end, |s|);
    if from < to then s[from..to] else []
  }

  function Min(a: int, b: int): int { if a <= b then a else b }

  function Max(a: int, b: int): int { if a >= b then a else b }

  /** The products on page `page` (counting from 1). */
  function Page(filtered: seq<Product>, page: int): (r: seq<Product>)
    ensures |r| <= PageSize
    ensures page >= 1 ==> r == filtered[Min((page - 1) * PageSize, |filtered|)..Min(page * PageSize, |filtered|)]
  {
    var start := (page - 1) * PageSize;
    Slice(filtered, start, start + PageSize)
  }

  /** Pages 1 to `k`, one after another. */
  function Pages(filtered: seq<Product>, k: nat): seq<Product> {
    if k == 0 then [] else Pages(filtered, k - 1) + Page(filtered, k)
  }

  lemma {:induction false} PagesPrefix(filtered: seq<Product>, k: nat)
    ensures Pages(filtered, k) == filtered[..Min(k * PageSize, |filtered|)]
  {
    if k > 0 {
      PagesPrefix(filtered, k - 1);
      var a, b := Min((k - 1) * PageSize, |filtered|), Min(k * PageSize, |filtered|);
      assert filtered[..a] + filtered[a..b] == filtered[..b];
    }
  }

  /** Reading every page in order gives back the whole filtered list, each product once. */
  lemma PagesCoverAll(filtered: seq<Product>)
    ensures Pages(filtered, TotalPages(|filtered|)) == filtered
  {
    PagesPrefix(filtered, TotalPages(|filtered|));
  }

  /** Every page up to the last one holds something, and only the last may hold fewer than eight. */
  lemma PageSizes(filtered: seq<Product>, page: int)
    requires 1 <= page <= TotalPages(|filtered|)
    ensures 1 <= |Page(filtered, page)|
    ensures page < TotalPages(|filtered|) ==> |Page(filtered, page)| == PageSize
  {
  }

  /** The "Showing a–b of n" line: first and last position shown, or none when nothing matches. */
  datatype Summary = NoProducts | Showing(first: int, last: int, of: int)

  function SummaryOf(page: int, n: nat): (s: Summary)
    ensures n == 0 <==> s == NoProducts
    ensures s.Showing? ==> s.first == (page - 1) * PageSize + 1 && s.last == Min(page * PageSize, n) && s.of == n
  {
    if n == 0 then NoProducts else Showing((page - 1) * PageSize + 1, Min(page * PageSize, n), n)
  }

  /** On an existing page the summary names exactly the positions of the products on it. */
  lemma SummaryMatchesPage(filtered: seq<Product>, page: int)
    requires 1 <= page <= TotalPages(|filtered|)
    ensures var s := SummaryOf(page, |filtered|);
            s.Showing? && 1 <= s.first <= s.last <= s.of &&
            s.last - s.first + 1 == |Page(filtered, page)| &&
            Page(filtered, page) == filtered[s.first - 1..s.last]
  {
  }

  class ProductListView {
    var query: string
    var currentPage: int

    constructor ()
      ensures query == "" && currentPage == 1
    {
      query := "";
      currentPage := 1;
    }

    /** Typing in the search box: a new query always starts again from page 1. */
    method HandleSearch(value: string)
      modifies this
      ensures query == value && currentPage == 1
    {
      query := value;
      currentPage := 1;
    }

    /** A page chosen on the pagination bar. */
    method SetPage(page: int)
      modifies this
      ensures query == old(query) && currentPage == page
    {
      currentPage := page;
    }
  }
}
