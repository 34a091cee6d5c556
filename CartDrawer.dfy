/**
 * The slide-in cart drawer: the item-count badge in its header, the footer
 * that appears once the cart holds something, and where "Proceed to
 * Checkout" leads.
 */
module CartDrawer {
  import opened Options
  import opened Text
  import opened Seqs
  import opened CartStore
  import opened Auth

  /** Where "Proceed to Checkout" leads once the drawer has closed. */
  datatype Route = AskSignIn | EnterAddress

  /** A guest is asked to sign in; a signed-in user goes on to the address form. */
  function RouteFor(user: Option<Session>): (r: Route)
    ensures r == EnterAddress <==> user.Some?
    ensures r == AskSignIn <==> user.None?
  {
    if user.None? then AskSignIn else EnterAddress
  }

  /** The footer (subtotal, total, checkout and clear buttons) is shown for a non-empty cart. */
  predicate ShowsFooter(items: seq<Line>) {
    |items| > 0
  }

  /** The header badge "N item(s)", shown only for a positive count. */
  function ItemsBadge(totalItems: int): (r: Option<string>)
    ensures r.Some? <==> totalItems > 0
    ensures r.Some? ==> |r.value| > |Decimal(totalItems)| && r.value[..|Decimal(totalItems)|] == Decimal(totalItems)
    ensures r.Some? ==> (r.value[|r.value| - 1] == 's' <==> totalItems != 1)
  {
    if totalItems > 0 then
      Some(Decimal(totalItems) + " item" + (if totalItems != 1 then "s" else ""))
    else None
  }

  /** The badge starts with the count itself, written so that it reads back as the count. */
  lemma BadgeReadsBack(totalItems: int)
    requires totalItems > 0
    ensures var b := ItemsBadge(totalItems).value;
            exists k :: 0 < k < |b| && AllDigits(b[..k]) && ValueOf(b[..k]) == totalItems
  {
    var b := ItemsBadge(totalItems).value;
    var k := |Decimal(totalItems)|;
    DecimalValue(totalItems);
    assert b[..k] == Decimal(totalItems);
  }

  /** With every quantity at least 1, the item count is at least the number of lines. */
  lemma {:induction false} TotalAtLeastLines(items: seq<Line>)
    requires forall i :: 0 <= i < |items| ==> items[i].quantity >= 1
    ensures TotalItems(items) >= |items|
  {
    if items != [] {
      TotalAtLeastLines(items[1..]);
    }
  }

  /**
   * In a well-formed cart the footer and the header badge come and go
   * together: both appear exactly when the cart holds something.
   */
  lemma FooterIffBadge(items: seq<Line>)
    requires WellFormed(items)
    ensures ShowsFooter(items) <==> TotalItems(items) > 0
    ensures ShowsFooter(items) <==> ItemsBadge(TotalItems(items)).Some?
  {
    TotalAtLeastLines(items);
  }
}
