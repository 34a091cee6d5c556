/**
 * One row of the cart drawer: the line total, the stock cap on the increase
 * button, and which store operation each control calls.
 */
module CartItem {
  import opened Seqs
  import opened Product
  import opened CartStore

  /** The increase button is disabled, and "Max stock" shown, once the quantity reaches the line's stock. */
  predicate AtMaxStock(l: Line) {
    l.quantity >= l.product.stock
  }

  /** The amount shown for the row: price times quantity, the same product the cart's total adds up. */
  function RowTotal(l: Line): int {
    LineTotal(l)
  }

  /** The rows' amounts add up to the total price the drawer's footer shows. */
  lemma {:induction false} RowsSumToTotal(c: seq<Line>)
    ensures SumOf(c, RowTotal) == TotalPrice(c)
  {
    if c != [] {
      RowsSumToTotal(c[1..]);
    }
  }

  /**
   * Increasing a row below its stock cap adds exactly one unit of that
   * product, changes no other line and raises the item count by one.
   */
  lemma IncreaseBelowCap(c: seq<Line>, k: nat)
    requires WellFormed(c) && k < |c| && !AtMaxStock(c[k])
    ensures QtyOf(Added(c, c[k].product), c[k].product.id) == c[k].quantity + 1
    ensures Added(c, c[k].product) == c[k := Line(c[k].product, c[k].quantity + 1)]
    ensures TotalItems(Added(c, c[k].product)) == TotalItems(c) + 1
  {
    var p := c[k].product;
    assert HasId(c, p.id);
    assert QtyOf(c, p.id) == c[k].quantity;
    AddedQty(c, p);
    var r := Added(c, p);
    assert r == c[k := Line(p, c[k].quantity + 1)];
    SumUpdate(c, k, Line(p, c[k].quantity + 1), Quantity);
  }

  /** The minus button: `decreaseQty(item.id)`. */
  method ClickDecrease(cart: Cart, l: Line)
    modifies cart
    ensures cart.items == Decreased(old(cart.items), l.product.id)
  {
    cart.DecreaseQty(l.product.id);
  }

  /** The plus button, enabled below the cap: `addToCart(item)`, so the cap is the line's own stock. */
  method ClickIncrease(cart: Cart, l: Line)
    requires !AtMaxStock(l)
    modifies cart
    ensures cart.items == Added(old(cart.items), l.product)
  {
    cart.AddToCart(l.product);
  }

  /** The remove button: `removeFromCart(item.id)`. */
  method ClickRemove(cart: Cart, l: Line)
    modifies cart
    ensures cart.items == Removed(old(cart.items), l.product.id)
    ensures !HasId(cart.items, l.product.id)
  {
    cart.RemoveFromCart(l.product.id);
  }
}
