/**
 * The cart store: one global list of line items, each a product snapshot with
 * a quantity. Every operation replaces the whole list with a new one computed
 * from the previous list (add with a stock clamp, decrease and drop at zero,
 * remove, clear); the totals are sums over the list.
 */
module CartStore {
  import opened Options
  import opened Seqs
  import opened Product

  /** A cart line: the product record spread into the line, plus a quantity. */
  datatype Line = Line(product: Product, quantity: int)

  function Quantity(l: Line): int { l.quantity }

  /** What a line costs: unit price times quantity. */
  function LineTotal(l: Line): int { l.product.price * l.quantity }

  function IdIs(id: int): Line -> bool { (l: Line) => l.product.id == id }

  function IdIsNot(id: int): Line -> bool { (l: Line) => l.product.id != id }

  function IsPositive(l: Line): bool { l.quantity > 0 }

  function Min(a: int, b: int): int { if a <= b then a else b }

  predicate HasId(c: seq<Line>, id: int) {
    exists i :: 0 <= i < |c| && c[i].product.id == id
  }

  predicate UniqueIds(c: seq<Line>) {
    forall i, j :: 0 <= i < j < |c| ==> c[i].product.id != c[j].product.id
  }

  /** The cart's invariant: one line per product, and no line with a quantity below 1. */
  predicate WellFormed(c: seq<Line>) {
    UniqueIds(c) && forall i :: 0 <= i < |c| ==> c[i].quantity >= 1
  }

  /** The quantity on the (first) line for `id`, or 0 when there is none. */
  function QtyOf(c: seq<Line>, id: int): (q: int)
    ensures !HasId(c, id) ==> q == 0
    ensures UniqueIds(c) ==> forall i :: 0 <= i < |c| && c[i].product.id == id ==> q == c[i].quantity
  {
    match FindIndex(c, IdIs(id))
    case Some(k) => c[k].quantity
    case None => 0
  }

  /** The cart with the quantity of every line for product `id` passed through `g`. */
  function MapQty(c: seq<Line>, id: int, g: int -> int): (r: seq<Line>)
    ensures |r| == |c|
    ensures forall i :: 0 <= i < |c| && c[i].product.id != id ==> r[i] == c[i]
    ensures forall i :: 0 <= i < |c| && c[i].product.id == id ==> r[i] == Line(c[i].product, g(c[i].quantity))
  {
    seq(|c|, i requires 0 <= i < |c| =>
      if c[i].product.id == id then Line(c[i].product, g(c[i].quantity)) else c[i])
  }

  /** On a cart with one line per product, the map touches exactly that line. */
  lemma MapQtyAt(c: seq<Line>, k: nat, g: int -> int)
    requires UniqueIds(c) && k < |c|
    ensures MapQty(c, c[k].product.id, g) == c[k := Line(c[k].product, g(c[k].quantity))]
  {
  }

  /**
   * `addToCart(product)`: a product already in the cart gets quantity
   * min(q + 1, product.stock) on its line; any other product is appended as a
   * new line with quantity 1.
   */
  function Added(c: seq<Line>, p: Product): (r: seq<Line>)
    ensures !HasId(c, p.id) ==> r == c + [Line(p, 1)]
    ensures HasId(c, p.id) ==> |r| == |c| && forall i :: 0 <= i < |c| ==>
      r[i].product == c[i].product &&
      (c[i].product.id != p.id ==> r[i] == c[i]) &&
      (c[i].product.id == p.id ==> r[i].quantity == Min(QtyOf(c, p.id) + 1, p.stock))
    ensures HasId(r, p.id)
    ensures UniqueIds(c) ==> UniqueIds(r)
    ensures WellFormed(c) && p.stock >= 1 ==> WellFormed(r)
  {
    match FindIndex(c, IdIs(p.id))
    case Some(k) =>
      var maxQty := Min(c[k].quantity + 1, p.stock);
      MapQty(c, p.id, _ => maxQty)
    case None =>
      var r := c + [Line(p, 1)];
      assert r[|c|].product.id == p.id;
      r
  }

  /** `decreaseQty(id)`: lower the matching line by one, then keep only lines whose quantity is above 0. */
  function Decreased(c: seq<Line>, id: int): (r: seq<Line>)
    ensures forall i :: 0 <= i < |r| ==> r[i].quantity > 0
    ensures |r| <= |c|
  {
    Filter(MapQty(c, id, q => q - 1), IsPositive)
  }

  /** `removeFromCart(id)`: keep only the lines with another id. */
  function Removed(c: seq<Line>, id: int): (r: seq<Line>)
    ensures !HasId(r, id)
    ensures forall i :: 0 <= i < |c| && c[i].product.id != id ==> c[i] in r
    ensures forall l :: l in r ==> l in c
  {
    Filter(c, IdIsNot(id))
  }

  /** `totalItems`: the sum of the quantities. */
  function TotalItems(c: seq<Line>): int { SumOf(c, Quantity) }

  /** `totalPrice`: the sum of price times quantity over the lines. */
  function TotalPrice(c: seq<Line>): int { SumOf(c, LineTotal) }

  /** Filtering a cart with one line per product keeps one line per product. */
  lemma {:induction false} FilterKeepsUnique(c: seq<Line>, f: Line -> bool)
    requires UniqueIds(c)
    ensures UniqueIds(Filter(c, f))
  {
    if c != [] {
      FilterKeepsUnique(c[1..], f);
      var rest := Filter(c[1..], f);
      if f(c[0]) {
        forall l | l in rest ensures l.product.id != c[0].product.id {
          var j :| 0 <= j < |c[1..]| && c[1..][j] == l;
          assert c[j + 1] == l;
        }
        var r := [c[0]] + rest;
        forall i, j | 0 <= i < j < |r| ensures r[i].product.id != r[j].product.id {
          if i == 0 { assert r[j] in rest; } else { assert r[i] == rest[i - 1] && r[j] == rest[j - 1]; }
        }
      }
    }
  }

  /** Removal keeps one line per product and drops at most one line. */
  lemma RemovedSpec(c: seq<Line>, id: int)
    requires UniqueIds(c)
    ensures UniqueIds(Removed(c, id))
    ensures !HasId(c, id) ==> Removed(c, id) == c
    ensures forall k :: 0 <= k < |c| && c[k].product.id == id ==> Removed(c, id) == c[..k] + c[k + 1..]
  {
    FilterKeepsUnique(c, IdIsNot(id));
    if !HasId(c, id) {
      FilterAll(c, IdIsNot(id));
    }
    forall k | 0 <= k < |c| && c[k].product.id == id ensures Removed(c, id) == c[..k] + c[k + 1..] {
      FilterDropsOne(c, k, IdIsNot(id));
    }
  }

  /** Removing a product lowers the item count by its quantity and the price by its line total. */
  lemma RemovedTotals(c: seq<Line>, id: int)
    requires UniqueIds(c)
    ensures TotalItems(Removed(c, id)) == TotalItems(c) - QtyOf(c, id)
    ensures HasId(c, id) ==>
              (exists k :: 0 <= k < |c| && c[k].product.id == id &&
                           TotalPrice(Removed(c, id)) == TotalPrice(c) - LineTotal(c[k]))
    ensures !HasId(c, id) ==> TotalPrice(Removed(c, id)) == TotalPrice(c)
  {
    RemovedSpec(c, id);
    if HasId(c, id) {
      var k :| 0 <= k < |c| && c[k].product.id == id;
      SumRemove(c, k, Quantity);
      SumRemove(c, k, LineTotal);
    }
  }

  /** The intermediate list of `decreaseQty`, before the filter: only line `k` changes. */
  lemma DecrementAt(c: seq<Line>, k: nat)
    requires UniqueIds(c) && k < |c|
    ensures MapQty(c, c[k].product.id, q => q - 1) == c[k := Line(c[k].product, c[k].quantity - 1)]
  {
    MapQtyAt(c, k, q => q - 1);
  }

  /**
   * `decreaseQty` on a well-formed cart: a line with quantity above 1 loses one
   * unit in place, a line with quantity 1 disappears, and an absent id changes
   * nothing. Either way the other lines stay, in order.
   */
  lemma DecreasedSpec(c: seq<Line>, id: int)
    requires WellFormed(c)
    ensures WellFormed(Decreased(c, id))
    ensures !HasId(c, id) ==> Decreased(c, id) == c
    ensures forall k :: 0 <= k < |c| && c[k].product.id == id && c[k].quantity > 1 ==>
      Decreased(c, id) == c[k := Line(c[k].product, c[k].quantity - 1)]
    ensures forall k :: 0 <= k < |c| && c[k].product.id == id && c[k].quantity == 1 ==>
      Decreased(c, id) == c[..k] + c[k + 1..] && !HasId(Decreased(c, id), id)
  {
    DecreasedWellFormed(c, id);
    if !HasId(c, id) {
      DecreasedAbsent(c, id);
    }
    forall k | 0 <= k < |c| && c[k].product.id == id && c[k].quantity > 1
      ensures Decreased(c, id) == c[k := Line(c[k].product, c[k].quantity - 1)]
    {
      DecreasedAbove1(c, k);
    }
    forall k | 0 <= k < |c| && c[k].product.id == id && c[k].quantity == 1
      ensures Decreased(c, id) == c[..k] + c[k + 1..] && !HasId(Decreased(c, id), id)
    {
      DecreasedAt1(c, k);
    }
  }

  lemma DecreasedWellFormed(c: seq<Line>, id: int)
    requires WellFormed(c)
    ensures WellFormed(Decreased(c, id))
  {
    var m := MapQty(c, id, q => q - 1);
    assert UniqueIds(m) by {
      forall i, j | 0 <= i < j < |m| ensures m[i].product.id != m[j].product.id {
        assert m[i].product == c[i].product && m[j].product == c[j].product;
      }
    }
    FilterKeepsUnique(m, IsPositive);
  }

  lemma DecreasedAbsent(c: seq<Line>, id: int)
    requires WellFormed(c) && !HasId(c, id)
    ensures Decreased(c, id) == c
  {
    var m := MapQty(c, id, q => q - 1);
    assert m == c;
    FilterAll(c, IsPositive);
  }

  lemma DecreasedAbove1(c: seq<Line>, k: nat)
    requires WellFormed(c) && k < |c| && c[k].quantity > 1
    ensures Decreased(c, c[k].product.id) == c[k := Line(c[k].product, c[k].quantity - 1)]
  {
    var m := c[k := Line(c[k].product, c[k].quantity - 1)];
    DecrementAt(c, k);
    FilterAll(m, IsPositive);
  }

  lemma DecreasedAt1(c: seq<Line>, k: nat)
    requires WellFormed(c) && k < |c| && c[k].quantity == 1
    ensures Decreased(c, c[k].product.id) == c[..k] + c[k + 1..]
    ensures !HasId(c[..k] + c[k + 1..], c[k].product.id)
  {
    var m := c[k := Line(c[k].product, 0)];
    DecrementAt(c, k);
    FilterDropsOne(m, k, IsPositive);
    assert m[..k] == c[..k] && m[k + 1..] == c[k + 1..];
    var r := c[..k] + c[k + 1..];
    forall i | 0 <= i < |r| ensures r[i].product.id != c[k].product.id {
      if i < k { assert r[i] == c[i]; } else { assert r[i] == c[i + 1]; }
    }
  }

  /** Decreasing a product that is in a well-formed cart lowers the item count by exactly one. */
  lemma DecreasedTotalItems(c: seq<Line>, id: int)
    requires WellFormed(c) && HasId(c, id)
    ensures TotalItems(Decreased(c, id)) == TotalItems(c) - 1
  {
    DecreasedSpec(c, id);
    var k :| 0 <= k < |c| && c[k].product.id == id;
    if c[k].quantity > 1 {
      SumUpdate(c, k, Line(c[k].product, c[k].quantity - 1), Quantity);
    } else {
      SumRemove(c, k, Quantity);
    }
  }

  /** Adding a product raises the item count by one, unless its line is already at the product's stock. */
  lemma AddedTotalItems(c: seq<Line>, p: Product)
    requires UniqueIds(c)
    ensures !HasId(c, p.id) ==> TotalItems(Added(c, p)) == TotalItems(c) + 1
    ensures HasId(c, p.id) ==>
      TotalItems(Added(c, p)) == TotalItems(c) - QtyOf(c, p.id) + Min(QtyOf(c, p.id) + 1, p.stock)
  {
    if !HasId(c, p.id) {
      SumConcat(c, [Line(p, 1)], Quantity);
    } else {
      var k :| 0 <= k < |c| && c[k].product.id == p.id;
      var q := Min(c[k].quantity + 1, p.stock);
      MapQtyAt(c, k, _ => q);
      assert Added(c, p) == c[k := Line(c[k].product, q)];
      SumUpdate(c, k, Line(c[k].product, q), Quantity);
    }
  }

  /** Adding the same product `n` times in a row. */
  function AddedTimes(c: seq<Line>, p: Product, n: nat): seq<Line>
  {
    if n == 0 then c else Added(AddedTimes(c, p, n - 1), p)
  }

  /** One add moves the product's quantity to min(q + 1, stock), counting an absent line as 0. */
  lemma AddedQty(c: seq<Line>, p: Product)
    requires p.stock >= 1
    ensures QtyOf(Added(c, p), p.id) == Min(QtyOf(c, p.id) + 1, p.stock)
  {
    var r := Added(c, p);
    if HasId(c, p.id) {
      var k := FindIndex(r, IdIs(p.id)).value;
      assert r[k].product == c[k].product;
    } else {
      assert FindIndex(c, IdIs(p.id)) == None;
      var k := FindIndex(r, IdIs(p.id)).value;
      assert k == |c|;
    }
  }

  /**
   * However many times a product is added, its quantity is
   * min(q0 + n, stock): it never exceeds the stock ceiling.
   */
  lemma {:induction false} AddedTimesQty(c: seq<Line>, p: Product, n: nat)
    requires n >= 1 && p.stock >= 1
    ensures QtyOf(AddedTimes(c, p, n), p.id) == Min(QtyOf(c, p.id) + n, p.stock)
    ensures QtyOf(AddedTimes(c, p, n), p.id) <= p.stock
  {
    AddedQty(AddedTimes(c, p, n - 1), p);
    if n > 1 {
      AddedTimesQty(c, p, n - 1);
    }
  }

  /** The store as the provider holds it: the current list of lines. */
  class Cart {
    var items: seq<Line>

    /** Starts from the list restored from storage (empty when nothing was saved). */
    constructor (saved: seq<Line>)
      ensures items == saved
    {
      items := saved;
    }

    method AddToCart(p: Product)
      modifies this
      ensures items == Added(old(items), p)
      ensures old(WellFormed(items)) && p.stock >= 1 ==> WellFormed(items)
    {
      items := Added(items, p);
    }

    method DecreaseQty(id: int)
      modifies this
      ensures items == Decreased(old(items), id)
      ensures old(WellFormed(items)) ==> WellFormed(items)
    {
      if WellFormed(items) {
        DecreasedSpec(items, id);
      }
      items := Decreased(items, id);
    }

    method RemoveFromCart(id: int)
      modifies this
      ensures items == Removed(old(items), id)
      ensures old(WellFormed(items)) ==> WellFormed(items)
    {
      if WellFormed(items) {
        RemovedSpec(items, id);
      }
      items := Removed(items, id);
    }

    method ClearCart()
      modifies this
      ensures items == [] && TotalItems(items) == 0 && TotalPrice(items) == 0
    {
      items := [];
    }
  }
}
