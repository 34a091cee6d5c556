/**
 * The rules of a product card in the listing grid: the stock badge, whether
 * the product is already in the cart, and the add button's state and label.
 */
module ProductCard {
  import opened Text
  import opened Seqs
  import opened Product
  import opened CartStore

  datatype StockLabel = InStock | OnlyLeft(n: int) | SoldOut

  /** More than 20 in stock is "In Stock", 1 to 20 is "Only N left", anything else is "Out of Stock". */
  function StockLabelOf(stock: int): (l: StockLabel)
    ensures l == InStock <==> stock > 20
    ensures l.OnlyLeft? <==> 0 < stock <= 20
    ensures l.OnlyLeft? ==> l.n == stock
    ensures l == SoldOut <==> stock <= 0
  {
    if stock > 20 then InStock else if stock > 0 then OnlyLeft(stock) else SoldOut
  }

  function LabelText(l: StockLabel): string
    requires l.OnlyLeft? ==> l.n >= 0
  {
    match l
    case InStock => "In Stock"
    case OnlyLeft(n) => "Only " + Decimal(n) + " left"
    case SoldOut => "Out of Stock"
  }

  /** The "Only N left" badge carries the exact stock count. */
  lemma OnlyLeftText(stock: int)
    requires 0 < stock <= 20
    ensures var t := LabelText(StockLabelOf(stock));
            t == "Only " + Decimal(stock) + " left" && ValueOf(t[5..|t| - 5]) == stock
  {
    var t := LabelText(StockLabelOf(stock));
    assert t[5..|t| - 5] == Decimal(stock);
    DecimalValue(stock);
  }

  /** Is some cart line for this product? */
  function InCart(cart: seq<Line>, p: Product): (b: bool)
    ensures b <==> HasId(cart, p.id)
  {
    FindIndex(cart, IdIs(p.id)).Some?
  }

  /** The add button is disabled exactly when the stock is 0. */
  predicate OutOfStock(p: Product) {
    p.stock == 0
  }

  /** Out of stock wins over already-in-cart, which wins over the plain label. */
  function ButtonLabel(cart: seq<Line>, p: Product): (s: string)
    ensures OutOfStock(p) ==> s == "Out of Stock"
    ensures !OutOfStock(p) && HasId(cart, p.id) ==> s == "+ Add More"
    ensures !OutOfStock(p) && !HasId(cart, p.id) ==> s == "Add to Cart"
  {
    if OutOfStock(p) then "Out of Stock" else if InCart(cart, p) then "+ Add More" else "Add to Cart"
  }

  /**
   * For a stock that cannot be negative the badge and the button agree: the
   * badge reads "Out of Stock" exactly when the button is disabled.
   */
  lemma BadgeAgreesWithButton(p: Product)
    requires p.stock >= 0
    ensures StockLabelOf(p.stock) == SoldOut <==> OutOfStock(p)
  {
  }

  /**
   * The add button: enabled unless the product is out of stock, it adds
   * the product to the cart, after which the card shows "+ Add More".
   */
  method ClickAdd(cart: Cart, p: Product)
    requires !OutOfStock(p)
    modifies cart
    ensures cart.items == Added(old(cart.items), p)
    ensures ButtonLabel(cart.items, p) == "+ Add More"
  {
    cart.AddToCart(p);
  }
}
