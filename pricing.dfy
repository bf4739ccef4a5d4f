/**
  The cart pricing formula that every cart handler recomputes after it
  touches the cart lines.

  The source keeps money in JavaScript numbers and formats each figure with
  `toFixed(2)`. Here every amount is an integer number of cents, so the
  sum of line costs and the final total are exact, and the only rounding
  left is the one in the 15% tax, rounded half-up to the cent.
*/
module Pricing {
  import opened Catalog

  /** One cart line: the product id, the product document copied into the cart, and the quantity. */
  datatype CartLine = CartLine(id: ProductId, product: Product, qty: nat)

  /** The four money fields stored on the cart, in cents. */
  datatype Totals = Totals(itemsPrice: nat, shippingPrice: nat, taxPrice: nat, totalPrice: nat)

  const ZeroTotals := Totals(0, 0, 0, 0)

  /** Orders whose items cost more than 100.00 ship free; otherwise shipping is 10.00. */
  const FreeShippingAbove: nat := 10000
  const ShippingFee: nat := 1000

  function LineCost(l: CartLine): nat {
    l.product.price * l.qty
  }

  /** `lines.reduce((acc, item) => acc + item.product.price * item.qty, acc)`, a left fold. */
  function SumFrom(acc: nat, lines: seq<CartLine>): nat
    decreases |lines|
  {
    if lines == [] then acc else SumFrom(acc + LineCost(lines[0]), lines[1..])
  }

  function ItemsPrice(lines: seq<CartLine>): nat {
    SumFrom(0, lines)
  }

  /** The accumulator of the fold only shifts the result. */
  lemma {:induction false} SumFromShift(acc: nat, lines: seq<CartLine>)
    ensures SumFrom(acc, lines) == acc + ItemsPrice(lines)
    decreases |lines|
  {
    if lines != [] {
      SumFromShift(acc + LineCost(lines[0]), lines[1..]);
      SumFromShift(LineCost(lines[0]), lines[1..]);
    }
  }

  /** The items price of a cart is the cost of its first line plus that of the others. */
  lemma ItemsPriceCons(l: CartLine, lines: seq<CartLine>)
    ensures ItemsPrice([l] + lines) == LineCost(l) + ItemsPrice(lines)
  {
    assert ([l] + lines)[1..] == lines;
    SumFromShift(LineCost(l), lines);
  }

  /** The items price of two carts put together is the sum of their items prices. */
  lemma {:induction false} ItemsPriceAppend(a: seq<CartLine>, b: seq<CartLine>)
    ensures ItemsPrice(a + b) == ItemsPrice(a) + ItemsPrice(b)
    decreases |a|
  {
    if a == [] {
      assert a + b == b;
    } else {
      assert a + b == [a[0]] + (a[1..] + b);
      assert a == [a[0]] + a[1..];
      ItemsPriceCons(a[0], a[1..] + b);
      ItemsPriceCons(a[0], a[1..]);
      ItemsPriceAppend(a[1..], b);
    }
  }

  /** `(0.15 * itemsPrice).toFixed(2)`: 15% of the items price, rounded half-up to the cent. */
  function TaxOf(itemsPrice: nat): (tax: nat)
    ensures 100 * tax - 50 <= 15 * itemsPrice < 100 * tax + 50
  {
    (15 * itemsPrice + 50) / 100
  }

  /** `+itemsPrice > 100 ? 0 : 10`. */
  function ShippingOf(itemsPrice: nat): (fee: nat)
    ensures fee == 0 <==> itemsPrice > FreeShippingAbove
    ensures fee != 0 ==> fee == ShippingFee
  {
    if itemsPrice > FreeShippingAbove then 0 else ShippingFee
  }

  /** The four money fields the handlers store after recomputing a cart's lines. */
  function TotalsOf(lines: seq<CartLine>): (t: Totals)
    ensures t.itemsPrice == ItemsPrice(lines)
    ensures t.shippingPrice == 0 <==> t.itemsPrice > FreeShippingAbove
    ensures t.shippingPrice != 0 ==> t.shippingPrice == ShippingFee
    ensures 100 * t.taxPrice - 50 <= 15 * t.itemsPrice < 100 * t.taxPrice + 50
    ensures t.totalPrice == t.itemsPrice + t.taxPrice + t.shippingPrice
  {
    var items := ItemsPrice(lines);
    var tax := TaxOf(items);
    var shipping := ShippingOf(items);
    Totals(items, shipping, tax, items + tax + shipping)
  }

  /** Putting a line in front of the others adds exactly its cost to the items price. */
  lemma TotalsOfCons(l: CartLine, lines: seq<CartLine>)
    ensures TotalsOf([l] + lines).itemsPrice == LineCost(l) + TotalsOf(lines).itemsPrice
  {
    ItemsPriceCons(l, lines);
  }

  /** The formula on an empty list of lines charges the shipping fee and nothing else. */
  lemma TotalsOfEmpty()
    ensures TotalsOf([]) == Totals(0, ShippingFee, 0, ShippingFee)
  {
  }

  /** Worked examples: one line at 60.00 times two, and the same line at 40.00. */
  lemma TotalsExamples(p: Product)
    ensures p.price == 6000 ==> TotalsOf([CartLine(1, p, 2)]) == Totals(12000, 0, 1800, 13800)
    ensures p.price == 4000 ==> TotalsOf([CartLine(1, p, 2)]) == Totals(8000, 1000, 1200, 10200)
  {
    ItemsPriceCons(CartLine(1, p, 2), []);
    assert [CartLine(1, p, 2)] + [] == [CartLine(1, p, 2)];
    assert ItemsPrice([CartLine(1, p, 2)]) == 2 * p.price;
  }
}
