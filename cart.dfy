/**
  The cart engine of the user controller: add a line, delete a line, set a
  line's quantity, list the cart (which reconciles it against the
  catalogue and stores the result) and clear it.

  Each handler first checks its guards, then edits the list of lines, then
  walks the lines once against the catalogue and recomputes the four money
  fields after every line it visits. The walks are written in the source as
  `lines.map(async ...)` callbacks that are not awaited; here each walk is
  the sequential pass the code spells out, completed before the handler's
  next statement.

  The value-level functions `AddStep`, `DeleteStep`, `UpdateStep`,
  `ListStep` and `ClearStep` say what each handler does to a cart value;
  the class `Cart` does it in place, and each of its methods is proved to
  agree with the function of the same handler.
*/
module CartEngine {
  import opened Catalog
  import opened Pricing

  /** The handlers' error replies, one constructor per message. */
  datatype CartError =
    | ProductNotFound        // "Product is not found"
    | ChooseQuantity         // "Please choose the quantity"
    | QuantityNotAvailable   // "This quantity of this product is not available"
    | AlreadyInCart          // "Product is already in cart"
    | AlreadyNotInCart       // "Product already is not in the cart" (delete)
    | NotInCart              // "Product is not in the cart" (update)
    | NoCartYet              // "You have not any product in cart" (list)

  datatype Outcome = Ok | Fail(error: CartError)

  /** The cart sub-document of a user: whether it exists yet, its lines and its money fields. */
  datatype CartValue = CartValue(present: bool, lines: seq<CartLine>, totals: Totals)

  /** What a handler replies, and the cart it leaves behind. */
  datatype Step = Step(outcome: Outcome, cart: CartValue)

  /** The lines of a cart; a user who never added anything has no cart and so no lines. */
  function Lines(v: CartValue): seq<CartLine> {
    if v.present then v.lines else []
  }

  // ---------------------------------------------------------------------
  // Lines looked up by product id

  /** The first line for product `id`, as `products.find(p => p._id === id)` returns it. */
  function Find(lines: seq<CartLine>, id: ProductId): (r: Option<CartLine>)
    ensures r.Some? ==> r.value in lines && r.value.id == id
    ensures r.None? <==> forall l :: l in lines ==> l.id != id
    decreases |lines|
  {
    if lines == [] then None
    else if lines[0].id == id then Some(lines[0])
    else Find(lines[1..], id)
  }

  predicate HasLine(lines: seq<CartLine>, id: ProductId) {
    Find(lines, id).Some?
  }

  /** No product appears on two lines. */
  predicate DistinctIds(lines: seq<CartLine>)
    decreases |lines|
  {
    lines == [] || (!HasLine(lines[1..], lines[0].id) && DistinctIds(lines[1..]))
  }

  predicate PositiveQty(lines: seq<CartLine>) {
    forall l :: l in lines ==> l.qty > 0
  }

  /**
    What every handler keeps true of a stored cart: one line per product,
    every quantity positive, and no lines before the cart exists.
  */
  predicate WellFormed(v: CartValue) {
    DistinctIds(v.lines) && PositiveQty(v.lines) && (!v.present ==> v.lines == [])
  }

  /** The requested quantity of an add: `+req.body.qty || 1`. */
  function EffectiveQty(raw: Option<int>): (q: int)
    ensures q != 0
    ensures raw.Some? && raw.value != 0 ==> q == raw.value
    ensures raw.None? || raw.value == 0 ==> q == 1
  {
    if raw.Some? && raw.value != 0 then raw.value else 1
  }

  // ---------------------------------------------------------------------
  // Edits of the line list

  /** `products.filter(p => p._id != id)`. */
  function RemoveId(lines: seq<CartLine>, id: ProductId): seq<CartLine>
    decreases |lines|
  {
    if lines == [] then []
    else (if lines[0].id == id then [] else [lines[0]]) + RemoveId(lines[1..], id)
  }

  /** `products.find(p => p._id === id).qty = qty`. */
  function SetQty(lines: seq<CartLine>, id: ProductId, qty: nat): seq<CartLine>
    decreases |lines|
  {
    if lines == [] then []
    else if lines[0].id == id then [lines[0].(qty := qty)] + lines[1..]
    else [lines[0]] + SetQty(lines[1..], id, qty)
  }

  // ---------------------------------------------------------------------
  // The two passes over the lines

  /**
    One line of the pass that follows an add, a delete or an update: a line
    whose product still exists gets a fresh copy of it, a line whose product
    is gone is dropped.
  */
  function RefreshLine(cat: Catalogue, l: CartLine): seq<CartLine> {
    if l.id in cat then [l.(product := cat[l.id])] else []
  }

  function Refreshed(cat: Catalogue, lines: seq<CartLine>): seq<CartLine>
    decreases |lines|
  {
    if lines == [] then [] else RefreshLine(cat, lines[0]) + Refreshed(cat, lines[1..])
  }

  /**
    One line of the pass that listing the cart runs: as `RefreshLine`, and
    in addition the quantity is lowered to the product's stock, and a line
    lowered to zero is dropped.
  */
  function ClampLine(cat: Catalogue, l: CartLine): seq<CartLine> {
    if l.id !in cat then []
    else
      var q := Clamped(l, cat[l.id].quantity);
      if q == 0 then [] else [CartLine(l.id, cat[l.id], q)]
  }

  /** The quantity a listing leaves on a line: the requested one, lowered to the stock. */
  function Clamped(l: CartLine, stock: nat): nat {
    if l.qty > stock then stock else l.qty
  }

  function Reconciled(cat: Catalogue, lines: seq<CartLine>): seq<CartLine>
    decreases |lines|
  {
    if lines == [] then [] else ClampLine(cat, lines[0]) + Reconciled(cat, lines[1..])
  }

  /**
    A pass over the whole cart. The money fields are recomputed after each
    visited line, so they end as the formula of the final lines; a pass
    over no lines visits nothing and leaves them as they were.
  */
  function RefreshPass(cat: Catalogue, v: CartValue): CartValue {
    var lines := Refreshed(cat, v.lines);
    v.(lines := lines, totals := if v.lines == [] then v.totals else TotalsOf(lines))
  }

  function ReconcilePass(cat: Catalogue, v: CartValue): CartValue {
    var lines := Reconciled(cat, v.lines);
    v.(lines := lines, totals := if v.lines == [] then v.totals else TotalsOf(lines))
  }

  // ---------------------------------------------------------------------
  // The handlers, on values

  /** `addToCart` (controllers/userController.js:389-555). */
  function AddStep(cat: Catalogue, v: CartValue, id: ProductId, raw: Option<int>): (s: Step)
    ensures s.outcome != Fail(ChooseQuantity)
    ensures s.outcome == Fail(ProductNotFound) <==> id !in cat
    ensures s.outcome == Fail(QuantityNotAvailable) <==>
              id in cat && !(0 < EffectiveQty(raw) <= cat[id].quantity)
    ensures s.outcome == Fail(AlreadyInCart) <==>
              id in cat && 0 < EffectiveQty(raw) <= cat[id].quantity && HasLine(Lines(v), id)
    ensures s.outcome.Ok? <==>
              id in cat && 0 < EffectiveQty(raw) <= cat[id].quantity && !HasLine(Lines(v), id)
    ensures s.outcome.Ok? ==>
              var q := EffectiveQty(raw);
              && 0 < q
              && s.cart.present
              && s.cart.lines == [CartLine(id, cat[id], q as nat)] + Refreshed(cat, Lines(v))
              && s.cart.totals == TotalsOf(s.cart.lines)
    ensures s.outcome == Fail(AlreadyInCart) ==>
              s.cart == v.(lines := Refreshed(cat, v.lines), totals := TotalsOf(Refreshed(cat, v.lines)))
    ensures s.outcome == Fail(ProductNotFound) || s.outcome == Fail(QuantityNotAvailable) ==> s.cart == v
    ensures WellFormed(v) ==> WellFormed(s.cart)
  {
    var q := EffectiveQty(raw);
    if id !in cat then Step(Fail(ProductNotFound), v)
    else if !(q <= cat[id].quantity && q > 0) then
      Step(Fail(if q == 0 then ChooseQuantity else QuantityNotAvailable), v)
    else if v.present && HasLine(v.lines, id) then
      RefreshedWellFormed(cat, v.lines);
      Step(Fail(AlreadyInCart), RefreshPass(cat, v))
    else
      var created := if v.present then v else CartValue(true, [], ZeroTotals);
      var line := CartLine(id, cat[id], q as nat);
      RefreshedCons(cat, line, created.lines);
      RefreshedWellFormed(cat, Lines(v));
      FindRefreshed(cat, Lines(v), id);
      Step(Ok, RefreshPass(cat, created.(lines := [line] + created.lines)))
  }

  /** `deleteFromCart` (controllers/userController.js:557-686). */
  function DeleteStep(cat: Catalogue, v: CartValue, id: ProductId): (s: Step)
    ensures s.outcome == Fail(ProductNotFound) <==> id !in cat
    ensures s.outcome == Fail(AlreadyNotInCart) <==> id in cat && !HasLine(Lines(v), id)
    ensures s.outcome.Ok? <==> id in cat && HasLine(Lines(v), id)
    ensures s.outcome.Fail? ==> s.cart == v
    ensures s.outcome.Ok? ==>
              && s.cart.present
              && s.cart.lines == Refreshed(cat, RemoveId(v.lines, id))
              && s.cart.totals == (if s.cart.lines == [] then ZeroTotals else TotalsOf(s.cart.lines))
    ensures WellFormed(v) ==> WellFormed(s.cart)
  {
    if id !in cat then Step(Fail(ProductNotFound), v)
    else if !v.present || !HasLine(v.lines, id) then Step(Fail(AlreadyNotInCart), v)
    else
      var c := RefreshPass(cat, v.(lines := RemoveId(v.lines, id)));
      RemoveIdWellFormed(v.lines, id);
      RefreshedWellFormed(cat, RemoveId(v.lines, id));
      Step(Ok, if c.lines == [] then c.(totals := ZeroTotals) else c)
  }

  /** The line list after the quantity edit of `updateAmountInCart`, before its pass. */
  function EditQty(lines: seq<CartLine>, id: ProductId, raw: Option<int>): seq<CartLine> {
    if raw.None? then lines
    else if raw.value <= 0 then RemoveId(lines, id)
    else SetQty(lines, id, raw.value)
  }

  /**
    `updateAmountInCart` (controllers/userController.js:688-809). The
    quantity edit happens on the user document in memory; only the pass
    stores it, one line at a time. When the edit leaves no line (a 0 for the
    cart's only product) the pass visits nothing, nothing is stored, and the
    stored cart is the one before the request.
  */
  function UpdateStep(cat: Catalogue, v: CartValue, id: ProductId, raw: Option<int>): (s: Step)
    ensures s.outcome == Fail(ProductNotFound) <==> id !in cat
    ensures s.outcome == Fail(NotInCart) <==> id in cat && !HasLine(Lines(v), id)
    ensures s.outcome == Fail(QuantityNotAvailable) <==>
              id in cat && HasLine(Lines(v), id) && raw.Some? && (raw.value < 0 || raw.value > cat[id].quantity)
    ensures s.outcome.Ok? <==>
              id in cat && HasLine(Lines(v), id) && (raw.None? || 0 <= raw.value <= cat[id].quantity)
    ensures s.outcome.Fail? ==> s.cart == v
    ensures s.outcome.Ok? ==>
              var edited := EditQty(v.lines, id, raw);
              && (edited == [] ==> s.cart == v)
              && (edited != [] ==>
                    && s.cart.present
                    && s.cart.lines == Refreshed(cat, edited)
                    && s.cart.totals == TotalsOf(s.cart.lines))
    ensures WellFormed(v) ==> WellFormed(s.cart)
  {
    if id !in cat then Step(Fail(ProductNotFound), v)
    else if !v.present || !HasLine(v.lines, id) then Step(Fail(NotInCart), v)
    else if raw.Some? && !(raw.value <= cat[id].quantity && raw.value > 0) && raw.value != 0 then
      Step(Fail(QuantityNotAvailable), v)
    else
      var edited := EditQty(v.lines, id, raw);
      EditQtyWellFormed(v.lines, id, raw);
      RefreshedWellFormed(cat, edited);
      Step(Ok, if edited == [] then v else RefreshPass(cat, v.(lines := edited)))
  }

  /** `getCartProducts` (controllers/userController.js:811-924): listing stores the reconciled cart. */
  function ListStep(cat: Catalogue, v: CartValue): (s: Step)
    ensures s.outcome == Fail(NoCartYet) <==> !v.present
    ensures s.outcome.Ok? <==> v.present
    ensures s.outcome.Fail? ==> s.cart == v
    ensures s.outcome.Ok? ==>
              && s.cart.present
              && s.cart.lines == Reconciled(cat, v.lines)
              && s.cart.totals == (if v.lines == [] then v.totals else TotalsOf(s.cart.lines))
    ensures WellFormed(v) ==> WellFormed(s.cart)
  {
    if !v.present then Step(Fail(NoCartYet), v)
    else
      ReconciledWellFormed(cat, v.lines);
      Step(Ok, ReconcilePass(cat, v))
  }

  /** `clearCartItems` (controllers/userController.js:926-945). */
  function ClearStep(v: CartValue): (c: CartValue)
    ensures c.present == v.present
    ensures v.present ==> c.lines == [] && c.totals == ZeroTotals
    ensures !v.present ==> c == v
    ensures WellFormed(v) ==> WellFormed(c)
  {
    if v.present then CartValue(true, [], ZeroTotals) else v
  }

  // ---------------------------------------------------------------------
  // Facts about lookups and edits

  lemma {:induction false} FindAppend(a: seq<CartLine>, b: seq<CartLine>, id: ProductId)
    ensures Find(a + b, id) == if Find(a, id).Some? then Find(a, id) else Find(b, id)
    decreases |a|
  {
    if a == [] {
      assert a + b == b;
    } else {
      assert (a + b)[0] == a[0];
      assert (a + b)[1..] == a[1..] + b;
      FindAppend(a[1..], b, id);
    }
  }

  /** Deleting a product's lines removes exactly that product and leaves every other lookup as it was. */
  lemma {:induction false} FindRemoveId(lines: seq<CartLine>, id: ProductId, k: ProductId)
    ensures Find(RemoveId(lines, id), k) == if k == id then None else Find(lines, k)
    decreases |lines|
  {
    if lines != [] {
      FindRemoveId(lines[1..], id, k);
      FindAppend(if lines[0].id == id then [] else [lines[0]], RemoveId(lines[1..], id), k);
    }
  }

  /** Deleting a product that has no line changes nothing. */
  lemma {:induction false} RemoveIdAbsent(lines: seq<CartLine>, id: ProductId)
    requires !HasLine(lines, id)
    ensures RemoveId(lines, id) == lines
    decreases |lines|
  {
    if lines != [] {
      RemoveIdAbsent(lines[1..], id);
      assert [lines[0]] + lines[1..] == lines;
    }
  }

  lemma {:induction false} RemoveIdWellFormed(lines: seq<CartLine>, id: ProductId)
    ensures DistinctIds(lines) ==> DistinctIds(RemoveId(lines, id))
    ensures PositiveQty(lines) ==> PositiveQty(RemoveId(lines, id))
    ensures forall l :: l in RemoveId(lines, id) ==> l in lines
    decreases |lines|
  {
    if lines != [] {
      RemoveIdWellFormed(lines[1..], id);
      FindRemoveId(lines[1..], id, lines[0].id);
      var rest := RemoveId(lines[1..], id);
      if lines[0].id == id {
        assert [] + rest == rest;
      } else {
        assert ([lines[0]] + rest)[0] == lines[0];
        assert ([lines[0]] + rest)[1..] == rest;
      }
    }
  }

  /** Setting a quantity changes the quantity of that product's line and no other lookup. */
  lemma {:induction false} FindSetQty(lines: seq<CartLine>, id: ProductId, qty: nat, k: ProductId)
    ensures Find(SetQty(lines, id, qty), k) ==
              if k == id && Find(lines, id).Some? then Some(Find(lines, id).value.(qty := qty))
              else Find(lines, k)
    decreases |lines|
  {
    if lines != [] {
      var rest := SetQty(lines[1..], id, qty);
      if lines[0].id == id {
        assert ([lines[0].(qty := qty)] + lines[1..])[1..] == lines[1..];
      } else {
        assert ([lines[0]] + rest)[1..] == rest;
        FindSetQty(lines[1..], id, qty, k);
      }
    }
  }

  lemma {:induction false} SetQtyWellFormed(lines: seq<CartLine>, id: ProductId, qty: nat)
    requires qty > 0
    ensures DistinctIds(lines) ==> DistinctIds(SetQty(lines, id, qty))
    ensures PositiveQty(lines) ==> PositiveQty(SetQty(lines, id, qty))
    decreases |lines|
  {
    if lines != [] {
      var rest := SetQty(lines[1..], id, qty);
      if lines[0].id == id {
        assert ([lines[0].(qty := qty)] + lines[1..])[1..] == lines[1..];
      } else {
        assert ([lines[0]] + rest)[1..] == rest;
        SetQtyWellFormed(lines[1..], id, qty);
        FindSetQty(lines[1..], id, qty, lines[0].id);
        assert forall l :: l in [lines[0]] + rest ==> l == lines[0] || l in rest;
      }
    }
  }

  lemma EditQtyWellFormed(lines: seq<CartLine>, id: ProductId, raw: Option<int>)
    ensures DistinctIds(lines) ==> DistinctIds(EditQty(lines, id, raw))
    ensures PositiveQty(lines) ==> PositiveQty(EditQty(lines, id, raw))
  {
    if raw.Some? {
      if raw.value <= 0 {
        RemoveIdWellFormed(lines, id);
      } else {
        SetQtyWellFormed(lines, id, raw.value);
      }
    }
  }

  // ---------------------------------------------------------------------
  // Facts about the refresh pass

  lemma RefreshedCons(cat: Catalogue, l: CartLine, lines: seq<CartLine>)
    ensures Refreshed(cat, [l] + lines) == RefreshLine(cat, l) + Refreshed(cat, lines)
  {
    assert ([l] + lines)[0] == l;
    assert ([l] + lines)[1..] == lines;
  }

  /** The pass handles each line on its own, so it distributes over concatenation. */
  lemma {:induction false} RefreshedAppend(cat: Catalogue, a: seq<CartLine>, b: seq<CartLine>)
    ensures Refreshed(cat, a + b) == Refreshed(cat, a) + Refreshed(cat, b)
    decreases |a|
  {
    if a == [] {
      assert a + b == b;
    } else {
      assert a + b == [a[0]] + (a[1..] + b);
      RefreshedCons(cat, a[0], a[1..] + b);
      RefreshedAppend(cat, a[1..], b);
    }
  }

  /**
    After the pass a product has a line exactly when it had one and still
    exists, and that line carries the catalogue's current copy of the product
    with its quantity unchanged.
  */
  lemma {:induction false} FindRefreshed(cat: Catalogue, lines: seq<CartLine>, id: ProductId)
    ensures Find(Refreshed(cat, lines), id) ==
              if id in cat && Find(lines, id).Some? then Some(Find(lines, id).value.(product := cat[id]))
              else None
    decreases |lines|
  {
    if lines != [] {
      FindRefreshed(cat, lines[1..], id);
      FindAppend(RefreshLine(cat, lines[0]), Refreshed(cat, lines[1..]), id);
    }
  }

  lemma {:induction false} RefreshedWellFormed(cat: Catalogue, lines: seq<CartLine>)
    ensures DistinctIds(lines) ==> DistinctIds(Refreshed(cat, lines))
    ensures PositiveQty(lines) ==> PositiveQty(Refreshed(cat, lines))
    decreases |lines|
  {
    if lines != [] {
      RefreshedWellFormed(cat, lines[1..]);
      FindRefreshed(cat, lines[1..], lines[0].id);
      var rest := Refreshed(cat, lines[1..]);
      if lines[0].id in cat {
        assert ([lines[0].(product := cat[lines[0].id])] + rest)[1..] == rest;
      } else {
        assert [] + rest == rest;
      }
    }
  }

  /** When no product of the cart is gone, the pass keeps every line, in order, with its quantity. */
  lemma {:induction false} RefreshedKeepsOrder(cat: Catalogue, lines: seq<CartLine>)
    requires forall l :: l in lines ==> l.id in cat
    ensures |Refreshed(cat, lines)| == |lines|
    ensures forall i :: 0 <= i < |lines| ==>
              Refreshed(cat, lines)[i] == lines[i].(product := cat[lines[i].id])
    decreases |lines|
  {
    if lines != [] {
      assert lines[0] in lines;
      assert forall l :: l in lines[1..] ==> l in lines;
      RefreshedKeepsOrder(cat, lines[1..]);
    }
  }

  /** A second refresh pass against the same catalogue changes nothing. */
  lemma {:induction false} RefreshedIdempotent(cat: Catalogue, lines: seq<CartLine>)
    ensures Refreshed(cat, Refreshed(cat, lines)) == Refreshed(cat, lines)
    decreases |lines|
  {
    if lines != [] {
      var head := RefreshLine(cat, lines[0]);
      RefreshedAppend(cat, head, Refreshed(cat, lines[1..]));
      RefreshedIdempotent(cat, lines[1..]);
      if lines[0].id in cat {
        RefreshedCons(cat, head[0], []);
        assert head == [head[0]];
        assert head + [] == head;
      }
    }
  }

  // ---------------------------------------------------------------------
  // Facts about the reconcile pass of a listing

  lemma ReconciledCons(cat: Catalogue, l: CartLine, lines: seq<CartLine>)
    ensures Reconciled(cat, [l] + lines) == ClampLine(cat, l) + Reconciled(cat, lines)
  {
    assert ([l] + lines)[0] == l;
    assert ([l] + lines)[1..] == lines;
  }

  lemma {:induction false} ReconciledAppend(cat: Catalogue, a: seq<CartLine>, b: seq<CartLine>)
    ensures Reconciled(cat, a + b) == Reconciled(cat, a) + Reconciled(cat, b)
    decreases |a|
  {
    if a == [] {
      assert a + b == b;
    } else {
      assert a + b == [a[0]] + (a[1..] + b);
      ReconciledCons(cat, a[0], a[1..] + b);
      ReconciledAppend(cat, a[1..], b);
    }
  }

  /**
    After a listing, a product keeps a line exactly when it still exists and
    its quantity lowered to the stock is positive; that line carries the
    catalogue's product and the lowered quantity.
  */
  lemma {:induction false} FindReconciled(cat: Catalogue, lines: seq<CartLine>, id: ProductId)
    requires DistinctIds(lines)
    ensures Find(Reconciled(cat, lines), id) ==
              match Find(lines, id)
              case None => None
              case Some(l) =>
                if id in cat && Clamped(l, cat[id].quantity) > 0
                then Some(CartLine(id, cat[id], Clamped(l, cat[id].quantity)))
                else None
    decreases |lines|
  {
    if lines != [] {
      FindReconciled(cat, lines[1..], id);
      FindAppend(ClampLine(cat, lines[0]), Reconciled(cat, lines[1..]), id);
    }
  }

  /** Every line a listing leaves is in stock, within stock, and carries the current product. */
  lemma {:induction false} ReconciledSound(cat: Catalogue, lines: seq<CartLine>)
    ensures forall l :: l in Reconciled(cat, lines) ==>
              l.id in cat && l.product == cat[l.id] && 0 < l.qty <= cat[l.id].quantity
    decreases |lines|
  {
    if lines != [] {
      ReconciledSound(cat, lines[1..]);
    }
  }

  lemma {:induction false} ReconciledWellFormed(cat: Catalogue, lines: seq<CartLine>)
    ensures DistinctIds(lines) ==> DistinctIds(Reconciled(cat, lines))
    ensures PositiveQty(Reconciled(cat, lines))
    decreases |lines|
  {
    ReconciledSound(cat, lines);
    if lines != [] {
      ReconciledWellFormed(cat, lines[1..]);
      var rest := Reconciled(cat, lines[1..]);
      var head := ClampLine(cat, lines[0]);
      if DistinctIds(lines) {
        FindReconciled(cat, lines[1..], lines[0].id);
        if head != [] {
          assert (head + rest)[1..] == rest;
          assert (head + rest)[0] == head[0];
        } else {
          assert head + rest == rest;
        }
      }
    }
  }

  /** Lines that are already sound are left exactly as they are by a listing. */
  lemma {:induction false} ReconciledFixesSound(cat: Catalogue, lines: seq<CartLine>)
    requires forall l :: l in lines ==>
               l.id in cat && l.product == cat[l.id] && 0 < l.qty <= cat[l.id].quantity
    ensures Reconciled(cat, lines) == lines
    decreases |lines|
  {
    if lines != [] {
      assert lines[0] in lines;
      assert forall l :: l in lines[1..] ==> l in lines;
      ReconciledFixesSound(cat, lines[1..]);
      assert [lines[0]] + lines[1..] == lines;
    }
  }

  /** Reconciling twice against the same catalogue gives the lines of reconciling once. */
  lemma ReconciledIdempotent(cat: Catalogue, lines: seq<CartLine>)
    ensures Reconciled(cat, Reconciled(cat, lines)) == Reconciled(cat, lines)
  {
    ReconciledSound(cat, lines);
    ReconciledFixesSound(cat, Reconciled(cat, lines));
  }

  // ---------------------------------------------------------------------
  // Properties of the handlers

  /** Listing the cart twice with no catalogue change in between leaves the same cart as listing it once. */
  lemma ListStepIdempotent(cat: Catalogue, v: CartValue)
    ensures ListStep(cat, ListStep(cat, v).cart) == ListStep(cat, v)
  {
    if v.present {
      ReconciledIdempotent(cat, v.lines);
    }
  }

  /** After a listing every line is in stock, within stock, and carries the catalogue's product. */
  lemma ListStepSound(cat: Catalogue, v: CartValue)
    requires v.present
    ensures forall l :: l in ListStep(cat, v).cart.lines ==>
              l.id in cat && l.product == cat[l.id] && 0 < l.qty <= cat[l.id].quantity
  {
    ReconciledSound(cat, v.lines);
  }

  /** A successful add puts the product on a line of its own, with the effective quantity. */
  lemma AddStepFind(cat: Catalogue, v: CartValue, id: ProductId, raw: Option<int>, k: ProductId)
    requires AddStep(cat, v, id, raw).outcome.Ok?
    ensures var s := AddStep(cat, v, id, raw);
            Find(s.cart.lines, k) ==
              if k == id then Some(CartLine(id, cat[id], EffectiveQty(raw) as nat))
              else if k in cat && Find(Lines(v), k).Some? then Some(Find(Lines(v), k).value.(product := cat[k]))
              else None
  {
    var s := AddStep(cat, v, id, raw);
    var line := CartLine(id, cat[id], EffectiveQty(raw) as nat);
    FindAppend([line], Refreshed(cat, Lines(v)), k);
    FindRefreshed(cat, Lines(v), k);
  }

  /** Adding a product that is already in the cart is refused: a second add of the same product never succeeds. */
  lemma AddTwiceRejected(cat: Catalogue, v: CartValue, id: ProductId, raw1: Option<int>, raw2: Option<int>)
    requires AddStep(cat, v, id, raw1).outcome.Ok?
    ensures AddStep(cat, AddStep(cat, v, id, raw1).cart, id, raw2).outcome.Fail?
  {
    AddStepFind(cat, v, id, raw1, id);
  }

  /** Deleting the product just added leaves the refreshed lines the cart had before the add. */
  lemma DeleteUndoesAdd(cat: Catalogue, v: CartValue, id: ProductId, raw: Option<int>)
    requires AddStep(cat, v, id, raw).outcome.Ok?
    ensures var d := DeleteStep(cat, AddStep(cat, v, id, raw).cart, id);
            d.outcome.Ok? && d.cart.lines == Refreshed(cat, Lines(v))
  {
    var s := AddStep(cat, v, id, raw);
    var line := CartLine(id, cat[id], EffectiveQty(raw) as nat);
    var rest := Refreshed(cat, Lines(v));
    AddStepFind(cat, v, id, raw, id);
    FindRefreshed(cat, Lines(v), id);
    RemoveIdAbsent(rest, id);
    assert ([line] + rest)[0] == line && ([line] + rest)[1..] == rest;
    assert RemoveId(s.cart.lines, id) == rest;
    RefreshedIdempotent(cat, Lines(v));
  }

  /**
    A successful quantity update sets that line's quantity: the updated line
    has the requested quantity (or is gone when it was 0), every other
    product's line only gets the current product copy. The exception is a 0
    for the cart's only product: then the stored cart is unchanged and the
    line is still there.
  */
  lemma UpdateStepFind(cat: Catalogue, v: CartValue, id: ProductId, q: int, k: ProductId)
    requires UpdateStep(cat, v, id, Some(q)).outcome.Ok?
    ensures var s := UpdateStep(cat, v, id, Some(q));
            var edited := EditQty(v.lines, id, Some(q));
            && (edited == [] ==> q == 0 && Find(s.cart.lines, k) == Find(v.lines, k) && Find(v.lines, id).Some?)
            && (edited != [] ==>
                  Find(s.cart.lines, k) ==
                    if k == id then (if q == 0 then None else Some(Find(v.lines, id).value.(product := cat[id], qty := q)))
                    else if k in cat && Find(v.lines, k).Some? then Some(Find(v.lines, k).value.(product := cat[k]))
                    else None)
  {
    var edited := EditQty(v.lines, id, Some(q));
    FindRefreshed(cat, edited, k);
    if q != 0 {
      FindSetQty(v.lines, id, q, id);
    }
    if q == 0 {
      FindRemoveId(v.lines, id, k);
    } else {
      FindSetQty(v.lines, id, q, k);
    }
  }

  /**
    Setting a quantity of 0 leaves the same lines as deleting the product,
    except when the product is the cart's only one: then the delete stores
    an empty cart with zero money fields, while the update stores nothing and
    the cart keeps its line. When lines remain, the two differ only in the
    money fields of a cart whose remaining products are all gone from the
    catalogue: a delete zeroes them, the update stores the formula's
    empty-cart figures.
  */
  lemma UpdateZeroVersusDelete(cat: Catalogue, v: CartValue, id: ProductId)
    requires id in cat && HasLine(Lines(v), id)
    ensures var u := UpdateStep(cat, v, id, Some(0));
            var d := DeleteStep(cat, v, id);
            && u.outcome.Ok? && d.outcome.Ok?
            && (RemoveId(v.lines, id) == [] ==>
                  && u.cart == v && v.lines != []
                  && d.cart == CartValue(true, [], ZeroTotals))
            && (RemoveId(v.lines, id) != [] ==>
                  && u.cart.lines == d.cart.lines
                  && (u.cart.lines != [] ==> u.cart == d.cart)
                  && (u.cart.lines == [] ==>
                        && d.cart.totals == ZeroTotals
                        && u.cart.totals == Totals(0, ShippingFee, 0, ShippingFee)))
  {
  }

  /** An update without a quantity only runs the refresh pass. */
  lemma UpdateWithoutQtyRefreshes(cat: Catalogue, v: CartValue, id: ProductId)
    requires id in cat && HasLine(Lines(v), id)
    ensures UpdateStep(cat, v, id, None) == Step(Ok, RefreshPass(cat, v))
  {
  }

  /** Clearing leaves nothing for a later listing to reconcile. */
  lemma ClearThenList(cat: Catalogue, v: CartValue)
    requires v.present
    ensures ListStep(cat, ClearStep(v)) == Step(Ok, CartValue(true, [], ZeroTotals))
  {
  }

  // ---------------------------------------------------------------------
  // The cart, updated in place

  /** Splicing out, or overwriting, the first unvisited line of a pass. */
  lemma SpliceFacts(done: seq<CartLine>, rest: seq<CartLine>)
    requires rest != []
    ensures (done + rest)[|done|] == rest[0]
    ensures (done + rest)[..|done|] == done
    ensures (done + rest)[|done| + 1..] == rest[1..]
  {
  }

  /**
    The refresh callback for the line at position `j`: it is overwritten
    with the current product, or spliced out when the product is gone.
  */
  method RefreshAt(cat: Catalogue, ls: seq<CartLine>, j: nat) returns (r: seq<CartLine>, k: nat)
    requires j < |ls|
    ensures r == ls[..j] + RefreshLine(cat, ls[j]) + ls[j + 1..]
    ensures k == j + |RefreshLine(cat, ls[j])|
  {
    var p := ls[j];
    if p.id in cat {
      r, k := ls[j := p.(product := cat[p.id])], j + 1;
      assert r == ls[..j] + [p.(product := cat[p.id])] + ls[j + 1..];
    } else {
      r, k := ls[..j] + ls[j + 1..], j;
    }
  }

  /**
    The listing callback for the line at position `j`: the product copy is
    refreshed and the quantity lowered to the stock, or the line is spliced
    out when the product is gone or the lowered quantity is 0.
  */
  method ReconcileAt(cat: Catalogue, ls: seq<CartLine>, j: nat) returns (r: seq<CartLine>, k: nat)
    requires j < |ls|
    ensures r == ls[..j] + ClampLine(cat, ls[j]) + ls[j + 1..]
    ensures k == j + |ClampLine(cat, ls[j])|
  {
    var p := ls[j];
    if p.id in cat {
      var found := cat[p.id];
      var q := p.qty;
      if q > found.quantity {
        q := found.quantity;
      }
      if q == 0 {
        r, k := ls[..j] + ls[j + 1..], j;
      } else {
        r, k := ls[j := CartLine(p.id, found, q)], j + 1;
        assert r == ls[..j] + [CartLine(p.id, found, q)] + ls[j + 1..];
      }
    } else {
      r, k := ls[..j] + ls[j + 1..], j;
    }
  }

  lemma RefreshedSnoc(cat: Catalogue, orig: seq<CartLine>, i: nat)
    requires i < |orig|
    ensures Refreshed(cat, orig[..i + 1]) == Refreshed(cat, orig[..i]) + RefreshLine(cat, orig[i])
  {
    assert orig[..i + 1] == orig[..i] + [orig[i]];
    RefreshedAppend(cat, orig[..i], [orig[i]]);
    RefreshedCons(cat, orig[i], []);
    assert [orig[i]] + [] == [orig[i]];
    assert RefreshLine(cat, orig[i]) + [] == RefreshLine(cat, orig[i]);
  }

  lemma ReconciledSnoc(cat: Catalogue, orig: seq<CartLine>, i: nat)
    requires i < |orig|
    ensures Reconciled(cat, orig[..i + 1]) == Reconciled(cat, orig[..i]) + ClampLine(cat, orig[i])
  {
    assert orig[..i + 1] == orig[..i] + [orig[i]];
    ReconciledAppend(cat, orig[..i], [orig[i]]);
    ReconciledCons(cat, orig[i], []);
    assert [orig[i]] + [] == [orig[i]];
    assert ClampLine(cat, orig[i]) + [] == ClampLine(cat, orig[i]);
  }

  class Cart {
    var present: bool
    var lines: seq<CartLine>
    var itemsPrice: nat
    var shippingPrice: nat
    var taxPrice: nat
    var totalPrice: nat

    function View(): CartValue
      reads this
    {
      CartValue(present, lines, Totals(itemsPrice, shippingPrice, taxPrice, totalPrice))
    }

    ghost predicate Valid()
      reads this
    {
      WellFormed(View())
    }

    /** A user who has never added anything has no cart. */
    constructor ()
      ensures View() == CartValue(false, [], ZeroTotals)
      ensures Valid()
    {
      present := false;
      lines := [];
      itemsPrice, shippingPrice, taxPrice, totalPrice := 0, 0, 0, 0;
    }

    method StoreTotals(t: Totals)
      modifies this
      ensures View() == old(View()).(totals := t)
    {
      itemsPrice, shippingPrice, taxPrice, totalPrice := t.itemsPrice, t.shippingPrice, t.taxPrice, t.totalPrice;
    }

    /**
      The pass of add, delete and update, one line at a time; the money
      fields are recomputed after each line.
    */
    method RefreshLines(cat: Catalogue)
      modifies this
      ensures View() == RefreshPass(cat, old(View()))
    {
      var orig, ls, t := lines, lines, View().totals;
      var i, j := 0, 0;
      while i < |orig|
        invariant 0 <= i <= |orig|
        invariant ls == Refreshed(cat, orig[..i]) + orig[i..]
        invariant j == |Refreshed(cat, orig[..i])|
        invariant unchanged(this)
        invariant t == if i == 0 then old(View()).totals else TotalsOf(ls)
      {
        SpliceFacts(Refreshed(cat, orig[..i]), orig[i..]);
        ls, j := RefreshAt(cat, ls, j);
        t := TotalsOf(ls);
        RefreshedSnoc(cat, orig, i);
        i := i + 1;
      }
      assert orig[..i] == orig;
      assert ls == Refreshed(cat, orig);
      assert orig != [] ==> t == TotalsOf(ls);
      assert t == RefreshPass(cat, old(View())).totals;
      lines := ls;
      StoreTotals(t);
    }

    /** The pass of a listing, one line at a time, in the same way. */
    method ReconcileLines(cat: Catalogue)
      modifies this
      ensures View() == ReconcilePass(cat, old(View()))
    {
      var orig, ls, t := lines, lines, View().totals;
      var i, j := 0, 0;
      while i < |orig|
        invariant 0 <= i <= |orig|
        invariant ls == Reconciled(cat, orig[..i]) + orig[i..]
        invariant j == |Reconciled(cat, orig[..i])|
        invariant unchanged(this)
        invariant t == if i == 0 then old(View()).totals else TotalsOf(ls)
      {
        SpliceFacts(Reconciled(cat, orig[..i]), orig[i..]);
        ls, j := ReconcileAt(cat, ls, j);
        t := TotalsOf(ls);
        ReconciledSnoc(cat, orig, i);
        i := i + 1;
      }
      assert orig[..i] == orig;
      assert ls == Reconciled(cat, orig);
      assert orig != [] ==> t == TotalsOf(ls);
      assert t == ReconcilePass(cat, old(View())).totals;
      lines := ls;
      StoreTotals(t);
    }

    method AddToCart(cat: Catalogue, id: ProductId, raw: Option<int>) returns (r: Outcome)
      requires Valid()
      modifies this
      ensures Step(r, View()) == AddStep(cat, old(View()), id, raw)
      ensures Valid()
    {
      var q := EffectiveQty(raw);
      if id !in cat {
        return Fail(ProductNotFound);
      }
      if !(q <= cat[id].quantity && q > 0) {
        return Fail(if q == 0 then ChooseQuantity else QuantityNotAvailable);
      }
      if !present {
        present, lines := true, [];
        StoreTotals(ZeroTotals);
      } else if HasLine(lines, id) {
        RefreshLines(cat);
        return Fail(AlreadyInCart);
      }
      lines := [CartLine(id, cat[id], q as nat)] + lines;
      RefreshLines(cat);
      r := Ok;
    }

    method DeleteFromCart(cat: Catalogue, id: ProductId) returns (r: Outcome)
      requires Valid()
      modifies this
      ensures Step(r, View()) == DeleteStep(cat, old(View()), id)
      ensures Valid()
    {
      if id !in cat {
        return Fail(ProductNotFound);
      }
      if !present || !HasLine(lines, id) {
        return Fail(AlreadyNotInCart);
      }
      lines := RemoveId(lines, id);
      RefreshLines(cat);
      if lines == [] {
        StoreTotals(ZeroTotals);
      }
      r := Ok;
    }

    method UpdateAmountInCart(cat: Catalogue, id: ProductId, raw: Option<int>) returns (r: Outcome)
      requires Valid()
      modifies this
      ensures Step(r, View()) == UpdateStep(cat, old(View()), id, raw)
      ensures Valid()
    {
      if id !in cat {
        return Fail(ProductNotFound);
      }
      if !present || !HasLine(lines, id) {
        return Fail(NotInCart);
      }
      var edited := lines;
      if raw.Some? {
        var q := raw.value;
        if q <= cat[id].quantity && q > 0 {
          edited := SetQty(lines, id, q);
        } else if q == 0 {
          edited := RemoveId(lines, id);
        } else {
          return Fail(QuantityNotAvailable);
        }
      }
      r := Ok;
      if edited == [] {
        // the pass over no lines stores nothing
        return;
      }
      lines := edited;
      RefreshLines(cat);
    }

    method GetCartProducts(cat: Catalogue) returns (r: Outcome)
      requires Valid()
      modifies this
      ensures Step(r, View()) == ListStep(cat, old(View()))
      ensures Valid()
    {
      if !present {
        return Fail(NoCartYet);
      }
      ReconcileLines(cat);
      r := Ok;
    }

    method ClearCartItems()
      requires Valid()
      modifies this
      ensures View() == ClearStep(old(View()))
      ensures Valid()
    {
      if present {
        lines := [];
        StoreTotals(ZeroTotals);
      }
    }
  }
}
