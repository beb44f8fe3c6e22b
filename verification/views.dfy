/**
 * The cart and checkout views of the service shop (mpgepmcservs/views.py).
 *
 * The session cart is an object whose dict the views change in place; the
 * Package table is a map from id to package, the PaymentMethod table a map
 * from code to method, and the Order table a log that checkout appends to.
 * HTTP plumbing (render, redirect, the referring page) is reduced to the
 * Response a view returns.
 */
module Views {
  import opened Wrappers
  import opened Models
  import opened CartSpec

  /** What a view answers. */
  datatype Response =
    | NotFound                        // get_object_or_404 raised Http404
    | RedirectBack                    // to the referring page, or the index
    | RedirectToCart
    | RedirectToIndex
    | RedirectToComplete
    | RenderCart(items: seq<LineItem>, minTotal: int, maxTotal: int)
    | RenderPayment(items: seq<LineItem>, minTotal: int, maxTotal: int, methods: set<string>)

  /** The request a view receives: a GET, or a POST with its payment_method field if any. */
  datatype Request = Get | Post(methodCode: Option<string>)

  /** The session cart: package id to quantity, keys in insertion order. */
  class Cart {
    var keys: seq<nat>
    var qty: map<nat, nat>

    /** The keys and quantities describe one dict, and every quantity is at least one. */
    ghost predicate Valid()
      reads this
    {
      IsCart(keys, qty) && forall k :: k in qty ==> qty[k] >= 1
    }

    /** `get_cart` on a session without a cart: an empty dict. */
    constructor ()
      ensures Valid() && keys == [] && qty == map[]
    {
      keys := [];
      qty := map[];
    }

    /**
     * calculate_cart_total: the min and max totals, summed entry by entry in
     * cart order, skipping entries whose package no longer exists.
     */
    method CalculateCartTotal(catalog: Catalog) returns (minTotal: int, maxTotal: int)
      requires Valid()
      ensures minTotal == CartSum(keys, qty, catalog, Low)
      ensures maxTotal == CartSum(keys, qty, catalog, High)
    {
      minTotal, maxTotal := 0, 0;
      for i := 0 to |keys|
        invariant minTotal == CartSum(keys[..i], qty, catalog, Low)
        invariant maxTotal == CartSum(keys[..i], qty, catalog, High)
      {
        assert keys[..i + 1][..i] == keys[..i];
        var k := keys[i];
        if k in catalog {
          var p := catalog[k];
          minTotal := minTotal + p.minPrice * qty[k];
          maxTotal := maxTotal + p.maxPrice * qty[k];
        }
      }
      assert keys[..|keys|] == keys;
    }

    /**
     * add_to_cart: a missing or inactive package is not found; an active
     * package with the add-to-cart button gets one more; any other button
     * leaves the cart as it was.
     */
    method Add(catalog: Catalog, id: nat) returns (resp: Response)
      requires Valid()
      modifies this
      ensures Valid()
      ensures id !in catalog || !catalog[id].isActive ==>
                resp == NotFound && keys == old(keys) && qty == old(qty)
      ensures id in catalog && catalog[id].isActive && catalog[id].buttonType == CartButton ==>
                && resp == RedirectBack
                && keys == AddKey(old(keys), id)
                && qty == old(qty)[id := QtyOf(old(qty), id) + 1]
      ensures id in catalog && catalog[id].isActive && catalog[id].buttonType != CartButton ==>
                resp == RedirectBack && keys == old(keys) && qty == old(qty)
    {
      if id !in catalog || !catalog[id].isActive {
        return NotFound;
      }
      if catalog[id].buttonType == CartButton {
        var quantity := QtyOf(qty, id);
        qty := qty[id := quantity + 1];
        if id !in keys {
          keys := keys + [id];
        }
      }
      resp := RedirectBack;
    }

    /** `del cart[id]` on a key that is present. */
    method Delete(id: nat)
      requires Valid() && id in qty
      modifies this
      ensures Valid()
      ensures keys == Without(old(keys), id) && qty == old(qty) - {id}
    {
      WithoutSpec(keys, id);
      keys := Without(keys, id);
      qty := qty - {id};
    }

    /** remove_from_cart: the whole entry goes, not one unit; an absent id changes nothing. */
    method Remove(id: nat) returns (resp: Response)
      requires Valid()
      modifies this
      ensures Valid()
      ensures keys == Without(old(keys), id) && qty == old(qty) - {id}
      ensures id !in old(qty) ==> keys == old(keys) && qty == old(qty)
      ensures resp == RedirectToCart
    {
      WithoutSpec(keys, id);
      if id in qty {
        Delete(id);
      }
      resp := RedirectToCart;
    }

    /** The session cart reset to an empty dict at checkout. */
    method Clear()
      modifies this
      ensures Valid() && keys == [] && qty == map[]
    {
      keys := [];
      qty := map[];
    }

    /** cart_detail's loop has passed over the first i keys of the snapshot. */
    ghost predicate Pruning(catalog: Catalog, snapshot: seq<nat>, q0: map<nat, nat>, i: nat, items: seq<LineItem>)
      reads this
    {
      && i <= |snapshot| && Valid() && IsCart(snapshot, q0)
      && keys == Live(snapshot[..i], catalog) + snapshot[i..]
      && qty == PrunedSoFar(q0, catalog, snapshot[..i])
      && items == Lines(snapshot[..i], q0, catalog)
    }

    /**
     * One pass of cart_detail's loop over the key at snapshot[i]: the line of
     * its package is appended, or the entry is deleted when the package no
     * longer exists.
     */
    method PruneEntry(catalog: Catalog, snapshot: seq<nat>, ghost q0: map<nat, nat>, i: nat, items: seq<LineItem>)
      returns (items': seq<LineItem>)
      requires i < |snapshot| && Pruning(catalog, snapshot, q0, i, items)
      modifies this
      ensures Pruning(catalog, snapshot, q0, i + 1, items')
    {
      var k := snapshot[i];
      PruneKeysStep(snapshot, q0, catalog, i);
      PruneQtyLinesStep(snapshot, q0, catalog, i);
      if k in catalog {
        var p := catalog[k];
        items' := items + [LineItem(k, p, qty[k], p.minPrice * qty[k], p.maxPrice * qty[k])];
      } else {
        Delete(k);
        items' := items;
      }
    }

    /**
     * cart_detail: one line per entry whose package exists, in cart order;
     * every other entry is deleted from the cart; the totals are those of the
     * pruned cart, which are the totals of the cart as it was.
     */
    method Detail(catalog: Catalog) returns (resp: Response)
      requires Valid()
      modifies this
      ensures Valid()
      ensures keys == Live(old(keys), catalog) && qty == PruneQty(old(qty), catalog)
      ensures resp == RenderCart(Lines(old(keys), old(qty), catalog),
                                 CartSum(old(keys), old(qty), catalog, Low),
                                 CartSum(old(keys), old(qty), catalog, High))
    {
      var snapshot := keys;  // the loop walks a copy of the keys while entries are deleted
      ghost var q0 := qty;
      var items: seq<LineItem> := [];
      assert snapshot[..0] == [] && snapshot[0..] == snapshot;
      var i := 0;
      while i < |snapshot|
        invariant Pruning(catalog, snapshot, q0, i, items)
      {
        items := PruneEntry(catalog, snapshot, q0, i, items);
        i := i + 1;
      }
      assert snapshot[..i] == snapshot && snapshot[i..] == [];
      PruneDone(snapshot, q0, catalog);
      var minTotal, maxTotal := CalculateCartTotal(catalog);
      PruneKeepsTotals(snapshot, q0, catalog, Low);
      PruneKeepsTotals(snapshot, q0, catalog, High);
      resp := RenderCart(items, minTotal, maxTotal);
    }
  }

  /** The Order table: checkout appends one row per completed order. */
  class OrderLog {
    var orders: seq<Order>

    constructor ()
      ensures orders == []
    {
      orders := [];
    }

    /** Order.objects.create */
    method Create(sessionKey: string, totalAmount: int) returns (order: Order)
      modifies this
      ensures order == Order(sessionKey, totalAmount)
      ensures orders == old(orders) + [order]
    {
      order := Order(sessionKey, totalAmount);
      orders := orders + [order];
    }
  }

  /** The codes of the methods the payment page lists. */
  function VisibleCodes(registry: map<string, PaymentMethod>): set<string>
  {
    set c | c in registry && registry[c].isVisible
  }

  /** How payment_page answers, given whether the pruned cart has any line. */
  datatype Checkout = EmptyCart | UnknownMethod | ShowMethods | PlaceOrder

  /** The checkout decision of payment_page. */
  function CheckoutDecision(hasItems: bool, registry: map<string, PaymentMethod>, req: Request): (d: Checkout)
    ensures d == EmptyCart <==> !hasItems
    ensures d == UnknownMethod <==>
              hasItems && req.Post? && (req.methodCode.None? || req.methodCode.value !in registry)
    ensures d == PlaceOrder <==>
              && hasItems && req.Post? && req.methodCode.Some?
              && req.methodCode.value in registry && registry[req.methodCode.value].isEnabled
    ensures d == ShowMethods <==>
              hasItems && (req.Get? || (req.methodCode.Some? && req.methodCode.value in registry
                                        && !registry[req.methodCode.value].isEnabled))
  {
    if !hasItems then EmptyCart
    else if req.Get? then ShowMethods
    else if req.methodCode.None? || req.methodCode.value !in registry then UnknownMethod
    else if registry[req.methodCode.value].isEnabled then PlaceOrder
    else ShowMethods
  }

  /**
   * payment_page: the cart is pruned as on the cart page; an empty cart goes
   * back to the index; a POST naming an unknown code is not found; a POST
   * naming an enabled method records one order for the max total and empties
   * the cart; anything else shows the page again with the visible methods.
   */
  method PaymentPage(cart: Cart, log: OrderLog, catalog: Catalog, registry: map<string, PaymentMethod>,
                     req: Request, sessionKey: string) returns (resp: Response)
    requires cart.Valid()
    modifies cart, log
    ensures cart.Valid()
    ensures var items := Lines(old(cart.keys), old(cart.qty), catalog);
            var d := CheckoutDecision(items != [], registry, req);
            && (d == PlaceOrder ==>
                  && resp == RedirectToComplete
                  && log.orders == old(log.orders) + [Order(sessionKey, CartSum(old(cart.keys), old(cart.qty), catalog, High))]
                  && cart.keys == [] && cart.qty == map[])
            && (d != PlaceOrder ==>
                  && log.orders == old(log.orders)
                  && cart.keys == Live(old(cart.keys), catalog)
                  && cart.qty == PruneQty(old(cart.qty), catalog))
            && (d == EmptyCart ==> resp == RedirectToIndex && cart.keys == [])
            && (d == UnknownMethod ==> resp == NotFound)
            && (d == ShowMethods ==>
                  resp == RenderPayment(items,
                                        CartSum(old(cart.keys), old(cart.qty), catalog, Low),
                                        CartSum(old(cart.keys), old(cart.qty), catalog, High),
                                        VisibleCodes(registry)))
  {
    ghost var keys0, qty0 := cart.keys, cart.qty;
    var page := cart.Detail(catalog);
    var items := page.items;
    var minTotal, maxTotal := cart.CalculateCartTotal(catalog);
    PruneKeepsTotals(keys0, qty0, catalog, Low);
    PruneKeepsTotals(keys0, qty0, catalog, High);
    if items == [] {
      return RedirectToIndex;
    }
    var methods := VisibleCodes(registry);
    if req.Post? {
      if req.methodCode.None? || req.methodCode.value !in registry {
        return NotFound;
      }
      if registry[req.methodCode.value].isEnabled {
        var order := log.Create(sessionKey, maxTotal);
        cart.Clear();
        return RedirectToComplete;
      }
    }
    resp := RenderPayment(items, minTotal, maxTotal, methods);
  }

  /**
   * Checkout records the max total without checking it against the order's
   * money field: two units of a package whose prices fit their own fields
   * already give a total the total_amount column cannot hold.
   */
  lemma OrderTotalCanExceedMoneyField(p: Package)
    requires PricesFit(p) && p.maxPrice == 9_999_999_999
    ensures !FitsMoneyField(CartSum([1], map[1 := 2], map[1 := p], High))
  {
    CartSumSingle(1, map[1 := 2], map[1 := p], High);
  }

  /**
   * A method created with the defaults is listed on the payment page, but a
   * POST selecting it shows the page again and records no order.
   */
  lemma NewMethodShownButNotAccepted(registry: map<string, PaymentMethod>, name: string, code: string)
    requires code in registry && registry[code] == NewPaymentMethod(name, code)
    ensures code in VisibleCodes(registry)
    ensures CheckoutDecision(true, registry, Post(Some(code))) == ShowMethods
  {
  }
}
