/**
 * Two views of mpgepmcservs/views.py as they are written, beside the
 * intended behaviour that the Views module models.
 *
 * cart_detail deletes stale entries from the dict it is iterating over. In
 * CPython the dict iterator checks the size of the dict before yielding each
 * item, so once one entry is deleted the next step of the loop raises
 * RuntimeError ("dictionary changed size during iteration").
 *
 * payment_page reads `context_data` off the response of cart_detail, but that
 * response comes from `render`, a plain HttpResponse without that attribute,
 * so the view raises AttributeError before it reaches the checkout decision.
 */
module AsWritten {
  import opened Wrappers
  import opened Models
  import opened CartSpec
  import opened Views

  /** The exceptions the two views raise as written. */
  datatype Exception = RuntimeError | AttributeError

  /** The index of the first entry whose package no longer exists, if any. */
  function FirstStale(keys: seq<nat>, catalog: Catalog): (r: Option<nat>)
    ensures r.Some? ==>
              && r.value < |keys| && keys[r.value] !in catalog
              && forall j :: 0 <= j < r.value ==> keys[j] in catalog
    ensures r.None? ==> forall j :: 0 <= j < |keys| ==> keys[j] in catalog
  {
    if keys == [] then None
    else if keys[0] !in catalog then Some(0)
    else
      match FirstStale(keys[1..], catalog)
      case None => None
      case Some(i) => Some(i + 1)
  }

  /** How a request to the cart page ends as written. */
  datatype DetailRun =
    | Rendered(items: seq<LineItem>, minTotal: int, maxTotal: int)
    | Raised(error: Exception, keys: seq<nat>, qty: map<nat, nat>)

  /**
   * cart_detail as written: the page is rendered only when no entry is
   * stale. Otherwise the first stale entry is deleted and the next step of
   * the loop raises. `Raised` carries the request's dict at that point, with
   * just that entry gone; the request fails with a server error, so that
   * dict is not what the session store keeps.
   */
  function CartDetailAsWritten(keys: seq<nat>, qty: map<nat, nat>, catalog: Catalog): (r: DetailRun)
    requires IsCart(keys, qty)
    ensures r.Raised? <==> exists k :: k in keys && k !in catalog
    ensures r.Raised? ==>
              && r.error == RuntimeError
              && exists i :: && 0 <= i < |keys| && keys[i] !in catalog
                             && (forall j :: 0 <= j < i ==> keys[j] in catalog)
                             && r.keys == keys[..i] + keys[i + 1..] && r.qty == qty - {keys[i]}
    ensures r.Rendered? ==>
              && r.items == Lines(keys, qty, catalog)
              && r.minTotal == CartSum(keys, qty, catalog, Low)
              && r.maxTotal == CartSum(keys, qty, catalog, High)
  {
    match FirstStale(keys, catalog)
    case None => Rendered(Lines(keys, qty, catalog), CartSum(keys, qty, catalog, Low), CartSum(keys, qty, catalog, High))
    case Some(i) => Raised(RuntimeError, keys[..i] + keys[i + 1..], qty - {keys[i]})
  }

  /**
   * payment_page as written: it first runs cart_detail, which raises on a
   * stale entry, and otherwise fails reading `context_data`. No order is
   * ever recorded.
   */
  function PaymentPageAsWritten(keys: seq<nat>, qty: map<nat, nat>, catalog: Catalog): (e: Exception)
    requires IsCart(keys, qty)
    ensures e == RuntimeError <==> exists k :: k in keys && k !in catalog
    ensures e == AttributeError <==> forall k :: k in keys ==> k in catalog
  {
    if CartDetailAsWritten(keys, qty, catalog).Raised? then RuntimeError else AttributeError
  }

  /**
   * A cart {1: 1, 2: 1} whose package 2 was deleted: as written the cart page
   * raises, while the intended prune keeps entry 1 and renders its line.
   */
  lemma StaleEntryBreaksCartPage(p: Package)
    ensures CartDetailAsWritten([1, 2], map[1 := 1, 2 := 1], map[1 := p]).Raised?
    ensures Live([1, 2], map[1 := p]) == [1]
    ensures |Lines([1, 2], map[1 := 1, 2 := 1], map[1 := p])| == 1
  {
    assert 2 in [1, 2];
    assert [1, 2][..1] == [1];
    assert [1][..0] == [];
    assert Live([1], map[1 := p]) == [1];
  }

  /**
   * A cart holding one existing package and a POST naming an enabled method:
   * the intended decision records an order, while as written the view raises.
   */
  lemma CheckoutBrokenAsWritten(p: Package)
    ensures var registry := map["paypal" := PaymentMethod("PayPal", "paypal", true, true, 0)];
            CheckoutDecision(Lines([1], map[1 := 1], map[1 := p]) != [], registry, Post(Some("paypal"))) == PlaceOrder
    ensures PaymentPageAsWritten([1], map[1 := 1], map[1 := p]) == AttributeError
  {
    assert [1][..0] == [];
  }
}
