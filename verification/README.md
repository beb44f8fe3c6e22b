# Service shop cart and checkout, modelled in Dafny

This project models the session cart and checkout of the `mpgepmcservs`
Django app: a catalog of service packages, each with a minimum and a maximum
price, which a visitor adds to a cart kept in the session, reviews on the
cart page and checks out with one of the payment methods the admin has set
up. It also models the parts of the app's records that the cart relies on:
the duration and button choice lists, the field defaults, the bound of the
money fields, the display price of a package and the rule that a slug is
derived from the name once and then kept.

Files:

- `wrappers.dfy`: `Option`, standing for Python's `None` or a present value.
- `models.dfy` (module `Models`): the records of `models.py`. `ServiceClass`
  and `Service` are classes, because `save` updates their slug in place.
  Packages, payment methods and orders are values.
- `cart_spec.dfy` (module `CartSpec`): the cart dict as values. It defines the
  entries that are still live, the min and max totals (`CartSum`), the line
  items, and the lemmas about them.
- `views.dfy` (module `Views`): the views.
  - `Cart` is a class holding the session dict, changed in place by
    `add_to_cart`, `remove_from_cart` and `cart_detail`.
  - `OrderLog` is the Order table.
  - `PaymentPage` is the checkout view, specified by the pure
    `CheckoutDecision`.
- `as_written.dfy` (module `AsWritten`): two views as the code is written,
  where that differs from the evident intent (see Findings).

Representation choices:

- A Python dict keeps insertion order, and the cart page lists lines in that
  order. The cart is therefore a sequence of distinct package ids in
  insertion order plus a map from id to quantity (`CartSpec.IsCart`).
- Money is held in integer cents. Every money field is a
  `DecimalField(max_digits=10, decimal_places=2)`, so cents are exact.
- The Package table is a map from id to package (`CartSpec.Catalog`). The
  PaymentMethod table is a map from code to method, since codes are unique.

## Model

| member | source | states |
|---|---|---|
| Views.Cart.CalculateCartTotal | mpgepmc/mpgepmcservs/views.py:20-31 | The loop returns the min and max totals of the cart, summed in cart order. An entry whose package no longer exists adds nothing. |
| CartSpec.EmptyCartTotals | mpgepmc/mpgepmcservs/views.py:22-23 | An empty cart totals 0.00 and 0.00. |
| CartSpec.TotalsExample | mpgepmc/mpgepmcservs/views.py:24-28 | A cart {7: 2, 9: 1} priced (100.00–150.00) and (50.00) totals 250.00 to 350.00. |
| CartSpec.MinTotalAtMostMaxTotal | mpgepmc/mpgepmcservs/views.py:27-28 | When each package's min is at most its max, the min total is at most the max total. |
| CartSpec.CartSumMonotone | mpgepmc/mpgepmcservs/views.py:27-28 | With non-negative prices, raising quantities never lowers either total. |
| Views.Cart.Add | mpgepmc/mpgepmcservs/views.py:66-78 | A missing or inactive package gives not-found and leaves the cart unchanged. An active package with the add-to-cart button gets its quantity raised by one, and a new id goes at the end. Any other button leaves the cart unchanged and redirects back. The cart stays well formed. |
| CartSpec.IncrementAddsOnePrice | mpgepmc/mpgepmcservs/views.py:73-74 | Adding one unit of a package raises each total by exactly that package's price, whether or not the package was already in the cart. |
| Views.Cart.Remove | mpgepmc/mpgepmcservs/views.py:80-89 | The whole entry is deleted, not one unit, and the other entries keep their order. An absent id changes nothing. The view always redirects to the cart page. |
| CartSpec.RemoveSubtractsLine | mpgepmc/mpgepmcservs/views.py:85-86 | Deleting an entry lowers each total by exactly that entry's line amount. Deleting an absent entry leaves the totals as they were. |
| Views.Cart.Detail | mpgepmc/mpgepmcservs/views.py:91-117 | The page shows one line per entry whose package exists, in cart order, with the quantity and line totals. Every other entry is deleted from the cart. The totals shown are the original cart's totals. |
| Views.Cart.PruneEntry | mpgepmc/mpgepmcservs/views.py:97-109 | One pass of the loop keeps the pruning invariant: the keys seen so far are pruned, the keys not yet seen are untouched, and the lines so far are those of the pruned prefix. |
| CartSpec.Lines | mpgepmc/mpgepmcservs/views.py:96-104 | There is one line per live entry, in order. Each line holds its package, its quantity and price × quantity for both bounds. |
| CartSpec.LiveSpec | mpgepmc/mpgepmcservs/views.py:105-108 | The entries left after pruning are exactly the cart's entries whose package exists, and they stay distinct. |
| CartSpec.NothingStaleNothingPruned | mpgepmc/mpgepmcservs/views.py:96-108 | When every entry's package still exists, the prune leaves the keys and the quantities exactly as they were. |
| CartSpec.StaleEntriesAddNothing | mpgepmc/mpgepmcservs/views.py:29-30 | Dropping entries whose package no longer exists leaves both totals unchanged. |
| CartSpec.PruneKeepsTotals | mpgepmc/mpgepmcservs/views.py:105-111 | The totals computed after the prune equal those of the cart before it. |
| CartSpec.LineTotalsMatchCartTotal | mpgepmc/mpgepmcservs/views.py:102-103 | The line totals on the cart page add up to the cart's min and max totals. |
| CartSpec.WithoutSpec | mpgepmc/mpgepmcservs/views.py:86 | Deleting a key removes exactly that key and keeps the others distinct. Deleting an absent key changes nothing. |
| Views.CheckoutDecision | mpgepmc/mpgepmcservs/views.py:125-155 | An empty cart goes to the index. A GET shows the methods. A POST with no code or an unknown code is not found. A POST naming an enabled method places the order. A POST naming a disabled method shows the page again. Each outcome is stated as if-and-only-if. |
| Views.PaymentPage | mpgepmc/mpgepmcservs/views.py:119-160 | The cart is pruned as on the cart page. Placing an order appends exactly one order for the max total and this session, empties the cart and redirects to completion. Every other outcome records no order and leaves the cart pruned. Showing the page renders the lines, both totals and the visible methods. |
| Views.OrderTotalCanExceedMoneyField | mpgepmc/mpgepmcservs/views.py:137-143 | Two units of a package whose prices fit their fields give a max total that the order's `total_amount` field (models.py:132) cannot hold, and checkout records it unchecked. |
| Views.OrderLog.Create | mpgepmc/mpgepmcservs/views.py:140-143 | Exactly one order with the given session key and amount is appended to the table. |
| Views.Cart.constructor | mpgepmc/mpgepmcservs/views.py:11-13 | A session without a cart yields an empty, well-formed cart. |
| Views.Cart.Delete | mpgepmc/mpgepmcservs/views.py:86 | `del cart[id]` on a present id removes exactly that key, keeps the others in order, drops its quantity, and the cart stays well formed. |
| Views.Cart.Clear | mpgepmc/mpgepmcservs/views.py:146-147 | The cart becomes an empty dict. |
| Views.NewMethodShownButNotAccepted | mpgepmc/mpgepmcservs/models.py:117-118 | A method created with only a name and a code is listed on the payment page, but selecting it places no order. |
| Models.NewPaymentMethod | mpgepmc/mpgepmcservs/models.py:113-119 | A new payment method is disabled, visible and has sort order 0. |
| Models.NewPackage | mpgepmc/mpgepmcservs/models.py:76-79 | A new package defaults to the add-to-cart button and is active. Its prices are kept. |
| Models.DurationCode | mpgepmc/mpgepmcservs/models.py:6-13 | Every duration code is non-empty and fits the 10-character column. |
| Models.ButtonCode | mpgepmc/mpgepmcservs/models.py:15-19 | Every button code is non-empty and fits the 10-character column. |
| Models.ParseDurationUnit | mpgepmc/mpgepmcservs/models.py:6-13 | A stored string reads back as the unit whose code it is. A string that is no unit's code gives none. |
| Models.ParseButtonType | mpgepmc/mpgepmcservs/models.py:15-19 | A stored string reads back as the button type whose code it is. A string that is no type's code gives none. |
| Models.ChoiceCodesRoundTrip | mpgepmc/mpgepmcservs/models.py:6-19 | Reading back the code of any unit or button type gives that unit or type. |
| Models.MoneyFieldIsTenDigits | mpgepmc/mpgepmcservs/models.py:72-73 | An amount fits the money field, |cents| < 10^10, exactly when its cents need at most max_digits = 10 digits. |
| Models.DigitCountBound | mpgepmc/mpgepmcservs/models.py:132 | A number has at most d decimal digits exactly when it is below 10^d. This is the digit bound of the field. |
| Models.DisplayPrice | mpgepmc/mpgepmcservs/models.py:88-96 | "N/A" shows exactly when a price is missing. A fixed price shows exactly when min equals max, with that amount. Otherwise a range shows, from min to max, and the two differ. |
| Models.StoredPackageHasPrice | mpgepmc/mpgepmcservs/models.py:88-96 | A stored package, whose prices are never null, never shows "N/A". When its prices differ it shows the range from min to max. |
| Models.ServiceClass.constructor | mpgepmc/mpgepmcservs/models.py:25-28 | A new category keeps its name and description, has no slug yet and display order 0. |
| Models.Service.constructor | mpgepmc/mpgepmcservs/models.py:44-48 | A new service keeps its class, name and descriptions and has no slug yet. |
| Models.ServiceClass.Save | mpgepmc/mpgepmcservs/models.py:37-40 | An empty slug becomes the slugified name. A set slug is kept. No other field changes. |
| Models.Service.Save | mpgepmc/mpgepmcservs/models.py:57-60 | An empty slug becomes the slugified name. A set slug is kept. No other field changes. |
| Models.SaveIdempotentOnSlug | mpgepmc/mpgepmcservs/models.py:38-39 | Saving twice under the same name gives the same slug as saving once. |
| Models.SlugFixedOnceSet | mpgepmc/mpgepmcservs/models.py:38-39 | Once the slug is non-empty, no sequence of later saves changes it, whatever the names. |
| Models.SlugTakenFromFirstUsableName | mpgepmc/mpgepmcservs/models.py:38-39 | After a series of saves, the slug is the slugified name of the first save whose slugified name is non-empty. Later renames never reach it. |
| AsWritten.FirstStale | mpgepmc/mpgepmcservs/views.py:96-105 | Finds the first entry in iteration order whose package is missing, or reports that every entry's package exists. |
| AsWritten.CartDetailAsWritten | mpgepmc/mpgepmcservs/views.py:96-108 | As written, the cart page renders exactly when no entry is stale. Otherwise the first stale entry is deleted and the next step of the loop raises RuntimeError. |
| AsWritten.PaymentPageAsWritten | mpgepmc/mpgepmcservs/views.py:121-122 | As written, the payment page raises RuntimeError when an entry is stale and AttributeError otherwise. It never reaches the order. |
| AsWritten.StaleEntryBreaksCartPage | mpgepmc/mpgepmcservs/views.py:105-108 | A cart {1, 2} whose package 2 was deleted makes the page raise as written. The intended prune keeps entry 1 and shows its line. |
| AsWritten.CheckoutBrokenAsWritten | mpgepmc/mpgepmcservs/views.py:122 | With one live entry and a POST naming an enabled method, the intended decision places the order, but as written the view raises AttributeError. |

## Left out

- The ORM, the HTTP layer and the session store are not modelled. Tables are maps passed in. A view's answer is a `Response` value. Saving the session is the update of the `Cart` object. The referring page of a redirect, the session key and the database clock (`created_at`) are parameters or left out.
- `slugify` is a function parameter with no properties, so the text of a slug is not modelled. Uniqueness of slugs, names and codes is a database constraint and is not checked.
- The listing views (`service_class_list`, `service_class_detail`, `service_detail`, `checkout_complete`) and every `Meta.ordering` are not modelled. The payment page's methods are rendered as a set of codes, so their `sort_order` order is not captured.
- `DisplayPrice` returns which form the price takes and its amounts in cents. The `$` text, thousands separators and the rounding to whole dollars in the range form are not modelled.
- Session cart keys are strings (`str(package_id)`) that are looked up as integers. Keys are modelled as package ids, so a malformed key string is not modelled.
- PackageFeature is a record with no operations, and `__str__` methods are not modelled.
- Models.NewPackage: a price pair with min above max is accepted and shown as a range, as in the source. Nothing enforces min ≤ max, which is why `CartSpec.MinTotalAtMostMaxTotal` requires it.
- CartSpec.CartSumMonotone: it assumes non-negative prices, which the source does not enforce.
- Views.PaymentPage: the source does not check that the order total fits the `total_amount` money field, and neither does the model; `Views.OrderTotalCanExceedMoneyField` shows a cart whose total does not fit. What the database does with such a value is not modelled.
- The documentation describes an invalid payment method as re-rendering the form. The code answers 404 for a missing or unknown code and re-renders only for a disabled one. It also accepts an enabled method that is not visible. The model follows the code.

## Findings

| source | as written | input that shows it | evidently intended | confidence | as-written member | corrected member |
|---|---|---|---|---|---|---|
| mpgepmc/mpgepmcservs/views.py:96-108 | Deletes stale entries from the session dict while iterating over `cart.items()`, so the iteration raises RuntimeError after the first deletion. | Cart {"1": 1, "2": 1} where package 2 was deleted. The failed request does not save the session, so the stale entry stays and every later visit to the cart or payment page fails again. | Drop every stale entry and render the remaining lines and totals. | not executed | AsWritten.StaleEntryBreaksCartPage | Views.Cart.Detail |
| mpgepmc/mpgepmcservs/views.py:122 | Reads `context_data` off the `render` result of `cart_detail`, which a plain HttpResponse does not have, so the view raises AttributeError. | Cart {"1": 1} with package 1 present, and a POST naming an enabled method. | Take the lines of the pruned cart and continue with the checkout decision. | not executed | AsWritten.CheckoutBrokenAsWritten | Views.PaymentPage |
