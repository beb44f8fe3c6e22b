/**
 * The records of the service shop (mpgepmcservs/models.py): the choice lists,
 * the catalog entities, payment methods and orders, their field defaults, the
 * bound of the money fields, the display price of a package and the rule that
 * a slug is derived from the name once and then kept.
 *
 * Money is held in integer cents: every money field of the source is a
 * DecimalField with exactly two fractional digits, so cents are exact.
 */
module Models {
  import opened Wrappers

  // ---------------------------------------------------------------------------
  // Choices
  // ---------------------------------------------------------------------------

  /** The billing period of a package (DURATION_UNITS). */
  datatype DurationUnit = OneTime | Month | Quarter | HalfYear | Year | Project

  /** The stored code of a duration unit; the column is a CharField(max_length=10). */
  function DurationCode(u: DurationUnit): (r: string)
    ensures 0 < |r| <= 10
  {
    match u
    case OneTime => "ONETIME"
    case Month => "MONTH"
    case Quarter => "QUARTER"
    case HalfYear => "HALFYR"
    case Year => "YEAR"
    case Project => "PROJECT"
  }

  /** The human-readable label of a duration unit. */
  function DurationLabel(u: DurationUnit): string
  {
    match u
    case OneTime => "One-Time"
    case Month => "Month(s)"
    case Quarter => "Quarterly"
    case HalfYear => "Half-Yearly"
    case Year => "Yearly"
    case Project => "Project"
  }

  /** Reads a stored duration_unit column back: the unit whose code it is, if any. */
  function ParseDurationUnit(s: string): (r: Option<DurationUnit>)
    ensures r.Some? ==> DurationCode(r.value) == s
    ensures r.None? ==> forall u :: DurationCode(u) != s
  {
    if s == "ONETIME" then Some(OneTime)
    else if s == "MONTH" then Some(Month)
    else if s == "QUARTER" then Some(Quarter)
    else if s == "HALFYR" then Some(HalfYear)
    else if s == "YEAR" then Some(Year)
    else if s == "PROJECT" then Some(Project)
    else None
  }

  /** What the button of a package does on the site (BUTTON_TYPES). */
  datatype ButtonType = PriceButton | CartButton | ContactButton

  /** The stored code of a button type; the column is a CharField(max_length=10). */
  function ButtonCode(b: ButtonType): (r: string)
    ensures 0 < |r| <= 10
  {
    match b
    case PriceButton => "PRICE"
    case CartButton => "CART"
    case ContactButton => "CONTACT"
  }

  function ButtonLabel(b: ButtonType): string
  {
    match b
    case PriceButton => "Display Price Button"
    case CartButton => "Add to Cart Button"
    case ContactButton => "Contact to Sale Button"
  }

  /** Reads a stored button_type column back: the button type whose code it is, if any. */
  function ParseButtonType(s: string): (r: Option<ButtonType>)
    ensures r.Some? ==> ButtonCode(r.value) == s
    ensures r.None? ==> forall b :: ButtonCode(b) != s
  {
    if s == "PRICE" then Some(PriceButton)
    else if s == "CART" then Some(CartButton)
    else if s == "CONTACT" then Some(ContactButton)
    else None
  }

  /** Every code reads back as the choice it came from. */
  lemma ChoiceCodesRoundTrip(u: DurationUnit, b: ButtonType)
    ensures ParseDurationUnit(DurationCode(u)) == Some(u)
    ensures ParseButtonType(ButtonCode(b)) == Some(b)
  {
    match u
    case OneTime =>
    case Month =>
    case Quarter =>
    case HalfYear =>
    case Year =>
    case Project =>
  }

  // ---------------------------------------------------------------------------
  // Money fields: DecimalField(max_digits=10, decimal_places=2)
  // ---------------------------------------------------------------------------

  const MaxDigits: nat := 10
  const DecimalPlaces: nat := 2

  function Pow10(n: nat): (r: nat)
    ensures r >= 1
  {
    if n == 0 then 1 else 10 * Pow10(n - 1)
  }

  /** Number of decimal digits of n (0 is written with one digit). */
  function DigitCount(n: nat): (r: nat)
    ensures r >= 1
  {
    if n < 10 then 1 else 1 + DigitCount(n / 10)
  }

  function Abs(x: int): nat
  {
    if x < 0 then -x else x
  }

  /**
   * A cents amount fits a money field when its magnitude is below 10^10
   * cents, that is at most 99,999,999.99 in currency units.
   */
  predicate FitsMoneyField(cents: int)
  {
    Abs(cents) < 10_000_000_000
  }

  /** A number has at most d digits exactly when it is below 10^d. */
  lemma {:induction false} DigitCountBound(n: nat, d: nat)
    requires d >= 1
    ensures DigitCount(n) <= d <==> n < Pow10(d)
  {
    if n < 10 {
      Pow10AtLeastTen(d);
    } else if d == 1 {
      assert DigitCount(n) == 1 + DigitCount(n / 10) >= 2;
    } else {
      DigitCountBound(n / 10, d - 1);
      assert n / 10 < Pow10(d - 1) <==> n < 10 * Pow10(d - 1);
    }
  }

  lemma {:induction false} Pow10AtLeastTen(d: nat)
    requires d >= 1
    ensures Pow10(d) >= 10
  {
    if d > 1 {
      Pow10AtLeastTen(d - 1);
    }
  }

  /**
   * The cents bound is the digit bound of the field: with two fractional
   * digits held as cents, a value fits exactly when its cents need at most
   * max_digits = 10 digits.
   */
  lemma MoneyFieldIsTenDigits(cents: int)
    ensures FitsMoneyField(cents) <==> DigitCount(Abs(cents)) <= MaxDigits
  {
    assert Pow10(MaxDigits) == 10_000_000_000;
    DigitCountBound(Abs(cents), MaxDigits);
  }

  // ---------------------------------------------------------------------------
  // Catalog records
  // ---------------------------------------------------------------------------

  /**
   * A Package row. `service` is the id of the owning Service; prices are in
   * cents. A stored row always has both prices (the columns are not null).
   */
  datatype Package = Package(
    service: nat,
    packageType: string,
    durationUnit: DurationUnit,
    durationValue: string,
    minPrice: int,
    maxPrice: int,
    buttonType: ButtonType,
    isActive: bool)

  /** Both prices of a package fit their money fields. */
  predicate PricesFit(p: Package)
  {
    FitsMoneyField(p.minPrice) && FitsMoneyField(p.maxPrice)
  }

  /** A package created without a button type or an active flag gets the field defaults. */
  function NewPackage(service: nat, packageType: string, durationUnit: DurationUnit,
                      durationValue: string, minPrice: int, maxPrice: int): (p: Package)
    ensures p.buttonType == CartButton && p.isActive
    ensures p.minPrice == minPrice && p.maxPrice == maxPrice
  {
    Package(service, packageType, durationUnit, durationValue, minPrice, maxPrice, CartButton, true)
  }

  /** A PackageFeature row; `package` is the id of the owning package. */
  datatype PackageFeature = PackageFeature(package: nat, featureText: string, order: int)

  // ---------------------------------------------------------------------------
  // Display price
  // ---------------------------------------------------------------------------

  /** The form in which a package price is shown. */
  datatype PriceDisplay =
    | NotAvailable                      // shown as NotAvailableText
    | Fixed(amount: int)                // "$" and the amount with two decimals
    | Range(low: int, high: int)        // "$low - $high", each with no decimals

  const NotAvailableText: string := "N/A (Enter Prices)"

  /**
   * Package.get_display_price over the two price fields, which are None on a
   * package that the admin add form has not filled in yet.
   */
  function DisplayPrice(minPrice: Option<int>, maxPrice: Option<int>): (r: PriceDisplay)
    ensures r.NotAvailable? <==> minPrice.None? || maxPrice.None?
    ensures r.Fixed? <==> minPrice.Some? && maxPrice.Some? && minPrice.value == maxPrice.value
    ensures r.Fixed? ==> r.amount == minPrice.value && r.amount == maxPrice.value
    ensures r.Range? ==>
              minPrice.Some? && maxPrice.Some? &&
              r.low == minPrice.value && r.high == maxPrice.value && r.low != r.high
  {
    if minPrice.None? || maxPrice.None? then NotAvailable
    else if minPrice.value == maxPrice.value then Fixed(minPrice.value)
    else Range(minPrice.value, maxPrice.value)
  }

  /** The display price of a stored package is never "N/A", and a range shows min first. */
  lemma StoredPackageHasPrice(p: Package)
    ensures !DisplayPrice(Some(p.minPrice), Some(p.maxPrice)).NotAvailable?
    ensures p.minPrice != p.maxPrice ==>
              DisplayPrice(Some(p.minPrice), Some(p.maxPrice)) == Range(p.minPrice, p.maxPrice)
  {
  }

  // ---------------------------------------------------------------------------
  // Payment methods and orders
  // ---------------------------------------------------------------------------

  /** A PaymentMethod row. */
  datatype PaymentMethod = PaymentMethod(
    name: string,
    code: string,
    isEnabled: bool,
    isVisible: bool,
    sortOrder: int)

  /** A payment method created with only a name and a code: disabled, yet shown. */
  function NewPaymentMethod(name: string, code: string): (m: PaymentMethod)
    ensures !m.isEnabled && m.isVisible && m.sortOrder == 0
    ensures m.name == name && m.code == code
  {
    PaymentMethod(name, code, false, true, 0)
  }

  /**
   * An Order row. created_at is set by the database clock and is not part of
   * this model; the session key is supplied by the session store.
   */
  datatype Order = Order(sessionKey: string, totalAmount: int)

  // ---------------------------------------------------------------------------
  // Service hierarchy: the slug is derived from the name once
  // ---------------------------------------------------------------------------

  /**
   * The slug after one save: an empty slug is derived from the name with the
   * given slugify; any other slug is kept.
   */
  function SlugOnSave(slug: string, name: string, slugify: string -> string): string
  {
    if slug == "" then slugify(name) else slug
  }

  /** The slug after saving once under each of the names in turn. */
  function SlugAfterSaves(slug: string, names: seq<string>, slugify: string -> string): string
    decreases |names|
  {
    if names == [] then slug
    else SlugAfterSaves(SlugOnSave(slug, names[0], slugify), names[1..], slugify)
  }

  /** Saving twice under the same name gives the slug of saving once. */
  lemma SaveIdempotentOnSlug(slug: string, name: string, slugify: string -> string)
    ensures SlugOnSave(SlugOnSave(slug, name, slugify), name, slugify) == SlugOnSave(slug, name, slugify)
  {
  }

  /** Once the slug is non-empty, no later save changes it, whatever the names. */
  lemma {:induction false} SlugFixedOnceSet(slug: string, names: seq<string>, slugify: string -> string)
    requires slug != ""
    ensures SlugAfterSaves(slug, names, slugify) == slug
  {
    if names != [] {
      SlugFixedOnceSet(slug, names[1..], slugify);
    }
  }

  /**
   * The slug ends up as the slugified name of the first save whose slugified
   * name is non-empty; later renames never reach it.
   */
  lemma {:induction false} SlugTakenFromFirstUsableName(names: seq<string>, slugify: string -> string, i: nat)
    requires i < |names| && slugify(names[i]) != ""
    requires forall j :: 0 <= j < i ==> slugify(names[j]) == ""
    ensures SlugAfterSaves("", names, slugify) == slugify(names[i])
  {
    if i == 0 {
      SlugFixedOnceSet(slugify(names[0]), names[1..], slugify);
    } else {
      assert slugify(names[0]) == "";
      SlugTakenFromFirstUsableName(names[1..], slugify, i - 1);
    }
  }

  /** A top-level service category (ServiceClass). */
  class ServiceClass {
    var name: string
    var slug: string
    var description: string
    var order: int

    /** A new category: no slug yet, display order 0. */
    constructor (name: string, description: string)
      ensures this.name == name && this.description == description
      ensures slug == "" && order == 0
    {
      this.name := name;
      this.description := description;
      slug := "";
      order := 0;
    }

    /** ServiceClass.save: set the slug from the name if it is empty. Persisting the row is not modelled. */
    method Save(slugify: string -> string)
      modifies this
      ensures slug == SlugOnSave(old(slug), old(name), slugify)
      ensures old(slug) != "" ==> slug == old(slug)
      ensures name == old(name) && description == old(description) && order == old(order)
    {
      if slug == "" {
        slug := slugify(name);
      }
    }
  }

  /** A sellable service within a category (Service). */
  class Service {
    var serviceClass: ServiceClass
    var name: string
    var slug: string
    var shortDescription: string
    var detailedDescription: string

    /** A new service: no slug yet. */
    constructor (serviceClass: ServiceClass, name: string, shortDescription: string, detailedDescription: string)
      ensures this.serviceClass == serviceClass && this.name == name
      ensures this.shortDescription == shortDescription && this.detailedDescription == detailedDescription
      ensures slug == ""
    {
      this.serviceClass := serviceClass;
      this.name := name;
      this.shortDescription := shortDescription;
      this.detailedDescription := detailedDescription;
      slug := "";
    }

    /** Service.save: the same set-once rule as ServiceClass.save. */
    method Save(slugify: string -> string)
      modifies this
      ensures slug == SlugOnSave(old(slug), old(name), slugify)
      ensures old(slug) != "" ==> slug == old(slug)
      ensures serviceClass == old(serviceClass) && name == old(name)
      ensures shortDescription == old(shortDescription) && detailedDescription == old(detailedDescription)
    {
      if slug == "" {
        slug := slugify(name);
      }
    }
  }
}
