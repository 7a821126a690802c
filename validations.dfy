/**
 * The form schemas for items, sales and purchases (src/lib/validations.ts).
 * Each schema is modelled three ways that are proved to agree: the set of
 * fields whose constraint fails (the paths of the schema's issues), the
 * validity predicate (no issue), and the parse that yields a typed record or
 * the failing fields. Numbers in a form are `real`, as in the source, and
 * `.int()` is the check that a number has no fractional part. Whether a
 * string is a UUID is left to the caller as the parameter `isUuid`.
 */
module Validations {
  import opened Wrappers

  /** A form number with no fractional part. */
  predicate IsInteger(x: real)
  {
    x.Floor as real == x
  }

  type Positive = n: int | n > 0 witness 1

  /** The two values the `unit_type` enum accepts. */
  datatype UnitType = Base | Package

  function UnitTypeName(u: UnitType): string
  {
    match u
    case Base => "base"
    case Package => "package"
  }

  /** The `unit_type` enum: exactly "base" and "package" are accepted. */
  function ParseUnitType(s: string): (u: Option<UnitType>)
    ensures u.Some? <==> s == "base" || s == "package"
    ensures u.Some? ==> UnitTypeName(u.value) == s
  {
    if s == "base" then Some(Base)
    else if s == "package" then Some(Package)
    else None
  }

  lemma {:induction false} UnitTypeRoundTrip(u: UnitType)
    ensures ParseUnitType(UnitTypeName(u)) == Some(u)
  {
    match u
    case Base =>
    case Package =>
      assert "package" != "base" by { assert "package"[0] != "base"[0]; }
  }

  // ---------------------------------------------------------------------------
  // Items
  // ---------------------------------------------------------------------------

  datatype ItemForm = ItemForm(
    name: string, description: string, price: real, barcode: string, category: string,
    quantity: real, base_unit: string, packaging_unit: string, units_per_package: real)

  /** An item as a validated form guarantees it: whole-unit counts of the right sign. */
  datatype Item = Item(
    name: string, description: string, price: real, barcode: string, category: string,
    quantity: nat, base_unit: string, packaging_unit: string, units_per_package: Positive)

  /** The fields of an item form whose constraint fails. */
  function ItemIssues(f: ItemForm): (bad: set<string>)
    ensures bad <= {"name", "price", "category", "quantity", "base_unit", "units_per_package"}
  {
    (if |f.name| >= 1 then {} else {"name"})
    + (if f.price >= 0.0 then {} else {"price"})
    + (if |f.category| >= 1 then {} else {"category"})
    + (if IsInteger(f.quantity) && f.quantity >= 0.0 then {} else {"quantity"})
    + (if |f.base_unit| >= 1 then {} else {"base_unit"})
    + (if IsInteger(f.units_per_package) && f.units_per_package >= 1.0 then {} else {"units_per_package"})
  }

  /** The item schema accepts the form: no field fails. */
  predicate ValidItem(f: ItemForm)
  {
    ItemIssues(f) == {}
  }

  /** A valid item has a name, a category and a base unit, a price of at least 0, a whole stock of at least 0 and a whole package size of at least 1. */
  lemma ValidItemExactly(f: ItemForm)
    ensures ValidItem(f) <==>
      && f.name != [] && f.category != [] && f.base_unit != []
      && f.price >= 0.0
      && IsInteger(f.quantity) && f.quantity >= 0.0
      && IsInteger(f.units_per_package) && f.units_per_package >= 1.0
  {
    if !ValidItem(f) {
      var bad := ItemIssues(f);
      var x :| x in bad;
    }
  }

  /** Description, barcode and packaging unit are unconstrained: changing them never changes validity. */
  lemma ItemFreeTextUnconstrained(f: ItemForm, description: string, barcode: string, packaging_unit: string)
    ensures ValidItem(f) <==> ValidItem(f.(description := description, barcode := barcode, packaging_unit := packaging_unit))
  {
  }

  function ItemFormOf(v: Item): ItemForm
  {
    ItemForm(v.name, v.description, v.price, v.barcode, v.category,
             v.quantity as real, v.base_unit, v.packaging_unit, v.units_per_package as real)
  }

  /** Parsing an item form: the typed item it denotes, or the fields that fail. */
  function ParseItem(f: ItemForm): (r: Result<Item, set<string>>)
    ensures r.Success? <==> ValidItem(f)
    ensures r.Success? ==> ItemFormOf(r.value) == f
    ensures r.Failure? ==> r.error == ItemIssues(f) && r.error != {}
  {
    if ItemIssues(f) != {} then Failure(ItemIssues(f))
    else
      ValidItemExactly(f);
      Success(Item(f.name, f.description, f.price, f.barcode, f.category,
                   f.quantity.Floor, f.base_unit, f.packaging_unit, f.units_per_package.Floor))
  }

  /** Every item with a name, a category, a base unit and a non-negative price survives the form unchanged. */
  lemma ItemRoundTrip(v: Item)
    requires v.name != [] && v.category != [] && v.base_unit != [] && v.price >= 0.0
    ensures ParseItem(ItemFormOf(v)) == Success(v)
  {
    ValidItemExactly(ItemFormOf(v));
  }

  // ---------------------------------------------------------------------------
  // Sales
  // ---------------------------------------------------------------------------

  datatype SaleForm = SaleForm(
    item_id: string, quantity_sold: real, unit_type: string, unit_quantity: real, customer_name: string)

  datatype Sale = Sale(
    item_id: string, quantity_sold: Positive, unit_type: UnitType, unit_quantity: Positive, customer_name: string)

  /** The fields of a sale form whose constraint fails. */
  function SaleIssues(f: SaleForm, isUuid: string -> bool): (bad: set<string>)
    ensures bad <= {"item_id", "quantity_sold", "unit_type", "unit_quantity"}
  {
    (if isUuid(f.item_id) then {} else {"item_id"})
    + (if IsInteger(f.quantity_sold) && f.quantity_sold > 0.0 then {} else {"quantity_sold"})
    + (if ParseUnitType(f.unit_type).Some? then {} else {"unit_type"})
    + (if IsInteger(f.unit_quantity) && f.unit_quantity > 0.0 then {} else {"unit_quantity"})
  }

  /** The sale schema accepts the form: no field fails. */
  predicate ValidSale(f: SaleForm, isUuid: string -> bool)
  {
    SaleIssues(f, isUuid) == {}
  }

  /** A valid sale names a UUID item, sells a whole number of at least one unit, in "base" or "package" units. */
  lemma ValidSaleExactly(f: SaleForm, isUuid: string -> bool)
    ensures ValidSale(f, isUuid) <==>
      && isUuid(f.item_id)
      && IsInteger(f.quantity_sold) && f.quantity_sold > 0.0
      && (f.unit_type == "base" || f.unit_type == "package")
      && IsInteger(f.unit_quantity) && f.unit_quantity > 0.0
  {
    if !ValidSale(f, isUuid) {
      var bad := SaleIssues(f, isUuid);
      var x :| x in bad;
    }
  }

  /** The customer name accepts any string, the empty one included. */
  lemma SaleAnyCustomerName(f: SaleForm, isUuid: string -> bool, customer_name: string)
    ensures ValidSale(f, isUuid) <==> ValidSale(f.(customer_name := customer_name), isUuid)
  {
  }

  function SaleFormOf(v: Sale): SaleForm
  {
    SaleForm(v.item_id, v.quantity_sold as real, UnitTypeName(v.unit_type), v.unit_quantity as real, v.customer_name)
  }

  /** Parsing a sale form: the typed sale it denotes, or the fields that fail. */
  function ParseSale(f: SaleForm, isUuid: string -> bool): (r: Result<Sale, set<string>>)
    ensures r.Success? <==> ValidSale(f, isUuid)
    ensures r.Success? ==> SaleFormOf(r.value) == f
    ensures r.Failure? ==> r.error == SaleIssues(f, isUuid) && r.error != {}
  {
    if SaleIssues(f, isUuid) != {} then Failure(SaleIssues(f, isUuid))
    else
      ValidSaleExactly(f, isUuid);
      Success(Sale(f.item_id, f.quantity_sold.Floor, ParseUnitType(f.unit_type).value,
                   f.unit_quantity.Floor, f.customer_name))
  }

  /** Every sale of a UUID item survives the form unchanged. */
  lemma SaleRoundTrip(v: Sale, isUuid: string -> bool)
    requires isUuid(v.item_id)
    ensures ParseSale(SaleFormOf(v), isUuid) == Success(v)
  {
    UnitTypeRoundTrip(v.unit_type);
    ValidSaleExactly(SaleFormOf(v), isUuid);
  }

  // ---------------------------------------------------------------------------
  // Purchases
  // ---------------------------------------------------------------------------

  datatype PurchaseForm = PurchaseForm(
    item_id: string, quantity_purchased: real, unit_type: string, unit_quantity: real,
    cost: real, new_selling_price: Option<real>, supplier_name: string)

  datatype Purchase = Purchase(
    item_id: string, quantity_purchased: Positive, unit_type: UnitType, unit_quantity: Positive,
    cost: real, new_selling_price: Option<real>, supplier_name: string)

  /** The fields of a purchase form whose constraint fails; an absent selling price never fails. */
  function PurchaseIssues(f: PurchaseForm, isUuid: string -> bool): (bad: set<string>)
    ensures bad <= {"item_id", "quantity_purchased", "unit_type", "unit_quantity", "cost", "new_selling_price"}
  {
    (if isUuid(f.item_id) then {} else {"item_id"})
    + (if IsInteger(f.quantity_purchased) && f.quantity_purchased > 0.0 then {} else {"quantity_purchased"})
    + (if ParseUnitType(f.unit_type).Some? then {} else {"unit_type"})
    + (if IsInteger(f.unit_quantity) && f.unit_quantity > 0.0 then {} else {"unit_quantity"})
    + (if f.cost >= 0.0 then {} else {"cost"})
    + (match f.new_selling_price
       case None => {}
       case Some(p) => if p >= 0.0 then {} else {"new_selling_price"})
  }

  /** The purchase schema accepts the form: no field fails. */
  predicate ValidPurchase(f: PurchaseForm, isUuid: string -> bool)
  {
    PurchaseIssues(f, isUuid) == {}
  }

  /** A valid purchase names a UUID item, buys a whole number of at least one unit in "base" or "package" units, at a cost of at least 0, with a new selling price that is absent or at least 0. */
  lemma ValidPurchaseExactly(f: PurchaseForm, isUuid: string -> bool)
    ensures ValidPurchase(f, isUuid) <==>
      && isUuid(f.item_id)
      && IsInteger(f.quantity_purchased) && f.quantity_purchased > 0.0
      && (f.unit_type == "base" || f.unit_type == "package")
      && IsInteger(f.unit_quantity) && f.unit_quantity > 0.0
      && f.cost >= 0.0
      && (f.new_selling_price.Some? ==> f.new_selling_price.value >= 0.0)
  {
    if !ValidPurchase(f, isUuid) {
      var bad := PurchaseIssues(f, isUuid);
      var x :| x in bad;
    }
  }

  /** The new selling price is optional, and when present it is checked only for being at least 0. */
  lemma PurchaseSellingPriceOptional(f: PurchaseForm, isUuid: string -> bool, price: real)
    ensures ValidPurchase(f, isUuid) ==> ValidPurchase(f.(new_selling_price := None), isUuid)
    ensures ValidPurchase(f.(new_selling_price := Some(price)), isUuid)
            <==> ValidPurchase(f.(new_selling_price := None), isUuid) && price >= 0.0
  {
    ValidPurchaseExactly(f, isUuid);
    ValidPurchaseExactly(f.(new_selling_price := None), isUuid);
    ValidPurchaseExactly(f.(new_selling_price := Some(price)), isUuid);
  }

  /** The supplier name accepts any string, the empty one included. */
  lemma PurchaseAnySupplierName(f: PurchaseForm, isUuid: string -> bool, supplier_name: string)
    ensures ValidPurchase(f, isUuid) <==> ValidPurchase(f.(supplier_name := supplier_name), isUuid)
  {
  }

  function PurchaseFormOf(v: Purchase): PurchaseForm
  {
    PurchaseForm(v.item_id, v.quantity_purchased as real, UnitTypeName(v.unit_type), v.unit_quantity as real,
                 v.cost, v.new_selling_price, v.supplier_name)
  }

  /** Parsing a purchase form: the typed purchase it denotes, or the fields that fail. */
  function ParsePurchase(f: PurchaseForm, isUuid: string -> bool): (r: Result<Purchase, set<string>>)
    ensures r.Success? <==> ValidPurchase(f, isUuid)
    ensures r.Success? ==> PurchaseFormOf(r.value) == f
    ensures r.Failure? ==> r.error == PurchaseIssues(f, isUuid) && r.error != {}
  {
    if PurchaseIssues(f, isUuid) != {} then Failure(PurchaseIssues(f, isUuid))
    else
      ValidPurchaseExactly(f, isUuid);
      Success(Purchase(f.item_id, f.quantity_purchased.Floor, ParseUnitType(f.unit_type).value,
                       f.unit_quantity.Floor, f.cost, f.new_selling_price, f.supplier_name))
  }

  /** Every purchase of a UUID item at a non-negative cost and selling price survives the form unchanged. */
  lemma PurchaseRoundTrip(v: Purchase, isUuid: string -> bool)
    requires isUuid(v.item_id) && v.cost >= 0.0
    requires v.new_selling_price.Some? ==> v.new_selling_price.value >= 0.0
    ensures ParsePurchase(PurchaseFormOf(v), isUuid) == Success(v)
  {
    UnitTypeRoundTrip(v.unit_type);
    ValidPurchaseExactly(PurchaseFormOf(v), isUuid);
  }
}
