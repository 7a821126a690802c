/**
 * The rows of the sales export for profit-and-loss reporting
 * (src/app/api/export-sales/route.ts): each recorded sale becomes one row
 * that splits its VAT-inclusive revenue into the part before VAT and the
 * VAT itself, and sets the cost of the goods sold against it. Fetching the
 * sales, the session check and the JSON response are not part of this model.
 */
module SalesExport {
  import opened Wrappers

  /** The flat VAT rate the application charges on top of the selling price. */
  const VAT_RATE: real := 0.075

  /** What the export divides VAT-inclusive revenue by. */
  const VAT_DIVISOR: real := 1.075

  /** One recorded sale as the export reads it; `item_name` is the joined item's name, if any. */
  datatype SaleRecord = SaleRecord(
    sale_date: string, total_amount: real, quantity_sold: int,
    cost_at_sale: Option<real>, valuation_method_used: Option<string>, item_name: Option<string>)

  /** One row of the export. */
  datatype ExportRow = ExportRow(
    date: string, item: Option<string>, quantity: int,
    revenue_inc_vat: real, revenue_ex_vat: real, vat_amount: real,
    cogs: real, gross_profit: real, valuation_method: string)

  /** `cost_at_sale || 0`: a missing cost counts as 0 (as does a recorded 0). */
  function CostPrice(cost_at_sale: Option<real>): (c: real)
    ensures cost_at_sale == None ==> c == 0.0
    ensures cost_at_sale.Some? ==> c == cost_at_sale.value
  {
    match cost_at_sale
    case None => 0.0
    case Some(c) => c
  }

  /** `valuation_method_used || 'FIFO'`: a missing or empty method reads as "FIFO". */
  function MethodOrDefault(valuation_method_used: Option<string>): (m: string)
    ensures m != ""
    ensures valuation_method_used.Some? && valuation_method_used.value != "" ==> m == valuation_method_used.value
    ensures valuation_method_used in {None, Some("")} ==> m == "FIFO"
  {
    match valuation_method_used
    case Some(v) => if v != "" then v else "FIFO"
    case None => "FIFO"
  }

  /** The export row for one sale. */
  function ToRow(sale: SaleRecord): (row: ExportRow)
    ensures row.date == sale.sale_date && row.item == sale.item_name && row.quantity == sale.quantity_sold
    ensures row.revenue_inc_vat == sale.total_amount
    ensures row.revenue_ex_vat * VAT_DIVISOR == sale.total_amount
    ensures row.revenue_ex_vat + row.vat_amount == sale.total_amount
    ensures row.vat_amount == row.revenue_ex_vat * VAT_RATE
    ensures row.gross_profit + row.cogs + row.vat_amount == sale.total_amount
    ensures sale.cost_at_sale == None ==> row.cogs == 0.0 && row.gross_profit == row.revenue_ex_vat
    ensures row.valuation_method == MethodOrDefault(sale.valuation_method_used)
  {
    var costPrice := CostPrice(sale.cost_at_sale);
    var revenue := sale.total_amount;
    var revenueExVat := revenue / VAT_DIVISOR;
    var cogs := costPrice * sale.quantity_sold as real;
    var grossProfit := revenueExVat - cogs;
    ExportRow(
      sale.sale_date, sale.item_name, sale.quantity_sold,
      revenue, revenueExVat, revenue - revenueExVat,
      cogs, grossProfit, MethodOrDefault(sale.valuation_method_used))
  }

  /** The export: one row per sale, in the order the sales come. */
  function ExportSales(sales: seq<SaleRecord>): (rows: seq<ExportRow>)
    ensures |rows| == |sales|
    ensures forall i :: 0 <= i < |sales| ==> rows[i] == ToRow(sales[i])
  {
    seq(|sales|, i requires 0 <= i < |sales| => ToRow(sales[i]))
  }

  /** Exporting two runs of sales one after the other gives their rows one after the other. */
  lemma ExportSalesAppend(a: seq<SaleRecord>, b: seq<SaleRecord>)
    ensures ExportSales(a + b) == ExportSales(a) + ExportSales(b)
  {
    var l, r := ExportSales(a + b), ExportSales(a) + ExportSales(b);
    assert |l| == |r|;
    forall i | 0 <= i < |l| ensures l[i] == r[i] {
      if i < |a| { assert (a + b)[i] == a[i]; } else { assert (a + b)[i] == b[i - |a|]; }
    }
  }

  /** The cost of goods sold is the unit cost at sale times the quantity sold. */
  lemma CogsIsUnitCostTimesQuantity(sale: SaleRecord)
    ensures ToRow(sale).cogs == CostPrice(sale.cost_at_sale) * sale.quantity_sold as real
  {
  }

  /** For non-negative revenue the VAT is non-negative and the revenue before VAT does not exceed the revenue. */
  lemma VatBounds(sale: SaleRecord)
    requires sale.total_amount >= 0.0
    ensures var row := ToRow(sale);
            0.0 <= row.vat_amount <= row.revenue_inc_vat && 0.0 <= row.revenue_ex_vat <= row.revenue_inc_vat
  {
    var row := ToRow(sale);
    assert row.vat_amount == row.revenue_ex_vat * VAT_RATE;
  }

  /** The divisor is one plus the VAT rate the checkout charges. */
  lemma DivisorIsOnePlusRate()
    ensures VAT_DIVISOR == 1.0 + VAT_RATE
  {
  }

  /**
   * A sale recorded by the checkout, whose total is its subtotal plus VAT at
   * the flat rate, is split back by the export into exactly that subtotal and
   * that VAT.
   */
  lemma CheckoutTotalSplitsBack(price: real, quantity: int, sale: SaleRecord)
    requires var subtotal := price * quantity as real;
             sale.total_amount == subtotal + subtotal * VAT_RATE
    ensures ToRow(sale).revenue_ex_vat == price * quantity as real
    ensures ToRow(sale).vat_amount == price * quantity as real * VAT_RATE
  {
    var subtotal := price * quantity as real;
    assert sale.total_amount == subtotal * VAT_DIVISOR;
  }
}
