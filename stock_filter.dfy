/** The stock-status table of the stock dashboard: the server's per-row
    status label, and the browser-side filter that shows or hides each row by
    product name, stock sufficiency and category. */
module StockFilter {
  import opened JsText
  import opened Optional

  /** The cells of one table row as the browser reads them: product name,
      stock amount, critical level, and the `data-category` attribute. */
  datatype RowCells = RowCells(name: string, stockText: string, criticalText: string, category: Option<string>)

  /** The three filter controls: search text, stock status, category. */
  datatype Filters = Filters(productCode: string, stockStatus: string, category: string)

  /** The stock-status filter values. */
  const Sufficient := "yeterli"
  const Insufficient := "yetersiz"

  /** The server's status labels. */
  const SufficientLabel := "Yeterli Stok"
  const InsufficientLabel := "Yetersiz Stok"

  /** `parseInt` of the stock and critical-level cells (no radix given). */
  function StockAmount(row: RowCells): JsNumber {
    ParseInt(row.stockText, Auto)
  }

  function CriticalLevel(row: RowCells): JsNumber {
    ParseInt(row.criticalText, Auto)
  }

  /** The row's category, trimmed and lower-cased; empty when the attribute
      is missing or empty. */
  function RowCategory(row: RowCells): string {
    if row.category.Some? && row.category.value != "" then ToLower(Trim(row.category.value)) else ""
  }

  /** The search test: a non-empty search text must occur in the product name,
      both lower-cased. */
  predicate PassesSearch(row: RowCells, f: Filters) {
    var code := ToLower(f.productCode);
    !(code != "" && !Includes(ToLower(row.name), code))
  }

  /** The stock-status test: `yeterli` hides rows below their critical level,
      `yetersiz` hides rows at or above it, any other value hides nothing.
      A comparison with NaN is false, so it hides nothing either. */
  predicate PassesStatus(row: RowCells, status: string) {
    var stock, critical := StockAmount(row), CriticalLevel(row);
    if status == Sufficient then !Less(stock, critical)
    else if status == Insufficient then !AtLeast(stock, critical)
    else true
  }

  /** The category test: a chosen category must equal the row's, both
      trimmed and lower-cased. */
  predicate PassesCategory(row: RowCells, f: Filters) {
    !(f.category != "" && RowCategory(row) != ToLower(Trim(f.category)))
  }

  /** Whether the filter handler leaves a row displayed. */
  predicate Displayed(row: RowCells, f: Filters)
    ensures Displayed(row, f) && f.productCode != "" ==>
      exists i :: OccursAt(ToLower(row.name), ToLower(f.productCode), i)
  {
    PassesSearch(row, f) && PassesStatus(row, f.stockStatus) && PassesCategory(row, f)
  }

  /** The value the handler writes to `row.style.display`. */
  function DisplayStyle(row: RowCells, f: Filters): string {
    if Displayed(row, f) then "" else "none"
  }

  /** With all three filters empty every row is displayed. */
  lemma EmptyFiltersShowEverything(row: RowCells)
    ensures Displayed(row, Filters("", "", ""))
  {
  }

  /** A row passes the search exactly when the search text is empty or occurs,
      lower-cased, somewhere in the lower-cased product name. */
  lemma SearchIsSubstringMatch(row: RowCells, f: Filters)
    ensures PassesSearch(row, f) <==>
      f.productCode == "" || exists i :: OccursAt(ToLower(row.name), ToLower(f.productCode), i)
  {
  }

  /** For rows whose two numbers parse, `yeterli` keeps exactly the rows at
      or above their critical level and `yetersiz` exactly the others: every
      such row passes exactly one of the two. */
  lemma StatusFiltersPartition(row: RowCells)
    requires StockAmount(row).Num? && CriticalLevel(row).Num?
    ensures PassesStatus(row, Insufficient) <==> StockAmount(row).value < CriticalLevel(row).value
    ensures PassesStatus(row, Sufficient) <==> !PassesStatus(row, Insufficient)
  {
  }

  /** A row whose stock cell does not parse as a number passes both status
      filters, since every comparison with NaN is false. */
  lemma UnparsedStockPassesBoth(row: RowCells)
    requires StockAmount(row).NaN?
    ensures PassesStatus(row, Sufficient) && PassesStatus(row, Insufficient)
  {
  }

  /** A row passes the category test exactly when no category is chosen or
      the two agree after trimming and lower-casing; so a row without a
      category is hidden whenever the chosen one is not blank. */
  lemma CategoryIsNormalisedEquality(row: RowCells, f: Filters)
    ensures PassesCategory(row, f) <==> f.category == "" || RowCategory(row) == ToLower(Trim(f.category))
    ensures row.category.None? && ToLower(Trim(f.category)) != "" ==> !Displayed(row, f)
  {
  }

  /** The status cell the server writes for a product, and whether the row is
      shaded as short of stock. */
  datatype StatusCell = StatusCell(text: string, shaded: bool)

  /** The server's rule: a product is short of stock when its stock is below
      its critical level. */
  function ServerStatus(stock: int, critical: int): StatusCell {
    var short := stock < critical;
    StatusCell(if short then InsufficientLabel else SufficientLabel, short)
  }

  /** The row the server renders for a product (numbers written in decimal). */
  function RenderRow(name: string, stock: int, critical: int, category: string): RowCells {
    RowCells(name, IntToString(stock), IntToString(critical), Some(category))
  }

  /** On every row the server renders, the browser's `yetersiz` filter keeps
      exactly the rows labelled short of stock and `yeterli` exactly the
      others, and the shading marks the same rows. */
  lemma ServerLabelAgreesWithFilter(name: string, stock: int, critical: int, category: string)
    ensures var row, cell := RenderRow(name, stock, critical, category), ServerStatus(stock, critical);
      && (PassesStatus(row, Insufficient) <==> cell.text == InsufficientLabel)
      && (PassesStatus(row, Sufficient) <==> cell.text == SufficientLabel)
      && (cell.shaded <==> cell.text == InsufficientLabel)
  {
    ParseIntRoundTrip(stock, Auto);
    ParseIntRoundTrip(critical, Auto);
  }

  /** A row of the table; the handler writes only its display style. */
  class TableRow {
    const cells: RowCells
    var display: string

    constructor (cells: RowCells)
      ensures this.cells == cells && display == ""
    {
      this.cells := cells;
      display := "";
    }
  }

  /** The filter handler's work on one row: compute the three tests from the
      row's cells and show or hide it. */
  method FilterRow(row: TableRow, f: Filters)
    modifies row
    ensures row.display == DisplayStyle(row.cells, f)
  {
    var show := Displayed(row.cells, f);
    row.display := if show then "" else "none";
  }

  /** The click handler of the filter button: every row is shown or hidden by
      its own cells and the filter values alone. */
  method ApplyFilters(rows: seq<TableRow>, f: Filters)
    modifies set r | r in rows
    ensures forall i :: 0 <= i < |rows| ==> rows[i].display == DisplayStyle(rows[i].cells, f)
  {
    for i := 0 to |rows|
      invariant forall j :: 0 <= j < i ==> rows[j].display == DisplayStyle(rows[j].cells, f)
    {
      FilterRow(rows[i], f);
    }
  }
}
