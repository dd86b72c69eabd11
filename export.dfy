/**
 * The spreadsheet export: per-row net profit, its sign colour, and the
 * column totals of the summary row.
 */
module Export {
  import opened Basics
  import opened Commission

  /** One invoice as the export request sends it; the text columns pass through unchanged. */
  datatype ExportRow = ExportRow(
    invoiceCode: string,
    clientName: string,
    fileName: string,
    distributorName: string,
    amount: real,
    clientCommission: real,
    distributorCommission: real,
    companyCommission: real,
    paymentStatus: string,
    progressPercent: string,
    invoiceDate: string)

  /** What remains of the amount after the three commissions. */
  function NetProfit(row: ExportRow): (p: real)
    // the net profit and the three commissions together make up the amount
    ensures p + row.clientCommission + row.distributorCommission + row.companyCommission == row.amount
    ensures row.clientCommission >= 0.0 && row.distributorCommission >= 0.0 && row.companyCommission >= 0.0 ==>
              p <= row.amount
  {
    row.amount - row.clientCommission - row.distributorCommission - row.companyCommission
  }

  /** The font colour of a net-profit cell: green is ARGB 008000, red is FF0000. */
  datatype Colour = Green | Red

  /** A non-negative net profit is shown green, a negative one red. */
  function NetProfitColour(netProfit: real): (c: Colour)
    ensures c == Green <==> netProfit >= 0.0
    ensures c == Red <==> netProfit < 0.0
  {
    if netProfit >= 0.0 then Green else Red
  }

  /** The numeric columns the summary row totals. */
  datatype Column = AmountColumn | ClientCommissionColumn | DistributorCommissionColumn | CompanyCommissionColumn

  function Cell(row: ExportRow, col: Column): real {
    match col
    case AmountColumn => row.amount
    case ClientCommissionColumn => row.clientCommission
    case DistributorCommissionColumn => row.distributorCommission
    case CompanyCommissionColumn => row.companyCommission
  }

  /** The total of one column, summed from the first row on as the export does. */
  function ColumnTotal(rows: seq<ExportRow>, col: Column): (total: real)
    ensures |rows| == 1 ==> total == Cell(rows[0], col)
    // a column of non-negative cells has a non-negative total, at least as large as any one cell
    ensures (forall i :: 0 <= i < |rows| ==> Cell(rows[i], col) >= 0.0) ==>
              total >= 0.0 && forall i :: 0 <= i < |rows| ==> Cell(rows[i], col) <= total
    decreases |rows|
  {
    if rows == [] then 0.0 else ColumnTotal(rows[..|rows| - 1], col) + Cell(rows[|rows| - 1], col)
  }

  /** The sum of the rows' own net profits. */
  function NetProfitSum(rows: seq<ExportRow>): real
    decreases |rows|
  {
    if rows == [] then 0.0 else NetProfitSum(rows[..|rows| - 1]) + NetProfit(rows[|rows| - 1])
  }

  /** The summary row's net profit, computed from the column totals, is the sum of the per-row net profits. */
  lemma {:induction false} TotalNetProfitIsRowSum(rows: seq<ExportRow>)
    ensures ColumnTotal(rows, AmountColumn) - ColumnTotal(rows, ClientCommissionColumn)
            - ColumnTotal(rows, DistributorCommissionColumn) - ColumnTotal(rows, CompanyCommissionColumn)
            == NetProfitSum(rows)
    decreases |rows|
  {
    if rows != [] {
      TotalNetProfitIsRowSum(rows[..|rows| - 1]);
    }
  }

  /** A data row of the sheet. */
  datatype SheetRow = SheetRow(cells: ExportRow, netProfit: real, netProfitColour: Colour)

  datatype Summary = Summary(
    totalAmount: real,
    totalClientCommission: real,
    totalDistributorCommission: real,
    totalCompanyCommission: real,
    totalNetProfit: real)

  datatype Sheet = Sheet(rows: seq<SheetRow>, summary: Summary)

  function SheetRowOf(row: ExportRow): SheetRow {
    SheetRow(row, NetProfit(row), NetProfitColour(NetProfit(row)))
  }

  /**
   * The export: a missing or non-list payload is None; it and the empty list
   * are rejected. Otherwise one sheet row per invoice and the summary row.
   */
  function BuildSheet(payload: Option<seq<ExportRow>>): (r: Result<Sheet>)
    ensures r.Err? <==> payload.None? || payload.value == []
    ensures r.Err? ==> r.error == NoExportData
    ensures r.Ok? ==> |r.value.rows| == |payload.value|
    ensures r.Ok? ==> forall i :: 0 <= i < |payload.value| ==>
              && r.value.rows[i].cells == payload.value[i]
              && r.value.rows[i].netProfit + payload.value[i].clientCommission
                 + payload.value[i].distributorCommission + payload.value[i].companyCommission
                 == payload.value[i].amount
              && (r.value.rows[i].netProfitColour == Green <==> r.value.rows[i].netProfit >= 0.0)
    ensures r.Ok? ==> r.value.summary.totalAmount == ColumnTotal(payload.value, AmountColumn)
    ensures r.Ok? ==> r.value.summary.totalClientCommission == ColumnTotal(payload.value, ClientCommissionColumn)
    ensures r.Ok? ==> r.value.summary.totalDistributorCommission == ColumnTotal(payload.value, DistributorCommissionColumn)
    ensures r.Ok? ==> r.value.summary.totalCompanyCommission == ColumnTotal(payload.value, CompanyCommissionColumn)
    // the summary's net profit is the amount total less the three commission totals,
    // which is also the sum of the rows' own net profits
    ensures r.Ok? ==> var t := r.value.summary;
              t.totalNetProfit == t.totalAmount - t.totalClientCommission - t.totalDistributorCommission - t.totalCompanyCommission
    ensures r.Ok? ==> r.value.summary.totalNetProfit == NetProfitSum(payload.value)
  {
    if payload.None? || payload.value == [] then
      Err(NoExportData)
    else
      var rows := payload.value;
      var totalAmount := ColumnTotal(rows, AmountColumn);
      var totalClient := ColumnTotal(rows, ClientCommissionColumn);
      var totalDistributor := ColumnTotal(rows, DistributorCommissionColumn);
      var totalCompany := ColumnTotal(rows, CompanyCommissionColumn);
      TotalNetProfitIsRowSum(rows);
      Ok(Sheet(seq(|rows|, i requires 0 <= i < |rows| => SheetRowOf(rows[i])),
               Summary(totalAmount, totalClient, totalDistributor, totalCompany,
                       totalAmount - totalClient - totalDistributor - totalCompany)))
  }

  /**
   * A row whose commissions were computed from a rate snapshot keeps
   * `amount * (100 - sum of rates) / 100`, so with a non-negative amount and
   * rates summing to at most 100 its net-profit cell is green.
   */
  lemma SnapshotRowNetProfit(row: ExportRow, rates: Rates)
    requires row.clientCommission == CommissionOf(row.amount, rates.clientRate)
    requires row.distributorCommission == CommissionOf(row.amount, rates.distributorRate)
    requires row.companyCommission == CommissionOf(row.amount, rates.companyRate)
    ensures NetProfit(row) * 100.0
            == row.amount * (100.0 - rates.clientRate - rates.distributorRate - rates.companyRate)
    ensures 0.0 <= row.amount && rates.clientRate + rates.distributorRate + rates.companyRate <= 100.0 ==>
              NetProfitColour(NetProfit(row)) == Green
  {
    var total := rates.clientRate + rates.distributorRate + rates.companyRate;
    CommissionsAdd(row.amount, rates);
    assert NetProfit(row) == row.amount - CommissionOf(row.amount, total);
    if 0.0 <= row.amount && total <= 100.0 {
      ScaleMonotone(row.amount, total, 100.0);
    }
  }

  /** Worked example: 1000 less commissions of 50, 30 and 20 nets 900, shown green. */
  lemma NetProfitExample(row: ExportRow)
    requires row.amount == 1000.0 && row.clientCommission == 50.0
    requires row.distributorCommission == 30.0 && row.companyCommission == 20.0
    ensures NetProfit(row) == 900.0 && NetProfitColour(NetProfit(row)) == Green
  {
  }
}
