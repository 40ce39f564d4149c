/** The report form (src/components/modals/ReportModal.jsx): the year and month options,
    the choice of endpoint, parameters and file name by report type and format, and
    the outcome of generating a report. The CSV document itself is Csv.ReportCsv. */
module ReportModal {
  import opened Wrappers
  import opened Js
  import opened Csv

  datatype MonthOption = MonthOption(value: int, name: string)

  /** `months`: the options of the month selector. */
  const Months: seq<MonthOption> := [
    MonthOption(1, "Enero"), MonthOption(2, "Febrero"), MonthOption(3, "Marzo"),
    MonthOption(4, "Abril"), MonthOption(5, "Mayo"), MonthOption(6, "Junio"),
    MonthOption(7, "Julio"), MonthOption(8, "Agosto"), MonthOption(9, "Septiembre"),
    MonthOption(10, "Octubre"), MonthOption(11, "Noviembre"), MonthOption(12, "Diciembre")]

  /** The month selector offers the twelve months in calendar order. */
  lemma MonthsInOrder()
    ensures |Months| == 12
    ensures forall i | 0 <= i < |Months| :: Months[i].value == i + 1
  {
  }

  /** `years`: the current year and the four before it, newest first. */
  function Years(currentYear: int): (years: seq<int>)
    ensures |years| == 5 && years[0] == currentYear
    ensures forall i, j | 0 <= i < j < |years| :: years[i] > years[j]
    ensures forall y | y in years :: currentYear - 4 <= y <= currentYear
  {
    seq(5, i requires 0 <= i < 5 => currentYear - i)
  }

  const InventoryEndpoint := "/dashboard/inventory-report-month"
  const MovementsEndpoint := "/dashboard/movements-report-month"
  const LowStockEndpoint := "/dashboard/low-stock-report"
  const InvalidType := "Tipo de reporte no válido"
  const GenerateFailed := "Error al generar el reporte"
  const NoData := "No hay datos para exportar"
  const Generated := "Reporte generado exitosamente"

  /** The request a report needs: where, with which parameters, saved under which name. */
  datatype ReportRequest = ReportRequest(endpoint: string, params: map<string, Value>, filename: string)

  /** The file extension of a format: PDF for "pdf", CSV for anything else. */
  function Extension(format: string): (ext: string)
    ensures |ext| == 4
    ensures ext == ".pdf" <==> format == "pdf"
  {
    if format == "pdf" then ".pdf" else ".csv"
  }

  /** The name of a monthly report: `<stem>_<year>_<month>.<ext>`. */
  function MonthlyName(stem: string, year: int, month: int, format: string): string {
    stem + "_" + IntToString(year) + "_" + IntToString(month) + Extension(format)
  }

  predicate IsMonthly(reportType: string) {
    reportType == "inventory" || reportType == "movements"
  }

  /** The switch of `handleGenerateReport`; `today` is the ISO date the low-stock file is
      named after. */
  function SelectReport(reportType: string, format: string, year: int, month: int, today: string)
    : (r: Result<ReportRequest, string>)
    ensures r.Success? <==> IsMonthly(reportType) || reportType == "lowStock"
    ensures r.Failure? ==> r.error == InvalidType
    ensures r.Success? ==> "format" in r.value.params && r.value.params["format"] == Str(format)
    ensures r.Success? ==> var name := r.value.filename;
              |name| >= 4 && (name[|name| - 4..] == ".pdf" <==> format == "pdf")
    ensures IsMonthly(reportType) ==>
              r.value.params == map["format" := Str(format), "year" := Num(year), "month" := Num(month)]
    ensures reportType == "lowStock" ==>
              r.value == ReportRequest(LowStockEndpoint, map["format" := Str(format)],
                                       "stock_bajo_" + today + Extension(format))
    ensures reportType == "inventory" ==>
              r.value.endpoint == InventoryEndpoint && r.value.filename == MonthlyName("inventario", year, month, format)
    ensures reportType == "movements" ==>
              r.value.endpoint == MovementsEndpoint && r.value.filename == MonthlyName("movimientos", year, month, format)
  {
    var params := map["format" := Str(format)];
    var monthly := params["year" := Num(year)]["month" := Num(month)];
    if reportType == "inventory" then
      Success(ReportRequest(InventoryEndpoint, monthly, MonthlyName("inventario", year, month, format)))
    else if reportType == "lowStock" then
      Success(ReportRequest(LowStockEndpoint, params, "stock_bajo_" + today + Extension(format)))
    else if reportType == "movements" then
      Success(ReportRequest(MovementsEndpoint, monthly, MonthlyName("movimientos", year, month, format)))
    else
      Failure(InvalidType)
  }

  /** A numeral never holds '_'. */
  lemma NoUnderscore(n: int)
    ensures forall i | 0 <= i < |IntToString(n)| :: IntToString(n)[i] != '_'
  {
    if n < 0 {
      assert forall i | 1 <= i < |IntToString(n)| :: IntToString(n)[i] == NatToString(-n)[i - 1];
    }
  }

  /** Two strings that end in '_' and a numeral agree when the numerals and what comes
      before the '_' agree. */
  lemma NumeralSuffix(prefixA: string, a: int, prefixB: string, b: int)
    requires prefixA + "_" + IntToString(a) == prefixB + "_" + IntToString(b)
    ensures a == b && prefixA == prefixB
  {
    var x, y := IntToString(a), IntToString(b);
    var s := prefixA + "_" + x;
    NoUnderscore(a);
    NoUnderscore(b);
    assert s[|s| - |x| - 1] == '_';
    assert (prefixB + "_" + y)[|s| - |y| - 1] == '_';
    assert |x| == |y|;
    assert x == s[|s| - |x|..];
    assert y == s[|s| - |y|..];
    assert prefixA == s[..|prefixA|];
    assert prefixB == s[..|prefixB|];
    ParseIntOfIntToString(a);
    ParseIntOfIntToString(b);
  }

  lemma CancelPrefix(p: string, a: string, b: string)
    requires p + a == p + b
    ensures a == b
  {
    assert a == (p + a)[|p|..];
    assert b == (p + b)[|p|..];
  }

  lemma CancelSuffix(a: string, b: string, q: string)
    requires a + q == b + q
    ensures a == b
  {
    assert a == (a + q)[..|a|];
    assert b == (b + q)[..|b|];
  }

  /** Monthly reports of different periods never get the same file name. */
  lemma MonthlyNamesDistinct(stem: string, y1: int, m1: int, y2: int, m2: int, format: string)
    requires MonthlyName(stem, y1, m1, format) == MonthlyName(stem, y2, m2, format)
    ensures y1 == y2 && m1 == m2
  {
    var ext := Extension(format);
    var p1 := stem + "_" + IntToString(y1);
    var p2 := stem + "_" + IntToString(y2);
    CancelSuffix(p1 + "_" + IntToString(m1), p2 + "_" + IntToString(m2), ext);
    NumeralSuffix(p1, m1, p2, m2);
    CancelPrefix(stem + "_", IntToString(y1), IntToString(y2));
    ParseIntOfIntToString(y1);
    ParseIntOfIntToString(y2);
  }

  /** How the transfer ended: a PDF or the report rows were delivered (`data` is the
      response body, read only for CSV), or the request failed, with the server's
      message if it sent one. */
  datatype Transfer = Delivered(data: Option<seq<Row>>) | Failed(serverMessage: Option<string>)

  /** The alert of a failure: `error.response?.data?.message || 'Error al generar el reporte'`. */
  function FailureAlert(serverMessage: Option<string>): (alert: string)
    ensures alert != ""
    ensures serverMessage.Some? && serverMessage.value != "" ==> alert == serverMessage.value
    ensures serverMessage.None? || serverMessage.value == "" ==> alert == GenerateFailed
  {
    if serverMessage.Some? && serverMessage.value != "" then serverMessage.value else GenerateFailed
  }

  class ReportModal {
    var reportType: string
    var selectedYear: int
    var selectedMonth: int
    var format: string
    var loading: bool

    /** The initial state; the current year and month come from the clock. */
    constructor(currentYear: int, currentMonth: int)
      ensures reportType == "inventory" && format == "csv" && !loading
      ensures selectedYear == currentYear && selectedMonth == currentMonth
    {
      reportType := "inventory";
      selectedYear := currentYear;
      selectedMonth := currentMonth;
      format := "csv";
      loading := false;
    }

    /** `handleGenerateReport`: the request for the chosen type and format (none for an
        unknown type), the CSV document built from delivered rows, the alerts shown in
        order, and whether the form closes. `loading` is false afterwards on every path. */
    method GenerateReport(today: string, transfer: Transfer)
      returns (request: Option<ReportRequest>, csv: Option<string>, alerts: seq<string>, closed: bool)
      modifies this
      ensures reportType == old(reportType) && format == old(format)
      ensures selectedYear == old(selectedYear) && selectedMonth == old(selectedMonth)
      ensures !loading
      ensures var r := SelectReport(reportType, format, selectedYear, selectedMonth, today);
              && (r.Failure? ==> request == None && csv == None && alerts == [GenerateFailed] && !closed)
              && (r.Success? ==> request == Some(r.value))
      ensures request.Some? && transfer.Failed? ==>
                csv == None && alerts == [FailureAlert(transfer.serverMessage)] && !closed
      ensures request.Some? && transfer.Delivered? && format == "pdf" ==>
                csv == None && alerts == [Generated] && closed
      ensures request.Some? && transfer.Delivered? && format != "pdf" ==>
                && csv == ReportCsv(transfer.data)
                && alerts == (if csv.None? then [NoData, Generated] else [Generated])
                && closed
    {
      loading := true;
      csv, alerts, closed := None, [], false;
      request := BuildRequest(reportType, format, selectedYear, selectedMonth, today);
      if request.None? {
        // The thrown error has no response, so the default message is shown.
        alerts := [GenerateFailed];
        loading := false;
        return;
      }
      match transfer {
        case Failed(message) =>
          alerts := [FailureAlert(message)];
        case Delivered(data) =>
          if format != "pdf" {
            csv := ReportCsv(data);
            if csv.None? {
              alerts := alerts + [NoData];
            }
          }
          alerts := alerts + [Generated];
          closed := true;
      }
      loading := false;
    }
  }

  /** The `switch (reportType)` of `handleGenerateReport`: `endpoint`, `filename` and
      `params` assigned case by case; no request for an unknown type. */
  method BuildRequest(reportType: string, format: string, year: int, month: int, today: string)
    returns (request: Option<ReportRequest>)
    ensures var r := SelectReport(reportType, format, year, month, today);
            request == if r.Success? then Some(r.value) else None
  {
    var endpoint: string;
    var filename: string;
    var params: map<string, Value> := map["format" := Str(format)];
    if reportType == "inventory" {
      endpoint := InventoryEndpoint;
      params := params["year" := Num(year)]["month" := Num(month)];
      filename := MonthlyName("inventario", year, month, format);
    } else if reportType == "lowStock" {
      endpoint := LowStockEndpoint;
      filename := "stock_bajo_" + today + Extension(format);
    } else if reportType == "movements" {
      endpoint := MovementsEndpoint;
      params := params["year" := Num(year)]["month" := Num(month)];
      filename := MonthlyName("movimientos", year, month, format);
    } else {
      return None;
    }
    request := Some(ReportRequest(endpoint, params, filename));
  }
}
