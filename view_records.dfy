/**
 * The records viewer: the loaded history of alerts, the four text filters
 * (alert id, account number, status, date) and the filtered list they give.
 */
module ViewRecords {
  import opened Wrappers
  import opened Text
  import opened Seqs

  /**
   * An integer JavaScript holds exactly: at most 2^53 - 1 in magnitude, so
   * far below the 10^21 from which `toString` switches to exponent form.
   */
  type SafeInteger = n: int | -0x1F_FFFF_FFFF_FFFF <= n <= 0x1F_FFFF_FFFF_FFFF

  /** A field the backend may send as a string, as a number, or not at all. */
  datatype Raw = Missing | Str(s: string) | Number(n: SafeInteger)

  predicate IsDigit(c: char) {
    '0' <= c <= '9'
  }

  /** The number a string of decimal digits stands for, most significant digit first. */
  function DigitsValue(s: string): nat
    requires forall k :: 0 <= k < |s| ==> IsDigit(s[k])
  {
    if |s| == 0 then 0
    else
      assert IsDigit(s[|s| - 1]);
      DigitsValue(s[..|s| - 1]) * 10 + (s[|s| - 1] as int - '0' as int)
  }

  /** A natural number in decimal, as `toString` writes it: digits only, no leading zero. */
  function Digits(n: nat): (r: string)
    ensures |r| > 0
    ensures forall k :: 0 <= k < |r| ==> IsDigit(r[k])
    ensures DigitsValue(r) == n
    ensures r[0] == '0' ==> n == 0
  {
    if n < 10 then [('0' as int + n) as char]
    else
      var d := Digits(n / 10);
      var r := d + [('0' as int + n % 10) as char];
      assert r[..|r| - 1] == d;
      r
  }

  /** A number written in decimal. */
  function Decimal(n: int): string {
    if n < 0 then "-" + Digits(-n) else Digits(n)
  }

  /**
   * `(v || '').toString()`: a falsy value (absent, `""` or `0`) becomes `""`;
   * a non-empty string is kept and any other number is written in decimal.
   */
  function AsText(v: Raw): (r: string)
    ensures r == "" <==> v.Missing? || v == Str("") || v == Number(0)
    ensures v.Str? ==> r == v.s
    ensures v.Number? && v.n > 0 ==> r == Digits(v.n)
    ensures v.Number? && v.n < 0 ==> r == "-" + Digits(-v.n)
  {
    match v
    case Missing => ""
    case Str(s) => s
    case Number(n) => if n == 0 then "" else Decimal(n)
  }

  /**
   * One historical alert as the filter sees it; `date` is the locale date
   * string of its timestamp, None when it has no timestamp.
   */
  datatype HistoryAlert = HistoryAlert(
    alertId: Raw,
    accountNumber: Raw,
    status: Option<string>,
    date: Option<string>,
    latitude: Option<string>,
    longitude: Option<string>)

  datatype Filters = Filters(alertId: string, accountNumber: string, status: string, date: string)

  const NoFilters := Filters("", "", "", "")

  datatype FilterField = AlertIdField | AccountNumberField | StatusField | DateField

  function FilterValue(f: Filters, field: FilterField): string {
    match field
    case AlertIdField => f.alertId
    case AccountNumberField => f.accountNumber
    case StatusField => f.status
    case DateField => f.date
  }

  /** `{...filters, [field]: value}`: the named filter takes `value`, the other three keep theirs. */
  function WithFilter(f: Filters, field: FilterField, value: string): (r: Filters)
    ensures FilterValue(r, field) == value
    ensures forall g :: g != field ==> FilterValue(r, g) == FilterValue(f, g)
  {
    match field
    case AlertIdField => f.(alertId := value)
    case AccountNumberField => f.(accountNumber := value)
    case StatusField => f.(status := value)
    case DateField => f.(date := value)
  }

  /** The text of a record's field as the filter compares it (before lower-casing). */
  function FieldText(a: HistoryAlert, field: FilterField): string {
    match field
    case AlertIdField => AsText(a.alertId)
    case AccountNumberField => AsText(a.accountNumber)
    case StatusField => a.status.GetOr("")
    case DateField => a.date.GetOr("")
  }

  /** Case-insensitive containment of one filter in one field. */
  predicate FieldPasses(a: HistoryAlert, f: Filters, field: FilterField) {
    Includes(ToLower(FieldText(a, field)), ToLower(FilterValue(f, field)))
  }

  /** The record passes all four filters. */
  predicate Matches(a: HistoryAlert, f: Filters) {
    FieldPasses(a, f, AlertIdField) && FieldPasses(a, f, AccountNumberField) &&
    FieldPasses(a, f, StatusField) && FieldPasses(a, f, DateField)
  }

  /** The filtered list: the loaded records that pass, in load order. */
  function FilterAlerts(alerts: seq<HistoryAlert>, f: Filters): (r: seq<HistoryAlert>)
    ensures forall a :: a in r <==> a in alerts && Matches(a, f)
    ensures forall a :: Matches(a, f) ==> multiset(r)[a] == multiset(alerts)[a]
    ensures IsSubseq(r, alerts)
  {
    var r := Filter(alerts, a => Matches(a, f));
    forall a ensures a in r <==> a in alerts && Matches(a, f) {
      FilterMembership(alerts, a => Matches(a, f), a);
    }
    r
  }

  /** With every filter empty the filtered list is the loaded list. */
  lemma EmptyFiltersShowAll(alerts: seq<HistoryAlert>)
    ensures FilterAlerts(alerts, NoFilters) == alerts
  {
    forall i | 0 <= i < |alerts| ensures Matches(alerts[i], NoFilters) {
      forall field ensures FieldPasses(alerts[i], NoFilters, field) {
        IncludesEmpty(ToLower(FieldText(alerts[i], field)), "");
      }
    }
    FilterKeepsAll(alerts, a => Matches(a, NoFilters));
  }

  /** A field the record lacks passes exactly when its filter is empty. */
  lemma MissingFieldPassesOnlyEmpty(a: HistoryAlert, f: Filters, field: FilterField)
    requires FieldText(a, field) == ""
    ensures FieldPasses(a, f, field) <==> FilterValue(f, field) == ""
  {
    IncludesEmpty("", ToLower(FilterValue(f, field)));
  }

  /** A record lacking all four fields passes only when no filter is set. */
  lemma BlankRecordMatchesOnlyNoFilters(a: HistoryAlert, f: Filters)
    requires a.alertId.Missing? && a.accountNumber.Missing? && a.status.None? && a.date.None?
    ensures Matches(a, f) <==> f == NoFilters
  {
    MissingFieldPassesOnlyEmpty(a, f, AlertIdField);
    MissingFieldPassesOnlyEmpty(a, f, AccountNumberField);
    MissingFieldPassesOnlyEmpty(a, f, StatusField);
    MissingFieldPassesOnlyEmpty(a, f, DateField);
  }

  /** Re-filtering the filtered list with the same filters changes nothing. */
  lemma FilterAlertsIdempotent(alerts: seq<HistoryAlert>, f: Filters)
    ensures FilterAlerts(FilterAlerts(alerts, f), f) == FilterAlerts(alerts, f)
  {
    FilterKeepsAll(FilterAlerts(alerts, f), a => Matches(a, f));
  }

  /** What the records request produced: a non-ok status, a JSON body, or a network/parse failure. */
  datatype Response = NotOk | Body(body: Json) | Failed

  /** The JSON body: an array of records, or anything else. */
  datatype Json = JsonArray(items: seq<HistoryAlert>) | JsonOther

  /** The rows a response loads: the array's items, and nothing on every failure. */
  function LoadedRows(response: Response): (r: seq<HistoryAlert>)
    ensures response.Body? && response.body.JsonArray? ==> r == response.body.items
    ensures !(response.Body? && response.body.JsonArray?) ==> r == []
  {
    match response
    case Body(JsonArray(items)) => items
    case _ => []
  }

  /** What the page shows. */
  datatype Screen = Loading | NoData | Table(rows: seq<HistoryAlert>)

  class RecordsView {
    var alerts: seq<HistoryAlert>
    var filteredAlerts: seq<HistoryAlert>
    var isLoading: bool
    var filters: Filters

    constructor ()
      ensures alerts == [] && filteredAlerts == [] && isLoading && filters == NoFilters
    {
      alerts, filteredAlerts, isLoading, filters := [], [], true, NoFilters;
    }

    /** The loading message, the empty-data view with its Refresh button, or the table. */
    function View(): (s: Screen)
      reads this
      ensures s == Loading <==> isLoading
      ensures s == NoData <==> !isLoading && alerts == []
      ensures s.Table? ==> !isLoading && alerts != [] && s.rows == filteredAlerts
    {
      if isLoading then Loading else if |alerts| == 0 then NoData else Table(filteredAlerts)
    }

    /** A load (on mount and on Refresh): both lists take the loaded rows; loading ends on every outcome. */
    method FetchHandledAlerts(response: Response)
      modifies this
      ensures alerts == LoadedRows(response) && filteredAlerts == LoadedRows(response)
      ensures !isLoading && filters == old(filters)
    {
      isLoading := true;
      alerts := LoadedRows(response);
      filteredAlerts := alerts;
      isLoading := false;
    }

    /** The effect that runs after every change of `filters` or `alerts`. */
    method ApplyFilters()
      modifies this
      ensures filteredAlerts == FilterAlerts(alerts, filters)
      ensures alerts == old(alerts) && filters == old(filters) && isLoading == old(isLoading)
    {
      filteredAlerts := FilterAlerts(alerts, filters);
    }

    /** Typing in the alert-id, account-number or date box. */
    method HandleFilterChange(field: FilterField, value: string)
      modifies this
      ensures filters == WithFilter(old(filters), field, value)
      ensures alerts == old(alerts) && filteredAlerts == old(filteredAlerts) && isLoading == old(isLoading)
    {
      filters := WithFilter(filters, field, value);
    }

    /** Picking a status from the combo box: its text becomes the status filter. */
    method HandleStatusChange(itemText: string)
      modifies this
      ensures filters == old(filters).(status := itemText)
      ensures alerts == old(alerts) && filteredAlerts == old(filteredAlerts) && isLoading == old(isLoading)
    {
      filters := WithFilter(filters, StatusField, itemText);
    }

    method HandleClearFilters()
      modifies this
      ensures filters == NoFilters
      ensures alerts == old(alerts) && filteredAlerts == old(filteredAlerts) && isLoading == old(isLoading)
    {
      filters := NoFilters;
    }
  }

  /** After Clear and the effect that follows it, the table lists every loaded record. */
  method ClearShowsAll(view: RecordsView)
    modifies view
    ensures view.filters == NoFilters && view.filteredAlerts == old(view.alerts)
  {
    view.HandleClearFilters();
    view.ApplyFilters();
    EmptyFiltersShowAll(view.alerts);
  }
}
