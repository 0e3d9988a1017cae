/** Loosely-typed cells as a pandas frame hands them to the processors. */
module Values {
  import opened Text

  /**
   * One cell: Python's None, a float NaN (how pandas marks an empty CSV
   * cell), a number together with its Python `str()` rendering, or text.
   */
  datatype Raw = Missing | NaN | Num(value: real, repr: string) | Str(s: string)

  /** `pd.isna(x)` */
  predicate IsNA(x: Raw) {
    x.Missing? || x.NaN?
  }

  /** `str(x)` */
  function Render(x: Raw): string {
    match x
    case Missing => "None"
    case NaN => "nan"
    case Num(_, r) => r
    case Str(s) => s
  }

  /** `column.astype(str).str.upper()` applied to one cell. */
  function UpperText(x: Raw): string {
    Upper(Render(x))
  }

  /** `column.fillna(default).astype(str).str.upper()` applied to one cell. */
  function FillUpper(x: Raw, default: string): (r: string)
    ensures NoLower(r)
    ensures IsNA(x) ==> EqualIgnoringCase(r, default)
    ensures !IsNA(x) ==> EqualIgnoringCase(r, Render(x))
  {
    if IsNA(x) then Upper(default) else Upper(Render(x))
  }

  /** An empty cell takes the default, already upper case: `USD` for the currency, `UNKNOWN` for the tier. */
  lemma FillUpperDefaults(x: Raw)
    requires IsNA(x)
    ensures FillUpper(x, "USD") == "USD"
    ensures FillUpper(x, "UNKNOWN") == "UNKNOWN"
  {
    UpperNoLower("USD");
    UpperNoLower("UNKNOWN");
  }
}

/** Calendar dates and UTC timestamps, ordered chronologically. */
module Dates {
  import opened Text
  import opened Wrappers
  import opened Values

  datatype Date = Date(year: nat, month: nat, day: nat)

  /** A parsed instant: its UTC calendar date and the second within that day. */
  datatype Timestamp = Timestamp(date: Date, second: nat)

  predicate DateLe(a: Date, b: Date) {
    || a.year < b.year
    || (a.year == b.year && (a.month < b.month || (a.month == b.month && a.day <= b.day)))
  }

  predicate TimestampLe(a: Timestamp, b: Timestamp) {
    if a.date == b.date then a.second <= b.second else DateLe(a.date, b.date)
  }

  lemma DateLeTotalOrder(a: Date, b: Date, c: Date)
    ensures DateLe(a, b) || DateLe(b, a)
    ensures DateLe(a, b) && DateLe(b, a) ==> a == b
    ensures DateLe(a, b) && DateLe(b, c) ==> DateLe(a, c)
  {
  }

  /** `strftime('%Y-%m-%d')` */
  function FormatDate(d: Date): string {
    ZeroPad(d.year, 4) + "-" + ZeroPad(d.month, 2) + "-" + ZeroPad(d.day, 2)
  }

  /** `str()` of a formatted date column: `strftime` gives NaN for NaT, which prints as `nan`. */
  function DateText(d: Option<Date>): string {
    match d
    case Some(x) => FormatDate(x)
    case None => "nan"
  }

  /**
   * The date parser the processors delegate to (pandas' `to_datetime`
   * with dateutil as fallback). It is not modelled: every operation that
   * parses dates takes it as a parameter.
   */
  type DateParser = Raw -> Option<Timestamp>
}
