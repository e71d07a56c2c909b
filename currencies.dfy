/**
 * The currency table shared by the price proxy and the page: the `CurrencyCode`
 * union of ten literals and the constant `CURRENCIES` list of (code, name) pairs.
 */
module Currencies {

  /** The `CurrencyCode` union: exactly ten literals. */
  datatype CurrencyCode = USD | EUR | JPY | GBP | AUD | CAD | CHF | CNY | HKD | IDR

  /** The text of a code, which is what the page shows and what keys `prices`. */
  function Code(c: CurrencyCode): (s: string)
    ensures |s| == 3
    ensures forall k :: 0 <= k < |s| ==> 'A' <= s[k] <= 'Z'
  {
    match c
    case USD => "USD"
    case EUR => "EUR"
    case JPY => "JPY"
    case GBP => "GBP"
    case AUD => "AUD"
    case CAD => "CAD"
    case CHF => "CHF"
    case CNY => "CNY"
    case HKD => "HKD"
    case IDR => "IDR"
  }

  /** Distinct codes have distinct texts, so the text alone identifies a code. */
  lemma CodeInjective(c: CurrencyCode, d: CurrencyCode)
    ensures Code(c) == Code(d) ==> c == d
  {
  }

  /** ASCII lower-casing, as the upstream API spells the codes. */
  function Lower(s: string): (t: string)
    ensures |t| == |s|
    ensures forall k :: 0 <= k < |s| ==> t[k] == if 'A' <= s[k] <= 'Z' then (s[k] as int + 32) as char else s[k]
  {
    if s == [] then []
    else [if 'A' <= s[0] <= 'Z' then (s[0] as int + 32) as char else s[0]] + Lower(s[1..])
  }

  /**
   * The name under which the upstream payload carries the price in currency `c`,
   * as the proxy's success payload pairs them.
   */
  function UpstreamKey(c: CurrencyCode): string
  {
    match c
    case USD => "usd"
    case EUR => "eur"
    case JPY => "jpy"
    case GBP => "gbp"
    case AUD => "aud"
    case CAD => "cad"
    case CHF => "chf"
    case CNY => "cny"
    case HKD => "hkd"
    case IDR => "idr"
  }

  datatype Currency = Currency(code: CurrencyCode, name: string)

  /** The table, in the order in which the page lists its rows. */
  const CURRENCIES: seq<Currency> := [
    Currency(USD, "US Dollar"),
    Currency(EUR, "Euro"),
    Currency(JPY, "Japanese Yen"),
    Currency(GBP, "British Pound"),
    Currency(AUD, "Australian Dollar"),
    Currency(CAD, "Canadian Dollar"),
    Currency(CHF, "Swiss Franc"),
    Currency(CNY, "Chinese Yuan"),
    Currency(HKD, "Hong Kong Dollar"),
    Currency(IDR, "Indonesian Rupiah")
  ]

  /** The codes of a table, in table order. */
  function CodesOf(table: seq<Currency>): seq<CurrencyCode>
  {
    seq(|table|, i requires 0 <= i < |table| => table[i].code)
  }

  /** The table order is fixed: USD, EUR, JPY, GBP, AUD, CAD, CHF, CNY, HKD, IDR. */
  lemma TableOrder()
    ensures CodesOf(CURRENCIES) == [USD, EUR, JPY, GBP, AUD, CAD, CHF, CNY, HKD, IDR]
  {
  }

  /** The set of codes that occur in the table. */
  function TableCodes(): set<CurrencyCode>
  {
    set i | 0 <= i < |CURRENCIES| :: CURRENCIES[i].code
  }

  /** Every member of the `CurrencyCode` union has a row of the table. */
  function IndexOf(c: CurrencyCode): (i: nat)
    ensures i < |CURRENCIES| && CURRENCIES[i].code == c
  {
    match c
    case USD => 0
    case EUR => 1
    case JPY => 2
    case GBP => 3
    case AUD => 4
    case CAD => 5
    case CHF => 6
    case CNY => 7
    case HKD => 8
    case IDR => 9
  }

  /** The codes of the table are pairwise distinct. */
  lemma CodesDistinct()
    ensures forall i, j :: 0 <= i < j < |CURRENCIES| ==> CURRENCIES[i].code != CURRENCIES[j].code
  {
  }

  /** The ten literals of the union, as a set. */
  const ALL_CODES: set<CurrencyCode> := {USD, EUR, JPY, GBP, AUD, CAD, CHF, CNY, HKD, IDR}

  lemma InAllCodes(c: CurrencyCode)
    ensures c in ALL_CODES
  {
  }

  /** Every member of the union occurs in the table. */
  lemma TableCoversUnion()
    ensures forall c: CurrencyCode :: c in TableCodes()
  {
    forall c: CurrencyCode ensures c in TableCodes() {
      var i := IndexOf(c);
      assert CURRENCIES[i].code == c;
    }
  }

  /** The union has ten members. */
  lemma AllCodesSize()
    ensures |ALL_CODES| == 10
  {
  }

  /**
   * The table has ten rows and its code set is the whole `CurrencyCode` union of
   * ten literals; with `CodesDistinct`, the table lists every code exactly once.
   */
  lemma TableIsTheUnion()
    ensures |CURRENCIES| == 10
    ensures TableCodes() == ALL_CODES
    ensures |TableCodes()| == 10
  {
    TableCoversUnion();
    forall c | c in TableCodes() ensures c in ALL_CODES { InAllCodes(c); }
    AllCodesSize();
  }

  /**
   * Each upstream name is the lower-case spelling of its code, so the pairing is
   * one-to-one and no two codes read the same upstream field.
   */
  lemma UpstreamKeyIsLowerCode(c: CurrencyCode)
    ensures UpstreamKey(c) == Lower(Code(c))
  {
  }
}
