/**
 * A price parsed from the shapes the print API returns it in: either a
 * dictionary from currency code to amount, or a list of dictionaries that each
 * carry a `currency` and an `amount` (Photobook/Model/Order/Price.swift).
 */
module Pricing {
  import opened Wrappers

  /** A binary floating-point amount as decoded from JSON; never inspected here. */
  type Double(==)

  /** A decimal amount; never inspected here. */
  type Decimal(==)

  /** What a value of a decoded `[String: Any]` dictionary can be, as far as price parsing tells them apart. */
  datatype Value = Number(amount: Double) | Text(text: string) | OtherValue

  type Dictionary = map<string, Value>

  /** The currency used when the locale's currency has no entry. */
  const CurrencyCodeDefault: string := "GBP"

  /** The platform services parsing depends on. */
  datatype Environment = Environment(
    /** `Locale.current.currencyCode` */
    localeCurrency: Option<string>,
    /** `Decimal(_: Double)` */
    toDecimal: Double -> Decimal,
    /** a `NumberFormatter` in currency style for the given code; `None` when it cannot format */
    format: (string, Decimal) -> Option<string>)

  datatype Price = Price(currencyCode: string, value: Decimal, formatted: string)

  /** The failable initialiser: it keeps the code and value it is given and fails exactly when formatting fails. */
  function MakePrice(currencyCode: string, value: Decimal, env: Environment): (r: Option<Price>)
    ensures r.Some? <==> env.format(currencyCode, value).Some?
    ensures r.Some? ==> r.value.currencyCode == currencyCode && r.value.value == value
    ensures r.Some? ==> Some(r.value.formatted) == env.format(currencyCode, value)
  {
    match env.format(currencyCode, value)
    case None => None
    case Some(formatted) => Some(Price(currencyCode, value, formatted))
  }

  /** The `as? [String: Double]` cast succeeds exactly when every value is a number. */
  predicate AllNumbers(d: Dictionary) {
    forall k :: k in d ==> d[k].Number?
  }

  /** The locale has a currency and the dictionary has an entry for it. */
  predicate HasLocaleEntry(d: Dictionary, env: Environment) {
    env.localeCurrency.Some? && env.localeCurrency.value in d
  }

  /** Parses a currency-to-amount dictionary, preferring the locale's currency and falling back to GBP. */
  function ParseDictionary(d: Dictionary, env: Environment): (r: Option<Price>)
    // only an all-number dictionary parses
    ensures !AllNumbers(d) ==> r.None?
    // the currency is the locale's when it has an entry, otherwise GBP
    ensures r.Some? ==> r.value.currencyCode == (if HasLocaleEntry(d, env) then env.localeCurrency.value else CurrencyCodeDefault)
    // and the value is the entry for that currency
    ensures r.Some? ==> r.value.currencyCode in d && d[r.value.currencyCode].Number?
                        && r.value.value == env.toDecimal(d[r.value.currencyCode].amount)
    // neither the locale's currency nor GBP: no price
    ensures AllNumbers(d) && !HasLocaleEntry(d, env) && CurrencyCodeDefault !in d ==> r.None?
    // otherwise only a formatting failure can stop it
    ensures AllNumbers(d) && HasLocaleEntry(d, env) ==>
              r == MakePrice(env.localeCurrency.value, env.toDecimal(d[env.localeCurrency.value].amount), env)
    ensures AllNumbers(d) && !HasLocaleEntry(d, env) && CurrencyCodeDefault in d ==>
              r == MakePrice(CurrencyCodeDefault, env.toDecimal(d[CurrencyCodeDefault].amount), env)
  {
    if !AllNumbers(d) then None
    else if HasLocaleEntry(d, env) then
      var code := env.localeCurrency.value;
      MakePrice(code, env.toDecimal(d[code].amount), env)
    else if CurrencyCodeDefault in d then
      MakePrice(CurrencyCodeDefault, env.toDecimal(d[CurrencyCodeDefault].amount), env)
    else None
  }

  /** The dictionary's `currency` entry when it is a string. */
  function Currency(d: Dictionary): Option<string> {
    if "currency" in d && d["currency"].Text? then Some(d["currency"].text) else None
  }

  /** The index of the first dictionary whose `currency` is `code`. */
  function FirstWithCurrency(ds: seq<Dictionary>, code: string): (r: Option<nat>)
    ensures r.Some? ==> r.value < |ds| && Currency(ds[r.value]) == Some(code)
    ensures r.Some? ==> forall j :: 0 <= j < r.value ==> Currency(ds[j]) != Some(code)
    ensures r.None? ==> forall j :: 0 <= j < |ds| ==> Currency(ds[j]) != Some(code)
  {
    if ds == [] then None
    else if Currency(ds[0]) == Some(code) then Some(0)
    else match FirstWithCurrency(ds[1..], code)
      case None => None
      case Some(i) => Some(i + 1)
  }

  /** The dictionary a list parse reads: the first in the locale's currency, else the first of all. */
  function RelevantDictionary(ds: seq<Dictionary>, env: Environment): (r: Option<Dictionary>)
    ensures r.None? <==> ds == []
    ensures r.Some? ==> r.value in ds
    // a dictionary in the locale's currency is chosen, and the first such one
    ensures env.localeCurrency.Some? && (exists j :: 0 <= j < |ds| && Currency(ds[j]) == env.localeCurrency) ==>
              exists i :: 0 <= i < |ds| && r == Some(ds[i]) && Currency(ds[i]) == env.localeCurrency
                          && forall j :: 0 <= j < i ==> Currency(ds[j]) != env.localeCurrency
    // with none in the locale's currency, or no locale currency, the first is chosen
    ensures ds != [] && (env.localeCurrency.None? || forall j :: 0 <= j < |ds| ==> Currency(ds[j]) != env.localeCurrency) ==>
              r == Some(ds[0])
  {
    if ds == [] then None
    else if env.localeCurrency.Some? && FirstWithCurrency(ds, env.localeCurrency.value).Some? then
      Some(ds[FirstWithCurrency(ds, env.localeCurrency.value).value])
    else Some(ds[0])
  }

  /** The price read from the chosen dictionary; a missing `currency` string or `amount` number gives none. */
  function PriceOf(d: Option<Dictionary>, env: Environment): (r: Option<Price>)
    ensures d.None? ==> r.None?
    ensures d.Some? && (Currency(d.value).None? || "amount" !in d.value || !d.value["amount"].Number?) ==> r.None?
    ensures r.Some? ==> Some(r.value.currencyCode) == Currency(d.value)
                        && r.value.value == env.toDecimal(d.value["amount"].amount)
    // a `currency` string and an `amount` number give the price built from them
    ensures d.Some? && Currency(d.value).Some? && "amount" in d.value && d.value["amount"].Number? ==>
              r == MakePrice(Currency(d.value).value, env.toDecimal(d.value["amount"].amount), env)
  {
    match d
    case None => None
    case Some(dict) =>
      if Currency(dict).Some? && "amount" in dict && dict["amount"].Number? then
        MakePrice(Currency(dict).value, env.toDecimal(dict["amount"].amount), env)
      else None
  }

  /**
   * Parses a list of currency/amount dictionaries: scans for the first one in
   * the locale's currency, keeps the first dictionary otherwise, and reads the
   * price from the one it settled on only, with no fallback to another.
   */
  method ParseDictionaries(ds: seq<Dictionary>, env: Environment) returns (r: Option<Price>)
    ensures r == PriceOf(RelevantDictionary(ds, env), env)
  {
    var relevant: Option<Dictionary> := if |ds| > 0 then Some(ds[0]) else None;
    if env.localeCurrency.Some? {
      var code := env.localeCurrency.value;
      var i := 0;
      while i < |ds|
        invariant 0 <= i <= |ds|
        invariant forall j :: 0 <= j < i ==> Currency(ds[j]) != Some(code)
        invariant relevant == if |ds| > 0 then Some(ds[0]) else None
      {
        if Currency(ds[i]) == Some(code) {
          assert FirstWithCurrency(ds, code) == Some(i);
          relevant := Some(ds[i]);
          break;
        }
        i := i + 1;
      }
    }
    r := PriceOf(relevant, env);
  }
}
