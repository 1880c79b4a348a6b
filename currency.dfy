/**
 * The currency provider: the fixed table of seven currencies keyed by code,
 * the selected currency, conversion from US dollars by the table's rate, and
 * the branching of `formatAmount` and `formatAmountShort` that decides the
 * symbol, the separator, how the number is rendered and the magnitude
 * suffix. The digits themselves come from the platform's number formatting
 * and are represented by how the number is to be rendered, not by text.
 */
module Currency {

  datatype Code = PKR | USD | EUR | GBP | AED | SAR | INR

  datatype Currency = Currency(code: Code, symbol: string, name: string, rate: real)

  /** `CURRENCIES[code]`: every entry carries its own key as its code, and a positive rate. */
  function Lookup(code: Code): (c: Currency)
    ensures c.code == code
    ensures c.rate > 0.0
    ensures c.symbol != ""
  {
    match code
    case PKR => Currency(PKR, "Rs", "Pakistani Rupee", 278.50)
    case USD => Currency(USD, "$", "US Dollar", 1.0)
    case EUR => Currency(EUR, "€", "Euro", 0.92)
    case GBP => Currency(GBP, "£", "British Pound", 0.79)
    case AED => Currency(AED, "AED", "UAE Dirham", 3.67)
    case SAR => Currency(SAR, "SAR", "Saudi Riyal", 3.75)
    case INR => Currency(INR, "₹", "Indian Rupee", 83.12)
  }

  /** `Object.values(CURRENCIES)`: the seven entries, each code once, in table order. */
  function AvailableCurrencies(): (r: seq<Currency>)
    ensures |r| == 7
    ensures forall code :: Lookup(code) in r
    ensures forall i, j :: 0 <= i < j < |r| ==> r[i].code != r[j].code
  {
    [Lookup(PKR), Lookup(USD), Lookup(EUR), Lookup(GBP), Lookup(AED), Lookup(SAR), Lookup(INR)]
  }

  /** `convertFromUSD`: at a positive rate the sign of the amount is kept, and a rate of 1 changes nothing. */
  function Convert(c: Currency, amountInUSD: real): (r: real)
    ensures c.rate > 0.0 ==> (r >= 0.0 <==> amountInUSD >= 0.0)
    ensures c.rate == 1.0 ==> r == amountInUSD
  {
    amountInUSD * c.rate
  }

  lemma ConvertUSDIsIdentity(amountInUSD: real)
    ensures Convert(Lookup(USD), amountInUSD) == amountInUSD
  {
  }

  /** A larger amount in dollars never shows as a smaller amount in any currency of the table. */
  lemma ConvertMonotone(code: Code, a: real, b: real)
    requires a <= b
    ensures Convert(Lookup(code), a) <= Convert(Lookup(code), b)
  {
    var rate := Lookup(code).rate;
    assert (b - a) * rate >= 0.0;
  }

  /**
   * The dollar amount is recovered from what any currency displays: the
   * selection changes only the rate used for display, never the amount.
   */
  lemma ConvertRecoverable(code: Code, amountInUSD: real)
    ensures Convert(Lookup(code), amountInUSD) / Lookup(code).rate == amountInUSD
  {
  }

  /** The codes whose amounts are shown with a space after the symbol and without decimals. */
  predicate UsesLocalNumbering(code: Code)
  {
    code == PKR || code == INR
  }

  /** How a number is turned into digits: `toLocaleString` with a locale and fixed decimals, `toLocaleString()`, or `toFixed`. */
  datatype Rendering = Localized(locale: string, fractionDigits: nat) | LocalizedDefault | Fixed(fractionDigits: nat)

  /** A formatted amount: symbol, separator, the number and how it is rendered, and a magnitude suffix. */
  datatype Display = Display(symbol: string, separator: string, value: real, rendering: Rendering, suffix: string)

  /** The text of a display, given the digits the platform renders for its number. */
  function Text(d: Display, digits: string): string
  {
    d.symbol + d.separator + digits + d.suffix
  }

  /** `Math.round`: the nearest integer, halves rounded up. */
  function Round(x: real): real
  {
    (x + 0.5).Floor as real
  }

  /** `formatAmount`. */
  function FormatAmount(c: Currency, amountInUSD: real): (d: Display)
    ensures d.symbol == c.symbol && d.suffix == ""
    ensures d.value == Convert(c, amountInUSD)
    ensures d.separator == (if UsesLocalNumbering(c.code) then " " else "")
    ensures d.rendering.Localized?
    ensures d.rendering.fractionDigits == (if UsesLocalNumbering(c.code) then 0 else 2)
  {
    var converted := Convert(c, amountInUSD);
    if c.code == PKR || c.code == INR then
      Display(c.symbol, " ", converted, Localized("en-PK", 0), "")
    else
      Display(c.symbol, "", converted, Localized("en-US", 2), "")
  }

  /** `formatAmountShort`. */
  function FormatAmountShort(c: Currency, amountInUSD: real): (d: Display)
    ensures d.symbol == c.symbol
    ensures d.suffix == "M" <==> Convert(c, amountInUSD) >= 1000000.0
    ensures d.suffix == "K" <==> 1000.0 <= Convert(c, amountInUSD) < 1000000.0
    ensures d.suffix == "" <==> Convert(c, amountInUSD) < 1000.0
    ensures d.suffix != "" ==> d.separator == "" && d.rendering == Fixed(1)
    ensures d.suffix == "M" ==> d.value == Convert(c, amountInUSD) / 1000000.0
    ensures d.suffix == "K" ==> d.value == Convert(c, amountInUSD) / 1000.0
    ensures d.suffix == "" && UsesLocalNumbering(c.code) ==>
              d.separator == " " && d.value == Round(Convert(c, amountInUSD)) && d.rendering == LocalizedDefault
    ensures d.suffix == "" && !UsesLocalNumbering(c.code) ==>
              d.separator == "" && d.value == Convert(c, amountInUSD) && d.rendering == Fixed(2)
  {
    var converted := Convert(c, amountInUSD);
    if converted >= 1000000.0 then Display(c.symbol, "", converted / 1000000.0, Fixed(1), "M")
    else if converted >= 1000.0 then Display(c.symbol, "", converted / 1000.0, Fixed(1), "K")
    else if c.code == PKR || c.code == INR then Display(c.symbol, " ", Round(converted), LocalizedDefault, "")
    else Display(c.symbol, "", converted, Fixed(2), "")
  }

  /** Both formats always begin with the selected currency's symbol. */
  lemma FormatsStartWithSymbol(c: Currency, amountInUSD: real, digits: string)
    ensures Text(FormatAmount(c, amountInUSD), digits)[..|c.symbol|] == c.symbol
    ensures Text(FormatAmountShort(c, amountInUSD), digits)[..|c.symbol|] == c.symbol
  {
    var d := FormatAmount(c, amountInUSD);
    assert Text(d, digits) == c.symbol + (d.separator + digits + d.suffix);
    var e := FormatAmountShort(c, amountInUSD);
    assert Text(e, digits) == c.symbol + (e.separator + digits + e.suffix);
  }

  function SuffixRank(suffix: string): nat
  {
    if suffix == "M" then 2 else if suffix == "K" then 1 else 0
  }

  /** A larger dollar amount never gets a smaller magnitude suffix. */
  lemma ShortSuffixMonotone(code: Code, a: real, b: real)
    requires a <= b
    ensures SuffixRank(FormatAmountShort(Lookup(code), a).suffix) <= SuffixRank(FormatAmountShort(Lookup(code), b).suffix)
  {
    ConvertMonotone(code, a, b);
  }

  /** The provider's state: the selected currency, always an entry of the table. */
  class CurrencyState {
    var currency: Currency

    ghost predicate Valid()
      reads this
    {
      currency == Lookup(currency.code)
    }

    constructor ()
      ensures Valid() && currency == Lookup(PKR)
    {
      currency := Lookup(PKR);
    }

    /** `setCurrency`: the new state depends on the code alone, so setting twice is setting once. */
    method SetCurrency(code: Code)
      modifies this
      ensures Valid() && currency == Lookup(code) && currency.code == code
    {
      currency := Lookup(code);
    }
  }
}
