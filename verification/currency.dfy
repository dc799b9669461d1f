/** The closed set of currencies a user may choose (internal/app/currency/currency.go). */
module Currencies {
  import opened Wrappers
  import opened AppErrors

  datatype Currency = UNKNOWN | RUB | GEL | AMD | USD | EUR | RSD {
    /** The string the currency is backed by. */
    function String(): string {
      match this
      case UNKNOWN => "UNKNOWN"
      case RUB => "RUB"
      case GEL => "GEL"
      case AMD => "AMD"
      case USD => "USD"
      case EUR => "EUR"
      case RSD => "RSD"
    }
  }

  /** The strings FromString accepts. */
  const Codes: set<string> := {"RUB", "GEL", "AMD", "USD", "EUR", "RSD"}

  /** Strict parse: exactly the six currency codes (case-sensitive) are accepted; anything
      else, "UNKNOWN" included, gives UNKNOWN with an error. */
  function FromString(value: string): (r: Outcome<Currency>)
    ensures r.Ok() <==> value in Codes
    ensures r.Ok() ==> r.value != UNKNOWN && r.value.String() == value
    ensures !r.Ok() ==> r == Outcome(UNKNOWN, Some(Other("Invalid currency value")))
  {
    if value == RUB.String() then Outcome(RUB, None)
    else if value == GEL.String() then Outcome(GEL, None)
    else if value == AMD.String() then Outcome(AMD, None)
    else if value == USD.String() then Outcome(USD, None)
    else if value == EUR.String() then Outcome(EUR, None)
    else if value == RSD.String() then Outcome(RSD, None)
    else Outcome(UNKNOWN, Some(Other("Invalid currency value")))
  }

  /** Every real currency survives String then FromString. */
  lemma FromStringOfString(c: Currency)
    requires c != UNKNOWN
    ensures FromString(c.String()) == Outcome(c, None)
  {
  }

  /** String is injective, so a currency is determined by its code. */
  lemma StringInjective(a: Currency, b: Currency)
    ensures a.String() == b.String() ==> a == b
  {
  }
}
