/** The closed set of week days (internal/app/day/day.go). */
module Days {
  import opened Wrappers
  import opened AppErrors

  datatype Day = UNKNOWN | MON | TUE | WED | THU | FRI | SAT | SUN {
    /** The string the day is backed by. */
    function String(): string {
      match this
      case UNKNOWN => "UNKNOWN"
      case MON => "MON"
      case TUE => "TUE"
      case WED => "WED"
      case THU => "THU"
      case FRI => "FRI"
      case SAT => "SAT"
      case SUN => "SUN"
    }
  }

  /** The strings FromString accepts. */
  const Codes: set<string> := {"MON", "TUE", "WED", "THU", "FRI", "SAT", "SUN"}

  /** Exactly the seven day codes are accepted; anything else, "UNKNOWN" included, gives
      UNKNOWN with an error naming the rejected value. */
  function FromString(value: string): (r: Outcome<Day>)
    ensures r.Ok() <==> value in Codes
    ensures r.Ok() ==> r.value != UNKNOWN && r.value.String() == value
    ensures !r.Ok() ==> r == Outcome(UNKNOWN, Some(Other("Invalid day value " + value)))
  {
    if value == MON.String() then Outcome(MON, None)
    else if value == TUE.String() then Outcome(TUE, None)
    else if value == WED.String() then Outcome(WED, None)
    else if value == THU.String() then Outcome(THU, None)
    else if value == FRI.String() then Outcome(FRI, None)
    else if value == SAT.String() then Outcome(SAT, None)
    else if value == SUN.String() then Outcome(SUN, None)
    else Outcome(UNKNOWN, Some(Other("Invalid day value " + value)))
  }

  /** Every real day survives String then FromString. */
  lemma FromStringOfString(d: Day)
    requires d != UNKNOWN
    ensures FromString(d.String()) == Outcome(d, None)
  {
  }

  /** String is injective, so a day is determined by its code. */
  lemma StringInjective(a: Day, b: Day)
    ensures a.String() == b.String() ==> a == b
  {
  }
}
