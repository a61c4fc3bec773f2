/**
 * The worker's enumerations (MotorbikeConsumer/Utils/Enum.cs).
 *
 * A C# enum is a number: deserialisation and the database accept any
 * integer, named or not. The `Other` cases keep the numbers that no member
 * names, so the `_ => 0` arms of the pricing switches can be reached.
 */
module WorkerEnums {

  /** DriversLicenseType: unknown = 0, A = 1, B = 2, AB = 3. */
  datatype LicenceType = LicenceUnknown | A | B | AB | LicenceOther(n: int)

  function LicenceOrdinal(t: LicenceType): int {
    match t
    case LicenceUnknown => 0
    case A => 1
    case B => 2
    case AB => 3
    case LicenceOther(n) => n
  }

  /** The value a licence number deserialises to. */
  function LicenceFromOrdinal(n: int): (t: LicenceType)
    ensures LicenceOrdinal(t) == n
    ensures t.LicenceOther? <==> !(0 <= n <= 3)
  {
    if n == 0 then LicenceUnknown
    else if n == 1 then A
    else if n == 2 then B
    else if n == 3 then AB
    else LicenceOther(n)
  }

  /** RentalType: ordinals 0..5, which are NOT day counts. */
  datatype RentalType = Unknown | Days7 | Days15 | Days30 | Days45 | Days50 | Other(n: int)

  /** A plan value as deserialisation can produce it: `Other` only for unnamed numbers. */
  predicate WellFormed(p: RentalType) {
    p.Other? ==> !(0 <= p.n <= 5)
  }

  predicate Named(p: RentalType) {
    p.Days7? || p.Days15? || p.Days30? || p.Days45? || p.Days50?
  }

  function Ordinal(p: RentalType): int {
    match p
    case Unknown => 0
    case Days7 => 1
    case Days15 => 2
    case Days30 => 3
    case Days45 => 4
    case Days50 => 5
    case Other(n) => n
  }

  /** The value a plan number deserialises to. */
  function FromOrdinal(n: int): (p: RentalType)
    ensures WellFormed(p) && Ordinal(p) == n
    ensures Named(p) <==> 1 <= n <= 5
  {
    if n == 0 then Unknown
    else if n == 1 then Days7
    else if n == 2 then Days15
    else if n == 3 then Days30
    else if n == 4 then Days45
    else if n == 5 then Days50
    else Other(n)
  }

  lemma OrdinalRoundTrip(p: RentalType)
    requires WellFormed(p)
    ensures FromOrdinal(Ordinal(p)) == p
  {
  }

  /**
   * RentalTypePrices, read through the plan of the same name, as every
   * pricing switch does; a plan that names no price is worth 0.
   */
  function DailyRate(p: RentalType): (r: int)
    ensures r >= 0
    ensures r > 0 <==> Named(p)
  {
    match p
    case Days7 => 30
    case Days15 => 28
    case Days30 => 22
    case Days45 => 20
    case Days50 => 18
    case _ => 0
  }

  /** Longer plans are cheaper per day: the rate strictly falls as the ordinal grows. */
  lemma RateStrictlyDecreasing(p: RentalType, q: RentalType)
    requires Named(p) && Named(q) && Ordinal(p) < Ordinal(q)
    ensures DailyRate(p) > DailyRate(q)
  {
  }
}
