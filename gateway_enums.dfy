/**
 * The gateway's enumerations (RentalManager/Utils/Enum.cs). Here the plan's
 * number IS its length in days; the licence numbering is the worker's.
 */
module GatewayEnums {

  /** DriversLicenseType: unknown = 0, A = 1, B = 2, AB = 3. */
  datatype LicenceType = LicenceUnknown | A | B | AB

  function LicenceOrdinal(t: LicenceType): (n: int)
    ensures 0 <= n <= 3
  {
    match t
    case LicenceUnknown => 0
    case A => 1
    case B => 2
    case AB => 3
  }

  /** RentalType: unknown = 0, Days7 = 7, ..., Days50 = 50; other numbers stay as they are. */
  datatype RentalType = Unknown | Days7 | Days15 | Days30 | Days45 | Days50 | Other(n: int)

  predicate Named(p: RentalType) {
    p.Days7? || p.Days15? || p.Days30? || p.Days45? || p.Days50?
  }

  function Number(p: RentalType): int {
    match p
    case Unknown => 0
    case Days7 => 7
    case Days15 => 15
    case Days30 => 30
    case Days45 => 45
    case Days50 => 50
    case Other(n) => n
  }

  /** The value a plan number deserialises to on the gateway. */
  function FromNumber(n: int): (p: RentalType)
    ensures Number(p) == n
    ensures Named(p) <==> n in {7, 15, 30, 45, 50}
  {
    if n == 0 then Unknown
    else if n == 7 then Days7
    else if n == 15 then Days15
    else if n == 30 then Days30
    else if n == 45 then Days45
    else if n == 50 then Days50
    else Other(n)
  }

  /** RentalTypePrices read through the plan of the same name; unknown is 0. */
  function TablePrice(p: RentalType): (r: int)
    ensures r > 0 <==> Named(p)
  {
    match p
    case Days7 => 30
    case Days15 => 28
    case Days30 => 22
    case Days45 => 20
    case Days50 => 18
    case _ => 0
  }
}
