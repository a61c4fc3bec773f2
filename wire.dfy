/**
 * How the gateway's enums reach the worker and come back. System.Text.Json
 * writes an enum as its number, and the two processes number RentalType
 * differently: the gateway by day count (7, 15, 30, 45, 50), the worker by
 * position (1..5). The licence numbering is the same on both sides.
 */
module Wire {
  import W = WorkerEnums
  import G = GatewayEnums

  /** The licence a gateway value becomes on the worker: by number, which here agrees with the name. */
  function WorkerLicenceReceived(g: G.LicenceType): (w: W.LicenceType)
    ensures W.LicenceOrdinal(w) == G.LicenceOrdinal(g)
    ensures !w.LicenceOther?
  {
    W.LicenceFromOrdinal(G.LicenceOrdinal(g))
  }

  /** Licences arrive under their own name. */
  lemma LicenceArrivesByName(g: G.LicenceType)
    ensures WorkerLicenceReceived(g) ==
      match g
      case LicenceUnknown => W.LicenceUnknown
      case A => W.A
      case B => W.B
      case AB => W.AB
  {
  }

  /** As written: the plan a gateway value becomes on the worker, by number. */
  function WorkerPlanReceived(g: G.RentalType): (w: W.RentalType)
    ensures W.WellFormed(w) && W.Ordinal(w) == G.Number(g)
  {
    W.FromOrdinal(G.Number(g))
  }

  /** As written: the plan a worker value becomes on the gateway, by number. */
  function GatewayPlanReceived(w: W.RentalType): (g: G.RentalType)
    ensures G.Number(g) == W.Ordinal(w)
  {
    G.FromNumber(W.Ordinal(w))
  }

  /** Every priced gateway plan lands on an unnamed worker value, whose daily rate is 0. */
  lemma NamedPlansArriveUnpriced(g: G.RentalType)
    requires G.Named(g)
    ensures WorkerPlanReceived(g) == W.Other(G.Number(g))
    ensures W.DailyRate(WorkerPlanReceived(g)) == 0
  {
  }

  /**
   * As written, the two mis-numberings cancel on a round trip: a gateway plan
   * the worker stores by number comes back to the gateway as itself.
   */
  lemma NumberedPlanRoundTrip(g: G.RentalType)
    requires G.Named(g)
    ensures GatewayPlanReceived(WorkerPlanReceived(g)) == g
  {
  }

  /** Every priced worker plan comes back as an unnamed gateway value, whose table price is 0. */
  lemma NamedPlansReturnUnpriced(w: W.RentalType)
    requires W.Named(w)
    ensures !G.Named(GatewayPlanReceived(w))
    ensures G.TablePrice(GatewayPlanReceived(w)) == 0
  {
  }

  /** Corrected: the worker plan of the same name; plans without a name become unknown. */
  function WorkerPlanByName(g: G.RentalType): (w: W.RentalType)
    ensures W.WellFormed(w)
    ensures W.Named(w) <==> G.Named(g)
    ensures W.DailyRate(w) == G.TablePrice(g)
  {
    match g
    case Days7 => W.Days7
    case Days15 => W.Days15
    case Days30 => W.Days30
    case Days45 => W.Days45
    case Days50 => W.Days50
    case _ => W.Unknown
  }

  /** Corrected: the gateway plan of the same name. */
  function GatewayPlanByName(w: W.RentalType): (g: G.RentalType)
    ensures G.Named(g) <==> W.Named(w)
    ensures G.TablePrice(g) == W.DailyRate(w)
  {
    match w
    case Days7 => G.Days7
    case Days15 => G.Days15
    case Days30 => G.Days30
    case Days45 => G.Days45
    case Days50 => G.Days50
    case _ => G.Unknown
  }

  /** By name, a priced plan survives the trip to the worker and back. */
  lemma PlanByNameRoundTrip(g: G.RentalType)
    requires G.Named(g)
    ensures GatewayPlanByName(WorkerPlanByName(g)) == g
  {
  }
}
