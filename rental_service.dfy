/**
 * The rental rules of the worker (MotorbikeConsumer/Services/RentalService.cs):
 * the creation gate and the amendment of the expected end date with its
 * three-branch pricing.
 */
module RentalService {
  import opened Wrappers
  import opened Data
  import W = WorkerEnums

  /** `(int)TimeSpan.TotalDays`: whole days, truncated toward zero. */
  function TruncDays(ticks: int): (days: int)
    ensures ticks >= 0 ==> 0 <= days && days * TicksPerDay <= ticks < days * TicksPerDay + TicksPerDay
    ensures ticks < 0 ==> days <= 0 && ticks <= days * TicksPerDay && days * TicksPerDay - TicksPerDay < ticks
  {
    if ticks >= 0 then ticks / TicksPerDay else -((-ticks) / TicksPerDay)
  }

  lemma TruncDaysIsOdd(ticks: int)
    ensures TruncDays(-ticks) == -TruncDays(ticks)
  {
  }

  /** A span of whole days plus less than one day counts as those whole days. */
  lemma TruncDaysOfDays(k: nat, rest: int)
    requires 0 <= rest < TicksPerDay
    ensures TruncDays(k * TicksPerDay + rest) == k
  {
    var d := TruncDays(k * TicksPerDay + rest);
    assert d * TicksPerDay <= k * TicksPerDay + rest < d * TicksPerDay + TicksPerDay;
  }

  /** Truncation never loses a day when two non-negative spans are joined. */
  lemma TruncDaysSuperadditive(a: int, b: int)
    requires a >= 0 && b >= 0
    ensures TruncDays(a) + TruncDays(b) <= TruncDays(a + b)
  {
    var x, y, z := TruncDays(a), TruncDays(b), TruncDays(a + b);
    assert (x + y) * TicksPerDay <= a + b < z * TicksPerDay + TicksPerDay;
  }

  const LateFeePerDay := 50
  const EarlyReturnFee7: real := 0.20
  const EarlyReturnFee15: real := 0.40

  /**
   * TotalRentalValue for moving the expected end date from `oldExpected` to
   * `newExpected`. U counts the days from the start to the new date, L to the
   * old one. Same date: U at the plan's rate. Later: L at the plan's rate
   * plus 50 for each extra day. Earlier: U at the plan's rate, plus a flat
   * 0.20 (7-day plan) or 0.40 (15-day plan) per day returned early.
   */
  function AmendedTotal(plan: W.RentalType, start: Instant, oldExpected: Instant, newExpected: Instant): (total: real)
    ensures start <= oldExpected && start <= newExpected ==> total >= 0.0
    ensures !W.Named(plan) ==>
      total == (if newExpected > oldExpected then TruncDays(newExpected - oldExpected) * LateFeePerDay else 0) as real
  {
    var u := TruncDays(newExpected - start);
    var l := TruncDays(oldExpected - start);
    if newExpected == oldExpected then
      (u * W.DailyRate(plan)) as real
    else if newExpected > oldExpected then
      (l * W.DailyRate(plan) + TruncDays(newExpected - oldExpected) * LateFeePerDay) as real
    else if plan == W.Days7 then
      (u * W.DailyRate(W.Days7)) as real + TruncDays(oldExpected - newExpected) as real * EarlyReturnFee7
    else if plan == W.Days15 then
      (u * W.DailyRate(W.Days15)) as real + TruncDays(oldExpected - newExpected) as real * EarlyReturnFee15
    else
      (u * W.DailyRate(plan)) as real
  }

  /** Keeping the date bills the contracted days at the plan's rate. */
  lemma AmendToSameDate(plan: W.RentalType, start: Instant, expected: Instant)
    ensures AmendedTotal(plan, start, expected, expected) ==
            (TruncDays(expected - start) * W.DailyRate(plan)) as real
  {
  }

  /** Extending by k whole days bills the contracted days at the plan's rate and 50 per extra day. */
  lemma {:induction false} ExtensionByWholeDays(plan: W.RentalType, start: Instant, oldExpected: Instant, k: nat)
    requires k >= 1
    ensures AmendedTotal(plan, start, oldExpected, oldExpected + k * TicksPerDay) ==
            (TruncDays(oldExpected - start) * W.DailyRate(plan) + k * LateFeePerDay) as real
  {
    TruncDaysOfDays(k, 0);
  }

  /** Past the old date, each further day adds exactly the late fee. */
  lemma ExtraDayCostsLateFee(plan: W.RentalType, start: Instant, oldExpected: Instant, newExpected: Instant)
    requires newExpected > oldExpected
    ensures AmendedTotal(plan, start, oldExpected, newExpected + TicksPerDay) ==
            AmendedTotal(plan, start, oldExpected, newExpected) + LateFeePerDay as real
  {
    var d := newExpected - oldExpected;
    TruncDaysOfDays(TruncDays(d) + 1, d - TruncDays(d) * TicksPerDay);
  }

  /** The three longer plans (and plans without a price) charge no early-return penalty. */
  lemma NoPenaltyOnLongPlans(plan: W.RentalType, start: Instant, oldExpected: Instant, newExpected: Instant)
    requires plan != W.Days7 && plan != W.Days15
    requires newExpected < oldExpected
    ensures AmendedTotal(plan, start, oldExpected, newExpected) ==
            (TruncDays(newExpected - start) * W.DailyRate(plan)) as real
  {
  }

  /**
   * Returning early, on or after the start, never costs more than keeping the
   * contracted date: the penalty per early day is below any plan's daily rate.
   */
  lemma EarlyReturnNeverDearer(plan: W.RentalType, start: Instant, oldExpected: Instant, newExpected: Instant)
    requires start <= newExpected < oldExpected
    ensures AmendedTotal(plan, start, oldExpected, newExpected) <= AmendedTotal(plan, start, oldExpected, oldExpected)
  {
    var u, e := TruncDays(newExpected - start), TruncDays(oldExpected - newExpected);
    TruncDaysSuperadditive(newExpected - start, oldExpected - newExpected);
    assert u + e <= TruncDays(oldExpected - start);
  }

  /** 7-day plan, start day 0, expected day 7: keeping day 7 costs 7 * 30. */
  lemma ExampleSameDate(start: Instant)
    ensures AmendedTotal(W.Days7, start, start + 7 * TicksPerDay, start + 7 * TicksPerDay) == 210.0
  {
    TruncDaysOfDays(7, 0);
  }

  /** 7-day plan, expected day 7, moved to day 10: 7 * 30 + 3 * 50. */
  lemma ExampleExtension(start: Instant)
    ensures AmendedTotal(W.Days7, start, start + 7 * TicksPerDay, start + 10 * TicksPerDay) == 360.0
  {
    TruncDaysOfDays(7, 0);
    TruncDaysOfDays(3, 0);
  }

  /** 7-day plan, expected day 7, moved to day 5: 5 * 30 + 2 * 0.20, a flat penalty not scaled by the rate. */
  lemma ExampleEarlyReturn(start: Instant)
    ensures AmendedTotal(W.Days7, start, start + 7 * TicksPerDay, start + 5 * TicksPerDay) == 150.4
  {
    TruncDaysOfDays(5, 0);
    TruncDaysOfDays(2, 0);
  }

  predicate Eligible(t: W.LicenceType) {
    t == W.A || t == W.AB
  }

  /** Why CreateRentalAsync stores a rental or not, in the order it checks. */
  datatype CreateVerdict =
    | DatabaseFailed
    | DeliveryManMissing
    | LicenceNotEligible
    | MotorbikeMissing
    | MotorbikeRented
    | DuplicateKey
    | Saved

  function CreateVerdictOf(deliveryMen: map<string, DeliveryMan>, motorbikes: map<string, Motorbike>,
                           rentals: map<string, Rental>, failure: Option<string>, r: Rental): (v: CreateVerdict)
    ensures v == DatabaseFailed <==> failure.Some?
    ensures v == DeliveryManMissing ==> failure.None? && r.deliveryManId !in deliveryMen
    ensures v == LicenceNotEligible ==>
      failure.None? && r.deliveryManId in deliveryMen && !Eligible(deliveryMen[r.deliveryManId].licenceType)
    ensures v == MotorbikeMissing ==>
      failure.None? && r.deliveryManId in deliveryMen && Eligible(deliveryMen[r.deliveryManId].licenceType)
      && r.motorbikeId !in motorbikes
    ensures v == MotorbikeRented ==>
      failure.None? && r.deliveryManId in deliveryMen && Eligible(deliveryMen[r.deliveryManId].licenceType)
      && r.motorbikeId in motorbikes && Rented(rentals, r.motorbikeId)
    ensures v == DuplicateKey ==>
      failure.None? && r.deliveryManId in deliveryMen && Eligible(deliveryMen[r.deliveryManId].licenceType)
      && r.motorbikeId in motorbikes && !Rented(rentals, r.motorbikeId) && r.id in rentals
  {
    if failure.Some? then DatabaseFailed
    else if r.deliveryManId !in deliveryMen then DeliveryManMissing
    else if !Eligible(deliveryMen[r.deliveryManId].licenceType) then LicenceNotEligible
    else if r.motorbikeId !in motorbikes then MotorbikeMissing
    else if Rented(rentals, r.motorbikeId) then MotorbikeRented
    else if r.id in rentals then DuplicateKey
    else Saved
  }

  /** A rental is stored exactly when every check passes; any existing rental of the motorbike blocks it, whatever its dates. */
  lemma SavedIffAllChecksPass(deliveryMen: map<string, DeliveryMan>, motorbikes: map<string, Motorbike>,
                              rentals: map<string, Rental>, failure: Option<string>, r: Rental)
    ensures CreateVerdictOf(deliveryMen, motorbikes, rentals, failure, r) == Saved <==>
      && failure.None?
      && r.deliveryManId in deliveryMen
      && deliveryMen[r.deliveryManId].licenceType in {W.A, W.AB}
      && r.motorbikeId in motorbikes
      && (forall k :: k in rentals ==> rentals[k].motorbikeId != r.motorbikeId)
      && r.id !in rentals
  {
  }

  /** Storing a rental that passed the gate keeps the schema constraints and one rental per motorbike. */
  lemma {:induction false} SavedKeepsInvariants(deliveryMen: map<string, DeliveryMan>, motorbikes: map<string, Motorbike>,
                                                rentals: map<string, Rental>, failure: Option<string>, r: Rental)
    requires Consistent(deliveryMen, motorbikes, rentals) && OneRentalPerMotorbike(rentals)
    requires CreateVerdictOf(deliveryMen, motorbikes, rentals, failure, r) == Saved
    ensures Consistent(deliveryMen, motorbikes, rentals[r.id := r])
    ensures OneRentalPerMotorbike(rentals[r.id := r])
  {
    var after := rentals[r.id := r];
    forall a, b | a in after && b in after && a != b
      ensures after[a].motorbikeId != after[b].motorbikeId
    {
      if a == r.id {
        assert b in rentals;
      } else if b == r.id {
        assert a in rentals;
      }
    }
  }

  /** CreateRentalAsync: a null rental, a failed query or a failed check stores nothing. */
  method CreateRental(db: Database, rental: Option<Rental>)
    requires db.Valid()
    modifies db
    ensures db.Valid()
    ensures db.deliveryMen == old(db.deliveryMen) && db.motorbikes == old(db.motorbikes) && db.failure == old(db.failure)
    ensures db.rentals ==
      if rental.Some? &&
         CreateVerdictOf(old(db.deliveryMen), old(db.motorbikes), old(db.rentals), old(db.failure), rental.value) == Saved
      then old(db.rentals)[rental.value.id := rental.value]
      else old(db.rentals)
    ensures OneRentalPerMotorbike(old(db.rentals)) ==> OneRentalPerMotorbike(db.rentals)
  {
    if rental.None? || db.failure.Some? {
      return;
    }
    var r := rental.value;
    if r.deliveryManId !in db.deliveryMen {
      return;
    }
    var deliveryMan := db.deliveryMen[r.deliveryManId];
    if deliveryMan.licenceType == W.A || deliveryMan.licenceType == W.AB {
      if r.motorbikeId !in db.motorbikes {
        return;
      }
      var otherRental := exists k :: k in db.rentals && db.rentals[k].motorbikeId == r.motorbikeId;
      if otherRental {
        return;
      }
      // A second rental with the same key makes SaveChanges throw; the error is only logged.
      if r.id !in db.rentals {
        if OneRentalPerMotorbike(db.rentals) {
          SavedKeepsInvariants(db.deliveryMen, db.motorbikes, db.rentals, db.failure, r);
        }
        assert Consistent(db.deliveryMen, db.motorbikes, db.rentals[r.id := r]) by {
          SavedKeepsInvariantsOfSchema(db.deliveryMen, db.motorbikes, db.rentals, db.failure, r);
        }
        db.rentals := db.rentals[r.id := r];
      }
    }
  }

  lemma SavedKeepsInvariantsOfSchema(deliveryMen: map<string, DeliveryMan>, motorbikes: map<string, Motorbike>,
                                     rentals: map<string, Rental>, failure: Option<string>, r: Rental)
    requires Consistent(deliveryMen, motorbikes, rentals)
    requires CreateVerdictOf(deliveryMen, motorbikes, rentals, failure, r) == Saved
    ensures Consistent(deliveryMen, motorbikes, rentals[r.id := r])
  {
  }

  /** GetRentalAsync: the rental with that key; a null id finds nothing. */
  function GetRental(rentals: map<string, Rental>, failure: Option<string>, id: Option<string>): (r: Result<Option<Rental>, string>)
    ensures failure.Some? ==> r == Failure(failure.value)
    ensures failure.None? ==> r.Success? && (r.value.Some? <==> id.Some? && id.value in rentals)
    ensures r.Success? && r.value.Some? ==> r.value.value == rentals[id.value]
  {
    if failure.Some? then Failure(failure.value)
    else if id.Some? && id.value in rentals then Success(Some(rentals[id.value]))
    else Success(None)
  }

  /** The RentalResponse copy constructor: every field of the rental, no total yet. */
  function ResponseOf(r: Rental): (resp: RentalResponse)
    ensures resp.rental == r && resp.totalRentalValue.None?
  {
    RentalResponse(r, None)
  }

  /** The response to an amendment: a copy of the rental as it was, with the total for the new date. */
  function Amended(r: Rental, newExpected: Instant): (resp: RentalResponse)
    ensures resp.rental == r
    ensures resp.totalRentalValue == Some(AmendedTotal(r.plan, r.startDate, r.expectedEndDate, newExpected))
  {
    ResponseOf(r).(totalRentalValue := Some(AmendedTotal(r.plan, r.startDate, r.expectedEndDate, newExpected)))
  }

  /**
   * UpdateRentalAsync. A null id finds nothing, even on a failing database,
   * because Find answers a null key without a query. The response is copied from the rental BEFORE its
   * expected end date changes, so it carries the old date; only that date is
   * changed in the store.
   */
  method UpdateRental(db: Database, id: Option<string>, newExpected: Instant)
    returns (result: Result<Option<RentalResponse>, string>)
    requires db.Valid()
    modifies db
    ensures db.Valid()
    ensures db.deliveryMen == old(db.deliveryMen) && db.motorbikes == old(db.motorbikes) && db.failure == old(db.failure)
    ensures old(db.failure).Some? && id.Some? ==> result == Failure(old(db.failure).value) && db.rentals == old(db.rentals)
    ensures old(db.failure).None? || id.None? ==> result.Success?
    ensures result.Success? ==>
      (result.value.None? <==> id.None? || id.value !in old(db.rentals))
    ensures result.Success? && result.value.None? ==> db.rentals == old(db.rentals)
    ensures result.Success? && result.value.Some? ==>
      var r := old(db.rentals)[id.value];
      && result.value.value == Amended(r, newExpected)
      && db.rentals == old(db.rentals)[id.value := r.(expectedEndDate := newExpected)]
    ensures OneRentalPerMotorbike(old(db.rentals)) ==> OneRentalPerMotorbike(db.rentals)
  {
    // Find returns null for a null key without querying the database.
    if id.None? {
      return Success(None);
    }
    if db.failure.Some? {
      return Failure(db.failure.value);
    }
    if id.value !in db.rentals {
      return Success(None);
    }
    var r := db.rentals[id.value];
    var response := ResponseOf(r);
    response := response.(totalRentalValue := Some(AmendedTotal(r.plan, r.startDate, r.expectedEndDate, newExpected)));
    assert response == Amended(r, newExpected);
    db.rentals := db.rentals[id.value := r.(expectedEndDate := newExpected)];
    result := Success(Some(response));
  }
}
