/**
 * The worker's records (MotorbikeConsumer/Models/Entities) and its database
 * (MotorbikeConsumer/Data/AppDbContext.cs) as an in-memory store: one map per
 * table, keyed by primary key.
 */
module Data {
  import opened Wrappers
  import W = WorkerEnums

  /** DateTime, as a count of 100-nanosecond ticks. */
  type Instant = int

  const TicksPerDay: int := 864_000_000_000

  datatype DeliveryMan = DeliveryMan(
    id: string,
    name: string,
    legalId: string,
    birthDate: Instant,
    licenceNumber: string,
    licenceType: W.LicenceType)

  datatype Motorbike = Motorbike(id: string, year: int, model: string, plate: string)

  datatype Rental = Rental(
    id: string,
    deliveryManId: string,
    motorbikeId: string,
    startDate: Instant,
    endDate: Instant,
    expectedEndDate: Instant,
    plan: W.RentalType)

  /** RentalResponse: a copy of a rental plus the total the amendment computed. */
  datatype RentalResponse = RentalResponse(rental: Rental, totalRentalValue: Option<real>)

  // Column sizes of the motorbike table.
  const PlateMaxLength := 10
  const ModelMaxLength := 50

  predicate FitsColumns(m: Motorbike) {
    |m.plate| <= PlateMaxLength && |m.model| <= ModelMaxLength
  }

  /** The constraints the schema enforces: keys, unique indexes, column sizes, foreign keys. */
  predicate Consistent(deliveryMen: map<string, DeliveryMan>, motorbikes: map<string, Motorbike>,
                       rentals: map<string, Rental>)
  {
    && (forall k :: k in deliveryMen ==> deliveryMen[k].id == k)
    && MotorbikeTable(motorbikes)
    && (forall k :: k in rentals ==> rentals[k].id == k)
    && (forall a, b :: a in deliveryMen && b in deliveryMen && a != b ==>
          deliveryMen[a].legalId != deliveryMen[b].legalId &&
          deliveryMen[a].licenceNumber != deliveryMen[b].licenceNumber)
    && (forall k :: k in rentals ==>
          rentals[k].deliveryManId in deliveryMen && rentals[k].motorbikeId in motorbikes)
  }

  /** The motorbike table's own constraints: primary key, column sizes, unique plate. */
  predicate MotorbikeTable(motorbikes: map<string, Motorbike>) {
    && (forall k :: k in motorbikes ==> motorbikes[k].id == k && FitsColumns(motorbikes[k]))
    && UniquePlates(motorbikes)
  }

  predicate UniquePlates(motorbikes: map<string, Motorbike>) {
    forall a, b :: a in motorbikes && b in motorbikes && a != b ==> motorbikes[a].plate != motorbikes[b].plate
  }

  /** Not a schema constraint: the rule rental creation keeps. */
  predicate OneRentalPerMotorbike(rentals: map<string, Rental>) {
    forall a, b :: a in rentals && b in rentals && a != b ==> rentals[a].motorbikeId != rentals[b].motorbikeId
  }

  predicate Rented(rentals: map<string, Rental>, motorbikeId: string) {
    exists k :: k in rentals && rentals[k].motorbikeId == motorbikeId
  }

  /** The database the worker's services share. */
  class Database {
    var deliveryMen: map<string, DeliveryMan>
    var motorbikes: map<string, Motorbike>
    var rentals: map<string, Rental>
    /** None while the database answers; Some(message) while every query and save throws it. */
    var failure: Option<string>

    ghost predicate Valid()
      reads this
    {
      Consistent(deliveryMen, motorbikes, rentals)
    }

    constructor (failure: Option<string>)
      ensures Valid()
      ensures deliveryMen == map[] && motorbikes == map[] && rentals == map[]
      ensures this.failure == failure
    {
      deliveryMen, motorbikes, rentals := map[], map[], map[];
      this.failure := failure;
    }
  }
}
