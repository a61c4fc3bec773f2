/**
 * The motorbike store of the worker (MotorbikeConsumer/Services/MotorbikeService.cs).
 * Every operation catches its own exceptions: a failed save is logged and
 * leaves the table as it was.
 */
module MotorbikeService {
  import opened Wrappers
  import opened Data

  const NullReferenceMessage := "Object reference not set to an instance of an object."
  const FailedChanges := "Failed database changes "

  /** Whether SaveChanges accepts a new motorbike: a new key, a new plate, columns that fit. */
  predicate CreateAccepted(motorbikes: map<string, Motorbike>, failure: Option<string>, m: Motorbike) {
    && failure.None?
    && m.id !in motorbikes
    && (forall k :: k in motorbikes ==> motorbikes[k].plate != m.plate)
    && FitsColumns(m)
  }

  /** An accepted motorbike keeps the table's constraints and the foreign keys of rentals. */
  lemma {:induction false} CreateKeepsConsistent(deliveryMen: map<string, DeliveryMan>, motorbikes: map<string, Motorbike>,
                                                 rentals: map<string, Rental>, failure: Option<string>, m: Motorbike)
    requires Consistent(deliveryMen, motorbikes, rentals)
    requires CreateAccepted(motorbikes, failure, m)
    ensures Consistent(deliveryMen, motorbikes[m.id := m], rentals)
  {
    var after := motorbikes[m.id := m];
    forall a, b | a in after && b in after && a != b
      ensures after[a].plate != after[b].plate
    {
      if a == m.id {
        assert b in motorbikes;
      } else if b == m.id {
        assert a in motorbikes;
      }
    }
  }

  /** CreateMotorbikeAsync: a null motorbike or a rejected save adds nothing. */
  method CreateMotorbike(db: Database, m: Option<Motorbike>)
    requires db.Valid()
    modifies db
    ensures db.Valid()
    ensures db.deliveryMen == old(db.deliveryMen) && db.rentals == old(db.rentals) && db.failure == old(db.failure)
    ensures db.motorbikes ==
      if m.Some? && CreateAccepted(old(db.motorbikes), old(db.failure), m.value)
      then old(db.motorbikes)[m.value.id := m.value]
      else old(db.motorbikes)
  {
    if m.None? {
      return;  // Add(null) throws
    }
    if CreateAccepted(db.motorbikes, db.failure, m.value) {
      CreateKeepsConsistent(db.deliveryMen, db.motorbikes, db.rentals, db.failure, m.value);
      db.motorbikes := db.motorbikes[m.value.id := m.value];
    }
  }

  /** GetMotorbikeAsync(): every stored motorbike (in no particular order); nothing when the query fails. */
  function AllMotorbikes(motorbikes: map<string, Motorbike>, failure: Option<string>): (all: set<Motorbike>)
    requires MotorbikeTable(motorbikes)
    ensures failure.Some? ==> all == {}
    ensures failure.None? ==> forall k :: k in motorbikes ==> motorbikes[k] in all
    ensures forall m :: m in all ==> m.id in motorbikes && motorbikes[m.id] == m
  {
    if failure.Some? then {} else set k | k in motorbikes :: motorbikes[k]
  }

  /** GetMotorbikeAsync(id): the motorbike with that id; a null id or a failed query finds nothing. */
  function MotorbikeById(motorbikes: map<string, Motorbike>, failure: Option<string>, id: Option<string>): (r: Option<Motorbike>)
    requires MotorbikeTable(motorbikes)
    ensures r.Some? <==> failure.None? && id.Some? && id.value in motorbikes
    ensures r.Some? ==> r.value.id == id.value && r.value in AllMotorbikes(motorbikes, failure)
  {
    if failure.None? && id.Some? && id.value in motorbikes then Some(motorbikes[id.value]) else None
  }

  /** GetMotorbikeByPlateAsync: the motorbike with that plate; a null plate or a failed query finds nothing. */
  function MotorbikeByPlate(motorbikes: map<string, Motorbike>, failure: Option<string>, plate: Option<string>): (r: Option<Motorbike>)
    requires MotorbikeTable(motorbikes)
    ensures r.Some? <==> failure.None? && plate.Some? && exists k :: k in motorbikes && motorbikes[k].plate == plate.value
    ensures r.Some? ==> r.value.plate == plate.value && r.value in AllMotorbikes(motorbikes, failure)
  {
    if failure.None? && plate.Some? && exists k :: k in motorbikes && motorbikes[k].plate == plate.value then
      var k :| k in motorbikes && motorbikes[k].plate == plate.value;
      Some(motorbikes[k])
    else
      None
  }

  /** A motorbike just created is found both by its id and by its plate. */
  lemma CreatedIsFound(motorbikes: map<string, Motorbike>, m: Motorbike)
    requires MotorbikeTable(motorbikes)
    requires CreateAccepted(motorbikes, None, m)
    ensures MotorbikeTable(motorbikes[m.id := m])
    ensures MotorbikeById(motorbikes[m.id := m], None, Some(m.id)) == Some(m)
    ensures MotorbikeByPlate(motorbikes[m.id := m], None, Some(m.plate)) == Some(m)
  {
    var after := motorbikes[m.id := m];
    forall a, b | a in after && b in after && a != b
      ensures after[a].plate != after[b].plate
    {
      if a == m.id {
        assert b in motorbikes;
      } else if b == m.id {
        assert a in motorbikes;
      }
    }
    assert after[m.id].plate == m.plate;
  }

  /** Whether SaveChanges accepts the new plate of an existing motorbike. */
  predicate PlateChangeAccepted(motorbikes: map<string, Motorbike>, failure: Option<string>, m: Motorbike) {
    && failure.None?
    && m.id in motorbikes
    && (forall k :: k in motorbikes && k != m.id ==> motorbikes[k].plate != m.plate)
    && FitsColumns(motorbikes[m.id].(plate := m.plate))
  }

  /** UpdateMotorbikeAsync: only the plate of the motorbike with that id changes, and only when the save is accepted. */
  method UpdateMotorbike(db: Database, m: Option<Motorbike>)
    requires db.Valid()
    modifies db
    ensures db.Valid()
    ensures db.deliveryMen == old(db.deliveryMen) && db.rentals == old(db.rentals) && db.failure == old(db.failure)
    ensures db.motorbikes ==
      if m.Some? && PlateChangeAccepted(old(db.motorbikes), old(db.failure), m.value)
      then old(db.motorbikes)[m.value.id := old(db.motorbikes)[m.value.id].(plate := m.value.plate)]
      else old(db.motorbikes)
  {
    if m.None? || db.failure.Some? {
      return;
    }
    var id, newPlate := m.value.id, m.value.plate;
    if id !in db.motorbikes {
      return;  // not found: logged, and the save has nothing to write
    }
    if PlateChangeAccepted(db.motorbikes, db.failure, m.value) {
      PlateChangeKeepsConsistent(db.deliveryMen, db.motorbikes, db.rentals, db.failure, m.value);
      db.motorbikes := db.motorbikes[id := db.motorbikes[id].(plate := newPlate)];
    }
  }

  lemma {:induction false} PlateChangeKeepsConsistent(deliveryMen: map<string, DeliveryMan>, motorbikes: map<string, Motorbike>,
                                                      rentals: map<string, Rental>, failure: Option<string>, m: Motorbike)
    requires Consistent(deliveryMen, motorbikes, rentals)
    requires PlateChangeAccepted(motorbikes, failure, m)
    ensures Consistent(deliveryMen, motorbikes[m.id := motorbikes[m.id].(plate := m.plate)], rentals)
  {
    var after := motorbikes[m.id := motorbikes[m.id].(plate := m.plate)];
    forall a, b | a in after && b in after && a != b
      ensures after[a].plate != after[b].plate
    {
      if a == m.id {
        assert after[b] == motorbikes[b];
      } else if b == m.id {
        assert after[a] == motorbikes[a];
      } else {
        assert after[a] == motorbikes[a] && after[b] == motorbikes[b];
      }
    }
  }

  datatype DeleteResult = DeleteResult(success: bool, message: string)

  /**
   * DeleteMotorbikeAsync: refused while any rental references the motorbike;
   * otherwise the delete succeeds, whether or not the motorbike existed.
   */
  method DeleteMotorbike(db: Database, m: Option<Motorbike>) returns (result: DeleteResult)
    requires db.Valid()
    modifies db
    ensures db.Valid()
    ensures db.deliveryMen == old(db.deliveryMen) && db.rentals == old(db.rentals) && db.failure == old(db.failure)
    ensures result.success <==> m.Some? && old(db.failure).None? && !Rented(old(db.rentals), m.value.id)
    ensures result.success ==>
      db.motorbikes == old(db.motorbikes) - {m.value.id} && result.message == "Motorbike " + m.value.id + " deleted"
    ensures !result.success ==> db.motorbikes == old(db.motorbikes)
    ensures m.None? ==> result.message == FailedChanges + NullReferenceMessage
    ensures m.Some? && old(db.failure).Some? ==> result.message == FailedChanges + old(db.failure).value
    ensures m.Some? && old(db.failure).None? && Rented(old(db.rentals), m.value.id) ==>
      result.message == "There is a rental with this motorbike " + m.value.id
  {
    if m.None? {
      return DeleteResult(false, FailedChanges + NullReferenceMessage);
    }
    var id := m.value.id;
    if db.failure.Some? {
      return DeleteResult(false, FailedChanges + db.failure.value);
    }
    var rented := exists k :: k in db.rentals && db.rentals[k].motorbikeId == id;
    if rented {
      return DeleteResult(false, "There is a rental with this motorbike " + id);
    }
    db.motorbikes := db.motorbikes - {id};
    result := DeleteResult(true, "Motorbike " + id + " deleted");
  }

  /** After a successful delete the motorbike is no longer found. */
  lemma DeletedIsNotFound(motorbikes: map<string, Motorbike>, id: string)
    requires MotorbikeTable(motorbikes)
    ensures MotorbikeTable(motorbikes - {id})
    ensures MotorbikeById(motorbikes - {id}, None, Some(id)).None?
    ensures forall m :: m in AllMotorbikes(motorbikes - {id}, None) ==> m.id != id
  {
  }
}
