/**
 * The worker's rental queues (MotorbikeConsumer/Services/RentalConsumer.cs):
 * fire-and-forget commands on rental-queue, request/reply on rental-requests.
 */
module RentalConsumer {
  import opened Wrappers
  import opened Data
  import opened Messages
  import RS = RentalService

  const ExchangeName := "rental-manager-exchange"
  const QueueName := "rental-queue"
  const RequestQueueName := "rental-requests"
  /** BasicQos prefetch count: one unacknowledged message at a time. */
  const PrefetchCount := 1

  const Bindings: set<(string, string)> :=
    {(QueueName, "rental.create"), (RequestQueueName, "rental.update"), (RequestQueueName, "rental.getbyid")}

  /** Creations go to the command queue; amendments and lookups to the request queue; nothing else reaches either. */
  lemma RoutingOfRentalKeys(key: string)
    ensures BoundQueues(Bindings, "rental.create") == {QueueName}
    ensures BoundQueues(Bindings, "rental.update") == {RequestQueueName}
    ensures BoundQueues(Bindings, "rental.getbyid") == {RequestQueueName}
    ensures key !in {"rental.create", "rental.update", "rental.getbyid"} ==> BoundQueues(Bindings, key) == {}
  {
    assert (QueueName, "rental.create") in Bindings;
    assert (RequestQueueName, "rental.update") in Bindings;
    assert (RequestQueueName, "rental.getbyid") in Bindings;
  }

  const CouldNotRead := "request message couldn't be read"

  /** Whether a decoded command names exactly "create" (the command switch is case-sensitive). */
  predicate IsCreate(m: Decoding<OperationMessage<Rental>>) {
    m.Read? && m.value.operation == Some("create")
  }

  /**
   * The command handler: only an exact "create" reaches the service; whatever
   * happens, the delivery is nacked without requeue.
   */
  method HandleCommand(db: Database, m: Decoding<OperationMessage<Rental>>) returns (ack: AckDecision)
    requires db.Valid()
    modifies db
    ensures db.Valid()
    ensures ack == Nack(false)
    ensures db.deliveryMen == old(db.deliveryMen) && db.motorbikes == old(db.motorbikes) && db.failure == old(db.failure)
    ensures db.rentals ==
      if IsCreate(m) && m.value.data.Some? &&
         RS.CreateVerdictOf(old(db.deliveryMen), old(db.motorbikes), old(db.rentals), old(db.failure), m.value.data.value) == RS.Saved
      then old(db.rentals)[m.value.data.value.id := m.value.data.value]
      else old(db.rentals)
  {
    if IsCreate(m) {
      RS.CreateRental(db, m.value.data);
    }
    // Unreadable bodies, other operations and a null message are only logged.
    ack := Nack(false);
  }

  /** UpdateRentalData: both properties are nullable strings. */
  datatype UpdateRentalData = UpdateRentalData(id: Option<string>, expectedEndDate: Option<string>)

  /** A property System.Text.Json can bind to `string?`: absent, null or a string. */
  predicate NullableString(fields: map<string, Json>, name: string) {
    name !in fields || fields[name].JString? || fields[name].JNull?
  }

  function StringValue(fields: map<string, Json>, name: string): Option<string> {
    if name in fields && fields[name].JString? then Some(fields[name].s) else None
  }

  /**
   * Re-reading the request's data as UpdateRentalData: only a JSON object
   * whose Id and ExpectedEndDate are strings or null binds; a null element
   * throws, any other element fails to bind.
   */
  function UpdateDataOf(j: Json): (u: Option<UpdateRentalData>)
    ensures u.Some? <==> j.JObject? && NullableString(j.fields, "Id") && NullableString(j.fields, "ExpectedEndDate")
    ensures u.Some? && u.value.id.Some? ==> "Id" in j.fields && j.fields["Id"] == JString(u.value.id.value)
  {
    match j
    case JObject(fields, _) =>
      if NullableString(fields, "Id") && NullableString(fields, "ExpectedEndDate")
      then Some(UpdateRentalData(StringValue(fields, "Id"), StringValue(fields, "ExpectedEndDate")))
      else None
    case _ => None
  }

  /**
   * The id and the new expected end date the update arm hands to
   * UpdateRentalAsync; None when it never calls it because the date is
   * missing or does not parse. `parse` stands for DateTime.TryParse.
   */
  function UpdateTarget(j: Json, parse: string -> Option<Instant>): (t: Option<(Option<string>, Instant)>)
    ensures t.Some? ==> UpdateDataOf(j).Some? && UpdateDataOf(j).value.expectedEndDate.Some?
    ensures t.Some? ==> parse(UpdateDataOf(j).value.expectedEndDate.value) == Some(t.value.1)
    ensures t.Some? ==> t.value.0 == UpdateDataOf(j).value.id
    ensures (UpdateDataOf(j).Some? && UpdateDataOf(j).value.expectedEndDate.Some?
             && parse(UpdateDataOf(j).value.expectedEndDate.value).Some?) ==> t.Some?
  {
    var u := UpdateDataOf(j);
    if u.Some? && u.value.expectedEndDate.Some? && parse(u.value.expectedEndDate.value).Some?
    then Some((u.value.id, parse(u.value.expectedEndDate.value).value))
    else None
  }

  /** The id a getbyid request carries: only a JSON string counts. */
  function IdOf(j: Json): (id: Option<string>)
    ensures id.Some? <==> j.JString?
    ensures id.Some? ==> j == JString(id.value)
  {
    if j.JString? then Some(j.s) else None
  }

  /** How the request switch ends, as a function of the table before it runs. */
  function RequestOutcome(rentals: map<string, Rental>, failure: Option<string>, m: Decoding<RequestMessage>,
                          parse: string -> Option<Instant>): (out: ArmOutcome)
    ensures out.Completed? ==> (out.success <==> out.error.None?)
    ensures out.Completed? && out.data.RentalPayload? ==> out.success
    ensures out.Threw? ==> !m.Read? || failure.Some?
  {
    match m
    case Unreadable(e) => Threw(e)
    case NullDocument => Threw(CouldNotRead)
    case Read(req) =>
      if Arm(req) == Some("getbyid") then
        var id := IdOf(req.data);
        var (success, error) := if id.Some? then (true, None) else (false, Some(id.GetOr("") + " not sent"));
        var found := RS.GetRental(rentals, failure, id);
        if found.Failure? then Threw(found.error)
        else if found.value.Some? then Completed(success, error, RentalPayload(found.value.value))
        else Completed(false, Some(id.GetOr("") + " not found"), NoData)
      else if Arm(req) == Some("update") then
        var t := UpdateTarget(req.data, parse);
        if t.Some? && failure.None? && t.value.0.Some? && t.value.0.value in rentals
        then Completed(true, None, AmendedPayload(RS.Amended(rentals[t.value.0.value], t.value.1)))
        else Completed(true, None, NoData)
      else
        Completed(false, Some("no command " + req.operation.GetOr("")), NoData)
  }

  /** The rental table after the request switch: only an update that finds its rental changes it. */
  function RentalsAfter(rentals: map<string, Rental>, failure: Option<string>, m: Decoding<RequestMessage>,
                        parse: string -> Option<Instant>): (after: map<string, Rental>)
    ensures after.Keys == rentals.Keys
    ensures forall k :: k in rentals ==> after[k] == rentals[k].(expectedEndDate := after[k].expectedEndDate)
    ensures after != rentals ==> m.Read? && Arm(m.value) == Some("update")
  {
    if m.Read? && Arm(m.value) == Some("update") then
      var t := UpdateTarget(m.value.data, parse);
      if t.Some? && failure.None? && t.value.0.Some? && t.value.0.value in rentals
      then rentals[t.value.0.value := rentals[t.value.0.value].(expectedEndDate := t.value.1)]
      else rentals
    else rentals
  }

  /**
   * The request handler: runs the switch, then replies and acknowledges
   * through the shared tail.
   */
  method HandleRequest(db: Database, m: Decoding<RequestMessage>, parse: string -> Option<Instant>, broker: BrokerFault)
    returns (d: Delivery)
    requires db.Valid()
    modifies db
    ensures db.Valid()
    ensures db.deliveryMen == old(db.deliveryMen) && db.motorbikes == old(db.motorbikes) && db.failure == old(db.failure)
    ensures d == Deliver(m, RequestOutcome(old(db.rentals), old(db.failure), m, parse), broker)
    ensures db.rentals == RentalsAfter(old(db.rentals), old(db.failure), m, parse)
  {
    var outcome: ArmOutcome;
    match m {
    case Unreadable(e) =>
      outcome := Threw(e);
    case NullDocument =>
      outcome := Threw(CouldNotRead);
    case Read(req) =>
      var responseData := NoData;
      var success := true;
      var error: Option<string> := None;
      var threw: Option<string> := None;
      var arm := Arm(req);
      if arm == Some("getbyid") {
        var id: Option<string> := None;
        if req.data.JString? {
          id := Some(req.data.s);
        } else {
          success := false;
          error := Some(id.GetOr("") + " not sent");
        }
        var found := RS.GetRental(db.rentals, db.failure, id);
        if found.Failure? {
          threw := Some(found.error);
        } else if found.value.Some? {
          responseData := RentalPayload(found.value.value);
        } else {
          success := false;
          error := Some(id.GetOr("") + " not found");
        }
      } else if arm == Some("update") {
        var t := UpdateTarget(req.data, parse);
        if t.Some? {
          var updated := RS.UpdateRental(db, t.value.0, t.value.1);
          // A thrown query is caught inside the arm: the reply still says success.
          if updated.Success? && updated.value.Some? {
            responseData := AmendedPayload(updated.value.value);
          }
        }
      } else {
        success := false;
        error := Some("no command " + req.operation.GetOr(""));
      }
      outcome := if threw.Some? then Threw(threw.value) else Completed(success, error, responseData);
    }
    d := Deliver(m, outcome, broker);
  }

  /** The request switch ignores case: "GetById" and "UPDATE" are served like their lower-case forms. */
  lemma RequestArmIgnoresCase(req: RequestMessage, other: string)
    requires req.operation.Some? && Lower(other) == Lower(req.operation.value)
    ensures Arm(req.(operation := Some(other))) == Arm(req)
  {
  }

  /** Any other operation, or none, is answered with success false and "no command <op>". */
  lemma UnknownOperationRejected(rentals: map<string, Rental>, failure: Option<string>, req: RequestMessage,
                                 parse: string -> Option<Instant>)
    requires Arm(req) != Some("getbyid") && Arm(req) != Some("update")
    ensures RequestOutcome(rentals, failure, Read(req), parse) ==
      Completed(false, Some("no command " + req.operation.GetOr("")), NoData)
    ensures RentalsAfter(rentals, failure, Read(req), parse) == rentals
  {
  }

  /** A stored rental asked for by its id comes back with success and no error. */
  lemma GetByIdFindsStoredRental(rentals: map<string, Rental>, req: RequestMessage, id: string,
                                 parse: string -> Option<Instant>)
    requires Arm(req) == Some("getbyid") && req.data == JString(id) && id in rentals
    ensures RequestOutcome(rentals, None, Read(req), parse) == Completed(true, None, RentalPayload(rentals[id]))
  {
  }

  /** On a working database, a string id that is not stored answers success false and "<id> not found". */
  lemma GetByIdMissReportsNotFound(rentals: map<string, Rental>, req: RequestMessage, id: string,
                                   parse: string -> Option<Instant>)
    requires Arm(req) == Some("getbyid") && req.data == JString(id) && id !in rentals
    ensures RequestOutcome(rentals, None, Read(req), parse) == Completed(false, Some(id + " not found"), NoData)
    ensures RentalsAfter(rentals, None, Read(req), parse) == rentals
  {
  }

  /** GetRentalAsync has no try: on a failing database, getbyid throws that failure's message, whatever its data. */
  lemma GetByIdOnFailingDatabaseThrows(rentals: map<string, Rental>, failure: string, req: RequestMessage,
                                       parse: string -> Option<Instant>)
    requires Arm(req) == Some("getbyid")
    ensures RequestOutcome(rentals, Some(failure), Read(req), parse) == Threw(failure)
  {
  }

  /**
   * A getbyid whose data is not a JSON string is reported as " not found",
   * never as " not sent": the lookup with no id always runs and overwrites
   * the first error.
   */
  lemma MissingIdReportedAsNotFound(rentals: map<string, Rental>, req: RequestMessage, parse: string -> Option<Instant>)
    requires Arm(req) == Some("getbyid") && !req.data.JString?
    ensures RequestOutcome(rentals, None, Read(req), parse) == Completed(false, Some(" not found"), NoData)
  {
    assert "" + " not found" == " not found";
  }

  /** An update always replies success with no error, whether or not anything was amended. */
  lemma UpdateAlwaysReportsSuccess(rentals: map<string, Rental>, failure: Option<string>, req: RequestMessage,
                                   parse: string -> Option<Instant>)
    requires Arm(req) == Some("update")
    ensures var out := RequestOutcome(rentals, failure, Read(req), parse);
      && out.Completed? && out.success && out.error.None?
      && (out.data == NoData ==> RentalsAfter(rentals, failure, Read(req), parse) == rentals)
  {
  }

  /** An amendment's reply carries the rental as it was before the change, and the table then holds the new date. */
  lemma UpdateReplyShowsOldDate(rentals: map<string, Rental>, req: RequestMessage, parse: string -> Option<Instant>)
    requires Arm(req) == Some("update")
    requires RequestOutcome(rentals, None, Read(req), parse).data.AmendedPayload?
    ensures var t := UpdateTarget(req.data, parse).value;
      var before := rentals[t.0.value];
      && RequestOutcome(rentals, None, Read(req), parse).data.response.rental == before
      && RentalsAfter(rentals, None, Read(req), parse)[t.0.value] == before.(expectedEndDate := t.1)
  {
  }
}
