/**
 * The worker's motorbike queues (MotorbikeConsumer/Services/MotorbikeConsumer.cs):
 * commands on motorbike-queue, lookups on motorbike-requests.
 */
module MotorbikeConsumer {
  import opened Wrappers
  import opened Data
  import opened Messages
  import MS = MotorbikeService

  const ExchangeName := "rental-manager-exchange"
  const QueueName := "motorbike-queue"
  const RequestQueueName := "motorbike-requests"
  const PrefetchCount := 1

  /** The getbyid binding is commented out in the source, so no binding carries it. */
  const Bindings: set<(string, string)> := {
    (QueueName, "motorbike.create"), (QueueName, "motorbike.update"),
    (QueueName, "motorbike.delete"), (QueueName, "motorbike.is2024"),
    (RequestQueueName, "motorbike.get"), (RequestQueueName, "motorbike.getbyplate")
  }

  /** Lookups by id are never delivered: the exchange routes "motorbike.getbyid" to no queue. */
  lemma GetByIdIsNeverRouted()
    ensures BoundQueues(Bindings, "motorbike.getbyid") == {}
    ensures BoundQueues(Bindings, "motorbike.get") == {RequestQueueName}
    ensures BoundQueues(Bindings, "motorbike.getbyplate") == {RequestQueueName}
    ensures BoundQueues(Bindings, "motorbike.create") == {QueueName}
  {
    assert (RequestQueueName, "motorbike.get") in Bindings;
    assert (RequestQueueName, "motorbike.getbyplate") in Bindings;
    assert (QueueName, "motorbike.create") in Bindings;
  }

  function Operation(m: Decoding<OperationMessage<Motorbike>>): Option<string> {
    if m.Read? then m.value.operation else None
  }

  /**
   * The command handler: the exact operations create, update and delete reach
   * the service (the delete result is dropped); is2024 only logs; the delivery
   * is always nacked without requeue.
   */
  method HandleCommand(db: Database, m: Decoding<OperationMessage<Motorbike>>) returns (ack: AckDecision)
    requires db.Valid()
    modifies db
    ensures db.Valid()
    ensures ack == Nack(false)
    ensures db.deliveryMen == old(db.deliveryMen) && db.rentals == old(db.rentals) && db.failure == old(db.failure)
    ensures Operation(m) == Some("create") ==>
      db.motorbikes ==
        if m.value.data.Some? && MS.CreateAccepted(old(db.motorbikes), old(db.failure), m.value.data.value)
        then old(db.motorbikes)[m.value.data.value.id := m.value.data.value]
        else old(db.motorbikes)
    ensures Operation(m) == Some("update") ==>
      db.motorbikes ==
        if m.value.data.Some? && MS.PlateChangeAccepted(old(db.motorbikes), old(db.failure), m.value.data.value)
        then old(db.motorbikes)[m.value.data.value.id := old(db.motorbikes)[m.value.data.value.id].(plate := m.value.data.value.plate)]
        else old(db.motorbikes)
    ensures Operation(m) == Some("delete") ==>
      db.motorbikes ==
        if m.value.data.Some? && old(db.failure).None? && !Rented(old(db.rentals), m.value.data.value.id)
        then old(db.motorbikes) - {m.value.data.value.id}
        else old(db.motorbikes)
    ensures Operation(m) !in {Some("create"), Some("update"), Some("delete")} ==> db.motorbikes == old(db.motorbikes)
  {
    var op := Operation(m);
    if op == Some("create") {
      MS.CreateMotorbike(db, m.value.data);
    } else if op == Some("update") {
      MS.UpdateMotorbike(db, m.value.data);
    } else if op == Some("delete") {
      var _ := MS.DeleteMotorbike(db, m.value.data);
    }
    // "is2024" only writes a log line; other operations are logged as unknown.
    ack := Nack(false);
  }

  /** How the request switch ends. The service swallows query failures, so only an unreadable body throws. */
  function RequestOutcome(motorbikes: map<string, Motorbike>, failure: Option<string>, m: Decoding<RequestMessage>): (out: ArmOutcome)
    requires MotorbikeTable(motorbikes)
    ensures out.Threw? <==> m.Unreadable?
    ensures out.Completed? ==> (out.success <==> out.error.None?)
    ensures out.Completed? && out.data.MotorbikePayload? ==> out.data.motorbike in MS.AllMotorbikes(motorbikes, failure)
  {
    match m
    case Unreadable(e) => Threw(e)
    case NullDocument => Completed(false, Some("no command "), NoData)
    case Read(req) =>
      var arm := Arm(req);
      if arm == Some("get") then
        Completed(true, None, MotorbikeListPayload(MS.AllMotorbikes(motorbikes, failure)))
      else if arm == Some("getbyid") then
        var id := ElementText(req.data);
        var found := MS.MotorbikeById(motorbikes, failure, Some(id));
        if found.Some? then Completed(true, None, MotorbikePayload(found.value))
        else Completed(false, Some(id + " not found"), NoData)
      else if arm == Some("getbyplate") then
        var plate := ElementText(req.data);
        var found := MS.MotorbikeByPlate(motorbikes, failure, Some(plate));
        if found.Some? then Completed(true, None, MotorbikePayload(found.value))
        else Completed(false, Some(plate + " not found"), NoData)
      else
        Completed(false, Some("no command " + req.operation.GetOr("")), NoData)
  }

  /** The request handler only reads the store. */
  method HandleRequest(db: Database, m: Decoding<RequestMessage>, broker: BrokerFault) returns (d: Delivery)
    requires db.Valid()
    ensures d == Deliver(m, RequestOutcome(db.motorbikes, db.failure, m), broker)
  {
    var outcome: ArmOutcome;
    match m {
    case Unreadable(e) =>
      outcome := Threw(e);
    case NullDocument =>
      outcome := Completed(false, Some("no command "), NoData);
    case Read(req) =>
      var responseData := NoData;
      var success := true;
      var error: Option<string> := None;
      var arm := Arm(req);
      if arm == Some("get") {
        responseData := MotorbikeListPayload(MS.AllMotorbikes(db.motorbikes, db.failure));
      } else if arm == Some("getbyid") {
        var id := ElementText(req.data);
        var found := MS.MotorbikeById(db.motorbikes, db.failure, Some(id));
        if found.Some? {
          responseData := MotorbikePayload(found.value);
        } else {
          success := false;
          error := Some(id + " not found");
        }
      } else if arm == Some("getbyplate") {
        var plate := ElementText(req.data);
        var found := MS.MotorbikeByPlate(db.motorbikes, db.failure, Some(plate));
        if found.Some? {
          responseData := MotorbikePayload(found.value);
        } else {
          success := false;
          error := Some(plate + " not found");
        }
      } else {
        success := false;
        error := Some("no command " + req.operation.GetOr(""));
      }
      outcome := Completed(success, error, responseData);
    }
    d := Deliver(m, outcome, broker);
  }

  /** "get" answers success with every stored motorbike. */
  lemma GetListsEveryMotorbike(motorbikes: map<string, Motorbike>, req: RequestMessage)
    requires MotorbikeTable(motorbikes) && Arm(req) == Some("get")
    ensures var out := RequestOutcome(motorbikes, None, Read(req));
      && out.Completed? && out.success && out.error.None? && out.data.MotorbikeListPayload?
      && (forall k :: k in motorbikes ==> motorbikes[k] in out.data.motorbikes)
      && (forall m :: m in out.data.motorbikes ==> m.id in motorbikes && motorbikes[m.id] == m)
  {
  }

  /** Any other operation, or none, is answered with success false and "no command <op>". */
  lemma UnknownOperationRejected(motorbikes: map<string, Motorbike>, failure: Option<string>, req: RequestMessage)
    requires MotorbikeTable(motorbikes)
    requires Arm(req) !in {Some("get"), Some("getbyid"), Some("getbyplate")}
    ensures RequestOutcome(motorbikes, failure, Read(req)) ==
      Completed(false, Some("no command " + req.operation.GetOr("")), NoData)
  {
  }

  /** A stored plate, sent as a JSON string, comes back with its motorbike. */
  lemma PlateLookupFindsStored(motorbikes: map<string, Motorbike>, req: RequestMessage, k: string)
    requires MotorbikeTable(motorbikes) && k in motorbikes
    requires Arm(req) == Some("getbyplate") && req.data == JString(motorbikes[k].plate)
    ensures RequestOutcome(motorbikes, None, Read(req)) == Completed(true, None, MotorbikePayload(motorbikes[k]))
  {
    var found := MS.MotorbikeByPlate(motorbikes, None, Some(motorbikes[k].plate));
    assert found.Some?;
    assert found.value.id in motorbikes && motorbikes[found.value.id] == found.value;
  }

  /** On a working database, a lookup that matches nothing answers success false and "<key> not found". */
  lemma LookupMissReportsNotFound(motorbikes: map<string, Motorbike>, req: RequestMessage)
    requires MotorbikeTable(motorbikes)
    ensures Arm(req) == Some("getbyid") && ElementText(req.data) !in motorbikes ==>
      RequestOutcome(motorbikes, None, Read(req)) == Completed(false, Some(ElementText(req.data) + " not found"), NoData)
    ensures Arm(req) == Some("getbyplate") && (forall k :: k in motorbikes ==> motorbikes[k].plate != ElementText(req.data)) ==>
      RequestOutcome(motorbikes, None, Read(req)) == Completed(false, Some(ElementText(req.data) + " not found"), NoData)
  {
  }

  /**
   * A failing database is not reported as such: the list comes back empty with
   * success, and a plate lookup answers "<plate> not found".
   */
  lemma FailedQueryLooksLikeEmptyStore(motorbikes: map<string, Motorbike>, failure: string, req: RequestMessage)
    requires MotorbikeTable(motorbikes)
    requires Arm(req) == Some("get") || Arm(req) == Some("getbyplate")
    ensures Arm(req) == Some("get") ==>
      RequestOutcome(motorbikes, Some(failure), Read(req)) == Completed(true, None, MotorbikeListPayload({}))
    ensures Arm(req) == Some("getbyplate") ==>
      RequestOutcome(motorbikes, Some(failure), Read(req)) ==
        Completed(false, Some(ElementText(req.data) + " not found"), NoData)
  {
  }

  /** Every reply to a readable request with both ids goes back to the caller's queue under its correlation id. */
  lemma RepliesReachCaller(db: Database, req: RequestMessage, broker: BrokerFault)
    requires db.Valid()
    requires req.correlationId.Some? && req.replyTo.Some?
    ensures var d := Deliver(Read(req), RequestOutcome(db.motorbikes, db.failure, Read(req)), broker);
      && (broker.Healthy? ==> d.ack == Ack && |d.replies| == 1)
      && (forall r <- d.replies :: r.routingKey == req.replyTo.value && r.correlationId == req.correlationId.value)
  {
  }
}
