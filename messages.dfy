/**
 * What travels on the bus (OperationMessage, RequestMessage, ResponseMessage)
 * and the reply-and-acknowledge tail that both worker request handlers share
 * (MotorbikeConsumer/Services/RentalConsumer.cs and MotorbikeConsumer.cs).
 * Publishing, acking and nacking are values of a `Delivery`.
 */
module Messages {
  import opened Wrappers
  import opened Data

  /** A JSON element as System.Text.Json hands it to an `object` property. */
  datatype Json =
    | JNull
    | JString(s: string)
    | JBool(b: bool)
    | JNumber(n: int)                                    // an integer written in canonical form
    | JObject(fields: map<string, Json>, raw: string)   // raw: the element's text as received
    | JOther(raw: string)                                // arrays and every other number token ("-0", "1E2", "2.5")

  /** The outcome of JsonSerializer.Deserialize: it throws, yields null, or yields a value. */
  datatype Decoding<+T> = Unreadable(error: string) | NullDocument | Read(value: T)

  /** Fire-and-forget envelope. */
  datatype OperationMessage<+T> = OperationMessage(
    operation: Option<string>, data: Option<T>, timeStamp: Instant, entityType: Option<string>)

  /** Request envelope; the worker's copy leaves every field nullable. */
  datatype RequestMessage = RequestMessage(
    operation: Option<string>, data: Json, correlationId: Option<string>, replyTo: Option<string>)

  /** The `object? Data` of a response, by what the worker puts there. */
  datatype Payload =
    | NoData
    | RentalPayload(rental: Rental)
    | AmendedPayload(response: RentalResponse)
    | MotorbikePayload(motorbike: Motorbike)
    | MotorbikeListPayload(motorbikes: set<Motorbike>)

  datatype ResponseMessage = ResponseMessage(
    success: bool, data: Payload, error: Option<string>, correlationId: Option<string>)

  /** One BasicPublish of a response: exchange, routing key, properties and body. */
  datatype Reply = Reply(
    exchange: string, routingKey: string, correlationId: string, persistent: bool, body: ResponseMessage)

  datatype AckDecision = Ack | Nack(requeue: bool)

  /** Everything one handler invocation does on the channel, in order. */
  datatype Delivery = Delivery(replies: seq<Reply>, ack: AckDecision)

  /** The channel's behaviour while one message is handled. */
  datatype BrokerFault = Healthy | PublishFails(message: string) | AckFails(message: string)

  /** How the switch over the operation ended: with the three locals set, or with an exception. */
  datatype ArmOutcome =
    | Completed(success: bool, error: Option<string>, data: Payload)
    | Threw(message: string)

  datatype ReplyAddress = ReplyAddress(correlationId: string, replyTo: string)

  const DefaultExchange := ""
  const MissingAttributes := "requestMessage does not have all attributes necessary"

  /** `$"{entityType}.{operation}"`: a null entity type prints as nothing. */
  function RoutingKey(entityType: Option<string>, operation: string): string {
    entityType.GetOr("") + "." + operation
  }

  /** The queues a topic exchange delivers a routing key to, given (queue, key) bindings without wildcards. */
  function BoundQueues(bindings: set<(string, string)>, routingKey: string): (qs: set<string>)
    ensures forall q :: q in qs <==> (q, routingKey) in bindings
  {
    set b | b in bindings && b.1 == routingKey :: b.0
  }

  /** string.ToLower on ASCII letters. */
  function LowerChar(c: char): char {
    if 'A' <= c <= 'Z' then (c as int + 32) as char else c
  }

  function Lower(s: string): (r: string)
    ensures |r| == |s|
    ensures forall i :: 0 <= i < |s| ==> r[i] == LowerChar(s[i])
  {
    if s == [] then [] else [LowerChar(s[0])] + Lower(s[1..])
  }

  /** The decimal digits of a natural number, most significant first, without leading zeros. */
  function DigitsText(n: nat): (t: string)
    ensures 1 <= |t| && (|t| > 1 ==> t[0] != '0')
    ensures forall i :: 0 <= i < |t| ==> '0' <= t[i] <= '9'
    decreases n
  {
    var d := ['0', '1', '2', '3', '4', '5', '6', '7', '8', '9'];
    if n < 10 then [d[n]] else DigitsText(n / 10) + [d[n % 10]]
  }

  /**
   * `(Data as JsonElement?).ToString()`: the value of a string, "True" or
   * "False" for a boolean (bool.ToString), the text of anything else; a null
   * Data is no element and prints as "".
   */
  function ElementText(j: Json): (t: string)
    ensures j.JString? ==> t == j.s
    ensures j.JNull? ==> t == ""
    ensures j.JBool? ==> t == if j.b then "True" else "False"
    ensures j.JNumber? ==> 1 <= |t| && (j.n < 0 <==> t[0] == '-')
    ensures j.JNumber? && j.n >= 0 ==> forall i :: 0 <= i < |t| ==> '0' <= t[i] <= '9'
  {
    match j
    case JNull => ""
    case JString(s) => s
    case JBool(b) => if b then "True" else "False"
    case JNumber(n) => if n < 0 then "-" + DigitsText(-n) else DigitsText(n)
    case JObject(_, raw) => raw
    case JOther(raw) => raw
  }

  /** The label a request switch matches: the operation in lower case. */
  function Arm(req: RequestMessage): (tag: Option<string>)
    ensures tag.Some? <==> req.operation.Some?
    ensures tag.Some? ==> |tag.value| == |req.operation.value|
  {
    if req.operation.Some? then Some(Lower(req.operation.value)) else None
  }

  /** Both ids a reply needs, when the request decoded and carries them. */
  function ReplyAddressOf(m: Decoding<RequestMessage>): Option<ReplyAddress> {
    if m.Read? && m.value.correlationId.Some? && m.value.replyTo.Some?
    then Some(ReplyAddress(m.value.correlationId.value, m.value.replyTo.value))
    else None
  }

  /** A non-persistent response published on the default exchange to the caller's queue. */
  function ReplyFor(a: ReplyAddress, success: bool, data: Payload, error: Option<string>): (r: Reply)
    ensures AddressedTo(r, a) && !r.persistent
    ensures r.body.success == success && r.body.data == data && r.body.error == error
  {
    Reply(DefaultExchange, a.replyTo, a.correlationId, false,
          ResponseMessage(success, data, error, Some(a.correlationId)))
  }

  predicate AddressedTo(r: Reply, a: ReplyAddress) {
    && r.exchange == DefaultExchange
    && r.routingKey == a.replyTo
    && r.correlationId == a.correlationId
    && r.body.correlationId == Some(a.correlationId)
  }

  /**
   * The catch block: decode the body again and, if both ids are there and the
   * channel still publishes, send Success = false with the exception's
   * message; then nack without requeue.
   */
  function Fallback(a: Option<ReplyAddress>, message: string, broker: BrokerFault): (d: Delivery)
    ensures d.ack == Nack(false)
    ensures |d.replies| == (if a.None? || broker.PublishFails? then 0 else 1)
    ensures forall r <- d.replies :: AddressedTo(r, a.value) && !r.body.success && r.body.error == Some(message)
  {
    if a.None? || broker.PublishFails? then Delivery([], Nack(false))
    else Delivery([ReplyFor(a.value, false, NoData, Some(message))], Nack(false))
  }

  /**
   * What a request handler does once its switch has ended: the reply it
   * publishes (and the error reply of the catch block, when the ack throws
   * after the reply went out) and the final ack or nack.
   */
  function Deliver(m: Decoding<RequestMessage>, outcome: ArmOutcome, broker: BrokerFault): (d: Delivery)
    ensures forall r <- d.replies :: ReplyAddressOf(m).Some? && AddressedTo(r, ReplyAddressOf(m).value)
    ensures d.replies == [] <==> ReplyAddressOf(m).None? || broker.PublishFails?
    ensures d.ack.Nack? ==> !d.ack.requeue
    ensures d.ack == Ack <==> outcome.Completed? && ReplyAddressOf(m).Some? && broker.Healthy?
    ensures d.ack == Ack ==>
      d.replies == [ReplyFor(ReplyAddressOf(m).value, outcome.success, outcome.data, outcome.error)]
    ensures outcome.Threw? ==>
      forall r <- d.replies :: !r.body.success && r.body.error == Some(outcome.message)
    ensures |d.replies| == 2 <==> outcome.Completed? && ReplyAddressOf(m).Some? && broker.AckFails?
  {
    var a := ReplyAddressOf(m);
    match outcome
    case Threw(message) => Fallback(a, message, broker)
    case Completed(success, error, data) =>
      if a.None? then Fallback(a, MissingAttributes, broker)
      else if broker.PublishFails? then Fallback(a, broker.message, broker)
      else if broker.AckFails? then
        Delivery([ReplyFor(a.value, success, data, error)] + Fallback(a, broker.message, broker).replies, Nack(false))
      else Delivery([ReplyFor(a.value, success, data, error)], Ack)
  }
}
