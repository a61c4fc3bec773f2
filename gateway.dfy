/**
 * The gateway's HTTP actions for rentals and delivery men
 * (RentalManager/Controller/RentalController.cs, DeliveryManController.cs):
 * how request bodies become published commands and RPC requests, and how
 * replies become HTTP results. `now` stands for DateTime.Now and `parse` for
 * DateTime.TryParse.
 */
module Gateway {
  import opened Wrappers
  import opened Data
  import opened Messages
  import G = GatewayEnums
  import W = WorkerEnums
  import Wire
  import Rpc
  import RS = RentalService
  import RC = RentalConsumer

  const RentalEntity := "rental"
  const DeliveryManEntity := "delivery-man"
  const InvalidData := "Dados inválidos"
  const RentalNotFound := "Locação não encontrada"

  /** DateTime.MaxValue in ticks; DateTime.MinValue is 0. */
  const MaxTicks := 3_155_378_975_999_999_999

  /** DateTime.AddDays with a whole number of days: out of range it throws. */
  function AddDays(t: Instant, days: int): (r: Option<Instant>)
    ensures r.Some? ==> r.value - t == days * TicksPerDay
    ensures r.None? <==> !(0 <= t + days * TicksPerDay <= MaxTicks)
  {
    var u := t + days * TicksPerDay;
    if 0 <= u <= MaxTicks then Some(u) else None
  }

  /** DateTime.TryParse: a null string does not parse. */
  function Parsed(parse: string -> Option<Instant>, s: Option<string>): (t: Option<Instant>)
    ensures s.None? ==> t.None?
    ensures s.Some? ==> t == parse(s.value)
  {
    if s.Some? then parse(s.value) else None
  }

  datatype HttpResult<+T> = Ok(value: T) | BadRequest(message: string) | NotFound(message: string)

  /** ToRentalType: exactly the five plan lengths name a plan. */
  function ToRentalType(i: Option<int>): (p: G.RentalType)
    ensures G.Named(p) <==> i.Some? && i.value in {7, 15, 30, 45, 50}
    ensures G.Named(p) ==> G.Number(p) == i.value
    ensures !G.Named(p) ==> p == G.Unknown
  {
    if i == Some(7) then G.Days7
    else if i == Some(15) then G.Days15
    else if i == Some(30) then G.Days30
    else if i == Some(45) then G.Days45
    else if i == Some(50) then G.Days50
    else G.Unknown
  }

  /** A plan length round-trips through ToRentalType. */
  lemma ToRentalTypeInvertsNumber(p: G.RentalType)
    requires G.Named(p)
    ensures ToRentalType(Some(G.Number(p))) == p
  {
  }

  /** RentalTypePriceToShow: the price table's entry for the plan; unknown, null and unnamed values show 0. */
  function RentalTypePriceToShow(t: Option<G.RentalType>): (price: int)
    ensures t.Some? ==> price == G.TablePrice(t.value)
    ensures price > 0 <==> t.Some? && G.Named(t.value)
  {
    if t.None? then 0
    else match t.value
      case Unknown => 0
      case Days7 => 30
      case Days15 => 28
      case Days30 => 22
      case Days45 => 20
      case Days50 => 18
      case Other(_) => 0
  }

  /** RentalJson: the body of POST /locacao; plano is required, the rest may be missing. */
  datatype RentalJson = RentalJson(
    identificador: Option<string>, entregadorId: Option<string>, motoId: Option<string>,
    dataInicio: Option<string>, dataTermino: Option<string>, dataPrevisaoTermino: Option<string>,
    plano: int)

  /** The gateway's Rental as these actions fill it (its dates and plan are always set here). */
  datatype GatewayRental = GatewayRental(
    id: Option<string>, deliveryManId: Option<string>, motorbikeId: Option<string>,
    startDate: Instant, endDate: Instant, expectedEndDate: Instant, plan: G.RentalType)

  /**
   * CreateRental: missing dates default to tomorrow, then start + plano days,
   * then the end date; the rental is published as one "create" command on
   * entity "rental". A date out of DateTime's range throws and answers 400.
   */
  function CreateRental(json: RentalJson, now: Instant, parse: string -> Option<Instant>)
    : (r: HttpResult<OperationMessage<GatewayRental>>)
    ensures r.BadRequest? ==> r.message == InvalidData
    ensures !r.NotFound?
    ensures r.Ok? ==>
      && r.value.operation == Some("create")
      && r.value.entityType == Some(RentalEntity)
      && r.value.timeStamp == now
      && r.value.data.Some?
      && r.value.data.value.id == json.identificador
      && r.value.data.value.deliveryManId == json.entregadorId
      && r.value.data.value.motorbikeId == json.motoId
      && r.value.data.value.plan == ToRentalType(Some(json.plano))
    ensures Parsed(parse, json.dataInicio).Some? && Parsed(parse, json.dataTermino).Some? ==> r.Ok?
    ensures r.Ok? ==>
      var rental := r.value.data.value;
      && rental.startDate ==
           (if Parsed(parse, json.dataInicio).Some? then Parsed(parse, json.dataInicio).value else now + TicksPerDay)
      && rental.endDate ==
           (if Parsed(parse, json.dataTermino).Some? then Parsed(parse, json.dataTermino).value
            else rental.startDate + json.plano * TicksPerDay)
      && rental.expectedEndDate ==
           (if Parsed(parse, json.dataPrevisaoTermino).Some? then Parsed(parse, json.dataPrevisaoTermino).value
            else rental.endDate)
    ensures var start := if Parsed(parse, json.dataInicio).Some? then Parsed(parse, json.dataInicio).value
                         else now + TicksPerDay;
      r.BadRequest? <==>
        || (Parsed(parse, json.dataInicio).None? && AddDays(now, 1).None?)
        || (Parsed(parse, json.dataTermino).None? && AddDays(start, json.plano).None?)
  {
    var start := if Parsed(parse, json.dataInicio).Some? then Parsed(parse, json.dataInicio) else AddDays(now, 1);
    if start.None? then BadRequest(InvalidData)
    else
      var end := if Parsed(parse, json.dataTermino).Some? then Parsed(parse, json.dataTermino) else AddDays(start.value, json.plano);
      if end.None? then BadRequest(InvalidData)
      else
        var expected := if Parsed(parse, json.dataPrevisaoTermino).Some? then Parsed(parse, json.dataPrevisaoTermino).value else end.value;
        var rental := GatewayRental(json.identificador, json.entregadorId, json.motoId,
                                    start.value, end.value, expected, ToRentalType(Some(json.plano)));
        Ok(OperationMessage(Some("create"), Some(rental), now, Some(RentalEntity)))
  }

  /** With no dates given, the rental starts a day from now and both end dates are the plan's length later. */
  lemma DefaultPeriodIsPlanLength(json: RentalJson, now: Instant, parse: string -> Option<Instant>)
    requires Parsed(parse, json.dataInicio).None? && Parsed(parse, json.dataTermino).None?
    requires Parsed(parse, json.dataPrevisaoTermino).None?
    requires CreateRental(json, now, parse).Ok?
    ensures var rental := CreateRental(json, now, parse).value.data.value;
      && rental.startDate == now + TicksPerDay
      && rental.endDate - rental.startDate == json.plano * TicksPerDay
      && rental.expectedEndDate == rental.endDate
      && RS.TruncDays(rental.endDate - rental.startDate) == json.plano
  {
    var rental := CreateRental(json, now, parse).value.data.value;
    if json.plano >= 0 {
      RS.TruncDaysOfDays(json.plano, 0);
    } else {
      RS.TruncDaysOfDays(-json.plano, 0);
      RS.TruncDaysIsOdd(rental.endDate - rental.startDate);
    }
  }

  /**
   * Carried as its number, the plan of a created rental reaches the worker as
   * an unnamed value: the worker's pricing charges no daily rate for it.
   */
  lemma CreatedPlanIsUnpricedOnWorker(json: RentalJson, now: Instant, parse: string -> Option<Instant>)
    requires json.plano in {7, 15, 30, 45, 50}
    requires CreateRental(json, now, parse).Ok?
    ensures var rental := CreateRental(json, now, parse).value.data.value;
      var plan := Wire.WorkerPlanReceived(rental.plan);
      && plan == W.Other(json.plano)
      && W.DailyRate(plan) == 0
      && RS.AmendedTotal(plan, rental.startDate, rental.expectedEndDate, rental.expectedEndDate) == 0.0
  {
    Wire.NamedPlansArriveUnpriced(ToRentalType(Some(json.plano)));
  }

  /** With plans sent by name, the worker charges the gateway's table price. */
  lemma CreatedPlanByNameIsPriced(json: RentalJson, now: Instant, parse: string -> Option<Instant>)
    requires json.plano in {7, 15, 30, 45, 50}
    requires CreateRental(json, now, parse).Ok?
    ensures var rental := CreateRental(json, now, parse).value.data.value;
      var plan := Wire.WorkerPlanByName(rental.plan);
      && W.Named(plan)
      && W.DailyRate(plan) == G.TablePrice(ToRentalType(Some(json.plano)))
      && RS.AmendedTotal(plan, rental.startDate, rental.expectedEndDate, rental.expectedEndDate) ==
         (RS.TruncDays(rental.expectedEndDate - rental.startDate) * G.TablePrice(rental.plan)) as real
  {
  }

  /** The shape the gateway's Rental is serialised to, as the worker's JSON element sees it. */
  function RentalElement(r: GatewayRental, render: Instant -> string, text: string): (j: Json)
    ensures j.JObject? && j.raw == text
    ensures j.fields.Keys == {"Id", "DeliveryManId", "MotorbikeId", "StartDate", "EndDate", "ExpectedEndDate", "RentalType"}
    ensures j.fields["Id"] == if r.id.Some? then JString(r.id.value) else JNull
    ensures j.fields["ExpectedEndDate"] == JString(render(r.expectedEndDate))
    ensures j.fields["RentalType"] == JNumber(G.Number(r.plan))
  {
    var str := (s: Option<string>) => if s.Some? then JString(s.value) else JNull;
    JObject(map[
      "Id" := str(r.id),
      "DeliveryManId" := str(r.deliveryManId),
      "MotorbikeId" := str(r.motorbikeId),
      "StartDate" := JString(render(r.startDate)),
      "EndDate" := JString(render(r.endDate)),
      "ExpectedEndDate" := JString(render(r.expectedEndDate)),
      "RentalType" := JNumber(G.Number(r.plan))], text)
  }

  /**
   * The rental sent with "update": the route id and the parsed return date
   * (else now); placeholder ids and an unknown plan fill the rest.
   */
  function UpdateRequest(id: string, dataDevolucao: string, now: Instant, parse: string -> Option<Instant>)
    : (r: GatewayRental)
    ensures r.id == Some(id) && r.plan == G.Unknown
    ensures r.expectedEndDate == if parse(dataDevolucao).Some? then parse(dataDevolucao).value else now
  {
    var expected := if parse(dataDevolucao).Some? then parse(dataDevolucao).value else now;
    GatewayRental(Some(id), Some(" "), Some(" "), now, now, expected, G.Unknown)
  }

  /**
   * End to end: the update request names the right rental and date on the
   * worker, provided the worker parses back the date text the gateway wrote.
   */
  lemma UpdateRequestReachesRental(id: string, dataDevolucao: string, now: Instant,
                                   parse: string -> Option<Instant>, render: Instant -> string,
                                   workerParse: string -> Option<Instant>, text: string)
    requires forall t :: workerParse(render(t)) == Some(t)
    ensures var r := UpdateRequest(id, dataDevolucao, now, parse);
      RC.UpdateTarget(RentalElement(r, render, text), workerParse) == Some((Some(id), r.expectedEndDate))
  {
    var r := UpdateRequest(id, dataDevolucao, now, parse);
    var j := RentalElement(r, render, text);
    assert j.fields["Id"] == JString(id);
    assert j.fields["ExpectedEndDate"] == JString(render(r.expectedEndDate));
  }

  /** The answer to PUT /locacao/{id}/devolucao: the total on success, 400 on any failure. */
  function UpdateReply(result: Result<Payload, string>): (r: HttpResult<Option<real>>)
    ensures r.Ok? <==> result.Success?
    ensures r.BadRequest? ==> r.message == InvalidData
    ensures result.Success? && result.value.AmendedPayload? ==> r == Ok(result.value.response.totalRentalValue)
  {
    match result
    case Failure(_) => BadRequest(InvalidData)
    case Success(p) => Ok(if p.AmendedPayload? then p.response.totalRentalValue else None)
  }

  /** RentalJsonShown: the rental's fields and the daily price shown for its plan. */
  datatype RentalShown = RentalShown(
    identificador: string, entregadorId: string, motoId: string,
    dataInicio: Instant, dataTermino: Instant, dataPrevisaoTermino: Instant, valorDiaria: int)

  /**
   * The answer to GET /locacao/{id}. The worker's plan is read back by number;
   * a reply that does not hold a rental counts as null.
   */
  function GetRentalReply(result: Result<Payload, string>): (r: HttpResult<RentalShown>)
    ensures r.BadRequest? <==> result.Failure?
    ensures r.BadRequest? ==> r.message == RentalNotFound
    ensures r.Ok? ==> result.value.RentalPayload? && r.value.identificador == result.value.rental.id
    ensures r.NotFound? <==> result.Success? && !result.value.RentalPayload?
    ensures r.Ok? ==>
      var rental := result.value.rental;
      && r.value.entregadorId == rental.deliveryManId && r.value.motoId == rental.motorbikeId
      && r.value.dataInicio == rental.startDate && r.value.dataTermino == rental.endDate
      && r.value.dataPrevisaoTermino == rental.expectedEndDate
      && r.value.valorDiaria == G.TablePrice(Wire.GatewayPlanReceived(rental.plan))
  {
    match result
    case Failure(_) => BadRequest(RentalNotFound)
    case Success(p) =>
      if p.RentalPayload? then
        var rental := p.rental;
        Ok(RentalShown(rental.id, rental.deliveryManId, rental.motorbikeId,
                       rental.startDate, rental.endDate, rental.expectedEndDate,
                       RentalTypePriceToShow(Some(Wire.GatewayPlanReceived(rental.plan)))))
      else NotFound(RentalNotFound)
  }

  /**
   * The 404 branch is dead: whatever the rental worker answers to "getbyid",
   * the unwrap has already failed on a reply without data.
   */
  lemma GetRentalNeverNotFound(rentals: map<string, Rental>, failure: Option<string>, req: RequestMessage,
                               parse: string -> Option<Instant>, broker: BrokerFault)
    requires Arm(req) == Some("getbyid")
    ensures var d := Deliver(Read(req), RC.RequestOutcome(rentals, failure, Read(req), parse), broker);
      forall reply <- d.replies :: !GetRentalReply(Rpc.Unwrap(Read(reply.body))).NotFound?
  {
  }

  /**
   * A rental the gateway created is shown with its plan's table price: the
   * worker keeps the plan number the gateway sent, and the gateway reads that
   * number back as the same plan.
   */
  lemma CreatedRentalShownAtTablePrice(json: RentalJson, now: Instant, parse: string -> Option<Instant>, r: Rental)
    requires json.plano in {7, 15, 30, 45, 50}
    requires CreateRental(json, now, parse).Ok?
    requires r.plan == Wire.WorkerPlanReceived(CreateRental(json, now, parse).value.data.value.plan)
    ensures GetRentalReply(Success(RentalPayload(r))).Ok?
    ensures GetRentalReply(Success(RentalPayload(r))).value.valorDiaria == G.TablePrice(ToRentalType(Some(json.plano)))
    ensures GetRentalReply(Success(RentalPayload(r))).value.valorDiaria > 0
  {
    Wire.NumberedPlanRoundTrip(ToRentalType(Some(json.plano)));
  }

  /**
   * A rental stored with one of the worker's own plan values 1..5 (which the
   * gateway never sends) is shown with a daily price of 0: that value comes
   * back as an unnamed number.
   */
  lemma ShownDailyPriceIsZero(r: Rental)
    requires W.Named(r.plan)
    ensures GetRentalReply(Success(RentalPayload(r))).Ok?
    ensures GetRentalReply(Success(RentalPayload(r))).value.valorDiaria == 0
  {
    Wire.NamedPlansReturnUnpriced(r.plan);
  }

  /** DeliveryManJson: the body of POST /entregadores. */
  datatype DeliveryManJson = DeliveryManJson(
    identificador: string, nome: string, cnpj: string, dataNascimento: string,
    numeroCnh: string, tipoCnh: string, imagemCnh: string)

  datatype GatewayDeliveryMan = GatewayDeliveryMan(
    id: string, name: string, legalId: string, birthDate: Instant,
    licenceNumber: string, licenceType: G.LicenceType, picture: Option<string>)

  /** ToDriversLicenseType: exactly "A", "B" and "AB" (case-sensitive) name a licence. */
  function ToDriversLicenseType(s: Option<string>): (t: G.LicenceType)
    ensures t == G.A <==> s == Some("A")
    ensures t == G.B <==> s == Some("B")
    ensures t == G.AB <==> s == Some("AB")
    ensures t == G.LicenceUnknown <==> s !in {Some("A"), Some("B"), Some("AB")}
  {
    if s == Some("A") then G.A
    else if s == Some("B") then G.B
    else if s == Some("AB") then G.AB
    else G.LicenceUnknown
  }

  /** Only the exact strings "A" and "AB" give a delivery man the worker lets rent. */
  lemma OnlyAOrABMayRent(s: Option<string>)
    ensures RS.Eligible(Wire.WorkerLicenceReceived(ToDriversLicenseType(s))) <==> s == Some("A") || s == Some("AB")
  {
  }

  /** CreateDeliveryMan: an unparseable birth date answers 400 and publishes nothing; otherwise one "create" on "delivery-man". */
  function CreateDeliveryMan(json: DeliveryManJson, now: Instant, parse: string -> Option<Instant>)
    : (r: HttpResult<OperationMessage<GatewayDeliveryMan>>)
    ensures r.Ok? <==> parse(json.dataNascimento).Some?
    ensures r.BadRequest? ==> r.message == InvalidData
    ensures r.Ok? ==>
      && r.value.operation == Some("create")
      && r.value.entityType == Some(DeliveryManEntity)
      && r.value.data.Some?
      && var d := r.value.data.value;
         && d.id == json.identificador && d.name == json.nome && d.legalId == json.cnpj
         && d.birthDate == parse(json.dataNascimento).value
         && d.licenceNumber == json.numeroCnh && d.picture == Some(json.imagemCnh)
         && d.licenceType == ToDriversLicenseType(Some(json.tipoCnh))
  {
    var birth := parse(json.dataNascimento);
    if birth.None? then BadRequest(InvalidData)
    else
      var deliveryMan := GatewayDeliveryMan(json.identificador, json.nome, json.cnpj, birth.value,
                                            json.numeroCnh, ToDriversLicenseType(Some(json.tipoCnh)),
                                            Some(json.imagemCnh));
      Ok(OperationMessage(Some("create"), Some(deliveryMan), now, Some(DeliveryManEntity)))
  }
}
