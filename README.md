# rentalManager in Dafny

rentalManager is a motorbike rental system in two .NET processes joined by a
RabbitMQ topic exchange (`rental-manager-exchange`):

- the **gateway** (`RentalManager`) takes HTTP requests. It publishes
  fire-and-forget commands, and it calls the worker over a request/reply
  client that keeps a registry of pending correlation ids;
- the **worker** (`MotorbikeConsumer`) consumes those messages. It applies the
  rental and motorbike rules to its PostgreSQL store and answers requests on
  the caller's private reply queue.

This project models the rules both processes apply and proves what they
guarantee. The modules are:

| file | module | what it models |
|---|---|---|
| `worker_enums.dfy`, `gateway_enums.dfy` | `WorkerEnums`, `GatewayEnums` | the two copies of `Utils/Enum.cs`; an enum value no member names is kept as `Other(n)` |
| `data.dfy` | `Data` | the worker's records, and its database as a `Database` class with one map per table and the schema's constraints as `Valid()` |
| `messages.dfy` | `Messages` | the envelopes; the reply, ack and nack tail both request handlers share (`Deliver`) |
| `rental_service.dfy` | `RentalService` | the rental creation gate and the priced amendment of the expected end date |
| `motorbike_service.dfy` | `MotorbikeService` | motorbike create, lookups, plate-only update and guarded delete |
| `rental_consumer.dfy`, `motorbike_consumer.dfy` | `RentalConsumer`, `MotorbikeConsumer` | queue bindings, the command handlers and the request handlers |
| `rpc.dfy` | `Rpc` | `AsyncDictionary`; the request lifecycle as step functions and as the `RpcClient` class proved equal to them; trace lemmas |
| `wire.dfy` | `Wire` | how enums travel between the processes (as numbers) |
| `gateway.dfy` | `Gateway` | the rental and delivery-man HTTP actions |

Modelling choices:

- A timestamp is an `int` count of 100 ns ticks.
- `(int)TimeSpan.TotalDays` is `RentalService.TruncDays`. It truncates toward
  zero, which Dafny's `/` does not.
- Money is `real`, so `0.20` and `0.40` are exact.
- A failing database is the `failure` field of `Database`: while it is set,
  every query and save throws that message.
- Unique-index, key, column-size and foreign-key violations are modelled as
  saves that the store refuses.
- Broker faults while a request is handled are a `BrokerFault` value.
- The RPC events are inputs: the reply arriving, the 32-second delay elapsing,
  the caller resuming.

The early-return penalty is the one `UpdateRentalAsync` computes: a flat
`0.20` (7-day plan) or `0.40` (15-day plan) per day returned early, not a
fraction of the daily rate. Example: a 7-day plan, moved from day 7 to day 5,
costs 150.4 (`RentalService.ExampleEarlyReturn`). A penalty of 20 % of the
daily rate per day would give 162.

## Model

| member | source | states |
|---|---|---|
| `WorkerEnums.LicenceFromOrdinal` | MotorbikeConsumer/Utils/Enum.cs:3-9 | a licence number decodes to the member with that ordinal (unknown 0, A 1, B 2, AB 3); any other number stays unnamed |
| `WorkerEnums.FromOrdinal` | MotorbikeConsumer/Utils/Enum.cs:11-19 | plan ordinals are 0..5 (unknown, Days7…Days50) and are not day counts; exactly 1..5 name a priced plan |
| `WorkerEnums.OrdinalRoundTrip` | MotorbikeConsumer/Utils/Enum.cs:11-19 | decoding the ordinal of any plan value gives that value back |
| `WorkerEnums.DailyRate` | MotorbikeConsumer/Utils/Enum.cs:21-29 | the price table read by plan name: positive exactly for the five named plans, 0 otherwise |
| `WorkerEnums.RateStrictlyDecreasing` | MotorbikeConsumer/Utils/Enum.cs:24-28 | a longer plan has a strictly lower daily rate |
| `GatewayEnums.LicenceOrdinal` | RentalManager/Utils/Enum.cs:3-9 | the gateway's licence numbering is 0..3, the same as the worker's |
| `GatewayEnums.FromNumber` | RentalManager/Utils/Enum.cs:11-19 | on the gateway a plan's number is its length: exactly 7, 15, 30, 45, 50 name a plan |
| `GatewayEnums.TablePrice` | RentalManager/Utils/Enum.cs:21-29 | the gateway's price table is positive exactly for named plans |
| `Messages.BoundQueues` | MotorbikeConsumer/Services/RentalConsumer.cs:47-55 | a topic exchange without wildcards delivers a key to exactly the queues bound to it |
| `Messages.Lower` | MotorbikeConsumer/Services/RentalConsumer.cs:124 | lower-casing keeps the length and maps each character |
| `Messages.Arm` | MotorbikeConsumer/Services/MotorbikeConsumer.cs:139 | the switch label exists exactly when the operation does |
| `Messages.DigitsText` | MotorbikeConsumer/Services/MotorbikeConsumer.cs:146 | a non-negative number prints as decimal digits without leading zeros |
| `Messages.ElementText` | MotorbikeConsumer/Services/MotorbikeConsumer.cs:146-156 | a string element prints as its value, a boolean as "True" or "False", a number as its digits with a sign exactly when negative, null Data as "" |
| `Messages.ReplyFor` | MotorbikeConsumer/Services/RentalConsumer.cs:197-218 | a response is non-persistent, goes to ReplyTo on the default exchange with the CorrelationId in its properties and body, and carries success, data and error unchanged |
| `Messages.Fallback` | MotorbikeConsumer/Services/RentalConsumer.cs:221-260 | the catch block always nacks without requeue; it publishes one Success false reply with the exception's message exactly when both ids decode and the channel publishes |
| `Messages.Deliver` | MotorbikeConsumer/Services/RentalConsumer.cs:188-260 | every reply goes to the request's ReplyTo on the default exchange under its CorrelationId; no reply when either id is missing or publishing fails; ack only after a completed switch with both ids on a healthy channel, with exactly one reply; nacks never requeue; a thrown exception gives at most one reply, Success false with its message; a failing ack gives the reply plus the error reply |
| `RentalService.TruncDays` | MotorbikeConsumer/Services/RentalService.cs:97-98 | whole days of a span, truncated toward zero, for both signs |
| `RentalService.TruncDaysIsOdd` | MotorbikeConsumer/Services/RentalService.cs:97-98 | negating a span negates its day count |
| `RentalService.TruncDaysOfDays` | MotorbikeConsumer/Services/RentalService.cs:97-98 | k whole days plus less than a day count as k |
| `RentalService.TruncDaysSuperadditive` | MotorbikeConsumer/Services/RentalService.cs:124-131 | day counts of two non-negative spans add up to at most the joined span's |
| `RentalService.AmendedTotal` | MotorbikeConsumer/Services/RentalService.cs:97-148 | the amended total is never negative while both dates are on or after the start; for an unnamed plan it is only the late fee, 50 per extra day, and 0 when the date is kept or brought forward |
| `RentalService.AmendToSameDate` | MotorbikeConsumer/Services/RentalService.cs:99-111 | keeping the date bills U days at the plan's rate, and 0 for unknown or unnamed plans |
| `RentalService.ExtensionByWholeDays` | MotorbikeConsumer/Services/RentalService.cs:112-125 | extending by k ≥ 1 whole days bills L days at the plan's rate plus 50 per extra day |
| `RentalService.ExtraDayCostsLateFee` | MotorbikeConsumer/Services/RentalService.cs:124 | past the old date each further day adds exactly 50 |
| `RentalService.NoPenaltyOnLongPlans` | MotorbikeConsumer/Services/RentalService.cs:138-147 | an earlier date on the 30/45/50-day plans (or an unpriced plan) bills U days at the rate with no penalty |
| `RentalService.EarlyReturnNeverDearer` | MotorbikeConsumer/Services/RentalService.cs:126-149 | returning early, on or after the start, never costs more than keeping the date |
| `RentalService.ExampleSameDate` | MotorbikeConsumer/Services/RentalService.cs:99-103 | 7-day plan kept at day 7 costs 210 |
| `RentalService.ExampleExtension` | MotorbikeConsumer/Services/RentalService.cs:112-124 | 7-day plan moved from day 7 to day 10 costs 360 |
| `RentalService.ExampleEarlyReturn` | MotorbikeConsumer/Services/RentalService.cs:128-132 | 7-day plan moved from day 7 to day 5 costs 150.4: the penalty is a flat 0.20 per day |
| `RentalService.CreateVerdictOf` | MotorbikeConsumer/Services/RentalService.cs:35-75 | the reason a rental is not stored is the first check that fails, in the order the service checks: database, delivery man, licence, motorbike, existing rental, key |
| `RentalService.SavedIffAllChecksPass` | MotorbikeConsumer/Services/RentalService.cs:37-67 | a rental is stored exactly when the delivery man exists with licence A or AB, the motorbike exists, no rental of any dates references it, and the key is new |
| `RentalService.SavedKeepsInvariants` | MotorbikeConsumer/Services/RentalService.cs:66-67 | storing a rental that passed the gate keeps every schema constraint and one rental per motorbike |
| `RentalService.SavedKeepsInvariantsOfSchema` | MotorbikeConsumer/Services/RentalService.cs:66-67 | storing a rental that passed the gate keeps the keys and foreign keys |
| `RentalService.CreateRental` | MotorbikeConsumer/Services/RentalService.cs:31-80 | a null rental, a failing database or a failed check adds nothing; otherwise exactly the given rental is added; the other tables never change |
| `RentalService.GetRental` | MotorbikeConsumer/Services/RentalService.cs:81-86 | the rental stored under the id, none for a null or unknown id, the exception when the database fails |
| `RentalService.ResponseOf` | MotorbikeConsumer/Services/RentalService.cs:163-179 | the copy constructor copies the rental and leaves the total unset |
| `RentalService.Amended` | MotorbikeConsumer/Services/RentalService.cs:96-149 | the response is the rental as it was, with the total for the new date |
| `RentalService.UpdateRental` | MotorbikeConsumer/Services/RentalService.cs:88-160 | a null id returns null and changes nothing, even on a failing database, as Find answers a null key without a query; an unknown id returns null and changes nothing; otherwise a failing database throws; a known id returns the snapshot taken before the change, with its old date and the priced total, and only that rental's expected end date changes |
| `MotorbikeService.CreateKeepsConsistent` | MotorbikeConsumer/Services/MotorbikeService.cs:32-47 | an accepted motorbike keeps unique plates, column sizes and keys |
| `MotorbikeService.CreateMotorbike` | MotorbikeConsumer/Services/MotorbikeService.cs:32-47 | the motorbike is added exactly when its key and plate are new and its columns fit; a refused save is swallowed and adds nothing |
| `MotorbikeService.AllMotorbikes` | MotorbikeConsumer/Services/MotorbikeService.cs:48-62 | every stored motorbike and nothing else; empty when the query fails |
| `MotorbikeService.MotorbikeById` | MotorbikeConsumer/Services/MotorbikeService.cs:63-80 | the motorbike with that id, none for a null id, an unknown id or a failing query |
| `MotorbikeService.MotorbikeByPlate` | MotorbikeConsumer/Services/MotorbikeService.cs:82-99 | the motorbike with that plate, found exactly when one is stored; none on a failing query |
| `MotorbikeService.CreatedIsFound` | MotorbikeConsumer/Services/MotorbikeService.cs:32-99 | a motorbike just created is found by its id and by its plate |
| `MotorbikeService.PlateChangeKeepsConsistent` | MotorbikeConsumer/Services/MotorbikeService.cs:100-119 | an accepted plate change keeps unique plates and every other constraint |
| `MotorbikeService.UpdateMotorbike` | MotorbikeConsumer/Services/MotorbikeService.cs:100-119 | only the plate of the motorbike with that id changes, year and model stay; unknown ids, clashing or too long plates change nothing |
| `MotorbikeService.DeleteMotorbike` | MotorbikeConsumer/Services/MotorbikeService.cs:120-170 | refused with "There is a rental with this motorbike <id>" while any rental references it; otherwise the id is removed and success reported even if nothing existed; failures report "Failed database changes <message>" |
| `MotorbikeService.DeletedIsNotFound` | MotorbikeConsumer/Services/MotorbikeService.cs:137-148 | after a delete the motorbike is found neither by id nor in the list |
| `RentalConsumer.RoutingOfRentalKeys` | MotorbikeConsumer/Services/RentalConsumer.cs:47-55 | rental.create reaches only rental-queue; rental.update and rental.getbyid only rental-requests; other keys no queue |
| `RentalConsumer.HandleCommand` | MotorbikeConsumer/Services/RentalConsumer.cs:68-101 | only the exact operation "create" reaches rental creation; every command is nacked without requeue |
| `RentalConsumer.UpdateDataOf` | MotorbikeConsumer/Services/RentalConsumer.cs:156-158 | the update data binds exactly from a JSON object whose Id and ExpectedEndDate are strings or null |
| `RentalConsumer.UpdateTarget` | MotorbikeConsumer/Services/RentalConsumer.cs:156-168 | the service is called exactly when the data binds and its ExpectedEndDate is present and parses; it gets the bound id and the parsed date |
| `RentalConsumer.IdOf` | MotorbikeConsumer/Services/RentalConsumer.cs:131-142 | getbyid has an id exactly when Data is a JSON string, and then it is that string |
| `RentalConsumer.RequestOutcome` | MotorbikeConsumer/Services/RentalConsumer.cs:111-186 | success holds exactly when no error is set; a rental is only returned with success; only an unreadable or null message or a failing database throws |
| `RentalConsumer.RentalsAfter` | MotorbikeConsumer/Services/RentalConsumer.cs:152-181 | a request changes at most expected end dates, and only through the update arm |
| `RentalConsumer.HandleRequest` | MotorbikeConsumer/Services/RentalConsumer.cs:104-262 | the handler's replies and ack are the shared tail applied to the switch outcome, and the store changes as the update arm says |
| `RentalConsumer.RequestArmIgnoresCase` | MotorbikeConsumer/Services/RentalConsumer.cs:124 | operations that differ only in case select the same arm |
| `RentalConsumer.UnknownOperationRejected` | MotorbikeConsumer/Services/RentalConsumer.cs:182-186 | any other operation gives success false and "no command <op>", and changes nothing |
| `RentalConsumer.GetByIdFindsStoredRental` | MotorbikeConsumer/Services/RentalConsumer.cs:130-151 | a stored id sent as a JSON string returns its rental with success |
| `RentalConsumer.GetByIdMissReportsNotFound` | MotorbikeConsumer/Services/RentalConsumer.cs:144-150 | on a working database, a string id that is not stored answers success false with "<id> not found" and changes nothing |
| `RentalConsumer.GetByIdOnFailingDatabaseThrows` | MotorbikeConsumer/Services/RentalService.cs:81-86 | the lookup is not guarded: on a failing database getbyid throws that failure's message |
| `RentalConsumer.MissingIdReportedAsNotFound` | MotorbikeConsumer/Services/RentalConsumer.cs:133-150 | data that is not a string gives success false and " not found": the lookup still runs and overwrites " not sent" |
| `RentalConsumer.UpdateAlwaysReportsSuccess` | MotorbikeConsumer/Services/RentalConsumer.cs:152-181 | an update always replies success with no error, even when nothing was amended |
| `RentalConsumer.UpdateReplyShowsOldDate` | MotorbikeConsumer/Services/RentalConsumer.cs:167 | an amendment's reply carries the rental with its old date, while the store holds the new one |
| `MotorbikeConsumer.GetByIdIsNeverRouted` | MotorbikeConsumer/Services/MotorbikeConsumer.cs:48-60 | no binding carries motorbike.getbyid, so that arm is unreachable; get and getbyplate reach motorbike-requests |
| `MotorbikeConsumer.HandleCommand` | MotorbikeConsumer/Services/MotorbikeConsumer.cs:79-122 | exactly create, update and delete reach the store; is2024 and anything else change nothing; every command is nacked without requeue |
| `MotorbikeConsumer.RequestOutcome` | MotorbikeConsumer/Services/MotorbikeConsumer.cs:125-170 | only an unreadable body throws; success holds exactly when no error is set; a returned motorbike is a stored one (the miss and failure answers are the lemmas below) |
| `MotorbikeConsumer.HandleRequest` | MotorbikeConsumer/Services/MotorbikeConsumer.cs:125-250 | the handler's replies and ack are the shared tail applied to the switch outcome; the store is only read |
| `MotorbikeConsumer.GetListsEveryMotorbike` | MotorbikeConsumer/Services/MotorbikeConsumer.cs:141-144 | get replies success with exactly the stored motorbikes |
| `MotorbikeConsumer.UnknownOperationRejected` | MotorbikeConsumer/Services/MotorbikeConsumer.cs:165-169 | any other operation gives success false and "no command <op>" |
| `MotorbikeConsumer.PlateLookupFindsStored` | MotorbikeConsumer/Services/MotorbikeConsumer.cs:155-164 | a stored plate returns its motorbike with success |
| `MotorbikeConsumer.LookupMissReportsNotFound` | MotorbikeConsumer/Services/MotorbikeConsumer.cs:145-164 | on a working database, getbyid of an unstored id and getbyplate of an unstored plate answer success false with "<key> not found" |
| `MotorbikeConsumer.FailedQueryLooksLikeEmptyStore` | MotorbikeConsumer/Services/MotorbikeConsumer.cs:141-164 | a failing database answers get with an empty list and success, and getbyplate with "<plate> not found" |
| `MotorbikeConsumer.RepliesReachCaller` | MotorbikeConsumer/Services/MotorbikeConsumer.cs:172-202 | with both ids, every reply goes to ReplyTo under the CorrelationId, and a healthy channel gives one reply and an ack |
| `Rpc.AsyncDictionary.constructor` | RentalManager/Services/RabbitMQRpcService.cs:159-162 | a new dictionary is empty |
| `Rpc.AsyncDictionary.Add` | RentalManager/Services/RabbitMQRpcService.cs:163-166 | inserts the pair, and fails leaving the map unchanged when the key is present |
| `Rpc.AsyncDictionary.TryRemove` | RentalManager/Services/RabbitMQRpcService.cs:167-178 | returns true with the stored value and removes the key exactly when it was present; otherwise false and no change |
| `Rpc.AsyncDictionary.Remove` | RentalManager/Services/RabbitMQRpcService.cs:179-183 | returns whether the key was present; afterwards it is absent and other keys are untouched |
| `Rpc.InitialInv` | RentalManager/Services/RabbitMQRpcService.cs:26-30 | a new client's bookkeeping is well formed |
| `Rpc.SendStep` | RentalManager/Services/RabbitMQRpcService.cs:69-102 | the request goes to the exchange under "<entityType>.<operation>", with the same correlation id in body and properties and ReplyTo the private queue; the entry is registered first; a failed initialisation leaves it behind, a failed publish removes it |
| `Rpc.ReplyStep` | RentalManager/Services/RabbitMQRpcService.cs:52-62 | a reply is taken exactly when its correlation id is non-empty and registered; it removes that entry; anything else changes nothing |
| `Rpc.TimeoutStep` | RentalManager/Services/RabbitMQRpcService.cs:103-110 | an unanswered call fails with "timed out"; exactly its id leaves the registry and exactly that call ends, and every other request, call and reply stays as it was |
| `Rpc.Unwrap` | RentalManager/Services/RabbitMQRpcService.cs:111-116 | returns the data exactly for a successful reply with data; a null reply or Success false fails with Error ?? "unknown", null data with "No response received" |
| `Rpc.ResumeStep` | RentalManager/Services/RabbitMQRpcService.cs:111-123 | an answered call returns its unwrapped reply and ends; a failure also removes its id from the registry; nothing else changes |
| `Rpc.Step` | RentalManager/Services/RabbitMQRpcService.cs:52-123 | no event lowers the handle counter, changes a recorded reply or renames the reply queue |
| `Rpc.Run` | RentalManager/Services/RabbitMQRpcService.cs:52-123 | the same holds over any sequence of events |
| `Rpc.StepPreservesInv` | RentalManager/Services/RabbitMQRpcService.cs:52-123 | every event keeps the bookkeeping well formed |
| `Rpc.RunPreservesInv` | RentalManager/Services/RabbitMQRpcService.cs:52-123 | any sequence of events keeps the bookkeeping well formed |
| `Rpc.FirstReplyStays` | RentalManager/Services/RabbitMQRpcService.cs:55-59 | once a call has a reply, no later event replaces it |
| `Rpc.UnregisteredStaysIncomplete` | RentalManager/Services/RabbitMQRpcService.cs:55 | a call that is neither registered nor answered is never answered later |
| `Rpc.LateReplyIsDropped` | RentalManager/Services/RabbitMQRpcService.cs:103-110 | after a timeout the reply for that id is dropped, and no later event completes the call |
| `Rpc.ReplyDisablesTimeout` | RentalManager/Services/RabbitMQRpcService.cs:104-111 | once its reply is in, a call cannot time out and resumes with the unwrapped reply |
| `Rpc.FailedSendBookkeeping` | RentalManager/Services/RabbitMQRpcService.cs:73-123 | a failed initialisation leaves the new entry registered; a failed publish leaves the registry as before |
| `Rpc.RequestReplyRoundTrip` | RentalManager/Services/RabbitMQRpcService.cs:81-116 | a published request answered by the worker on a healthy channel is accepted by the reply consumer and the call returns the worker's unwrapped reply |
| `Rpc.RpcClient.constructor` | RentalManager/Services/RabbitMQRpcService.cs:26-30 | a new client has an empty registry and no reply queue |
| `Rpc.RpcClient.SendRequest` | RentalManager/Services/RabbitMQRpcService.cs:69-102 | performs exactly the send step on the dictionary |
| `Rpc.RpcClient.OnReply` | RentalManager/Services/RabbitMQRpcService.cs:52-62 | performs exactly the reply step |
| `Rpc.RpcClient.OnDelayElapsed` | RentalManager/Services/RabbitMQRpcService.cs:103-123 | performs exactly the timeout step, including the second removal |
| `Rpc.RpcClient.Resume` | RentalManager/Services/RabbitMQRpcService.cs:111-123 | performs exactly the resume step |
| `Wire.WorkerLicenceReceived` | RentalManager/Utils/Enum.cs:3-9 | a gateway licence reaches the worker as a named licence with the same number |
| `Wire.LicenceArrivesByName` | MotorbikeConsumer/Utils/Enum.cs:3-9 | each licence arrives under its own name |
| `Wire.WorkerPlanReceived` | RentalManager/Utils/Enum.cs:11-19 | a gateway plan reaches the worker as the value with the same number |
| `Wire.GatewayPlanReceived` | MotorbikeConsumer/Utils/Enum.cs:11-19 | a worker plan reaches the gateway as the value with the same number |
| `Wire.NamedPlansArriveUnpriced` | RentalManager/Utils/Enum.cs:14-18 | every named gateway plan lands on an unnamed worker value with daily rate 0 |
| `Wire.NumberedPlanRoundTrip` | RentalManager/Utils/Enum.cs:11-19 | as written, a named gateway plan stored by number on the worker comes back to the gateway as itself: the two numberings cancel |
| `Wire.NamedPlansReturnUnpriced` | MotorbikeConsumer/Utils/Enum.cs:14-18 | every named worker plan comes back unnamed, with table price 0 |
| `Wire.WorkerPlanByName` | RentalManager/Utils/Enum.cs:11-29 | sent by name, a plan keeps its name and its price |
| `Wire.GatewayPlanByName` | MotorbikeConsumer/Utils/Enum.cs:11-29 | read back by name, a plan keeps its name and its price |
| `Wire.PlanByNameRoundTrip` | RentalManager/Utils/Enum.cs:11-19 | by name, a priced plan survives the trip to the worker and back |
| `Gateway.AddDays` | RentalManager/Controller/RentalController.cs:30-31 | adds whole days, and fails outside DateTime's range |
| `Gateway.Parsed` | RentalManager/Controller/RentalController.cs:30-39 | a missing date string never parses; a present one parses as DateTime.TryParse does |
| `Gateway.ToRentalType` | RentalManager/Controller/RentalController.cs:101-112 | exactly 7, 15, 30, 45, 50 map to the plan of that length; every other value, and null, to unknown |
| `Gateway.ToRentalTypeInvertsNumber` | RentalManager/Controller/RentalController.cs:101-112 | a plan's length maps back to the plan |
| `Gateway.RentalTypePriceToShow` | RentalManager/Controller/RentalController.cs:113-124 | the price table's entry for the plan; unknown, null and unnamed show 0 |
| `Gateway.CreateRental` | RentalManager/Controller/RentalController.cs:26-50 | one "create" command on entity "rental" with the body's ids and the plan mapped from plano; the start is data_inicio if it parses, else now plus one day; the end is data_termino if it parses, else the start plus plano days; the expected end is data_previsao_termino if it parses, else the end; it answers 400 "Dados inválidos" exactly when a default it needs falls outside DateTime's range |
| `Gateway.DefaultPeriodIsPlanLength` | RentalManager/Controller/RentalController.cs:30-39 | with no dates, the start is now plus one day and both end dates are plano days after it |
| `Gateway.CreatedPlanIsUnpricedOnWorker` | RentalManager/Controller/RentalController.cs:40-42 | as written, a created rental's plan reaches the worker as Other(plano), and its amendment is billed at rate 0 |
| `Gateway.CreatedPlanByNameIsPriced` | RentalManager/Controller/RentalController.cs:40-42 | sent by name, the plan is priced from the gateway's table |
| `Gateway.UpdateRequest` | RentalManager/Controller/RentalController.cs:75-85 | the update carries the route id, the parsed return date (else now) and plan unknown |
| `Gateway.RentalElement` | RentalManager/Controller/RentalController.cs:75-88 | the rental the gateway sends arrives as a JSON object with its seven properties, the id as a string or null, the dates as rendered text and the plan as its number |
| `Gateway.UpdateRequestReachesRental` | RentalManager/Controller/RentalController.cs:75-88 | the worker's update arm receives exactly that id and date, when it parses back the date text the gateway wrote |
| `Gateway.UpdateReply` | RentalManager/Controller/RentalController.cs:86-99 | any failure answers 400 "Dados inválidos"; an amendment answers with its total |
| `Gateway.GetRentalReply` | RentalManager/Controller/RentalController.cs:52-71 | a failed call answers 400 "Locação não encontrada"; a rental is shown with its own ids and dates and, as valor_diaria, the gateway's table price of the plan number the worker returns; 404 only for a successful reply that holds no rental |
| `Gateway.GetRentalNeverNotFound` | RentalManager/Controller/RentalController.cs:57-61 | the 404 branch is unreachable for anything the rental worker replies |
| `Gateway.CreatedRentalShownAtTablePrice` | RentalManager/Controller/RentalController.cs:62-63 | a rental the gateway created with a named plan is shown with that plan's positive table price |
| `Gateway.ShownDailyPriceIsZero` | RentalManager/Controller/RentalController.cs:62-63 | a rental stored with one of the worker's own plan values 1..5, which the gateway never sends, is shown with valor_diaria 0 |
| `Gateway.ToDriversLicenseType` | RentalManager/Controller/DeliveryManController.cs:57-66 | exactly "A", "B" and "AB" (case-sensitive) map to A, B, AB; everything else to unknown |
| `Gateway.OnlyAOrABMayRent` | RentalManager/Controller/DeliveryManController.cs:57-66 | only the exact strings "A" and "AB" give a delivery man the worker lets rent |
| `Gateway.CreateDeliveryMan` | RentalManager/Controller/DeliveryManController.cs:23-56 | an unparseable birth date answers 400 and publishes nothing; otherwise one "create" on "delivery-man" with the body's fields |

## Left out

- Broker plumbing is not modelled: connections, channels, exchange and queue declarations, `InitializeAsync`, `Dispose`. Publish, ack and nack are values of a `Delivery`; broker faults are a `BrokerFault` input.
- JSON text is not modelled. Decoding is a `Decoding` value. A JSON element carries its text as a field. The gateway's object text and date rendering are parameters.
- `DateTime.TryParse` is a `parse` parameter. `DateTime.Now` is a `now` parameter. `Guid.NewGuid()` is the caller-chosen `id` of `Rpc.SendStep`.
- Time zones are not modelled: the UTC conversions of the date columns and of `DateTime.Parse`.
- `double` rounding of `TotalRentalValue` and `TotalDays` is not modelled: totals are exact reals and day counts exact truncations.
- Null ids are not modelled: worker records hold non-null strings. A JSON string whose text is itself a JSON object is not re-parsed by the update arm.
- The typed decode `Deserialize<T>` in `SendRequestAsync` is reduced to "null data fails": a payload of the wrong shape is not modelled.
- `string.ToLower` folds ASCII letters only.
- `ElementText` prints only integers written in canonical form as digits; every other JSON number token ("-0", "1E2", "2.5") is `JOther` and prints as its raw text.
- The lock in `AsyncDictionary`, `SemaphoreSlim`, `TaskCompletionSource` and `Task.WhenAny` are not modelled. Calls interleave one event at a time.
- Database faults are all-or-nothing: `failure` makes every query and save throw, so a failure between a query and its save is not modelled.
- The order of the motorbike list is not modelled: `MotorbikeService.AllMotorbikes` is a set.
- The navigation properties `DeliveryMan` and `Motorbike` that `RentalResponse` copies are not modelled.
- `Notify2024` only writes a log line; `MotorbikeConsumer.HandleCommand` states that is2024 changes nothing.
- Logging and console output are not modelled.
- Not part of this model:
  - `MotorbikeConsumer/Services/DeliveryManConsumer.cs` and `DeliveryManService.cs`: a one-arm dispatch and a single insert;
  - `RentalManager/Controller/MotorbikeController.cs`: HTTP actions that only publish;
  - `RentalManager/Services/RabbitMQService.cs`: the fire-and-forget publisher;
  - the EF migrations and both `Program.cs`.

## Findings

| source | as written | input that shows it | evidently intended | confidence | as-written member | corrected member |
|---|---|---|---|---|---|---|
| RentalManager/Utils/Enum.cs:14-18 | the gateway numbers plans by day count (Days7 = 7 … Days50 = 50); both sides serialise enums as numbers; the worker numbers plans 1..5 and prices by name | POST /locacao with `plano` 7: the worker stores plan value 7, which names no plan, so a same-date amendment is billed 0 instead of 7 × 30, and any other amendment bills only the late fee (GET is unaffected: the number comes back and the gateway reads it as Days7) | plans travel by name, so the worker prices the plan the customer chose | not executed | `Wire.NamedPlansArriveUnpriced` | `Wire.WorkerPlanByName` |
