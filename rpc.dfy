/**
 * The gateway's request/reply client (RentalManager/Services/RabbitMQRpcService.cs).
 * A call registers its correlation id, publishes, and then waits for either
 * the reply or the timeout; the order of those events is the caller's input.
 * `RpcState` and the step functions are the specification; `RpcClient`
 * performs the same steps on an `AsyncDictionary`.
 */
module Rpc {
  import opened Wrappers
  import opened Messages

  /** AsyncDictionary: a map whose operations take a lock (the lock is not modelled). */
  class AsyncDictionary<K(==), V> {
    var entries: map<K, V>

    constructor ()
      ensures entries == map[]
    {
      entries := map[];
    }

    /** Dictionary.Add: throws, modelled as `added == false`, when the key is present. */
    method Add(key: K, value: V) returns (added: bool)
      modifies this
      ensures added <==> key !in old(entries)
      ensures entries == if added then old(entries)[key := value] else old(entries)
    {
      if key in entries {
        return false;
      }
      entries := entries[key := value];
      return true;
    }

    method TryRemove(key: K) returns (found: bool, value: Option<V>)
      modifies this
      ensures found <==> key in old(entries)
      ensures found ==> value == Some(old(entries)[key]) && entries == old(entries) - {key}
      ensures !found ==> value == None && entries == old(entries)
    {
      if key in entries {
        value := Some(entries[key]);
        entries := entries - {key};
        found := true;
      } else {
        value := None;
        found := false;
      }
    }

    method Remove(key: K) returns (removed: bool)
      modifies this
      ensures removed <==> key in old(entries)
      ensures entries == old(entries) - {key}
    {
      removed := key in entries;
      entries := entries - {key};
    }
  }

  const ExchangeName := "rental-manager-exchange"
  const TimedOut := "timed out"
  const Unknown := "unknown"
  const NoResponse := "No response received"

  /**
   * The client's state. A call is named by a handle (its TaskCompletionSource).
   * pending: the registry, correlation id -> handle;
   * completions: the handles whose TaskCompletionSource holds a reply;
   * calls: the calls still inside SendRequestAsync, handle -> correlation id;
   * replyQueue: the private reply queue, once initialised.
   */
  datatype RpcState = RpcState(
    pending: map<string, nat>,
    completions: map<nat, Decoding<ResponseMessage>>,
    calls: map<nat, string>,
    nextHandle: nat,
    replyQueue: Option<string>)

  const Initial := RpcState(map[], map[], map[], 0, None)

  /** The publish of one request: the properties and the body carry the same ids. */
  datatype PublishedRequest = PublishedRequest(
    exchange: string, routingKey: string, correlationId: string, replyTo: string, body: RequestMessage)

  datatype SendOutcome =
    | DuplicateKey                    // Add threw
    | NotConnected(message: string)   // initialisation threw outside the try: the entry stays
    | PublishFailed(message: string)  // the catch removed the entry
    | Published(request: PublishedRequest)

  /** Well-formed bookkeeping: handles are allocated in order, registered ones are not yet completed, the registry is injective. */
  ghost predicate Inv(s: RpcState) {
    && (forall c :: c in s.pending ==> s.pending[c] < s.nextHandle && s.pending[c] !in s.completions)
    && (forall h :: h in s.calls ==> h < s.nextHandle)
    && (forall h :: h in s.completions ==> h < s.nextHandle)
    && (forall c1, c2 :: c1 in s.pending && c2 in s.pending && c1 != c2 ==> s.pending[c1] != s.pending[c2])
  }

  lemma InitialInv()
    ensures Inv(Initial)
  {
  }

  /**
   * SendRequestAsync up to the wait. `connect` is what initialisation yields
   * (the reply queue's name, or the exception); `publish` is None when the
   * publish succeeds and the exception's message when it throws.
   */
  function SendStep(s: RpcState, id: string, operation: string, data: Json, entityType: Option<string>,
                    connect: Result<string, string>, publish: Option<string>): (r: (RpcState, SendOutcome))
    ensures r.1.DuplicateKey? <==> id in s.pending
    ensures r.1.Published? ==>
      var p := r.1.request;
      && p.exchange == ExchangeName
      && p.routingKey == RoutingKey(entityType, operation)
      && p.body == RequestMessage(Some(operation), data, Some(p.correlationId), Some(p.replyTo))
      && p.correlationId == id
      && r.0.replyQueue == Some(p.replyTo)
      && r.0.pending == s.pending[id := s.nextHandle]
      && r.0.calls == s.calls[s.nextHandle := id]
    ensures r.1.NotConnected? ==> r.0.pending == s.pending[id := s.nextHandle] && r.0.calls == s.calls
    ensures r.1.PublishFailed? || r.1.DuplicateKey? ==> r.0.pending == s.pending && r.0.calls == s.calls
  {
    if id in s.pending then (s, DuplicateKey)
    else
      var h := s.nextHandle;
      var s1 := s.(pending := s.pending[id := h], nextHandle := h + 1);
      if s1.replyQueue.None? && connect.Failure? then (s1, NotConnected(connect.error))
      else
        var q := if s1.replyQueue.Some? then s1.replyQueue.value else connect.value;
        var s2 := s1.(replyQueue := Some(q));
        if publish.Some? then
          (s2.(pending := s2.pending - {id}), PublishFailed(publish.value))
        else
          (s2.(calls := s2.calls[h := id]),
           Published(PublishedRequest(ExchangeName, RoutingKey(entityType, operation), id, q,
                                      RequestMessage(Some(operation), data, Some(id), Some(q)))))
  }

  /**
   * The reply consumer: a non-empty correlation id that is still registered
   * is removed and its TaskCompletionSource gets the body (TrySetResult keeps
   * a first result); anything else is dropped.
   */
  function ReplyStep(s: RpcState, correlationId: Option<string>, body: Decoding<ResponseMessage>): (r: (RpcState, bool))
    ensures r.1 <==> correlationId.Some? && correlationId.value != "" && correlationId.value in s.pending
    ensures !r.1 ==> r.0 == s
    ensures r.1 ==> r.0.pending == s.pending - {correlationId.value} && r.0.calls == s.calls
  {
    if correlationId.Some? && correlationId.value != "" && correlationId.value in s.pending then
      var h := s.pending[correlationId.value];
      var completions := if h in s.completions then s.completions else s.completions[h := body];
      (s.(pending := s.pending - {correlationId.value}, completions := completions), true)
    else
      (s, false)
  }

  /** The 32-second delay wins the race: the entry is removed (twice, harmlessly) and the call fails with "timed out". */
  function TimeoutStep(s: RpcState, call: nat): (r: (RpcState, Option<Result<Payload, string>>))
    ensures r.1.Some? <==> call in s.calls && call !in s.completions
    ensures r.1.Some? ==> r.1.value == Failure(TimedOut) && s.calls[call] !in r.0.pending && call !in r.0.calls
    ensures r.1.None? ==> r.0 == s
    ensures r.1.Some? ==> r.0 == s.(pending := s.pending - {s.calls[call]}, calls := s.calls - {call})
  {
    if call in s.calls && call !in s.completions then
      var id := s.calls[call];
      (s.(pending := (s.pending - {id}) - {id}, calls := s.calls - {call}), Some(Failure(TimedOut)))
    else
      (s, None)
  }

  /**
   * The response unwrap: a body that does not decode fails with the decoder's
   * message, a null response or Success == false with Error ?? "unknown",
   * null data with "No response received".
   */
  function Unwrap(body: Decoding<ResponseMessage>): (r: Result<Payload, string>)
    ensures r.Success? <==> body.Read? && body.value.success && body.value.data != NoData
    ensures r.Success? ==> r.value == body.value.data
    ensures body.Read? && !body.value.success ==> r == Failure(body.value.error.GetOr(Unknown))
    ensures body.NullDocument? ==> r == Failure(Unknown)
    ensures body.Read? && body.value.success && body.value.data == NoData ==> r == Failure(NoResponse)
  {
    match body
    case Unreadable(e) => Failure(e)
    case NullDocument => Failure(Unknown)
    case Read(resp) =>
      if !resp.success then Failure(resp.error.GetOr(Unknown))
      else if resp.data == NoData then Failure(NoResponse)
      else Success(resp.data)
  }

  /** The reply won the race: the call returns the unwrapped reply; a failure removes the id once more. */
  function ResumeStep(s: RpcState, call: nat): (r: (RpcState, Option<Result<Payload, string>>))
    ensures r.1.Some? <==> call in s.calls && call in s.completions
    ensures r.1.Some? ==> r.1.value == Unwrap(s.completions[call]) && call !in r.0.calls
    ensures r.1.None? ==> r.0 == s
    ensures r.1.Some? ==>
      r.0 == s.(calls := s.calls - {call},
                pending := if r.1.value.Failure? then s.pending - {s.calls[call]} else s.pending)
  {
    if call in s.calls && call in s.completions then
      var id := s.calls[call];
      var result := Unwrap(s.completions[call]);
      (s.(calls := s.calls - {call}, pending := if result.Failure? then s.pending - {id} else s.pending), Some(result))
    else
      (s, None)
  }

  datatype Event =
    | Send(id: string, operation: string, data: Json, entityType: Option<string>,
           connect: Result<string, string>, publish: Option<string>)
    | ReplyArrives(correlationId: Option<string>, body: Decoding<ResponseMessage>)
    | DelayElapses(call: nat)
    | CallResumes(call: nat)

  /** One event. Handles only grow, a reply once recorded never changes, and the reply queue once named stays. */
  function Step(s: RpcState, e: Event): (r: RpcState)
    ensures r.nextHandle >= s.nextHandle
    ensures forall h :: h in s.completions ==> h in r.completions && r.completions[h] == s.completions[h]
    ensures s.replyQueue.Some? ==> r.replyQueue == s.replyQueue
  {
    match e
    case Send(id, op, data, entityType, connect, publish) => SendStep(s, id, op, data, entityType, connect, publish).0
    case ReplyArrives(c, body) => ReplyStep(s, c, body).0
    case DelayElapses(call) => TimeoutStep(s, call).0
    case CallResumes(call) => ResumeStep(s, call).0
  }

  /** A sequence of events, in order; what Step keeps, the whole sequence keeps. */
  function Run(s: RpcState, events: seq<Event>): (r: RpcState)
    ensures r.nextHandle >= s.nextHandle
    ensures forall h :: h in s.completions ==> h in r.completions && r.completions[h] == s.completions[h]
    ensures s.replyQueue.Some? ==> r.replyQueue == s.replyQueue
    decreases |events|
  {
    if events == [] then s else Run(Step(s, events[0]), events[1..])
  }

  lemma StepPreservesInv(s: RpcState, e: Event)
    requires Inv(s)
    ensures Inv(Step(s, e))
    ensures Step(s, e).nextHandle >= s.nextHandle
  {
    match e
    case Send(id, op, data, entityType, connect, publish) =>
    case ReplyArrives(c, body) =>
    case DelayElapses(call) =>
    case CallResumes(call) =>
  }

  /** Every sequence of sends, replies, timeouts and resumptions keeps the bookkeeping well formed. */
  lemma {:induction false} RunPreservesInv(s: RpcState, events: seq<Event>)
    requires Inv(s)
    ensures Inv(Run(s, events))
    decreases |events|
  {
    if events != [] {
      StepPreservesInv(s, events[0]);
      RunPreservesInv(Step(s, events[0]), events[1..]);
    }
  }

  /** A completed call keeps the first reply it received, whatever arrives later. */
  lemma {:induction false} FirstReplyStays(s: RpcState, events: seq<Event>, call: nat)
    requires call in s.completions
    ensures call in Run(s, events).completions && Run(s, events).completions[call] == s.completions[call]
    decreases |events|
  {
    if events != [] {
      var t := Step(s, events[0]);
      assert call in t.completions && t.completions[call] == s.completions[call];
      FirstReplyStays(t, events[1..], call);
    }
  }

  predicate Registered(s: RpcState, call: nat) {
    exists c :: c in s.pending && s.pending[c] == call
  }

  /**
   * Once a call is neither registered nor completed (its delay elapsed), no
   * later event, however many replies arrive, completes it.
   */
  lemma {:induction false} UnregisteredStaysIncomplete(s: RpcState, events: seq<Event>, call: nat)
    requires call < s.nextHandle && !Registered(s, call) && call !in s.completions
    ensures !Registered(Run(s, events), call) && call !in Run(s, events).completions
    decreases |events|
  {
    if events != [] {
      var t := Step(s, events[0]);
      assert t.nextHandle >= s.nextHandle by {
        match events[0]
        case Send(_, _, _, _, _, _) =>
        case ReplyArrives(_, _) =>
        case DelayElapses(_) =>
        case CallResumes(_) =>
      }
      assert !Registered(t, call) && call !in t.completions by {
        match events[0]
        case Send(id, op, data, entityType, connect, publish) =>
          assert forall c :: c in t.pending ==> (c in s.pending && t.pending[c] == s.pending[c]) || t.pending[c] == s.nextHandle;
        case ReplyArrives(c, body) =>
        case DelayElapses(_) =>
        case CallResumes(_) =>
      }
      UnregisteredStaysIncomplete(t, events[1..], call);
    }
  }

  /** After the delay elapses for a registered, unanswered call, its correlation id is no longer registered: a late reply is dropped and never completes it. */
  lemma {:induction false} LateReplyIsDropped(s: RpcState, call: nat, events: seq<Event>)
    requires Inv(s)
    requires call in s.calls && call !in s.completions
    requires s.calls[call] in s.pending && s.pending[s.calls[call]] == call
    ensures var t := TimeoutStep(s, call).0;
      && !ReplyStep(t, Some(s.calls[call]), NullDocument).1
      && call !in Run(t, events).completions
  {
    var t := TimeoutStep(s, call).0;
    assert !Registered(t, call) by {
      forall c | c in t.pending
        ensures t.pending[c] != call
      {
        assert c != s.calls[call];
      }
    }
    UnregisteredStaysIncomplete(t, events, call);
  }

  /** Once the reply for a call is in, the delay can no longer fail it: the call resumes with the unwrapped reply. */
  lemma ReplyDisablesTimeout(s: RpcState, call: nat, body: Decoding<ResponseMessage>)
    requires Inv(s)
    requires call in s.calls && s.calls[call] in s.pending && s.pending[s.calls[call]] == call
    ensures var t := ReplyStep(s, Some(s.calls[call]), body);
      s.calls[call] != "" ==>
        && t.1
        && TimeoutStep(t.0, call).1 == None
        && ResumeStep(t.0, call).1 == Some(Unwrap(body))
  {
  }

  /** A failed publish leaves the registry as it was; a failed initialisation leaves the new entry behind. */
  lemma FailedSendBookkeeping(s: RpcState, id: string, operation: string, data: Json, entityType: Option<string>)
    requires id !in s.pending && s.replyQueue.None?
    ensures SendStep(s, id, operation, data, entityType, Failure("refused"), None).0.pending == s.pending[id := s.nextHandle]
    ensures SendStep(s, id, operation, data, entityType, Success("amq.gen"), Some("closed")).0.pending == s.pending
  {
  }

  /**
   * End to end: a published request that the worker answers on a healthy
   * channel is accepted by the reply consumer, and the call returns what
   * the worker sent (or the worker's error).
   */
  lemma {:induction false} RequestReplyRoundTrip(s: RpcState, id: string, operation: string, data: Json,
                                                 entityType: Option<string>, connect: Result<string, string>,
                                                 success: bool, error: Option<string>, payload: Payload)
    requires Inv(s) && id != ""
    requires SendStep(s, id, operation, data, entityType, connect, None).1.Published?
    ensures var (s1, out) := SendStep(s, id, operation, data, entityType, connect, None);
      var d := Deliver(Read(out.request.body), Completed(success, error, payload), Healthy);
      && |d.replies| == 1
      && d.ack == Ack
      && var reply := d.replies[0];
         var (s2, accepted) := ReplyStep(s1, Some(reply.correlationId), Read(reply.body));
         && accepted
         && ResumeStep(s2, s.nextHandle).1 == Some(Unwrap(Read(ResponseMessage(success, payload, error, Some(id)))))
  {
    var (s1, out) := SendStep(s, id, operation, data, entityType, connect, None);
    var a := ReplyAddress(id, out.request.replyTo);
    assert ReplyAddressOf(Read(out.request.body)) == Some(a);
    var d := Deliver(Read(out.request.body), Completed(success, error, payload), Healthy);
    assert d.replies == [ReplyFor(a, success, payload, error)];
    assert s.nextHandle !in s.completions;
  }

  /** The client object: the registry is an AsyncDictionary, the rest are fields. */
  class RpcClient {
    const pendingRequests: AsyncDictionary<string, nat>
    var completions: map<nat, Decoding<ResponseMessage>>
    var calls: map<nat, string>
    var nextHandle: nat
    var replyQueue: Option<string>

    function State(): RpcState
      reads this, pendingRequests
    {
      RpcState(pendingRequests.entries, completions, calls, nextHandle, replyQueue)
    }

    constructor ()
      ensures State() == Initial
      ensures fresh(pendingRequests)
    {
      pendingRequests := new AsyncDictionary();
      completions, calls, nextHandle, replyQueue := map[], map[], 0, None;
    }

    method SendRequest(id: string, operation: string, data: Json, entityType: Option<string>,
                       connect: Result<string, string>, publish: Option<string>) returns (outcome: SendOutcome)
      modifies this, pendingRequests
      ensures (State(), outcome) == SendStep(old(State()), id, operation, data, entityType, connect, publish)
    {
      var call := nextHandle;
      var added := pendingRequests.Add(id, call);
      if !added {
        return DuplicateKey;
      }
      nextHandle := nextHandle + 1;
      if replyQueue.None? {
        if connect.Failure? {
          return NotConnected(connect.error);
        }
        replyQueue := Some(connect.value);
      }
      var queue := replyQueue.value;
      if publish.Some? {
        var _ := pendingRequests.Remove(id);
        return PublishFailed(publish.value);
      }
      calls := calls[call := id];
      outcome := Published(PublishedRequest(ExchangeName, RoutingKey(entityType, operation), id, queue,
                                            RequestMessage(Some(operation), data, Some(id), Some(queue))));
    }

    method OnReply(correlationId: Option<string>, body: Decoding<ResponseMessage>) returns (accepted: bool)
      modifies pendingRequests, this
      ensures (State(), accepted) == ReplyStep(old(State()), correlationId, body)
    {
      accepted := false;
      if correlationId.Some? && correlationId.value != "" {
        var found, call := pendingRequests.TryRemove(correlationId.value);
        if found {
          if call.value !in completions {
            completions := completions[call.value := body];
          }
          accepted := true;
        }
      }
    }

    method OnDelayElapsed(call: nat) returns (result: Option<Result<Payload, string>>)
      modifies pendingRequests, this
      ensures (State(), result) == TimeoutStep(old(State()), call)
    {
      if call !in calls || call in completions {
        return None;
      }
      var id := calls[call];
      var _ := pendingRequests.Remove(id);
      var _ := pendingRequests.Remove(id);  // the catch block removes again
      calls := calls - {call};
      result := Some(Failure(TimedOut));
    }

    method Resume(call: nat) returns (result: Option<Result<Payload, string>>)
      modifies pendingRequests, this
      ensures (State(), result) == ResumeStep(old(State()), call)
    {
      if call !in calls || call !in completions {
        return None;
      }
      var id := calls[call];
      var unwrapped := Unwrap(completions[call]);
      if unwrapped.Failure? {
        var _ := pendingRequests.Remove(id);
      }
      calls := calls - {call};
      result := Some(unwrapped);
    }
  }
}
