/**
  The effect of one dispatched request on the stored key, and its result,
  as a function of the state before it. The client's CallApi is proved to
  have exactly this effect.
 */
module Dispatcher {
  import opened Wrappers
  import opened PhpArrays
  import opened CallRegistry
  import opened Errors
  import opened Validation
  import opened KeyResolver
  import opened Request

  /** The stored key after a request, and what the request returns or throws. */
  datatype Dispatched = Dispatched(key: Value, result: Result<Value, Error>)

  /** The reply for a call: curl's raw result for ping, the decoded JSON otherwise. */
  function Reply(io: Io, call: string, raw: Option<string>): Value {
    if call == "ping" then CurlResult(raw) else io.decode(DecodeInput(raw))
  }

  /** The request data names both a call type and a call. */
  predicate Addressed(data: seq<Entry>) {
    HasKey(data, "type") && HasKey(data, "call")
  }

  /**
    One request: `type` and `call` must be present; the key is resolved and
    stored; the stripped data is validated; the payload with the key is
    posted to the call's URL and the reply returned.
   */
  function Dispatch(stored: Value, data: seq<Entry>, constant: Option<Value>, io: Io): (d: Dispatched)
    // the key is resolved exactly when the request is addressed, whatever validation then says
    ensures d.key == if Addressed(data) then ResolvedKey(stored, data, constant) else stored
    // ApiKeyNotSet is thrown exactly for an addressed request that leaves no key
    ensures d.result == Failure(ApiKeyNotSet) <==> Addressed(data) && ResolvedKey(stored, data, constant) == Null
  {
    if !HasKey(data, "type") then Dispatched(stored, Failure(CallTypeNotSet))
    else if !HasKey(data, "call") then Dispatched(stored, Failure(CallNotSet))
    else
      var key := ResolvedKey(stored, data, constant);
      if key == Null then Dispatched(key, Failure(ApiKeyNotSet))
      else
        var callType, call := Get(data, "type"), Get(data, "call");
        match Validate(KnownCalls(), callType, call, Stripped(data))
        case Fail(e) => Dispatched(key, Failure(e))
        case Pass =>
          var raw := io.transport(Url(callType.s, call.s), io.encode(Outgoing(data, key)));
          Dispatched(key, Success(Reply(io, call.s, raw)))
  }

  /** A request without `type` or `call` fails first and leaves the key alone. */
  lemma UnaddressedFails(stored: Value, data: seq<Entry>, constant: Option<Value>, io: Io)
    requires !Addressed(data)
    ensures Dispatch(stored, data, constant, io).key == stored
    ensures Dispatch(stored, data, constant, io).result ==
            if !HasKey(data, "type") then Failure(CallTypeNotSet) else Failure(CallNotSet)
  {
  }

  /**
    An addressed request resolves and stores the key before anything else, so
    the key stays stored whatever happens next; with no key the request fails.
   */
  lemma KeyResolvedFirst(stored: Value, data: seq<Entry>, constant: Option<Value>, io: Io)
    requires Addressed(data)
    ensures Dispatch(stored, data, constant, io).key == ResolvedKey(stored, data, constant)
    ensures ResolvedKey(stored, data, constant) == Null ==>
              Dispatch(stored, data, constant, io).result == Failure(ApiKeyNotSet)
  {
  }

  /**
    `type` and `call` are stripped before validation, so they never count as
    invalid keys: the invalid keys are exactly the other keys outside the list.
   */
  lemma InvalidKeysExact(stored: Value, data: seq<Entry>, constant: Option<Value>, io: Io)
    requires Dispatch(stored, data, constant, io).result.Failure?
    requires Dispatch(stored, data, constant, io).result.error.InvalidKeys?
    ensures Addressed(data) && Known(KnownCalls(), Get(data, "type"), Get(data, "call"))
    ensures forall k :: k in Dispatch(stored, data, constant, io).result.error.keys <==>
                        k in Keys(data) && k != "type" && k != "call" &&
                        k !in KnownCalls()[Get(data, "type").s][Get(data, "call").s]
  {
    var d := Dispatch(stored, data, constant, io);
    assert Addressed(data) && ResolvedKey(stored, data, constant) != Null;
    assert Validate(KnownCalls(), Get(data, "type"), Get(data, "call"), Stripped(data)) == Fail(d.result.error);
  }

  /**
    An addressed request that leaves a key is decided by validating its
    stripped data: a failed validation is thrown, and a pass posts the
    payload to the call's URL and returns the reply.
   */
  lemma DispatchVerdict(stored: Value, data: seq<Entry>, constant: Option<Value>, io: Io)
    requires Addressed(data) && ResolvedKey(stored, data, constant) != Null
    ensures var t, c, key := Get(data, "type"), Get(data, "call"), ResolvedKey(stored, data, constant);
            Dispatch(stored, data, constant, io) ==
              match Validate(KnownCalls(), t, c, Stripped(data))
              case Fail(e) => Dispatched(key, Failure(e))
              case Pass => Dispatched(key, Success(Reply(io, c.s, io.transport(Url(t.s, c.s), io.encode(Outgoing(data, key))))))
  {
  }

  /** A result means a known call, a key, and the reply to the payload posted to the call's URL. */
  lemma SuccessIsReply(stored: Value, data: seq<Entry>, constant: Option<Value>, io: Io)
    requires Dispatch(stored, data, constant, io).result.Success?
    ensures Addressed(data)
    ensures Known(KnownCalls(), Get(data, "type"), Get(data, "call"))
    ensures Dispatch(stored, data, constant, io).key != Null
    ensures Validate(KnownCalls(), Get(data, "type"), Get(data, "call"), Stripped(data)) == Pass
    ensures var t, c, d := Get(data, "type").s, Get(data, "call").s, Dispatch(stored, data, constant, io);
            d.result.value == Reply(io, c, io.transport(Url(t, c), io.encode(Outgoing(data, d.key))))
  {
  }
}
