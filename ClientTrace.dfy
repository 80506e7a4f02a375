/**
  Client-side runs of the library, in the order its unit tests drive the
  static class, with what each step must produce.
 */
module ClientTrace {
  import opened Wrappers
  import opened PhpArrays
  import opened CallRegistry
  import opened Errors
  import opened Validation
  import opened KeyResolver
  import opened Request
  import opened Dispatcher
  import opened Client

  /** The ping endpoint, https://mandrillapp.com/api/1.0/users/ping.json. */
  const PingUrl: string := Url("users", "ping")

  /** A service that answers every ping with the JSON string "PONG!". */
  ghost predicate AnswersPing(io: Io) {
    forall body :: io.transport(PingUrl, body) == Some("\"PONG!\"")
  }

  /** A request that starts with its `type` and `call` entries. */
  function CallRequest(t: Value, c: Value, rest: seq<Entry>): seq<Entry> {
    [Entry("type", t), Entry("call", c)] + rest
  }

  /** Such a request is addressed to t and c, and stripping leaves the rest. */
  lemma RequestParts(t: Value, c: Value, rest: seq<Entry>)
    requires !HasKey(rest, "type") && !HasKey(rest, "call")
    ensures Addressed(CallRequest(t, c, rest))
    ensures Get(CallRequest(t, c, rest), "type") == t && Get(CallRequest(t, c, rest), "call") == c
    ensures Stripped(CallRequest(t, c, rest)) == rest
    ensures HasKey(CallRequest(t, c, rest), "key") == HasKey(rest, "key")
    ensures HasKey(rest, "key") ==> Get(CallRequest(t, c, rest), "key") == Get(rest, "key")
  {
    var data := CallRequest(t, c, rest);
    var tail := [Entry("call", c)] + rest;
    assert data[1..] == tail && tail[1..] == rest;
    assert Keys(data) == ["type", "call"] + Keys(rest);
    UnsetAbsent(rest, "type");
    UnsetAbsent(rest, "call");
    assert Unset(data, "type") == tail;
  }

  /** A request in that shape is dispatched on the verdict of validating its rest with the resolved key. */
  lemma DispatchShape(stored: Value, t: string, c: string, rest: seq<Entry>, constant: Option<Value>, io: Io)
    requires !HasKey(rest, "type") && !HasKey(rest, "call")
    requires ResolvedKey(stored, CallRequest(Str(t), Str(c), rest), constant) != Null
    ensures var data, key := CallRequest(Str(t), Str(c), rest), ResolvedKey(stored, CallRequest(Str(t), Str(c), rest), constant);
            Dispatch(stored, data, constant, io) ==
              match Validate(KnownCalls(), Str(t), Str(c), rest)
              case Fail(e) => Dispatched(key, Failure(e))
              case Pass => Dispatched(key, Success(Reply(io, c, io.transport(Url(t, c), io.encode(Set(rest, "key", key))))))
  {
    RequestParts(Str(t), Str(c), rest);
    DispatchVerdict(stored, CallRequest(Str(t), Str(c), rest), constant, io);
  }

  /** Without a key entry, a request keeps a stored key. */
  lemma StoredKeyKept(stored: Value, t: Value, c: Value, rest: seq<Entry>, constant: Option<Value>)
    requires !HasKey(rest, "type") && !HasKey(rest, "call") && !HasKey(rest, "key") && stored != Null
    ensures ResolvedKey(stored, CallRequest(t, c, rest), constant) == stored
  {
    RequestParts(t, c, rest);
  }

  /** Ping takes no parameter but the key. */
  lemma PingParameters()
    ensures "users" in KnownCalls() && "ping" in KnownCalls()["users"] && KnownCalls()["users"]["ping"] == ["key"]
  {
    AssembledTables(UsersCalls(), MessagesCalls(), TagsCalls(), SendersCalls(), UrlsCalls(), TemplatesCalls(), WebhooksCalls());
    CallTypes();
    UsersCallNames();
  }

  /** With a key stored, a ping returns the raw reply text, quotes included, and keeps the key. */
  lemma PingReturnsRawText(stored: Value, constant: Option<Value>, io: Io)
    requires stored != Null && AnswersPing(io)
    ensures Dispatch(stored, CallRequest(Str("users"), Str("ping"), []), constant, io) ==
            Dispatched(stored, Success(Str("\"PONG!\"")))
  {
    StoredKeyKept(stored, Str("users"), Str("ping"), [], constant);
    PingParameters();
    MissingParametersAccepted("users", "ping", []);
    DispatchShape(stored, "users", "ping", [], constant, io);
  }

  /** An unknown call type is refused, and the stored key is kept. */
  lemma BadTypeRefused(stored: Value, constant: Option<Value>, io: Io)
    requires stored != Null
    ensures Dispatch(stored, CallRequest(Str("bad_users"), Str("ping"), []), constant, io) ==
            Dispatched(stored, Failure(InvalidCallType))
  {
    StoredKeyKept(stored, Str("bad_users"), Str("ping"), [], constant);
    UnknownCallType("bad_users");
    DispatchShape(stored, "bad_users", "ping", [], constant, io);
  }

  /** A parameter that ping does not list is refused by name. */
  lemma ExtraKeyRefused(stored: Value, constant: Option<Value>, io: Io)
    requires stored != Null
    ensures Dispatch(stored, CallRequest(Str("users"), Str("ping"), [Entry("extra", Bool(true))]), constant, io) ==
            Dispatched(stored, Failure(InvalidKeys(["extra"])))
  {
    var rest := [Entry("extra", Bool(true))];
    assert Keys(rest) == ["extra"];
    StoredKeyKept(stored, Str("users"), Str("ping"), rest, constant);
    PingParameters();
    assert Diff(["extra"], ["key"]) == ["extra"];
    DispatchShape(stored, "users", "ping", rest, constant, io);
  }

  /** A request's own non-null key entry becomes the stored key. */
  lemma KeyEntryWins(stored: Value, t: Value, c: Value, rest: seq<Entry>, constant: Option<Value>)
    requires !HasKey(rest, "type") && !HasKey(rest, "call") && HasKey(rest, "key") && Get(rest, "key") != Null
    ensures ResolvedKey(stored, CallRequest(t, c, rest), constant) == Get(rest, "key")
  {
    RequestParts(t, c, rest);
  }

  /** Ping refuses a `bogus` parameter by name, whatever key comes with it. */
  lemma BogusRefusedByPing(key: Value)
    ensures Validate(KnownCalls(), Str("users"), Str("ping"), [Entry("key", key), Entry("bogus", Int(1))]) ==
            Fail(InvalidKeys(["bogus"]))
  {
    assert Keys([Entry("key", key), Entry("bogus", Int(1))]) == ["key", "bogus"];
    PingParameters();
    assert Diff(["key", "bogus"], ["key"]) == ["bogus"];
  }

  /** A key carried by a request that fails validation is stored all the same. */
  lemma KeyStoredDespiteFailure(stored: Value, io: Io)
    ensures Dispatch(stored, CallRequest(Str("users"), Str("ping"), [Entry("key", Str("k2")), Entry("bogus", Int(1))]), None, io) ==
            Dispatched(Str("k2"), Failure(InvalidKeys(["bogus"])))
  {
    var rest := [Entry("key", Str("k2")), Entry("bogus", Int(1))];
    assert Keys(rest) == ["key", "bogus"];
    KeyEntryWins(stored, Str("users"), Str("ping"), rest, None);
    BogusRefusedByPing(Str("k2"));
    DispatchShape(stored, "users", "ping", rest, None, io);
  }

  /**
    The unit-test sequence on a fresh client: no last error, seven call types,
    no key at first, the constant picked up by setApiKey(), an explicit key
    winning over it, then the three calls against a service that answers ping.
   */
  method UnitTestRun(io: Io)
    returns (lastError: Value, callTypes: nat, keyAtStart: Value, keyFromConstant: Value, keyFromString: Value,
             badType: Result<Value, Error>, extraKey: Result<Value, Error>, pong: Result<Value, Error>)
    requires AnswersPing(io)
    ensures lastError == Null
    ensures callTypes == 7
    ensures keyAtStart == Null
    ensures keyFromConstant == Str("mykeyDEFINE")
    ensures keyFromString == Str("mykey")
    ensures badType == Failure(InvalidCallType)
    ensures extraKey == Failure(InvalidKeys(["extra"]))
    ensures pong == Success(Str("\"PONG!\""))
  {
    var m := new Mandrill();
    lastError := m.GetLastError();
    var reg := m.ApiCalls();
    CallTypes();
    callTypes := |reg|;
    keyAtStart := m.GetApiKey();

    var constant := Some(Str("mykeyDEFINE"));
    var _ := m.SetApiKey([], constant);
    keyFromConstant := m.GetApiKey();
    var _ := m.SetApiKey([Str("mykey")], constant);
    keyFromString := m.GetApiKey();

    badType, extraKey, pong := CallsWithKey(m, constant, io);
  }

  /**
    The remaining unit-test calls on a client that holds a key: an unknown
    call type and an unlisted parameter are refused, and ping answers.
   */
  method CallsWithKey(m: Mandrill, constant: Option<Value>, io: Io)
    returns (badType: Result<Value, Error>, extraKey: Result<Value, Error>, pong: Result<Value, Error>)
    requires m.Valid() && m.apiKey != Null && AnswersPing(io)
    modifies m`apiKey, m`apiCalls
    ensures m.Valid() && m.apiKey == old(m.apiKey)
    ensures badType == Failure(InvalidCallType)
    ensures extraKey == Failure(InvalidKeys(["extra"]))
    ensures pong == Success(Str("\"PONG!\""))
  {
    BadTypeRefused(m.apiKey, constant, io);
    badType := m.Call([Arr(CallRequest(Str("bad_users"), Str("ping"), []))], constant, io);
    ExtraKeyRefused(m.apiKey, constant, io);
    extraKey := m.Call([Arr(CallRequest(Str("users"), Str("ping"), [Entry("extra", Bool(true))]))], constant, io);
    PingReturnsRawText(m.apiKey, constant, io);
    pong := m.Call([Arr(CallRequest(Str("users"), Str("ping"), []))], constant, io);
  }

  /**
    A call carrying its own key that then fails validation: the key is stored
    all the same, and a following ping without a key uses it.
   */
  method KeyPersistsRun(io: Io) returns (failed: Result<Value, Error>, keyAfter: Value, pong: Result<Value, Error>)
    requires AnswersPing(io)
    ensures failed == Failure(InvalidKeys(["bogus"]))
    ensures keyAfter == Str("k2")
    ensures pong == Success(Str("\"PONG!\""))
  {
    var m := new Mandrill();
    KeyStoredDespiteFailure(m.apiKey, io);
    var request := CallRequest(Str("users"), Str("ping"), [Entry("key", Str("k2")), Entry("bogus", Int(1))]);
    failed := m.Call([Arr(request)], None, io);
    keyAfter := m.GetApiKey();
    PingReturnsRawText(m.apiKey, None, io);
    pong := m.Call([Arr(CallRequest(Str("users"), Str("ping"), []))], None, io);
  }
}
