/**
  The client's process-wide state and its public surface. The static class of
  the library becomes one object: the stored API key, the verbose flag, the
  lazily built registry and the last-error slot.
 */
module Client {
  import opened Wrappers
  import opened PhpArrays
  import opened CallRegistry
  import opened Errors
  import opened Validation
  import opened KeyResolver
  import opened Request
  import opened Dispatcher

  /** The library version. */
  const Version: string := "1.0"

  class Mandrill {
    var apiKey: Value               // PHP null until a key is set
    var verbose: bool
    var apiCalls: Option<Registry>  // None until first use
    var lastError: Value            // declared by the library, never assigned

    /** The registry, once built, is the constant table; the last error stays null. */
    ghost predicate Valid()
      reads this
    {
      (apiCalls.None? || apiCalls == Some(KnownCalls())) && lastError == Null
    }

    /** The state before any call. */
    constructor ()
      ensures Valid()
      ensures apiKey == Null && !verbose && apiCalls == None && lastError == Null
    {
      apiKey := Null;
      verbose := false;
      apiCalls := None;
      lastError := Null;
    }

    /** Returns the registry, building it on first use only (also the getApiCalls case). */
    method ApiCalls() returns (reg: Registry)
      requires Valid()
      modifies this`apiCalls
      ensures Valid()
      ensures apiCalls == Some(KnownCalls()) && reg == KnownCalls()
    {
      if apiCalls.None? {
        apiCalls := Some(KnownCalls());
      }
      reg := apiCalls.value;
    }

    /** Checks a request against the registry. */
    method ValidateCall(callType: Value, call: Value, data: seq<Entry>) returns (r: Outcome<Error>)
      requires Valid()
      modifies this`apiCalls
      ensures Valid()
      ensures apiCalls == Some(KnownCalls())
      ensures r == Validate(KnownCalls(), callType, call, data)
    {
      var reg := ApiCalls();
      r := Validate(reg, callType, call, data);
    }

    /** Resolves the stored key from the data and the constant; fails when no key results. */
    method SetApiKeyFrom(data: seq<Entry>, constant: Option<Value>) returns (r: Outcome<Error>)
      requires Valid()
      modifies this`apiKey
      ensures Valid()
      ensures apiKey == ResolvedKey(old(apiKey), data, constant)
      ensures r == if apiKey == Null then Fail(ApiKeyNotSet) else Pass
    {
      if HasKey(data, "key") {
        apiKey := Get(data, "key");
      }
      if (|data| == 0 || apiKey == Null) && constant.Some? {
        apiKey := constant.value;
      }
      if apiKey == Null {
        return Fail(ApiKeyNotSet);
      }
      return Pass;
    }

    /**
      Dispatches one request. The key is resolved before validation, so a key
      entry is stored even when validation then fails; `type` and `call` are
      stripped before validation; the payload posted is the stripped data with
      the stored key under `key`; the reply is decoded unless the call is ping.
     */
    method CallApi(data: seq<Entry>, constant: Option<Value>, io: Io) returns (r: Result<Value, Error>)
      requires Valid()
      modifies this`apiKey, this`apiCalls
      ensures Valid()
      ensures apiKey == Dispatch(old(apiKey), data, constant, io).key
      ensures r == Dispatch(old(apiKey), data, constant, io).result
      // the registry is built exactly when validation is reached
      ensures apiCalls == if Addressed(data) && ResolvedKey(old(apiKey), data, constant) != Null
                          then Some(KnownCalls()) else old(apiCalls)
    {
      if !HasKey(data, "type") {
        return Failure(CallTypeNotSet);
      }
      if !HasKey(data, "call") {
        return Failure(CallNotSet);
      }
      var keySet := SetApiKeyFrom(data, constant);
      if keySet.Fail? {
        return Failure(keySet.error);
      }
      var callType := Get(data, "type");
      var call := Get(data, "call");
      var payload := Unset(data, "type");
      payload := Unset(payload, "call");
      var valid := ValidateCall(callType, call, payload);
      if valid.Fail? {
        return Failure(valid.error);
      }
      payload := Set(payload, "key", apiKey);
      var body := io.encode(payload);
      var url := Url(callType.s, call.s);
      var raw := io.transport(url, body);
      var result := CurlResult(raw);
      if call.s != "ping" {
        result := io.decode(DecodeInput(raw));
      }
      assert payload == Outgoing(data, apiKey);
      return Success(result);
    }

    /** setVerbose: false without an argument, else the argument cast to bool. */
    method SetVerbose(args: seq<Value>)
      requires Valid()
      modifies this`verbose
      ensures Valid()
      ensures verbose == (|args| >= 1 && Truthy(args[0]))
    {
      if |args| < 1 {
        verbose := false;
      } else {
        verbose := Truthy(args[0]);
      }
    }

    /** toggleVerbose: negates the flag. */
    method ToggleVerbose()
      requires Valid()
      modifies this`verbose
      ensures Valid()
      ensures verbose == !old(verbose)
    {
      verbose := !verbose;
    }

    /** getVersion (alias version). */
    method GetVersion() returns (v: string)
      ensures v == "1.0"
    {
      v := Version;
    }

    /** getApiKey (alias getKey): the stored key, null when none is set. */
    method GetApiKey() returns (k: Value)
      ensures k == apiKey
    {
      k := apiKey;
    }

    /** getLastError: always null, since nothing assigns the last error. */
    method GetLastError() returns (e: Value)
      requires Valid()
      ensures e == Null
    {
      e := lastError;
    }

    /**
      setApiKey (alias setKey): a string argument becomes the key; an array
      argument goes through key resolution; anything else returns false and
      changes nothing. Without arguments, an empty array is resolved and the
      result is false, because the missing first argument reads as null.
     */
    method SetApiKey(args: seq<Value>, constant: Option<Value>) returns (r: Result<bool, Error>)
      requires Valid()
      modifies this`apiKey
      ensures Valid()
      ensures |args| == 0 ==>
                apiKey == ResolvedKey(old(apiKey), [], constant) &&
                r == if apiKey == Null then Failure(ApiKeyNotSet) else Success(false)
      ensures |args| > 0 && args[0].Str? ==> apiKey == args[0] && r == Success(true)
      ensures |args| > 0 && args[0].Arr? ==>
                apiKey == ResolvedKey(old(apiKey), args[0].entries, constant) &&
                r == if apiKey == Null then Failure(ApiKeyNotSet) else Success(true)
      ensures |args| > 0 && !args[0].Str? && !args[0].Arr? ==> apiKey == old(apiKey) && r == Success(false)
    {
      if |args| < 1 {
        var keySet := SetApiKeyFrom([], constant);
        if keySet.Fail? {
          return Failure(keySet.error);
        }
        return Success(false);
      }
      if args[0].Str? {
        apiKey := args[0];
      } else if args[0].Arr? {
        var keySet := SetApiKeyFrom(args[0].entries, constant);
        if keySet.Fail? {
          return Failure(keySet.error);
        }
      } else {
        return Success(false);
      }
      return Success(true);
    }

    /** call: exactly one array argument, dispatched; anything else is refused before any state changes. */
    method Call(args: seq<Value>, constant: Option<Value>, io: Io) returns (r: Result<Value, Error>)
      requires Valid()
      modifies this`apiKey, this`apiCalls
      ensures Valid()
      ensures !(|args| == 1 && args[0].Arr?) ==>
                r == Failure(BadCallArguments) && apiKey == old(apiKey) && apiCalls == old(apiCalls)
      ensures |args| == 1 && args[0].Arr? ==>
                apiKey == Dispatch(old(apiKey), args[0].entries, constant, io).key &&
                r == Dispatch(old(apiKey), args[0].entries, constant, io).result
    {
      if |args| != 1 || !args[0].Arr? {
        return Failure(BadCallArguments);
      }
      r := CallApi(args[0].entries, constant, io);
    }
  }
}
