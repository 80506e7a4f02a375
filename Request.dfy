/**
  What the dispatcher sends: the payload with `type` and `call` stripped and
  the key injected, posted to the URL composed from the template.
 */
module Request {
  import opened Wrappers
  import opened PhpArrays
  import opened CallRegistry
  import opened Errors
  import opened Validation

  /** The service's base address. */
  const ApiUrlPrefix: string := "https://mandrillapp.com/api/1.0/"

  /** The service URL template "https://mandrillapp.com/api/1.0/%s/%s.json": a %s slot for the call type and one for the call. */
  const ApiUrlTemplate: string := ApiUrlPrefix + ("%s" + ("/" + ("%s" + ".json")))

  /** The template, assembled from its parts, spells the library's URL template. */
  lemma TemplateSpelled()
    ensures ApiUrlTemplate == "https://mandrillapp.com/api/1.0/%s/%s.json"
  {
  }

  /** Puts p in front of a formatted string, if there is one. */
  function Prepend(p: string, r: Option<string>): Option<string> {
    match r
    case None => None
    case Some(s) => Some(p + s)
  }

  /**
    sprintf restricted to the conversions %s and %%: each %s takes the next
    argument, %% stands for one %; too few arguments is an error (None).
   */
  function Format(template: string, args: seq<string>): (r: Option<string>)
    ensures '%' !in template ==> r == Some(template)
    decreases |template|
  {
    if template == [] then Some("")
    else if |template| >= 2 && template[0] == '%' && template[1] == '%' then
      Prepend("%", Format(template[2..], args))
    else if |template| >= 2 && template[0] == '%' && template[1] == 's' then
      if args == [] then None else Prepend(args[0], Format(template[2..], args[1..]))
    else
      var r := Prepend([template[0]], Format(template[1..], args));
      assert '%' !in template ==> [template[0]] + template[1..] == template;
      r
  }

  /** Prepending twice is prepending the concatenation. */
  lemma PrependTwice(p: string, q: string, r: Option<string>)
    ensures Prepend(p, Prepend(q, r)) == Prepend(p + q, r)
  {
    if r.Some? {
      assert p + (q + r.value) == (p + q) + r.value;
    }
  }

  /** A character other than % is copied. */
  lemma FormatLiteralChar(c: char, rest: string, args: seq<string>)
    requires c != '%'
    ensures Format([c] + rest, args) == Prepend([c], Format(rest, args))
  {
    assert ([c] + rest)[0] == c && ([c] + rest)[1..] == rest;
  }

  /** Text without a % is copied unchanged in front of whatever follows it. */
  lemma {:induction false} FormatLiteralPrefix(lit: string, rest: string, args: seq<string>)
    requires '%' !in lit
    ensures Format(lit + rest, args) == Prepend(lit, Format(rest, args))
  {
    if lit == [] {
      assert lit + rest == rest;
      PrependTwice([], [], Format(rest, args));
      match Format(rest, args)
      case None =>
      case Some(s) => assert lit + s == s;
    } else {
      var tail := lit[1..];
      assert lit + rest == [lit[0]] + (tail + rest);
      FormatLiteralChar(lit[0], tail + rest, args);
      FormatLiteralPrefix(tail, rest, args);
      PrependTwice([lit[0]], tail, Format(rest, args));
      assert [lit[0]] + tail == lit;
    }
  }

  /** A %s takes the next argument. */
  lemma FormatSlot(rest: string, args: seq<string>)
    requires args != []
    ensures Format("%s" + rest, args) == Prepend(args[0], Format(rest, args[1..]))
  {
    assert ("%s" + rest)[2..] == rest;
  }

  /** The part `%s.json` filled with the call. */
  lemma LastSlotFilled(call: string)
    ensures Format("%s" + ".json", [call]) == Some(call + ".json")
  {
    FormatLiteralPrefix(".json", "", []);
    assert ".json" + "" == ".json";
    FormatSlot(".json", [call]);
    assert [call][1..] == [];
  }

  /** The part `%s/%s.json` filled with the call type and the call. */
  lemma SlotsFilled(callType: string, call: string)
    ensures Format("%s" + ("/" + ("%s" + ".json")), [callType, call]) == Some(callType + ("/" + (call + ".json")))
  {
    LastSlotFilled(call);
    FormatLiteralPrefix("/", "%s" + ".json", [call]);
    FormatSlot("/" + ("%s" + ".json"), [callType, call]);
    assert [callType, call][1..] == [call];
  }

  /** A template of the shape `prefix%s/%s.json` filled with two arguments. */
  lemma TemplateShapeFilled(prefix: string, callType: string, call: string)
    requires '%' !in prefix
    ensures Format(prefix + ("%s" + ("/" + ("%s" + ".json"))), [callType, call]) ==
            Some(prefix + callType + "/" + call + ".json")
  {
    SlotsFilled(callType, call);
    FormatLiteralPrefix(prefix, "%s" + ("/" + ("%s" + ".json")), [callType, call]);
    assert prefix + (callType + ("/" + (call + ".json"))) == prefix + callType + "/" + call + ".json";
  }

  /** The template filled with a call type and a call is the service URL for that call. */
  lemma TemplateFilled(callType: string, call: string)
    ensures Format(ApiUrlTemplate, [callType, call]) == Some(ApiUrlPrefix + callType + "/" + call + ".json")
  {
    TemplateShapeFilled(ApiUrlPrefix, callType, call);
  }

  /** The endpoint of a call: the template filled with the call type and the call. */
  function Url(callType: string, call: string): (u: string)
    ensures u == "https://mandrillapp.com/api/1.0/" + callType + "/" + call + ".json"
  {
    TemplateFilled(callType, call);
    Format(ApiUrlTemplate, [callType, call]).value
  }

  /** The request data once the `type` and `call` entries are removed. */
  function Stripped(data: seq<Entry>): (r: seq<Entry>)
    ensures forall k :: k in Keys(r) <==> k in Keys(data) && k != "type" && k != "call"
  {
    Unset(Unset(data, "type"), "call")
  }

  /** The outgoing payload: the stripped data with `key` set to the stored key. */
  function Outgoing(data: seq<Entry>, key: Value): (r: seq<Entry>)
    ensures HasKey(r, "key") && Get(r, "key") == key
    ensures !HasKey(r, "type") && !HasKey(r, "call")
    ensures forall k :: k in Keys(r) <==> k == "key" || (k in Keys(data) && k != "type" && k != "call")
  {
    var stripped := Stripped(data);
    SetStores(stripped, "key", key);
    var r := Set(stripped, "key", key);
    assert forall k :: k in Keys(r) <==> k == "key" || k in Keys(stripped);
    r
  }

  /** `type` and `call` are removed before validation, so they are never reported as invalid keys. */
  lemma StrippedKeysNeverInvalid(reg: Registry, callType: Value, call: Value, data: seq<Entry>)
    ensures Validate(reg, callType, call, Stripped(data)).Fail? &&
            Validate(reg, callType, call, Stripped(data)).error.InvalidKeys? ==>
              "type" !in Validate(reg, callType, call, Stripped(data)).error.keys &&
              "call" !in Validate(reg, callType, call, Stripped(data)).error.keys
  {
    var once := Unset(data, "type");
    assert "type" !in Keys(once);
    assert "type" !in Keys(Stripped(data));
  }

  /**
    With distinct request keys, the payload's keys are distinct too, and every
    entry other than `type`, `call` and `key` keeps its value.
   */
  lemma OutgoingContents(data: seq<Entry>, key: Value, k: string)
    requires DistinctKeys(data)
    ensures DistinctKeys(Outgoing(data, key))
    ensures k != "key" && k != "type" && k != "call" ==>
              HasKey(Outgoing(data, key), k) == HasKey(data, k) &&
              (HasKey(data, k) ==> Get(Outgoing(data, key), k) == Get(data, k))
  {
    var once := Unset(data, "type");
    var twice := Unset(once, "call");
    UnsetKeepsDistinct(data, "type");
    UnsetKeepsDistinct(once, "call");
    SetKeepsDistinct(twice, "key", key);
    SetStores(twice, "key", key);
    assert Keys(Outgoing(data, key)) == if HasKey(twice, "key") then Keys(twice) else Keys(twice) + ["key"];
    assert !HasKey(twice, "type");
    if k != "key" && k != "type" && k != "call" {
      assert HasKey(once, k) == HasKey(data, k);
      assert HasKey(twice, k) == HasKey(once, k);
      assert HasKey(Outgoing(data, key), k) == HasKey(twice, k);
      if HasKey(data, k) {
        UnsetKeepsOthers(data, "type", k);
        UnsetKeepsOthers(once, "call", k);
        SetKeepsOthers(twice, "key", key, k);
      }
    }
  }

  /** A payload that passed validation carries only parameters its call lists. */
  lemma OutgoingWithinCall(t: string, c: string, data: seq<Entry>, key: Value)
    requires Validate(KnownCalls(), Str(t), Str(c), Stripped(data)).Pass?
    ensures forall k | k in Keys(Outgoing(data, key)) :: k in KnownCalls()[t][c]
  {
    KeyAlwaysAllowed(t, c);
  }

  /** The two collaborators the client delegates to: the HTTP POST (None when it fails) and JSON. */
  datatype Io = Io(
    transport: (string, string) -> Option<string>,
    encode: seq<Entry> -> string,
    decode: string -> Value)

  /** What curl_exec returns: the response text, or false when the exchange fails. */
  function CurlResult(raw: Option<string>): Value {
    match raw
    case Some(text) => Str(text)
    case None => Bool(false)
  }

  /** What json_decode receives for curl's result: the text, or "" for false. */
  function DecodeInput(raw: Option<string>): string {
    match raw
    case Some(text) => text
    case None => ""
  }
}
