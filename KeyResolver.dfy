/**
  The precedence rules for the API key. The stored key is PHP null until a
  key is set; `constant` is the MANDRILL_API_KEY constant when it is defined.
 */
module KeyResolver {
  import opened Wrappers
  import opened PhpArrays

  /** The stored key once a `key` entry of the data, if there is one, has replaced it. */
  function AfterEntry(stored: Value, data: seq<Entry>): Value {
    if HasKey(data, "key") then Get(data, "key") else stored
  }

  /**
    The stored key after resolution: a `key` entry overwrites it; then the
    constant, when defined, replaces it if the data is empty or there is still
    no key.
   */
  function ResolvedKey(stored: Value, data: seq<Entry>, constant: Option<Value>): (k: Value)
    // a non-null per-call key beats both the stored key and the constant
    ensures HasKey(data, "key") && Get(data, "key") != Null ==> k == Get(data, "key")
    // in a non-empty request without a key entry, a stored key beats the constant
    ensures data != [] && !HasKey(data, "key") && stored != Null ==> k == stored
    // the constant fills in for an empty request or when no key is known
    ensures constant.Some? && (data == [] || AfterEntry(stored, data) == Null) ==> k == constant.value
    // without the constant nothing but the data and the stored key count
    ensures constant.None? ==> k == AfterEntry(stored, data)
    // the result is null only when no key was known and the constant is absent or itself null
    ensures k == Null ==>
              (constant.None? && AfterEntry(stored, data) == Null) ||
              (constant == Some(Null) && (data == [] || AfterEntry(stored, data) == Null))
  {
    var afterEntry := AfterEntry(stored, data);
    if (|data| == 0 || afterEntry == Null) && constant.Some? then constant.value else afterEntry
  }

  /** An empty array with the constant defined replaces even a key that was already set. */
  lemma EmptyDataTakesConstant(stored: Value, c: Value)
    ensures ResolvedKey(stored, [], Some(c)) == c
  {
  }
}
