/** Checking a request against the registry (the closed-set parameter check). */
module Validation {
  import opened Wrappers
  import opened PhpArrays
  import opened CallRegistry
  import opened Errors

  /** True when the call type and the call are both listed. */
  predicate Known(reg: Registry, callType: Value, call: Value) {
    callType.Str? && callType.s in reg && call.Str? && call.s in reg[callType.s]
  }

  /**
    The verdict on a request: an unknown call type first, then an unknown
    call, then the payload keys that the call's list does not name. Listed
    parameters that are missing are not an error.
   */
  function Validate(reg: Registry, callType: Value, call: Value, data: seq<Entry>): (r: Outcome<Error>)
    ensures r == Fail(InvalidCallType) <==> !(callType.Str? && callType.s in reg)
    ensures callType.Str? && callType.s in reg ==>
              (r == Fail(InvalidCall(callType.s)) <==> !(call.Str? && call.s in reg[callType.s]))
    ensures r.Pass? <==> Known(reg, callType, call) && forall k | k in Keys(data) :: k in reg[callType.s][call.s]
    ensures r.Fail? && r.error.InvalidKeys? <==>
              Known(reg, callType, call) && exists k | k in Keys(data) :: k !in reg[callType.s][call.s]
    ensures r.Fail? && r.error.InvalidKeys? ==>
              r.error.keys != [] &&
              forall k :: k in r.error.keys <==> k in Keys(data) && k !in reg[callType.s][call.s]
  {
    if !(callType.Str? && callType.s in reg) then Fail(InvalidCallType)
    else if !(call.Str? && call.s in reg[callType.s]) then Fail(InvalidCall(callType.s))
    else
      var diff := Diff(Keys(data), reg[callType.s][call.s]);
      if |diff| > 0 then Fail(InvalidKeys(diff)) else Pass
  }

  /** Validation looks only at the keys of the payload, never at its values. */
  lemma ValuesIgnored(reg: Registry, callType: Value, call: Value, a: seq<Entry>, b: seq<Entry>)
    requires Keys(a) == Keys(b)
    ensures Validate(reg, callType, call, a) == Validate(reg, callType, call, b)
  {
  }

  /** A known call with a payload naming only listed parameters passes, however many of them are missing. */
  lemma {:induction false} MissingParametersAccepted(t: string, c: string, data: seq<Entry>)
    requires t in KnownCalls() && c in KnownCalls()[t]
    requires forall i | 0 <= i < |data| :: data[i].key in KnownCalls()[t][c]
    ensures Validate(KnownCalls(), Str(t), Str(c), data) == Pass
  {
    forall k | k in Keys(data) ensures k in KnownCalls()[t][c] {
      var i :| 0 <= i < |Keys(data)| && Keys(data)[i] == k;
      assert data[i].key == k;
    }
  }
}
