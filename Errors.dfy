/** The exceptions the client throws, one constructor per distinct throw site. */
module Errors {

  datatype Error =
    | CallTypeNotSet                  // the request names no call type
    | CallNotSet                      // the request names no call
    | ApiKeyNotSet                    // no API key could be resolved
    | InvalidCallType                 // the call type is not in the registry
    | InvalidCall(callType: string)   // the call is not listed under its type
    | InvalidKeys(keys: seq<string>)  // the payload keys outside the call's list
    | BadCallArguments                // `call` was not given exactly one array
}
