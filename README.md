# Mandrill PHP client: a Dafny model of the static `Mandrill` class

The library is a single static PHP class, `Mandrill`. It posts requests to the
Mandrill e-mail service. A request is an associative array. Its `type` entry
names a call type (`users`, `messages`, ...), its `call` entry names a call of
that type (`ping`, `send`, ...), and every other entry is a parameter. Before
anything is sent, the class checks the request against a fixed registry of
known calls and their allowed parameter names. It also resolves the API key
from three places: the request, the key already stored, and the
`MANDRILL_API_KEY` constant.

The model has these parts:

- **PHP values and arrays** (`PhpArrays`): `null`, booleans, integers, strings and
  ordered string-keyed arrays. It defines `array_key_exists`, `$a[$k]`,
  assignment, `unset`, `array_keys`, `array_diff` and the `(bool)` cast.
- **The registry** (`CallRegistry`): the table built by `api_calls()`. It holds
  seven call types, and every parameter list has `key` merged in first.
- **Validation** (`Validation`): `_validate_call`. An unknown type fails first,
  then an unknown call. After that, the invalid keys are exactly the payload
  keys that the call does not list. Missing parameters are never an error.
- **Key resolution** (`KeyResolver`): `_set_api_key`'s precedence between a
  `key` entry, the stored key and the constant.
- **The request sent** (`Request`):
  - the URL comes from the `%s/%s` template through a `sprintf` model;
  - the payload is the request with `type` and `call` removed and `key` set
    to the stored key.
- **Dispatch** (`Dispatcher`): the whole of `_call_api` as one function of the
  state before the request. Lemmas give its ordering, its error cases and its
  result.
- **The client** (`Client`): the class's static state as one `Mandrill`
  object. Its fields are the stored key, the verbose flag, the lazily built
  registry and the never-assigned last error. Its methods are the private
  helpers and the cases of `__callStatic`. `CallApi` and `Call` are proved to
  have exactly the effect `Dispatch` describes.
- **Runs from the unit tests** (`ClientTrace`): the unit tests' sequence,
  replayed on a fresh client against a service that answers ping with `"PONG!"`.

The parts outside the class's own code are parameters:

- The HTTP exchange and JSON encoding and decoding are the functions of an
  `Io` value.
- The `MANDRILL_API_KEY` constant is an `Option<Value>`. `None` means the
  constant is not defined.
- The exceptions the class throws are the constructors of `Errors.Error`,
  returned in a `Failure`.

The unit tests expect six call types (test/MandrillTest.php:14-16). The
registry in Mandrill.php:101-158 has seven, because it includes `webhooks`.
The model follows the code: `CallRegistry.CallTypes` proves seven.

## Model

| member | source | states |
|---|---|---|
| PhpArrays.Truthy | Mandrill.php:276 | the `(bool)` cast is false exactly for null, false, 0, "", "0" and the empty array |
| PhpArrays.Keys | Mandrill.php:179 | `array_keys` lists the keys in entry order, one per entry |
| PhpArrays.HasKey | Mandrill.php:202 | `array_key_exists` holds exactly when some entry has that key |
| PhpArrays.Get | Mandrill.php:202 | `$a[$k]` is the value of an entry with key k; with distinct keys, of every such entry |
| PhpArrays.Set | Mandrill.php:230 | assigning `$a[$k]` keeps the key order when k is present and appends k otherwise |
| PhpArrays.SetStores | Mandrill.php:230 | after `$a[$k] = $v`, k is present and holds v |
| PhpArrays.SetKeepsOthers | Mandrill.php:230 | assigning to k leaves every other key's presence and value unchanged |
| PhpArrays.SetKeepsDistinct | Mandrill.php:230 | assignment keeps the keys distinct |
| PhpArrays.Unset | Mandrill.php:225-226 | `unset($a[$k])` removes exactly k from the keys |
| PhpArrays.UnsetKeepsOthers | Mandrill.php:225-226 | unset leaves other keys' presence and values unchanged |
| PhpArrays.UnsetAbsent | Mandrill.php:225-226 | unsetting an absent key changes nothing |
| PhpArrays.UnsetKeepsDistinct | Mandrill.php:225-226 | unset keeps the keys distinct |
| PhpArrays.Diff | Mandrill.php:179 | `array_diff` keeps exactly the elements not in the second list; it is empty iff every element is listed |
| CallRegistry.KnownCalls | Mandrill.php:101-158 | the registry built by `api_calls()`: one table per call type, and every parameter list of every call starts with `key` |
| CallRegistry.UsersCalls | Mandrill.php:104-110 | the users calls with their parameter lists, each `$required_key` merged with the call's own names, so each starts with `key` |
| CallRegistry.MessagesCalls | Mandrill.php:113-117 | the messages calls with their parameter lists, each `$required_key` merged with the call's own names, so each starts with `key` |
| CallRegistry.TagsCalls | Mandrill.php:120-125 | the tags calls with their parameter lists, each `$required_key` merged with the call's own names, so each starts with `key` |
| CallRegistry.SendersCalls | Mandrill.php:128-132 | the senders calls with their parameter lists, each `$required_key` merged with the call's own names, so each starts with `key` |
| CallRegistry.UrlsCalls | Mandrill.php:135-139 | the urls calls with their parameter lists, each `$required_key` merged with the call's own names, so each starts with `key` |
| CallRegistry.TemplatesCalls | Mandrill.php:142-148 | the templates calls with their parameter lists, each `$required_key` merged with the call's own names, so each starts with `key` |
| CallRegistry.WebhooksCalls | Mandrill.php:151-157 | the webhooks calls with their parameter lists, each `$required_key` merged with the call's own names, so each starts with `key` |
| CallRegistry.CallTypes | Mandrill.php:101-158 | the registry has exactly the seven types users, messages, tags, senders, urls, templates and webhooks |
| CallRegistry.UsersCallCount | Mandrill.php:104-110 | users has the five calls info, ping, senders, disable-sender, verify-sender |
| CallRegistry.MessagesCallCount | Mandrill.php:113-117 | messages has the three calls send, send-template, search |
| CallRegistry.TagsCallCount | Mandrill.php:120-125 | tags has the four calls list, info, time-series, all-time-series |
| CallRegistry.SendersCallCount | Mandrill.php:128-132 | senders has the three calls list, info, time-series |
| CallRegistry.UrlsCallCount | Mandrill.php:135-139 | urls has the three calls list, search, time-series |
| CallRegistry.TemplatesCallCount | Mandrill.php:142-148 | templates has the five calls add, info, update, delete, list |
| CallRegistry.WebhooksCallCount | Mandrill.php:151-157 | webhooks has the five calls list, add, info, update, delete |
| CallRegistry.UnknownCallType | Mandrill.php:101-158 | no name outside the seven is a call type |
| CallRegistry.KeyAlwaysAllowed | Mandrill.php:72 | every call's parameter list starts with `key`, the one entry of `$required_key` (`RequiredKey`), so `key` is always allowed |
| Validation.Known | Mandrill.php:176-177 | defines the two `array_key_exists` checks: the call type is a string listed in the registry and the call a string listed under it |
| Validation.Validate | Mandrill.php:173-187 | an unknown type gives InvalidCallType, and only then; an unknown call gives InvalidCall; the request passes iff every payload key is listed; it fails with InvalidKeys iff the call is known and some payload key is unlisted, and those keys are non-empty and exactly the unlisted ones |
| Validation.ValuesIgnored | Mandrill.php:179-184 | validation depends only on the payload's keys, never on their values |
| Validation.MissingParametersAccepted | Mandrill.php:179-186 | a payload naming only listed parameters passes, however many are missing |
| KeyResolver.AfterEntry | Mandrill.php:202 | defines the stored key once a `key` entry, if present, has overwritten it (no contract of its own; ResolvedKey's contract is stated over it) |
| KeyResolver.ResolvedKey | Mandrill.php:201-206 | a non-null `key` entry wins; a stored key survives a non-empty request without a key entry; the constant fills in for empty data or a still-null key; the key is null only when no key was known and the constant is absent or null |
| KeyResolver.EmptyDataTakesConstant | Mandrill.php:203 | an empty array with the constant defined replaces even a stored key |
| Request.Format | Mandrill.php:234 | a template without `%` is returned unchanged |
| Request.FormatLiteralPrefix | Mandrill.php:234 | a `%`-free prefix of the template is copied in front of the rest's result |
| Request.TemplateSpelled | Mandrill.php:40 | the URL template constant is "https://mandrillapp.com/api/1.0/%s/%s.json" |
| Request.TemplateFilled | Mandrill.php:40 | filling the template with a type and a call gives the service URL for them |
| Request.Url | Mandrill.php:234 | the endpoint is https://mandrillapp.com/api/1.0/type/call.json |
| Request.Stripped | Mandrill.php:225-226 | after both unsets, the keys are exactly the request's keys other than `type` and `call` |
| Request.Outgoing | Mandrill.php:225-230 | the posted array holds the stored key under `key`, has no `type` or `call`, and its keys are `key` plus the request's keys other than `type` and `call` |
| Request.CurlResult | Mandrill.php:248 | defines what curl_exec returns: the response text, or false when the exchange fails (no contract of its own) |
| Request.DecodeInput | Mandrill.php:252 | defines what `json_decode` receives: the response text, or "" when the exchange failed, since `false` reads as the empty string; so for any call other than ping a failed exchange hands "" to decode |
| Request.StrippedKeysNeverInvalid | Mandrill.php:225-228 | `type` and `call` are never reported as invalid keys |
| Request.OutgoingContents | Mandrill.php:225-232 | with distinct request keys the payload's keys are distinct, and every entry other than type, call and key keeps its value |
| Request.OutgoingWithinCall | Mandrill.php:228-232 | a payload that passed validation carries only parameters its call lists, `key` included |
| Dispatcher.Addressed | Mandrill.php:217-218 | defines the two presence checks: the request has both a `type` and a `call` entry |
| Dispatcher.Dispatch | Mandrill.php:216-257 | the effect of `_call_api` on the stored key and its result; the key is resolved exactly when the request names type and call, whatever validation says, and ApiKeyNotSet is thrown exactly when such a request leaves no key; UnaddressedFails and DispatchVerdict give its value in every other case |
| Dispatcher.Reply | Mandrill.php:248-256 | defines the returned value: curl's raw result for ping, otherwise the decoding of DecodeInput, the text or "" after a failed exchange (no contract of its own; SuccessIsReply and PingReturnsRawText are stated over it) |
| Dispatcher.UnaddressedFails | Mandrill.php:217-218 | a request without `type` fails with CallTypeNotSet, and one without `call` with CallNotSet, before the key is touched |
| Dispatcher.KeyResolvedFirst | Mandrill.php:220 | for an addressed request the key is resolved and stored before validation; with no key the request fails with ApiKeyNotSet |
| Dispatcher.InvalidKeysExact | Mandrill.php:222-228 | an InvalidKeys failure means a known call, and its keys are exactly the request's keys other than type and call that the call does not list |
| Dispatcher.DispatchVerdict | Mandrill.php:220-256 | an addressed request that leaves a key, in any entry order, stores that key and then either throws the failure of validating its stripped data or, on a pass, returns the reply to its payload posted to the call's URL |
| Dispatcher.SuccessIsReply | Mandrill.php:228-256 | a result means a known call, a non-null key, a passing validation, and the reply to the payload posted to the call's URL |
| Client.Mandrill.constructor | Mandrill.php:48-80 | the initial state: no key, not verbose, no registry yet, no last error |
| Client.Mandrill.ApiCalls | Mandrill.php:101-161 | returns the constant table, building it only on first use |
| Client.Mandrill.ValidateCall | Mandrill.php:173-187 | gives the verdict of `Validate` on the registry |
| Client.Mandrill.SetApiKeyFrom | Mandrill.php:201-206 | the new key is `ResolvedKey` of the old key; it fails exactly when the key is still null |
| Client.Mandrill.CallApi | Mandrill.php:216-257 | the new key and the result are those of `Dispatch` on the old key; the registry is built (Mandrill.php:174) exactly when the request is addressed and leaves a key, and is otherwise unchanged |
| Client.Mandrill.SetVerbose | Mandrill.php:274-277 | the flag is false without an argument and the argument's `(bool)` cast otherwise |
| Client.Mandrill.ToggleVerbose | Mandrill.php:278-280 | the flag is negated |
| Client.Mandrill.GetVersion | Mandrill.php:281-284 | returns the `$version` constant of Mandrill.php:32, "1.0" |
| Client.Mandrill.GetApiKey | Mandrill.php:285-288 | returns the stored key |
| Client.Mandrill.GetLastError | Mandrill.php:297-299 | returns null, since nothing assigns the last error |
| Client.Mandrill.SetApiKey | Mandrill.php:289-296 | no argument: resolves an empty array and returns false; a string becomes the key and returns true; an array is resolved and returns true; anything else returns false and changes nothing |
| Client.Mandrill.Call | Mandrill.php:300-304 | anything but a single array argument is refused without a state change; otherwise the effect is `Dispatch` |
| ClientTrace.RequestParts | Mandrill.php:217-226 | a request built as type, call and rest is addressed, yields its type and call, and strips to the rest |
| ClientTrace.DispatchShape | Mandrill.php:220-256 | such a request is dispatched on the verdict of validating its rest |
| ClientTrace.StoredKeyKept | Mandrill.php:202-203 | without a key entry, a stored key is kept |
| ClientTrace.KeyEntryWins | Mandrill.php:202 | a non-null key entry becomes the stored key |
| ClientTrace.PingParameters | Mandrill.php:106 | users/ping takes only `key` |
| ClientTrace.PingReturnsRawText | test/MandrillTest.php:83-85 | a keyed ping returns the raw reply '"PONG!"' undecoded |
| ClientTrace.BadTypeRefused | test/MandrillTest.php:61-70 | type `bad_users` is refused with InvalidCallType |
| ClientTrace.ExtraKeyRefused | test/MandrillTest.php:72-81 | ping with an `extra` parameter is refused with the invalid key `extra` |
| ClientTrace.BogusRefusedByPing | Mandrill.php:179-182 | ping with a `bogus` parameter is refused with the invalid key `bogus` |
| ClientTrace.KeyStoredDespiteFailure | Mandrill.php:220-228 | a key carried by a request that then fails validation is stored all the same |
| ClientTrace.UnitTestRun | test/MandrillTest.php:10-85 | the unit-test sequence on a fresh client: null last error, seven call types, null key, the constant then "mykey" as key, the two refusals and the pong |
| ClientTrace.CallsWithKey | test/MandrillTest.php:61-85 | on a client that holds a key: the two refusals and the pong, with the key unchanged |
| ClientTrace.KeyPersistsRun | Mandrill.php:216-230 | a failed call's key stays stored and serves the following ping |

## Left out

- The HTTP exchange (`curl_init`, the POST with its `Content-Type` and `Content-Length` headers, `curl_exec`) is the `transport` function of `Io`. Only the URL and body it receives and the text or failure it returns are modelled.
- `json_encode` and `json_decode` are the `encode` and `decode` functions of `Io`. Their formats are not modelled.
- Logging to `error_log` under the verbose flag, printing on the command line, and `_is_cli` with its cache are left out. They are output only and change no result. The verbose flag itself is modelled.
- `__callStatic`'s dispatch by method name is left out. Each case is a method, and the aliases `version`, `getKey` and `setKey` are the same methods as `getVersion`, `getApiKey` and `setApiKey`. An unknown method name returns null; the model has no method for it.
- `getApiCalls` is `Client.Mandrill.ApiCalls`.
- PHP floats, objects and integer array keys are not part of the value model. The arrays' keys are strings.
- Non-string `type` or `call` values are treated as unknown names, and non-string values never match a string key. PHP coercion of integer-like strings and any type errors for array keys are not modelled.
- CallRegistry.KnownCalls: the registry is a map, so the order of the call types and of the calls within a type is not modelled. The order of the parameter names is modelled.
- Validation.Validate: `array_diff`'s string comparison is plain equality of key names. That is all it sees, because the keys are strings.
- Client.Mandrill.CallApi: the exception for a false verdict of `_validate_call` (Mandrill.php:228) is not modelled. The validator never returns false: it returns true or throws.
- The text of the exception messages is not modelled. Each exception is one `Errors.Error` constructor. `InvalidCall` carries the call type, and `InvalidKeys` carries the invalid keys.
- Request.Format handles only the `%s` and `%%` conversions of `sprintf`, the only ones the template uses.
- The PHP notice for reading the missing first argument of `setApiKey()` is not modelled. Only its effect is: the argument reads as null, and null is neither a string nor an array.
- PHP arrays never repeat a key, but `Value.Arr` can. Only inputs with `DistinctKeys` correspond to PHP arrays, and what `Dispatch` and `Call` return for other inputs stands for nothing in the library.
- Concurrency is not modelled. The class's static state belongs to one PHP process.
- The two example scripts, messages_search.php and messages_send.php, are not modelled. They only show how the class is called.
- The unit tests are not modelled as such. `ClientTrace` repeats their sequence of calls against the model, with the network taken as answering ping.
