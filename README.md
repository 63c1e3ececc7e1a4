# Mock XMLHttpRequest of can-fixture, in Dafny

`xhr.js` replaces the platform's `XMLHttpRequest` with a mock request object. When
`send` is called, the mock derives a settings record from the stored method, URL,
headers and body, and asks the fixture registry for a match. Then it does one of four
things:

- It answers the request itself with a dynamic fixture.
- It schedules a passthrough request on a timer (a delay fixture).
- It rewrites the request from a static fixture and forwards it to the real transport.
- It forwards the request unchanged.

The mock keeps its own event listeners. It forwards the events of the real transport
to them, and it mirrors a fixed set of properties onto whichever object backs it: the
real transport, or the plain record that replaces it after a dynamic answer.

This project models that object as a sequential state machine:

- `MockXhr.Mock` is a class. Its fields are the backing object, the request
  headers, the listener lists, the on-event properties, the recorded timer id, and
  the pending delayed requests keyed by timer id.
- `log` records, in order, every call made on the real transport and every callback
  fired.
- The request normaliser, the status-text choice and the header string are pure
  functions.
- The registry's answer, the timer ids and the dynamic-fixture runner's return value
  are parameters.

Modules:

- `JsValues` — JavaScript values, truthiness, strict equality, the codecs.
- `Text` — `toLowerCase`, `split` and `join`.
- `Normalizer` — the settings record.
- `Completion` — the synthetic record and the header string.
- `Listeners` — the listener lists and the callback order.
- `Discovery` — the event and property names.
- `MockXhr` — the dispatch verdict and the class.
- `Scenarios` — four client runs stated through the class contracts alone.

Three behaviours of the code are modelled exactly as written:

- The guard `!data && type === "get" || type === "delete"` (xhr.js:144) strips the
  query of every `delete`, even one with a body, and of a `get` only when its body is
  falsy.
- `url.split("?")[1]` (xhr.js:145) is the text between the first and the second `?`,
  not everything after the first `?` (`Normalizer.QueryOfSegment`).
- A dynamic completion calls the `onreadystatechange` property but no
  `readystatechange` listener (xhr.js:198-216).

## Model

| member | source | states |
|---|---|---|
| JsValues.AsyncFlag | xhr.js:69 | the async flag is false exactly when the argument is the value `false`, and true otherwise, including for `undefined` |
| MockXhr.Mock.Open | xhr.js:66-70 | `open` stores the type, the URL and the normalised async flag on the backing object, which stays real or synthetic as it was; nothing else changes |
| MockXhr.Mock.SetRequestHeader | xhr.js:63-65 | the header map gets the new value; a new name is appended to the name order and a known one keeps its place; names stay distinct and match the map's keys |
| MockXhr.Mock.AddEventListener | xhr.js:74-77 | the listener is appended to the end of its event's list (duplicates allowed); a missing list starts empty; every other event's list is unchanged |
| MockXhr.Mock.RemoveEventListener | xhr.js:78-84 | the event's list becomes its first-occurrence removal (an empty list is created for an unknown event); every other list is unchanged |
| Listeners.IndexOf | xhr.js:80 | `indexOf` answers -1 exactly when the listener is absent, and otherwise the position of its first occurrence |
| Listeners.Removed | xhr.js:80-83 | removal leaves a list without the listener as it was, shortens a list holding it by one, and adds no listener |
| Listeners.RemovedTakesOneOccurrence | xhr.js:80-83 | removing a present listener takes out one occurrence at its first position, keeping the others in order (one fewer in the multiset); an absent listener leaves the list as it was |
| Listeners.RemoveAfterAdd | xhr.js:74-84 | adding and then removing a listener restores the list when it was not registered; otherwise the earlier registration is the one removed |
| Listeners.ListenerCalls | xhr.js:109-115 | `callEvents` calls one listener per registration, in registration order, and none for an event without listeners |
| MockXhr.Mock.CallEvents | xhr.js:109-115 | the loop appends exactly the listener calls of the event to the log |
| MockXhr.Mock.TransportEvent | xhr.js:47-54 | an event of the real transport fires the mock's listeners and then its on-event property, and only for the event names given at construction |
| MockXhr.Mock.SetDisableHeaderCheck | xhr.js:85-87 | the flag is the truthiness of the argument |
| MockXhr.Mock.GetResponseHeader | xhr.js:88-90 | every response header reads as the empty string |
| MockXhr.Mock.GetAllResponseHeaders | xhr.js:71-73 | before a dynamic answer the call goes to the transport, is logged as `GetAllHeaders`, and its answer is returned; after one, the header string of the answer's headers, with nothing logged |
| Text.LowerChar | xhr.js:131 | a lower-cased character is never upper-case, and a character that is not upper-case is kept |
| Text.Lower | xhr.js:131 | `toLowerCase` keeps the length and lower-cases each character in place |
| Text.LowerIsIdempotent | xhr.js:131 | lower-casing twice is lower-casing once |
| Normalizer.MethodName | xhr.js:131 | the method is never empty: an empty type becomes `get`, any other is lower-cased |
| Normalizer.MethodNameIsCanonical | xhr.js:131 | the method has no upper-case letter, and normalising it again changes nothing |
| Normalizer.StripsQuery | xhr.js:144 | only a `get` or a `delete` loses its query |
| Normalizer.StripsQueryCases | xhr.js:144 | the query is split off for every `delete`, for a `get` exactly when the body is falsy, and for no other method |
| Text.Split | xhr.js:145-146 | `split` always yields at least one piece |
| Text.SplitFirst | xhr.js:145-146 | the first piece is a prefix without the separator that ends at the first separator; there is a second piece exactly when the separator occurs, and the other pieces split the rest |
| Text.SplitPiecesAreFree | xhr.js:145-146 | no piece of a split contains the separator |
| Text.JoinSplit | xhr.js:145-146 | joining the pieces with the separator gives back the string |
| Normalizer.PathOf | xhr.js:146 | the path is a `?`-free prefix of the URL that ends at the first `?` or at the end |
| Normalizer.QueryOf | xhr.js:145 | the query is absent exactly when the URL has no `?`, and it never contains a `?` |
| Normalizer.QueryAfterPath | xhr.js:145-146 | a URL with a `?` is the path, that `?` and the rest; the query is the path of the rest |
| Normalizer.QueryInUrl | xhr.js:145-146 | with a `?` in the URL, the path, that `?` and the query are a prefix of the URL, followed by nothing or another `?` |
| Normalizer.QueryOfSegment | xhr.js:145 | the query handed to `deparam` is absent exactly when there is no `?`; otherwise it is the `?`-free text after the first `?`, ending at the second `?` or at the end of the URL |
| Normalizer.DecodeData | xhr.js:149-156 | string data becomes its JSON parse, or its `deparam` when parsing fails; any other data is kept |
| Normalizer.Normalize | xhr.js:130-156 | the settings record carries the normalised method and the headers; when the query is split off, the URL is the `?`-free prefix before the first `?` and the data is the decoded `deparam` of the query; otherwise the URL is kept and the data is the decoded body |
| MockXhr.Mock.RequestSettings | xhr.js:131-147 | `send` matches on the normalised method, the stored headers and async flag, and the stored URL, which has its query removed when the guard holds |
| MockXhr.Classify | xhr.js:159-247 | the registry's answer is tested in order: none, then a function fixture, then a numeric fixture (with its delay), then any other answer, which is a redirect carrying the answer's fields |
| MockXhr.RequestCalls | xhr.js:223-231 | `makeRequest` opens the transport with the stored type, URL and async flag, then calls `setRequestHeader` once per header in order, then sends the body |
| MockXhr.HeaderCalls | xhr.js:226-228 | one `setRequestHeader` call per stored header, in name order, with that header's value |
| MockXhr.BuildRequestCalls | xhr.js:223-231 | the loop builds exactly the `makeRequest` call sequence |
| MockXhr.Mock.MakeRequest | xhr.js:223-231 | `makeRequest` appends exactly that call sequence to the log |
| MockXhr.Mock.Send | xhr.js:124-251 | a function fixture records the runner's timer id and calls nothing; a numeric fixture records the timer id and adds the original body under it to the pending delayed requests, keeping earlier ones, and calls nothing; a redirect copies the answer's fields onto the real backing object and then makes the request; no fixture makes the request unchanged; the settings record is that of the normaliser |
| MockXhr.Mock.Dispatch | xhr.js:163-250 | the four branches of `send` for a given verdict, with the same effects as stated for `Send` |
| MockXhr.Mock.FireDelayed | xhr.js:223-237 | when the timer of a pending delayed request fires, `makeRequest` runs with the body that `send` gave it; only that request leaves the pending ones, and the timer id stays recorded |
| Completion.ResponseText | xhr.js:166 | a string body is the response text as it is; any other body is stringified |
| Completion.StatusText | xhr.js:177-188 | the status text is always truthy, and is the given one, `OK` or `error` |
| Completion.StatusTextDefault | xhr.js:177-188 | a truthy status text is kept; otherwise it is `OK` for a status in [200, 300) or 304, and `error` for any other status; the result is always truthy |
| Completion.SyntheticFields | xhr.js:170-188 | the synthetic record holds exactly `readyState` 4, the status, the status text and the response text |
| Completion.HeaderString | xhr.js:190-196 | the header string is empty exactly when there are no headers |
| Completion.HeaderStringAppend | xhr.js:190-196 | the header string of two header lists is the concatenation of theirs, so each header contributes its own line in order |
| Completion.HeaderStringShape | xhr.js:190-196 | the header string is empty exactly when there are no headers; otherwise it ends in CRLF, and its length is that of the names and values plus four per header |
| MockXhr.Mock.Complete | xhr.js:165-217 | the completion replaces the backing object with the synthetic record, replaces `getAllResponseHeaders`, and fires exactly the completion callbacks |
| MockXhr.Mock.FireCompletion | xhr.js:198-216 | the completion's firing steps append exactly the completion callbacks to the log |
| Listeners.CompletionCallbacks | xhr.js:198-216 | the completion fires the `progress`, `load` and `loadend` listeners once per registration, plus at most one call for each of the four on-event properties, and nothing more |
| Listeners.HandlerCall | xhr.js:198-216 | an on-event property is called once when it holds a function, with that function, and not at all otherwise |
| MockXhr.Mock.FireHandler | xhr.js:198-216 | appends exactly that on-event property call to the log |
| MockXhr.Mock.Fire | xhr.js:48-53 | the listeners of the event, then its on-event property, are appended to the log |
| Listeners.CompletionOrder | xhr.js:198-216 | the completion fires `onreadystatechange`, then the `progress` listeners and `onprogress`, then `load` and `onload`, then `loadend` and `onloadend`, and never fires a `readystatechange` listener or any other callback |
| Listeners.CompletionCardinality | xhr.js:198-216 | the completion calls each on-event property at most once, and each `progress`, `load` and `loadend` listener once per registration |
| Listeners.OrderedHandlersOnce | xhr.js:198-216 | in a callback sequence in completion order, no on-event property is called twice |
| Listeners.OrderedPairs | xhr.js:198-216 | order between neighbours extends to every pair of callbacks |
| Listeners.BlocksOrdered | xhr.js:198-216 | seven blocks of callbacks, of stages 0 to 6 in turn, are in completion order |
| MockXhr.AbortCalls | xhr.js:91-108 | with a timer id recorded, a real transport is opened with the normalised async flag, sent nothing and aborted; without one it is only aborted; the synthetic record has none of these methods, so nothing is called |
| MockXhr.Mock.Abort | xhr.js:91-108 | `abort` appends exactly those calls, and clears only the timer of the recorded id: the delayed requests of other timers stay pending |
| MockXhr.ProxySet | xhr.js:260-264 | after a set, reading the property gives the new value and no other property changes; setting the current value leaves the backing object unchanged |
| MockXhr.Mock.GetProperty | xhr.js:257-259 | a property read returns the backing object's field, or `undefined` |
| MockXhr.Mock.SetProperty | xhr.js:260-264 | a property write sets the backing object as the proxy setter does |
| MockXhr.Mock.SetHandler | xhr.js:48-53 | assigning an on-event property records the function, and a falsy value clears it |
| MockXhr.Mock.constructor | xhr.js:35-60 | a new mock wraps a fresh real transport, has no headers, listeners, on-event properties, timer id or pending delayed request, and has made no call |
| Discovery.Step | xhr.js:21-27 | visiting one member keeps both lists as prefixes, adds at most one name, and adds only a name the list does not hold |
| Discovery.Discovered | xhr.js:20-28 | the baseline lists stay prefixes, and each member adds at most one name |
| Discovery.Discover | xhr.js:18-29 | the discovery loop computes the event and property lists of the left-to-right union over the template's members |
| Discovery.BaselinesDistinct | xhr.js:13-17 | neither baseline list names anything twice |
| Discovery.DiscoveredExtends | xhr.js:20-28 | the baseline lists stay prefixes of the discovered lists, and lists without duplicates stay so |
| Discovery.DiscoveredNames | xhr.js:20-28 | a name is a discovered event exactly when it is a baseline event or an `on…` member names it; it is a discovered property exactly when it is a baseline property or a member that is neither an `on…` name nor a function |
| Scenarios.DelayedThenAbort | xhr.js:91-108 | a GET sent to a delay fixture and aborted before the timer fires cancels the delayed request and calls `open`, `send` and `abort` on the transport |
| Scenarios.TwoDelaysThenAbort | xhr.js:91-108 | two delayed sends then `abort`: the earlier delayed request stays pending, and when its timer fires the transport is opened again and sent the earlier body |
| Scenarios.DynamicCompletion | xhr.js:165-216 | a POST answered by a dynamic fixture with a success status reads back the status, `OK` and the response text; only the `load` and `loadend` listeners fire, and a later `abort` calls nothing |
| Scenarios.RedirectedGet | xhr.js:144-250 | a GET with a query, redirected by a static fixture, is matched on its path; the transport is opened on the fixture's URL and sent no body |

## Left out

- The platform's `XMLHttpRequest` and the network. The real transport is a record of fields, and `log` records the calls made on it. Its own reactions, such as its `readyState` changes and the events it fires, are not modelled. `TransportEvent` stands for one such event.
- `setTimeout` and `clearTimeout`. A timer is only its id. `Send` requires that the delay fixture's timer and the runner's returned timer are not ids of pending delayed requests, as `setTimeout` never reuses a pending id. `FireDelayed` is the firing of one pending timer. `abort` clears the timer of the recorded id only. The cancellation of a dynamic fixture's own timers belongs to the fixture runner, which is not part of this model.
- The fixture registry (`fixtureCore.get`), the dynamic-fixture runner (`callDynamicFixture`) and the delay and redirect log lines. The registry's answer is the `resolve` parameter of `Send`. The runner's return value is the `dynamicTimer` parameter, taken to be `undefined` (`None`) or a timer id. A `null` return, which `abort` (xhr.js:96) would treat as a recorded timer, is not modelled. Its call of the completion callback is the separate method `Complete`.
- `deparam`, `JSON.parse` and `JSON.stringify`. They are uninterpreted fields of `JsValues.Codecs`. A failed parse is `None`.
- Installation on the global object and the `_XHR` back-reference (xhr.js:8-10, 35, 268). Discovery runs over a given list of member names instead of a `for…in` over a real instance.
- Forwarding of `arguments` and `this` to callbacks, and the callback bodies themselves. A callback is recorded in `log` but never runs. So a callback that re-enters the mock, for example by adding a listener during `callEvents`, is not modelled.
- JavaScript numbers are integers here. `NaN`, `-0` and fractions are not modelled.
- `toLowerCase` lower-cases the ASCII letters only.
- Header values are strings. Response headers are a list of pairs in the object's iteration order. The integer-like keys that `Object.keys` would move to the front are not modelled.
- Errors that JavaScript would throw are excluded by the preconditions of `Send` (`CanSend`). These are a non-string type, a non-string URL when the query is split off, and a request made on the synthetic record. `FireDelayed` likewise requires a real backing object.
- Fields copied from a redirect fixture that would replace the transport's `open`, `send` or `abort` are not modelled. Only the property fields are.
- `getAllResponseHeaders` before a dynamic answer: the transport's answer is a parameter.
- The settings record (xhr.js:131-147) has no `xhr` field pointing back at the mock, and it holds one `verb` where the source sets both `type` and `method`. Its `headers` is a copy of the request-header map, whereas the source's `headers` is the live `_requestHeaders` object, so a fixture that changes it would change the mock's headers; this aliasing is not modelled.
