# CrossStorageClient — a verified Dafny model

CrossStorageClient is the page-side half of cross-storage. It embeds a hub
page in a hidden iframe and talks to it over `postMessage`, so that several
origins can share one origin's localStorage. This project models the
client's connection state machine and its request correlator:

- `onConnect` queues connect-waiters until the hub's first namespaced
  message connects the client;
- `set`, `get`, `del`, `clear` and `getKeys` go through `_request`, which
  numbers the request, files a callback in `_requests`, arms a timer and
  posts an envelope to the hub;
- the window message listener filters inbound messages by state, data and
  origin, handles the "unavailable" and "ready" control strings, and routes
  responses to their request by id;
- `close` ends the client.

It also models two pure pieces:

- the origin normalisation the client compares and posts with;
- the uuid v4 helpers bundled into the distributed script: the `byteToHex`
  table, `unsafeStringify`, and the part of `v4` that stamps the version and
  variant bits and copies the bytes into a caller's buffer.

Layout:

- `values.dfy`: JSON values as the listener sees them, JavaScript truthiness,
  `String(v)` and decimal numerals.
- `origin.dfy`: `_getOrigin`'s tail, the listener's "null" origin rule and
  the target-origin rule.
- `protocol.dfy`: control strings, error messages, `indexOf`, request
  identifiers, envelopes, inbound messages, and the settlement of requests
  and waiters.
- `client_model.dfy`: the client's state and one pure transition per event.
  It holds the invariant every reachable state keeps and the lemmas about
  settling, connecting and closing.
- `client.dfy`: the `CrossStorageClient` class. Its fields are updated in
  place, one method per event. Each method is proved to perform exactly the
  transition of `client_model.dfy`, so that module's invariant and lemmas
  hold of the object.
- `uuid.dfy`: the bundled uuid helpers. The random bytes are a parameter.

Quirks of the code that the model keeps:

- `_requests` is a `Map`, but callbacks are stored and read as bracket
  properties while `Map.delete` removes nothing. Entries are therefore never
  removed. Each carries a status (pending, resolved or rejected) and whether
  its timer is still armed. A settled entry stays settled, because a promise
  settles once and `clearTimeout` disarms the timer.
- The onConnect timer rejects its waiter but leaves it in `_connections`.
- The connect trigger is `indexOf("cross-storage:") !== -1`, so the namespace
  may occur anywhere in the text, not only at its start.
- "cross-storage:unavailable" closes the client and calls every queued
  waiter with the hub error. It neither empties the queue nor touches
  `_requests`.
- Once connected, `onConnect` returns the client's `_promise`, which by
  default never settles.
- In `v4`, `buf` may be the random array itself. When 0 < offset < 16 the
  copy loop then reads bytes it has already overwritten; with offset 0 each
  byte is copied onto itself, and with offset >= 16 no byte it reads has been
  written. The model states exactly what ends up in the buffer in every case.
- `get` and `clear` are `async`, so where `_request` throws (a closed client,
  a missing hub) they hand back a rejected promise; `set`, `del` and
  `getKeys` throw.

The comment above `_getOrigin` (src/CrossStorageClient.ts:63-68) speaks of
dropping the default port of the URL's protocol ("443 over https"). The code
removes a trailing ":80" or ":443" whatever the scheme, so "https://h:80"
becomes "https://h". `Origin.StripDefaultPort` follows the code.

## Model

| member | source | states |
|---|---|---|
| `Values.Truthy` | src/CrossStorageClient.ts:277 | a JSON value is falsy exactly when it is null, false, 0 or "" |
| `Values.JsString` | src/CrossStorageClient.ts:279-280 | the property key of a response id and the message of `new Error(err)`: a string is itself, for a magnitude below 10^21 a non-negative number is its decimal numeral (digits with no leading zero that read back as the number) and a negative number "-" followed by the numeral of its magnitude |
| `Values.Decimal` | src/CrossStorageClient.ts:361 | the numeral of `_count` is a non-empty string of digits with no leading zero |
| `Values.ParseDecimalOfDecimal` | src/CrossStorageClient.ts:361 | reading the numeral of n back gives n |
| `Values.DecimalInjective` | src/CrossStorageClient.ts:361 | distinct counts have distinct numerals |
| `Origin.StripDefaultPort` | src/CrossStorageClient.ts:90 | the result is a prefix of the input; the input is the result itself or the result followed by ":80" or ":443"; it is unchanged exactly when the input ends in neither |
| `Origin.GetOrigin` | src/CrossStorageClient.ts:73-93 | the origin of the hub URL; its three cases are stated by `Origin.GetOriginOfAbsoluteUrl` and `Origin.GetOriginFallbacks` |
| `Origin.GetOriginFallbacks` | src/CrossStorageClient.ts:79-87 | a URL without a host yields the document's own origin; a URL with a host but an empty or bare ":" protocol takes the document's protocol |
| `Origin.GetOriginOfAbsoluteUrl` | src/CrossStorageClient.ts:79-90 | for a URL with host and protocol the origin is protocol + "//" + host with the port suffix stripped, and exactly that when the host ends in neither suffix |
| `Origin.StripKeepsSeparator` | src/CrossStorageClient.ts:89-90 | the port strip never reaches into the "//" after the protocol |
| `Origin.TargetOriginOfResolved` | src/CrossStorageClient.ts:388 | for every resolved origin, the target is "*" exactly when the origin is "file://" |
| `Origin.ListenerOrigin` | src/CrossStorageClient.ts:233 | "null" is compared as "file://"; every other origin is compared as given |
| `Origin.TargetOrigin` | src/CrossStorageClient.ts:388 | the target is "*" exactly for a "file://" (or literal "*") origin, and the origin itself otherwise |
| `Protocol.IndexOfFrom` | src/CrossStorageClient.ts:255 | the result is -1 exactly when the substring occurs at no position from `from` on; otherwise it is the first such position |
| `Protocol.IndexOf` | src/CrossStorageClient.ts:255 | -1 exactly when the substring occurs nowhere in the text; otherwise the first position where it occurs |
| `Protocol.IndexOfFindsInfix` | src/CrossStorageClient.ts:255 | the namespace is found anywhere in the text, at or before the end of any prefix it follows |
| `Protocol.RequestId` | src/CrossStorageClient.ts:361 | the identifier `_id + ':' + _count`; its form is stated by `Protocol.RequestIdShape` and its injectivity by `Protocol.RequestIdInjective` |
| `Protocol.RequestIdShape` | src/CrossStorageClient.ts:361 | the identifier is the client id, then ':', then digits that read back as the count |
| `Protocol.RequestIdInjective` | src/CrossStorageClient.ts:361 | two requests of one client with different counts get different identifiers |
| `Protocol.IssuedIdsMembership` | src/CrossStorageClient.ts:358-361 | after n requests, the identifier with count m has been issued exactly when 1 <= m <= n |
| `Protocol.Respond` | src/CrossStorageClient.ts:380-385 | the request callback disarms the timer and keeps the method; a settled promise keeps its outcome; a pending one settles, rejected exactly when the error is truthy |
| `Protocol.Expire` | src/CrossStorageClient.ts:372-377 | the request timer disarms itself; a settled promise keeps its outcome; a pending one is rejected |
| `Protocol.Settle` | src/CrossStorageClient.ts:117-125 | calling a waiter (or its timer firing) disarms the timer; a settled waiter keeps its outcome; a pending one takes exactly the given outcome |
| `Protocol.TimeoutMessage` | src/CrossStorageClient.ts:376 | the message of the request timeout error: "Timeout: could not perform " followed by the namespaced method; `ClientModel.TimeoutRejects` states that an expired request carries it |
| `Protocol.Namespaced` | src/CrossStorageClient.ts:362 | the method sent on the wire is "cross-storage:" followed by the caller's method; `ClientModel.SendRequestOutcome` states that each envelope carries it |
| `Protocol.SettleOnce` | src/CrossStorageClient.ts:117-125 | once a waiter has settled, calling it again with any outcome changes nothing |
| `ClientModel.OnConnect` | src/CrossStorageClient.ts:102-127 | throws, with "CrossStorageClient has closed" and no change, exactly when closed and not connected; never touches the table, the count, the posts or the connection flags, and keeps every earlier waiter |
| `ClientModel.SendRequest` | src/CrossStorageClient.ts:348-395 | fails exactly when closed or without a hub, with the message of the first check that fails and no change; otherwise adds exactly one post, whose id is the result and is in the table, and loses no entry; the connection flags and waiters are untouched |
| `ClientModel.Awaited` | src/CrossStorageClient.ts:155-159 | an `async` call hands back the request's promise exactly when `_request` returned, and otherwise a promise rejected with the thrown error's message |
| `ClientModel.AsyncRequestOutcome` | src/CrossStorageClient.ts:155-181 | `get` (155-159) and `clear` (179-181) never throw: a closed client gives a promise rejected with "has closed", a missing hub one rejected with "disconnected state", otherwise the promise of request count + 1 |
| `ClientModel.Close` | src/CrossStorageClient.ts:197-207 | the client ends closed and disconnected, and nothing else changes |
| `ClientModel.RequestTimerFires` | src/CrossStorageClient.ts:372-377 | no entry is added or removed, only the entry of the firing timer can change, and nothing outside the table changes |
| `ClientModel.ConnectTimerFires` | src/CrossStorageClient.ts:117-125 | the number of waiters stays, only the waiter of the firing timer can change, a waiter already settled keeps its outcome (its call cleared the timer, line 122), and nothing else changes |
| `ClientModel.ConnectOn` | src/CrossStorageClient.ts:255-265 | the client is connected afterwards exactly when it was before or the text contains "cross-storage:"; the table, count, posts and closed flag are untouched; when it connects, the queue is emptied and no queued waiter is left pending; otherwise nothing changes |
| `ClientModel.Deliver` | src/CrossStorageClient.ts:279-281 | no entry is added or removed, only the addressed entry can change, and nothing outside the table changes |
| `ClientModel.Dispatch` | src/CrossStorageClient.ts:267-281 | no entry is added or removed, settled entries keep their outcome, and nothing outside the table changes |
| `ClientModel.Receive` | src/CrossStorageClient.ts:220-282 | nothing changes unless the message passes the filters; the listener never adds or removes an entry, never counts and never posts, and settled requests keep their outcome |
| `ClientModel.Init` | src/CrossStorageClient.ts:25-30 | the fields of a new client: not connected, not closed, count 0, no requests, no waiters, nothing posted; `ClientModel.InitValid` states that it satisfies the invariant |
| `ClientModel.Accepts` | src/CrossStorageClient.ts:228-236 | the listener's filters; `ClientModel.ListenerFilters` states that a message failing them changes nothing and that "null" passes for "file://" |
| `ClientModel.SettleAll` | src/CrossStorageClient.ts:247-249 | calling the queued waiters with one outcome settles exactly the waiters named in the queue, each once, and leaves all others as they were |
| `ClientModel.InitValid` | src/CrossStorageClient.ts:25-30 | a new client (empty table and queue, count 0, neither connected nor closed) satisfies the invariant |
| `ClientModel.SendRequestPreservesValid` | src/CrossStorageClient.ts:348-395 | `_request` keeps the invariant: the table holds exactly the issued identifiers, one post each, and timers are armed exactly while pending |
| `ClientModel.ConnectOnPreservesValid` | src/CrossStorageClient.ts:255-265 | the connection step on an open client keeps the invariant |
| `ClientModel.DispatchPreservesValid` | src/CrossStorageClient.ts:267-281 | the response step keeps the invariant: it settles entries but never adds or removes one |
| `ClientModel.ReceivePreservesValid` | src/CrossStorageClient.ts:220-282 | the message listener keeps the invariant |
| `ClientModel.RequestTimerPreservesValid` | src/CrossStorageClient.ts:372-377 | a request timer firing keeps the invariant |
| `ClientModel.ApplyPreservesValid` | src/CrossStorageClient.ts:102-395 | every event keeps the invariant: onConnect and its timer (102-127), close (197-207), the listener (220-282), `_request` and its timer (348-395) |
| `ClientModel.RunPreservesValid` | src/CrossStorageClient.ts:102-395 | any sequence of the events of onConnect (102-127), close (197-207), the listener (220-282) and `_request` (348-395) keeps the invariant |
| `ClientModel.ReachableValid` | src/CrossStorageClient.ts:18-32 | every state reached from construction satisfies the invariant |
| `ClientModel.RequestIdsDistinct` | src/CrossStorageClient.ts:358-361 | the identifiers of all envelopes a client has posted are pairwise distinct |
| `ClientModel.SendRequestOutcome` | src/CrossStorageClient.ts:350-391 | a throw when closed, then a throw when the hub is missing, both with no change; otherwise count + 1, a never-used identifier, a pending entry with an armed timer, and one envelope with the namespaced method and the params unchanged, posted to the target origin |
| `ClientModel.SettledIsFinal` | src/CrossStorageClient.ts:372-385 | no event removes a settled request or changes its outcome |
| `ClientModel.WaiterSettledIsFinal` | src/CrossStorageClient.ts:117-125 | no event changes the outcome of a settled connect-waiter or removes it |
| `ClientModel.WaiterSettledIsFinalOverRun` | src/CrossStorageClient.ts:117-125 | no sequence of events changes the outcome of a settled connect-waiter or removes it |
| `ClientModel.SettledIsFinalOverRun` | src/CrossStorageClient.ts:372-385 | no sequence of events removes a settled request or changes its outcome |
| `ClientModel.TimeoutRejects` | src/CrossStorageClient.ts:372-377 | a pending request has an armed timer; when it fires the request is rejected with "Timeout: could not perform " and the namespaced method it was posted with |
| `ClientModel.TimeoutThenAnything` | src/CrossStorageClient.ts:372-385 | after a timeout, any later events, responses for that id included, leave the request rejected with the timeout error |
| `ClientModel.ResponseSettles` | src/CrossStorageClient.ts:277-283 | a response to a pending request disarms its timer, rejects it with String(error) for a truthy error, resolves it with result otherwise, and changes no other entry |
| `ClientModel.UnaddressedDropped` | src/CrossStorageClient.ts:270-281 | unparseable data, a missing or falsy id and an unknown id change nothing beyond the connection step |
| `ClientModel.ListenerFilters` | src/CrossStorageClient.ts:228-236 | the listener changes nothing on a closed client, on empty or non-string data, or on a foreign origin; "null" passes for "file://" |
| `ClientModel.OnConnectOutcome` | src/CrossStorageClient.ts:102-127 | the ambient promise when connected; a throw when closed; otherwise exactly one new pending waiter with an armed timer, queued last |
| `ClientModel.NoNamespaceKeepsConnection` | src/CrossStorageClient.ts:239-265 | a message whose text does not contain "cross-storage:" leaves `connected`, the waiters and the queue as they were |
| `ClientModel.ConnectDrainsQueue` | src/CrossStorageClient.ts:255-265 | the first namespaced message while not connected connects the client, resolves every pending waiter, leaves settled waiters alone and empties the queue |
| `ClientModel.ConnectedLeavesNoWaiter` | src/CrossStorageClient.ts:255-265 | once connected, no connect-waiter is pending |
| `ClientModel.UnavailableCloses` | src/CrossStorageClient.ts:239-252 | "cross-storage:unavailable" closes the client and rejects every pending waiter with the hub error; the queue, the table, the count and the posts are unchanged |
| `ClientModel.ConnectTimeoutKeepsQueued` | src/CrossStorageClient.ts:117-119 | a connect timer rejects its waiter with "could not connect" and leaves it in the queue |
| `ClientModel.CloseIdempotent` | src/CrossStorageClient.ts:197-207 | close leaves the client closed and disconnected, and closing twice is closing once |
| `Client.CallQueued` | src/CrossStorageClient.ts:247-249 | the loop over `_connections` computes `SettleAll`: each queued waiter settled once, all others unchanged |
| `Client.CrossStorageClient.constructor` | src/CrossStorageClient.ts:18-32 | the new client is in the initial state, valid, with its origin resolved from the hub URL |
| `Client.CrossStorageClient.OnConnect` | src/CrossStorageClient.ts:102-127 | performs the onConnect transition and keeps the invariant |
| `Client.CrossStorageClient.SendRequest` | src/CrossStorageClient.ts:348-395 | performs the `_request` transition and keeps the invariant |
| `Client.CrossStorageClient.Set` | src/CrossStorageClient.ts:138-143 | sends "cross-storage:set" with params {key, value} |
| `Client.CrossStorageClient.Get` | src/CrossStorageClient.ts:155-159 | sends "cross-storage:get" with params {keys} equal to the arguments in order; where `_request` throws it hands back a promise rejected with that error's message instead, with nothing changed |
| `Client.CrossStorageClient.Del` | src/CrossStorageClient.ts:168-171 | sends "cross-storage:del" with params {keys} equal to the arguments in order |
| `Client.CrossStorageClient.Clear` | src/CrossStorageClient.ts:179-181 | sends "cross-storage:clear" with params {}; where `_request` throws it hands back a promise rejected with that error's message instead, with nothing changed |
| `Client.CrossStorageClient.GetKeys` | src/CrossStorageClient.ts:189-191 | sends "cross-storage:getKeys" with params {} |
| `Client.CrossStorageClient.Close` | src/CrossStorageClient.ts:197-207 | sets connected to false and closed to true, and keeps the invariant |
| `Client.CrossStorageClient.Receive` | src/CrossStorageClient.ts:220-282 | the listener, step by step, performs exactly the modelled transition and keeps the invariant |
| `Client.CrossStorageClient.ConnectStep` | src/CrossStorageClient.ts:255-265 | the listener's connection step performs exactly the `ClientModel.ConnectOn` transition |
| `Client.CrossStorageClient.DispatchStep` | src/CrossStorageClient.ts:267-281 | the listener's response step performs exactly the `ClientModel.Dispatch` transition |
| `Client.CrossStorageClient.RequestTimerFires` | src/CrossStorageClient.ts:372-377 | the request timer transition, keeping the invariant |
| `Client.CrossStorageClient.ConnectTimerFires` | src/CrossStorageClient.ts:117-119 | the connect timer transition, keeping the invariant |
| `Uuid.HexDigit` | dist/CrossStorageClient.js:4 | a digit below 16 prints as a lowercase hex character |
| `Uuid.ToHex` | dist/CrossStorageClient.js:4 | `toString(16)` gives one or more lowercase hex digits with no leading zero |
| `Uuid.HexValue` | dist/CrossStorageClient.js:4 | reading a lowercase hex character gives the digit that prints as it |
| `Uuid.ToHexSlice` | dist/CrossStorageClient.js:4 | `(i + 256).toString(16)` has three characters, and dropping the first gives the two-digit encoding of i |
| `Uuid.BuildByteToHex` | dist/CrossStorageClient.js:2-5 | the table has 256 entries and entry i is the two-digit encoding of i |
| `Uuid.ByteHexRoundTrip` | dist/CrossStorageClient.js:2-5 | every entry is two lowercase hex digits that read back as its index |
| `Uuid.Lower` | dist/CrossStorageClient.js:7 | `toLowerCase` keeps the length, leaves no upper-case letter and keeps every other character |
| `Uuid.UnsafeStringify` | dist/CrossStorageClient.js:6-8 | the formatted identifier has 36 characters; its layout and round trip are `Uuid.StringifyLayout` and `Uuid.StringifyRoundTrip` |
| `Uuid.LowerKeepsHexOrDash` | dist/CrossStorageClient.js:7 | toLowerCase leaves a string of lowercase hex digits and dashes unchanged |
| `Uuid.StringifyLayout` | dist/CrossStorageClient.js:6-8 | the result has 36 characters, '-' at 8, 13, 18 and 23, and byte k of the range as two lowercase hex digits at its place |
| `Uuid.StringifyRoundTrip` | dist/CrossStorageClient.js:6-8 | reading the formatted string back gives `arr[offset..offset+16]` in order |
| `Uuid.Versioned` | dist/CrossStorageClient.js:37-38 | byte 6 gets version 4 in its high nibble with its low nibble kept, byte 8 gets variant bits 10 on top with its low six bits kept, every other byte is unchanged |
| `Uuid.Stamp` | dist/CrossStorageClient.js:37-38 | the two in-place writes leave the random bytes equal to their versioned form |
| `Uuid.StringifyMarks` | dist/CrossStorageClient.js:6-8 | a byte 6 with high nibble 4 prints '4' at index 14; a byte 8 with top bits 10 prints 8, 9, a or b at index 19 |
| `Uuid.VersionDigits` | dist/CrossStorageClient.js:37-49 | in the formatted identifier the version digit is '4' and the variant digit one of 8, 9, a, b |
| `Uuid.CopyBytes` | dist/CrossStorageClient.js:44-46 | the copy loop writes the 16 random bytes at offset..offset+15 and nothing else; when the buffer is the random array itself and 0 < offset < 16, positions from the offset on repeat the bytes already copied; with offset 0 or offset >= 16 the bytes are copied as read |
| `Uuid.OffsetOrZero` | dist/CrossStorageClient.js:40 | the `offset` default: a missing offset is 0; `Uuid.V4` states the bounds check and the copy at that offset |
| `Uuid.Placed` | dist/CrossStorageClient.js:44-46 | the 16 bytes land at offset..offset+15 and every other position keeps its value |
| `Uuid.V4` | dist/CrossStorageClient.js:32-50 | throws for fewer than 16 random bytes with nothing changed; otherwise stamps version and variant into the random bytes; then returns their formatted string without a buffer, throws RangeError for an offset outside the buffer, or copies the 16 bytes into the buffer at the offset, nothing else changed, and returns it |

## Left out

- The DOM: creating, styling and removing the iframe, `document.getElementById`, and registering and removing the listener. The frame is reduced to whether the hub window exists.
- Timers and `_timeout`: a timer firing is an explicit event method, with no clock. A timer can fire only while armed, which is what `clearTimeout` ensures.
- `_poll`: it is driven by an interval, and its callback is a plain `function` whose `this` is not the client. Its target-origin choice is the one `TargetOrigin` models.
- `JSON.parse` and `JSON.stringify`: an inbound message arrives already classified as unparseable or as its `id`, `error` and `result` properties. An envelope is a record, not its serialisation.
- The browser's URL parsing in `_getOrigin`: the anchor's and `window.location`'s protocol and host are inputs.
- Randomness: the client id (`uuid.v4()`) and the random bytes are parameters. `rng`, `crypto.getRandomValues` and the native `randomUUID` shortcut of `v4` are not part of this model.
- The promises themselves: each request and connect-waiter is represented by its settlement status. What onConnect returns is a handle naming the waiter or the ambient `_promise`.
- The constructor options: `opts.promise` only replaces the ambient promise, which is a handle here; `opts.frameId` only selects the frame and starts `_poll`; `opts.timeout` only delays the timers.
- A response that parses to `null` or another non-object: reading `id` from `null` throws inside the listener and a primitive has no `id`. Either way nothing after the connection step changes, and the model treats both as a message without an id.
- `Values.Value`: an `error` or `id` whose `String()` throws (an object with a non-callable own `toString`) is not modelled; every value here has a string form. In the source such an `id` makes the listener throw at line 279 with nothing changed, and such an `error` makes the callback throw at `new Error(err)` (line 383) after clearing the timer, so the request stays pending with no timer. The hub sends `error` as a string, which rules this input out.
- The `if (!this._connections)` guards: `_connections` is always an array, so they never fire.
- Numbers are integers: floating-point values of `id`, `error` and `result`, and precision loss of `_count` beyond 2^53, are not modelled.
- `Values.JsString`: numbers are exact integers here, so the rounding `JSON.parse` applies above 2^53 and the exponent form `String()` prints from magnitude 10^21 on (a response error 1e21 rejects with "1e+21") are not modelled; the numeral is exact only below 10^21.
- An `id` that names a property every object has (such as "constructor" or "get") would find a truthy non-callback on the `Map`. The model looks ids up only among stored callbacks.
- `Uuid.Lower`: toLowerCase is modelled on ASCII letters only, which is all the table can produce.
- `Uuid.UnsafeStringify`: it requires 16 bytes from `offset`. It is only ever called that way, and out-of-range reads (which would print "undefined") are not modelled. It takes the bytes as numbers 0..255. It encodes each byte with the two-digit encoding that `Uuid.BuildByteToHex` proves the table holds, instead of indexing the table.
- `Uuid.V4`: the random bytes and the buffer are Uint8Arrays, modelled as arrays of 8-bit vectors. Plain arrays holding other numbers, and `offset` values that are not integers, are not modelled.
- dist/CrossStorageClient.d.ts is type declarations only. The class at dist/CrossStorageClient.js:54-357 is the compiled form of src/CrossStorageClient.ts, which is what is modelled.
