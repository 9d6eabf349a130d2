# Web view storage bridge, modelled in Dafny

A React Native host app embeds a sandboxed web view. Code in the web view
cannot reach the device's storage, so it asks the host through messages:

- the web view's `window.storage.remotePut(key, value)` posts a
  `{targetFunc: "storagePut", data: {key, value}}` request and expects no answer;
- `window.storage.remoteGet(key)` posts `{targetFunc: "storageGet", data: {key}}`
  and returns a promise, parked in `window.fetchPromiseSwitchboard` under the
  storage key until `handleGet(key, value)` resolves it;
- the host's `onWebViewMessage` parses each message, drops unreadable ones,
  writes puts through its `Storage` adapter (no reply) and answers gets with
  `{id: "storageGet", data: <JSON text of {key, value}>}`;
- the adapter stores strings as they are and anything else as its JSON text,
  and reads the stored text back without decoding it.

The project models all three parts and the JSON text they exchange:

| file | module | models |
|---|---|---|
| `wrappers.dfy` | `Wrappers` | `Option` |
| `json.dfy` | `Json` | JSON values, `JSON.stringify` (string escaping, arrays, objects), and the string-literal decoder `JSON.parse` applies to it |
| `storage_adapter.dfy` | `StorageAdapter` | `storage.js`: class `Storage` over the native store, a `map<string, string>` |
| `peer_bridge.dfy` | `PeerBridge` | `webassets/storage.js`: class `Peer` with the pending-call registry, outbox and resolutions; pure step functions; whole runs |
| `host_dispatcher.dfy` | `HostDispatcher` | `App.js`: class `Host` with the store, the reply log and the display state; the per-message `Dispatch` |
| `end_to_end.dfy` | `EndToEnd` | the two sides composed: get, put-then-get, and the "color" exchange composed from the class methods |

Each class method is proved against a pure function of the old state
(`AfterPut`, `AfterGet`, `AfterReply`, `AfterSet`, `AfterRemove`,
`Dispatch`); the properties are proved as lemmas about those functions.
A promise returned by `remoteGet` is represented by a call number
(`CallId`, taken from a counter), and resolving it by appending
`(call, value)` to `resolved`. Posting a request appends the envelope to the
peer's `outbox`; posting a reply appends its JSON text to the host's
`replies`.

A get for a missing key is answered with `"value":null`, what the native
store's `getItem` resolves to; the reply's `id` is always `"storageGet"`,
never the key.

A parsed message reaches the dispatcher as `Classify(targetFunc, key, value)`
of its `targetFunc`, `data.key` and `data.value`: the tags `"storagePut"` and
`"storageGet"` give the two requests, and every other tag gives `Unknown`.

## Model

| member | source | states |
|---|---|---|
| `Json.Stringify` | storage.js:9 | `undefined` has no JSON text and every other value has one; a string's text is its quoted, escaped literal |
| `Json.EscapeRoundTrip` | App.js:63 | decoding the escaped form of any string gives that string back |
| `Json.SurrogatePairDecodes` | App.js:40 | a character outside the basic plane, written as the `\uXXXX` escapes of its UTF-16 surrogate pair, decodes to that one character |
| `Json.QuoteRoundTrip` | App.js:70-72 | a quoted string literal reads back as exactly the string it quotes (how the reply's `data` survives the outer JSON text) |
| `Json.RenderTwoMembers` | App.js:71 | the JSON text of a two-member object such as `{id, data}` is `{"<name>":<text>,"<name>":<text>}`, members in sequence order |
| `Json.EscapeObjectText` | App.js:63-72 | escaping the text of a two-member object escapes each part and keeps the punctuation |
| `StorageAdapter.StoredForm` | storage.js:7-10 | the text `setItem` writes: a string verbatim, any other value its JSON text, and nothing for `undefined` |
| `StorageAdapter.Storage.constructor` | storage.js:3 | the adapter starts over the native store's current contents |
| `StorageAdapter.Storage.SetItem` | storage.js:5-12 | the store afterwards is `AfterSet` of the old one; the write is accepted exactly when the value has a stored form |
| `StorageAdapter.Storage.GetItem` | storage.js:14-17 | returns the raw stored text or None, whatever `defaultValue` is, and changes nothing |
| `StorageAdapter.Storage.RemoveItem` | storage.js:19-22 | the store afterwards is the old one without the key |
| `StorageAdapter.GetAfterSetString` | storage.js:7-16 | a string written with `setItem` is read back verbatim |
| `StorageAdapter.GetAfterSetOther` | storage.js:7-16 | any other defined value is read back as its JSON text, not decoded |
| `StorageAdapter.ReadDoesNotDecode` | storage.js:7-16 | a non-string value and the string holding its JSON text leave the store identical, so a reader cannot tell them apart |
| `StorageAdapter.GetAfterRemove` | storage.js:16-21 | after `removeItem(k)`, `getItem(k)` finds nothing |
| `StorageAdapter.OtherKeysUnchanged` | storage.js:5-22 | `setItem` and `removeItem` leave every other key's value as it was |
| `PeerBridge.Peer.constructor` | webassets/storage.js:5 | a new peer has an empty registry, nothing posted and nothing resolved |
| `PeerBridge.Peer.RemotePut` | webassets/storage.js:9-28 | throws "Tried to store undefined" on `undefined` and changes nothing; otherwise reports success and the state is `AfterPut` of the old one |
| `PeerBridge.Peer.RemoteGet` | webassets/storage.js:30-44 | returns a new call number and the state is `AfterGet` of the old one |
| `PeerBridge.Peer.HandleGet` | webassets/storage.js:46-53 | the state is `AfterReply` of the old one |
| `PeerBridge.PutUndefinedChangesNothing` | webassets/storage.js:10-11 | refusing `undefined` posts nothing and touches nothing |
| `PeerBridge.PutPostsOneRequest` | webassets/storage.js:18-27 | a defined value appends exactly one `StoragePut(key, value)` and leaves the registry and resolutions alone |
| `PeerBridge.GetRegistersCall` | webassets/storage.js:31-43 | a get appends exactly one `StorageGet(key)`, registers the new call under the key replacing any earlier one, and keeps every other key's entry |
| `PeerBridge.ReplyResolvesWaiter` | webassets/storage.js:48-52 | a reply for a waiting key resolves that call with the value once and removes only that key |
| `PeerBridge.ReplyWithoutWaiterIsNoOp` | webassets/storage.js:48 | a reply for a key nobody waits on changes nothing |
| `PeerBridge.DuplicateReplyIsNoOp` | webassets/storage.js:48-52 | a second reply for the same key after the first changes nothing |
| `PeerBridge.GetShapedText` | webassets/storage.js:31-37 | the JSON text of an object `{t: g, d: {k: key}}` built from plain strings |
| `PeerBridge.PutShapedText` | webassets/storage.js:18-24 | the JSON text of an object `{t: p, d: {k: key, v: value}}` built from plain strings |
| `PeerBridge.GetRequestText` | webassets/storage.js:31-39 | for a plain key, `remoteGet` posts exactly `{"targetFunc":"storageGet","data":{"key":"<key>"}}` |
| `PeerBridge.PutRequestText` | webassets/storage.js:18-27 | for a plain key, `remotePut` posts exactly `{"targetFunc":"storagePut","data":{"key":"<key>","value":<JSON of value>}}` |
| `PeerBridge.StepKeepsConsistent` | webassets/storage.js:30-53 | every put, get and reply keeps the registry consistent: known calls were issued, no call waits under two keys, no waiting call was resolved, none resolved twice |
| `PeerBridge.RunKeepsConsistent` | webassets/storage.js:30-53 | any sequence of puts, gets and replies keeps the registry consistent |
| `PeerBridge.NoCallerResolvedTwice` | webassets/storage.js:46-53 | from a fresh peer, whatever the calls and replies (late, duplicate or unexpected), no call is ever resolved twice |
| `PeerBridge.ForgottenCallStaysUnresolved` | webassets/storage.js:41-52 | an issued call that is neither waiting nor resolved is never resolved by any later run |
| `PeerBridge.SameKeyGetOrphansFirstCaller` | webassets/storage.js:41-43 | a second `remoteGet` for the same key before the reply overwrites the first caller's entry, and that caller is never resolved afterwards |
| `HostDispatcher.Host.constructor` | App.js:8-26 | the app starts not ready, with an empty activity message, empty key and value, no replies |
| `HostDispatcher.Host.OnWebViewLoaded` | App.js:29-33 | sets `isWebViewReady` and nothing else |
| `HostDispatcher.Host.SendWebviewPostMessage` | App.js:70-73 | appends exactly the JSON text of `{id, data}` to the replies |
| `HostDispatcher.Host.OnWebViewMessage` | App.js:36-67 | the state afterwards is `Dispatch` of the old state and the message |
| `HostDispatcher.Classify` | App.js:50-61 | a parsed message is a put exactly when its `targetFunc` is "storagePut", a get exactly when it is "storageGet", and otherwise falls through the switch |
| `HostDispatcher.MalformedIsDropped` | App.js:38-46 | an unreadable message changes nothing: no store change, no reply, no display change |
| `HostDispatcher.UnknownIsIgnored` | App.js:50-66 | a message whose `targetFunc` is neither "storagePut" nor "storageGet" changes nothing and gets no reply |
| `HostDispatcher.PutWritesWithoutReply` | App.js:52-58 | a put writes the value's stored form under its key, keeps other keys, sends no reply, and shows the request's key and value with the activity message |
| `HostDispatcher.PutOfUndefinedChangesNothing` | App.js:52-58 | a put whose value is missing is refused by the store, so nothing changes |
| `HostDispatcher.GetRepliesOnce` | App.js:60-64 | a get leaves the store and the display alone and sends exactly one reply, `ReplyWire("storageGet", <text of {key, value}>)` |
| `HostDispatcher.ReplyWireText` | App.js:70-73 | a reply is exactly `{"id":"<id>","data":"<data escaped>"}` |
| `HostDispatcher.EscapedPlainGetReplyData` | App.js:63 | for a plain key, the `{key, value}` data escaped into the reply gains a backslash before each quote around the names and the key, and carries the value's text escaped once more |
| `HostDispatcher.PlainGetReply` | App.js:60-73 | for a plain key, a get is answered with exactly `{"id":"storageGet","data":"{\"key\":\"<key>\",\"value\":<value>}"}`, where the value is `null` for a missing key and otherwise the stored text, whatever it holds, quoted and then escaped again |
| `HostDispatcher.ColorReply` | App.js:60-64 | with "color" -> "blue" stored, a get for "color" is answered with exactly the expected reply text |
| `HostDispatcher.MissingReply` | App.js:60-64 | a get for an absent key is answered with `"value":null`, not with an error |
| `EndToEnd.GetEndToEnd` | webassets/storage.js:30-53 | a `remoteGet` answered by the host resolves the new call with the stored text (or null), clears its entry, and leaves the store untouched |
| `EndToEnd.PutThenGetEndToEnd` | storage.js:5-17 | after `remotePut(k, v)` then `remoteGet(k)`, the caller receives `v` itself exactly when `v` is a string, and otherwise the string of its JSON text |
| `EndToEnd.ColorScenario` | App.js:60-73 | composed from the class methods: a fresh peer's get for "color" against a host storing "blue" produces the exact reply text and resolves with "blue" |

## Left out

- `render()`, `styles` and the choice of the web view's page by platform or `__DEV__` (App.js:75-114): user interface and asset loading.
- `console.log` and `console.warn`: diagnostics only.
- `JSON.parse` of whole messages: an incoming message is given already parsed, as `Malformed` or as the `targetFunc`, `data.key` and `data.value` that `Classify` reads. A parsed message without a `data` object (where `msgData.data.key` throws a `TypeError`), and a message whose text parses to `null` (where `msgData.targetFunc` throws a `TypeError`), are not modelled: such messages are neither dropped nor ignored by the source.
- JSON numbers are integers; fractions, exponents, `NaN` and `-0` are not modelled.
- Json.Render: writes every digit of an integer, while `JSON.stringify` writes numbers of magnitude 1e21 or more in exponent form (`1e+21`), and a JavaScript number holds integers beyond 2^53 only approximately; such numbers are not modelled faithfully.
- Json.Render: writes an object's members in sequence order. JavaScript writes members with index-like names (`"1"`) first, in ascending order, so `{b: 1, "1": 2}` becomes `{"1":2,"b":1}`; that reordering is not modelled. The objects this bridge builds have no index-like names.
- Json.Unescape: strings are sequences of Unicode scalar values, so an escaped lone surrogate (`\ud800` alone), which `JSON.parse` accepts, is refused; a high and a low surrogate escaped in a row are decoded to their character, as `JSON.parse` does.
- Keys are strings. Non-string keys, and registry keys that collide with inherited object properties (`__proto__`, `toString`), are not modelled.
- The native store (`AsyncStorage`) is a `map<string, string>`. Its failures (rejected promises) are not modelled, except below.
- StorageAdapter.Storage.SetItem: when the value is `undefined` (a put request without a `value`), `JSON.stringify` yields `undefined`; the model assumes the native store refuses that write, so the store keeps its contents and the host's `.then` (and display update) never runs.
- Promise scheduling: each storage call completes at once, inside the handling of its message, with no interleaving of completions.
- The transports `window.postMessage` and `webView.postMessage` are appends to the peer's `outbox` and the host's `replies`; the host's `webView` reference is taken to be set.
- The web view page that passes each reply's data to `handleGet` (webassets/bridge.html) is not part of this model: `EndToEnd.ReplyPayload` stands for the key and value it reads out of the reply.
- The `reject` callback stored with each pending call is never called by the source; the registry keeps only the call.
- `isWebViewReady` is set but never read by the source; the model keeps it as state only.
- The registry is keyed by storage key, as the source does; no variant keyed by call number is modelled.
