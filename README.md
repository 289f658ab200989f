# Yoroi Ledger bridge, modelled in Dafny

The Yoroi wallet extension talks to a Ledger hardware wallet through a bridge page that it opens
in a hidden frame or a separate window. Two programs are involved.

- **The connector** (`LedgerBridge`) runs in the extension. It posts request envelopes
  `{target, action, params}` to the bridge page and registers one `message` listener per call.
  A listener settles its call's promise when a reply arrives from the bridge page's origin
  tagged `<action>-reply`.
- **The bridge page** (`YoroiLedgerBridge`) handles each request in one session. It creates a
  transport and runs the device operation. It then posts `{action, success, payload}` back to
  its parent window: on failure, the thrown value goes through `ledgerErrToMessage` first. The
  transport is closed in `finally`.

The connector exists twice. `src/index.js` is its source, which supports frame (`u2f`) and
window (`webauthn`) connections. `lib/index.js` is an older compiled copy, which supports a
frame only. The model keeps both versions, in the modules `HostSrc` and `HostLib`.

Both versions also export the Cardano BIP 44 path helpers: purpose 44', coin type 1815', the
account hardened, then chain and address. They also export the printer
`toDerivationPathString`. These live in module `Bip44`.

The modules:

- `Text`: JavaScript `split`/`join` on one separator, `includes`, and decimal numerals.
- `Bip44`: the path builders and the path printer. The printer is checked against a parser
  for its output.
- `Protocol`: the envelopes, the `-reply` tag, `_getOrigin`, `_prepareError`, and reply
  delivery to the registered listeners. Delivery is written as a loop, `DispatchReply`, and
  proved against the function `Delivered`.
- `Dispatcher`: the bridge page.
  - Its target filter and action switch (`Route`).
  - `ledgerErrToMessage` (`ErrToMessage`).
  - One session per handler, as a class that records posted replies and transport open/close
    events.
  - The device and transport are a parameter `Ledger`: whether a transport can be created, and
    what each device operation returns or throws.
- `HostSrc`, `HostLib`: the two connectors, as classes. Their fields are the posted messages and
  the registered listeners.
- `EndToEnd`: a request from the compiled connector, routed, answered and delivered back. It
  also shows that the source connector's requests are never dispatched.

Some behaviour of the code is recorded as proved facts rather than corrected.

- The source connector stamps its requests with target `YOROI-LEDGER-BRIDGE`. The bridge page
  only accepts `YOROI-LEDGER-BRIDGE-IFRAME` (`EndToEnd.SrcRequestIgnored`).
- The source connector's load handler is passed unbound. It therefore sets `isReady` on the
  frame or window, never on the connector (`HostSrc.LedgerBridge.TargetLoaded`).
- The bridge page accepts requests from any origin: it checks only the message's `target`, so
  no origin test stands between a message and the device (`Dispatcher.Route` has no origin).
- The connector expects replies from `_getOrigin(bridgeUrl)`: the URL with its last path segment
  removed. The browser stamps replies with the page's real origin. The two agree only when the
  bridge page sits one segment below its origin (`EndToEnd.LibRoundTrip`). A page deeper down
  is never heard (`EndToEnd.LibDeepPageIgnored`), and neither is one whose connection type
  contains `/` (`HostLib.SlashInTypeMovesOrigin`).
- Replies are matched by action alone. Two pending calls of the same action are both settled
  by the first reply (`Protocol.SameActionCallsShareReply`).
- `ledgerErrToMessage` runs inside every catch block (src/yoroi-ledger-bridge.js:71, 110, 143,
  185, 228), so a throw there loses the reply. It does not map every thrown value to a text:
  - it throws on `null`/`undefined`;
  - it returns `undefined` for a `metaData` error with a code other than 5 and no `type`, and
    `toString()` on that then throws.

  Either way the catch block fails and no reply is posted (`Dispatcher.SessionReply`).

## Model

| member | source | states |
|---|---|---|
| Text.Split | src/index.js:221 | `split` on a one-character separator gives at least one piece, and no piece contains the separator |
| Text.JoinSplit | src/index.js:221-223 | `Join` undoes `Split`: joining the pieces with the same separator gives back the string |
| Text.SplitLast | src/index.js:221-223 | with a separator present, the other pieces joined, the separator and the last piece give back the string; without one, the string is its only piece |
| Text.SplitJoin | src/index.js:280-282 | `Split` undoes `Join` on separator-free pieces: splitting their join gives back the pieces |
| Text.SplitSuffix | src/index.js:220-224 | splitting `x/b` with separator-free `b` gives the pieces of `x` followed by `b` |
| Text.IncludesIsInfix | src/yoroi-ledger-bridge.js:285-297 | `Includes`, the left-to-right scan of `includes`, holds exactly when the substring occurs at some position |
| Text.NatToString | src/index.js:281 | a non-negative number prints as a non-empty string of decimal digits |
| Text.NatToStringCanonical | src/index.js:281 | the numeral has no leading zero: it starts with `0` only for zero |
| Text.NatToStringValue | src/index.js:281 | the printed digits denote the number |
| Text.ParseNatToString | src/index.js:281 | reading back a printed number gives the number |
| Bip44.AccountPath | src/index.js:269-277 | three hardened indexes: purpose 44, coin type 1815, and the account |
| Bip44.AddressPath | src/index.js:247-259 | five indexes: the account path, then chain and address unchanged |
| Bip44.Component | src/index.js:281 | a printed index is non-empty, contains no `/`, and ends in `'` exactly when it is hardened |
| Bip44.ComponentShape | src/index.js:281 | without its `'` mark, a printed index is a numeral whose value is the index modulo 2^31 |
| Bip44.ParseComponentInverts | src/index.js:281 | each index below 2^32 is recovered from its printed form |
| Bip44.ParseComponentsInverts | src/index.js:280-282 | every element of a path below 2^32 is recovered from its printed form |
| Bip44.Render | src/index.js:279-283 | a printed path starts with `m/`, and is just `m/` exactly for the empty path |
| Bip44.RenderParse | src/index.js:279-283 | `toDerivationPathString` loses nothing for indexes below 2^32: the path is recovered from the string |
| Bip44.RenderWrapsAbove32Bits | src/index.js:281 | index 2^32 prints as `0'`, the same as hardened 0 |
| Bip44.NumeralExamples | src/index.js:19-20 | the purpose and coin type print as `44` and `1815` |
| Bip44.ComponentExamples | src/index.js:281 | hardened 44, 1815, 1 and 7 print with `'`; 0 and 5 print bare |
| Bip44.RenderAddressExample | lib/index.js:189-206 | the address path for account 1, chain 0, address 5 prints as `m/44'/1815'/1'/0/5` |
| Bip44.RenderAccountExample | lib/index.js:201-206 | the account path for account 7 prints as `m/44'/1815'/7'` |
| Protocol.ReplyTag | src/index.js:209 | the tag is the action followed by `-reply`; it is never empty |
| Protocol.ReplyTagInjective | src/index.js:209 | distinct actions have distinct `-reply` tags |
| Protocol.Origin | src/index.js:220-224 | `_getOrigin` is everything before the last `/`, followed by `/` and the last segment; it is "" for a URL without `/` |
| Protocol.LastSegment | src/index.js:220-224 | the segment `_getOrigin` drops contains no `/`, and is the whole URL when there is no `/` |
| Protocol.OriginOf | src/index.js:220-224 | the origin of `a/b`, for `b` without `/`, is `a` |
| Protocol.OriginAt | lib/index.js:151-155 | the same, for a URL already known to be `a/b` |
| Protocol.PrepareError | src/index.js:230-234 | the error text is the payload's non-empty `error`, otherwise the fixed fallback; it is never empty |
| Protocol.Hears | src/index.js:207-211 | a listener fires exactly for a message from the expected origin carrying its action's reply tag; the truthiness test on `action` adds nothing |
| Protocol.Settle | src/index.js:103-109 | a reply always settles: resolved exactly when it reports success, with its payload; otherwise rejected with `_prepareError`, never with an empty message |
| Protocol.Notify | src/index.js:103-109 | after the callback the promise is settled and the listener keeps its action; an already settled promise is left as it was |
| Protocol.Delivered | src/index.js:207-212 | one `message` event leaves the number of listeners unchanged; `NonHearingUnchanged` and `NonReplyIgnored` state which ones it leaves as they were |
| Protocol.NonHearingUnchanged | src/index.js:207-212 | a listener whose origin or tag test fails is left exactly as it was |
| Protocol.NonReplyIgnored | src/index.js:208-209 | a message without data, or whose action does not end in `-reply`, settles nothing even from the expected origin |
| Protocol.DispatchReply | src/index.js:207-212 | dispatching to every listener yields `Delivered`; exactly the listeners whose origin and tag match fire, in registration order |
| Protocol.ForeignOriginIgnored | src/index.js:208 | a message from any other origin settles nothing |
| Protocol.NoCrossResolution | src/index.js:209-211 | a reply for one action leaves the calls of every other action unchanged |
| Protocol.ReplySettles | src/index.js:103-109 | a matching reply resolves a pending call with the payload, or rejects it with `_prepareError`; a settled call never changes |
| Protocol.SameActionCallsShareReply | src/index.js:207-212 | two pending calls of the same action both take the first reply |
| Dispatcher.ErrToMessage | src/yoroi-ledger-bridge.js:269-304 | the mapping yields no text exactly for a `metaData` error with a code other than 5 and no `type` |
| Dispatcher.ErrToMessageClassifies | src/yoroi-ledger-bridge.js:269-304 | code 5 gives `LEDGER_TIMEOUT`, otherwise `metaData.type`. A string containing 6804 gives `LEDGER_WRONG_APP`; otherwise one containing 6801 gives `LEDGER_LOCKED`; otherwise the string itself. An id/message error mentioning "U2F not supported" gives `U2F_NOT_SUPPORTED`; anything else gives its `toString()` |
| Dispatcher.Route | src/yoroi-ledger-bridge.js:239-263 | only messages with data and the frame target are handled. A handled message runs the handler of its action, with reply tag `<action>-reply` and the request's parameters. Exactly the known actions with their parameters present (none needed for get-version) are handled: reading the parameters of a request without them throws first |
| Dispatcher.ActionOfInjective | src/yoroi-ledger-bridge.js:244-260 | the five actions are distinct, so each dispatches to exactly one handler |
| Dispatcher.AsSeq | src/yoroi-ledger-bridge.js:64-76 | an optional reply is posted as at most one message |
| Dispatcher.FailureReply | src/yoroi-ledger-bridge.js:69-76 | a failure reply is posted exactly when the thrown value is not null and maps to a text; it is unsuccessful, carries the session's tag and the mapped text |
| Dispatcher.SessionReply | src/yoroi-ledger-bridge.js:56-237 | a reply carries the session's tag, and it succeeds exactly when the operation succeeded. Awaited results are carried as payload; `showAddress` carries none. Failures carry the mapped error. No reply exactly when the transport is unavailable or the error cannot be mapped |
| Dispatcher.RepliesTo | src/yoroi-ledger-bridge.js:239-263 | one incoming message yields at most one reply, tagged with its action; none for an unfiltered or unknown message, or for a request without the parameters its handler reads |
| Dispatcher.YoroiLedgerBridge.constructor | src/yoroi-ledger-bridge.js:27-30 | nothing posted, no transport opened |
| Dispatcher.YoroiLedgerBridge.SendMessageToExtension | src/yoroi-ledger-bridge.js:265-267 | the reply is appended to the messages posted to the parent |
| Dispatcher.YoroiLedgerBridge.AwaitedSession | src/yoroi-ledger-bridge.js:56-194 | posts `SessionReply`; the transport is opened and closed when it could be created, and never otherwise |
| Dispatcher.YoroiLedgerBridge.GetVersion | src/yoroi-ledger-bridge.js:56-80 | as `AwaitedSession` for the version query |
| Dispatcher.YoroiLedgerBridge.GetExtendedPublicKey | src/yoroi-ledger-bridge.js:94-119 | as `AwaitedSession` for the public key query on the given path |
| Dispatcher.YoroiLedgerBridge.SignTransaction | src/yoroi-ledger-bridge.js:126-152 | as `AwaitedSession` for signing the given inputs and outputs |
| Dispatcher.YoroiLedgerBridge.DeriveAddress | src/yoroi-ledger-bridge.js:169-194 | as `AwaitedSession` for deriving the address of the given path |
| Dispatcher.YoroiLedgerBridge.ShowAddress | src/yoroi-ledger-bridge.js:212-237 | posts success at once unless the device call throws synchronously; the transport is opened and closed |
| Dispatcher.YoroiLedgerBridge.OnMessage | src/yoroi-ledger-bridge.js:239-263 | posts exactly `RepliesTo`; an unrouted message changes nothing; a routed one runs one session of its operation |
| HostSrc.ConfiguredUrl | src/index.js:57 | a set override is the bridge URL, otherwise the default; never empty |
| HostSrc.ConfiguredType | src/index.js:58 | a set connection type is used, otherwise `webauthn`; never empty |
| HostSrc.StampRequest | src/index.js:199 | the posted request carries the call's action and params unchanged, with target `YOROI-LEDGER-BRIDGE` |
| HostSrc.TargetOrigin | src/index.js:201-205 | a frame is posted to with `'*'`, a window with the bridge URL, and nothing else is ever used |
| HostSrc.SetupTarget | src/index.js:62-85 | `u2f` gives a frame on the bridge URL with the connector's id, `webauthn` a window on the bridge URL, anything else the unsupported-connection error; not ready |
| HostSrc.DefaultSetup | src/index.js:57-58 | with nothing configured: a window on the default bridge URL, posted to with that URL as target origin |
| HostSrc.DefaultOrigin | src/index.js:22 | replies are accepted from `https://sarveshwar-singh.github.io` |
| HostSrc.PageHasNoSlash | src/index.js:22 | the default page name has no `/` |
| HostSrc.LedgerBridge.constructor | src/index.js:51-60 | URL and type are the configured ones or the defaults; the remote context is the one `_setupTarget` builds; nothing posted, no listeners |
| HostSrc.LedgerBridge.New | src/index.js:51-85 | construction fails with the unsupported-connection error exactly for an unknown connection type |
| HostSrc.LedgerBridge.TargetLoaded | src/index.js:75-90 | loading marks the frame or window ready; the connector's own `isReady` stays false |
| HostSrc.LedgerBridge.SendMessage | src/index.js:195-213 | posts the request stamped `YOROI-LEDGER-BRIDGE`: to `'*'` for a frame, to the bridge URL for a window. Registers one pending listener for its action |
| HostSrc.LedgerBridge.GetVersion | src/index.js:96-111 | posts a get-version request with empty params and registers its listener |
| HostSrc.LedgerBridge.GetExtendedPublicKey | src/index.js:113-131 | posts the path and registers a listener |
| HostSrc.LedgerBridge.DeriveAddress | src/index.js:133-151 | posts the path and registers a listener |
| HostSrc.LedgerBridge.ShowAddress | src/index.js:153-171 | posts the path and registers a listener |
| HostSrc.LedgerBridge.SignTransaction | src/index.js:173-193 | posts inputs and outputs and registers a listener |
| HostSrc.LedgerBridge.Deliver | src/index.js:207-212 | a message updates the listeners as `Delivered` from the bridge URL's origin; exactly the matching ones fire |
| HostLib.BridgeUrlOrigin | lib/index.js:18-21 | for an override one segment below `a` and a connection type without `/`, replies are accepted from `a` |
| HostLib.SlashInTypeMovesOrigin | lib/index.js:18-21 | a `/` in the connection type moves the accepted origin into the query |
| HostLib.SetupIframe | lib/index.js:157-168 | the created frame loads the bridge URL, has the bridge page's target as id, and allows `webusb` |
| HostLib.StampRequest | lib/index.js:133 | the posted request carries the call's action and params unchanged, with target `YOROI-LEDGER-BRIDGE-IFRAME` |
| HostLib.DefaultOrigin | lib/index.js:8-21 | the default URL is the bridge page with `?u2f`, and replies are accepted from `https://sarveshwar-singh.github.io` |
| HostLib.UrlShape | lib/index.js:8-21 | the default URL is the host, `/`, and the page with its query |
| HostLib.PageHasNoSlash | lib/index.js:8-21 | the default page and query have no `/` |
| HostLib.LedgerBridge.constructor | lib/index.js:18-28 | not ready, URL from `BridgeUrl`, the given frame or a new one; nothing posted, no listeners |
| HostLib.LedgerBridge.FrameLoaded | lib/index.js:24-27 | the connector becomes ready |
| HostLib.LedgerBridge.SendMessage | lib/index.js:132-145 | posts the request stamped `YOROI-LEDGER-BRIDGE-IFRAME` and registers one pending listener for its action |
| HostLib.LedgerBridge.GetVersion | lib/index.js:33-49 | posts a get-version request with empty params and registers its listener |
| HostLib.LedgerBridge.GetExtendedPublicKey | lib/index.js:51-69 | posts the path and registers a listener |
| HostLib.LedgerBridge.DeriveAddress | lib/index.js:71-89 | posts the path and registers a listener |
| HostLib.LedgerBridge.ShowAddress | lib/index.js:91-109 | posts the path and registers a listener |
| HostLib.LedgerBridge.SignTransaction | lib/index.js:111-130 | posts inputs and outputs and registers a listener |
| HostLib.LedgerBridge.Deliver | lib/index.js:135-144 | a message updates the listeners as `Delivered` from the origin of the URL with its query; exactly the matching ones fire |
| EndToEnd.LibRequestRouted | lib/index.js:132-134 | every request of the compiled connector reaches the handler for its action with its parameters |
| EndToEnd.LibDeepPageIgnored | lib/index.js:139 | for a bridge page at `host/dir/page`, replies stamped with `host` settle no call |
| EndToEnd.SrcRequestIgnored | src/index.js:199 | no request of the source connector is dispatched or answered |
| EndToEnd.LibRoundTrip | lib/index.js:132-145 | for a connector on `host/page?type` (`page` and `type` without `/`) whose replies the browser stamps with `host`: a request is answered unless the transport is missing or the error cannot be mapped. The answer passes the origin check and settles the pending call: with the device result, with nothing for `showAddress`, or rejected with the mapped error or the fallback. Calls of other actions are untouched |

## Left out

- Browser I/O is abstracted away: `postMessage`, `addEventListener`, the DOM frame and window creation, and `document.head`. Posting is appending to a sequence, and an event is a call of `Deliver` or `OnMessage`.
- The origin the browser stamps on a message is an input of `Deliver` and of the lemmas; the model does not derive a page's origin (scheme, host and port) from its URL.
- The order in which promises and listeners run across several events is not modelled. Each event is handled on its own, and only the final settlement of each call is kept.
- The device application and the WebAuthn transport are foreign code. They are the parameter `Ledger`, whose `respond` gives each operation's outcome.
- `getConnectedDeviceVersion` is not modelled: it sends nothing to the connector.
- `src/main.js` is not part of this model. It builds the bridge page object, logs, and wires a debug button to `getConnectedDeviceVersion`; none of it posts to the connector.
- Console logging is not modelled, and neither is the `EventEmitter` base class. Each catch block logs `JSON.stringify(err)` before mapping the error. For a thrown value holding a cycle or a BigInt, that call throws, and no failure reply is posted. The model does not represent such values: `LedgerError` has no variant for them, so `Dispatcher.FailureReply` does not cover this "no reply" case.
- Path indexes are non-negative integers. JavaScript numbers that are negative, fractional or not numbers are not modelled, nor is printing them. The model's integers are exact, while JavaScript numbers of 2^53 and above round: `Bip44.AccountPath`, `Bip44.AddressPath` and `Bip44.Component` accept any `nat` and do not model that rounding in `HARDENED + account` or `item % HARDENED`.
- A reply whose `action` is not a string is not modelled. A message that is not a reply, or that has an empty `action`, is represented by `action == ""`.
- Dispatcher.ErrToMessage: a thrown `null`/`undefined` is excluded by a precondition, because the code throws there. `Dispatcher.FailureReply` models that throw as "no reply".
- A `sendMessageToExtension` that throws is not modelled. Neither is a device result that cannot be cloned by `postMessage`.
- `showAddress`'s later rejection is not modelled. It is an unhandled rejection with no reply, so the success already posted stands.
- The `success` field of a reply is read as a boolean. A missing one counts as false; other truthy values are not modelled.
