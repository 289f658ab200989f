/**
 * The message protocol shared by the connector (host side) and the bridge page (remote side):
 * request and reply envelopes, the `-reply` action tag, the connector's origin check
 * (`_getOrigin`), its error text (`_prepareError`), and how a reply message reaches the
 * listeners the connector has registered, one per call, none ever removed.
 */
module Protocol {
  import opened Wrappers
  import opened Text
  import opened Bip44

  const GET_VERSION := "ledger-get-version"
  const GET_EXTENDED_PUBLIC_KEY := "ledger-get-extended-public-key"
  const SIGN_TRANSACTION := "ledger-sign-transaction"
  const DERIVE_ADDRESS := "ledger-derive-address"
  const SHOW_ADDRESS := "ledger-show-address"

  /** The target the bridge page listens for. */
  const IFRAME_TARGET := "YOROI-LEDGER-BRIDGE-IFRAME"

  const REPLY_SUFFIX := "-reply"
  const UNEXPECTED_ERROR := "SOMETHING_UNEXPECTED_HAPPENED"

  // ---- envelopes ----

  datatype TxInput = TxInput(txDataHex: string, outputIndex: nat, path: Path)
  datatype TxOutput = AddressOutput(amountStr: string, address58: string) | ChangeOutput(amountStr: string, path: Path)

  /** Request parameters; a field a request does not carry is the empty sequence. */
  datatype Params = Params(hdPath: Path, inputs: seq<TxInput>, outputs: seq<TxOutput>)

  /** A request envelope `{target, action, params}`; `params` may be missing (`None`). */
  datatype Request = Request(target: string, action: string, params: Option<Params>)

  datatype Witness = Witness(path: Path, witnessSignatureHex: string)

  /** What the device application returns for each operation. */
  datatype DeviceData =
    | Version(major: nat, minor: nat, patch: nat, isDebug: bool)
    | ExtendedPublicKey(publicKeyHex: string, chainCodeHex: string)
    | Address(address58: string)
    | SignedTx(txHashHex: string, witnesses: seq<Witness>)

  /** A reply payload: nothing, a device result, or the failure body `{error}`. */
  datatype Payload = Undefined | Data(data: DeviceData) | ErrorBody(error: string)

  /**
   * A reply envelope `{action, success, payload}`. Messages on the channel that are not replies
   * are modelled with `action == ""` (no action); a missing `success` is `false`.
   */
  datatype Reply = Reply(action: string, success: bool, payload: Payload)

  /** The reply tag: the action, then `-reply`; never empty, and the action is read back off its front. */
  function ReplyTag(action: string): (tag: string)
    ensures |tag| == |action| + |REPLY_SUFFIX| && tag != ""
    ensures tag[..|action|] == action && tag[|action|..] == REPLY_SUFFIX
  {
    action + REPLY_SUFFIX
  }

  /** Distinct request actions have distinct reply tags. */
  lemma ReplyTagInjective(a: string, b: string)
    ensures ReplyTag(a) == ReplyTag(b) ==> a == b
  {
    if ReplyTag(a) == ReplyTag(b) {
      assert |a| == |b|;
      assert a == ReplyTag(a)[..|a|];
      assert b == ReplyTag(b)[..|b|];
    }
  }

  // ---- _getOrigin ----

  /**
   * `_getOrigin(url)`: split on `/`, drop the last piece, join with `/` again. It is everything
   * before the last `/`, and "" for a URL without `/`.
   */
  function Origin(url: string): (o: string)
    ensures '/' in url ==> o + "/" + LastSegment(url) == url
    ensures '/' !in url ==> o == ""
  {
    SplitLast(url, '/');
    var pieces := Split(url, '/');
    Join(pieces[..|pieces| - 1], '/')
  }

  /** The piece `_getOrigin` drops: what follows the last `/`, or the whole URL without one. */
  function LastSegment(url: string): (segment: string)
    ensures '/' !in segment
    ensures '/' !in url ==> segment == url
  {
    SplitLast(url, '/');
    var pieces := Split(url, '/');
    pieces[|pieces| - 1]
  }

  /** The origin of `a/b`, for a last segment `b` without `/`, is `a`. */
  lemma OriginOf(a: string, b: string)
    requires '/' !in b
    ensures Origin(a + "/" + b) == a && LastSegment(a + "/" + b) == b
  {
    SplitSuffix(a, b, '/');
    var pieces := Split(a + "/" + b, '/');
    assert pieces[..|pieces| - 1] == Split(a, '/');
    JoinSplit(a, '/');
  }

  /** `OriginOf` for a URL already known to be `a/b`. */
  lemma OriginAt(url: string, a: string, b: string)
    requires '/' !in b && url == a + "/" + b
    ensures Origin(url) == a
  {
    OriginOf(a, b);
  }

  /** The host every default bridge URL lives on. */
  const BRIDGE_HOST := "https://sarveshwar-singh.github.io"

  // ---- _prepareError ----

  /** `_prepareError(payload)`: the payload's `error` when there is a non-empty one, else the fixed fallback. */
  function PrepareError(payload: Payload): (message: string)
    ensures message != ""
    ensures payload.ErrorBody? && payload.error != "" ==> message == payload.error
    ensures !(payload.ErrorBody? && payload.error != "") ==> message == UNEXPECTED_ERROR
  {
    if payload.ErrorBody? && payload.error != "" then payload.error else UNEXPECTED_ERROR
  }

  // ---- pending calls and their listeners ----

  /** The state of the promise a call returned. */
  datatype Settlement = Pending | Resolved(payload: Payload) | Rejected(error: string)

  /** A registered `message` listener: the request action it answers for, and its call's promise. */
  datatype Listener = Listener(action: string, promise: Settlement)

  /** The per-call callback: resolve with the payload on success, reject with `_prepareError` otherwise. */
  function Settle(reply: Reply): (s: Settlement)
    ensures !s.Pending?
    ensures s.Resolved? <==> reply.success
    ensures s.Resolved? ==> s.payload == reply.payload
    ensures s.Rejected? ==> s.error == PrepareError(reply.payload) && s.error != ""
  {
    if reply.success then Resolved(reply.payload) else Rejected(PrepareError(reply.payload))
  }

  /**
   * The listener's guard: the message comes from the expected origin and carries this call's reply
   * tag. The truthiness test on `data.action` adds nothing, since a reply tag is never empty.
   */
  predicate Hears(listener: Listener, expectedOrigin: string, origin: string, data: Option<Reply>)
    ensures Hears(listener, expectedOrigin, origin, data) <==>
      origin == expectedOrigin && data.Some? && data.value.action == ReplyTag(listener.action)
  {
    && origin == expectedOrigin
    && data.Some?
    && data.value.action != ""
    && data.value.action == ReplyTag(listener.action)
  }

  /** Running the callback: a promise settles once; resolving or rejecting it again changes nothing. */
  function Notify(listener: Listener, reply: Reply): (after: Listener)
    ensures after.action == listener.action && !after.promise.Pending?
    ensures !listener.promise.Pending? ==> after == listener
  {
    if listener.promise.Pending? then listener.(promise := Settle(reply)) else listener
  }

  /** The listeners after one `message` event has been dispatched to each of them. */
  function Delivered(listeners: seq<Listener>, expectedOrigin: string, origin: string, data: Option<Reply>): (r: seq<Listener>)
    ensures |r| == |listeners|
  {
    seq(|listeners|, i requires 0 <= i < |listeners| =>
      if Hears(listeners[i], expectedOrigin, origin, data) then Notify(listeners[i], data.value) else listeners[i])
  }

  /**
   * The browser's dispatch of one `message` event to every registered listener, in registration
   * order; `fired` lists the listeners whose callback ran.
   */
  method DispatchReply(listeners: seq<Listener>, expectedOrigin: string, origin: string, data: Option<Reply>)
    returns (updated: seq<Listener>, fired: seq<nat>)
    ensures updated == Delivered(listeners, expectedOrigin, origin, data)
    ensures forall k :: k in fired ==> k < |listeners|
    ensures forall k :: 0 <= k < |listeners| ==> (k in fired <==> Hears(listeners[k], expectedOrigin, origin, data))
    ensures forall j, k :: 0 <= j < k < |fired| ==> fired[j] < fired[k]
  {
    updated, fired := [], [];
    for i := 0 to |listeners|
      invariant updated == Delivered(listeners, expectedOrigin, origin, data)[..i]
      invariant forall k :: k in fired ==> k < i
      invariant forall k :: 0 <= k < i ==> (k in fired <==> Hears(listeners[k], expectedOrigin, origin, data))
      invariant forall j, k :: 0 <= j < k < |fired| ==> fired[j] < fired[k]
    {
      var listener := listeners[i];
      if origin != expectedOrigin {
        updated := updated + [listener];
      } else if data.Some? && data.value.action != "" && data.value.action == ReplyTag(listener.action) {
        assert forall j :: 0 <= j < |fired| ==> fired[j] in fired;
        updated := updated + [Notify(listener, data.value)];
        fired := fired + [i];
      } else {
        updated := updated + [listener];
      }
    }
  }

  /** A message from any other origin settles nothing. */
  lemma ForeignOriginIgnored(listeners: seq<Listener>, expectedOrigin: string, origin: string, data: Option<Reply>)
    requires origin != expectedOrigin
    ensures Delivered(listeners, expectedOrigin, origin, data) == listeners
  {
  }

  /** A listener whose guard fails keeps its promise, whatever the message. */
  lemma NonHearingUnchanged(listeners: seq<Listener>, expectedOrigin: string, origin: string, data: Option<Reply>)
    ensures forall k :: 0 <= k < |listeners| && !Hears(listeners[k], expectedOrigin, origin, data) ==>
      Delivered(listeners, expectedOrigin, origin, data)[k] == listeners[k]
  {
  }

  /**
   * A message without data, or whose action does not end in `-reply` (an empty action, a request
   * envelope, any other traffic on the channel), settles nothing, even from the expected origin.
   */
  lemma NonReplyIgnored(listeners: seq<Listener>, expectedOrigin: string, origin: string, data: Option<Reply>)
    requires data.None? || |data.value.action| < |REPLY_SUFFIX| ||
      data.value.action[|data.value.action| - |REPLY_SUFFIX|..] != REPLY_SUFFIX
    ensures Delivered(listeners, expectedOrigin, origin, data) == listeners
  {
  }

  /** A reply to action `a` leaves the calls of every other action untouched: no cross-resolution. */
  lemma NoCrossResolution(listeners: seq<Listener>, expectedOrigin: string, origin: string, a: string, reply: Reply)
    requires reply.action == ReplyTag(a)
    ensures forall i :: 0 <= i < |listeners| && listeners[i].action != a ==>
      Delivered(listeners, expectedOrigin, origin, Some(reply))[i] == listeners[i]
  {
    forall i | 0 <= i < |listeners| && listeners[i].action != a
      ensures Delivered(listeners, expectedOrigin, origin, Some(reply))[i] == listeners[i]
    {
      ReplyTagInjective(listeners[i].action, a);
    }
  }

  /**
   * A reply from the expected origin with call `i`'s tag settles it if it was pending: resolved with
   * exactly the payload on success, rejected with `_prepareError(payload)` otherwise; a settled
   * promise never changes again.
   */
  lemma ReplySettles(listeners: seq<Listener>, expectedOrigin: string, reply: Reply, i: nat)
    requires i < |listeners|
    requires reply.action == ReplyTag(listeners[i].action)
    ensures var after := Delivered(listeners, expectedOrigin, expectedOrigin, Some(reply))[i];
      && after.action == listeners[i].action
      && (listeners[i].promise.Pending? && reply.success ==> after.promise == Resolved(reply.payload))
      && (listeners[i].promise.Pending? && !reply.success ==> after.promise == Rejected(PrepareError(reply.payload)))
      && (!listeners[i].promise.Pending? ==> after == listeners[i])
  {
  }

  /**
   * Correlation is by action tag only: one reply settles every pending call of that action, so two
   * concurrent calls of the same action both take the first reply.
   */
  lemma SameActionCallsShareReply(listeners: seq<Listener>, expectedOrigin: string, reply: Reply, i: nat, j: nat)
    requires i < j < |listeners|
    requires listeners[i].action == listeners[j].action && reply.action == ReplyTag(listeners[i].action)
    requires listeners[i].promise.Pending? && listeners[j].promise.Pending?
    ensures var after := Delivered(listeners, expectedOrigin, expectedOrigin, Some(reply));
      after[i].promise == after[j].promise == Settle(reply)
  {
  }
}
