/**
 * The connector's compiled copy (`LedgerBridge` of lib/index.js): a frame only, the connection
 * type appended to the bridge URL as a query, requests stamped with the bridge page's own target,
 * and the same never-removed listener per call.
 */
module HostLib {
  import opened Wrappers
  import opened Bip44
  import opened Protocol

  const BRIDGE_URL := "https://sarveshwar-singh.github.io/yoroi-extension-ledger-bridge"
  const DEFAULT_CONNECTION := "u2f"

  /** A frame element: `src`, `id` and its `allow` attribute. */
  datatype Frame = Frame(src: string, id: string, allow: string)

  /** `bridgeOverride + '?' + connectionType`, each defaulted only when undefined. */
  function BridgeUrl(bridgeOverride: Option<string>, connectionType: Option<string>): string
  {
    (match bridgeOverride case Some(u) => u case None => BRIDGE_URL)
      + "?" + (match connectionType case Some(t) => t case None => DEFAULT_CONNECTION)
  }

  /**
   * The origin replies are accepted from: for a bridge page one segment below `a` and a connection
   * type without `/`, it is `a`, whatever the page and the type are.
   */
  lemma BridgeUrlOrigin(a: string, b: string, t: string)
    requires '/' !in b && '/' !in t
    ensures Origin(BridgeUrl(Some(a + "/" + b), Some(t))) == a
  {
    assert BridgeUrl(Some(a + "/" + b), Some(t)) == a + "/" + (b + "?" + t);
    OriginOf(a, b + "?" + t);
  }

  /** A `/` in the connection type moves the origin: the query is cut at its last `/`. */
  lemma SlashInTypeMovesOrigin(u: string, t1: string, t2: string)
    requires '/' !in t2
    ensures Origin(BridgeUrl(Some(u), Some(t1 + "/" + t2))) == u + "?" + t1
  {
    assert BridgeUrl(Some(u), Some(t1 + "/" + t2)) == (u + "?" + t1) + "/" + t2;
    OriginOf(u + "?" + t1, t2);
  }

  /** `_setupIframe(bridgeUrl)`. */
  function SetupIframe(bridgeUrl: string): (frame: Frame)
    ensures frame.src == bridgeUrl && frame.id == IFRAME_TARGET && frame.allow == "webusb"
  {
    Frame(bridgeUrl, IFRAME_TARGET, "webusb")
  }

  /** The request `_sendMessage` posts, stamped with the target the bridge page filters on. */
  function StampRequest(action: string, params: Params): (r: Request)
    ensures r.target == IFRAME_TARGET && r.action == action && r.params == Some(params)
  {
    Request(IFRAME_TARGET, action, Some(params))
  }

  /** With the defaults, replies are accepted from the bridge page's host; the query goes with the dropped segment. */
  lemma DefaultOrigin()
    ensures BridgeUrl(None, None) == BRIDGE_URL + "?u2f"
    ensures Origin(BridgeUrl(None, None)) == BRIDGE_HOST
  {
    PageHasNoSlash();
    UrlShape();
    OriginAt(BridgeUrl(None, None), BRIDGE_HOST, PAGE);
  }

  const PAGE := "yoroi-extension-ledger-bridge?u2f"

  lemma UrlShape()
    ensures BridgeUrl(None, None) == BRIDGE_HOST + "/" + PAGE
  {
  }

  lemma PageHasNoSlash()
    ensures '/' !in PAGE
  {
    assert forall i :: 0 <= i < |PAGE| ==> PAGE[i] != '/';
  }

  class LedgerBridge {
    var isReady: bool
    var bridgeUrl: string
    var iframe: Frame
    /** The messages posted into the frame (always with target origin `'*'`), oldest first. */
    var posted: seq<Request>
    /** The `message` listeners `_sendMessage` registered, one per call, oldest first. */
    var listeners: seq<Listener>

    /** `new LedgerBridge(iframe, bridgeOverride, connectionType)`: not ready until the frame loads. */
    constructor (frame: Option<Frame>, bridgeOverride: Option<string>, connectionType: Option<string>)
      ensures !isReady
      ensures bridgeUrl == BridgeUrl(bridgeOverride, connectionType)
      ensures iframe == (if frame.Some? then frame.value else SetupIframe(bridgeUrl))
      ensures posted == [] && listeners == []
    {
      isReady := false;
      var url := BridgeUrl(bridgeOverride, connectionType);
      bridgeUrl := url;
      iframe := if frame.Some? then frame.value else SetupIframe(url);
      posted := [];
      listeners := [];
    }

    /** The frame's `onload` arrow function: the connector becomes ready. */
    method FrameLoaded()
      modifies this`isReady
      ensures isReady
    {
      isReady := true;
    }

    /** `_sendMessage(msg, cb)`: stamp the target, post into the frame, register a listener. */
    method SendMessage(action: string, params: Params) returns (call: nat)
      modifies this`posted, this`listeners
      ensures posted == old(posted) + [StampRequest(action, params)]
      ensures listeners == old(listeners) + [Listener(action, Pending)]
      ensures call == |old(listeners)| && listeners[call].promise.Pending?
    {
      posted := posted + [StampRequest(action, params)];
      listeners := listeners + [Listener(action, Pending)];
      call := |listeners| - 1;
    }

    method GetVersion() returns (call: nat)
      modifies this`posted, this`listeners
      ensures posted == old(posted) + [StampRequest(GET_VERSION, Params([], [], []))]
      ensures listeners == old(listeners) + [Listener(GET_VERSION, Pending)] && call == |old(listeners)|
    {
      call := SendMessage(GET_VERSION, Params([], [], []));
    }

    method GetExtendedPublicKey(hdPath: Path) returns (call: nat)
      modifies this`posted, this`listeners
      ensures posted == old(posted) + [StampRequest(GET_EXTENDED_PUBLIC_KEY, Params(hdPath, [], []))]
      ensures listeners == old(listeners) + [Listener(GET_EXTENDED_PUBLIC_KEY, Pending)] && call == |old(listeners)|
    {
      call := SendMessage(GET_EXTENDED_PUBLIC_KEY, Params(hdPath, [], []));
    }

    method DeriveAddress(hdPath: Path) returns (call: nat)
      modifies this`posted, this`listeners
      ensures posted == old(posted) + [StampRequest(DERIVE_ADDRESS, Params(hdPath, [], []))]
      ensures listeners == old(listeners) + [Listener(DERIVE_ADDRESS, Pending)] && call == |old(listeners)|
    {
      call := SendMessage(DERIVE_ADDRESS, Params(hdPath, [], []));
    }

    method ShowAddress(hdPath: Path) returns (call: nat)
      modifies this`posted, this`listeners
      ensures posted == old(posted) + [StampRequest(SHOW_ADDRESS, Params(hdPath, [], []))]
      ensures listeners == old(listeners) + [Listener(SHOW_ADDRESS, Pending)] && call == |old(listeners)|
    {
      call := SendMessage(SHOW_ADDRESS, Params(hdPath, [], []));
    }

    method SignTransaction(inputs: seq<TxInput>, outputs: seq<TxOutput>) returns (call: nat)
      modifies this`posted, this`listeners
      ensures posted == old(posted) + [StampRequest(SIGN_TRANSACTION, Params([], inputs, outputs))]
      ensures listeners == old(listeners) + [Listener(SIGN_TRANSACTION, Pending)] && call == |old(listeners)|
    {
      call := SendMessage(SIGN_TRANSACTION, Params([], inputs, outputs));
    }

    /** A `message` event reaching every registered listener; returns the listeners that fired. */
    method Deliver(origin: string, data: Option<Reply>) returns (fired: seq<nat>)
      modifies this`listeners
      ensures listeners == Delivered(old(listeners), Origin(bridgeUrl), origin, data)
      ensures forall k :: k in fired ==> k < |listeners|
      ensures forall k :: 0 <= k < |listeners| ==> (k in fired <==> Hears(old(listeners)[k], Origin(bridgeUrl), origin, data))
    {
      var updated;
      updated, fired := DispatchReply(listeners, Origin(bridgeUrl), origin, data);
      listeners := updated;
    }
  }
}
