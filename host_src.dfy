/**
 * The connector as its sources have it (`LedgerBridge` of src/index.js): it opens the bridge page
 * in a frame (`u2f`) or a window (`webauthn`), posts each request stamped with its own target
 * name, and registers one `message` listener per call that is never removed.
 */
module HostSrc {
  import opened Wrappers
  import opened Bip44
  import opened Protocol

  /** The default bridge page, https://sarveshwar-singh.github.io/yoroi-extension-ledger-bridge-webauthn. */
  const BRIDGE_URL := BRIDGE_HOST + "/" + PAGE
  const PAGE := "yoroi-extension-ledger-bridge-webauthn"
  const TARGET_NAME := "YOROI-LEDGER-BRIDGE"
  const WEB_AUTHN := "webauthn"
  const U2F := "u2f"
  const UNSUPPORTED_CONNECTION := "[YOROI-LB-CONNECTOR]:: Un-supported Connection Type"

  /** The constructor's `config`; a field that is undefined, null or empty is "". */
  datatype Config = Config(connectionType: string, bridgeOverride: string)

  /**
   * The remote context: a frame with its `src` and `id`, or a window opened at a URL. `isReady`
   * is the flag the load handler sets: it runs unbound, so it lands on the frame or window.
   */
  datatype RemoteContext = Frame(src: string, id: string, isReady: bool) | Popup(url: string, isReady: bool)

  /** A `postMessage` into the remote context, with its target origin. */
  datatype Post = Post(message: Request, targetOrigin: string)

  /** `config.bridgeOverride || BRIDGE_URL`: a set override wins; the URL is never empty. */
  function ConfiguredUrl(config: Config): (url: string)
    ensures url != ""
    ensures config.bridgeOverride != "" ==> url == config.bridgeOverride
    ensures config.bridgeOverride == "" ==> url == BRIDGE_URL
  {
    if config.bridgeOverride != "" then config.bridgeOverride else BRIDGE_URL
  }

  /** `config.connectionType || 'webauthn'`: a set type wins; the type is never empty. */
  function ConfiguredType(config: Config): (connectionType: string)
    ensures connectionType != ""
    ensures config.connectionType != "" ==> connectionType == config.connectionType
    ensures config.connectionType == "" ==> connectionType == WEB_AUTHN
  {
    if config.connectionType != "" then config.connectionType else WEB_AUTHN
  }

  /** `_setupTarget()`: a hidden frame for `u2f`, a window for `webauthn`, and a throw for anything else. */
  function SetupTarget(connectionType: string, bridgeUrl: string): (r: Result<RemoteContext>)
    ensures r.Success? <==> connectionType == U2F || connectionType == WEB_AUTHN
    ensures r.Success? ==> (r.value.Frame? <==> connectionType == U2F) && !r.value.isReady
    ensures r.Success? && r.value.Frame? ==> r.value.src == bridgeUrl && r.value.id == TARGET_NAME
    ensures r.Success? && r.value.Popup? ==> r.value.url == bridgeUrl
    ensures r.Failure? ==> r.error == UNSUPPORTED_CONNECTION
  {
    if connectionType == U2F then Success(Frame(bridgeUrl, TARGET_NAME, false))
    else if connectionType == WEB_AUTHN then Success(Popup(bridgeUrl, false))
    else Failure(UNSUPPORTED_CONNECTION)
  }

  /** The request `_sendMessage` posts: the call's action and params, with `target` stamped. */
  function StampRequest(action: string, params: Params): (r: Request)
    ensures r.target == TARGET_NAME && r.action == action && r.params == Some(params)
  {
    Request(TARGET_NAME, action, Some(params))
  }

  /** A frame is posted to with `'*'`; a window only with the bridge URL as target origin. */
  function TargetOrigin(connectionType: string, bridgeUrl: string): (targetOrigin: string)
    ensures targetOrigin == "*" || targetOrigin == bridgeUrl
    ensures connectionType == U2F ==> targetOrigin == "*"
    ensures connectionType == WEB_AUTHN ==> targetOrigin == bridgeUrl
  {
    if connectionType == U2F then "*" else bridgeUrl
  }

  /** With nothing configured the connector opens a window on the default bridge page. */
  lemma DefaultSetup()
    ensures ConfiguredUrl(Config("", "")) == BRIDGE_URL && ConfiguredType(Config("", "")) == WEB_AUTHN
    ensures SetupTarget(WEB_AUTHN, BRIDGE_URL) == Success(Popup(BRIDGE_URL, false))
    ensures TargetOrigin(WEB_AUTHN, BRIDGE_URL) == BRIDGE_URL
  {
  }

  /** Replies are accepted from the host of the default bridge URL. */
  lemma DefaultOrigin()
    ensures Origin(BRIDGE_URL) == BRIDGE_HOST
  {
    PageHasNoSlash();
    OriginAt(BRIDGE_URL, BRIDGE_HOST, PAGE);
  }

  lemma PageHasNoSlash()
    ensures '/' !in PAGE
  {
    assert forall i :: 0 <= i < |PAGE| ==> PAGE[i] != '/';
  }

  class LedgerBridge {
    var isReady: bool
    var bridgeUrl: string
    var connectionType: string
    var remote: RemoteContext
    /** The messages posted into the remote context, oldest first. */
    var posted: seq<Post>
    /** The `message` listeners `_sendMessage` registered, one per call, oldest first. */
    var listeners: seq<Listener>

    /** A supported connection type with its remote context; `isReady` is never set on the connector. */
    ghost predicate Valid()
      reads this
    {
      && (connectionType == U2F || connectionType == WEB_AUTHN)
      && (remote.Frame? <==> connectionType == U2F)
      && (remote.Frame? ==> remote.src == bridgeUrl && remote.id == TARGET_NAME)
      && (remote.Popup? ==> remote.url == bridgeUrl)
      && !isReady
    }

    /** The constructor when `_setupTarget` does not throw. */
    constructor (config: Config)
      requires SetupTarget(ConfiguredType(config), ConfiguredUrl(config)).Success?
      ensures Valid()
      ensures bridgeUrl == ConfiguredUrl(config) && connectionType == ConfiguredType(config)
      ensures remote == SetupTarget(connectionType, bridgeUrl).value
      ensures !isReady && posted == [] && listeners == []
    {
      bridgeUrl := ConfiguredUrl(config);
      connectionType := ConfiguredType(config);
      isReady := false;
      remote := SetupTarget(ConfiguredType(config), ConfiguredUrl(config)).value;
      posted := [];
      listeners := [];
    }

    /** `new LedgerBridge(config)`: a connector, or the error an unsupported connection type throws. */
    static method New(config: Config) returns (r: Result<LedgerBridge>)
      ensures r.Failure? <==> ConfiguredType(config) != U2F && ConfiguredType(config) != WEB_AUTHN
      ensures r.Failure? ==> r.error == UNSUPPORTED_CONNECTION
      ensures r.Success? ==> fresh(r.value) && r.value.Valid()
      ensures r.Success? ==> r.value.bridgeUrl == ConfiguredUrl(config) && r.value.connectionType == ConfiguredType(config)
      ensures r.Success? ==> r.value.posted == [] && r.value.listeners == []
    {
      var target := SetupTarget(ConfiguredType(config), ConfiguredUrl(config));
      if target.Failure? {
        return Failure(target.error);
      }
      var bridge := new LedgerBridge(config);
      return Success(bridge);
    }

    /** The remote context finished loading: the unbound `_onReady` marks the context, not the connector. */
    method TargetLoaded()
      requires Valid()
      modifies this`remote
      ensures Valid() && remote == old(remote).(isReady := true)
    {
      remote := remote.(isReady := true);
    }

    /** `_sendMessage(msg, cb)`: stamp the target, post, and register a listener; returns the call's index. */
    method SendMessage(action: string, params: Params) returns (call: nat)
      requires Valid()
      modifies this`posted, this`listeners
      ensures Valid()
      ensures posted == old(posted) + [Post(StampRequest(action, params), TargetOrigin(connectionType, bridgeUrl))]
      ensures listeners == old(listeners) + [Listener(action, Pending)]
      ensures call == |old(listeners)| && listeners[call].promise.Pending?
    {
      var msg := StampRequest(action, params);
      if connectionType == U2F {
        posted := posted + [Post(msg, "*")];
      } else if connectionType == WEB_AUTHN {
        posted := posted + [Post(msg, bridgeUrl)];
      }
      listeners := listeners + [Listener(action, Pending)];
      call := |listeners| - 1;
    }

    method GetVersion() returns (call: nat)
      requires Valid()
      modifies this`posted, this`listeners
      ensures Valid()
      ensures posted == old(posted) + [Post(StampRequest(GET_VERSION, Params([], [], [])), TargetOrigin(connectionType, bridgeUrl))]
      ensures listeners == old(listeners) + [Listener(GET_VERSION, Pending)] && call == |old(listeners)|
    {
      call := SendMessage(GET_VERSION, Params([], [], []));
    }

    method GetExtendedPublicKey(hdPath: Path) returns (call: nat)
      requires Valid()
      modifies this`posted, this`listeners
      ensures Valid()
      ensures posted == old(posted) + [Post(StampRequest(GET_EXTENDED_PUBLIC_KEY, Params(hdPath, [], [])), TargetOrigin(connectionType, bridgeUrl))]
      ensures listeners == old(listeners) + [Listener(GET_EXTENDED_PUBLIC_KEY, Pending)] && call == |old(listeners)|
    {
      call := SendMessage(GET_EXTENDED_PUBLIC_KEY, Params(hdPath, [], []));
    }

    method DeriveAddress(hdPath: Path) returns (call: nat)
      requires Valid()
      modifies this`posted, this`listeners
      ensures Valid()
      ensures posted == old(posted) + [Post(StampRequest(DERIVE_ADDRESS, Params(hdPath, [], [])), TargetOrigin(connectionType, bridgeUrl))]
      ensures listeners == old(listeners) + [Listener(DERIVE_ADDRESS, Pending)] && call == |old(listeners)|
    {
      call := SendMessage(DERIVE_ADDRESS, Params(hdPath, [], []));
    }

    method ShowAddress(hdPath: Path) returns (call: nat)
      requires Valid()
      modifies this`posted, this`listeners
      ensures Valid()
      ensures posted == old(posted) + [Post(StampRequest(SHOW_ADDRESS, Params(hdPath, [], [])), TargetOrigin(connectionType, bridgeUrl))]
      ensures listeners == old(listeners) + [Listener(SHOW_ADDRESS, Pending)] && call == |old(listeners)|
    {
      call := SendMessage(SHOW_ADDRESS, Params(hdPath, [], []));
    }

    method SignTransaction(inputs: seq<TxInput>, outputs: seq<TxOutput>) returns (call: nat)
      requires Valid()
      modifies this`posted, this`listeners
      ensures Valid()
      ensures posted == old(posted) + [Post(StampRequest(SIGN_TRANSACTION, Params([], inputs, outputs)), TargetOrigin(connectionType, bridgeUrl))]
      ensures listeners == old(listeners) + [Listener(SIGN_TRANSACTION, Pending)] && call == |old(listeners)|
    {
      call := SendMessage(SIGN_TRANSACTION, Params([], inputs, outputs));
    }

    /** A `message` event reaching every registered listener; returns the listeners that fired. */
    method Deliver(origin: string, data: Option<Reply>) returns (fired: seq<nat>)
      requires Valid()
      modifies this`listeners
      ensures Valid()
      ensures listeners == Delivered(old(listeners), Origin(bridgeUrl), origin, data)
      ensures forall k :: k in fired ==> k < |listeners|
      ensures forall k :: 0 <= k < |listeners| ==> (k in fired <==> Hears(old(listeners)[k], Origin(bridgeUrl), origin, data))
    {
      var updated;
      updated, fired := DispatchReply(listeners, Origin(bridgeUrl), origin, data);
      listeners := updated;
    }
  }
}
