/**
 * The two halves together: a request the connector posts, routed by the bridge page, answered
 * by one device session, and the reply delivered back to the connector's listeners.
 */
module EndToEnd {
  import opened Wrappers
  import opened Protocol
  import opened Dispatcher
  import HostSrc
  import HostLib

  /** Every request of the compiled connector reaches the handler for its action, with its parameters. */
  lemma LibRequestRouted(action: string, params: Params)
    requires IsAction(action)
    ensures var call := Route(Some(HostLib.StampRequest(action, params)));
      && call.Some?
      && ActionOf(call.value.op) == action
      && call.value.replyAction == ReplyTag(action)
      && UsesParams(call.value.op, params)
  {
  }

  /**
   * The sources' connector stamps `YOROI-LEDGER-BRIDGE`, which the bridge page does not listen
   * for: none of its requests is dispatched and none is answered.
   */
  lemma SrcRequestIgnored(action: string, params: Params, ledger: Ledger)
    ensures Route(Some(HostSrc.StampRequest(action, params))).None?
    ensures RepliesTo(Some(HostSrc.StampRequest(action, params)), ledger) == []
  {
    assert HostSrc.TARGET_NAME != IFRAME_TARGET by {
      assert |HostSrc.TARGET_NAME| != |IFRAME_TARGET|;
    }
  }

  /**
   * A compiled-connector call round trip. The connector's URL is `host/page?connectionType`, and
   * the browser stamps the bridge page's replies with the page's origin, here `host`. The bridge
   * page answers (unless the transport cannot be created or the failure cannot be turned into
   * text). When the page sits one path segment below its origin, the reply passes the
   * connector's origin check and the pending call resolves with the device's result (nothing for
   * `showAddress`), or rejects with the mapped error, falling back to the fixed text when that is
   * empty. Calls of other actions are untouched.
   */
  lemma LibRoundTrip(action: string, params: Params, ledger: Ledger, listeners: seq<Listener>, i: nat,
                     host: string, page: string, connectionType: string)
    requires IsAction(action)
    requires '/' !in page && '/' !in connectionType
    requires i < |listeners| && listeners[i] == Listener(action, Pending)
    ensures var call := Route(Some(HostLib.StampRequest(action, params)));
      call.Some? &&
      var outcome := ledger.respond(call.value.op);
      var replies := RepliesTo(Some(HostLib.StampRequest(action, params)), ledger);
      var bridgeUrl := HostLib.BridgeUrl(Some(host + "/" + page), Some(connectionType));
      && (replies == [] <==>
           || !ledger.transportAvailable
           || (!Succeeded(call.value.op, outcome) && (outcome.err.Null? || ErrToMessage(outcome.err).None?)))
      && (replies != [] ==>
           var after := Delivered(listeners, Origin(bridgeUrl), host, Some(replies[0]));
           && (Succeeded(call.value.op, outcome) && !call.value.op.ShowAddressOp? ==>
                 after[i].promise == Resolved(Data(outcome.data)))
           && (Succeeded(call.value.op, outcome) && call.value.op.ShowAddressOp? ==>
                 after[i].promise == Resolved(Undefined))
           && (!Succeeded(call.value.op, outcome) ==>
                 var message := ErrToMessage(outcome.err).value;
                 after[i].promise == Rejected(if message != "" then message else UNEXPECTED_ERROR))
           && (forall j :: 0 <= j < |listeners| && listeners[j].action != action ==> after[j] == listeners[j]))
  {
    LibRequestRouted(action, params);
    HostLib.BridgeUrlOrigin(host, page, connectionType);
    var call := Route(Some(HostLib.StampRequest(action, params))).value;
    var replies := RepliesTo(Some(HostLib.StampRequest(action, params)), ledger);
    if replies != [] {
      var reply := replies[0];
      assert reply == SessionReply(call.replyAction, call.op, ledger).value;
      ReplySettles(listeners, host, reply, i);
      NoCrossResolution(listeners, host, host, action, reply);
    }
  }

  /**
   * A bridge page two or more segments below its origin is never heard: the connector expects
   * replies from `host/dir`, the browser stamps them with `host`, and no call settles.
   */
  lemma LibDeepPageIgnored(host: string, dir: string, page: string, connectionType: string,
                           listeners: seq<Listener>, reply: Reply)
    requires '/' !in page && '/' !in connectionType
    ensures var bridgeUrl := HostLib.BridgeUrl(Some(host + "/" + dir + "/" + page), Some(connectionType));
      Delivered(listeners, Origin(bridgeUrl), host, Some(reply)) == listeners
  {
    HostLib.BridgeUrlOrigin(host + "/" + dir, page, connectionType);
    var expected := host + "/" + dir;
    assert |expected| > |host|;
    ForeignOriginIgnored(listeners, expected, host, Some(reply));
  }
}
