/**
 * The bridge page (`YoroiLedgerBridge`): it filters incoming messages on their target, routes the
 * five `ledger-*` actions to one device session each, maps device and transport failures to a
 * small vocabulary (`ledgerErrToMessage`) and posts exactly one reply envelope per completed
 * session, releasing the transport on every path.
 *
 * The transport and the device application are foreign code: a `Ledger` value stands for them,
 * saying whether a transport can be created and what each device operation does.
 */
module Dispatcher {
  import opened Wrappers
  import opened Text
  import opened Bip44
  import opened Protocol

  const LEDGER_TIMEOUT := "LEDGER_TIMEOUT"
  const LEDGER_WRONG_APP := "LEDGER_WRONG_APP"
  const LEDGER_LOCKED := "LEDGER_LOCKED"
  const U2F_NOT_SUPPORTED := "U2F_NOT_SUPPORTED"

  /** A value thrown by the transport or device library, by the branch of `ledgerErrToMessage` it takes. */
  datatype LedgerError =
    | Null                                              // null or undefined
    | MetaData(code: int, errorType: Option<string>)    // an object with a truthy `metaData`
    | Str(s: string)                                    // a string
    | IdMsg(id: string, message: string, text: string)  // own `id` and `message`; `text` is its toString()
    | Other(text: string)                               // anything else; `text` is its toString()

  /**
   * `ledgerErrToMessage(err)`. It throws on `null`/`undefined` (at `err.hasOwnProperty`), hence
   * the precondition; `None` is the `undefined` it returns for a `metaData` without a `type`.
   */
  function ErrToMessage(err: LedgerError): (r: Option<string>)
    requires !err.Null?
    ensures r.None? <==> err.MetaData? && err.code != 5 && err.errorType.None?
  {
    match err
    case MetaData(code, errorType) => if code == 5 then Some(LEDGER_TIMEOUT) else errorType
    case Str(s) =>
      if Includes(s, "6804") then Some(LEDGER_WRONG_APP)
      else if Includes(s, "6801") then Some(LEDGER_LOCKED)
      else Some(s)
    case IdMsg(_, message, text) => if Includes(message, "U2F not supported") then Some(U2F_NOT_SUPPORTED) else Some(text)
    case Other(text) => Some(text)
  }

  /**
   * The classification, stated with substring occurrence: a timeout code wins over the type; a
   * string naming status 6804 (wrong app) wins over 6801 (locked); other strings pass unchanged;
   * an id/message error that mentions missing U2F support is reported as such, else by its text.
   */
  lemma ErrToMessageClassifies(err: LedgerError)
    requires !err.Null?
    ensures err.MetaData? && err.code == 5 ==> ErrToMessage(err) == Some(LEDGER_TIMEOUT)
    ensures err.MetaData? && err.code != 5 ==> ErrToMessage(err) == err.errorType
    ensures err.Str? && IsInfix(err.s, "6804") ==> ErrToMessage(err) == Some(LEDGER_WRONG_APP)
    ensures err.Str? && !IsInfix(err.s, "6804") && IsInfix(err.s, "6801") ==> ErrToMessage(err) == Some(LEDGER_LOCKED)
    ensures err.Str? && !IsInfix(err.s, "6804") && !IsInfix(err.s, "6801") ==> ErrToMessage(err) == Some(err.s)
    ensures err.IdMsg? && IsInfix(err.message, "U2F not supported") ==> ErrToMessage(err) == Some(U2F_NOT_SUPPORTED)
    ensures err.IdMsg? && !IsInfix(err.message, "U2F not supported") ==> ErrToMessage(err) == Some(err.text)
    ensures err.Other? ==> ErrToMessage(err) == Some(err.text)
  {
    match err
    case Str(s) =>
      IncludesIsInfix(s, "6804");
      IncludesIsInfix(s, "6801");
    case IdMsg(_, message, _) =>
      IncludesIsInfix(message, "U2F not supported");
    case _ =>
  }

  // ---- routing ----

  /** The device operation a session performs, with the parameters it is given. */
  datatype DeviceOp =
    | GetVersionOp
    | GetExtendedPublicKeyOp(hdPath: Path)
    | SignTransactionOp(inputs: seq<TxInput>, outputs: seq<TxOutput>)
    | DeriveAddressOp(hdPath: Path)
    | ShowAddressOp(hdPath: Path)

  /** The request action each operation answers. */
  function ActionOf(op: DeviceOp): string
  {
    match op
    case GetVersionOp => GET_VERSION
    case GetExtendedPublicKeyOp(_) => GET_EXTENDED_PUBLIC_KEY
    case SignTransactionOp(_, _) => SIGN_TRANSACTION
    case DeriveAddressOp(_) => DERIVE_ADDRESS
    case ShowAddressOp(_) => SHOW_ADDRESS
  }

  predicate IsAction(action: string)
  {
    action in {GET_VERSION, GET_EXTENDED_PUBLIC_KEY, SIGN_TRANSACTION, DERIVE_ADDRESS, SHOW_ADDRESS}
  }

  /** The operation was built from the request's parameters. */
  predicate UsesParams(op: DeviceOp, params: Params)
  {
    match op
    case GetVersionOp => true
    case GetExtendedPublicKeyOp(hdPath) => hdPath == params.hdPath
    case SignTransactionOp(inputs, outputs) => inputs == params.inputs && outputs == params.outputs
    case DeriveAddressOp(hdPath) => hdPath == params.hdPath
    case ShowAddressOp(hdPath) => hdPath == params.hdPath
  }

  /** A handler invocation: the reply tag it answers with and the operation it performs. */
  datatype Call = Call(replyAction: string, op: DeviceOp)

  /**
   * The `message` listener's filter and switch. A message without data or with another target is
   * ignored; an unknown action matches no case; reading `params.hdPath` (or `.inputs`) of missing
   * params throws before any handler runs.
   */
  function Route(data: Option<Request>): (r: Option<Call>)
    ensures r.Some? ==> data.Some? && data.value.target == IFRAME_TARGET
    ensures r.Some? ==> ActionOf(r.value.op) == data.value.action && r.value.replyAction == ReplyTag(data.value.action)
    ensures r.Some? ==> data.value.action == GET_VERSION || data.value.params.Some?
    ensures r.Some? && data.value.params.Some? ==> UsesParams(r.value.op, data.value.params.value)
    ensures r.Some? <== && data.Some? && data.value.target == IFRAME_TARGET && IsAction(data.value.action)
                        && (data.value.action == GET_VERSION || data.value.params.Some?)
  {
    if data.None? || data.value.target != IFRAME_TARGET then None
    else
      var Request(_, action, params) := data.value;
      var replyAction := ReplyTag(action);
      if action == GET_VERSION then Some(Call(replyAction, GetVersionOp))
      else if action == GET_EXTENDED_PUBLIC_KEY then
        if params.None? then None else Some(Call(replyAction, GetExtendedPublicKeyOp(params.value.hdPath)))
      else if action == SIGN_TRANSACTION then
        if params.None? then None else Some(Call(replyAction, SignTransactionOp(params.value.inputs, params.value.outputs)))
      else if action == DERIVE_ADDRESS then
        if params.None? then None else Some(Call(replyAction, DeriveAddressOp(params.value.hdPath)))
      else if action == SHOW_ADDRESS then
        if params.None? then None else Some(Call(replyAction, ShowAddressOp(params.value.hdPath)))
      else None
  }

  /** The five action names are distinct, so each dispatches to exactly one handler. */
  lemma ActionOfInjective(a: DeviceOp, b: DeviceOp)
    ensures ActionOf(a) == ActionOf(b) ==>
      (&& a.GetVersionOp? == b.GetVersionOp?
       && a.GetExtendedPublicKeyOp? == b.GetExtendedPublicKeyOp?
       && a.SignTransactionOp? == b.SignTransactionOp?
       && a.DeriveAddressOp? == b.DeriveAddressOp?
       && a.ShowAddressOp? == b.ShowAddressOp?)
  {
  }

  // ---- sessions ----

  /**
   * What the device operation did: returned (or, for a promise, resolved) with a result, threw
   * synchronously, or returned a promise that later rejected.
   */
  datatype DeviceOutcome = Returned(data: DeviceData) | Threw(err: LedgerError) | RejectedLater(err: LedgerError)

  /** The hardware side: whether a transport can be created, and how the device answers each operation. */
  datatype Ledger = Ledger(transportAvailable: bool, respond: DeviceOp -> DeviceOutcome)

  /**
   * The failure reply for a caught error. If `ledgerErrToMessage` throws (on `null`) or returns
   * `undefined`, whose `toString()` then throws, the catch block fails and nothing is posted.
   */
  function FailureReply(replyAction: string, err: LedgerError): (r: Option<Reply>)
    ensures r.Some? <==> !err.Null? && ErrToMessage(err).Some?
    ensures r.Some? ==> r.value.action == replyAction && !r.value.success
    ensures r.Some? ==> r.value.payload == ErrorBody(ErrToMessage(err).value)
  {
    if err.Null? then None
    else match ErrToMessage(err)
      case None => None
      case Some(message) => Some(Reply(replyAction, false, ErrorBody(message)))
  }

  /** The device operation's outcome counts as a success of the session. */
  predicate Succeeded(op: DeviceOp, outcome: DeviceOutcome)
  {
    if op.ShowAddressOp? then !outcome.Threw? else outcome.Returned?
  }

  /**
   * The reply one session posts, if any. `showAddress` does not await the device's promise: only a
   * synchronous throw fails it, and its success carries no payload. When the transport cannot be
   * created the handler fails before its `try`, posting nothing.
   */
  function SessionReply(replyAction: string, op: DeviceOp, ledger: Ledger): (r: Option<Reply>)
    ensures r.Some? ==> ledger.transportAvailable && r.value.action == replyAction
    ensures r.Some? ==> (r.value.success <==> Succeeded(op, ledger.respond(op)))
    ensures r.Some? && r.value.success && !op.ShowAddressOp? ==> r.value.payload == Data(ledger.respond(op).data)
    ensures r.Some? && r.value.success && op.ShowAddressOp? ==> r.value.payload == Undefined
    ensures r.Some? && !r.value.success ==> var err := ledger.respond(op).err;
      !err.Null? && ErrToMessage(err).Some? && r.value.payload == ErrorBody(ErrToMessage(err).value)
    ensures r.None? <==>
      (|| !ledger.transportAvailable
       || (!Succeeded(op, ledger.respond(op)) && (ledger.respond(op).err.Null? || ErrToMessage(ledger.respond(op).err).None?)))
  {
    if !ledger.transportAvailable then None
    else
      var outcome := ledger.respond(op);
      if op.ShowAddressOp? then
        if outcome.Threw? then FailureReply(replyAction, outcome.err) else Some(Reply(replyAction, true, Undefined))
      else if outcome.Returned? then Some(Reply(replyAction, true, Data(outcome.data)))
      else FailureReply(replyAction, outcome.err)
  }

  function AsSeq<T>(o: Option<T>): (s: seq<T>)
    ensures |s| <= 1
  {
    if o.Some? then [o.value] else []
  }

  /**
   * The replies one incoming message leads to: at most one, tagged with its action plus `-reply`,
   * and none for a message that is filtered out, names no known action, or lacks the parameters
   * its handler reads.
   */
  function RepliesTo(data: Option<Request>, ledger: Ledger): (replies: seq<Reply>)
    ensures |replies| <= 1
    ensures forall r :: r in replies ==> data.Some? && r.action == ReplyTag(data.value.action)
    ensures data.None? || data.value.target != IFRAME_TARGET || !IsAction(data.value.action) ==> replies == []
    ensures data.Some? && data.value.action != GET_VERSION && data.value.params.None? ==> replies == []
  {
    match Route(data)
    case None => []
    case Some(call) => AsSeq(SessionReply(call.replyAction, call.op, ledger))
  }

  datatype TransportEvent = Opened | Closed

  class YoroiLedgerBridge {
    /** The reply envelopes posted to the parent window, oldest first. */
    var outbox: seq<Reply>
    /** Transport creation and `close()` calls, in order. */
    ghost var transportLog: seq<TransportEvent>
    /** The device operations invoked, in order. */
    ghost var deviceLog: seq<DeviceOp>

    constructor ()
      ensures outbox == [] && transportLog == [] && deviceLog == []
    {
      outbox := [];
      transportLog := [];
      deviceLog := [];
    }

    /** `sendMessageToExtension(msg)`: post to the parent window. */
    method SendMessageToExtension(reply: Reply)
      modifies this`outbox
      ensures outbox == old(outbox) + [reply]
    {
      outbox := outbox + [reply];
    }

    /**
     * The shared body of `getVersion`, `getExtendedPublicKey`, `signTransaction` and
     * `deriveAddress`: create the transport, await the operation, post the success or the mapped
     * failure, and close the transport in `finally`.
     */
    method AwaitedSession(replyAction: string, op: DeviceOp, ledger: Ledger)
      requires !op.ShowAddressOp?
      modifies this
      ensures outbox == old(outbox) + AsSeq(SessionReply(replyAction, op, ledger))
      ensures transportLog == old(transportLog) + (if ledger.transportAvailable then [Opened, Closed] else [])
      ensures deviceLog == old(deviceLog) + (if ledger.transportAvailable then [op] else [])
    {
      if !ledger.transportAvailable {
        return;
      }
      transportLog := transportLog + [Opened];
      var outcome := ledger.respond(op);
      deviceLog := deviceLog + [op];
      if outcome.Returned? {
        SendMessageToExtension(Reply(replyAction, true, Data(outcome.data)));
      } else if !outcome.err.Null? {
        var e := ErrToMessage(outcome.err);
        if e.Some? {
          SendMessageToExtension(Reply(replyAction, false, ErrorBody(e.value)));
        }
      }
      transportLog := transportLog + [Closed];
    }

    method GetVersion(replyAction: string, ledger: Ledger)
      modifies this
      ensures outbox == old(outbox) + AsSeq(SessionReply(replyAction, GetVersionOp, ledger))
      ensures transportLog == old(transportLog) + (if ledger.transportAvailable then [Opened, Closed] else [])
      ensures deviceLog == old(deviceLog) + (if ledger.transportAvailable then [GetVersionOp] else [])
    {
      AwaitedSession(replyAction, GetVersionOp, ledger);
    }

    method GetExtendedPublicKey(replyAction: string, hdPath: Path, ledger: Ledger)
      modifies this
      ensures outbox == old(outbox) + AsSeq(SessionReply(replyAction, GetExtendedPublicKeyOp(hdPath), ledger))
      ensures transportLog == old(transportLog) + (if ledger.transportAvailable then [Opened, Closed] else [])
      ensures deviceLog == old(deviceLog) + (if ledger.transportAvailable then [GetExtendedPublicKeyOp(hdPath)] else [])
    {
      AwaitedSession(replyAction, GetExtendedPublicKeyOp(hdPath), ledger);
    }

    method SignTransaction(replyAction: string, inputs: seq<TxInput>, outputs: seq<TxOutput>, ledger: Ledger)
      modifies this
      ensures outbox == old(outbox) + AsSeq(SessionReply(replyAction, SignTransactionOp(inputs, outputs), ledger))
      ensures transportLog == old(transportLog) + (if ledger.transportAvailable then [Opened, Closed] else [])
      ensures deviceLog == old(deviceLog) + (if ledger.transportAvailable then [SignTransactionOp(inputs, outputs)] else [])
    {
      AwaitedSession(replyAction, SignTransactionOp(inputs, outputs), ledger);
    }

    method DeriveAddress(replyAction: string, hdPath: Path, ledger: Ledger)
      modifies this
      ensures outbox == old(outbox) + AsSeq(SessionReply(replyAction, DeriveAddressOp(hdPath), ledger))
      ensures transportLog == old(transportLog) + (if ledger.transportAvailable then [Opened, Closed] else [])
      ensures deviceLog == old(deviceLog) + (if ledger.transportAvailable then [DeriveAddressOp(hdPath)] else [])
    {
      AwaitedSession(replyAction, DeriveAddressOp(hdPath), ledger);
    }

    /** `showAddress`: the device call is started but not awaited; success is posted at once. */
    method ShowAddress(replyAction: string, hdPath: Path, ledger: Ledger)
      modifies this
      ensures outbox == old(outbox) + AsSeq(SessionReply(replyAction, ShowAddressOp(hdPath), ledger))
      ensures transportLog == old(transportLog) + (if ledger.transportAvailable then [Opened, Closed] else [])
      ensures deviceLog == old(deviceLog) + (if ledger.transportAvailable then [ShowAddressOp(hdPath)] else [])
    {
      if !ledger.transportAvailable {
        return;
      }
      transportLog := transportLog + [Opened];
      var op := ShowAddressOp(hdPath);
      var outcome := ledger.respond(op);
      deviceLog := deviceLog + [op];
      if !outcome.Threw? {
        SendMessageToExtension(Reply(replyAction, true, Undefined));
      } else if !outcome.err.Null? {
        var e := ErrToMessage(outcome.err);
        if e.Some? {
          SendMessageToExtension(Reply(replyAction, false, ErrorBody(e.value)));
        }
      }
      transportLog := transportLog + [Closed];
    }

    /** The `message` listener installed by `addEventListeners`. */
    method OnMessage(data: Option<Request>, ledger: Ledger)
      modifies this
      ensures outbox == old(outbox) + RepliesTo(data, ledger)
      ensures Route(data).None? ==> outbox == old(outbox) && transportLog == old(transportLog) && deviceLog == old(deviceLog)
      ensures Route(data).Some? ==>
        && transportLog == old(transportLog) + (if ledger.transportAvailable then [Opened, Closed] else [])
        && deviceLog == old(deviceLog) + (if ledger.transportAvailable then [Route(data).value.op] else [])
    {
      var call := Route(data);
      if call.None? {
        return;
      }
      var Call(replyAction, op) := call.value;
      match op
      case GetVersionOp => GetVersion(replyAction, ledger);
      case GetExtendedPublicKeyOp(hdPath) => GetExtendedPublicKey(replyAction, hdPath, ledger);
      case SignTransactionOp(inputs, outputs) => SignTransaction(replyAction, inputs, outputs, ledger);
      case DeriveAddressOp(hdPath) => DeriveAddress(replyAction, hdPath, ledger);
      case ShowAddressOp(hdPath) => ShowAddress(replyAction, hdPath, ledger);
    }
  }
}
