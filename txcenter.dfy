/** The transaction centre (packages/apps/src/signer/TransactionCenter.ts):
    it routes a submitted transaction to a signer, turns the signer's status
    callbacks into handler calls, keeps the set of broadcast ids, the
    transaction whose "submitted" dialog is open and the dialog itself, and
    emits notifications (modelled as an outbox the notification centre
    reads). */
module TransactionCenterModel {
  import opened Common
  import opened Notifications

  /** The three texts a transaction carries for its notifications. */
  datatype TxNotification = TxNotification(processing: string, success: string, failure: string)

  /** The dialog in `message`: the "submitted" dialog (`broadcastTemplate`) or
      the "failed" one (`errorTemplate`), each with the transaction id as its
      element id. */
  datatype Dialog = Submitted(id: string, text: string) | Failed(id: string)

  /** The centre's state: `txBroadcasted`, `message`, `currentTx` and every
      notification sent so far. */
  datatype TxState = TxState(
    broadcasted: set<string>,
    dialog: Option<Dialog>,
    currentTx: Option<string>,
    outbox: seq<Notification>)

  /** What a signer callback asks the centre to do. */
  datatype Action = Broadcast | InBlock(error: bool, meta: map<string, string>) | Fail | Ignore

  datatype Signer = EvmSigner | SubstrateSigner
  datatype Processor = OnChain | CrossChain

  /** Where a submitted transaction goes. */
  datatype Route = Route(processor: Processor, chain: string, signer: Signer)

  // ----- notifications -----

  /** `sendNotification` at time `now`; an absent `meta` is the empty map. */
  function Sent(s: TxState, id: string, kind: NotificationType, message: string, toast: bool,
                meta: map<string, string>, now: int): TxState
  {
    s.(outbox := s.outbox + [Notification(id, now, kind, message, toast, meta)])
  }

  // ----- handlers -----

  /** `handleBroadcasted`: the first broadcast of an id opens its dialog and
      sends a progress notification without a toast; later ones do nothing. */
  function Broadcasted(s: TxState, id: string, n: TxNotification, now: int): TxState
  {
    if id in s.broadcasted then s
    else
      Sent(s.(broadcasted := s.broadcasted + {id}, currentTx := Some(id), dialog := Some(Submitted(id, n.processing))),
           id, Progress, n.processing, false, map[], now)
  }

  /** `handleError`: always opens the failure dialog and sends an error
      notification without a toast. */
  function Errored(s: TxState, id: string, n: TxNotification, now: int): TxState
  {
    Sent(s.(dialog := Some(Failed(id))), id, Error, n.failure, false, map[], now)
  }

  /** The element id of the mounted dialog. */
  function DialogId(d: Option<Dialog>): Option<string>
  {
    if d.Some? then Some(d.value.id) else None
  }

  /** `closeDialog` as written: `closeDialogGracefully` looks the dialog up by
      id and throws (`None`) when no mounted dialog has that id. */
  function DialogClosedAsWritten(s: TxState, id: string): Option<TxState>
  {
    if DialogId(s.dialog) == Some(id) then Some(s.(dialog := None, currentTx := None)) else None
  }

  /** `closeDialog` tolerating a missing dialog: whatever is shown is
      dismissed and no transaction is current any more. */
  function DialogClosed(s: TxState): TxState
  {
    s.(dialog := None, currentTx := None)
  }

  /** `handleInBlock` as written: a throw while closing the dialog (`None`)
      also skips the notification. */
  function InBlockAsWritten(s: TxState, id: string, n: TxNotification, error: bool, meta: map<string, string>, now: int): Option<TxState>
  {
    var closed := if s.currentTx == Some(id) then DialogClosedAsWritten(s, id) else Some(s);
    if closed.None? then None
    else if error then Some(Sent(closed.value, id, Error, n.failure, true, meta, now))
    else Some(Sent(closed.value, id, Success, n.success, true, meta, now))
  }

  /** `handleInBlock` with a dialog lookup that tolerates a missing dialog:
      the current transaction's dialog closes, then one toast notification
      carrying the block metadata is sent. */
  function InBlockHandled(s: TxState, id: string, n: TxNotification, error: bool, meta: map<string, string>, now: int): TxState
  {
    var closed := if s.currentTx == Some(id) then DialogClosed(s) else s;
    if error then Sent(closed, id, Error, n.failure, true, meta, now)
    else Sent(closed, id, Success, n.success, true, meta, now)
  }

  /** `closeBroadcastDialog`: close the dialog, then send a progress toast. */
  function BroadcastDialogClosed(s: TxState, id: string, message: string, now: int): TxState
  {
    Sent(DialogClosed(s), id, Progress, message, true, map[], now)
  }

  /** One signer callback applied to the state. */
  function Applied(s: TxState, id: string, n: TxNotification, a: Action, now: int): TxState
  {
    match a
    case Broadcast => Broadcasted(s, id, n, now)
    case InBlock(error, meta) => InBlockHandled(s, id, n, error, meta, now)
    case Fail => Errored(s, id, n, now)
    case Ignore => s
  }

  // ----- status mapping -----

  /** ASCII `toLowerCase` of one character. */
  function LowerChar(c: char): char
  {
    if 'A' <= c <= 'Z' then (c as int + 32) as char else c
  }

  /** `toLowerCase` on ASCII text. */
  function ToLower(s: string): (r: string)
    ensures |r| == |s|
  {
    if s == [] then [] else [LowerChar(s[0])] + ToLower(s[1..])
  }

  /** `blockMeta`: the block hash and the transaction's index in the block. */
  function BlockMeta(blockHash: string, txIndex: nat): map<string, string>
  {
    map["blockHash" := blockHash, "txIndex" := NatToString(txIndex)]
  }

  /** The Substrate signer's status callback: the status type lowered,
      the method of the transaction's event, whether a dispatch error came
      with the status, the block hash and the transaction's index. */
  function SubstrateAction(statusType: string, eventMethod: string, dispatchError: bool,
                           blockHash: string, txIndex: nat): Action
  {
    var t := ToLower(statusType);
    if t == "broadcast" then Broadcast
    else if t == "inblock" then InBlock(eventMethod == "ExtrinsicFailed", BlockMeta(blockHash, txIndex))
    else if t == "finalized" && dispatchError then Fail
    else Ignore
  }

  /** The EVM signer's confirmation callback: a failure unless the receipt's
      status is "success", with no block metadata. Submission maps to
      `Broadcast` and the error callback to `Fail`. */
  function EvmConfirmed(status: string): Action
  {
    InBlock(status != "success", map[])
  }

  /** The listeners installed in `connectedCallback` and `processTx` /
      `processXcm`: on-chain events sign on "hydration", cross-chain ones on
      the source chain; EVM wallets use the EVM signer. */
  function Routed(eventName: string, provider: string, srcChain: string, evmProviders: set<string>): Option<Route>
  {
    var signer := if provider in evmProviders then EvmSigner else SubstrateSigner;
    if eventName in {"gc:tx:new", "gc:tx:scheduleDca", "gc:tx:terminateDca"} then Some(Route(OnChain, "hydration", signer))
    else if eventName == "gc:xcm:new" then Some(Route(CrossChain, srcChain, signer))
    else None
  }

  // ----- the centre -----

  class TransactionCenter {
    var broadcasted: set<string>
    var dialog: Option<Dialog>
    var currentTx: Option<string>
    var outbox: seq<Notification>

    function State(): TxState
      reads this
    {
      TxState(broadcasted, dialog, currentTx, outbox)
    }

    constructor()
      ensures State() == TxState({}, None, None, [])
    {
      broadcasted := {};
      dialog := None;
      currentTx := None;
      outbox := [];
    }

    method SendNotification(id: string, kind: NotificationType, message: string, toast: bool,
                            meta: map<string, string>, now: int)
      modifies this
      ensures State() == Sent(old(State()), id, kind, message, toast, meta, now)
    {
      outbox := outbox + [Notification(id, now, kind, message, toast, meta)];
    }

    method HandleBroadcasted(id: string, n: TxNotification, now: int)
      modifies this
      ensures State() == Broadcasted(old(State()), id, n, now)
    {
      if id in broadcasted {
        return;
      }
      broadcasted := broadcasted + {id};
      currentTx := Some(id);
      dialog := Some(Submitted(id, n.processing));
      SendNotification(id, Progress, n.processing, false, map[], now);
    }

    method HandleError(id: string, n: TxNotification, now: int)
      modifies this
      ensures State() == Errored(old(State()), id, n, now)
    {
      dialog := Some(Failed(id));
      SendNotification(id, Error, n.failure, false, map[], now);
    }

    method CloseDialog()
      modifies this
      ensures State() == DialogClosed(old(State()))
    {
      dialog := None;
      currentTx := None;
    }

    method HandleInBlock(id: string, n: TxNotification, error: bool, meta: map<string, string>, now: int)
      modifies this
      ensures State() == InBlockHandled(old(State()), id, n, error, meta, now)
    {
      if currentTx == Some(id) {
        CloseDialog();
      }
      if error {
        SendNotification(id, Error, n.failure, true, meta, now);
      } else {
        SendNotification(id, Success, n.success, true, meta, now);
      }
    }

    method CloseBroadcastDialog(id: string, message: string, now: int)
      modifies this
      ensures State() == BroadcastDialogClosed(old(State()), id, message, now)
    {
      CloseDialog();
      SendNotification(id, Progress, message, true, map[], now);
    }

    /** A signer callback for transaction `id`. */
    method Apply(id: string, n: TxNotification, a: Action, now: int)
      modifies this
      ensures State() == Applied(old(State()), id, n, a, now)
    {
      match a
      case Broadcast => HandleBroadcasted(id, n, now);
      case InBlock(error, meta) => HandleInBlock(id, n, error, meta, now);
      case Fail => HandleError(id, n, now);
      case Ignore =>
    }
  }

  // ----- properties -----

  /** The first broadcast of an id records it, makes it current and sends
      exactly one progress notification without a toast; a repeated
      broadcast of the same id changes nothing and sends nothing. */
  lemma BroadcastIdempotent(s: TxState, id: string, n: TxNotification, now: int, later: int)
    ensures var s1 := Broadcasted(s, id, n, now);
      id in s1.broadcasted && Broadcasted(s1, id, n, later) == s1
    ensures var s1 := Broadcasted(s, id, n, now);
      id !in s.broadcasted ==>
        s1.currentTx == Some(id) && s1.dialog == Some(Submitted(id, n.processing))
        && s1.outbox == s.outbox + [Notification(id, now, Progress, n.processing, false, map[])]
  {
  }

  /** handleInBlock clears the dialog and the current transaction exactly
      when the id is current, and sends exactly one toast notification with
      the metadata: an error with the failure text when the inclusion
      failed, a success with the success text otherwise. */
  lemma InBlockEmitsOne(s: TxState, id: string, n: TxNotification, error: bool, meta: map<string, string>, now: int)
    ensures var r := InBlockHandled(s, id, n, error, meta, now);
      |r.outbox| == |s.outbox| + 1 && r.outbox[..|s.outbox|] == s.outbox
    ensures var r := InBlockHandled(s, id, n, error, meta, now);
      var m := r.outbox[|s.outbox|];
      m.id == id && m.toast && m.meta == meta && m.timestamp == now
      && (m.kind == Error <==> error) && (m.kind == Success <==> !error)
      && m.message == (if error then n.failure else n.success)
    ensures var r := InBlockHandled(s, id, n, error, meta, now);
      (s.currentTx == Some(id) ==> r.currentTx.None? && r.dialog.None?)
      && (s.currentTx != Some(id) ==> r.currentTx == s.currentTx && r.dialog == s.dialog)
      && r.broadcasted == s.broadcasted
  {
  }

  /** handleError sends an error notification without a toast and shows the
      failure dialog whether or not the id was ever broadcast. */
  lemma ErrorAlwaysEmits(s: TxState, id: string, n: TxNotification, now: int)
    ensures var r := Errored(s, id, n, now);
      r.outbox == s.outbox + [Notification(id, now, Error, n.failure, false, map[])]
      && r.dialog == Some(Failed(id)) && r.broadcasted == s.broadcasted && r.currentTx == s.currentTx
  {
  }

  /** closeBroadcastDialog leaves no current transaction and no dialog, then
      sends a progress toast. */
  lemma CloseBroadcastDialogEmits(s: TxState, id: string, message: string, now: int)
    ensures var r := BroadcastDialogClosed(s, id, message, now);
      r.currentTx.None? && r.dialog.None? && r.broadcasted == s.broadcasted
      && r.outbox == s.outbox + [Notification(id, now, Progress, message, true, map[])]
  {
  }

  /** Lowering is idempotent. */
  lemma {:induction false} ToLowerIdempotent(s: string)
    ensures ToLower(ToLower(s)) == ToLower(s)
  {
    if s != [] {
      ToLowerIdempotent(s[1..]);
      assert ToLower(s)[1..] == ToLower(s[1..]);
    }
  }

  /** The Substrate mapping, case by case, and its insensitivity to the
      status type's letter case. */
  lemma SubstrateMapping(statusType: string, eventMethod: string, dispatchError: bool, blockHash: string, txIndex: nat)
    ensures var a := SubstrateAction(statusType, eventMethod, dispatchError, blockHash, txIndex);
      (a == Broadcast <==> ToLower(statusType) == "broadcast")
      && (a.InBlock? <==> ToLower(statusType) == "inblock")
      && (a.InBlock? ==> (a.error <==> eventMethod == "ExtrinsicFailed")
                         && a.meta.Keys == {"blockHash", "txIndex"} && a.meta["blockHash"] == blockHash)
      && (a == Fail <==> ToLower(statusType) == "finalized" && dispatchError)
    ensures SubstrateAction(ToLower(statusType), eventMethod, dispatchError, blockHash, txIndex)
         == SubstrateAction(statusType, eventMethod, dispatchError, blockHash, txIndex)
  {
    ToLowerIdempotent(statusType);
  }



  /** The EVM confirmation is a failure exactly when the status is not
      "success", and never carries metadata. */
  lemma EvmMapping(status: string)
    ensures EvmConfirmed(status).InBlock? && EvmConfirmed(status).meta == map[]
    ensures EvmConfirmed(status).error <==> status != "success"
  {
  }

  /** A dispatch error at finalization after a successful inclusion leaves
      an error as the transaction's last notification. */
  lemma FinalizedOverridesSuccess(s: TxState, id: string, n: TxNotification, meta: map<string, string>,
                                  blockHash: string, txIndex: nat, t1: int, t2: int)
    ensures var r := Applied(InBlockHandled(s, id, n, false, meta, t1), id, n,
                             SubstrateAction("Finalized", "ExtrinsicSuccess", true, blockHash, txIndex), t2);
      |r.outbox| == |s.outbox| + 2 && r.outbox[|s.outbox|].kind == Success
      && r.outbox[|r.outbox| - 1].kind == Error && r.outbox[|r.outbox| - 1].id == id
  {
    assert ToLower("Finalized") == "finalized";
  }

  /** Routing: the EVM signer exactly for EVM wallets; on-chain events sign
      on "hydration", cross-chain events on their source chain; other
      events are not listened to. */
  lemma RoutingCases(eventName: string, provider: string, srcChain: string, evmProviders: set<string>)
    ensures var r := Routed(eventName, provider, srcChain, evmProviders);
      r.Some? ==> (r.value.signer == EvmSigner <==> provider in evmProviders)
    ensures var r := Routed(eventName, provider, srcChain, evmProviders);
      (eventName == "gc:tx:new" || eventName == "gc:tx:scheduleDca" || eventName == "gc:tx:terminateDca")
        <==> r.Some? && r.value.processor == OnChain
    ensures var r := Routed(eventName, provider, srcChain, evmProviders);
      eventName == "gc:xcm:new" <==> r.Some? && r.value == Route(CrossChain, srcChain, r.value.signer)
  {
  }

  /** handleInBlock as written loses the inclusion notification when another
      transaction's failure dialog replaced the current one's "submitted"
      dialog: the lookup by id finds nothing and throws. */
  lemma InBlockAsWrittenLosesNotification(n: TxNotification, t0: int, t1: int, t2: int)
    ensures var s0 := TxState({}, None, None, []);
      var s1 := Broadcasted(s0, "a", n, t0);
      var s2 := Errored(s1, "b", n, t1);
      s2.currentTx == Some("a") && InBlockAsWritten(s2, "a", n, false, map[], t2).None?
  {
  }

  /** Wherever the as-written handler does not throw it agrees with the
      corrected one. */
  lemma InBlockAgreesWhenDialogPresent(s: TxState, id: string, n: TxNotification, error: bool, meta: map<string, string>, now: int)
    requires s.currentTx == Some(id) ==> DialogId(s.dialog) == Some(id)
    ensures InBlockAsWritten(s, id, n, error, meta, now) == Some(InBlockHandled(s, id, n, error, meta, now))
  {
  }
}
