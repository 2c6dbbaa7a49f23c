/**
 * The Diners host: frames a request with its TPDU, exchanges it over the
 * communication client and hands the answer to the operation's reader.
 * The client is not part of this model: what it answers during an
 * exchange is given as a `Link`, and what it is asked to do is recorded in
 * the order asked.
 */
module Diners {
  import opened Wrappers
  import opened Iso
  import opened Types
  import opened DinersTransactions
  import Text
  import SaleMessage
  import RefundMessage
  import PreAuthMessage
  import VoidMessage
  import ReversalMessage
  import SaleCompletionMessage
  import OfflineSaleMessage
  import TipAdjustMessage
  import TcUploadMessage
  import BatchUploadMessage
  import SettlementMessage
  import KeyDownloadMessage
  import TestTransactionMessage

  /** The answers of the communication client that this host distinguishes. */
  datatype CommsStatus = COMMS_OK | COMMS_CONNECTED | COMMS_ERROR

  /** The outcome of an exchange with the host. */
  datatype Status = COMPLETED | TRANSIENT_FAILURE | PERM_FAILURE

  /** A request made of the communication client. */
  datatype CommsCall =
    | PreConnectCall(hostName: string)
    | WaitConnectedCall(timeout: nat)
    | SendCall(bytes: seq<bv8>)
    | ReceiveCall(maxBytes: nat)
    | DisconnectCall

  /**
   * What the client answers during one exchange: to the wait for a
   * connection, to the send (with the count of bytes it sent) and to the
   * receive (with the bytes it received).
   */
  datatype Link = Link(waitStatus: CommsStatus, sendStatus: CommsStatus, bytesSent: nat,
                       receiveStatus: CommsStatus, received: seq<bv8>)

  /** The length of the TPDU in front of every message. */
  const TPDU_SIZE: nat := 5
  /** The most bytes one receive accepts. */
  const MAX_BYTES: nat := 99999
  /** How long an exchange waits for the connection, in milliseconds. */
  const CONNECT_TIMEOUT: nat := 30000

  /** The message as it goes on the wire: the hex-decoded TPDU, then the message. */
  function AddTpdu(msg: seq<bv8>, tpdu: string): (framed: seq<bv8>)
    ensures |framed| == |tpdu| / 2 + |msg|
    ensures framed[..|tpdu| / 2] == Text.HexStringToBytes(tpdu)
    ensures framed[|tpdu| / 2..] == msg
  {
    Text.HexStringToBytes(tpdu) + msg
  }

  /** A configured TPDU of ten hex digits frames a message so that stripping the TPDU gives it back. */
  lemma StripAddedTpdu(msg: seq<bv8>, tpdu: string)
    requires |tpdu| == 2 * TPDU_SIZE
    ensures AddTpdu(msg, tpdu)[TPDU_SIZE..] == msg
  {
  }

  /**
   * One exchange as the client sees it: the payload delivered to the reader
   * (the received bytes after the TPDU) or None, and the calls made, in
   * order. The exchange waits for the connection, sends the framed request,
   * receives the answer; the first step that fails ends it with a
   * disconnect.
   */
  function Transport(framed: seq<bv8>, link: Link): (Option<seq<bv8>>, seq<CommsCall>)
  {
    var wait := [WaitConnectedCall(CONNECT_TIMEOUT)];
    if link.waitStatus != COMMS_CONNECTED then
      (None, wait + [DisconnectCall])
    else if link.sendStatus != COMMS_OK || link.bytesSent != |framed| then
      (None, wait + [SendCall(framed), DisconnectCall])
    else if link.receiveStatus != COMMS_OK || |link.received| < TPDU_SIZE then
      (None, wait + [SendCall(framed), ReceiveCall(MAX_BYTES), DisconnectCall])
    else
      (Some(link.received[TPDU_SIZE..]), wait + [SendCall(framed), ReceiveCall(MAX_BYTES)])
  }

  /**
   * A payload is delivered exactly when the connection is up, the whole
   * framed message is sent and at least a TPDU's worth of bytes is
   * received; the payload is what follows the TPDU.
   */
  lemma TransportDelivers(framed: seq<bv8>, link: Link)
    ensures var (payload, _) := Transport(framed, link);
      (payload.Some? <==>
         link.waitStatus == COMMS_CONNECTED && link.sendStatus == COMMS_OK && link.bytesSent == |framed|
         && link.receiveStatus == COMMS_OK && |link.received| >= TPDU_SIZE)
      && (payload.Some? ==> payload.value == link.received[TPDU_SIZE..]
                            && |payload.value| == |link.received| - TPDU_SIZE)
  {
  }

  /** An exchange that fails ends with a disconnect, and one that delivers never disconnects. */
  lemma FailureDisconnects(framed: seq<bv8>, link: Link)
    ensures var (payload, trace) := Transport(framed, link);
      |trace| >= 2 && (payload.None? <==> trace[|trace| - 1] == DisconnectCall)
      && (payload.Some? ==> DisconnectCall !in trace)
  {
  }

  /**
   * Every exchange starts by waiting 30000 ms for the connection; the framed
   * message is sent only when the connection is up, nothing else is sent,
   * and a receive is attempted only after the whole message went out.
   */
  lemma SendOnlyWhenConnected(framed: seq<bv8>, link: Link)
    ensures var (_, trace) := Transport(framed, link);
      trace[0] == WaitConnectedCall(CONNECT_TIMEOUT)
      && (SendCall(framed) in trace <==> link.waitStatus == COMMS_CONNECTED)
      && (forall c | c in trace && c.SendCall? :: c.bytes == framed)
      && (ReceiveCall(MAX_BYTES) in trace <==>
            link.waitStatus == COMMS_CONNECTED && link.sendStatus == COMMS_OK && link.bytesSent == |framed|)
  {
  }

  /**
   * The status and the record one exchange leaves: a transport failure is
   * transient and leaves the record as it is, without the reader seeing
   * anything; otherwise the reader decides, accepting (completed, with the
   * record it wrote) or rejecting (a permanent failure, the record as it is).
   */
  function Conclude<T>(payload: Option<seq<bv8>>, decode: seq<bv8> -> Apdu,
                       read: (Apdu, T) -> Option<T>, tx: T): (r: (Status, T))
  {
    if payload.None? then (TRANSIENT_FAILURE, tx)
    else match read(decode(payload.value), tx)
      case None => (PERM_FAILURE, tx)
      case Some(written) => (COMPLETED, written)
  }

  /** The three statuses of an exchange, by what the transport delivered and what the reader said. */
  lemma ConcludeStatus<T>(payload: Option<seq<bv8>>, decode: seq<bv8> -> Apdu,
                          read: (Apdu, T) -> Option<T>, tx: T)
    ensures var (status, written) := Conclude(payload, decode, read, tx);
      (status == TRANSIENT_FAILURE <==> payload.None?)
      && (status == PERM_FAILURE <==> payload.Some? && read(decode(payload.value), tx).None?)
      && (status == COMPLETED <==> payload.Some? && read(decode(payload.value), tx).Some?)
      && (status == COMPLETED ==> written == read(decode(payload.value), tx).value)
      && (status != COMPLETED ==> written == tx)
  {
  }

  /** The transaction operations of the host that the host switch dispatches to. */
  datatype Operation =
    | SaleOp
    | VoidOp
    | TcUploadOp
    | RefundOp
    | PreAuthOp
    | TipAdjustOp
    | ReversalOp
    | OfflineSaleOp
    | SaleCompletionOp

  /** What the builder of `op` dereferences in `tx` without testing it. */
  predicate CanPerform(op: Operation, tx: DinersTransaction)
  {
    match op
    case VoidOp => VoidMessage.CanBuildVoid(tx)
    case TcUploadOp => tx.pan.Some?
    case TipAdjustOp => tx.pan.Some?
    case ReversalOp => ReversalMessage.CanBuildReversal(tx)
    case OfflineSaleOp => OfflineSaleMessage.CanBuildOfflineSale(tx)
    case _ => true
  }

  /**
   * The record the builder of `op` returns: `tx` with the processing code,
   * and for some operations the original entry mode, recorded on it.
   */
  function Built(op: Operation, tx: DinersTransaction, now: Datetime): (built: DinersTransaction)
    requires CanPerform(op, tx)
  {
    match op
    case SaleOp => SaleMessage.BuildSaleRequest(tx).1
    case VoidOp => VoidMessage.BuildVoidRequest(tx, now).1
    case TcUploadOp => TcUploadMessage.BuildTcUploadRequest(tx).1
    case RefundOp => RefundMessage.BuildRefundRequest(tx).1
    case PreAuthOp => PreAuthMessage.BuildPreAuthRequest(tx).1
    case TipAdjustOp => TipAdjustMessage.BuildTipAdjustRequest(tx, now).1
    case ReversalOp => ReversalMessage.BuildReversalRequest(tx).1
    case OfflineSaleOp => OfflineSaleMessage.BuildOfflineSaleRequest(tx).1
    case SaleCompletionOp => SaleCompletionMessage.BuildSaleCompletionRequest(tx).1
  }

  /** The request the builder of `op` makes from `tx`. */
  function Request(op: Operation, tx: DinersTransaction, now: Datetime): Apdu
    requires CanPerform(op, tx)
  {
    match op
    case SaleOp => SaleMessage.BuildSaleRequest(tx).0
    case VoidOp => VoidMessage.BuildVoidRequest(tx, now).0
    case TcUploadOp => TcUploadMessage.BuildTcUploadRequest(tx).0
    case RefundOp => RefundMessage.BuildRefundRequest(tx).0
    case PreAuthOp => PreAuthMessage.BuildPreAuthRequest(tx).0
    case TipAdjustOp => TipAdjustMessage.BuildTipAdjustRequest(tx, now).0
    case ReversalOp => ReversalMessage.BuildReversalRequest(tx).0
    case OfflineSaleOp => OfflineSaleMessage.BuildOfflineSaleRequest(tx).0
    case SaleCompletionOp => SaleCompletionMessage.BuildSaleCompletionRequest(tx).0
  }

  /** The reader paired with `op`. */
  function Reader(op: Operation): (Apdu, DinersTransaction) -> Option<DinersTransaction>
  {
    match op
    case SaleOp => SaleMessage.ReadSaleResponse
    case VoidOp => VoidMessage.ReadVoidResponse
    case TcUploadOp => TcUploadMessage.ReadTcUploadResponse
    case RefundOp => RefundMessage.ReadRefundResponse
    case PreAuthOp => PreAuthMessage.ReadPreAuthResponse
    case TipAdjustOp => TipAdjustMessage.ReadTipAdjustResponse
    case ReversalOp => ReversalMessage.ReadReversalResponse
    case OfflineSaleOp => OfflineSaleMessage.ReadOfflineSaleResponse
    case SaleCompletionOp => SaleCompletionMessage.ReadSaleCompletionResponse
  }

  /**
   * Every builder changes only the processing code and the original entry
   * mode of the record it is given; the date, RRN, authorisation id,
   * response code and issuer EMV response are the caller's.
   */
  lemma BuiltKeepsResponseFields(op: Operation, tx: DinersTransaction, now: Datetime)
    requires CanPerform(op, tx)
    ensures Built(op, tx, now).(processingCode := tx.processingCode, origPosEntryMode := tx.origPosEntryMode) == tx
  {
    match op
    case SaleOp =>
    case VoidOp =>
    case TcUploadOp =>
    case RefundOp =>
    case PreAuthOp =>
    case TipAdjustOp =>
    case ReversalOp =>
    case OfflineSaleOp =>
    case SaleCompletionOp =>
  }

  /** The Diners host over one communication client, with the ISO 8583 codec it is given. */
  class DinersHost {
    /** The host name the client was last created for. */
    var hostName: string
    /** Every request made of the client, in order. */
    var calls: seq<CommsCall>
    /** The ISO 8583 encoder and decoder of the Diners field table. */
    const encode: Apdu -> seq<bv8>
    const decode: seq<bv8> -> Apdu

    /** A host whose client has no host name yet and has been asked nothing. */
    constructor(encode: Apdu -> seq<bv8>, decode: seq<bv8> -> Apdu)
      ensures hostName == "" && calls == []
      ensures this.encode == encode && this.decode == decode
    {
      hostName := "";
      calls := [];
      this.encode := encode;
      this.decode := decode;
    }

    /** The calls one exchange of `request` makes of the client. */
    function Trace(request: Apdu, tpdu: string, link: Link): seq<CommsCall>
    {
      Transport(AddTpdu(encode(request), tpdu), link).1
    }

    /** The status and record one exchange of `request` leaves. */
    function Exchange<T>(request: Apdu, tpdu: string, read: (Apdu, T) -> Option<T>, tx: T, link: Link): (Status, T)
    {
      Conclude(Transport(AddTpdu(encode(request), tpdu), link).0, decode, read, tx)
    }

    /** The status and record operation `op` on `tx` leaves. */
    function Outcome(op: Operation, tx: DinersTransaction, now: Datetime, link: Link): (Status, DinersTransaction)
      requires CanPerform(op, tx)
    {
      Exchange(Request(op, tx, now), Built(op, tx, now).tpdu, Reader(op), Built(op, tx, now), link)
    }

    /**
     * When an operation does not complete, the record it leaves is the
     * caller's but for the processing code and original entry mode its
     * builder recorded: none of the fields a response writes has changed.
     */
    lemma FailedOperationKeepsRecord(op: Operation, tx: DinersTransaction, now: Datetime, link: Link)
      requires CanPerform(op, tx)
      ensures Outcome(op, tx, now, link).0 != COMPLETED ==>
                Outcome(op, tx, now, link).1.(processingCode := tx.processingCode, origPosEntryMode := tx.origPosEntryMode) == tx
    {
      var request, built := Request(op, tx, now), Built(op, tx, now);
      ConcludeStatus(Transport(AddTpdu(encode(request), built.tpdu), link).0, decode, Reader(op), built);
      BuiltKeepsResponseFields(op, tx, now);
    }

    /** Creates the client for `name` and pre-connects it; true exactly when the client answers OK. */
    method PreConnect(name: string, answer: CommsStatus) returns (ok: bool)
      modifies this
      ensures ok <==> answer == COMMS_OK
      ensures hostName == name && calls == old(calls) + [PreConnectCall(name)]
    {
      hostName := name;
      calls := calls + [PreConnectCall(name)];
      ok := answer == COMMS_OK;
    }

    /** Waits for the connection; true exactly when the client reports it connected. */
    method WaitForConnection(timeout: nat, answer: CommsStatus) returns (ok: bool)
      modifies this`calls
      ensures ok <==> answer == COMMS_CONNECTED
      ensures calls == old(calls) + [WaitConnectedCall(timeout)]
    {
      calls := calls + [WaitConnectedCall(timeout)];
      ok := answer == COMMS_CONNECTED;
    }

    /** Disconnects; true exactly when the client answers OK. */
    method Disconnect(answer: CommsStatus) returns (ok: bool)
      modifies this`calls
      ensures ok <==> answer == COMMS_OK
      ensures calls == old(calls) + [DisconnectCall]
    {
      calls := calls + [DisconnectCall];
      ok := answer == COMMS_OK;
    }

    /**
     * Sends `msg` behind its TPDU. Completed exactly when the client answers
     * OK and sent every framed byte; otherwise the client is disconnected.
     */
    method SendMessage(msg: seq<bv8>, tpdu: string, answer: CommsStatus, bytesSent: nat) returns (status: Status)
      modifies this`calls
      ensures status == COMPLETED || status == TRANSIENT_FAILURE
      ensures status == COMPLETED <==> answer == COMMS_OK && bytesSent == |AddTpdu(msg, tpdu)|
      ensures calls == old(calls) + [SendCall(AddTpdu(msg, tpdu))]
                       + (if status == COMPLETED then [] else [DisconnectCall])
    {
      var framed := AddTpdu(msg, tpdu);
      calls := calls + [SendCall(framed)];
      if answer != COMMS_OK {
        calls := calls + [DisconnectCall];
        return TRANSIENT_FAILURE;
      }
      if bytesSent != |framed| {
        calls := calls + [DisconnectCall];
        return TRANSIENT_FAILURE;
      }
      return COMPLETED;
    }

    /**
     * Receives at most 99999 bytes. Completed exactly when the client answers
     * OK with at least a TPDU's worth of bytes, and then `msg` is what
     * follows the TPDU; otherwise the client is disconnected.
     */
    method ReceiveMessage(answer: CommsStatus, received: seq<bv8>) returns (status: Status, msg: seq<bv8>)
      modifies this`calls
      ensures status == COMPLETED || status == TRANSIENT_FAILURE
      ensures status == COMPLETED <==> answer == COMMS_OK && |received| >= TPDU_SIZE
      ensures status == COMPLETED ==> msg == received[TPDU_SIZE..]
      ensures calls == old(calls) + [ReceiveCall(MAX_BYTES)]
                       + (if status == COMPLETED then [] else [DisconnectCall])
    {
      calls := calls + [ReceiveCall(MAX_BYTES)];
      msg := received;
      if answer != COMMS_OK {
        calls := calls + [DisconnectCall];
        return TRANSIENT_FAILURE, msg;
      }
      if |msg| < TPDU_SIZE {
        calls := calls + [DisconnectCall];
        return TRANSIENT_FAILURE, msg;
      }
      msg := msg[TPDU_SIZE..];
      return COMPLETED, msg;
    }

    /**
     * One online exchange of an already built request: wait for the
     * connection, send, receive, read. The calls it makes are those of
     * `Transport` and its status and record are those of `Conclude`.
     */
    method PerformOnline<T>(request: Apdu, read: (Apdu, T) -> Option<T>, tx: T, tpdu: string, link: Link)
      returns (status: Status, tx': T)
      modifies this`calls
      ensures calls == old(calls) + Trace(request, tpdu, link)
      ensures (status, tx') == Exchange(request, tpdu, read, tx, link)
    {
      var framed := AddTpdu(encode(request), tpdu);
      tx' := tx;
      var connected := WaitForConnection(CONNECT_TIMEOUT, link.waitStatus);
      if !connected {
        var _ := Disconnect(COMMS_OK);
        return TRANSIENT_FAILURE, tx';
      }
      var sent := SendMessage(encode(request), tpdu, link.sendStatus, link.bytesSent);
      if sent != COMPLETED {
        return TRANSIENT_FAILURE, tx';
      }
      var received, payload := ReceiveMessage(link.receiveStatus, link.received);
      if received != COMPLETED {
        return TRANSIENT_FAILURE, tx';
      }
      assert Transport(framed, link).0 == Some(payload);
      var accepted := read(decode(payload), tx);
      if accepted.None? {
        return PERM_FAILURE, tx';
      }
      return COMPLETED, accepted.value;
    }

    /** Sale: the sale request, answered through the sale reader. */
    method AuthorizeSale(tx: DinersTransaction, link: Link) returns (status: Status, tx': DinersTransaction)
      modifies this`calls
      ensures var (request, built) := SaleMessage.BuildSaleRequest(tx);
        calls == old(calls) + Trace(request, built.tpdu, link)
        && (status, tx') == Exchange(request, built.tpdu, SaleMessage.ReadSaleResponse, built, link)
    {
      var (request, built) := SaleMessage.BuildSaleRequest(tx);
      status, tx' := PerformOnline(request, SaleMessage.ReadSaleResponse, built, built.tpdu, link);
    }

    /** Void: the void request stamped with `now`, answered through the void reader. */
    method PerformVoid(tx: DinersTransaction, now: Datetime, link: Link) returns (status: Status, tx': DinersTransaction)
      requires VoidMessage.CanBuildVoid(tx)
      modifies this`calls
      ensures var (request, built) := VoidMessage.BuildVoidRequest(tx, now);
        calls == old(calls) + Trace(request, built.tpdu, link)
        && (status, tx') == Exchange(request, built.tpdu, VoidMessage.ReadVoidResponse, built, link)
    {
      var (request, built) := VoidMessage.BuildVoidRequest(tx, now);
      status, tx' := PerformOnline(request, VoidMessage.ReadVoidResponse, built, built.tpdu, link);
    }

    /** TC upload: the TC upload request, answered through its reader. */
    method PerformTcUpload(tx: DinersTransaction, link: Link) returns (status: Status, tx': DinersTransaction)
      requires tx.pan.Some?
      modifies this`calls
      ensures var (request, built) := TcUploadMessage.BuildTcUploadRequest(tx);
        calls == old(calls) + Trace(request, built.tpdu, link)
        && (status, tx') == Exchange(request, built.tpdu, TcUploadMessage.ReadTcUploadResponse, built, link)
    {
      var (request, built) := TcUploadMessage.BuildTcUploadRequest(tx);
      status, tx' := PerformOnline(request, TcUploadMessage.ReadTcUploadResponse, built, built.tpdu, link);
    }

    /** Master key download: the key download request, answered through its reader. */
    method PerformTmkDownload(tx: DinersTransaction, link: Link) returns (status: Status, tx': DinersTransaction)
      modifies this`calls
      ensures var request := KeyDownloadMessage.BuildKeyDownloadRequest(tx);
        calls == old(calls) + Trace(request, tx.tpdu, link)
        && (status, tx') == Exchange(request, tx.tpdu, KeyDownloadMessage.ReadKeyDownloadResponse, tx, link)
    {
      var request := KeyDownloadMessage.BuildKeyDownloadRequest(tx);
      status, tx' := PerformOnline(request, KeyDownloadMessage.ReadKeyDownloadResponse, tx, tx.tpdu, link);
    }

    /** Refund: the refund request, answered through the refund reader. */
    method AuthorizeRefund(tx: DinersTransaction, link: Link) returns (status: Status, tx': DinersTransaction)
      modifies this`calls
      ensures var (request, built) := RefundMessage.BuildRefundRequest(tx);
        calls == old(calls) + Trace(request, built.tpdu, link)
        && (status, tx') == Exchange(request, built.tpdu, RefundMessage.ReadRefundResponse, built, link)
    {
      var (request, built) := RefundMessage.BuildRefundRequest(tx);
      status, tx' := PerformOnline(request, RefundMessage.ReadRefundResponse, built, built.tpdu, link);
    }

    /** Pre-authorisation: the pre-authorisation request, answered through its reader. */
    method AuthorizePreAuth(tx: DinersTransaction, link: Link) returns (status: Status, tx': DinersTransaction)
      modifies this`calls
      ensures var (request, built) := PreAuthMessage.BuildPreAuthRequest(tx);
        calls == old(calls) + Trace(request, built.tpdu, link)
        && (status, tx') == Exchange(request, built.tpdu, PreAuthMessage.ReadPreAuthResponse, built, link)
    {
      var (request, built) := PreAuthMessage.BuildPreAuthRequest(tx);
      status, tx' := PerformOnline(request, PreAuthMessage.ReadPreAuthResponse, built, built.tpdu, link);
    }

    /** Tip adjustment: the tip adjust request stamped with `now`, answered through its reader. */
    method SendTipAdjust(tx: DinersTransaction, now: Datetime, link: Link) returns (status: Status, tx': DinersTransaction)
      requires tx.pan.Some?
      modifies this`calls
      ensures var (request, built) := TipAdjustMessage.BuildTipAdjustRequest(tx, now);
        calls == old(calls) + Trace(request, built.tpdu, link)
        && (status, tx') == Exchange(request, built.tpdu, TipAdjustMessage.ReadTipAdjustResponse, built, link)
    {
      var (request, built) := TipAdjustMessage.BuildTipAdjustRequest(tx, now);
      status, tx' := PerformOnline(request, TipAdjustMessage.ReadTipAdjustResponse, built, built.tpdu, link);
    }

    /** Reversal: the reversal request, answered through the reversal reader. */
    method SendReversal(tx: DinersTransaction, link: Link) returns (status: Status, tx': DinersTransaction)
      requires ReversalMessage.CanBuildReversal(tx)
      modifies this`calls
      ensures var (request, built) := ReversalMessage.BuildReversalRequest(tx);
        calls == old(calls) + Trace(request, built.tpdu, link)
        && (status, tx') == Exchange(request, built.tpdu, ReversalMessage.ReadReversalResponse, built, link)
    {
      var (request, built) := ReversalMessage.BuildReversalRequest(tx);
      status, tx' := PerformOnline(request, ReversalMessage.ReadReversalResponse, built, built.tpdu, link);
    }

    /** Offline sale: the offline sale request, answered through the offline sale reader. */
    method SendOfflineSale(tx: DinersTransaction, link: Link) returns (status: Status, tx': DinersTransaction)
      requires OfflineSaleMessage.CanBuildOfflineSale(tx)
      modifies this`calls
      ensures var (request, built) := OfflineSaleMessage.BuildOfflineSaleRequest(tx);
        calls == old(calls) + Trace(request, built.tpdu, link)
        && (status, tx') == Exchange(request, built.tpdu, OfflineSaleMessage.ReadOfflineSaleResponse, built, link)
    {
      var (request, built) := OfflineSaleMessage.BuildOfflineSaleRequest(tx);
      status, tx' := PerformOnline(request, OfflineSaleMessage.ReadOfflineSaleResponse, built, built.tpdu, link);
    }

    /** Sale completion: the completion request, answered through the completion reader. */
    method PerformSaleCompletion(tx: DinersTransaction, link: Link) returns (status: Status, tx': DinersTransaction)
      modifies this`calls
      ensures var (request, built) := SaleCompletionMessage.BuildSaleCompletionRequest(tx);
        calls == old(calls) + Trace(request, built.tpdu, link)
        && (status, tx') == Exchange(request, built.tpdu, SaleCompletionMessage.ReadSaleCompletionResponse, built, link)
    {
      var (request, built) := SaleCompletionMessage.BuildSaleCompletionRequest(tx);
      status, tx' := PerformOnline(request, SaleCompletionMessage.ReadSaleCompletionResponse, built, built.tpdu, link);
    }

    /** Echo test: the echo request, answered through the echo reader. */
    method PerformDinersTestTransaction(tx: TestTransaction, link: Link) returns (status: Status, tx': TestTransaction)
      modifies this`calls
      ensures var request := TestTransactionMessage.BuildEchoTestRequest(tx);
        calls == old(calls) + Trace(request, tx.tpdu, link)
        && (status, tx') == Exchange(request, tx.tpdu, TestTransactionMessage.ReadEchoTestResponse, tx, link)
    {
      var request := TestTransactionMessage.BuildEchoTestRequest(tx);
      status, tx' := PerformOnline(request, TestTransactionMessage.ReadEchoTestResponse, tx, tx.tpdu, link);
    }

    /** Settlement: the settlement request for the attempt, answered through the settlement reader. */
    method PerformSettlement(data: DinersSettlementData, afterBatchUpload: bool, link: Link)
      returns (status: Status, data': DinersSettlementData)
      modifies this`calls
      ensures var (request, built) := SettlementMessage.BuildSettlementRequest(data, afterBatchUpload);
        calls == old(calls) + Trace(request, built.tpdu, link)
        && (status, data') == Exchange(request, built.tpdu, SettlementMessage.ReadSettlementResponse, built, link)
    {
      var (request, built) := SettlementMessage.BuildSettlementRequest(data, afterBatchUpload);
      status, data' := PerformOnline(request, SettlementMessage.ReadSettlementResponse, built, built.tpdu, link);
    }

    /** Runs operation `op` through its own builder and reader. */
    method Perform(op: Operation, tx: DinersTransaction, now: Datetime, link: Link) returns (status: Status, tx': DinersTransaction)
      requires CanPerform(op, tx)
      modifies this`calls
      ensures calls == old(calls) + Trace(Request(op, tx, now), Built(op, tx, now).tpdu, link)
      ensures (status, tx') == Outcome(op, tx, now, link)
    {
      match op
      case SaleOp => status, tx' := AuthorizeSale(tx, link);
      case VoidOp => status, tx' := PerformVoid(tx, now, link);
      case TcUploadOp => status, tx' := PerformTcUpload(tx, link);
      case RefundOp => status, tx' := AuthorizeRefund(tx, link);
      case PreAuthOp => status, tx' := AuthorizePreAuth(tx, link);
      case TipAdjustOp => status, tx' := SendTipAdjust(tx, now, link);
      case ReversalOp => status, tx' := SendReversal(tx, link);
      case OfflineSaleOp => status, tx' := SendOfflineSale(tx, link);
      case SaleCompletionOp => status, tx' := PerformSaleCompletion(tx, link);
    }

    /**
     * Batch upload of one transaction under the caller's STAN, answered
     * through the batch upload check, which accepts or rejects without
     * writing to the transaction.
     */
    method PerformBatchUpload(tx: DinersTransaction, batchUploadStan: uint32, link: Link)
      returns (status: Status, tx': DinersTransaction)
      requires tx.pan.Some?
      modifies this`calls
      ensures var (request, built) := BatchUploadMessage.BuildBatchUploadRequest(tx, batchUploadStan);
        calls == old(calls) + Trace(request, built.tpdu, link)
        && (status, tx') == Exchange(request, built.tpdu, BatchUploadCheck, built, link)
    {
      var (request, built) := BatchUploadMessage.BuildBatchUploadRequest(tx, batchUploadStan);
      status, tx' := PerformOnline(request, BatchUploadCheck, built, built.tpdu, link);
    }
  }

  /** The batch upload check as a reader: the transaction, untouched, when the response is accepted. */
  function BatchUploadCheck(response: Apdu, tx: DinersTransaction): (r: Option<DinersTransaction>)
    ensures r.Some? <==> BatchUploadMessage.ReadBatchUploadResponse(response, tx)
    ensures r.Some? ==> r.value == tx
  {
    if BatchUploadMessage.ReadBatchUploadResponse(response, tx) then Some(tx) else None
  }
}
