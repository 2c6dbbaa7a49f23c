/**
 * The host switch: binds the terminal to one acquirer protocol at a time
 * (FDMS BASE24, AMEX direct or Diners direct), dispatches each operation
 * to the bound host, translates the terminal's records to and from the
 * Diners ones and normalises every host's status. The FDMS and AMEX hosts
 * are not part of this model: what they answer is given to each operation.
 */
module HostSwitches {
  import opened Wrappers
  import opened Iso
  import opened Types
  import opened Transactions
  import D = DinersTransactions
  import Diners
  import Messages
  import SettlementMessage
  import BatchUploadMessage

  /** The outcome of an operation, whichever host ran it. */
  datatype Status = COMPLETED | TRANSIENT_FAILURE | PERM_FAILURE

  /** The FDMS host's status; members the switch does not name are `HOST_OTHER_STATUS`. */
  datatype HostStatus = HOST_COMPLETED | HOST_TRANSIENT_FAILURE | HOST_PERM_FAILURE | HOST_OTHER_STATUS

  /** The AMEX host's status; members the switch does not name are `AMEX_OTHER_STATUS`. */
  datatype AmexStatus = AMEX_COMPLETED | AMEX_TRANSIENT_FAILURE | AMEX_PERM_FAILURE | AMEX_OTHER_STATUS

  /** The acquirer protocols; members the switch does not name are `OTHER_PROTOCOL`. */
  datatype HostProtocol = FDMS_BASE24 | AMEX_DIRECT | DINERS_DIRECT | OTHER_PROTOCOL

  /** A configured host: its protocol and the name its communication client connects to. */
  datatype HostDefinition = HostDefinition(hostProtocol: HostProtocol, commsHostName: string)

  /** What the FDMS host answers and leaves in the caller's transaction. */
  datatype FdmsReply = FdmsReply(status: HostStatus, tx: Transaction)

  /** What the FDMS host answers and leaves in the caller's settlement data. */
  datatype FdmsSettlementReply = FdmsSettlementReply(status: HostStatus, data: SettlementData)

  /** What the AMEX host answers, with the fields of its transaction the switch copies back. */
  datatype AmexReply = AmexReply(
    status: AmexStatus, processingCode: string, txDatetime: Datetime, rrn: string,
    authIdResponse: string, responseCode: string, issuerEmvResponse: seq<bv8>)

  /** What the AMEX host answers, with the fields of its settlement data the switch copies back. */
  datatype AmexSettlementReply = AmexSettlementReply(
    status: AmexStatus, processingCode: string, txDatetime: Datetime, rrn: string,
    responseCode: string, stan: uint32, nii: uint32, tid: string)

  /** The FDMS status as the switch's: each named status to its namesake, anything else to a permanent failure. */
  function ConvertStatus(s: HostStatus): (r: Status)
    ensures r == COMPLETED <==> s == HOST_COMPLETED
    ensures r == TRANSIENT_FAILURE <==> s == HOST_TRANSIENT_FAILURE
    ensures r == PERM_FAILURE <==> s == HOST_PERM_FAILURE || s == HOST_OTHER_STATUS
  {
    match s
    case HOST_COMPLETED => COMPLETED
    case HOST_TRANSIENT_FAILURE => TRANSIENT_FAILURE
    case HOST_PERM_FAILURE => PERM_FAILURE
    case _ => PERM_FAILURE
  }

  /** The AMEX status as the switch's: each named status to its namesake, anything else to a permanent failure. */
  function ConvertAmexStatus(s: AmexStatus): (r: Status)
    ensures r == COMPLETED <==> s == AMEX_COMPLETED
    ensures r == TRANSIENT_FAILURE <==> s == AMEX_TRANSIENT_FAILURE
    ensures r == PERM_FAILURE <==> s == AMEX_PERM_FAILURE || s == AMEX_OTHER_STATUS
  {
    match s
    case AMEX_COMPLETED => COMPLETED
    case AMEX_TRANSIENT_FAILURE => TRANSIENT_FAILURE
    case AMEX_PERM_FAILURE => PERM_FAILURE
    case _ => PERM_FAILURE
  }

  /** The Diners status as the switch's, each status to its namesake. */
  function ConvertDinersStatus(s: Diners.Status): (r: Status)
    ensures r == COMPLETED <==> s == Diners.COMPLETED
    ensures r == TRANSIENT_FAILURE <==> s == Diners.TRANSIENT_FAILURE
    ensures r == PERM_FAILURE <==> s == Diners.PERM_FAILURE
  {
    match s
    case COMPLETED => COMPLETED
    case TRANSIENT_FAILURE => TRANSIENT_FAILURE
    case PERM_FAILURE => PERM_FAILURE
  }

  /**
   * The Diners type of a transaction type. REFUND, PREAUTH, AUTHORIZATION
   * and OFFLINE_SALE keep their names and every other type is a SALE,
   * except PREAUTH_COMPLETION_OFFLINE. For that one, host_switch.cpp:192-194
   * assigns `diners::DinersTransactionType::PREAUTH_COMPLETION_OFFLINE`, an
   * enumerator that diners_transaction.h:28-36 does not declare, so the
   * code as written does not compile. `None` is the model's stand-in for
   * that case, not behaviour of the program.
   */
  function ConvertTxToDinersTxType(t: TransactionType): (r: Option<D.DinersTransactionType>)
    ensures r.None? <==> t == PREAUTH_COMPLETION_OFFLINE
    ensures r == Some(D.DinersTransactionType.SALE) <==> t in {SALE, PREAUTH_COMPLETION_ONLINE, OTHER_TYPE}
    ensures r == Some(D.DinersTransactionType.REFUND) <==> t == REFUND
    ensures r == Some(D.DinersTransactionType.PREAUTH) <==> t == TransactionType.PREAUTH
    ensures r == Some(D.DinersTransactionType.AUTHORIZATION) <==> t == AUTHORIZATION
    ensures r == Some(D.DinersTransactionType.OFFLINE_SALE) <==> t == OFFLINE_SALE
  {
    match t
    case REFUND => Some(D.DinersTransactionType.REFUND)
    case PREAUTH => Some(D.DinersTransactionType.PREAUTH)
    case AUTHORIZATION => Some(D.DinersTransactionType.AUTHORIZATION)
    case OFFLINE_SALE => Some(D.DinersTransactionType.OFFLINE_SALE)
    case PREAUTH_COMPLETION_OFFLINE => None
    case _ => Some(D.DinersTransactionType.SALE)
  }

  /**
   * The Diners status of a transaction status: the five statuses both
   * enumerations name keep their names; CANCELLED and every other status
   * become DECLINED.
   */
  function ConvertTxToDinersTxStatus(s: TransactionStatus): (r: D.DinersTransactionStatus)
    ensures r in {D.IN_PROGRESS, D.APPROVED, D.DECLINED, D.NOT_ALLOWED, D.TO_ADVISE}
    ensures r == D.IN_PROGRESS <==> s == IN_PROGRESS
    ensures r == D.APPROVED <==> s == APPROVED
    ensures r == D.NOT_ALLOWED <==> s == NOT_ALLOWED
    ensures r == D.TO_ADVISE <==> s == TO_ADVISE
    ensures r == D.DECLINED <==> s in {DECLINED, CANCELLED, OTHER_STATUS}
  {
    match s
    case IN_PROGRESS => D.IN_PROGRESS
    case APPROVED => D.APPROVED
    case DECLINED => D.DECLINED
    case NOT_ALLOWED => D.NOT_ALLOWED
    case TO_ADVISE => D.TO_ADVISE
    case _ => D.DECLINED
  }

  /**
   * The Diners in-progress status: a void stays a void, a pre-authorisation
   * completion becomes a sale completion, anything else is none.
   */
  function ConvertTxToDinersInProgressStatus(s: InProgressStatus): (r: D.DinersInProgressStatus)
    ensures r == D.IN_PROGRESS_VOID <==> s == IN_PROGRESS_VOID
    ensures r == D.IN_PROGRESS_SALE_COMPLETION <==> s == IN_PROGRESS_PREAUTH_COMPLETION
    ensures r == D.IN_PROGRESS_NONE <==> s in {IN_PROGRESS_NONE, OTHER_IN_PROGRESS}
  {
    match s
    case IN_PROGRESS_NONE => D.IN_PROGRESS_NONE
    case IN_PROGRESS_VOID => D.IN_PROGRESS_VOID
    case IN_PROGRESS_PREAUTH_COMPLETION => D.IN_PROGRESS_SALE_COMPLETION
    case _ => D.IN_PROGRESS_NONE
  }

  /** The transaction types the Diners record can represent. */
  predicate HasDinersType(tx: Transaction)
  {
    tx.transactionType != PREAUTH_COMPLETION_OFFLINE
  }

  /**
   * The Diners record of a transaction: a newly constructed record with the
   * transaction's fields copied in, its enumerations converted and its PIN
   * block set only when there is PIN data. The original entry mode is not
   * copied and stays empty.
   */
  function BuildDinersTransactionFromTransaction(tx: Transaction): (d: D.DinersTransaction)
    requires HasDinersType(tx)
    ensures d.processingCode == tx.processingCode && d.txDatetime == tx.txDatetime && d.rrn == tx.rrn
    ensures d.authIdResponse == tx.authIdResponse && d.responseCode == tx.responseCode
    ensures d.issuerEmvResponse == tx.issuerEmvResponse
    ensures d.pan == tx.pan && d.amount == tx.amount && d.preauthAmount == tx.preauthAmount
    ensures d.additionalAmount == tx.secondaryAmount && d.originalAdditionalAmount == tx.originalSecondaryAmount
    ensures d.iccData == tx.iccData && d.origPosEntryMode == ""
    ensures d.pinBlock.Some? <==> |tx.pinData| > 0
    ensures d.transactionType == ConvertTxToDinersTxType(tx.transactionType).value
    ensures d.previousTransactionStatus == ConvertTxToDinersTxStatus(tx.previousTransactionStatus)
  {
    D.DinersTransaction(
      tx.pan, tx.processingCode, "", tx.amount, tx.preauthAmount, tx.isPreauthCompleted, tx.isAdjusted,
      tx.stan, tx.expirationDate, tx.posEntryMode, tx.panSequenceNumber, tx.nii, tx.posConditionCode,
      tx.track2EquivalentData, tx.tid, tx.mid, tx.cvv,
      if |tx.pinData| > 0 then Some(tx.pinData) else None,
      tx.secondaryAmount, tx.originalSecondaryAmount, tx.iccData, tx.aid,
      ConvertTxToDinersTxType(tx.transactionType).value,
      ConvertTxToDinersTxStatus(tx.transactionStatus),
      ConvertTxToDinersInProgressStatus(tx.inProgressStatus),
      ConvertTxToDinersTxStatus(tx.previousTransactionStatus),
      tx.tpdu, tx.invoiceNum, tx.batchNum, tx.txDatetime, tx.rrn, tx.authIdResponse, tx.responseCode,
      tx.issuerEmvResponse, tx.track1Data, tx.cardHolderName)
  }

  /**
   * Copies back what a Diners operation wrote: the processing code, the
   * timestamp, the RRN, the authorisation id, the response code and the
   * issuer EMV response. No other field of the transaction changes.
   */
  function FillTransactionWithDinersTransactionData(tx: Transaction, d: D.DinersTransaction): (r: Transaction)
    ensures r.processingCode == d.processingCode && r.txDatetime == d.txDatetime && r.rrn == d.rrn
    ensures r.authIdResponse == d.authIdResponse && r.responseCode == d.responseCode
    ensures r.issuerEmvResponse == d.issuerEmvResponse
    ensures r.(processingCode := tx.processingCode, txDatetime := tx.txDatetime, rrn := tx.rrn,
               authIdResponse := tx.authIdResponse, responseCode := tx.responseCode,
               issuerEmvResponse := tx.issuerEmvResponse) == tx
  {
    tx.(processingCode := d.processingCode, txDatetime := d.txDatetime, rrn := d.rrn,
        authIdResponse := d.authIdResponse, responseCode := d.responseCode,
        issuerEmvResponse := d.issuerEmvResponse)
  }

  /** Copying back from the untouched Diners record of a transaction gives the transaction back. */
  lemma FillAfterBuildRestores(tx: Transaction)
    requires HasDinersType(tx)
    ensures FillTransactionWithDinersTransactionData(tx, BuildDinersTransactionFromTransaction(tx)) == tx
  {
    var d := BuildDinersTransactionFromTransaction(tx);
    var r := FillTransactionWithDinersTransactionData(tx, d);
    assert r.processingCode == tx.processingCode && r.txDatetime == tx.txDatetime && r.rrn == tx.rrn;
    assert r.authIdResponse == tx.authIdResponse && r.responseCode == tx.responseCode;
    assert r.issuerEmvResponse == tx.issuerEmvResponse;
  }

  /**
   * A transaction without ICC data keeps none in its Diners record, so the
   * DE 55 guard of the sale, pre-authorisation, reversal and TC-upload
   * builders, as written, dereferences an empty optional for it.
   */
  lemma NoIccDataReachesIccGuard(tx: Transaction)
    requires HasDinersType(tx) && tx.iccData.None?
    ensures Messages.IccGuardAsWritten(BuildDinersTransactionFromTransaction(tx).iccData).None?
    ensures Messages.IccField(BuildDinersTransactionFromTransaction(tx).iccData).None?
  {
  }

  /** Copies back what the AMEX host wrote: the same six fields as on the Diners path. */
  function FillTransactionWithAmexTransactionData(tx: Transaction, a: AmexReply): (r: Transaction)
    ensures r.processingCode == a.processingCode && r.txDatetime == a.txDatetime && r.rrn == a.rrn
    ensures r.authIdResponse == a.authIdResponse && r.responseCode == a.responseCode
    ensures r.issuerEmvResponse == a.issuerEmvResponse
    ensures r.(processingCode := tx.processingCode, txDatetime := tx.txDatetime, rrn := tx.rrn,
               authIdResponse := tx.authIdResponse, responseCode := tx.responseCode,
               issuerEmvResponse := tx.issuerEmvResponse) == tx
  {
    tx.(processingCode := a.processingCode, txDatetime := a.txDatetime, rrn := a.rrn,
        authIdResponse := a.authIdResponse, responseCode := a.responseCode,
        issuerEmvResponse := a.issuerEmvResponse)
  }

  /**
   * The Diners settlement data of a settlement: the terminal's fields and
   * totals copied in and the next invoice number; the processing code,
   * response code and response message start empty.
   */
  function BuildDinersSettlementData(s: SettlementData, invoiceNo: uint32): (d: D.DinersSettlementData)
    ensures d.txDatetime == s.txDatetime && d.rrn == s.rrn && d.stan == s.stan && d.nii == s.nii
    ensures d.tid == s.tid && d.mid == s.mid && d.tpdu == s.tpdu && d.batchNumber == s.batchNumber
    ensures d.batchSummary.salesTotal == s.batchSummary.salesTotal
    ensures d.batchSummary.refundsTotal == s.batchSummary.refundsTotal
    ensures d.processingCode == "" && d.responseCode == "" && d.invoiceNum == invoiceNo
  {
    D.DinersSettlementData(
      "", s.stan, s.txDatetime, s.tpdu, s.nii, s.tid, s.mid, s.rrn, "", s.batchNumber,
      D.BatchTotalsForDinersHost(
        s.batchSummary.currency,
        D.BatchTotalValue(s.batchSummary.salesTotal.count, s.batchSummary.salesTotal.total),
        D.BatchTotalValue(s.batchSummary.refundsTotal.count, s.batchSummary.refundsTotal.total)),
      "", invoiceNo)
  }

  /**
   * Copies back the processing code, timestamp, RRN, response code, STAN,
   * NII and terminal id of the Diners settlement data; nothing else changes.
   */
  function FillSettlementDataWithDinersSettlementData(s: SettlementData, d: D.DinersSettlementData): (r: SettlementData)
    ensures r.processingCode == d.processingCode && r.txDatetime == d.txDatetime && r.rrn == d.rrn
    ensures r.responseCode == d.responseCode && r.stan == d.stan && r.nii == d.nii && r.tid == d.tid
    ensures r.batchNumber == s.batchNumber && r.tpdu == s.tpdu && r.mid == s.mid && r.batchSummary == s.batchSummary
  {
    s.(processingCode := d.processingCode, txDatetime := d.txDatetime, rrn := d.rrn,
       responseCode := d.responseCode, stan := d.stan, nii := d.nii, tid := d.tid)
  }

  /** Copies back the same seven fields from what the AMEX host answered. */
  function FillSettlementDataWithAmexSettlementData(s: SettlementData, a: AmexSettlementReply): (r: SettlementData)
    ensures r.processingCode == a.processingCode && r.txDatetime == a.txDatetime && r.rrn == a.rrn
    ensures r.responseCode == a.responseCode && r.stan == a.stan && r.nii == a.nii && r.tid == a.tid
    ensures r.batchNumber == s.batchNumber && r.tpdu == s.tpdu && r.mid == s.mid && r.batchSummary == s.batchSummary
  {
    s.(processingCode := a.processingCode, txDatetime := a.txDatetime, rrn := a.rrn,
       responseCode := a.responseCode, stan := a.stan, nii := a.nii, tid := a.tid)
  }

  /**
   * The number of uploads a batch upload makes when its uploads would end
   * with `statuses`: it goes on while they complete and stops after the
   * first that does not.
   */
  function Attempts<S(==)>(statuses: seq<S>, done: S): (k: nat)
    requires |statuses| > 0
    ensures 1 <= k <= |statuses|
    ensures forall i | 0 <= i < k - 1 :: statuses[i] == done
    ensures k < |statuses| ==> statuses[k - 1] != done
    decreases |statuses|
  {
    if |statuses| == 1 || statuses[0] != done then 1 else 1 + Attempts(statuses[1..], done)
  }

  /** The attempts a batch upload makes are determined by where its first failure is. */
  lemma {:induction false} AttemptsUnique<S>(statuses: seq<S>, done: S, k: nat)
    requires 1 <= k <= |statuses|
    requires forall i | 0 <= i < k - 1 :: statuses[i] == done
    requires k < |statuses| ==> statuses[k - 1] != done
    ensures Attempts(statuses, done) == k
    decreases k
  {
    if k > 1 {
      assert statuses[0] == done;
      AttemptsUnique(statuses[1..], done, k - 1);
    }
  }

  /** The last upload attempted completes exactly when every upload of the batch completes. */
  lemma AllCompletedIff<S>(statuses: seq<S>, done: S)
    requires |statuses| > 0
    ensures statuses[Attempts(statuses, done) - 1] == done <==> forall i | 0 <= i < |statuses| :: statuses[i] == done
  {
  }

  /** The first `n` values of `f`, in order. */
  function Sequence<T>(f: nat -> T, n: nat): (r: seq<T>)
    ensures |r| == n
    ensures forall j | 0 <= j < n :: r[j] == f(j)
  {
    if n == 0 then [] else Sequence(f, n - 1) + [f(n - 1)]
  }

  /** The first `n` sequences `f` gives, one after the other. */
  function Flatten<T>(f: nat -> seq<T>, n: nat): seq<T>
  {
    if n == 0 then [] else Flatten(f, n - 1) + f(n - 1)
  }

  /** The operations of the switch that run a transaction through the bound host. */
  datatype Action =
    | AuthorizeSale
    | AuthorizeSaleWithDccEnquiry
    | AuthorizeSaleWithDccAllowed
    | AuthorizeQuasiCash
    | PerformTcUpload
    | PerformVoid
    | SendReversal
    | AuthorizeRefund
    | PerformOfflineSale
    | PerformOfflineWithDccEnquiry
    | PerformOfflineWithDccAllowed
    | AuthorizePreAuth
    | AuthorizePreAuthWithDccEnquiry
    | AuthorizePreAuthWithDccAllowed
    | PerformTipAdjust
    | AuthorizePreAuthCompletion
    | AuthorizePreAuthCompletionWithDccEnquiry
    | AuthorizePreAuthCompletionWithDccAllowed

  /**
   * The Diners operation each switch operation is bound to: the DCC and
   * quasi-cash variants of a sale run the sale, the DCC variants of an
   * offline sale run the offline sale, and a pre-authorisation completion
   * in every variant runs the sale completion.
   */
  function DinersOperationOf(a: Action): (op: Diners.Operation)
    ensures op == Diners.SaleOp <==> a in {AuthorizeSale, AuthorizeSaleWithDccEnquiry, AuthorizeSaleWithDccAllowed, AuthorizeQuasiCash}
    ensures op == Diners.OfflineSaleOp <==> a in {PerformOfflineSale, PerformOfflineWithDccEnquiry, PerformOfflineWithDccAllowed}
    ensures op == Diners.PreAuthOp <==> a in {AuthorizePreAuth, AuthorizePreAuthWithDccEnquiry, AuthorizePreAuthWithDccAllowed}
    ensures op == Diners.SaleCompletionOp <==>
              a in {AuthorizePreAuthCompletion, AuthorizePreAuthCompletionWithDccEnquiry, AuthorizePreAuthCompletionWithDccAllowed}
  {
    match a
    case AuthorizeSale => Diners.SaleOp
    case AuthorizeSaleWithDccEnquiry => Diners.SaleOp
    case AuthorizeSaleWithDccAllowed => Diners.SaleOp
    case AuthorizeQuasiCash => Diners.SaleOp
    case PerformTcUpload => Diners.TcUploadOp
    case PerformVoid => Diners.VoidOp
    case SendReversal => Diners.ReversalOp
    case AuthorizeRefund => Diners.RefundOp
    case PerformOfflineSale => Diners.OfflineSaleOp
    case PerformOfflineWithDccEnquiry => Diners.OfflineSaleOp
    case PerformOfflineWithDccAllowed => Diners.OfflineSaleOp
    case AuthorizePreAuth => Diners.PreAuthOp
    case AuthorizePreAuthWithDccEnquiry => Diners.PreAuthOp
    case AuthorizePreAuthWithDccAllowed => Diners.PreAuthOp
    case PerformTipAdjust => Diners.TipAdjustOp
    case AuthorizePreAuthCompletion => Diners.SaleCompletionOp
    case AuthorizePreAuthCompletionWithDccEnquiry => Diners.SaleCompletionOp
    case AuthorizePreAuthCompletionWithDccAllowed => Diners.SaleCompletionOp
  }

  /** What a bound host answered to a connection request: the foreign host's answer, the Diners one, or `other`. */
  function HostAnswer(p: HostProtocol, foreignOk: bool, dinersOk: bool, other: bool): bool
  {
    match p
    case FDMS_BASE24 => foreignOk
    case AMEX_DIRECT => foreignOk
    case DINERS_DIRECT => dinersOk
    case OTHER_PROTOCOL => other
  }

  /** The transaction can be run as Diners operation `op`. */
  predicate DinersReady(op: Diners.Operation, tx: Transaction)
  {
    HasDinersType(tx) && Diners.CanPerform(op, BuildDinersTransactionFromTransaction(tx))
  }

  /** Every transaction of the batch has a Diners record. */
  predicate DinersBatchReady(list: seq<Transaction>)
  {
    forall i | 0 <= i < |list| :: HasDinersType(list[i])
  }

  /** The records of a batch come with a STAN and a link each. */
  predicate BatchArgs(items: seq<D.DinersTransaction>, stans: seq<uint32>, links: seq<Diners.Link>)
  {
    |stans| == |items| && |links| == |items|
  }

  /** The Diners records of a batch, in order. */
  function TranslateBatch(list: seq<Transaction>): (items: seq<D.DinersTransaction>)
    requires DinersBatchReady(list)
    ensures |items| == |list|
    ensures forall i | 0 <= i < |list| :: items[i] == BuildDinersTransactionFromTransaction(list[i])
  {
    seq(|list|, i requires 0 <= i < |list| && DinersBatchReady(list) => BuildDinersTransactionFromTransaction(list[i]))
  }

  /**
   * Every record a batch upload ending with `statuses` sends, up to and
   * including the first that does not complete, has the card number its
   * upload message reads; the records after it are never sent.
   */
  predicate ReachedCarded(items: seq<D.DinersTransaction>, statuses: seq<Diners.Status>)
    requires 0 < |statuses| == |items|
  {
    forall i | 0 <= i < Attempts(statuses, Diners.COMPLETED) :: items[i].pan.Some?
  }

  /** A batch whose first upload fails sends only its first record, whatever the others hold. */
  lemma FirstFailureReachesOnlyFirst(items: seq<D.DinersTransaction>, statuses: seq<Diners.Status>)
    requires 0 < |statuses| == |items| && statuses[0] != Diners.COMPLETED
    ensures ReachedCarded(items, statuses) <==> items[0].pan.Some?
  {
  }

  /** A batch whose records all have a card number can be sent, whatever the uploads answer. */
  lemma AllCardedReached(items: seq<D.DinersTransaction>, statuses: seq<Diners.Status>)
    requires 0 < |statuses| == |items|
    requires forall i | 0 <= i < |items| :: items[i].pan.Some?
    ensures ReachedCarded(items, statuses)
  {
  }

  /** Every record reached after only completed uploads, as `statusOf` gives them, has a card number. */
  predicate CardedWhileCompleted(items: seq<D.DinersTransaction>, statusOf: nat -> Diners.Status)
  {
    forall k | 0 <= k < |items| && (forall j | 0 <= j < k :: statusOf(j) == Diners.COMPLETED) :: items[k].pan.Some?
  }

  /** The records a batch upload reaches are those after only completed uploads. */
  lemma ReachedCardedWhileCompleted(items: seq<D.DinersTransaction>, statusOf: nat -> Diners.Status)
    requires 0 < |items| && ReachedCarded(items, Sequence(statusOf, |items|))
    ensures CardedWhileCompleted(items, statusOf)
  {
    var statuses := Sequence(statusOf, |items|);
    forall k | 0 <= k < |items| && (forall j | 0 <= j < k :: statusOf(j) == Diners.COMPLETED)
      ensures items[k].pan.Some?
    {
      assert forall j | 0 <= j < k :: statuses[j] == Diners.COMPLETED;
      assert k < Attempts(statuses, Diners.COMPLETED);
    }
  }

  /** The host switch, with the Diners host it owns. */
  class HostSwitch {
    /** The protocol of the host the switch is bound to, if any. */
    var current: Option<HostProtocol>
    /** The Diners host. */
    const diners: Diners.DinersHost

    /** The switch is never left bound to a protocol it cannot dispatch to. */
    predicate Valid()
      reads this
    {
      current != Some(OTHER_PROTOCOL)
    }

    /** A switch bound to no host. */
    constructor(diners: Diners.DinersHost)
      ensures current == None && this.diners == diners
      ensures Valid()
    {
      current := None;
      this.diners := diners;
    }

    /** The status and transaction an operation leaves when the switch is bound to `protocol`. */
    function ActionOutcome(protocol: Option<HostProtocol>, op: Diners.Operation, tx: Transaction, now: Datetime,
                           fdms: FdmsReply, amex: AmexReply, link: Diners.Link): (Status, Transaction)
      requires protocol == Some(DINERS_DIRECT) ==> DinersReady(op, tx)
    {
      match protocol
      case None => (PERM_FAILURE, tx)
      case Some(FDMS_BASE24) => (ConvertStatus(fdms.status), fdms.tx)
      case Some(AMEX_DIRECT) => (ConvertAmexStatus(amex.status), FillTransactionWithAmexTransactionData(tx, amex))
      case Some(DINERS_DIRECT) =>
        var (status, written) := diners.Outcome(op, BuildDinersTransactionFromTransaction(tx), now, link);
        (ConvertDinersStatus(status), FillTransactionWithDinersTransactionData(tx, written))
      case Some(OTHER_PROTOCOL) => (PERM_FAILURE, tx)
    }

    /** With no host bound an operation fails permanently and leaves the transaction alone. */
    lemma UnboundFailsClosed(op: Diners.Operation, tx: Transaction, now: Datetime,
                             fdms: FdmsReply, amex: AmexReply, link: Diners.Link)
      ensures ActionOutcome(None, op, tx, now, fdms, amex, link) == (PERM_FAILURE, tx)
    {
    }

    /**
     * On the Diners path only the six copied-back fields of the transaction
     * can change, and when the operation does not complete only the
     * processing code its builder recorded does.
     */
    lemma DinersPathWritesSixFields(op: Diners.Operation, tx: Transaction, now: Datetime,
                                    fdms: FdmsReply, amex: AmexReply, link: Diners.Link)
      requires DinersReady(op, tx)
      ensures var (status, tx') := ActionOutcome(Some(DINERS_DIRECT), op, tx, now, fdms, amex, link);
        tx'.(processingCode := tx.processingCode, txDatetime := tx.txDatetime, rrn := tx.rrn,
             authIdResponse := tx.authIdResponse, responseCode := tx.responseCode,
             issuerEmvResponse := tx.issuerEmvResponse) == tx
        && (status != COMPLETED ==> tx' == tx.(processingCode := tx'.processingCode))
    {
      var d := BuildDinersTransactionFromTransaction(tx);
      diners.FailedOperationKeepsRecord(op, d, now, link);
    }

    /**
     * Creates the configured host's client and pre-connects it. An unknown
     * host index leaves the binding as it is; otherwise the switch is bound
     * to the configured protocol exactly when its host pre-connected, which
     * a protocol the switch does not dispatch to never does.
     */
    method PreConnect(hostConfig: Option<HostDefinition>, foreignOk: bool, dinersAnswer: Diners.CommsStatus)
      returns (ok: bool)
      modifies this, diners
      ensures hostConfig.None? ==> !ok && current == old(current)
      ensures hostConfig.Some? ==>
                (ok <==> HostAnswer(hostConfig.value.hostProtocol, foreignOk, dinersAnswer == Diners.COMMS_OK, false))
                && current == (if ok then Some(hostConfig.value.hostProtocol) else None)
      ensures if hostConfig.Some? && hostConfig.value.hostProtocol == DINERS_DIRECT
              then diners.calls == old(diners.calls) + [Diners.PreConnectCall(hostConfig.value.commsHostName)]
                   && diners.hostName == hostConfig.value.commsHostName
              else diners.calls == old(diners.calls) && diners.hostName == old(diners.hostName)
      ensures old(Valid()) ==> Valid()
      ensures hostConfig.Some? ==> Valid()
    {
      if hostConfig.None? {
        return false;
      }
      ok := false;
      current := Some(hostConfig.value.hostProtocol);
      if current == Some(FDMS_BASE24) {
        ok := foreignOk;
      } else if current == Some(AMEX_DIRECT) {
        ok := foreignOk;
      } else if current == Some(DINERS_DIRECT) {
        ok := diners.PreConnect(hostConfig.value.commsHostName, dinersAnswer);
      }
      if !ok {
        current := None;
      }
    }

    /**
     * Waits 30000 ms for the bound host's connection. With nothing bound the
     * answer is false; a failed wait clears the binding.
     */
    method WaitForConnection(foreignOk: bool, dinersAnswer: Diners.CommsStatus) returns (ok: bool)
      modifies this, diners`calls
      ensures old(current).None? ==> !ok
      ensures old(current).Some? ==>
                ok == HostAnswer(old(current).value, foreignOk, dinersAnswer == Diners.COMMS_CONNECTED, true)
      ensures current == (if ok then old(current) else None)
      ensures diners.calls == old(diners.calls)
                              + (if old(current) == Some(DINERS_DIRECT) then [Diners.WaitConnectedCall(Diners.CONNECT_TIMEOUT)] else [])
      ensures old(Valid()) ==> Valid()
    {
      if current.None? {
        return false;
      }
      ok := true;
      if current == Some(FDMS_BASE24) {
        ok := foreignOk;
      } else if current == Some(AMEX_DIRECT) {
        ok := foreignOk;
      } else if current == Some(DINERS_DIRECT) {
        ok := diners.WaitForConnection(Diners.CONNECT_TIMEOUT, dinersAnswer);
      }
      if !ok {
        current := None;
      }
    }

    /** Disconnects the bound host, if any, and always ends unbound; true when nothing was bound. */
    method Disconnect(foreignOk: bool, dinersAnswer: Diners.CommsStatus) returns (ok: bool)
      modifies this, diners`calls
      ensures old(current).None? ==> ok
      ensures old(current).Some? ==> ok == HostAnswer(old(current).value, foreignOk, dinersAnswer == Diners.COMMS_OK, true)
      ensures current == None && Valid()
      ensures diners.calls == old(diners.calls) + (if old(current) == Some(DINERS_DIRECT) then [Diners.DisconnectCall] else [])
    {
      if current.None? {
        return true;
      }
      ok := true;
      if current == Some(FDMS_BASE24) {
        ok := foreignOk;
      } else if current == Some(AMEX_DIRECT) {
        ok := foreignOk;
      } else if current == Some(DINERS_DIRECT) {
        ok := diners.Disconnect(dinersAnswer);
      }
      current := None;
    }

    /**
     * Runs an operation on the bound host. With nothing bound it fails
     * permanently and calls no host. The FDMS host works on the transaction
     * itself; the AMEX and Diners hosts work on a translated record whose
     * six response fields are copied back. A binding the switch cannot
     * dispatch to is cleared.
     */
    method PerformActionWithTx(op: Diners.Operation, tx: Transaction, now: Datetime,
                               fdms: FdmsReply, amex: AmexReply, link: Diners.Link)
      returns (status: Status, tx': Transaction)
      requires current == Some(DINERS_DIRECT) ==> DinersReady(op, tx)
      modifies this, diners`calls
      ensures (status, tx') == ActionOutcome(old(current), op, tx, now, fdms, amex, link)
      ensures current == (if old(current) == Some(OTHER_PROTOCOL) then None else old(current))
      ensures if old(current) == Some(DINERS_DIRECT)
              then var d := BuildDinersTransactionFromTransaction(tx);
                diners.calls == old(diners.calls)
                                + diners.Trace(Diners.Request(op, d, now), Diners.Built(op, d, now).tpdu, link)
              else diners.calls == old(diners.calls)
    {
      if current.None? {
        return PERM_FAILURE, tx;
      }
      if current == Some(FDMS_BASE24) {
        return ConvertStatus(fdms.status), fdms.tx;
      } else if current == Some(AMEX_DIRECT) {
        tx' := FillTransactionWithAmexTransactionData(tx, amex);
        return ConvertAmexStatus(amex.status), tx';
      } else if current == Some(DINERS_DIRECT) {
        var d := BuildDinersTransactionFromTransaction(tx);
        var dinersStatus, written := diners.Perform(op, d, now, link);
        tx' := FillTransactionWithDinersTransactionData(tx, written);
        return ConvertDinersStatus(dinersStatus), tx';
      }
      current := None;
      return PERM_FAILURE, tx;
    }

    /** Runs switch operation `a`: the Diners operation it is bound to, or the bound foreign host. */
    method Perform(a: Action, tx: Transaction, now: Datetime, fdms: FdmsReply, amex: AmexReply, link: Diners.Link)
      returns (status: Status, tx': Transaction)
      requires current == Some(DINERS_DIRECT) ==> DinersReady(DinersOperationOf(a), tx)
      modifies this, diners`calls
      ensures (status, tx') == ActionOutcome(old(current), DinersOperationOf(a), tx, now, fdms, amex, link)
      ensures current == (if old(current) == Some(OTHER_PROTOCOL) then None else old(current))
      ensures if old(current) == Some(DINERS_DIRECT)
              then var op, d := DinersOperationOf(a), BuildDinersTransactionFromTransaction(tx);
                diners.calls == old(diners.calls)
                                + diners.Trace(Diners.Request(op, d, now), Diners.Built(op, d, now).tpdu, link)
              else diners.calls == old(diners.calls)
    {
      status, tx' := PerformActionWithTx(DinersOperationOf(a), tx, now, fdms, amex, link);
    }

    /**
     * The operations only the FDMS host offers (master key download,
     * pre-authorisation cancellation, instalment sale, key exchange and
     * FDMS settlement): a permanent failure unless FDMS is bound.
     */
    method PerformFdmsOnly(fdmsStatus: HostStatus) returns (status: Status)
      ensures status == (if current == Some(FDMS_BASE24) then ConvertStatus(fdmsStatus) else PERM_FAILURE)
    {
      if current.None? || current.value != FDMS_BASE24 {
        return PERM_FAILURE;
      }
      return ConvertStatus(fdmsStatus);
    }

    /** The status and settlement data a Diners settlement leaves. */
    function DinersSettlement(s: SettlementData, afterBatchUpload: bool, invoiceNo: uint32, link: Diners.Link)
      : (Status, SettlementData)
    {
      var (request, built) := SettlementMessage.BuildSettlementRequest(BuildDinersSettlementData(s, invoiceNo), afterBatchUpload);
      var (status, written) := diners.Exchange(request, built.tpdu, SettlementMessage.ReadSettlementResponse, built, link);
      (ConvertDinersStatus(status), FillSettlementDataWithDinersSettlementData(s, written))
    }

    /**
     * After a Diners settlement the caller's data carries the settlement's
     * processing code, whatever the outcome. When the settlement does not
     * complete, its response code is cleared and its timestamp, RRN, STAN,
     * NII and terminal id are as they were.
     */
    lemma DinersSettlementRecordsProcessingCode(s: SettlementData, afterBatchUpload: bool, invoiceNo: uint32, link: Diners.Link)
      ensures var (status, s') := DinersSettlement(s, afterBatchUpload, invoiceNo, link);
        s'.processingCode == SettlementMessage.SettlementProcessingCode(afterBatchUpload)
        && (status != COMPLETED ==> s' == s.(processingCode := s'.processingCode, responseCode := ""))
    {
      var (request, built) := SettlementMessage.BuildSettlementRequest(BuildDinersSettlementData(s, invoiceNo), afterBatchUpload);
      Diners.ConcludeStatus(Diners.Transport(Diners.AddTpdu(diners.encode(request), built.tpdu), link).0,
                            diners.decode, SettlementMessage.ReadSettlementResponse, built);
    }

    /**
     * Settles with the bound host. With nothing bound, or a protocol the
     * switch does not dispatch to, it fails permanently and leaves the data
     * alone. The AMEX and Diners hosts work on translated data whose seven
     * response fields are copied back.
     */
    method PerformSettlement(s: SettlementData, afterBatchUpload: bool, fdms: FdmsSettlementReply,
                             amex: AmexSettlementReply, invoiceNo: uint32, link: Diners.Link)
      returns (status: Status, s': SettlementData)
      modifies diners`calls
      ensures current.None? || current == Some(OTHER_PROTOCOL) ==> (status, s') == (PERM_FAILURE, s)
      ensures current == Some(FDMS_BASE24) ==> (status, s') == (ConvertStatus(fdms.status), fdms.data)
      ensures current == Some(AMEX_DIRECT) ==>
                (status, s') == (ConvertAmexStatus(amex.status), FillSettlementDataWithAmexSettlementData(s, amex))
      ensures current == Some(DINERS_DIRECT) ==> (status, s') == DinersSettlement(s, afterBatchUpload, invoiceNo, link)
      ensures current == Some(DINERS_DIRECT) ==>
                var (request, built) := SettlementMessage.BuildSettlementRequest(BuildDinersSettlementData(s, invoiceNo), afterBatchUpload);
                diners.calls == old(diners.calls) + diners.Trace(request, built.tpdu, link)
      ensures current != Some(DINERS_DIRECT) ==> diners.calls == old(diners.calls)
    {
      status, s' := PERM_FAILURE, s;
      if current.None? {
        return;
      }
      if current == Some(FDMS_BASE24) {
        status, s' := ConvertStatus(fdms.status), fdms.data;
      } else if current == Some(AMEX_DIRECT) {
        status, s' := ConvertAmexStatus(amex.status), FillSettlementDataWithAmexSettlementData(s, amex);
      } else if current == Some(DINERS_DIRECT) {
        var d := BuildDinersSettlementData(s, invoiceNo);
        var dinersStatus, written := diners.PerformSettlement(d, afterBatchUpload, link);
        s' := FillSettlementDataWithDinersSettlementData(s, written);
        return ConvertDinersStatus(dinersStatus), s';
      }
    }

    /** The echo-test record the switch sends to the Diners host for a test transaction. */
    static function DinersTestTransaction(t: TestTransaction): (d: D.TestTransaction)
      ensures d.processingCode == "990000"
      ensures d.tpdu == t.tpdu && d.nii == t.nii && d.tid == t.tid && d.mid == t.mid
    {
      D.TestTransaction("990000", t.tpdu, t.nii, t.tid, t.mid, EPOCH)
    }

    /**
     * A test transaction: run by the FDMS host, or as a Diners echo test
     * with processing code 990000; a permanent failure with nothing bound
     * or AMEX bound. Nothing is copied back to the caller's record.
     */
    method PerformFdmsTestTransaction(t: TestTransaction, fdmsStatus: HostStatus, link: Diners.Link)
      returns (status: Status)
      modifies diners`calls
      ensures current == Some(FDMS_BASE24) ==> status == ConvertStatus(fdmsStatus)
      ensures current == Some(DINERS_DIRECT) ==>
                var d := DinersTestTransaction(t);
                status == ConvertDinersStatus(
                  diners.Exchange(Diners.TestTransactionMessage.BuildEchoTestRequest(d), d.tpdu,
                                  Diners.TestTransactionMessage.ReadEchoTestResponse, d, link).0)
      ensures current == Some(DINERS_DIRECT) ==>
                var d := DinersTestTransaction(t);
                diners.calls == old(diners.calls) + diners.Trace(Diners.TestTransactionMessage.BuildEchoTestRequest(d), d.tpdu, link)
      ensures current != Some(FDMS_BASE24) && current != Some(DINERS_DIRECT) ==> status == PERM_FAILURE
      ensures current != Some(DINERS_DIRECT) ==> diners.calls == old(diners.calls)
    {
      if current.None? {
        return PERM_FAILURE;
      } else if current == Some(FDMS_BASE24) {
        return ConvertStatus(fdmsStatus);
      } else if current == Some(DINERS_DIRECT) {
        var d := DinersTestTransaction(t);
        var dinersStatus, echoed := diners.PerformDinersTestTransaction(d, link);
        return ConvertDinersStatus(dinersStatus);
      }
      return PERM_FAILURE;
    }

    /** The status the Diners upload of record `i` of the batch ends with, under STAN `stans[i]`. */
    function UploadStatus(items: seq<D.DinersTransaction>, stans: seq<uint32>, links: seq<Diners.Link>, i: nat): Diners.Status
      requires BatchArgs(items, stans, links) && i < |items| && items[i].pan.Some?
    {
      var (request, built) := BatchUploadMessage.BuildBatchUploadRequest(items[i], stans[i]);
      diners.Exchange(request, built.tpdu, Diners.BatchUploadCheck, built, links[i]).0
    }

    /** The calls the Diners upload of record `i` of the batch makes of the client. */
    function UploadStep(items: seq<D.DinersTransaction>, stans: seq<uint32>, links: seq<Diners.Link>, i: nat)
      : seq<Diners.CommsCall>
      requires BatchArgs(items, stans, links) && i < |items| && items[i].pan.Some?
    {
      var (request, built) := BatchUploadMessage.BuildBatchUploadRequest(items[i], stans[i]);
      diners.Trace(request, built.tpdu, links[i])
    }

    /**
     * The status of each upload of the batch, by position. A record without
     * a card number cannot be sent; it gets a placeholder, which a batch
     * satisfying `ReachedCarded` never consults.
     */
    function StatusOf(items: seq<D.DinersTransaction>, stans: seq<uint32>, links: seq<Diners.Link>): nat -> Diners.Status
      requires BatchArgs(items, stans, links)
    {
      (i: nat) => if i < |items| && items[i].pan.Some? then UploadStatus(items, stans, links, i) else Diners.PERM_FAILURE
    }

    /** The calls of each upload of the batch, by position, with the same placeholder as `StatusOf`. */
    function StepOf(items: seq<D.DinersTransaction>, stans: seq<uint32>, links: seq<Diners.Link>): nat -> seq<Diners.CommsCall>
      requires BatchArgs(items, stans, links)
    {
      (i: nat) => if i < |items| && items[i].pan.Some? then UploadStep(items, stans, links, i) else []
    }

    /** `statusOf` and `stepOf` give the status and the calls of each upload of the batch. */
    predicate Describes(items: seq<D.DinersTransaction>, stans: seq<uint32>, links: seq<Diners.Link>,
                        statusOf: nat -> Diners.Status, stepOf: nat -> seq<Diners.CommsCall>)
      requires BatchArgs(items, stans, links)
    {
      forall i {:trigger UploadStatus(items, stans, links, i)} | 0 <= i < |items| && items[i].pan.Some? ::
        statusOf(i) == UploadStatus(items, stans, links, i) && stepOf(i) == UploadStep(items, stans, links, i)
    }

    /** Uploads record `i` of the batch to the Diners host under STAN `stans[i]`. */
    method UploadItem(items: seq<D.DinersTransaction>, stans: seq<uint32>, links: seq<Diners.Link>, i: nat,
                      ghost statusOf: nat -> Diners.Status, ghost stepOf: nat -> seq<Diners.CommsCall>)
      returns (status: Diners.Status)
      requires BatchArgs(items, stans, links) && i < |items| && items[i].pan.Some?
      requires Describes(items, stans, links, statusOf, stepOf)
      modifies diners`calls
      ensures status == statusOf(i)
      ensures diners.calls == old(diners.calls) + stepOf(i)
    {
      var uploaded;
      status, uploaded := diners.PerformBatchUpload(items[i], stans[i], links[i]);
      assert status == UploadStatus(items, stans, links, i);
    }

    /**
     * Uploads the records of the batch to the Diners host, one after the
     * other, each under its own STAN, stopping after the first upload that
     * does not complete.
     */
    method UploadBatch(items: seq<D.DinersTransaction>, stans: seq<uint32>, links: seq<Diners.Link>,
                       ghost statusOf: nat -> Diners.Status, ghost stepOf: nat -> seq<Diners.CommsCall>)
      returns (status: Diners.Status, attempts: nat)
      requires |items| > 0 && BatchArgs(items, stans, links) && Describes(items, stans, links, statusOf, stepOf)
      requires CardedWhileCompleted(items, statusOf)
      modifies diners`calls
      ensures attempts == Attempts(Sequence(statusOf, |items|), Diners.COMPLETED)
      ensures status == statusOf(attempts - 1)
      ensures diners.calls == old(diners.calls) + Flatten(stepOf, attempts)
    {
      var k := 0;
      status := Diners.PERM_FAILURE;
      while k < |items|
        invariant 0 <= k <= |items|
        invariant forall j | 0 <= j < k :: statusOf(j) == Diners.COMPLETED
        invariant k > 0 ==> status == statusOf(k - 1)
        invariant diners.calls == old(diners.calls) + Flatten(stepOf, k)
      {
        status := UploadItem(items, stans, links, k, statusOf, stepOf);
        k := k + 1;
        if status != Diners.COMPLETED {
          break;
        }
      }
      attempts := k;
      AttemptsUnique(Sequence(statusOf, |items|), Diners.COMPLETED, attempts);
    }

    /**
     * The batch can go to the Diners host: every transaction has a Diners
     * record, each upload has a STAN and a link, and every record the upload
     * reaches has a card number.
     */
    predicate DinersBatchUploadable(list: seq<Transaction>, stans: seq<uint32>, links: seq<Diners.Link>)
    {
      0 < |list| && DinersBatchReady(list) && |stans| == |list| && |links| == |list|
      && var items := TranslateBatch(list);
         ReachedCarded(items, Sequence(StatusOf(items, stans, links), |list|))
    }

    /**
     * The Diners batch upload: translates every transaction of the batch to
     * its Diners record, then uploads the records in order, each under the
     * next STAN, until one does not complete; the result is the status of
     * the last upload made.
     */
    method PerformDinersBatchUpload(list: seq<Transaction>, stans: seq<uint32>, links: seq<Diners.Link>)
      returns (status: Status, attempts: nat)
      requires DinersBatchUploadable(list, stans, links)
      modifies diners`calls
      ensures var items := TranslateBatch(list);
        attempts == Attempts(Sequence(StatusOf(items, stans, links), |list|), Diners.COMPLETED)
        && status == ConvertDinersStatus(StatusOf(items, stans, links)(attempts - 1))
        && diners.calls == old(diners.calls) + Flatten(StepOf(items, stans, links), attempts)
    {
      var items := TranslateBatch(list);
      ghost var statusOf := StatusOf(items, stans, links);
      ghost var stepOf := StepOf(items, stans, links);
      assert Describes(items, stans, links, statusOf, stepOf);
      ReachedCardedWhileCompleted(items, statusOf);
      var dinersStatus;
      dinersStatus, attempts := UploadBatch(items, stans, links, statusOf, stepOf);
      status := ConvertDinersStatus(dinersStatus);
    }

    /**
     * The AMEX batch upload: the uploads end with `amexStatuses`, one per
     * transaction, and it stops after the first that does not complete.
     */
    method PerformAmexBatchUpload(list: seq<Transaction>, amexStatuses: seq<AmexStatus>)
      returns (status: Status, attempts: nat)
      requires |list| > 0 && |amexStatuses| == |list|
      ensures attempts == Attempts(amexStatuses, AMEX_COMPLETED)
      ensures status == ConvertAmexStatus(amexStatuses[attempts - 1])
    {
      var k := 0;
      var last := AMEX_PERM_FAILURE;
      while k < |list|
        invariant 0 <= k <= |list|
        invariant forall j | 0 <= j < k :: amexStatuses[j] == AMEX_COMPLETED
        invariant k > 0 ==> last == amexStatuses[k - 1]
      {
        last := amexStatuses[k];
        k := k + 1;
        if last != AMEX_COMPLETED {
          break;
        }
      }
      attempts := k;
      AttemptsUnique(amexStatuses, AMEX_COMPLETED, attempts);
      status := ConvertAmexStatus(last);
    }

    /**
     * Batch upload to the bound host: a permanent failure with nothing
     * bound or a protocol the switch does not dispatch to, otherwise the
     * bound host's batch upload.
     */
    method PerformBatchUpload(list: seq<Transaction>, fdmsStatus: HostStatus, amexStatuses: seq<AmexStatus>,
                              stans: seq<uint32>, links: seq<Diners.Link>)
      returns (status: Status)
      requires current == Some(AMEX_DIRECT) ==> |list| > 0 && |amexStatuses| == |list|
      requires current == Some(DINERS_DIRECT) ==> DinersBatchUploadable(list, stans, links)
      modifies diners`calls
      ensures current.None? || current == Some(OTHER_PROTOCOL) ==> status == PERM_FAILURE
      ensures current == Some(FDMS_BASE24) ==> status == ConvertStatus(fdmsStatus)
      ensures current == Some(AMEX_DIRECT) ==>
                status == ConvertAmexStatus(amexStatuses[Attempts(amexStatuses, AMEX_COMPLETED) - 1])
      ensures current == Some(DINERS_DIRECT) ==>
                var statusOf := StatusOf(TranslateBatch(list), stans, links);
                status == ConvertDinersStatus(statusOf(Attempts(Sequence(statusOf, |list|), Diners.COMPLETED) - 1))
      ensures current == Some(DINERS_DIRECT) ==>
                var items := TranslateBatch(list);
                var statusOf := StatusOf(items, stans, links);
                diners.calls == old(diners.calls)
                                + Flatten(StepOf(items, stans, links), Attempts(Sequence(statusOf, |list|), Diners.COMPLETED))
      ensures current != Some(DINERS_DIRECT) ==> diners.calls == old(diners.calls)
    {
      status := PERM_FAILURE;
      if current.None? {
        return;
      }
      if current == Some(FDMS_BASE24) {
        status := ConvertStatus(fdmsStatus);
      } else if current == Some(AMEX_DIRECT) {
        var attempts;
        status, attempts := PerformAmexBatchUpload(list, amexStatuses);
      } else if current == Some(DINERS_DIRECT) {
        var attempts;
        status, attempts := PerformDinersBatchUpload(list, stans, links);
      }
    }
  }
}
