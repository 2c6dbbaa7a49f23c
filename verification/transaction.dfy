/**
 * The terminal's own transaction, settlement and echo-test records, which
 * the host switch translates to and from the Diners records. Their
 * declarations are outside the code modelled here: only the fields and
 * enumeration members the switch names are kept, and every enumeration
 * has one more member standing for all the members the switch does not name.
 */
module Transactions {
  import opened Wrappers
  import opened Iso
  import opened Types
  import DinersTransactions

  type Amount = DinersTransactions.Amount

  datatype TransactionType =
    | SALE
    | REFUND
    | PREAUTH
    | AUTHORIZATION
    | OFFLINE_SALE
    | PREAUTH_COMPLETION_ONLINE
    | PREAUTH_COMPLETION_OFFLINE
    | OTHER_TYPE

  datatype TransactionStatus = IN_PROGRESS | APPROVED | DECLINED | NOT_ALLOWED | TO_ADVISE | CANCELLED | OTHER_STATUS

  datatype InProgressStatus =
    | IN_PROGRESS_NONE
    | IN_PROGRESS_VOID
    | IN_PROGRESS_PREAUTH_COMPLETION
    | OTHER_IN_PROGRESS

  datatype Transaction = Transaction(
    pan: Option<string>,
    processingCode: string,
    amount: Option<Amount>,
    stan: uint32,
    expirationDate: string,
    posEntryMode: PosEntryMode,
    nii: uint32,
    posConditionCode: PosConditionCode,
    track2EquivalentData: Option<seq<bv8>>,
    aid: Option<string>,
    tid: string,
    mid: string,
    cvv: string,
    track1Data: string,
    pinData: seq<bv8>,
    secondaryAmount: Option<Amount>,
    originalSecondaryAmount: Option<Amount>,
    iccData: Option<seq<bv8>>,
    transactionType: TransactionType,
    inProgressStatus: InProgressStatus,
    transactionStatus: TransactionStatus,
    previousTransactionStatus: TransactionStatus,
    tpdu: string,
    txDatetime: Datetime,
    rrn: string,
    authIdResponse: string,
    responseCode: string,
    issuerEmvResponse: seq<bv8>,
    invoiceNum: uint32,
    batchNum: uint32,
    preauthAmount: Option<Amount>,
    cardHolderName: string,
    panSequenceNumber: Option<uint32>,
    isPreauthCompleted: bool,
    isAdjusted: bool)

  datatype BatchSummary = BatchSummary(
    currency: string,
    salesTotal: DinersTransactions.BatchTotalValue,
    refundsTotal: DinersTransactions.BatchTotalValue)

  datatype SettlementData = SettlementData(
    processingCode: string,
    txDatetime: Datetime,
    batchNumber: uint32,
    nii: uint32,
    tpdu: string,
    tid: string,
    mid: string,
    rrn: string,
    stan: uint32,
    responseCode: string,
    batchSummary: BatchSummary)

  datatype TestTransaction = TestTransaction(tpdu: string, nii: uint32, tid: string, mid: string)
}
