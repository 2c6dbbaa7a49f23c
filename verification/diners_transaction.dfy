/**
 * The Diners transaction record, its amount accessors, the batch-total
 * accumulator and the settlement and echo-test records.
 */
module DinersTransactions {
  import opened Wrappers
  import opened Iso
  import opened Types

  datatype DinersTransactionType =
    | AUTHORIZATION
    | SALE
    | OFFLINE_SALE
    | REFUND
    | PREAUTH
    | SALE_COMPLETION
    | TC_UPLOAD

  datatype DinersInProgressStatus = IN_PROGRESS_NONE | IN_PROGRESS_VOID | IN_PROGRESS_SALE_COMPLETION

  datatype DinersTransactionStatus =
    | IN_PROGRESS
    | APPROVED
    | DECLINED
    | NOT_ALLOWED
    | CANCELLED
    | CARD_BLOCKED
    | CARD_REMOVED_FROM_READER
    | CARD_ERROR
    | TERMINAL_ERROR
    | REVERSED
    | TO_REVERSE
    | TO_ADVISE
    | UNKNOWN_ERROR

  /** An amount in minor units; the currency is not modelled. */
  type Amount = nat

  datatype DinersTransaction = DinersTransaction(
    pan: Option<string>,
    processingCode: string,
    origPosEntryMode: string,
    amount: Option<Amount>,
    preauthAmount: Option<Amount>,
    isPreauthCompleted: bool,
    isAdjusted: bool,
    stan: uint32,
    expirationDate: string,
    posEntryMode: PosEntryMode,
    panSequenceNumber: Option<uint32>,
    nii: uint32,
    posConditionCode: PosConditionCode,
    track2: Option<seq<bv8>>,
    tid: string,
    mid: string,
    cvv: string,
    pinBlock: Option<seq<bv8>>,
    additionalAmount: Option<Amount>,
    originalAdditionalAmount: Option<Amount>,
    iccData: Option<seq<bv8>>,
    aid: Option<string>,
    transactionType: DinersTransactionType,
    transactionStatus: DinersTransactionStatus,
    inProgressStatus: DinersInProgressStatus,
    previousTransactionStatus: DinersTransactionStatus,
    tpdu: string,
    invoiceNumber: uint32,
    batchNumber: uint32,
    txDatetime: Datetime,
    rrn: string,
    authIdResponse: string,
    responseCode: string,
    issuerEmvResponse: seq<bv8>,
    track1Data: string,
    cardholderName: string)

  /**
   * A newly constructed record. The constructor zeroes the STAN, the NII, the
   * invoice number and the timestamp; strings start empty, optionals absent
   * and byte vectors empty. The flags, enumerations and batch number are left
   * uninitialised by the constructor, so they are parameters here: any value
   * may be found in them.
   */
  function NewDinersTransaction(
    isPreauthCompleted: bool, isAdjusted: bool,
    posEntryMode: PosEntryMode, posConditionCode: PosConditionCode,
    transactionType: DinersTransactionType, transactionStatus: DinersTransactionStatus,
    inProgressStatus: DinersInProgressStatus, previousTransactionStatus: DinersTransactionStatus,
    batchNumber: uint32): (tx: DinersTransaction)
    ensures tx.stan == 0 && tx.nii == 0 && tx.invoiceNumber == 0 && tx.txDatetime == EPOCH
    ensures tx.pan.None? && tx.amount.None? && tx.preauthAmount.None? && tx.iccData.None?
    ensures GetTotalAmount(tx).None?
    ensures tx.batchNumber == batchNumber && tx.transactionType == transactionType
  {
    DinersTransaction(
      None, "", "", None, None, isPreauthCompleted, isAdjusted,
      0, "", posEntryMode, None, 0, posConditionCode, None, "", "", "",
      None, None, None, None, None,
      transactionType, transactionStatus, inProgressStatus, previousTransactionStatus,
      "", 0, batchNumber, EPOCH, "", "", "", [], "", "")
  }

  /** `a` plus `b` when `b` is present. */
  function PlusOptional(a: Amount, b: Option<Amount>): (r: Amount)
    ensures r >= a
  {
    if b.Some? then a + b.value else a
  }

  /** The sale amount with the tip it had before any adjustment. */
  function GetTotalOriginalAmount(tx: DinersTransaction): (r: Option<Amount>)
    ensures r.None? <==> tx.amount.None?
    ensures r.Some? ==> tx.amount.value <= r.value
  {
    if tx.amount.None? then None
    else Some(PlusOptional(tx.amount.value, tx.originalAdditionalAmount))
  }

  /** The pre-authorised amount with the additional amount. */
  function GetTotalPreauthAmount(tx: DinersTransaction): (r: Option<Amount>)
    ensures r.None? <==> tx.preauthAmount.None?
    ensures r.Some? ==> tx.preauthAmount.value <= r.value
  {
    if tx.preauthAmount.None? then None
    else Some(PlusOptional(tx.preauthAmount.value, tx.additionalAmount))
  }

  /**
   * The amount to authorise: the original total when there is a sale amount,
   * otherwise the pre-authorised amount, in both cases with the additional
   * amount.
   */
  function GetTotalAmount(tx: DinersTransaction): (r: Option<Amount>)
    ensures r.None? <==> tx.amount.None? && tx.preauthAmount.None?
    ensures tx.amount.Some? ==> r == Some(PlusOptional(GetTotalOriginalAmount(tx).value, tx.additionalAmount))
    ensures tx.amount.None? ==> r == GetTotalPreauthAmount(tx)
  {
    var base :=
      if tx.amount.Some? then GetTotalOriginalAmount(tx)
      else if tx.preauthAmount.Some? then tx.preauthAmount
      else None;
    if base.None? then None else Some(PlusOptional(base.value, tx.additionalAmount))
  }

  /**
   * With a sale amount present, the total counts the sale amount, the
   * original tip and the additional amount, each optional part once.
   */
  lemma TotalAmountSums(tx: DinersTransaction)
    requires tx.amount.Some?
    ensures GetTotalAmount(tx).value
         == tx.amount.value + tx.originalAdditionalAmount.GetOr(0) + tx.additionalAmount.GetOr(0)
  {
  }

  /** The total never falls below the original total or the pre-authorised total it is built on. */
  lemma TotalAmountDominates(tx: DinersTransaction)
    ensures GetTotalOriginalAmount(tx).Some? ==> GetTotalOriginalAmount(tx).value <= GetTotalAmount(tx).value
    ensures tx.amount.None? && tx.preauthAmount.Some? ==> GetTotalAmount(tx) == GetTotalPreauthAmount(tx)
  {
  }

  /** `x + y` wrapped at `m`, as an unsigned addition of that width does. */
  function AddWrapping(x: nat, y: nat, m: nat): (r: nat)
    requires x < m && y < m
    ensures r < m
    ensures x + y < m ==> r == x + y
    ensures x + y >= m ==> r == x + y - m
  {
    if x + y >= m then x + y - m else x + y
  }

  /** The value held by a `BatchTotal`: a count and a total of amounts. */
  datatype BatchTotalValue = BatchTotalValue(count: uint32, total: uint64)
  {
    /** The `+=` of two batch totals, each part wrapping at the width of its C++ type. */
    function Plus(rhs: BatchTotalValue): BatchTotalValue
    {
      BatchTotalValue(AddWrapping(count, rhs.count, 0x1_0000_0000), AddWrapping(total, rhs.total, 0x1_0000_0000_0000_0000))
    }
  }

  const ZERO_TOTAL: BatchTotalValue := BatchTotalValue(0, 0)

  /** Adding batch totals is commutative. */
  lemma PlusCommutes(a: BatchTotalValue, b: BatchTotalValue)
    ensures a.Plus(b) == b.Plus(a)
  {
  }

  /** Adding the empty total changes nothing. */
  lemma PlusZero(a: BatchTotalValue)
    ensures a.Plus(ZERO_TOTAL) == a
  {
  }

  lemma AddWrappingAssociates(x: nat, y: nat, z: nat, m: nat)
    requires x < m && y < m && z < m
    ensures AddWrapping(AddWrapping(x, y, m), z, m) == AddWrapping(x, AddWrapping(y, z, m), m)
  {
  }

  /**
   * Accumulating batch totals is associative, so summing a batch in any
   * grouping gives the same counts and totals.
   */
  lemma PlusAssociates(a: BatchTotalValue, b: BatchTotalValue, c: BatchTotalValue)
    ensures a.Plus(b).Plus(c) == a.Plus(b.Plus(c))
  {
    AddWrappingAssociates(a.count, b.count, c.count, 0x1_0000_0000);
    AddWrappingAssociates(a.total, b.total, c.total, 0x1_0000_0000_0000_0000);
  }

  /** A running count and total of transactions, accumulated in place with `+=`. */
  class BatchTotal {
    var count: uint32
    var total: uint64

    function Value(): BatchTotalValue
      reads this
    {
      BatchTotalValue(count, total)
    }

    /** `BatchTotal()`: nothing counted yet. */
    constructor ()
      ensures Value() == ZERO_TOTAL
    {
      count := 0;
      total := 0;
    }

    /** `BatchTotal(count, total)`. */
    constructor Of(c: uint32, t: uint64)
      ensures count == c && total == t
    {
      count := c;
      total := t;
    }

    /** `*this += rhs`: `rhs` is added into this total, which is returned. */
    method AddAssign(rhs: BatchTotal) returns (self: BatchTotal)
      modifies this
      ensures self == this
      ensures Value() == old(Value()).Plus(old(rhs.Value()))
      ensures rhs != this ==> rhs.Value() == old(rhs.Value())
    {
      count := (count + rhs.count) % 0x1_0000_0000;
      total := (total + rhs.total) % 0x1_0000_0000_0000_0000;
      self := this;
    }
  }

  /** The sales and refunds totals of a batch, in one currency. */
  datatype BatchTotalsForDinersHost = BatchTotalsForDinersHost(
    currency: string,
    salesTotal: BatchTotalValue,
    refundsTotal: BatchTotalValue)

  datatype DinersSettlementData = DinersSettlementData(
    processingCode: string,
    stan: uint32,
    txDatetime: Datetime,
    tpdu: string,
    nii: uint32,
    tid: string,
    mid: string,
    rrn: string,
    responseCode: string,
    batchNumber: uint32,
    batchSummary: BatchTotalsForDinersHost,
    responseMsg: string,
    invoiceNum: uint32)

  /** The echo-test record: what the request carries and the host time it brings back. */
  datatype TestTransaction = TestTransaction(
    processingCode: string,
    tpdu: string,
    nii: uint32,
    tid: string,
    mid: string,
    hostDatetime: Datetime)
}
