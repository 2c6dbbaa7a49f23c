/**
 * Derivation of the coded request fields from the transaction: processing
 * code (DE 3), POS entry mode (DE 22), POS condition code (DE 25) and the
 * amount to request.
 */
module DinersUtils {
  import opened Wrappers
  import opened Types
  import opened DinersTransactions
  import Text

  /** The transaction types whose void has a processing code of its own. */
  predicate HasVoidCode(t: DinersTransactionType)
  {
    t == SALE || t == OFFLINE_SALE || t == SALE_COMPLETION || t == REFUND
  }

  /** The two-digit transaction code of DE 3, empty for a void without one. */
  function TransactionCode(transType: DinersTransactionType, isVoid: bool): (tc: string)
    ensures |tc| == (if isVoid && !HasVoidCode(transType) then 0 else 2)
    ensures Text.AllDigits(tc)
  {
    if isVoid then
      if transType == SALE || transType == OFFLINE_SALE || transType == SALE_COMPLETION then "02"
      else if transType == REFUND then "22"
      else ""
    else
      if transType == AUTHORIZATION || transType == SALE || transType == OFFLINE_SALE || transType == SALE_COMPLETION then "00"
      else if transType == REFUND then "20"
      else if transType == DinersTransactionType.PREAUTH then "30"
      else "94"
  }

  /**
   * The six-digit processing code of a request: a two-digit transaction code
   * followed by "0000". Voids of types other than sale, offline sale,
   * completion and refund have no transaction code, leaving only "0000".
   */
  function GetDinersProcessingCode(transType: DinersTransactionType, isVoid: bool): (code: string)
    ensures |code| == (if isVoid && !HasVoidCode(transType) then 4 else 6)
    ensures code[|code| - 4..] == "0000"
    ensures Text.AllDigits(code)
  {
    TransactionCode(transType, isVoid) + "0000"
  }

  /** The void of a type that has a void code is told apart from the original request. */
  lemma VoidCodeDiffers(transType: DinersTransactionType)
    requires HasVoidCode(transType)
    ensures GetDinersProcessingCode(transType, true) != GetDinersProcessingCode(transType, false)
  {
    assert GetDinersProcessingCode(transType, true)[1] == '2';
    assert GetDinersProcessingCode(transType, false)[1] == '0';
  }

  /** The processing code of every request that is not a void. */
  lemma ProcessingCodeTable()
    ensures GetDinersProcessingCode(AUTHORIZATION, false) == "000000"
    ensures GetDinersProcessingCode(SALE, false) == "000000"
    ensures GetDinersProcessingCode(OFFLINE_SALE, false) == "000000"
    ensures GetDinersProcessingCode(SALE_COMPLETION, false) == "000000"
    ensures GetDinersProcessingCode(REFUND, false) == "200000"
    ensures GetDinersProcessingCode(DinersTransactionType.PREAUTH, false) == "300000"
    ensures GetDinersProcessingCode(TC_UPLOAD, false) == "940000"
  {
  }

  /** The processing code of the voids of the types that have one. */
  lemma VoidProcessingCodeTable()
    ensures GetDinersProcessingCode(SALE, true) == "020000"
    ensures GetDinersProcessingCode(OFFLINE_SALE, true) == "020000"
    ensures GetDinersProcessingCode(SALE_COMPLETION, true) == "020000"
    ensures GetDinersProcessingCode(REFUND, true) == "220000"
  {
  }

  /** A processing code tells a refund, a pre-authorisation and a TC upload apart from each other and from a sale. */
  lemma ProcessingCodeSeparatesClasses(a: DinersTransactionType, b: DinersTransactionType)
    requires GetDinersProcessingCode(a, false) == GetDinersProcessingCode(b, false)
    ensures a == b || ({a, b} <= {AUTHORIZATION, SALE, OFFLINE_SALE, SALE_COMPLETION})
  {
  }

  /**
   * The three-digit POS entry mode: a fallback digit ('8' manual fallback,
   * '9' magstripe fallback, '0' otherwise), a read-method digit, and '1'
   * when the terminal can read chips in that mode, '2' otherwise.
   */
  function GetPosEntryMode(mode: PosEntryMode): (code: string)
    ensures |code| == 3 && Text.AllDigits(code)
    ensures code[0] == '8' <==> mode == FALLBACK_MANUAL
    ensures code[0] == '9' <==> mode == FALLBACK_MAGSTRIPE
    ensures code[2] == '1' <==> mode == CHIP || mode == CONTACTLESS
    ensures code[2] == '2' <==> !(mode == CHIP || mode == CONTACTLESS)
  {
    var first :=
      if mode == FALLBACK_MANUAL then "8"
      else if mode == FALLBACK_MAGSTRIPE then "9"
      else "0";
    var second :=
      match mode
      case CHIP => "5"
      case MAGSTRIPE => "2"
      case FALLBACK_MANUAL => "2"
      case FALLBACK_MAGSTRIPE => "0"
      case CONTACTLESS => "9"
      case MANUAL => "1"
      case OTHER_ENTRY_MODE => "0";
    var third := if mode == CHIP || mode == CONTACTLESS then "1" else "2";
    first + second + third
  }

  /** The value for each entry mode; no two entry modes share a code. */
  lemma PosEntryModeTable(a: PosEntryMode, b: PosEntryMode)
    ensures GetPosEntryMode(CHIP) == "051" && GetPosEntryMode(CONTACTLESS) == "091"
    ensures GetPosEntryMode(MANUAL) == "012" && GetPosEntryMode(MAGSTRIPE) == "022"
    ensures GetPosEntryMode(FALLBACK_MANUAL) == "822" && GetPosEntryMode(FALLBACK_MAGSTRIPE) == "902"
    ensures GetPosEntryMode(OTHER_ENTRY_MODE) == "002"
    ensures a != b ==> GetPosEntryMode(a) != GetPosEntryMode(b)
  {
  }

  /** The POS condition code sent in DE 25: "00" whatever the condition. */
  function GetDinersConditionCode(condition: PosConditionCode): (code: string)
    ensures code == "00"
  {
    if condition.PREAUTH? then "00" else "00"
  }

  /**
   * The amount to request: the total amount under the normal condition, the
   * pre-authorised amount otherwise. The one consulted must be present.
   */
  function GetAmountRequired(tx: DinersTransaction): (r: Amount)
    requires tx.posConditionCode == NORMAL ==> GetTotalAmount(tx).Some?
    requires tx.posConditionCode != NORMAL ==> tx.preauthAmount.Some?
    ensures tx.posConditionCode == NORMAL && tx.amount.Some? ==>
              r == tx.amount.value + tx.originalAdditionalAmount.GetOr(0) + tx.additionalAmount.GetOr(0)
    ensures tx.posConditionCode != NORMAL ==> r == tx.preauthAmount.value
    ensures tx.posConditionCode == NORMAL && tx.amount.None? ==> r == GetTotalPreauthAmount(tx).value
  {
    if tx.posConditionCode == NORMAL then GetTotalAmount(tx).value else tx.preauthAmount.value
  }
}
