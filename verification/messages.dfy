/**
 * What the Diners request builders and response readers have in common:
 * reading a field as present-or-absent, the host timestamp of DE 12 and
 * DE 13, the correlation of a response with the transaction it answers, the
 * amount table of voids and reversals, and the ICC-data guard.
 */
module Messages {
  import opened Wrappers
  import opened Iso
  import opened Types
  import opened DinersTransactions
  import opened Protocol
  import Text

  /** Field `f` of `m` is present and holds `v`. */
  predicate Carries(m: Apdu, f: int, v: FieldValue)
  {
    f in m.fields && m.fields[f] == v
  }

  /** Field `f` of `m` is present exactly when `cond` holds, and then holds `v`. */
  predicate CarriesIff(m: Apdu, f: int, cond: bool, v: FieldValue)
  {
    (f in m.fields <==> cond) && (cond ==> m.fields[f] == v)
  }

  /** Entry modes for which the card number and expiry date are keyed in. */
  predicate IsManualEntry(mode: PosEntryMode)
  {
    mode == MANUAL || mode == FALLBACK_MANUAL
  }

  /** A fixed-width decimal field: `n` left-padded with zeros to `width` characters. */
  function Padded(n: nat, width: nat): FieldValue
  {
    Str(Text.NumericPadded(n, width))
  }

  /** The host timestamp of a response, from DE 13 (date) and DE 12 (time). */
  function GetHostDatetime(response: Apdu): Datetime
  {
    Datetime(response.GetFieldAsString(FIELD_TIME_LOCAL_TRANSACTION), response.GetFieldAsString(FIELD_DATE_LOCAL_TRANSACTION))
  }

  /** DE 38 when the response has it. */
  function GetAuthIdResponse(response: Apdu): Option<string>
  {
    if response.HasField(FIELD_AUTHORIZATION_ID) then Some(response.GetFieldAsString(FIELD_AUTHORIZATION_ID)) else None
  }

  /** DE 55 when the response has it. */
  function GetEmvData(response: Apdu): Option<seq<bv8>>
  {
    if response.HasField(FIELD_ICC_DATA) then Some(response.GetFieldAsBytes(FIELD_ICC_DATA)) else None
  }

  /** The response's processing code, NII and terminal id are the transaction's. */
  predicate MatchesTerminal(response: Apdu, processingCode: string, nii: uint32, tid: string)
  {
    response.GetFieldAsString(FIELD_PROCESSING_CODE) == processingCode
    && response.GetFieldAsUint32(FIELD_NII) == nii
    && response.GetFieldAsString(FIELD_CARD_ACCEPTOR_TERMINAL_ID) == tid
  }

  /** Processing code, STAN, NII and terminal id of the response are the transaction's. */
  predicate Correlates(response: Apdu, tx: DinersTransaction)
  {
    MatchesTerminal(response, tx.processingCode, tx.nii, tx.tid)
    && response.GetFieldAsUint32(FIELD_STAN) == tx.stan
  }

  /** The request carries the transaction's processing code, STAN, NII and terminal id. */
  predicate CarriesCorrelation(request: Apdu, tx: DinersTransaction)
  {
    Carries(request, FIELD_PROCESSING_CODE, Str(tx.processingCode))
    && Carries(request, FIELD_STAN, Num(tx.stan))
    && Carries(request, FIELD_NII, Num(tx.nii))
    && Carries(request, FIELD_CARD_ACCEPTOR_TERMINAL_ID, Str(tx.tid))
  }

  /** The response repeats the request's processing code, NII and terminal id. */
  predicate EchoesTerminal(request: Apdu, response: Apdu)
  {
    SameField(response, request, FIELD_PROCESSING_CODE)
    && SameField(response, request, FIELD_NII)
    && SameField(response, request, FIELD_CARD_ACCEPTOR_TERMINAL_ID)
  }

  /** The response repeats the request's processing code, STAN, NII and terminal id. */
  predicate Echoes(request: Apdu, response: Apdu)
  {
    EchoesTerminal(request, response) && SameField(response, request, FIELD_STAN)
  }

  /**
   * A response that repeats the correlation fields of a request built from
   * `tx` correlates with `tx`.
   */
  lemma EchoCorrelates(request: Apdu, response: Apdu, tx: DinersTransaction)
    requires CarriesCorrelation(request, tx) && Echoes(request, response)
    ensures Correlates(response, tx)
  {
  }

  /**
   * A response that repeats the terminal fields of a request carrying
   * processing code `pc`, NII `nii` and terminal id `tid` matches them.
   */
  lemma EchoMatchesTerminal(request: Apdu, response: Apdu, pc: string, nii: uint32, tid: string)
    requires Carries(request, FIELD_PROCESSING_CODE, Str(pc)) && Carries(request, FIELD_NII, Num(nii))
    requires Carries(request, FIELD_CARD_ACCEPTOR_TERMINAL_ID, Str(tid))
    requires EchoesTerminal(request, response)
    ensures MatchesTerminal(response, pc, nii, tid)
  {
    Uint32RoundTrip(response, FIELD_NII, nii);
  }

  /**
   * The amount of DE 4 in a void or reversal. A pre-authorisation or
   * authorisation sends its pre-authorised total. Any other type sends, when
   * it has a sale amount, the full total if the voided transaction was
   * approved and the original total if it was waiting to be advised; in any
   * other case there is no DE 4.
   */
  function VoidAmount(tx: DinersTransaction): (r: Option<Amount>)
    ensures (tx.transactionType == DinersTransactionType.PREAUTH || tx.transactionType == AUTHORIZATION)
            ==> r == GetTotalPreauthAmount(tx)
    ensures !(tx.transactionType == DinersTransactionType.PREAUTH || tx.transactionType == AUTHORIZATION)
            ==> (r.Some? <==> tx.amount.Some? && tx.previousTransactionStatus in {APPROVED, TO_ADVISE})
    ensures r.Some? && tx.previousTransactionStatus == TO_ADVISE && tx.amount.Some?
            && !(tx.transactionType == DinersTransactionType.PREAUTH || tx.transactionType == AUTHORIZATION)
            ==> r == GetTotalOriginalAmount(tx)
    ensures r.Some? && tx.previousTransactionStatus == APPROVED
            && !(tx.transactionType == DinersTransactionType.PREAUTH || tx.transactionType == AUTHORIZATION)
            ==> r == GetTotalAmount(tx)
  {
    if tx.transactionType == DinersTransactionType.PREAUTH || tx.transactionType == AUTHORIZATION then
      if tx.preauthAmount.Some? then GetTotalPreauthAmount(tx) else None
    else if tx.amount.Some? then
      if tx.previousTransactionStatus == APPROVED then GetTotalAmount(tx)
      else if tx.previousTransactionStatus == TO_ADVISE then GetTotalOriginalAmount(tx)
      else None
    else None
  }

  /**
   * The voided transaction was approved and later tip-adjusted; a void or
   * reversal then also reports the tip (DE 54) and, when there is one, the
   * original amount (DE 60).
   */
  predicate AdjustedAfterApproval(tx: DinersTransaction)
  {
    tx.previousTransactionStatus == APPROVED && tx.isAdjusted
  }

  /** There is ICC data to send in DE 55: present and not empty. */
  predicate HasIccData(icc: Option<seq<bv8>>)
  {
    icc.Some? && |icc.value| > 0
  }

  /**
   * The DE 55 guard as the sale, pre-authorisation, reversal and TC-upload
   * builders write it: the emptiness test is applied to the optional's
   * content without first testing that the optional holds a value. None
   * stands for that dereference of an empty optional.
   */
  function IccGuardAsWritten(icc: Option<seq<bv8>>): (r: Option<bool>)
    ensures r.None? <==> icc.None?
    ensures r.Some? ==> (r.value <==> HasIccData(icc))
  {
    if icc.None? then None else Some(|icc.value| != 0)
  }

  /** `v` when `cond` holds and no value otherwise: a field a request sets only under a condition. */
  function When(cond: bool, v: FieldValue): Option<FieldValue>
  {
    if cond then Some(v) else None
  }

  /** DE 55 of a request: the ICC data when there is any. */
  function IccField(icc: Option<seq<bv8>>): (r: Option<FieldValue>)
    ensures r.Some? <==> icc.Some? && |icc.value| > 0
    ensures r.Some? ==> r.value == Bytes(icc.value)
  {
    When(HasIccData(icc), Bytes(icc.GetOr([])))
  }
}
