/** The void of an earlier transaction: an 0200 request answered by an 0210. */
module VoidMessage {
  import opened Wrappers
  import opened Iso
  import opened Types
  import opened DinersTransactions
  import opened DinersUtils
  import opened Protocol
  import opened Messages

  /** Every field a void request may carry. */
  const VOID_REQUEST_FIELDS: set<int> := {2, 3, 4, 11, 12, 13, 14, 22, 23, 24, 25, 37, 41, 42, 52, 54, 60, 62}

  /**
   * What the void request dereferences without checking: the card number,
   * and for a transaction tip-adjusted after approval, the tip and the sale
   * amount.
   */
  predicate CanBuildVoid(tx: DinersTransaction)
  {
    tx.pan.Some? && (AdjustedAfterApproval(tx) ==> tx.additionalAmount.Some? && tx.amount.Some?)
  }

  /**
   * The 0200 void request for `tx`, stamped with the terminal clock `now`,
   * and `tx` with the void processing code recorded on it.
   */
  function BuildVoidRequest(tx: DinersTransaction, now: Datetime): (r: (Apdu, DinersTransaction))
    requires CanBuildVoid(tx)
    ensures r.1 == tx.(processingCode := GetDinersProcessingCode(tx.transactionType, true))
    ensures r.0.mti == Some(200) && r.0.fields.Keys <= VOID_REQUEST_FIELDS
    ensures forall f | f in r.0.fields :: VoidRequestField(r.1, now, f) == Some(r.0.fields[f])
    ensures forall f | f !in r.0.fields :: VoidRequestField(r.1, now, f).None?
  {
    var tx := tx.(processingCode := GetDinersProcessingCode(tx.transactionType, true));
    (Apdu(Some(200), map f | f in VOID_REQUEST_FIELDS && VoidRequestField(tx, now, f).Some? :: VoidRequestField(tx, now, f).value), tx)
  }

  /**
   * The void request carries the correlation fields of the transaction it
   * returns, the void amount when there is one, and for a transaction
   * tip-adjusted after approval the tip and the original total.
   */
  lemma VoidRequestCarries(tx: DinersTransaction, now: Datetime)
    requires CanBuildVoid(tx)
    ensures var (request, sent) := BuildVoidRequest(tx, now);
      CarriesCorrelation(request, sent)
      && CarriesIff(request, FIELD_AMOUNT, VoidAmount(tx).Some?, Num(VoidAmount(tx).GetOr(0)))
      && CarriesIff(request, FIELD_ADDITIONAL_AMOUNT, AdjustedAfterApproval(tx), Padded(tx.additionalAmount.GetOr(0), 12))
      && CarriesIff(request, FIELD_60, AdjustedAfterApproval(tx), Padded(GetTotalOriginalAmount(tx).GetOr(0), 12))
  {
  }

  /**
   * What the void request for `tx` carries in data element `f`; `tx` already
   * holds the processing code of the request. The POS entry mode is computed
   * again and not recorded.
   */
  function VoidRequestField(tx: DinersTransaction, now: Datetime, f: int): Option<FieldValue>
    requires CanBuildVoid(tx)
  {
    var adjusted := AdjustedAfterApproval(tx);
    if f == FIELD_PAN then Some(Str(tx.pan.value))
    else if f == FIELD_PROCESSING_CODE then Some(Str(tx.processingCode))
    else if f == FIELD_AMOUNT then When(VoidAmount(tx).Some?, Num(VoidAmount(tx).GetOr(0)))
    else if f == FIELD_STAN then Some(Num(tx.stan))
    else if f == FIELD_TIME_LOCAL_TRANSACTION then Some(Str(now.time))
    else if f == FIELD_DATE_LOCAL_TRANSACTION then Some(Str(now.date))
    else if f == FIELD_DATE_EXPIRATION then Some(Str(tx.expirationDate))
    else if f == FIELD_POS_ENTRY_MODE then Some(Str(GetPosEntryMode(tx.posEntryMode)))
    else if f == FIELD_PAN_SEQUENCE_NUMBER then When(tx.panSequenceNumber.Some?, Num(tx.panSequenceNumber.GetOr(0)))
    else if f == FIELD_NII then Some(Num(tx.nii))
    else if f == FIELD_POS_CONDITION_CODE then Some(Str(GetDinersConditionCode(tx.posConditionCode)))
    else if f == FIELD_RRN then Some(Str(tx.rrn))
    else if f == FIELD_CARD_ACCEPTOR_TERMINAL_ID then Some(Str(tx.tid))
    else if f == FIELD_CARD_ACCEPTOR_ID then Some(Str(tx.mid))
    else if f == FIELD_PIN_BLOCK then When(tx.pinBlock.Some?, Bytes(tx.pinBlock.GetOr([])))
    else if f == FIELD_ADDITIONAL_AMOUNT then When(adjusted, Padded(tx.additionalAmount.GetOr(0), 12))
    else if f == FIELD_60 then When(adjusted && tx.additionalAmount.Some?, Padded(GetTotalOriginalAmount(tx).GetOr(0), 12))
    else if f == FIELD_62 then Some(Padded(tx.invoiceNumber, 6))
    else None
  }

  /**
   * For a sale tip-adjusted after approval, the amount of DE 4 is the
   * original total of DE 60 plus the tip of DE 54, so the host can recover
   * the amount before the adjustment.
   */
  lemma VoidAmountSplitsIntoOriginalAndTip(tx: DinersTransaction)
    requires CanBuildVoid(tx) && AdjustedAfterApproval(tx)
    requires !(tx.transactionType == DinersTransactionType.PREAUTH || tx.transactionType == AUTHORIZATION)
    ensures VoidAmount(tx) == Some(GetTotalOriginalAmount(tx).value + tx.additionalAmount.value)
  {
  }

  /** An 0210 with processing code, STAN, time, date, NII, RRN, response code and terminal id. */
  predicate IsValidVoidResponse(response: Apdu)
  {
    IsResponseOf(response, 210, {3, 11, 12, 13, 24, 37, 39, 41})
  }

  /**
   * Accepts a valid response that correlates with `tx`, recording on `tx`
   * the host timestamp, RRN and response code, and the authorisation id when
   * the response has one; None otherwise. The response's timestamp and RRN
   * are not compared with the request's.
   */
  function ReadVoidResponse(response: Apdu, tx: DinersTransaction): (r: Option<DinersTransaction>)
    ensures r.Some? <==> IsValidVoidResponse(response) && Correlates(response, tx)
    ensures r.Some? ==> r.value == tx.(txDatetime := GetHostDatetime(response),
                                        rrn := response.GetFieldAsString(FIELD_RRN),
                                        responseCode := response.GetFieldAsString(FIELD_RESPONSE_CODE),
                                        authIdResponse := GetAuthIdResponse(response).GetOr(tx.authIdResponse))
  {
    if !IsValidVoidResponse(response) || !Correlates(response, tx) then None
    else
      var tx := tx.(txDatetime := GetHostDatetime(response));
      var tx := tx.(rrn := response.GetFieldAsString(FIELD_RRN));
      var tx := tx.(responseCode := response.GetFieldAsString(FIELD_RESPONSE_CODE));
      Some(if GetAuthIdResponse(response).Some? then tx.(authIdResponse := GetAuthIdResponse(response).value) else tx)
  }

  /**
   * A valid 0210 that repeats the processing code, STAN, NII and terminal id
   * of the void request built for `tx` is accepted for the transaction the
   * builder returned.
   */
  lemma VoidResponseToOwnRequest(tx: DinersTransaction, now: Datetime, response: Apdu)
    requires CanBuildVoid(tx)
    requires IsValidVoidResponse(response) && Echoes(BuildVoidRequest(tx, now).0, response)
    ensures ReadVoidResponse(response, BuildVoidRequest(tx, now).1).Some?
  {
    var (request, sent) := BuildVoidRequest(tx, now);
    VoidRequestCarries(tx, now);
    EchoCorrelates(request, response, sent);
  }
}
