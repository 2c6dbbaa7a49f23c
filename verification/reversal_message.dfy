/** The reversal of an unanswered request: an 0400 answered by an 0410. */
module ReversalMessage {
  import opened Wrappers
  import opened Iso
  import opened DinersTransactions
  import opened DinersUtils
  import opened Protocol
  import opened Messages

  /** Every field a reversal request may carry. */
  const REVERSAL_REQUEST_FIELDS: set<int> := {2, 3, 4, 11, 12, 13, 14, 22, 23, 24, 25, 37, 41, 42, 52, 54, 55, 60, 62}

  /**
   * What the reversal request dereferences without checking: for a
   * transaction tip-adjusted after approval, the tip and the sale amount.
   */
  predicate CanBuildReversal(tx: DinersTransaction)
  {
    AdjustedAfterApproval(tx) ==> tx.additionalAmount.Some? && tx.amount.Some?
  }

  /** A reversal of a void carries the void processing code. */
  predicate ReversesVoid(tx: DinersTransaction)
  {
    tx.inProgressStatus == IN_PROGRESS_VOID
  }

  /**
   * The 0400 reversal request for `tx`, carrying the timestamp of the
   * transaction it reverses, and `tx` with the processing code recorded on
   * it.
   */
  function BuildReversalRequest(tx: DinersTransaction): (r: (Apdu, DinersTransaction))
    requires CanBuildReversal(tx)
    ensures r.1 == tx.(processingCode := GetDinersProcessingCode(tx.transactionType, ReversesVoid(tx)))
    ensures r.0.mti == Some(400) && r.0.fields.Keys <= REVERSAL_REQUEST_FIELDS
    ensures forall f | f in r.0.fields :: ReversalRequestField(r.1, f) == Some(r.0.fields[f])
    ensures forall f | f !in r.0.fields :: ReversalRequestField(r.1, f).None?
  {
    var tx := tx.(processingCode := GetDinersProcessingCode(tx.transactionType, ReversesVoid(tx)));
    (Apdu(Some(400), map f | f in REVERSAL_REQUEST_FIELDS && ReversalRequestField(tx, f).Some? :: ReversalRequestField(tx, f).value), tx)
  }

  /**
   * The reversal request carries the correlation fields of the transaction
   * it returns, the original transaction's local time and date, the void
   * amount when there is one, and the ICC data when there is any.
   */
  lemma ReversalRequestCarries(tx: DinersTransaction)
    requires CanBuildReversal(tx)
    ensures var (request, sent) := BuildReversalRequest(tx);
      CarriesCorrelation(request, sent)
      && Carries(request, FIELD_TIME_LOCAL_TRANSACTION, Str(tx.txDatetime.time))
      && Carries(request, FIELD_DATE_LOCAL_TRANSACTION, Str(tx.txDatetime.date))
      && CarriesIff(request, FIELD_AMOUNT, VoidAmount(tx).Some?, Num(VoidAmount(tx).GetOr(0)))
      && CarriesIff(request, FIELD_ICC_DATA, HasIccData(tx.iccData), Bytes(tx.iccData.GetOr([])))
  {
  }

  /** The reversal request carries the card data and the RRN exactly when the record has them. */
  lemma ReversalRequestCarriesOptional(tx: DinersTransaction)
    requires CanBuildReversal(tx)
    ensures var (request, _) := BuildReversalRequest(tx);
      CarriesIff(request, FIELD_PAN, tx.pan.Some?, Str(tx.pan.GetOr("")))
      && CarriesIff(request, FIELD_DATE_EXPIRATION, tx.expirationDate != "", Str(tx.expirationDate))
      && CarriesIff(request, FIELD_PAN_SEQUENCE_NUMBER, tx.panSequenceNumber.Some?, Num(tx.panSequenceNumber.GetOr(0)))
      && CarriesIff(request, FIELD_RRN, tx.rrn != "", Str(tx.rrn))
      && CarriesIff(request, FIELD_PIN_BLOCK, tx.pinBlock.Some?, Bytes(tx.pinBlock.GetOr([])))
  {
  }

  /** The reversal request carries the tip and the original total exactly after an adjustment made after approval. */
  lemma ReversalRequestCarriesAdjustment(tx: DinersTransaction)
    requires CanBuildReversal(tx)
    ensures var (request, _) := BuildReversalRequest(tx);
      CarriesIff(request, FIELD_ADDITIONAL_AMOUNT, AdjustedAfterApproval(tx), Padded(tx.additionalAmount.GetOr(0), 12))
      && CarriesIff(request, FIELD_60, AdjustedAfterApproval(tx), Padded(GetTotalOriginalAmount(tx).GetOr(0), 12))
  {
    var (request, sent) := BuildReversalRequest(tx);
    AdjustmentFields(sent);
    assert AdjustedAfterApproval(sent) == AdjustedAfterApproval(tx);
    assert GetTotalOriginalAmount(sent) == GetTotalOriginalAmount(tx);
  }

  /** What the reversal of a record puts in DE 54 and DE 60. */
  lemma AdjustmentFields(tx: DinersTransaction)
    requires CanBuildReversal(tx)
    ensures ReversalRequestField(tx, FIELD_ADDITIONAL_AMOUNT)
            == When(AdjustedAfterApproval(tx), Padded(tx.additionalAmount.GetOr(0), 12))
    ensures ReversalRequestField(tx, FIELD_60)
            == When(AdjustedAfterApproval(tx), Padded(GetTotalOriginalAmount(tx).GetOr(0), 12))
  {
  }

  /**
   * What the reversal request for `tx` carries in data element `f`; `tx`
   * already holds the processing code of the request.
   */
  function ReversalRequestField(tx: DinersTransaction, f: int): Option<FieldValue>
    requires CanBuildReversal(tx)
  {
    var adjusted := AdjustedAfterApproval(tx);
    if f == FIELD_PAN then When(tx.pan.Some?, Str(tx.pan.GetOr("")))
    else if f == FIELD_PROCESSING_CODE then Some(Str(tx.processingCode))
    else if f == FIELD_AMOUNT then When(VoidAmount(tx).Some?, Num(VoidAmount(tx).GetOr(0)))
    else if f == FIELD_STAN then Some(Num(tx.stan))
    else if f == FIELD_TIME_LOCAL_TRANSACTION then Some(Str(tx.txDatetime.time))
    else if f == FIELD_DATE_LOCAL_TRANSACTION then Some(Str(tx.txDatetime.date))
    else if f == FIELD_DATE_EXPIRATION then When(tx.expirationDate != "", Str(tx.expirationDate))
    else if f == FIELD_POS_ENTRY_MODE then Some(Str(GetPosEntryMode(tx.posEntryMode)))
    else if f == FIELD_PAN_SEQUENCE_NUMBER then When(tx.panSequenceNumber.Some?, Num(tx.panSequenceNumber.GetOr(0)))
    else if f == FIELD_NII then Some(Num(tx.nii))
    else if f == FIELD_POS_CONDITION_CODE then Some(Str(GetDinersConditionCode(tx.posConditionCode)))
    else if f == FIELD_RRN then When(tx.rrn != "", Str(tx.rrn))
    else if f == FIELD_CARD_ACCEPTOR_TERMINAL_ID then Some(Str(tx.tid))
    else if f == FIELD_CARD_ACCEPTOR_ID then Some(Str(tx.mid))
    else if f == FIELD_PIN_BLOCK then When(tx.pinBlock.Some?, Bytes(tx.pinBlock.GetOr([])))
    else if f == FIELD_ADDITIONAL_AMOUNT then When(adjusted, Padded(tx.additionalAmount.GetOr(0), 12))
    else if f == FIELD_ICC_DATA then IccField(tx.iccData)
    else if f == FIELD_60 then When(adjusted && tx.additionalAmount.Some?, Padded(GetTotalOriginalAmount(tx).GetOr(0), 12))
    else if f == FIELD_62 then Some(Padded(tx.invoiceNumber, 6))
    else None
  }

  /** An 0410 with processing code, STAN, time, date, NII, RRN, response code and terminal id. */
  predicate IsValidReversalResponse(response: Apdu)
  {
    IsResponseOf(response, 410, {3, 11, 12, 13, 24, 37, 39, 41})
  }

  /**
   * Accepts a valid response that correlates with `tx`, recording on `tx`
   * the host timestamp, response code and RRN, and the authorisation id when
   * the response has one; None otherwise.
   */
  function ReadReversalResponse(response: Apdu, tx: DinersTransaction): (r: Option<DinersTransaction>)
    ensures r.Some? <==> IsValidReversalResponse(response) && Correlates(response, tx)
    ensures r.Some? ==> r.value == tx.(txDatetime := GetHostDatetime(response),
                                        authIdResponse := GetAuthIdResponse(response).GetOr(tx.authIdResponse),
                                        responseCode := response.GetFieldAsString(FIELD_RESPONSE_CODE),
                                        rrn := response.GetFieldAsString(FIELD_RRN))
  {
    if !IsValidReversalResponse(response) || !Correlates(response, tx) then None
    else
      var tx := tx.(txDatetime := GetHostDatetime(response));
      var tx := if GetAuthIdResponse(response).Some? then tx.(authIdResponse := GetAuthIdResponse(response).value) else tx;
      var tx := tx.(responseCode := response.GetFieldAsString(FIELD_RESPONSE_CODE));
      Some(tx.(rrn := response.GetFieldAsString(FIELD_RRN)))
  }

  /**
   * A valid 0410 that repeats the processing code, STAN, NII and terminal id
   * of the reversal built for `tx` is accepted for the transaction the
   * builder returned.
   */
  lemma ReversalResponseToOwnRequest(tx: DinersTransaction, response: Apdu)
    requires CanBuildReversal(tx)
    requires IsValidReversalResponse(response) && Echoes(BuildReversalRequest(tx).0, response)
    ensures ReadReversalResponse(response, BuildReversalRequest(tx).1).Some?
  {
    var (request, sent) := BuildReversalRequest(tx);
    ReversalRequestCarries(tx);
    EchoCorrelates(request, response, sent);
  }
}
