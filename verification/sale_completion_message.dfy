/**
 * The completion of a pre-authorised sale: an 0220 advice. The response is
 * accepted with message type 0210, as the code checks it.
 */
module SaleCompletionMessage {
  import opened Wrappers
  import opened Iso
  import opened DinersTransactions
  import opened DinersUtils
  import opened Protocol
  import opened Messages

  /** Every field a sale completion request may carry. */
  const SALE_COMPLETION_REQUEST_FIELDS: set<int> := {2, 3, 4, 11, 12, 13, 14, 22, 23, 24, 25, 37, 38, 39, 41, 42, 60, 62}

  /**
   * The 0220 sale completion for `tx`, repeating the timestamp, RRN,
   * authorisation id and response code of the pre-authorisation it
   * completes, and `tx` with the processing code and POS entry mode the
   * request carries recorded on it.
   */
  function BuildSaleCompletionRequest(tx: DinersTransaction): (r: (Apdu, DinersTransaction))
    ensures r.1 == tx.(processingCode := GetDinersProcessingCode(tx.transactionType, false),
                       origPosEntryMode := GetPosEntryMode(tx.posEntryMode))
    ensures r.0.mti == Some(220) && r.0.fields.Keys <= SALE_COMPLETION_REQUEST_FIELDS
    ensures forall f | f in r.0.fields :: SaleCompletionRequestField(r.1, f) == Some(r.0.fields[f])
    ensures forall f | f !in r.0.fields :: SaleCompletionRequestField(r.1, f).None?
  {
    var processingCode := GetDinersProcessingCode(tx.transactionType, false);
    var entryMode := GetPosEntryMode(tx.posEntryMode);
    var tx := tx.(processingCode := processingCode, origPosEntryMode := entryMode);
    (Apdu(Some(220), map f | f in SALE_COMPLETION_REQUEST_FIELDS && SaleCompletionRequestField(tx, f).Some? :: SaleCompletionRequestField(tx, f).value), tx)
  }

  /**
   * The completion request carries the correlation fields of the transaction
   * it returns, the total amount when there is one, and the authorisation id
   * and response code of the pre-authorisation it completes.
   */
  lemma SaleCompletionRequestCarries(tx: DinersTransaction)
    ensures var (request, sent) := BuildSaleCompletionRequest(tx);
      CarriesCorrelation(request, sent)
      && CarriesIff(request, FIELD_AMOUNT, GetTotalAmount(tx).Some?, Num(GetTotalAmount(tx).GetOr(0)))
      && Carries(request, FIELD_AUTHORIZATION_ID, Str(tx.authIdResponse))
      && Carries(request, FIELD_RESPONSE_CODE, Str(tx.responseCode))
  {
  }

  /** The completion carries the card number and sequence number exactly when the record has them, and the stored RRN. */
  lemma SaleCompletionRequestCarriesOptional(tx: DinersTransaction)
    ensures var (request, _) := BuildSaleCompletionRequest(tx);
      CarriesIff(request, FIELD_PAN, tx.pan.Some?, Str(tx.pan.GetOr("")))
      && CarriesIff(request, FIELD_PAN_SEQUENCE_NUMBER, tx.panSequenceNumber.Some?, Num(tx.panSequenceNumber.GetOr(0)))
      && Carries(request, FIELD_RRN, Str(tx.rrn))
  {
  }

  /**
   * What the sale completion for `tx` carries in data element `f`; `tx`
   * already holds the processing code and POS entry mode of the request.
   */
  function SaleCompletionRequestField(tx: DinersTransaction, f: int): Option<FieldValue>
  {
    if f == FIELD_PAN then When(tx.pan.Some?, Str(tx.pan.GetOr("")))
    else if f == FIELD_PROCESSING_CODE then Some(Str(tx.processingCode))
    else if f == FIELD_AMOUNT then When(GetTotalAmount(tx).Some?, Num(GetTotalAmount(tx).GetOr(0)))
    else if f == FIELD_STAN then Some(Num(tx.stan))
    else if f == FIELD_TIME_LOCAL_TRANSACTION then Some(Str(tx.txDatetime.time))
    else if f == FIELD_DATE_LOCAL_TRANSACTION then Some(Str(tx.txDatetime.date))
    else if f == FIELD_DATE_EXPIRATION then Some(Str(tx.expirationDate))
    else if f == FIELD_POS_ENTRY_MODE then Some(Str(tx.origPosEntryMode))
    else if f == FIELD_PAN_SEQUENCE_NUMBER then When(tx.panSequenceNumber.Some?, Num(tx.panSequenceNumber.GetOr(0)))
    else if f == FIELD_NII then Some(Num(tx.nii))
    else if f == FIELD_POS_CONDITION_CODE then Some(Str(GetDinersConditionCode(tx.posConditionCode)))
    else if f == FIELD_RRN then Some(Str(tx.rrn))
    else if f == FIELD_AUTHORIZATION_ID then Some(Str(tx.authIdResponse))
    else if f == FIELD_RESPONSE_CODE then Some(Str(tx.responseCode))
    else if f == FIELD_CARD_ACCEPTOR_TERMINAL_ID then Some(Str(tx.tid))
    else if f == FIELD_CARD_ACCEPTOR_ID then Some(Str(tx.mid))
    else if f == FIELD_60 then Some(Padded(tx.batchNumber, 6))
    else if f == FIELD_62 then Some(Padded(tx.invoiceNumber, 6))
    else None
  }

  /** An 0210 with processing code, STAN, time, date, NII, RRN, response code and terminal id. */
  predicate IsValidSaleCompletionResponse(response: Apdu)
  {
    IsResponseOf(response, 210, {3, 11, 12, 13, 24, 37, 39, 41})
  }

  /**
   * Accepts a valid response that correlates with `tx`, recording on `tx`
   * the host timestamp and response code, and the authorisation id when the
   * response has one; None otherwise. The RRN is not taken.
   */
  function ReadSaleCompletionResponse(response: Apdu, tx: DinersTransaction): (r: Option<DinersTransaction>)
    ensures r.Some? <==> IsValidSaleCompletionResponse(response) && Correlates(response, tx)
    ensures r.Some? ==> r.value == tx.(txDatetime := GetHostDatetime(response),
                                        authIdResponse := GetAuthIdResponse(response).GetOr(tx.authIdResponse),
                                        responseCode := response.GetFieldAsString(FIELD_RESPONSE_CODE))
  {
    if !IsValidSaleCompletionResponse(response) || !Correlates(response, tx) then None
    else
      var tx := tx.(txDatetime := GetHostDatetime(response));
      var tx := if GetAuthIdResponse(response).Some? then tx.(authIdResponse := GetAuthIdResponse(response).value) else tx;
      Some(tx.(responseCode := response.GetFieldAsString(FIELD_RESPONSE_CODE)))
  }

  /**
   * A valid 0210 that repeats the processing code, STAN, NII and terminal id
   * of the completion built for `tx` is accepted for the transaction the
   * builder returned.
   */
  lemma SaleCompletionResponseToOwnRequest(tx: DinersTransaction, response: Apdu)
    requires IsValidSaleCompletionResponse(response) && Echoes(BuildSaleCompletionRequest(tx).0, response)
    ensures ReadSaleCompletionResponse(response, BuildSaleCompletionRequest(tx).1).Some?
  {
    var (request, sent) := BuildSaleCompletionRequest(tx);
    SaleCompletionRequestCarries(tx);
    EchoCorrelates(request, response, sent);
  }
}
