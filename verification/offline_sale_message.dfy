/** The offline sale advice: an 0220 request answered by an 0230. */
module OfflineSaleMessage {
  import opened Wrappers
  import opened Iso
  import opened DinersTransactions
  import opened DinersUtils
  import opened Protocol
  import opened Messages

  /** Every field an offline sale advice may carry. */
  const OFFLINE_SALE_REQUEST_FIELDS: set<int> := {2, 3, 4, 11, 12, 13, 14, 22, 23, 24, 25, 37, 38, 39, 41, 42, 60, 62}

  /** What the advice dereferences without checking: the card number and the total amount. */
  predicate CanBuildOfflineSale(tx: DinersTransaction)
  {
    tx.pan.Some? && GetTotalAmount(tx).Some?
  }

  /**
   * The 0220 advice of a sale approved offline, and `tx` with the processing
   * code and POS entry mode the advice carries recorded on it. The RRN and
   * response code are sent for a sale completion only.
   */
  function BuildOfflineSaleRequest(tx: DinersTransaction): (r: (Apdu, DinersTransaction))
    requires CanBuildOfflineSale(tx)
    ensures r.1 == tx.(processingCode := GetDinersProcessingCode(tx.transactionType, false),
                       origPosEntryMode := GetPosEntryMode(tx.posEntryMode))
    ensures r.0.mti == Some(220) && r.0.fields.Keys <= OFFLINE_SALE_REQUEST_FIELDS
    ensures forall f | f in r.0.fields :: OfflineSaleRequestField(r.1, f) == Some(r.0.fields[f])
    ensures forall f | f !in r.0.fields :: OfflineSaleRequestField(r.1, f).None?
  {
    var processingCode := GetDinersProcessingCode(tx.transactionType, false);
    var entryMode := GetPosEntryMode(tx.posEntryMode);
    var tx := tx.(processingCode := processingCode, origPosEntryMode := entryMode);
    (Apdu(Some(220), map f | f in OFFLINE_SALE_REQUEST_FIELDS && OfflineSaleRequestField(tx, f).Some? :: OfflineSaleRequestField(tx, f).value), tx)
  }

  /**
   * The offline sale request carries the correlation fields of the
   * transaction it returns and the total amount, and the RRN and response
   * code exactly for a sale completion.
   */
  lemma OfflineSaleRequestCarries(tx: DinersTransaction)
    requires CanBuildOfflineSale(tx)
    ensures var (request, sent) := BuildOfflineSaleRequest(tx);
      CarriesCorrelation(request, sent)
      && Carries(request, FIELD_AMOUNT, Num(GetTotalAmount(tx).value))
      && CarriesIff(request, FIELD_RRN, tx.transactionType == SALE_COMPLETION, Str(tx.rrn))
      && CarriesIff(request, FIELD_RESPONSE_CODE, tx.transactionType == SALE_COMPLETION, Str(tx.responseCode))
  {
  }

  /** The advice carries the card number, the stored authorisation id, and the sequence number exactly when the record has one. */
  lemma OfflineSaleRequestCarriesOptional(tx: DinersTransaction)
    requires CanBuildOfflineSale(tx)
    ensures var (request, _) := BuildOfflineSaleRequest(tx);
      Carries(request, FIELD_PAN, Str(tx.pan.value))
      && CarriesIff(request, FIELD_PAN_SEQUENCE_NUMBER, tx.panSequenceNumber.Some?, Num(tx.panSequenceNumber.GetOr(0)))
      && Carries(request, FIELD_AUTHORIZATION_ID, Str(tx.authIdResponse))
  {
  }

  /**
   * What the offline sale advice for `tx` carries in data element `f`; `tx`
   * already holds the processing code and POS entry mode of the request.
   */
  function OfflineSaleRequestField(tx: DinersTransaction, f: int): Option<FieldValue>
    requires CanBuildOfflineSale(tx)
  {
    var completion := tx.transactionType == SALE_COMPLETION;
    if f == FIELD_PAN then Some(Str(tx.pan.value))
    else if f == FIELD_PROCESSING_CODE then Some(Str(tx.processingCode))
    else if f == FIELD_AMOUNT then Some(Num(GetTotalAmount(tx).value))
    else if f == FIELD_STAN then Some(Num(tx.stan))
    else if f == FIELD_TIME_LOCAL_TRANSACTION then Some(Str(tx.txDatetime.time))
    else if f == FIELD_DATE_LOCAL_TRANSACTION then Some(Str(tx.txDatetime.date))
    else if f == FIELD_DATE_EXPIRATION then Some(Str(tx.expirationDate))
    else if f == FIELD_POS_ENTRY_MODE then Some(Str(tx.origPosEntryMode))
    else if f == FIELD_PAN_SEQUENCE_NUMBER then When(tx.panSequenceNumber.Some?, Num(tx.panSequenceNumber.GetOr(0)))
    else if f == FIELD_NII then Some(Num(tx.nii))
    else if f == FIELD_POS_CONDITION_CODE then Some(Str(GetDinersConditionCode(tx.posConditionCode)))
    else if f == FIELD_RRN then When(completion, Str(tx.rrn))
    else if f == FIELD_AUTHORIZATION_ID then Some(Str(tx.authIdResponse))
    else if f == FIELD_RESPONSE_CODE then When(completion, Str(tx.responseCode))
    else if f == FIELD_CARD_ACCEPTOR_TERMINAL_ID then Some(Str(tx.tid))
    else if f == FIELD_CARD_ACCEPTOR_ID then Some(Str(tx.mid))
    else if f == FIELD_60 then Some(Padded(tx.batchNumber, 6))
    else if f == FIELD_62 then Some(Padded(tx.invoiceNumber, 6))
    else None
  }

  /** An 0230 with processing code, STAN, NII, RRN, response code and terminal id. */
  predicate IsValidOfflineSaleResponse(response: Apdu)
  {
    IsResponseOf(response, 230, {3, 11, 24, 37, 39, 41})
  }

  /**
   * Accepts a valid response that correlates with `tx`, recording on `tx`
   * the RRN and response code; the transaction keeps its own timestamp.
   * None otherwise.
   */
  function ReadOfflineSaleResponse(response: Apdu, tx: DinersTransaction): (r: Option<DinersTransaction>)
    ensures r.Some? <==> IsValidOfflineSaleResponse(response) && Correlates(response, tx)
    ensures r.Some? ==> r.value == tx.(rrn := response.GetFieldAsString(FIELD_RRN),
                                        responseCode := response.GetFieldAsString(FIELD_RESPONSE_CODE))
  {
    if !IsValidOfflineSaleResponse(response) || !Correlates(response, tx) then None
    else
      var tx := tx.(rrn := response.GetFieldAsString(FIELD_RRN));
      Some(tx.(responseCode := response.GetFieldAsString(FIELD_RESPONSE_CODE)))
  }

  /**
   * A valid 0230 that repeats the processing code, STAN, NII and terminal id
   * of the advice built for `tx` is accepted for the transaction the builder
   * returned.
   */
  lemma OfflineSaleResponseToOwnRequest(tx: DinersTransaction, response: Apdu)
    requires CanBuildOfflineSale(tx)
    requires IsValidOfflineSaleResponse(response) && Echoes(BuildOfflineSaleRequest(tx).0, response)
    ensures ReadOfflineSaleResponse(response, BuildOfflineSaleRequest(tx).1).Some?
  {
    var (request, sent) := BuildOfflineSaleRequest(tx);
    OfflineSaleRequestCarries(tx);
    EchoCorrelates(request, response, sent);
  }
}
