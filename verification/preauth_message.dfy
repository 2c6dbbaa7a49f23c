/** The pre-authorisation: an 0100 request answered by an 0110. */
module PreAuthMessage {
  import opened Wrappers
  import opened Iso
  import opened Types
  import opened DinersTransactions
  import opened DinersUtils
  import opened Protocol
  import opened Messages

  /** Every field a pre-authorisation request may carry. */
  const PREAUTH_REQUEST_FIELDS: set<int> := {2, 3, 4, 11, 14, 22, 23, 24, 25, 35, 41, 42, 48, 52, 55, 60, 62}

  /**
   * The 0100 pre-authorisation request for `tx`, and `tx` with the processing code and
   * the POS entry mode that the request carries recorded on it.
   */
  function BuildPreAuthRequest(tx: DinersTransaction): (r: (Apdu, DinersTransaction))
    ensures r.1 == tx.(processingCode := GetDinersProcessingCode(tx.transactionType, false),
                       origPosEntryMode := GetPosEntryMode(tx.posEntryMode))
    ensures r.0.mti == Some(100) && r.0.fields.Keys <= PREAUTH_REQUEST_FIELDS
    ensures forall f | f in r.0.fields :: PreAuthRequestField(r.1, f) == Some(r.0.fields[f])
    ensures forall f | f !in r.0.fields :: PreAuthRequestField(r.1, f).None?
  {
    var processingCode := GetDinersProcessingCode(tx.transactionType, false);
    var entryMode := GetPosEntryMode(tx.posEntryMode);
    var tx := tx.(processingCode := processingCode, origPosEntryMode := entryMode);
    (Apdu(Some(100), map f | f in PREAUTH_REQUEST_FIELDS && PreAuthRequestField(tx, f).Some? :: PreAuthRequestField(tx, f).value), tx)
  }

  /**
   * The pre-authorisation request carries the correlation fields of the
   * transaction it returns, the card number only when it was keyed in, the
   * pre-authorised total when there is one, and the ICC data when there is
   * any.
   */
  lemma PreAuthRequestCarries(tx: DinersTransaction)
    ensures var (request, sent) := BuildPreAuthRequest(tx);
      CarriesCorrelation(request, sent)
      && CarriesIff(request, FIELD_PAN, IsManualEntry(tx.posEntryMode) && tx.pan.Some?, Str(tx.pan.GetOr("")))
      && CarriesIff(request, FIELD_AMOUNT, GetTotalPreauthAmount(tx).Some?, Num(GetTotalPreauthAmount(tx).GetOr(0)))
      && CarriesIff(request, FIELD_ICC_DATA, HasIccData(tx.iccData), Bytes(tx.iccData.GetOr([])))
  {
  }

  /** The pre-authorisation request carries the other card data exactly when the record has it. */
  lemma PreAuthRequestCarriesOptional(tx: DinersTransaction)
    ensures var (request, _) := BuildPreAuthRequest(tx);
      CarriesIff(request, FIELD_DATE_EXPIRATION, IsManualEntry(tx.posEntryMode) && tx.expirationDate != "", Str(tx.expirationDate))
      && CarriesIff(request, FIELD_PAN_SEQUENCE_NUMBER, tx.panSequenceNumber.Some?, Num(tx.panSequenceNumber.GetOr(0)))
      && CarriesIff(request, FIELD_TRACK2_DATA, tx.track2.Some?, Bytes(tx.track2.GetOr([])))
      && CarriesIff(request, FIELD_ADDITIONAL_DATA_PRIVATE, tx.cvv != "", Str(tx.cvv))
      && CarriesIff(request, FIELD_PIN_BLOCK, tx.pinBlock.Some?, Bytes(tx.pinBlock.GetOr([])))
  {
  }

  /**
   * What the pre-authorisation request for `tx` carries in data element `f`, in the order
   * the request sets them; `tx` already holds the processing code and POS
   * entry mode of the request.
   */
  function PreAuthRequestField(tx: DinersTransaction, f: int): Option<FieldValue>
  {
    var manual := IsManualEntry(tx.posEntryMode);
    if f == FIELD_PAN then When(manual && tx.pan.Some?, Str(tx.pan.GetOr("")))
    else if f == FIELD_PROCESSING_CODE then Some(Str(tx.processingCode))
    else if f == FIELD_AMOUNT then When(GetTotalPreauthAmount(tx).Some?, Num(GetTotalPreauthAmount(tx).GetOr(0)))
    else if f == FIELD_STAN then Some(Num(tx.stan))
    else if f == FIELD_DATE_EXPIRATION then When(manual && tx.expirationDate != "", Str(tx.expirationDate))
    else if f == FIELD_POS_ENTRY_MODE then Some(Str(tx.origPosEntryMode))
    else if f == FIELD_PAN_SEQUENCE_NUMBER then When(tx.panSequenceNumber.Some?, Num(tx.panSequenceNumber.GetOr(0)))
    else if f == FIELD_NII then Some(Num(tx.nii))
    else if f == FIELD_POS_CONDITION_CODE then Some(Str(GetDinersConditionCode(tx.posConditionCode)))
    else if f == FIELD_TRACK2_DATA then When(tx.track2.Some?, Bytes(tx.track2.GetOr([])))
    else if f == FIELD_CARD_ACCEPTOR_TERMINAL_ID then Some(Str(tx.tid))
    else if f == FIELD_CARD_ACCEPTOR_ID then Some(Str(tx.mid))
    else if f == FIELD_ADDITIONAL_DATA_PRIVATE then When(tx.cvv != "", Str(tx.cvv))
    else if f == FIELD_PIN_BLOCK then When(tx.pinBlock.Some?, Bytes(tx.pinBlock.GetOr([])))
    else if f == FIELD_ICC_DATA then IccField(tx.iccData)
    else if f == FIELD_60 then Some(Padded(tx.batchNumber, 6))
    else if f == FIELD_62 then Some(Padded(tx.invoiceNumber, 6))
    else None
  }

  /** An 0110 with processing code, STAN, time, date, NII, RRN, response code and terminal id. */
  predicate IsValidPreAuthResponse(response: Apdu)
  {
    IsResponseOf(response, 110, {3, 11, 12, 13, 24, 37, 39, 41})
  }

  /**
   * Accepts a valid response that correlates with `tx`, recording on `tx`
   * the host timestamp, RRN and response code, and the authorisation id and
   * issuer EMV data when the response has them; None otherwise.
   */
  function ReadPreAuthResponse(response: Apdu, tx: DinersTransaction): (r: Option<DinersTransaction>)
    ensures r.Some? <==> IsValidPreAuthResponse(response) && Correlates(response, tx)
    ensures r.Some? ==> r.value == tx.(txDatetime := GetHostDatetime(response),
                                        authIdResponse := GetAuthIdResponse(response).GetOr(tx.authIdResponse),
                                        rrn := response.GetFieldAsString(FIELD_RRN),
                                        responseCode := response.GetFieldAsString(FIELD_RESPONSE_CODE),
                                        issuerEmvResponse := GetEmvData(response).GetOr(tx.issuerEmvResponse))
  {
    if !IsValidPreAuthResponse(response) || !Correlates(response, tx) then None
    else
      var tx := tx.(txDatetime := GetHostDatetime(response));
      var tx := if GetAuthIdResponse(response).Some? then tx.(authIdResponse := GetAuthIdResponse(response).value) else tx;
      var tx := tx.(rrn := response.GetFieldAsString(FIELD_RRN));
      var tx := tx.(responseCode := response.GetFieldAsString(FIELD_RESPONSE_CODE));
      var tx := if GetEmvData(response).Some? then tx.(issuerEmvResponse := GetEmvData(response).value) else tx;
      Some(tx)
  }

  /**
   * A valid 0110 that repeats the processing code, STAN, NII and terminal id
   * of the request built for `tx` is accepted for the transaction the
   * builder returned.
   */
  lemma PreAuthResponseToOwnRequest(tx: DinersTransaction, response: Apdu)
    requires IsValidPreAuthResponse(response) && Echoes(BuildPreAuthRequest(tx).0, response)
    ensures ReadPreAuthResponse(response, BuildPreAuthRequest(tx).1).Some?
  {
    var (request, sent) := BuildPreAuthRequest(tx);
    PreAuthRequestCarries(tx);
    EchoCorrelates(request, response, sent);
  }
}
