/** The upload of a chip transaction certificate: an 0320 answered by an 0330. */
module TcUploadMessage {
  import opened Wrappers
  import opened Iso
  import opened DinersTransactions
  import opened DinersUtils
  import opened Protocol
  import opened Messages

  /** The processing code of every certificate upload. */
  const TC_UPLOAD_PROCESSING_CODE := "940000"

  /** Every field a certificate upload may carry. */
  const TC_UPLOAD_REQUEST_FIELDS: set<int> := {2, 3, 4, 11, 12, 13, 22, 23, 24, 25, 37, 39, 41, 42, 55, 62}

  /**
   * The 0320 certificate upload for `tx`, repeating its timestamp, RRN and
   * response code, and `tx` with the fixed processing code.
   */
  function BuildTcUploadRequest(tx: DinersTransaction): (r: (Apdu, DinersTransaction))
    requires tx.pan.Some?
    ensures r.1 == tx.(processingCode := TC_UPLOAD_PROCESSING_CODE)
    ensures r.0.mti == Some(320) && r.0.fields.Keys <= TC_UPLOAD_REQUEST_FIELDS
    ensures forall f | f in r.0.fields :: TcUploadRequestField(r.1, f) == Some(r.0.fields[f])
    ensures forall f | f !in r.0.fields :: TcUploadRequestField(r.1, f).None?
  {
    var tx := tx.(processingCode := TC_UPLOAD_PROCESSING_CODE);
    (Apdu(Some(320), map f | f in TC_UPLOAD_REQUEST_FIELDS && TcUploadRequestField(tx, f).Some? :: TcUploadRequestField(tx, f).value), tx)
  }

  /**
   * The TC upload carries the correlation fields of the transaction it
   * returns, the ICC data when there is any, and the response code of the
   * transaction.
   */
  lemma TcUploadRequestCarries(tx: DinersTransaction)
    requires tx.pan.Some?
    ensures var (request, sent) := BuildTcUploadRequest(tx);
      CarriesCorrelation(request, sent)
      && CarriesIff(request, FIELD_ICC_DATA, HasIccData(tx.iccData), Bytes(tx.iccData.GetOr([])))
      && Carries(request, FIELD_RESPONSE_CODE, Str(tx.responseCode))
  {
  }

  /** The upload carries the card number and RRN, and the total and sequence number exactly when the record has them. */
  lemma TcUploadRequestCarriesOptional(tx: DinersTransaction)
    requires tx.pan.Some?
    ensures var (request, _) := BuildTcUploadRequest(tx);
      Carries(request, FIELD_PAN, Str(tx.pan.value))
      && CarriesIff(request, FIELD_AMOUNT, GetTotalAmount(tx).Some?, Num(GetTotalAmount(tx).GetOr(0)))
      && CarriesIff(request, FIELD_PAN_SEQUENCE_NUMBER, tx.panSequenceNumber.Some?, Num(tx.panSequenceNumber.GetOr(0)))
      && Carries(request, FIELD_RRN, Str(tx.rrn))
  {
  }

  /**
   * What the certificate upload for `tx` carries in data element `f`; `tx`
   * already holds the processing code of the request.
   */
  function TcUploadRequestField(tx: DinersTransaction, f: int): Option<FieldValue>
    requires tx.pan.Some?
  {
    if f == FIELD_PAN then Some(Str(tx.pan.value))
    else if f == FIELD_PROCESSING_CODE then Some(Str(tx.processingCode))
    else if f == FIELD_AMOUNT then When(GetTotalAmount(tx).Some?, Num(GetTotalAmount(tx).GetOr(0)))
    else if f == FIELD_STAN then Some(Num(tx.stan))
    else if f == FIELD_TIME_LOCAL_TRANSACTION then Some(Str(tx.txDatetime.time))
    else if f == FIELD_DATE_LOCAL_TRANSACTION then Some(Str(tx.txDatetime.date))
    else if f == FIELD_POS_ENTRY_MODE then Some(Str(GetPosEntryMode(tx.posEntryMode)))
    else if f == FIELD_PAN_SEQUENCE_NUMBER then When(tx.panSequenceNumber.Some?, Num(tx.panSequenceNumber.GetOr(0)))
    else if f == FIELD_NII then Some(Num(tx.nii))
    else if f == FIELD_POS_CONDITION_CODE then Some(Str(GetDinersConditionCode(tx.posConditionCode)))
    else if f == FIELD_RRN then Some(Str(tx.rrn))
    else if f == FIELD_RESPONSE_CODE then Some(Str(tx.responseCode))
    else if f == FIELD_CARD_ACCEPTOR_TERMINAL_ID then Some(Str(tx.tid))
    else if f == FIELD_CARD_ACCEPTOR_ID then Some(Str(tx.mid))
    else if f == FIELD_ICC_DATA then IccField(tx.iccData)
    else if f == FIELD_62 then Some(Padded(tx.invoiceNumber, 6))
    else None
  }

  /** An 0330 with processing code, STAN, time, date, NII, RRN, response code and terminal id. */
  predicate IsValidTcUploadResponse(response: Apdu)
  {
    IsResponseOf(response, 330, {3, 11, 12, 13, 24, 37, 39, 41})
  }

  /**
   * Accepts a valid response that correlates with `tx`, recording on `tx`
   * the host timestamp and response code; None otherwise.
   */
  function ReadTcUploadResponse(response: Apdu, tx: DinersTransaction): (r: Option<DinersTransaction>)
    ensures r.Some? <==> IsValidTcUploadResponse(response) && Correlates(response, tx)
    ensures r.Some? ==> r.value == tx.(txDatetime := GetHostDatetime(response),
                                        responseCode := response.GetFieldAsString(FIELD_RESPONSE_CODE))
  {
    if !IsValidTcUploadResponse(response) || !Correlates(response, tx) then None
    else
      var tx := tx.(txDatetime := GetHostDatetime(response));
      Some(tx.(responseCode := response.GetFieldAsString(FIELD_RESPONSE_CODE)))
  }

  /**
   * A valid 0330 that repeats the correlation fields of the upload built for
   * `tx` is accepted for the transaction the builder returned.
   */
  lemma TcUploadResponseToOwnRequest(tx: DinersTransaction, response: Apdu)
    requires tx.pan.Some?
    requires IsValidTcUploadResponse(response) && Echoes(BuildTcUploadRequest(tx).0, response)
    ensures ReadTcUploadResponse(response, BuildTcUploadRequest(tx).1).Some?
  {
    var (request, sent) := BuildTcUploadRequest(tx);
    TcUploadRequestCarries(tx);
    EchoCorrelates(request, response, sent);
  }
}
