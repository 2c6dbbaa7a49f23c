/** The tip adjustment of an approved sale: an 0220 advice answered by an 0230. */
module TipAdjustMessage {
  import opened Wrappers
  import opened Iso
  import opened Types
  import opened DinersTransactions
  import opened DinersUtils
  import opened Protocol
  import opened Messages
  import Text

  /** The processing code of every tip adjustment. */
  const TIP_ADJUST_PROCESSING_CODE := "020000"

  /** Every field a tip adjustment may carry. */
  const TIP_ADJUST_REQUEST_FIELDS: set<int> := {2, 3, 4, 11, 12, 13, 14, 22, 23, 24, 25, 37, 38, 39, 41, 42, 54, 60, 62}

  /**
   * The 0220 tip adjustment for `tx`, stamped with the terminal clock `now`:
   * the new total in DE 4, the tip in DE 54 and the total before the
   * adjustment in DE 60. `tx` gets the fixed processing code.
   */
  function BuildTipAdjustRequest(tx: DinersTransaction, now: Datetime): (r: (Apdu, DinersTransaction))
    requires tx.pan.Some?
    ensures r.1 == tx.(processingCode := TIP_ADJUST_PROCESSING_CODE)
    ensures r.0.mti == Some(220) && r.0.fields.Keys <= TIP_ADJUST_REQUEST_FIELDS
    ensures forall f | f in r.0.fields :: TipAdjustRequestField(r.1, now, f) == Some(r.0.fields[f])
    ensures forall f | f !in r.0.fields :: TipAdjustRequestField(r.1, now, f).None?
  {
    var tx := tx.(processingCode := TIP_ADJUST_PROCESSING_CODE);
    (Apdu(Some(220), map f | f in TIP_ADJUST_REQUEST_FIELDS && TipAdjustRequestField(tx, now, f).Some? :: TipAdjustRequestField(tx, now, f).value), tx)
  }

  /**
   * The tip adjust request carries the correlation fields of the transaction
   * it returns, the new total when there is one, the tip when there is one,
   * and the total before the adjustment when there is a sale amount.
   */
  lemma TipAdjustRequestCarries(tx: DinersTransaction, now: Datetime)
    requires tx.pan.Some?
    ensures var (request, sent) := BuildTipAdjustRequest(tx, now);
      CarriesCorrelation(request, sent)
      && CarriesIff(request, FIELD_AMOUNT, GetTotalAmount(tx).Some?, Num(GetTotalAmount(tx).GetOr(0)))
      && CarriesIff(request, FIELD_ADDITIONAL_AMOUNT, tx.additionalAmount.Some?, Padded(tx.additionalAmount.GetOr(0), 12))
      && CarriesIff(request, FIELD_60, tx.amount.Some?, Padded(GetTotalOriginalAmount(tx).GetOr(0), 12))
  {
  }

  /**
   * What the tip adjustment for `tx` carries in data element `f`; `tx`
   * already holds the processing code of the request.
   */
  function TipAdjustRequestField(tx: DinersTransaction, now: Datetime, f: int): Option<FieldValue>
    requires tx.pan.Some?
  {
    if f == FIELD_PAN then Some(Str(tx.pan.value))
    else if f == FIELD_PROCESSING_CODE then Some(Str(tx.processingCode))
    else if f == FIELD_AMOUNT then When(GetTotalAmount(tx).Some?, Num(GetTotalAmount(tx).GetOr(0)))
    else if f == FIELD_STAN then Some(Num(tx.stan))
    else if f == FIELD_TIME_LOCAL_TRANSACTION then Some(Str(now.time))
    else if f == FIELD_DATE_LOCAL_TRANSACTION then Some(Str(now.date))
    else if f == FIELD_DATE_EXPIRATION then Some(Str(tx.expirationDate))
    else if f == FIELD_POS_ENTRY_MODE then Some(Str(GetPosEntryMode(tx.posEntryMode)))
    else if f == FIELD_PAN_SEQUENCE_NUMBER then When(tx.panSequenceNumber.Some?, Num(tx.panSequenceNumber.GetOr(0)))
    else if f == FIELD_NII then Some(Num(tx.nii))
    else if f == FIELD_POS_CONDITION_CODE then Some(Str(GetDinersConditionCode(tx.posConditionCode)))
    else if f == FIELD_RRN then Some(Str(tx.rrn))
    else if f == FIELD_AUTHORIZATION_ID then Some(Str(tx.authIdResponse))
    else if f == FIELD_RESPONSE_CODE then Some(Str(tx.responseCode))
    else if f == FIELD_CARD_ACCEPTOR_TERMINAL_ID then Some(Str(tx.tid))
    else if f == FIELD_CARD_ACCEPTOR_ID then Some(Str(tx.mid))
    else if f == FIELD_ADDITIONAL_AMOUNT then When(tx.additionalAmount.Some?, Padded(tx.additionalAmount.GetOr(0), 12))
    else if f == FIELD_60 then When(tx.amount.Some?, Padded(GetTotalOriginalAmount(tx).GetOr(0), 12))
    else if f == FIELD_62 then Some(Padded(tx.invoiceNumber, 6))
    else None
  }

  /** An 0230 with processing code, STAN, NII, RRN, response code and terminal id. */
  predicate IsValidTipAdjustResponse(response: Apdu)
  {
    IsResponseOf(response, 230, {3, 11, 24, 37, 39, 41})
  }

  /** DE 60 of the response read as an integer; 0 when absent or not numeric. */
  function GetOriginalAmount(response: Apdu): nat
  {
    response.GetFieldAsInteger(FIELD_60)
  }

  /**
   * Accepts a valid response that correlates with `tx`, recording on `tx`
   * the response code and RRN, and as the sale amount the amount of DE 60
   * when that is not zero; None otherwise.
   */
  function ReadTipAdjustResponse(response: Apdu, tx: DinersTransaction): (r: Option<DinersTransaction>)
    ensures r.Some? <==> IsValidTipAdjustResponse(response) && Correlates(response, tx)
    ensures r.Some? ==> r.value == tx.(responseCode := response.GetFieldAsString(FIELD_RESPONSE_CODE),
                                        rrn := response.GetFieldAsString(FIELD_RRN),
                                        amount := if GetOriginalAmount(response) != 0 then Some(GetOriginalAmount(response)) else tx.amount)
  {
    if !IsValidTipAdjustResponse(response) || !Correlates(response, tx) then None
    else
      var tx := tx.(responseCode := response.GetFieldAsString(FIELD_RESPONSE_CODE));
      var tx := tx.(rrn := response.GetFieldAsString(FIELD_RRN));
      var originalAmount := GetOriginalAmount(response);
      Some(if originalAmount != 0 then tx.(amount := Some(originalAmount)) else tx)
  }

  /**
   * A valid 0230 that repeats the correlation fields of the tip adjustment
   * built for `tx` is accepted for the transaction the builder returned.
   */
  lemma TipAdjustResponseToOwnRequest(tx: DinersTransaction, now: Datetime, response: Apdu)
    requires tx.pan.Some?
    requires IsValidTipAdjustResponse(response) && Echoes(BuildTipAdjustRequest(tx, now).0, response)
    ensures ReadTipAdjustResponse(response, BuildTipAdjustRequest(tx, now).1).Some?
  {
    var (request, sent) := BuildTipAdjustRequest(tx, now);
    TipAdjustRequestCarries(tx, now);
    EchoCorrelates(request, response, sent);
  }

  /**
   * When the host also repeats DE 60, the transaction accepted from the
   * response has as its sale amount the total before the adjustment that
   * the request reported, provided that total is not zero and fits the
   * twelve digits of the field.
   */
  lemma TipAdjustEchoedOriginalAmount(tx: DinersTransaction, now: Datetime, response: Apdu)
    requires tx.pan.Some? && tx.amount.Some?
    requires 0 < GetTotalOriginalAmount(tx).value < Text.Pow10(12)
    requires IsValidTipAdjustResponse(response) && Echoes(BuildTipAdjustRequest(tx, now).0, response)
    requires SameField(response, BuildTipAdjustRequest(tx, now).0, FIELD_60)
    ensures ReadTipAdjustResponse(response, BuildTipAdjustRequest(tx, now).1).Some?
    ensures ReadTipAdjustResponse(response, BuildTipAdjustRequest(tx, now).1).value.amount == GetTotalOriginalAmount(tx)
  {
    var (request, sent) := BuildTipAdjustRequest(tx, now);
    TipAdjustRequestCarries(tx, now);
    EchoCorrelates(request, response, sent);
    PaddedFieldRoundTrip(response, FIELD_60, GetTotalOriginalAmount(tx).value, 12);
  }
}
