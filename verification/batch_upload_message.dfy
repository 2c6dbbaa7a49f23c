/**
 * The upload of one batch transaction before a settlement retry: an 0320
 * answered by an 0330.
 */
module BatchUploadMessage {
  import opened Wrappers
  import opened Iso
  import opened DinersTransactions
  import opened DinersUtils
  import opened Protocol
  import opened Messages
  import Text

  /** Every field a batch upload may carry. */
  const BATCH_UPLOAD_REQUEST_FIELDS: set<int> := {2, 3, 4, 11, 12, 13, 14, 22, 24, 25, 37, 38, 41, 42, 60, 62}

  /** The reserved subfield that ends DE 60: twelve spaces. */
  const RESERVED_DATA := "            "

  /**
   * The message type of the request that first sent a transaction of this
   * type: 0200 for sales and refunds, 0220 for sale completions and offline
   * sales; no other type is described.
   */
  function OriginalMti(transactionType: DinersTransactionType): Option<string>
  {
    match transactionType
    case SALE | REFUND => Some("0200")
    case SALE_COMPLETION | OFFLINE_SALE => Some("0220")
    case _ => None
  }

  /**
   * DE 60 of a batch upload: the message type of the original request and
   * its STAN padded to six digits, then the reserved subfield; empty for a
   * type with no original message type.
   */
  function Field60(transactionType: DinersTransactionType, stan: uint32): (s: string)
    ensures s == "" <==> OriginalMti(transactionType).None?
    ensures s != "" ==> |s| >= 22 && s[..4] == OriginalMti(transactionType).value
                        && s[|s| - 12..] == RESERVED_DATA
  {
    var mti := OriginalMti(transactionType);
    if mti.Some? then mti.value + Text.NumericPadded(stan, 6) + RESERVED_DATA else ""
  }

  /**
   * For a six-digit STAN, DE 60 is 22 characters long and the STAN of the
   * original request reads back from characters 4 to 9.
   */
  lemma Field60RoundTrip(transactionType: DinersTransactionType, stan: uint32)
    requires OriginalMti(transactionType).Some?
    requires stan < Text.Pow10(6)
    ensures |Field60(transactionType, stan)| == 22
    ensures Text.AllDigits(Field60(transactionType, stan)[4..10])
    ensures Text.ParseDecimal(Field60(transactionType, stan)[4..10]) == stan
  {
    Field60Stan(transactionType, stan);
    Text.PaddedRoundTrip(stan, 6);
  }

  /** Characters 4 to 9 of DE 60 are the padded STAN. */
  lemma Field60Stan(transactionType: DinersTransactionType, stan: uint32)
    requires OriginalMti(transactionType).Some?
    requires stan < Text.Pow10(6)
    ensures |Field60(transactionType, stan)| == 22
    ensures Field60(transactionType, stan)[4..10] == Text.NumericPadded(stan, 6)
  {
    Text.DecimalStringLength(stan, 6);
    Field60Layout(OriginalMti(transactionType).value, Text.NumericPadded(stan, 6));
  }

  /** The STAN sits at characters 4 to 9 of DE 60. */
  lemma Field60Layout(mti: string, padded: string)
    requires |mti| == 4 && |padded| == 6
    ensures |mti + padded + RESERVED_DATA| == 22
    ensures (mti + padded + RESERVED_DATA)[4..10] == padded
  {
    var s := mti + padded + RESERVED_DATA;
    forall i | 0 <= i < 6
      ensures s[4..10][i] == padded[i]
    {
      assert s[4 + i] == padded[i];
    }
  }

  /**
   * DE 4 of a batch upload: the pre-authorised total for a pre-authorisation
   * or authorisation, the total amount for any other type with a sale
   * amount, and none otherwise.
   */
  function BatchUploadAmount(tx: DinersTransaction): (r: Option<Amount>)
    ensures (tx.transactionType == DinersTransactionType.PREAUTH || tx.transactionType == AUTHORIZATION)
            ==> r == GetTotalPreauthAmount(tx)
    ensures !(tx.transactionType == DinersTransactionType.PREAUTH || tx.transactionType == AUTHORIZATION)
            ==> (r.Some? <==> tx.amount.Some?) && (r.Some? ==> r == GetTotalAmount(tx))
  {
    if tx.transactionType == DinersTransactionType.PREAUTH || tx.transactionType == AUTHORIZATION then
      if tx.preauthAmount.Some? then GetTotalPreauthAmount(tx) else None
    else if tx.amount.Some? then GetTotalAmount(tx)
    else None
  }

  /**
   * The 0320 upload of `tx` under the STAN `batchUploadStan` of the upload
   * itself, with the transaction's own STAN in DE 60, and `tx` with the
   * processing code recorded on it.
   */
  function BuildBatchUploadRequest(tx: DinersTransaction, batchUploadStan: uint32): (r: (Apdu, DinersTransaction))
    requires tx.pan.Some?
    ensures r.1 == tx.(processingCode := GetDinersProcessingCode(tx.transactionType, false))
    ensures r.0.mti == Some(320) && r.0.fields.Keys <= BATCH_UPLOAD_REQUEST_FIELDS
    ensures forall f | f in r.0.fields :: BatchUploadRequestField(r.1, batchUploadStan, f) == Some(r.0.fields[f])
    ensures forall f | f !in r.0.fields :: BatchUploadRequestField(r.1, batchUploadStan, f).None?
  {
    var tx := tx.(processingCode := GetDinersProcessingCode(tx.transactionType, false));
    (Apdu(Some(320), map f | f in BATCH_UPLOAD_REQUEST_FIELDS && BatchUploadRequestField(tx, batchUploadStan, f).Some? :: BatchUploadRequestField(tx, batchUploadStan, f).value), tx)
  }

  /**
   * The batch upload carries the processing code it records, its own STAN,
   * the NII and terminal id of the transaction, and in DE 60 the original
   * message type and STAN.
   */
  lemma BatchUploadRequestCarries(tx: DinersTransaction, batchUploadStan: uint32)
    requires tx.pan.Some?
    ensures var (request, sent) := BuildBatchUploadRequest(tx, batchUploadStan);
      Carries(request, FIELD_PROCESSING_CODE, Str(sent.processingCode))
      && Carries(request, FIELD_STAN, Num(batchUploadStan))
      && Carries(request, FIELD_NII, Num(tx.nii)) && Carries(request, FIELD_CARD_ACCEPTOR_TERMINAL_ID, Str(tx.tid))
      && Carries(request, FIELD_60, Str(Field60(tx.transactionType, tx.stan)))
  {
  }

  /** The upload carries the card number, RRN and authorisation id, and its amount exactly when there is one. */
  lemma BatchUploadRequestCarriesOptional(tx: DinersTransaction, batchUploadStan: uint32)
    requires tx.pan.Some?
    ensures var (request, _) := BuildBatchUploadRequest(tx, batchUploadStan);
      Carries(request, FIELD_PAN, Str(tx.pan.value))
      && CarriesIff(request, FIELD_AMOUNT, BatchUploadAmount(tx).Some?, Num(BatchUploadAmount(tx).GetOr(0)))
      && Carries(request, FIELD_RRN, Str(tx.rrn)) && Carries(request, FIELD_AUTHORIZATION_ID, Str(tx.authIdResponse))
  {
  }

  /**
   * What the batch upload of `tx` carries in data element `f`; `tx` already
   * holds the processing code of the request.
   */
  function BatchUploadRequestField(tx: DinersTransaction, batchUploadStan: uint32, f: int): Option<FieldValue>
    requires tx.pan.Some?
  {
    if f == FIELD_PAN then Some(Str(tx.pan.value))
    else if f == FIELD_PROCESSING_CODE then Some(Str(tx.processingCode))
    else if f == FIELD_AMOUNT then When(BatchUploadAmount(tx).Some?, Num(BatchUploadAmount(tx).GetOr(0)))
    else if f == FIELD_STAN then Some(Num(batchUploadStan))
    else if f == FIELD_TIME_LOCAL_TRANSACTION then Some(Str(tx.txDatetime.time))
    else if f == FIELD_DATE_LOCAL_TRANSACTION then Some(Str(tx.txDatetime.date))
    else if f == FIELD_DATE_EXPIRATION then Some(Str(tx.expirationDate))
    else if f == FIELD_POS_ENTRY_MODE then Some(Str(GetPosEntryMode(tx.posEntryMode)))
    else if f == FIELD_NII then Some(Num(tx.nii))
    else if f == FIELD_POS_CONDITION_CODE then Some(Str(GetDinersConditionCode(tx.posConditionCode)))
    else if f == FIELD_RRN then Some(Str(tx.rrn))
    else if f == FIELD_AUTHORIZATION_ID then Some(Str(tx.authIdResponse))
    else if f == FIELD_CARD_ACCEPTOR_TERMINAL_ID then Some(Str(tx.tid))
    else if f == FIELD_CARD_ACCEPTOR_ID then Some(Str(tx.mid))
    else if f == FIELD_60 then Some(Str(Field60(tx.transactionType, tx.stan)))
    else if f == FIELD_62 then Some(Padded(tx.invoiceNumber, 6))
    else None
  }

  /** An 0330 with processing code, STAN, time, date, NII, RRN, response code and terminal id. */
  predicate IsValidBatchUploadResponse(response: Apdu)
  {
    IsResponseOf(response, 330, {3, 11, 12, 13, 24, 37, 39, 41})
  }

  /**
   * The upload is accepted when the response is valid, matches the
   * transaction's processing code, NII and terminal id, and approves with
   * response code "00". The STAN is not compared and the transaction is
   * not changed.
   */
  predicate ReadBatchUploadResponse(response: Apdu, tx: DinersTransaction)
  {
    IsValidBatchUploadResponse(response)
    && MatchesTerminal(response, tx.processingCode, tx.nii, tx.tid)
    && response.GetFieldAsString(FIELD_RESPONSE_CODE) == "00"
  }

  /**
   * A valid approving 0330 that repeats the processing code, NII and
   * terminal id of the upload built for `tx` is accepted, whatever STAN it
   * carries.
   */
  lemma BatchUploadResponseToOwnRequest(tx: DinersTransaction, batchUploadStan: uint32, response: Apdu)
    requires tx.pan.Some?
    requires IsValidBatchUploadResponse(response) && EchoesTerminal(BuildBatchUploadRequest(tx, batchUploadStan).0, response)
    requires response.GetFieldAsString(FIELD_RESPONSE_CODE) == "00"
    ensures ReadBatchUploadResponse(response, BuildBatchUploadRequest(tx, batchUploadStan).1)
  {
    var (request, sent) := BuildBatchUploadRequest(tx, batchUploadStan);
    BatchUploadRequestCarries(tx, batchUploadStan);
    EchoMatchesTerminal(request, response, sent.processingCode, tx.nii, tx.tid);
  }
}
