/** The settlement of a batch: an 0500 request answered by an 0510. */
module SettlementMessage {
  import opened Wrappers
  import opened Iso
  import opened DinersTransactions
  import opened Protocol
  import opened Messages
  import Text

  /**
   * The processing code of a settlement: "920000" for the first attempt,
   * "960000" for the attempt that follows a batch upload.
   */
  function SettlementProcessingCode(afterBatchUpload: bool): (pc: string)
    ensures |pc| == 6 && pc[0] == '9' && pc[2..] == "0000"
    ensures pc[1] == (if afterBatchUpload then '6' else '2')
  {
    if !afterBatchUpload then "920000" else "960000"
  }

  /** The unused blocks that close DE 63: thirty zero characters. */
  const EMPTY_BLOCK := Text.Repeat('0', 30)

  /**
   * DE 63 as text: the sales count (3 digits) and amount (12 digits), the
   * refunds count (3 digits) and amount (12 digits), then two empty blocks.
   */
  function BatchTotalString(totals: BatchTotalsForDinersHost): string
  {
    Text.NumericPadded(totals.salesTotal.count, 3)
    + Text.NumericPadded(totals.salesTotal.total, 12)
    + Text.NumericPadded(totals.refundsTotal.count, 3)
    + Text.NumericPadded(totals.refundsTotal.total, 12)
    + EMPTY_BLOCK + EMPTY_BLOCK
  }

  /**
   * When every count fits three digits and every amount twelve, DE 63 is 90
   * characters long and each count and amount reads back from its own
   * position; the last 60 characters are zeros.
   */
  lemma BatchTotalRoundTrip(totals: BatchTotalsForDinersHost)
    requires totals.salesTotal.count < Text.Pow10(3) && totals.refundsTotal.count < Text.Pow10(3)
    requires totals.salesTotal.total < Text.Pow10(12) && totals.refundsTotal.total < Text.Pow10(12)
    ensures var s := BatchTotalString(totals);
      |s| == 90
      && Text.AllDigits(s[0..3]) && Text.ParseDecimal(s[0..3]) == totals.salesTotal.count
      && Text.AllDigits(s[3..15]) && Text.ParseDecimal(s[3..15]) == totals.salesTotal.total
      && Text.AllDigits(s[15..18]) && Text.ParseDecimal(s[15..18]) == totals.refundsTotal.count
      && Text.AllDigits(s[18..30]) && Text.ParseDecimal(s[18..30]) == totals.refundsTotal.total
      && s[30..] == Text.Repeat('0', 60)
  {
    var a := Text.NumericPadded(totals.salesTotal.count, 3);
    var b := Text.NumericPadded(totals.salesTotal.total, 12);
    var c := Text.NumericPadded(totals.refundsTotal.count, 3);
    var d := Text.NumericPadded(totals.refundsTotal.total, 12);
    var e := EMPTY_BLOCK + EMPTY_BLOCK;
    Text.PaddedRoundTrip(totals.salesTotal.count, 3);
    Text.PaddedRoundTrip(totals.salesTotal.total, 12);
    Text.PaddedRoundTrip(totals.refundsTotal.count, 3);
    Text.PaddedRoundTrip(totals.refundsTotal.total, 12);
    assert e == Text.Repeat('0', 60);
    assert BatchTotalString(totals) == a + b + c + d + e;
    Layout(a, b, c, d, e);
  }

  /** Where each part of DE 63 sits once the four totals have their widths. */
  lemma Layout(a: string, b: string, c: string, d: string, e: string)
    requires |a| == 3 && |b| == 12 && |c| == 3 && |d| == 12 && |e| == 60
    ensures var s := a + b + c + d + e;
      |s| == 90 && s[0..3] == a && s[3..15] == b && s[15..18] == c && s[18..30] == d && s[30..] == e
  {
    var s := a + b + c + d + e;
    assert s[0..3] == a;
    assert s[3..15] == b;
    assert s[15..18] == c;
    assert s[18..30] == d;
    assert s[30..] == e;
  }

  /** Every field a settlement request carries. */
  const SETTLEMENT_REQUEST_FIELDS: set<int> := {3, 11, 24, 41, 42, 60, 63}

  /**
   * The 0500 settlement request for `data`, and `data` with the processing
   * code recorded on it. The batch totals travel as the bytes of their
   * text in DE 63.
   */
  function BuildSettlementRequest(data: DinersSettlementData, afterBatchUpload: bool): (r: (Apdu, DinersSettlementData))
    ensures r.1 == data.(processingCode := SettlementProcessingCode(afterBatchUpload))
    ensures r.0.mti == Some(500) && r.0.fields.Keys == SETTLEMENT_REQUEST_FIELDS
    ensures Carries(r.0, FIELD_PROCESSING_CODE, Str(r.1.processingCode))
    ensures Carries(r.0, FIELD_STAN, Num(data.stan))
    ensures Carries(r.0, FIELD_NII, Num(data.nii))
    ensures Carries(r.0, FIELD_CARD_ACCEPTOR_TERMINAL_ID, Str(data.tid))
    ensures Carries(r.0, FIELD_CARD_ACCEPTOR_ID, Str(data.mid))
    ensures Carries(r.0, FIELD_60, Padded(data.batchNumber, 6))
    ensures Carries(r.0, FIELD_63, Bytes(Text.AsciiBytes(BatchTotalString(data.batchSummary))))
  {
    var processingCode := SettlementProcessingCode(afterBatchUpload);
    var fields := map[
      FIELD_PROCESSING_CODE := Str(processingCode),
      FIELD_STAN := Num(data.stan),
      FIELD_NII := Num(data.nii),
      FIELD_CARD_ACCEPTOR_TERMINAL_ID := Str(data.tid),
      FIELD_CARD_ACCEPTOR_ID := Str(data.mid),
      FIELD_60 := Padded(data.batchNumber, 6),
      FIELD_63 := Bytes(Text.AsciiBytes(BatchTotalString(data.batchSummary)))];
    (Apdu(Some(500), fields), data.(processingCode := processingCode))
  }

  /** An 0510 with processing code, STAN, time, date, NII, RRN, response code and terminal id. */
  predicate IsValidSettlementResponse(response: Apdu)
  {
    IsResponseOf(response, 510, {3, 11, 12, 13, 24, 37, 39, 41})
  }

  /**
   * Accepts a valid response whose processing code, STAN, NII and terminal id
   * are the settlement's, recording the host timestamp, response code and
   * RRN; None otherwise.
   */
  function ReadSettlementResponse(response: Apdu, data: DinersSettlementData): (r: Option<DinersSettlementData>)
    ensures r.Some? <==> IsValidSettlementResponse(response)
                         && MatchesTerminal(response, data.processingCode, data.nii, data.tid)
                         && response.GetFieldAsUint32(FIELD_STAN) == data.stan
    ensures r.Some? ==> r.value == data.(txDatetime := GetHostDatetime(response),
                                          responseCode := response.GetFieldAsString(FIELD_RESPONSE_CODE),
                                          rrn := response.GetFieldAsString(FIELD_RRN))
  {
    if !IsValidSettlementResponse(response)
       || !MatchesTerminal(response, data.processingCode, data.nii, data.tid)
       || response.GetFieldAsUint32(FIELD_STAN) != data.stan
    then None
    else
      var data := data.(txDatetime := GetHostDatetime(response));
      var data := data.(responseCode := response.GetFieldAsString(FIELD_RESPONSE_CODE));
      Some(data.(rrn := response.GetFieldAsString(FIELD_RRN)))
  }

  /**
   * A valid 0510 that repeats the processing code, STAN, NII and terminal id
   * of the settlement request built for `data` is accepted for the data the
   * builder returned.
   */
  lemma SettlementResponseToOwnRequest(data: DinersSettlementData, afterBatchUpload: bool, response: Apdu)
    requires IsValidSettlementResponse(response)
    requires Echoes(BuildSettlementRequest(data, afterBatchUpload).0, response)
    ensures ReadSettlementResponse(response, BuildSettlementRequest(data, afterBatchUpload).1).Some?
  {
    var (request, sent) := BuildSettlementRequest(data, afterBatchUpload);
    EchoedField(request, response, FIELD_PROCESSING_CODE, Str(sent.processingCode));
    EchoedField(request, response, FIELD_STAN, Num(sent.stan));
    EchoedField(request, response, FIELD_NII, Num(sent.nii));
    EchoedField(request, response, FIELD_CARD_ACCEPTOR_TERMINAL_ID, Str(sent.tid));
    Uint32RoundTrip(response, FIELD_STAN, sent.stan);
    Uint32RoundTrip(response, FIELD_NII, sent.nii);
    assert MatchesTerminal(response, sent.processingCode, sent.nii, sent.tid);
  }

  /** A field the response repeats holds what the request carried. */
  lemma EchoedField(request: Apdu, response: Apdu, f: int, v: FieldValue)
    requires Carries(request, f, v) && SameField(response, request, f)
    ensures Carries(response, f, v)
  {
  }

}
