/** The echo test: an 0800 request answered by an 0810 that carries the host's clock. */
module TestTransactionMessage {
  import opened Wrappers
  import opened Iso
  import opened DinersTransactions
  import opened Protocol
  import opened Messages

  /** The 0800 echo request: the processing code, NII, terminal id and merchant id of `tx`. */
  function BuildEchoTestRequest(tx: TestTransaction): (r: Apdu)
    ensures r.mti == Some(800)
    ensures r.fields.Keys == {FIELD_PROCESSING_CODE, FIELD_NII, FIELD_CARD_ACCEPTOR_TERMINAL_ID, FIELD_CARD_ACCEPTOR_ID}
    ensures Carries(r, FIELD_PROCESSING_CODE, Str(tx.processingCode))
    ensures Carries(r, FIELD_NII, Num(tx.nii))
    ensures Carries(r, FIELD_CARD_ACCEPTOR_TERMINAL_ID, Str(tx.tid))
    ensures Carries(r, FIELD_CARD_ACCEPTOR_ID, Str(tx.mid))
  {
    Apdu(Some(800), map[
      FIELD_PROCESSING_CODE := Str(tx.processingCode),
      FIELD_NII := Num(tx.nii),
      FIELD_CARD_ACCEPTOR_TERMINAL_ID := Str(tx.tid),
      FIELD_CARD_ACCEPTOR_ID := Str(tx.mid)])
  }

  /** An 0810 with processing code, time, date, NII and terminal id. */
  predicate IsValidEchoTestResponse(response: Apdu)
  {
    IsResponseOf(response, 810, {3, 12, 13, 24, 41})
  }

  /**
   * Accepts a valid response whose processing code, NII and terminal id are
   * those of `tx`, recording the host's date and time; None otherwise. The
   * response code is not looked at.
   */
  function ReadEchoTestResponse(response: Apdu, tx: TestTransaction): (r: Option<TestTransaction>)
    ensures r.Some? <==> IsValidEchoTestResponse(response)
                         && MatchesTerminal(response, tx.processingCode, tx.nii, tx.tid)
    ensures r.Some? ==> r.value == tx.(hostDatetime := GetHostDatetime(response))
  {
    if !IsValidEchoTestResponse(response) || !MatchesTerminal(response, tx.processingCode, tx.nii, tx.tid) then None
    else Some(tx.(hostDatetime := GetHostDatetime(response)))
  }

  /** A valid 0810 that repeats the processing code, NII and terminal id of the echo request is accepted. */
  lemma EchoTestResponseToOwnRequest(tx: TestTransaction, response: Apdu)
    requires IsValidEchoTestResponse(response) && EchoesTerminal(BuildEchoTestRequest(tx), response)
    ensures ReadEchoTestResponse(response, tx).Some?
  {
    assert response.fields[FIELD_PROCESSING_CODE] == Str(tx.processingCode);
    assert response.fields[FIELD_CARD_ACCEPTOR_TERMINAL_ID] == Str(tx.tid);
    Uint32RoundTrip(response, FIELD_NII, tx.nii);
  }
}
