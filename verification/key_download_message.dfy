/** The terminal master key download: an 0800 request answered by an 0810. */
module KeyDownloadMessage {
  import opened Wrappers
  import opened Iso
  import opened DinersTransactions
  import opened Protocol
  import opened Messages

  /** The processing code of every key download request. */
  const KEY_DOWNLOAD_PROCESSING_CODE := "920000"

  /** The encrypted master key occupies bytes 2 to 17 of DE 62. */
  const TMK_OFFSET := 2
  const TMK_END := 18

  /**
   * The 0800 key download request: the fixed processing code and the NII,
   * terminal id and merchant id of `tx`. No STAN is sent and `tx` is left as
   * it is.
   */
  function BuildKeyDownloadRequest(tx: DinersTransaction): (r: Apdu)
    ensures r.mti == Some(800)
    ensures r.fields.Keys == {FIELD_PROCESSING_CODE, FIELD_NII, FIELD_CARD_ACCEPTOR_TERMINAL_ID, FIELD_CARD_ACCEPTOR_ID}
    ensures Carries(r, FIELD_PROCESSING_CODE, Str(KEY_DOWNLOAD_PROCESSING_CODE))
    ensures Carries(r, FIELD_NII, Num(tx.nii))
    ensures Carries(r, FIELD_CARD_ACCEPTOR_TERMINAL_ID, Str(tx.tid))
    ensures Carries(r, FIELD_CARD_ACCEPTOR_ID, Str(tx.mid))
  {
    Apdu(Some(800), map[
      FIELD_PROCESSING_CODE := Str(KEY_DOWNLOAD_PROCESSING_CODE),
      FIELD_NII := Num(tx.nii),
      FIELD_CARD_ACCEPTOR_TERMINAL_ID := Str(tx.tid),
      FIELD_CARD_ACCEPTOR_ID := Str(tx.mid)])
  }

  /** An 0810 with processing code, time, date, NII, response code, terminal id and DE 62. */
  predicate IsValidKeyDownloadResponse(response: Apdu)
  {
    IsResponseOf(response, 810, {3, 12, 13, 24, 39, 41, 62})
  }

  /** What taking bytes 2 to 17 of DE 62 gives: the key, or a read past the end of the field. */
  datatype TmkSlice = Tmk(key: seq<bv8>) | OutOfBounds

  /**
   * The encrypted key as the response code takes it: bytes 2 to 17 of DE 62,
   * whatever the length of the field. A field shorter than 18 bytes makes
   * the read run past its end.
   */
  function EncryptedTmkAsWritten(response: Apdu): (r: TmkSlice)
    ensures r.OutOfBounds? <==> |response.GetFieldAsBytes(FIELD_62)| < TMK_END
    ensures r.Tmk? ==> |r.key| == TMK_END - TMK_OFFSET
  {
    var content := response.GetFieldAsBytes(FIELD_62);
    if |content| < TMK_END then OutOfBounds else Tmk(content[TMK_OFFSET..TMK_END])
  }

  /** A valid 0810 whose DE 62 holds two bytes: the read of the key runs past its end. */
  lemma ShortField62OverrunsKey()
    ensures var response := Apdu(Some(810), map[3 := Str("920000"), 12 := Str("120000"), 13 := Str("0101"),
                                                24 := Num(1), 39 := Str("00"), 41 := Str("T1"),
                                                62 := Bytes([0, 1])]);
      IsValidKeyDownloadResponse(response) && EncryptedTmkAsWritten(response).OutOfBounds?
  {
  }

  /**
   * The encrypted key, bytes 2 to 17 of DE 62, when the field is long enough
   * to hold it; None otherwise.
   */
  function EncryptedTmk(response: Apdu): (r: Option<seq<bv8>>)
    ensures r.Some? <==> |response.GetFieldAsBytes(FIELD_62)| >= TMK_END
    ensures r.Some? ==> |r.value| == 16
                        && r.value == response.GetFieldAsBytes(FIELD_62)[TMK_OFFSET..TMK_END]
  {
    var content := response.GetFieldAsBytes(FIELD_62);
    if |content| < TMK_END then None else Some(content[TMK_OFFSET..TMK_END])
  }

  /** Wherever the unchecked read stays inside DE 62, the checked one gives the same key. */
  lemma EncryptedTmkAgreesInBounds(response: Apdu)
    ensures EncryptedTmkAsWritten(response).Tmk? <==> EncryptedTmk(response).Some?
    ensures EncryptedTmk(response).Some? ==> EncryptedTmkAsWritten(response).key == EncryptedTmk(response).value
  {
  }

  /**
   * Accepts a valid, approved response whose processing code, NII and
   * terminal id are those of `tx`, recording the host timestamp and the
   * response code; None otherwise. The key in DE 62 is not kept, so neither
   * the record nor the acceptance depends on it.
   */
  function ReadKeyDownloadResponse(response: Apdu, tx: DinersTransaction): (r: Option<DinersTransaction>)
    ensures r.Some? <==> IsValidKeyDownloadResponse(response)
                         && MatchesTerminal(response, tx.processingCode, tx.nii, tx.tid)
                         && response.GetFieldAsString(FIELD_RESPONSE_CODE) == "00"
    ensures r.Some? ==> r.value == tx.(txDatetime := GetHostDatetime(response), responseCode := "00")
  {
    if !IsValidKeyDownloadResponse(response) || !MatchesTerminal(response, tx.processingCode, tx.nii, tx.tid) then None
    else if response.GetFieldAsString(FIELD_RESPONSE_CODE) != "00" then None
    else
      var tx := tx.(txDatetime := GetHostDatetime(response));
      Some(tx.(responseCode := response.GetFieldAsString(FIELD_RESPONSE_CODE)))
  }

  /**
   * The request does not record its processing code on the transaction, so
   * an approved 0810 that repeats the request's processing code, NII and
   * terminal id is accepted exactly for a transaction whose processing code
   * is already the key download one.
   */
  lemma KeyDownloadResponseToOwnRequest(tx: DinersTransaction, response: Apdu)
    requires IsValidKeyDownloadResponse(response) && EchoesTerminal(BuildKeyDownloadRequest(tx), response)
    requires response.GetFieldAsString(FIELD_RESPONSE_CODE) == "00"
    ensures ReadKeyDownloadResponse(response, tx).Some? <==> tx.processingCode == KEY_DOWNLOAD_PROCESSING_CODE
  {
    var request := BuildKeyDownloadRequest(tx);
    assert response.fields[FIELD_NII] == Num(tx.nii);
    assert response.fields[FIELD_CARD_ACCEPTOR_TERMINAL_ID] == Str(tx.tid);
    assert response.GetFieldAsString(FIELD_PROCESSING_CODE) == KEY_DOWNLOAD_PROCESSING_CODE;
    Uint32RoundTrip(response, FIELD_NII, tx.nii);
  }
}
