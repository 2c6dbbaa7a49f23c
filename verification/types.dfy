/**
 * Terminal-wide value types shared by the canonical transaction and the
 * Diners transaction: the card-entry mode, the POS condition code and the
 * transaction timestamp.
 */
module Types {

  /**
   * How the card was read. The enumeration is declared outside the code
   * modelled here; the members this code names are listed and every other
   * member is `OTHER_ENTRY_MODE`.
   */
  datatype PosEntryMode =
    | CHIP
    | CONTACTLESS
    | MANUAL
    | MAGSTRIPE
    | FALLBACK_MANUAL
    | FALLBACK_MAGSTRIPE
    | OTHER_ENTRY_MODE

  /** The POS condition; members not named by this code are `OTHER_CONDITION`. */
  datatype PosConditionCode = NORMAL | PREAUTH | MOTO | MOTO_PREAUTH | OTHER_CONDITION

  /**
   * A transaction timestamp, kept as the local time (hhmmss) and date (MMDD)
   * that data elements 12 and 13 carry.
   */
  datatype Datetime = Datetime(time: string, date: string)

  /** The timestamp the record constructors start from (`time_t` zero). */
  const EPOCH: Datetime := Datetime("000000", "0101")
}
