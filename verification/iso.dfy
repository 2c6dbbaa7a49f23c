/**
 * The ISO 8583 message as the Diners code sees it: an optional message type
 * indicator and a map from data-element number to value. The byte codec of
 * the `iso8583` library is not part of this model; inbound messages are taken
 * as already parsed.
 */
module Iso {
  import opened Wrappers
  import Text

  type uint32 = x: int | 0 <= x < 0x1_0000_0000
  type uint64 = x: int | 0 <= x < 0x1_0000_0000_0000_0000

  /** The three kinds of value `Apdu::SetField` accepts: integers, strings and byte vectors. */
  datatype FieldValue = Num(n: nat) | Str(s: string) | Bytes(b: seq<bv8>)

  datatype Apdu = Apdu(mti: Option<nat>, fields: map<int, FieldValue>)
  {
    predicate HasField(f: int)
    {
      f in fields
    }

    function SetField(f: int, v: FieldValue): Apdu
    {
      this.(fields := fields[f := v])
    }

    /** A field read as a string; an absent field reads as "". */
    function GetFieldAsString(f: int): string
    {
      if f in fields then AsString(fields[f]) else ""
    }

    /** A field read as an integer; an absent or non-numeric field reads as 0. */
    function GetFieldAsInteger(f: int): nat
    {
      if f in fields then AsInteger(fields[f]) else 0
    }

    /** A field read as bytes; an absent field reads as no bytes. */
    function GetFieldAsBytes(f: int): seq<bv8>
    {
      if f in fields then AsBytes(fields[f]) else []
    }

    /** A field read as an integer and stored in a `uint32_t`, keeping the low 32 bits. */
    function GetFieldAsUint32(f: int): uint32
    {
      GetFieldAsInteger(f) % 0x1_0000_0000
    }
  }

  function AsString(v: FieldValue): string
  {
    match v
    case Num(n) => Text.DecimalString(n)
    case Str(s) => s
    case Bytes(b) => Text.BytesAsString(b)
  }

  function AsInteger(v: FieldValue): nat
  {
    match v
    case Num(n) => n
    case Str(s) => if Text.AllDigits(s) then Text.ParseDecimal(s) else 0
    case Bytes(_) => 0
  }

  function AsBytes(v: FieldValue): seq<bv8>
  {
    match v
    case Num(n) => Text.AsciiBytes(Text.DecimalString(n))
    case Str(s) => Text.AsciiBytes(s)
    case Bytes(b) => b
  }

  /**
   * The common shape of every `*Response::IsValid`: the message type is
   * present and equal to `mti`, and every field of `mandatory` is present.
   */
  predicate IsResponseOf(a: Apdu, mti: nat, mandatory: set<int>)
  {
    a.mti == Some(mti) && mandatory <= a.fields.Keys
  }

  /** Field `f` is present in both messages with the same value. */
  predicate SameField(a: Apdu, b: Apdu, f: int)
  {
    f in a.fields && f in b.fields && a.fields[f] == b.fields[f]
  }

  /** Reading back an integer field set from a 32-bit value gives that value. */
  lemma Uint32RoundTrip(a: Apdu, f: int, x: uint32)
    requires f in a.fields && a.fields[f] == Num(x)
    ensures a.GetFieldAsUint32(f) == x
  {
  }

  /** A padded decimal string read back as an integer gives the number it was padded from. */
  lemma PaddedFieldRoundTrip(a: Apdu, f: int, n: nat, width: nat)
    requires 1 <= width && n < Text.Pow10(width)
    requires f in a.fields && a.fields[f] == Str(Text.NumericPadded(n, width))
    ensures a.GetFieldAsInteger(f) == n
  {
    Text.PaddedRoundTrip(n, width);
  }
}
