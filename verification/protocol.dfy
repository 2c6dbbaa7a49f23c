/**
 * The Diners field table: the data-element numbers the messages use and the
 * format and capacity of each in the message codec.
 */
module Protocol {
  import opened Wrappers
  import opened Iso
  import Text

  const FIELD_PAN := 2
  const FIELD_PROCESSING_CODE := 3
  const FIELD_AMOUNT := 4
  const FIELD_DATE_TIME_TRANSMISSION := 7
  const FIELD_STAN := 11
  const FIELD_TIME_LOCAL_TRANSACTION := 12
  const FIELD_DATE_LOCAL_TRANSACTION := 13
  const FIELD_DATE_EXPIRATION := 14
  const FIELD_DATE_SETTLEMENT := 15
  const FIELD_POS_ENTRY_MODE := 22
  const FIELD_PAN_SEQUENCE_NUMBER := 23
  const FIELD_NII := 24
  const FIELD_POS_CONDITION_CODE := 25
  const FIELD_TRACK2_DATA := 35
  const FIELD_RRN := 37
  const FIELD_AUTHORIZATION_ID := 38
  const FIELD_RESPONSE_CODE := 39
  const FIELD_CARD_ACCEPTOR_TERMINAL_ID := 41
  const FIELD_CARD_ACCEPTOR_ID := 42
  const FIELD_CARD_ACCEPTOR_NAME_LOCATION := 43
  const FIELD_ADDITIONAL_RESPONSE_DATA := 44
  const FIELD_TRACK1_DATA := 45
  const FIELD_ADDITIONAL_DATA_NATIONAL := 47
  const FIELD_ADDITIONAL_DATA_PRIVATE := 48
  const FIELD_CURRENCY_CODE := 49
  const FIELD_PIN_BLOCK := 52
  const FIELD_ADDITIONAL_AMOUNT := 54
  const FIELD_ICC_DATA := 55
  const FIELD_NATIONAL_USE_DATA := 59
  const FIELD_60 := 60
  const FIELD_61 := 61
  const FIELD_62 := 62
  const FIELD_63 := 63

  /**
   * The codec formats of the field table, with their template arguments:
   * compressed numerics of a fixed digit count, a BCD-length-prefixed
   * numeric padded on the right with the nibble `pad`, track-2 data,
   * fixed-length text padded on the right (with the library's default
   * character when `pad` is None), text and bytes with a 2- or 3-digit
   * length prefix, and fixed binary.
   */
  datatype FieldSpec =
    | FixedNumeric(digits: nat)
    | VarNumericRightPadded(maxDigits: nat, padNibble: nat)
    | Track2(maxLength: nat)
    | FixedAns(length: nat, padChar: Option<char>)
    | VarAns(prefixDigits: nat, maxLength: nat)
    | VarBytes(prefixDigits: nat, maxLength: nat)
    | FixedBinary(size: nat)

  /** The table, in the order it is declared, in five runs of consecutive fields. */
  const DINERS_SPEC_TABLE: seq<(int, FieldSpec)> := SPEC_RUN_1 + SPEC_RUN_2 + SPEC_RUN_3 + SPEC_RUN_4 + SPEC_RUN_5

  const SPEC_RUN_1: seq<(int, FieldSpec)> :=
    [ (FIELD_PAN, VarNumericRightPadded(19, 15)),
      (FIELD_PROCESSING_CODE, FixedNumeric(6)),
      (FIELD_AMOUNT, FixedNumeric(12)),
      (FIELD_DATE_TIME_TRANSMISSION, FixedNumeric(10)),
      (FIELD_STAN, FixedNumeric(6)),
      (FIELD_TIME_LOCAL_TRANSACTION, FixedNumeric(6)),
      (FIELD_DATE_LOCAL_TRANSACTION, FixedNumeric(4)) ]

  const SPEC_RUN_2: seq<(int, FieldSpec)> :=
    [ (FIELD_DATE_EXPIRATION, FixedNumeric(4)),
      (FIELD_DATE_SETTLEMENT, FixedNumeric(4)),
      (FIELD_POS_ENTRY_MODE, FixedNumeric(4)),
      (FIELD_PAN_SEQUENCE_NUMBER, FixedNumeric(4)),
      (FIELD_NII, FixedNumeric(4)),
      (FIELD_POS_CONDITION_CODE, FixedNumeric(2)),
      (FIELD_TRACK2_DATA, Track2(99)) ]

  const SPEC_RUN_3: seq<(int, FieldSpec)> :=
    [ (FIELD_RRN, FixedAns(12, None)),
      (FIELD_AUTHORIZATION_ID, FixedAns(6, Some(' '))),
      (FIELD_RESPONSE_CODE, FixedAns(2, None)),
      (FIELD_CARD_ACCEPTOR_TERMINAL_ID, FixedAns(8, None)),
      (FIELD_CARD_ACCEPTOR_ID, FixedAns(15, None)),
      (FIELD_CARD_ACCEPTOR_NAME_LOCATION, FixedAns(40, Some(' '))),
      (FIELD_ADDITIONAL_RESPONSE_DATA, VarAns(2, 25)) ]

  const SPEC_RUN_4: seq<(int, FieldSpec)> :=
    [ (FIELD_TRACK1_DATA, VarAns(2, 77)),
      (FIELD_ADDITIONAL_DATA_NATIONAL, VarAns(3, 304)),
      (FIELD_ADDITIONAL_DATA_PRIVATE, VarAns(3, 81)),
      (FIELD_CURRENCY_CODE, FixedNumeric(4)),
      (FIELD_PIN_BLOCK, FixedBinary(64)),
      (FIELD_ADDITIONAL_AMOUNT, VarAns(3, 12)),
      (FIELD_ICC_DATA, VarBytes(3, 999)) ]

  const SPEC_RUN_5: seq<(int, FieldSpec)> :=
    [ (FIELD_NATIONAL_USE_DATA, VarAns(3, 999)),
      (FIELD_60, VarAns(3, 999)),
      (FIELD_61, VarAns(3, 999)),
      (FIELD_62, VarAns(3, 999)),
      (FIELD_63, VarBytes(3, 256)) ]

  /** The field numbers of a table. */
  function FieldNumbers(table: seq<(int, FieldSpec)>): (ns: set<int>)
    ensures forall i | 0 <= i < |table| :: table[i].0 in ns
    ensures forall n | n in ns :: exists i | 0 <= i < |table| :: table[i].0 == n
  {
    if table == [] then {} else FieldNumbers(table[..|table| - 1]) + {table[|table| - 1].0}
  }

  /** The map a table builds, an entry declared later overriding an earlier one. */
  function SpecOf(table: seq<(int, FieldSpec)>): (spec: map<int, FieldSpec>)
    ensures spec.Keys == FieldNumbers(table)
  {
    if table == [] then map[]
    else SpecOf(table[..|table| - 1])[table[|table| - 1].0 := table[|table| - 1].1]
  }

  predicate DistinctFieldNumbers(table: seq<(int, FieldSpec)>)
  {
    forall i, j | 0 <= i < j < |table| :: table[i].0 != table[j].0
  }

  /** With no field declared twice, every declared entry is the one the map holds. */
  lemma {:induction false} SpecOfDistinct(table: seq<(int, FieldSpec)>, k: nat)
    requires DistinctFieldNumbers(table) && k < |table|
    ensures SpecOf(table)[table[k].0] == table[k].1
  {
    var last := |table| - 1;
    if k < last {
      SpecOfDistinct(table[..last], k);
    }
  }

  /** Field numbers that grow from each entry to the next. */
  predicate Ascending(table: seq<(int, FieldSpec)>)
  {
    forall i | 0 <= i < |table| - 1 :: table[i].0 < table[i + 1].0
  }

  /** A table whose field numbers grow declares no field twice. */
  lemma {:induction false} AscendingDistinct(table: seq<(int, FieldSpec)>)
    requires Ascending(table)
    ensures DistinctFieldNumbers(table)
    decreases |table|
  {
    if |table| > 1 {
      var rest := table[1..];
      assert Ascending(rest) by {
        forall i | 0 <= i < |rest| - 1
          ensures rest[i].0 < rest[i + 1].0
        {
          assert rest[i] == table[i + 1] && rest[i + 1] == table[i + 2];
        }
      }
      AscendingDistinct(rest);
      AscendingFirst(table);
      forall i, j | 0 <= i < j < |table|
        ensures table[i].0 != table[j].0
      {
        if i > 0 {
          assert table[i] == rest[i - 1] && table[j] == rest[j - 1];
        }
      }
    }
  }

  /** In an ascending table the first field number is below every later one. */
  lemma {:induction false} AscendingFirst(table: seq<(int, FieldSpec)>)
    requires Ascending(table) && |table| > 0
    ensures forall j | 0 < j < |table| :: table[0].0 < table[j].0
    decreases |table|
  {
    if |table| > 2 {
      var front := table[..|table| - 1];
      assert Ascending(front) by {
        forall i | 0 <= i < |front| - 1
          ensures front[i].0 < front[i + 1].0
        {
          assert front[i] == table[i] && front[i + 1] == table[i + 1];
        }
      }
      AscendingFirst(front);
      forall j | 0 < j < |table|
        ensures table[0].0 < table[j].0
      {
        if j < |table| - 1 {
          assert table[j] == front[j];
        } else {
          assert table[j - 1] == front[j - 1];
        }
      }
    }
  }

  /** Each field number appears once in the Diners table: they are declared in ascending order. */
  lemma DinersTableDistinct()
    ensures DistinctFieldNumbers(DINERS_SPEC_TABLE)
  {
    RunsAscending();
    AscendingAppend(SPEC_RUN_1, SPEC_RUN_2);
    AscendingAppend(SPEC_RUN_1 + SPEC_RUN_2, SPEC_RUN_3);
    AscendingAppend(SPEC_RUN_1 + SPEC_RUN_2 + SPEC_RUN_3, SPEC_RUN_4);
    AscendingAppend(SPEC_RUN_1 + SPEC_RUN_2 + SPEC_RUN_3 + SPEC_RUN_4, SPEC_RUN_5);
    AscendingDistinct(DINERS_SPEC_TABLE);
  }

  /** Each run of the table is declared in ascending field order. */
  lemma RunsAscending()
    ensures Ascending(SPEC_RUN_1) && Ascending(SPEC_RUN_2) && Ascending(SPEC_RUN_3)
    ensures Ascending(SPEC_RUN_4) && Ascending(SPEC_RUN_5)
  {
  }

  /** Two ascending tables, the second starting above where the first ends, make an ascending table. */
  lemma AscendingAppend(a: seq<(int, FieldSpec)>, b: seq<(int, FieldSpec)>)
    requires Ascending(a) && Ascending(b) && |a| > 0 && |b| > 0 && a[|a| - 1].0 < b[0].0
    ensures Ascending(a + b)
  {
    var ab := a + b;
    forall i | 0 <= i < |ab| - 1
      ensures ab[i].0 < ab[i + 1].0
    {
      if i < |a| - 1 {
        assert ab[i] == a[i] && ab[i + 1] == a[i + 1];
      } else if i == |a| - 1 {
        assert ab[i] == a[|a| - 1] && ab[i + 1] == b[0];
      } else {
        assert ab[i] == b[i - |a|] && ab[i + 1] == b[i + 1 - |a|];
      }
    }
  }

  /**
   * The field table of every Diners message. It is a constant, so every call
   * gives the same table, and it holds each declared entry unchanged.
   */
  function GetProtocolSpec(): (spec: map<int, FieldSpec>)
    ensures spec.Keys == FieldNumbers(DINERS_SPEC_TABLE)
    ensures forall k | 0 <= k < |DINERS_SPEC_TABLE| :: spec[DINERS_SPEC_TABLE[k].0] == DINERS_SPEC_TABLE[k].1
  {
    DinersTableDistinct();
    forall k | 0 <= k < |DINERS_SPEC_TABLE|
      ensures SpecOf(DINERS_SPEC_TABLE)[DINERS_SPEC_TABLE[k].0] == DINERS_SPEC_TABLE[k].1
    {
      SpecOfDistinct(DINERS_SPEC_TABLE, k);
    }
    SpecOf(DINERS_SPEC_TABLE)
  }

  /** Processing code and STAN are 6-digit, amount 12-digit, entry mode and NII 4-digit and condition code 2-digit compressed numerics. */
  lemma NumericFieldFormats()
    ensures FIELD_PROCESSING_CODE in GetProtocolSpec() && GetProtocolSpec()[FIELD_PROCESSING_CODE] == FixedNumeric(6)
    ensures FIELD_AMOUNT in GetProtocolSpec() && GetProtocolSpec()[FIELD_AMOUNT] == FixedNumeric(12)
    ensures FIELD_STAN in GetProtocolSpec() && GetProtocolSpec()[FIELD_STAN] == FixedNumeric(6)
    ensures FIELD_POS_ENTRY_MODE in GetProtocolSpec() && GetProtocolSpec()[FIELD_POS_ENTRY_MODE] == FixedNumeric(4)
    ensures FIELD_NII in GetProtocolSpec() && GetProtocolSpec()[FIELD_NII] == FixedNumeric(4)
    ensures FIELD_POS_CONDITION_CODE in GetProtocolSpec() && GetProtocolSpec()[FIELD_POS_CONDITION_CODE] == FixedNumeric(2)
  {
    EntryAt(0, 1, FIELD_PROCESSING_CODE, FixedNumeric(6));
    EntryAt(0, 2, FIELD_AMOUNT, FixedNumeric(12));
    EntryAt(0, 4, FIELD_STAN, FixedNumeric(6));
    EntryAt(1, 2, FIELD_POS_ENTRY_MODE, FixedNumeric(4));
    EntryAt(1, 4, FIELD_NII, FixedNumeric(4));
    EntryAt(1, 5, FIELD_POS_CONDITION_CODE, FixedNumeric(2));
  }

  /** RRN, authorisation id, response code, terminal id and merchant id are fixed-length text padded on the right, the authorisation id with spaces. */
  lemma TextFieldFormats()
    ensures FIELD_RRN in GetProtocolSpec() && GetProtocolSpec()[FIELD_RRN] == FixedAns(12, None)
    ensures FIELD_AUTHORIZATION_ID in GetProtocolSpec() && GetProtocolSpec()[FIELD_AUTHORIZATION_ID] == FixedAns(6, Some(' '))
    ensures FIELD_RESPONSE_CODE in GetProtocolSpec() && GetProtocolSpec()[FIELD_RESPONSE_CODE] == FixedAns(2, None)
    ensures FIELD_CARD_ACCEPTOR_TERMINAL_ID in GetProtocolSpec() && GetProtocolSpec()[FIELD_CARD_ACCEPTOR_TERMINAL_ID] == FixedAns(8, None)
    ensures FIELD_CARD_ACCEPTOR_ID in GetProtocolSpec() && GetProtocolSpec()[FIELD_CARD_ACCEPTOR_ID] == FixedAns(15, None)
  {
    EntryAt(2, 0, FIELD_RRN, FixedAns(12, None));
    EntryAt(2, 1, FIELD_AUTHORIZATION_ID, FixedAns(6, Some(' ')));
    EntryAt(2, 2, FIELD_RESPONSE_CODE, FixedAns(2, None));
    EntryAt(2, 3, FIELD_CARD_ACCEPTOR_TERMINAL_ID, FixedAns(8, None));
    EntryAt(2, 4, FIELD_CARD_ACCEPTOR_ID, FixedAns(15, None));
  }

  /** The additional amount holds at most 12 characters, fields 60 and 62 at most 999, and field 63 at most 256 bytes, each behind a 3-digit length. */
  lemma PrivateFieldFormats()
    ensures FIELD_ADDITIONAL_AMOUNT in GetProtocolSpec() && GetProtocolSpec()[FIELD_ADDITIONAL_AMOUNT] == VarAns(3, 12)
    ensures FIELD_60 in GetProtocolSpec() && GetProtocolSpec()[FIELD_60] == VarAns(3, 999)
    ensures FIELD_62 in GetProtocolSpec() && GetProtocolSpec()[FIELD_62] == VarAns(3, 999)
    ensures FIELD_63 in GetProtocolSpec() && GetProtocolSpec()[FIELD_63] == VarBytes(3, 256)
  {
    EntryAt(3, 5, FIELD_ADDITIONAL_AMOUNT, VarAns(3, 12));
    EntryAt(4, 1, FIELD_60, VarAns(3, 999));
    EntryAt(4, 3, FIELD_62, VarAns(3, 999));
    EntryAt(4, 4, FIELD_63, VarBytes(3, 256));
  }

  /** Run `j` of the table, counting from 0. */
  function Run(j: nat): seq<(int, FieldSpec)>
    requires j < 5
  {
    match j
    case 0 => SPEC_RUN_1
    case 1 => SPEC_RUN_2
    case 2 => SPEC_RUN_3
    case 3 => SPEC_RUN_4
    case 4 => SPEC_RUN_5
  }

  /** Entry `i` of run `j` sits at position `7 * j + i` of the table. */
  lemma TableAt(j: nat, i: nat)
    requires j < 5 && i < |Run(j)|
    ensures 7 * j + i < |DINERS_SPEC_TABLE| && DINERS_SPEC_TABLE[7 * j + i] == Run(j)[i]
  {
    var r12 := SPEC_RUN_1 + SPEC_RUN_2;
    var r123 := r12 + SPEC_RUN_3;
    var r1234 := r123 + SPEC_RUN_4;
    assert DINERS_SPEC_TABLE == r1234 + SPEC_RUN_5;
    if j == 0 {
      assert r12[i] == SPEC_RUN_1[i];
    } else if j == 1 {
      assert r12[7 + i] == SPEC_RUN_2[i];
    } else if j == 2 {
      assert r123[14 + i] == SPEC_RUN_3[i];
    } else if j == 3 {
      assert r1234[21 + i] == SPEC_RUN_4[i];
    }
  }

  /** The entry declared as entry `i` of run `j` is the one the protocol map holds. */
  lemma EntryAt(j: nat, i: nat, f: int, spec: FieldSpec)
    requires j < 5 && i < |Run(j)| && Run(j)[i] == (f, spec)
    ensures f in GetProtocolSpec() && GetProtocolSpec()[f] == spec
  {
    TableAt(j, i);
    var k := 7 * j + i;
    assert DINERS_SPEC_TABLE[k].0 in FieldNumbers(DINERS_SPEC_TABLE);
  }
}
