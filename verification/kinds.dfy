/** The value-kind registry of the indexer schema (indexer/base/kind.go): the
    closed set of kinds, the range check, the per-kind acceptance of Go values,
    the canonical lowercase names and best-effort inference of a kind from a
    Go value. */
module Kinds {
  import opened Outcomes

  /** A kind is a Go `int`; the declared constants occupy 0 through 20. */
  type Kind = int

  const InvalidKind: Kind := 0
  const StringKind: Kind := 1
  const BytesKind: Kind := 2
  const Int8Kind: Kind := 3
  const Uint8Kind: Kind := 4
  const Int16Kind: Kind := 5
  const Uint16Kind: Kind := 6
  const Int32Kind: Kind := 7
  const Uint32Kind: Kind := 8
  const Int64Kind: Kind := 9
  const Uint64Kind: Kind := 10
  const IntegerKind: Kind := 11
  const DecimalKind: Kind := 12
  const BoolKind: Kind := 13
  const TimeKind: Kind := 14
  const DurationKind: Kind := 15
  const Float32Kind: Kind := 16
  const Float64Kind: Kind := 17
  const Bech32AddressKind: Kind := 18
  const EnumKind: Kind := 19
  const JSONKind: Kind := 20

  /** The dynamic Go type of a value, as far as a type switch over the kinds
      can tell it apart. `GoOther` is every type not listed (named types,
      `int`, maps, structs, nil, ...). */
  datatype GoType =
    | GoString | GoBytes
    | GoInt8 | GoUint8 | GoInt16 | GoUint16 | GoInt32 | GoUint32 | GoInt64 | GoUint64
    | GoFloat32 | GoFloat64 | GoBool | GoTime | GoDuration
    | GoRawMessage | GoOther

  /** A Go value seen through `any`: its dynamic type and whether that type
      implements `fmt.Stringer`. Floats are type tags only. */
  datatype GoValue = GoValue(goType: GoType, isStringer: bool)

  /** Method sets of the Go types: `time.Time` and `time.Duration` have a
      `String()` method, the other listed types have none; only an
      unlisted type may go either way. */
  predicate WellFormed(v: GoValue) {
    if v.goType == GoTime || v.goType == GoDuration then v.isStringer
    else v.goType == GoOther || !v.isStringer
  }

  /** The errors of this file: the two range errors of `Validate` and the
      "expected ..., got %T" error of `ValidateValueType`. */
  datatype KindError =
    | UnknownType(kind: Kind)
    | InvalidType(kind: Kind)
    | UnexpectedType(expected: string, got: GoType)

  /** Every kind that passes the range check, in declaration order. */
  const ValidKinds: seq<Kind> := [
    StringKind, BytesKind, Int8Kind, Uint8Kind, Int16Kind, Uint16Kind, Int32Kind,
    Uint32Kind, Int64Kind, Uint64Kind, IntegerKind, DecimalKind, BoolKind, TimeKind,
    DurationKind, Float32Kind, Float64Kind, Bech32AddressKind, EnumKind, JSONKind]

  /** Range check of a kind. */
  function Validate(k: Kind): (r: Outcome<KindError>)
    ensures r.Pass? <==> k in ValidKinds
    ensures k <= InvalidKind ==> r == Fail(UnknownType(k))
    ensures k > JSONKind ==> r == Fail(InvalidType(k))
  {
    if k <= InvalidKind then Fail(UnknownType(k))
    else if k > JSONKind then Fail(InvalidType(k))
    else Pass
  }

  // ---------------------------------------------------------------------
  // Acceptance of Go values

  /** The Go types the declaration comment of each kind names as acceptable
      by exact type; the reference table against which `ValidateValueType`
      is checked. */
  function DocumentedTypes(k: Kind): set<GoType> {
    if k == StringKind || k == DecimalKind || k == EnumKind then {GoString}
    else if k == BytesKind then {GoBytes}
    else if k == Int8Kind then {GoInt8}
    else if k == Uint8Kind then {GoUint8}
    else if k == Int16Kind then {GoInt16}
    else if k == Uint16Kind then {GoUint16}
    else if k == Int32Kind then {GoInt32}
    else if k == Uint32Kind then {GoUint32}
    else if k == Int64Kind then {GoInt64}
    else if k == Uint64Kind then {GoUint64}
    else if k == IntegerKind then {GoInt64, GoString}
    else if k == BoolKind then {GoBool}
    else if k == TimeKind then {GoTime}
    else if k == DurationKind then {GoDuration}
    else if k == Float32Kind then {GoFloat32}
    else if k == Float64Kind then {GoFloat64}
    else if k == Bech32AddressKind then {GoString, GoBytes}
    else {}
  }

  /** The kinds whose declaration comment also admits any `fmt.Stringer`. */
  predicate DocumentsStringer(k: Kind) {
    k in {StringKind, IntegerKind, DecimalKind, Bech32AddressKind, EnumKind}
  }

  /** Whether the documentation of kind `k` admits value `v`: JSON admits
      everything, an out-of-range kind nothing. */
  predicate Documented(k: Kind, v: GoValue) {
    k == JSONKind
    || (Validate(k).Pass? && (v.goType in DocumentedTypes(k) || (DocumentsStringer(k) && v.isStringer)))
  }

  /** The Go type name that a fixed-type kind's error message expects. */
  function TypeName(t: GoType): string {
    match t
    case GoString => "string"
    case GoBytes => "[]byte"
    case GoInt8 => "int8"
    case GoUint8 => "uint8"
    case GoInt16 => "int16"
    case GoUint16 => "uint16"
    case GoInt32 => "int32"
    case GoUint32 => "uint32"
    case GoInt64 => "int64"
    case GoUint64 => "uint64"
    case GoFloat32 => "float32"
    case GoFloat64 => "float64"
    case GoBool => "bool"
    case GoTime => "time.Time"
    case GoDuration => "time.Duration"
    case GoRawMessage => "json.RawMessage"
    case GoOther => "other"
  }

  const StringerExpectation: string := "string or type that implements fmt.Stringer"

  /** One arm of the switch: pass when `ok`, else the "expected" error. */
  function Expect(ok: bool, expected: string, v: GoValue): Outcome<KindError> {
    if ok then Pass else Fail(UnexpectedType(expected, v.goType))
  }

  /** One fixed-type arm: the value's dynamic type must be exactly `t`. */
  function ExpectExactly(t: GoType, v: GoValue): Outcome<KindError> {
    Expect(v.goType == t, TypeName(t), v)
  }

  /** Checks that the dynamic type of `v` is one the kind accepts; string
      contents are never inspected. */
  function ValidateValueType(k: Kind, v: GoValue): (r: Outcome<KindError>)
    ensures k == JSONKind ==> r == Pass
    ensures Validate(k).Fail? ==> r == Fail(InvalidType(k))
    ensures r.Fail? && Validate(k).Pass? ==> r.error.UnexpectedType? && r.error.got == v.goType
  {
    var isString := v.goType == GoString || v.isStringer;
    if k == StringKind then Expect(isString, StringerExpectation, v)
    else if k == BytesKind then ExpectExactly(GoBytes, v)
    else if k == Int8Kind then ExpectExactly(GoInt8, v)
    else if k == Uint8Kind then ExpectExactly(GoUint8, v)
    else if k == Int16Kind then ExpectExactly(GoInt16, v)
    else if k == Uint16Kind then ExpectExactly(GoUint16, v)
    else if k == Int32Kind then ExpectExactly(GoInt32, v)
    else if k == Uint32Kind then ExpectExactly(GoUint32, v)
    else if k == Int64Kind then ExpectExactly(GoInt64, v)
    else if k == Uint64Kind then ExpectExactly(GoUint64, v)
    else if k == IntegerKind then Expect(isString || v.goType == GoInt64, StringerExpectation, v)
    else if k == DecimalKind then Expect(isString, StringerExpectation, v)
    else if k == BoolKind then ExpectExactly(GoBool, v)
    else if k == TimeKind then ExpectExactly(GoTime, v)
    else if k == DurationKind then ExpectExactly(GoDuration, v)
    else if k == Float32Kind then ExpectExactly(GoFloat32, v)
    else if k == Float64Kind then ExpectExactly(GoFloat64, v)
    else if k == Bech32AddressKind then Expect(isString || v.goType == GoBytes, "string or []byte", v)
    else if k == EnumKind then Expect(isString, StringerExpectation, v)
    else if k == JSONKind then Pass
    else Fail(InvalidType(k))
  }

  /** The switch agrees with the declaration comments: a value passes iff
      the documentation of its kind admits it. */
  lemma {:induction false} ValidateValueTypeAsDocumented(k: Kind, v: GoValue)
    ensures ValidateValueType(k, v).Pass? <==> Documented(k, v)
  {
  }

  /** The kinds that accept exactly one Go type and nothing else. */
  const FixedKinds: set<Kind> := {
    BytesKind, Int8Kind, Uint8Kind, Int16Kind, Uint16Kind, Int32Kind, Uint32Kind,
    Int64Kind, Uint64Kind, BoolKind, TimeKind, DurationKind, Float32Kind, Float64Kind}

  /** The single Go type a fixed kind accepts. */
  function FixedType(k: Kind): GoType
    requires k in FixedKinds
  {
    if k == BytesKind then GoBytes
    else if k == Int8Kind then GoInt8
    else if k == Uint8Kind then GoUint8
    else if k == Int16Kind then GoInt16
    else if k == Uint16Kind then GoUint16
    else if k == Int32Kind then GoInt32
    else if k == Uint32Kind then GoUint32
    else if k == Int64Kind then GoInt64
    else if k == Uint64Kind then GoUint64
    else if k == BoolKind then GoBool
    else if k == TimeKind then GoTime
    else if k == DurationKind then GoDuration
    else if k == Float32Kind then GoFloat32
    else GoFloat64
  }

  /** A fixed kind accepts a value iff its dynamic type is exactly the named
      type; being a Stringer does not help (an `int32` is not an `int64`). */
  lemma {:induction false} FixedKindAcceptsExactType(k: Kind, v: GoValue)
    requires k in FixedKinds
    ensures ValidateValueType(k, v).Pass? <==> v.goType == FixedType(k)
  {
  }

  /** String accepts exactly the strings and Stringers. */
  lemma {:induction false} StringKindAccepts(v: GoValue)
    ensures ValidateValueType(StringKind, v).Pass? <==> (v.goType == GoString || v.isStringer)
  {
  }

  /** Decimal is carried as a string: it accepts exactly what String accepts. */
  lemma {:induction false} DecimalKindAccepts(v: GoValue)
    ensures ValidateValueType(DecimalKind, v).Pass? <==> (v.goType == GoString || v.isStringer)
  {
  }

  /** An enum value is carried as its name: Enum accepts exactly what String
      accepts. */
  lemma {:induction false} EnumKindAccepts(v: GoValue)
    ensures ValidateValueType(EnumKind, v).Pass? <==> (v.goType == GoString || v.isStringer)
  {
  }

  /** Integer accepts the strings and Stringers and also `int64`. */
  lemma {:induction false} IntegerKindAccepts(v: GoValue)
    ensures ValidateValueType(IntegerKind, v).Pass? <==> (v.goType in {GoString, GoInt64} || v.isStringer)
  {
  }

  /** Bech32Address accepts the strings and Stringers and also `[]byte`. */
  lemma {:induction false} Bech32AddressKindAccepts(v: GoValue)
    ensures ValidateValueType(Bech32AddressKind, v).Pass? <==> (v.goType in {GoString, GoBytes} || v.isStringer)
  {
  }

  // ---------------------------------------------------------------------
  // Canonical names

  /** The canonical names, in declaration order: kind `k` is named by entry
      `k - 1`. */
  const KindNames: seq<string> := [
    "string", "bytes", "int8", "uint8", "int16", "uint16", "int32", "uint32", "int64",
    "uint64", "integer", "decimal", "bool", "time", "duration", "float32", "float64",
    "bech32address", "enum", "json"]

  /** The canonical lowercase name of a kind; "" for InvalidKind and every
      out-of-range value. */
  function String(k: Kind): (s: string)
    ensures s == "" <==> Validate(k).Fail?
  {
    if Validate(k).Pass? then KindNames[k - 1] else ""
  }

  /** A name made of lowercase ASCII letters and digits only. */
  predicate LowerAlnum(s: string) {
    forall i | 0 <= i < |s| :: 'a' <= s[i] <= 'z' || '0' <= s[i] <= '9'
  }

  /** Every kind name is lowercase, with no upper-case letter or punctuation. */
  lemma {:induction false} StringIsLowercase(k: Kind)
    ensures LowerAlnum(String(k))
  {
    assert forall j | 0 <= j < |KindNames| :: LowerAlnum(KindNames[j]);
  }

  /** No name appears twice in the table. */
  lemma KindNamesDistinct(i: int, j: int)
    requires 0 <= i < j < |KindNames|
    ensures KindNames[i] != KindNames[j]
  {
  }

  /** Distinct valid kinds have distinct names. */
  lemma {:induction false} StringInjective(a: Kind, b: Kind)
    requires Validate(a).Pass? && Validate(b).Pass?
    requires String(a) == String(b)
    ensures a == b
  {
    if a < b {
      KindNamesDistinct(a - 1, b - 1);
    } else if b < a {
      KindNamesDistinct(b - 1, a - 1);
    }
  }

  // ---------------------------------------------------------------------
  // Inference

  /** The kind named by a non-Stringer value's exact Go type; string,
      raw JSON and unlisted types fall to their string and JSON kinds. */
  function KindOfType(t: GoType): Kind {
    match t
    case GoString => StringKind
    case GoBytes => BytesKind
    case GoInt8 => Int8Kind
    case GoUint8 => Uint8Kind
    case GoInt16 => Int16Kind
    case GoUint16 => Uint16Kind
    case GoInt32 => Int32Kind
    case GoUint32 => Uint32Kind
    case GoInt64 => Int64Kind
    case GoUint64 => Uint64Kind
    case GoFloat32 => Float32Kind
    case GoFloat64 => Float64Kind
    case GoBool => BoolKind
    case GoTime => TimeKind
    case GoDuration => DurationKind
    case GoRawMessage => JSONKind
    case GoOther => JSONKind
  }

  /** Best-effort inference. The type switch tries `string, fmt.Stringer`
      first, so every Stringer is a StringKind whatever its type. */
  function KindForGoValue(v: GoValue): (k: Kind)
    ensures Validate(k).Pass?
    ensures k !in {InvalidKind, IntegerKind, DecimalKind, Bech32AddressKind, EnumKind}
    ensures (v.goType == GoString || v.isStringer) ==> k == StringKind
    ensures v.goType in {GoRawMessage, GoOther} && !v.isStringer ==> k == JSONKind
    ensures ValidateValueType(k, v) == Pass
  {
    if v.goType == GoString || v.isStringer then StringKind
    else KindOfType(v.goType)
  }

  /** Inference is the inverse of the fixed-type table: a non-Stringer
      value of a fixed kind's type is inferred as that kind. */
  lemma {:induction false} KindForFixedType(k: Kind)
    requires k in FixedKinds
    ensures KindForGoValue(GoValue(FixedType(k), false)) == k
  {
    if k == BytesKind {
      assert FixedType(k) == GoBytes;
    } else if k == Int8Kind {
      assert FixedType(k) == GoInt8;
    } else if k == Uint8Kind {
      assert FixedType(k) == GoUint8;
    } else if k == Int16Kind {
      assert FixedType(k) == GoInt16;
    } else if k == Uint16Kind {
      assert FixedType(k) == GoUint16;
    } else if k == Int32Kind {
      assert FixedType(k) == GoInt32;
    } else if k == Uint32Kind {
      assert FixedType(k) == GoUint32;
    } else if k == Int64Kind {
      assert FixedType(k) == GoInt64;
    } else if k == Uint64Kind {
      assert FixedType(k) == GoUint64;
    } else if k == BoolKind {
      assert FixedType(k) == GoBool;
    } else if k == TimeKind {
      assert FixedType(k) == GoTime;
    } else if k == DurationKind {
      assert FixedType(k) == GoDuration;
    } else if k == Float32Kind {
      assert FixedType(k) == GoFloat32;
    } else {
      assert FixedType(k) == GoFloat64;
    }
  }

  /** Because `time.Time` and `time.Duration` are Stringers, no well-formed
      value is ever inferred as TimeKind or DurationKind. */
  lemma {:induction false} NoWellFormedTimeInference(v: GoValue)
    requires WellFormed(v)
    ensures KindForGoValue(v) != TimeKind && KindForGoValue(v) != DurationKind
    ensures v.goType in {GoTime, GoDuration} ==> KindForGoValue(v) == StringKind
  {
  }
}
