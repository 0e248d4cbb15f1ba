/** Mask kinds, their parameters, and the type/format capability table. */
module Masks {
  import opened Wrappers

  const OID_INT8: int := 20
  const OID_INT2: int := 21
  const OID_INT4: int := 23
  const OID_JSON: int := 114
  const OID_CIDR: int := 650
  const OID_FLOAT4: int := 700
  const OID_FLOAT8: int := 701
  const OID_INET: int := 869
  const OID_TEXT: int := 25
  const OID_NAME: int := 19
  const OID_UNKNOWN: int := 705
  const OID_BPCHAR: int := 1042
  const OID_VARCHAR: int := 1043
  const OID_DATE: int := 1082
  const OID_TIMESTAMP: int := 1114
  const OID_TIMESTAMPTZ: int := 1184
  const OID_NUMERIC: int := 1700
  const OID_UUID: int := 2950
  const OID_JSONB: int := 3802

  const FORMAT_TEXT: int := 0

  datatype Mask =
    | NoMask | Null | Redact | Partial | Inner | Outer | Range | Hash | Pseudonym
    | DateYear | DateMonth | NumericBucket | Scrub | IpPrefix | Json

  /** A mask with its parameters; the JSON path policies are not modelled. */
  datatype MaskSpec = MaskSpec(
    kind: Mask,
    keep: nat,
    start: nat,
    end: nat,
    bucket: int,
    keepDomain: bool,
    domain: Option<string>)

  function NewSpec(kind: Mask): MaskSpec
  {
    MaskSpec(kind, 4, 0, 0, 1, false, None)
  }

  /** Types whose binary and text encodings are the same bytes. */
  predicate IsTextFamily(oid: int)
  {
    oid in {OID_TEXT, OID_VARCHAR, OID_BPCHAR, OID_NAME, OID_UNKNOWN}
  }

  /** Whether a mask can honour a type in a wire format. */
  predicate Supports(kind: Mask, typeOid: int, format: int)
  {
    match kind
    case NoMask | Null => true
    case Redact | Partial | Inner | Outer | Range | Hash | Scrub => IsTextFamily(typeOid)
    case Pseudonym => IsTextFamily(typeOid) || typeOid == OID_UUID
    case DateYear | DateMonth => typeOid in {OID_DATE, OID_TIMESTAMP, OID_TIMESTAMPTZ}
    case NumericBucket =>
      typeOid in {OID_INT2, OID_INT4, OID_INT8, OID_FLOAT4, OID_FLOAT8}
      || (typeOid == OID_NUMERIC && format == FORMAT_TEXT)
    case IpPrefix => IsTextFamily(typeOid) || (typeOid in {OID_INET, OID_CIDR} && format == FORMAT_TEXT)
    case Json => typeOid in {OID_JSON, OID_JSONB}
  }

  /** The same table read by type: which masks values of a type can carry. */
  function CarriedBy(typeOid: int, format: int): set<Mask>
  {
    {NoMask, Null}
    + (if IsTextFamily(typeOid) then {Redact, Partial, Inner, Outer, Range, Hash, Scrub, Pseudonym, IpPrefix}
       else if typeOid == OID_UUID then {Pseudonym}
       else if typeOid in {OID_DATE, OID_TIMESTAMP, OID_TIMESTAMPTZ} then {DateYear, DateMonth}
       else if typeOid in {OID_INT2, OID_INT4, OID_INT8, OID_FLOAT4, OID_FLOAT8} then {NumericBucket}
       else if typeOid in {OID_JSON, OID_JSONB} then {Json}
       else if format != FORMAT_TEXT then {}
       else if typeOid == OID_NUMERIC then {NumericBucket}
       else if typeOid in {OID_INET, OID_CIDR} then {IpPrefix}
       else {})
  }

  /** The capability table mask by mask and type by type is one table; and text carries whatever binary does. */
  lemma SupportsByType(kind: Mask, typeOid: int, format: int)
    ensures Supports(kind, typeOid, format) <==> kind in CarriedBy(typeOid, format)
    ensures Supports(kind, typeOid, format) ==> Supports(kind, typeOid, FORMAT_TEXT)
  {
    match kind
    case _ =>
  }

  /** The widest text a pseudonym renders: 16 hex digits, `@`, 8 hex digits, `.invalid`. */
  const PSEUDONYM_MAX_CHARS: nat := 16 + 1 + 8 + |".invalid"|

  /** A varchar or bpchar type modifier is the declared width plus 4; less than 4 is unbounded. */
  predicate PseudonymFits(typeOid: int, typeMod: int)
  {
    typeOid !in {OID_VARCHAR, OID_BPCHAR} || typeMod < 4 || typeMod - 4 >= PSEUDONYM_MAX_CHARS
  }

  /** The longest handle, an e-mail address of hexadecimal digits, fits a column of bounded width exactly then. */
  lemma PseudonymFitsExactly(typeOid: int, typeMod: int, local: string, domain: string)
    requires |local| == 16 && |domain| == 8
    ensures PseudonymFits(typeOid, typeMod) <==>
              (typeOid in {OID_VARCHAR, OID_BPCHAR} && typeMod >= 4 ==>
                 |local + "@" + domain + ".invalid"| <= typeMod - 4)
  {
  }

  /** Every handle a pseudonym could render fits the column, and a stable name can key it. */
  predicate PseudonymApplies(typeOid: int, typeMod: int, stableName: Option<string>)
  {
    stableName.Some?
    && (typeOid == OID_UUID || (IsTextFamily(typeOid) && PseudonymFits(typeOid, typeMod)))
  }

  /**
   What the automatic mask of an unclassified column must be, stated by type: a
   pseudonym keyed by the column's own name wherever it applies, the year of a
   date, the prefix of a textual address, and NULL for everything else.
   */
  ghost predicate IsFallback(spec: MaskSpec, typeOid: int, format: int, typeMod: int, stableName: Option<string>)
  {
    && (spec.kind == Pseudonym <==> PseudonymApplies(typeOid, typeMod, stableName))
    && (spec.kind == DateYear <==> typeOid in {OID_DATE, OID_TIMESTAMP, OID_TIMESTAMPTZ})
    && (spec.kind == IpPrefix <==> typeOid in {OID_INET, OID_CIDR} && format == FORMAT_TEXT)
    && spec.kind in {Pseudonym, DateYear, IpPrefix, Null}
    && (if spec.kind == Pseudonym && stableName.Some?
        then spec == NewSpec(Pseudonym).(domain := Some("unclassified:" + stableName.value))
        else spec == NewSpec(spec.kind))
  }

  /** The automatic mask of an unclassified column; what it picks, the column's type can carry. */
  method ForUnclassified(typeOid: int, format: int, typeMod: int, stableName: Option<string>)
    returns (spec: MaskSpec)
    ensures IsFallback(spec, typeOid, format, typeMod, stableName)
    ensures Supports(spec.kind, typeOid, format)
    ensures spec.kind != NoMask
  {
    var candidates := [Pseudonym, DateYear, IpPrefix];
    for i := 0 to |candidates|
      invariant i > 0 ==> !PseudonymApplies(typeOid, typeMod, stableName)
      invariant i > 1 ==> typeOid !in {OID_DATE, OID_TIMESTAMP, OID_TIMESTAMPTZ}
      invariant i > 2 ==> !(typeOid in {OID_INET, OID_CIDR} && format == FORMAT_TEXT)
    {
      var kind := candidates[i];
      if !Supports(kind, typeOid, format) {
        continue;
      }
      match kind {
        case Pseudonym =>
          if stableName.Some? && PseudonymFits(typeOid, typeMod) {
            return NewSpec(kind).(domain := Some("unclassified:" + stableName.value));
          }
        case IpPrefix =>
          if typeOid in {OID_INET, OID_CIDR} {
            return NewSpec(kind);
          }
        case _ =>
          return NewSpec(kind);
      }
    }
    return NewSpec(Null);
  }

  /** The fallback is one mask: two specs meeting its description are the same spec. */
  lemma FallbackIsUnique(a: MaskSpec, b: MaskSpec, typeOid: int, format: int, typeMod: int, stableName: Option<string>)
    requires IsFallback(a, typeOid, format, typeMod, stableName)
    requires IsFallback(b, typeOid, format, typeMod, stableName)
    ensures a == b
  {
    assert a.kind == b.kind;
  }
}
