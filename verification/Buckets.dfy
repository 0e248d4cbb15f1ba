/**
 Rounding integers down to a bucket boundary, in two's complement on the wire:
 int2, int4 and int8 in binary, and the integer arm of the text format.
 */
module Buckets {
  import opened Wrappers
  import opened Masks
  import opened Words

  function Pow256(n: nat): (p: nat)
    ensures p >= 1
  {
    if n == 0 then 1 else 256 * Pow256(n - 1)
  }

  const I64_MIN: int := -0x8000_0000_0000_0000
  const I64_MAX: int := 0x7FFF_FFFF_FFFF_FFFF

  /** The width in bytes of an integer type. */
  function Width(typeOid: int): Option<nat>
  {
    if typeOid == OID_INT2 then Some(2)
    else if typeOid == OID_INT4 then Some(4)
    else if typeOid == OID_INT8 then Some(8)
    else None
  }

  predicate Fits(v: int, width: nat)
  {
    0 <= 2 * v + Pow256(width) < 2 * Pow256(width)
  }

  // Big-endian two's complement.

  function Unsigned(bytes: seq<Byte>): nat
  {
    if bytes == [] then 0 else Unsigned(bytes[..|bytes| - 1]) * 256 + bytes[|bytes| - 1]
  }

  function UnsignedBytes(n: nat, width: nat): (bytes: seq<Byte>)
    ensures |bytes| == width
  {
    if width == 0 then [] else UnsignedBytes(n / 256, width - 1) + [n % 256]
  }

  function Decode(bytes: seq<Byte>): int
  {
    if 2 * Unsigned(bytes) < Pow256(|bytes|) then Unsigned(bytes) else Unsigned(bytes) - Pow256(|bytes|)
  }

  function Encode(v: int, width: nat): (bytes: seq<Byte>)
    requires Fits(v, width)
    ensures |bytes| == width
  {
    UnsignedBytes(if v >= 0 then v else v + Pow256(width), width)
  }

  lemma {:induction false} UnsignedRoundTrip(n: nat, width: nat)
    requires n < Pow256(width)
    ensures Unsigned(UnsignedBytes(n, width)) == n
  {
    if width > 0 {
      UnsignedRoundTrip(n / 256, width - 1);
      assert UnsignedBytes(n, width)[..width - 1] == UnsignedBytes(n / 256, width - 1);
    }
  }

  lemma {:induction false} UnsignedBounded(bytes: seq<Byte>)
    ensures Unsigned(bytes) < Pow256(|bytes|)
  {
    if bytes != [] {
      UnsignedBounded(bytes[..|bytes| - 1]);
    }
  }

  /** What is written reads back, and every payload reads as a value of the type. */
  lemma CodecRoundTrip(v: int, width: nat)
    requires width > 0 && Fits(v, width)
    ensures Decode(Encode(v, width)) == v
  {
    UnsignedRoundTrip(if v >= 0 then v else v + Pow256(width), width);
  }

  lemma DecodeFits(bytes: seq<Byte>)
    requires bytes != []
    ensures Fits(Decode(bytes), |bytes|)
  {
    UnsignedBounded(bytes);
    assert Pow256(|bytes|) == 256 * Pow256(|bytes| - 1);
  }

  // Flooring.

  function Saturate(n: int): int
  {
    if n < I64_MIN then I64_MIN else if n > I64_MAX then I64_MAX else n
  }

  function AtLeastOne(bucket: int): (b: int)
    ensures b >= 1
  {
    if bucket < 1 then 1 else bucket
  }

  function FloorTo(v: int, bucket: int): int
  {
    var b := AtLeastOne(bucket);
    Saturate((v / b) * b)
  }

  function FloorWithin(v: int, bucket: int, width: nat): Option<int>
  {
    if Fits(FloorTo(v, bucket), width) then Some(FloorTo(v, bucket)) else None
  }

  /** The integer arms of the binary format; `None` is an undecodable value. */
  function BucketBinary(bytes: seq<Byte>, typeOid: int, bucket: int): Option<seq<Byte>>
  {
    match Width(typeOid)
    case None => None
    case Some(width) =>
      if |bytes| != width then None
      else if typeOid == OID_INT8 then
        FloorToFits(Decode(bytes), bucket);
        Some(Encode(FloorTo(Decode(bytes), bucket), 8))
      else
        match FloorWithin(Decode(bytes), bucket, width)
        case None => None
        case Some(m) => Some(Encode(m, width))
  }

  lemma Pow256Values()
    ensures Pow256(2) == 0x1_0000 && Pow256(4) == 0x1_0000_0000 && Pow256(8) == 0x1_0000_0000_0000_0000
  {
  }

  lemma FloorToFits(v: int, bucket: int)
    ensures Fits(FloorTo(v, bucket), 8)
  {
    Pow256Values();
  }

  // What a bucket is.

  /** `m` is the boundary of the bucket `v` falls in. */
  ghost predicate IsBoundary(m: int, v: int, bucket: int)
  {
    m <= v < m + bucket && exists k :: m == Times(k, bucket)
  }

  function Times(k: int, bucket: int): int
  {
    k * bucket
  }

  /** The boundary of `v`'s bucket, wherever it lies. */
  ghost function Boundary(v: int, bucket: int): (m: int)
    requires bucket >= 1
    ensures IsBoundary(m, v, bucket)
  {
    assert Times(v / bucket, bucket) == (v / bucket) * bucket;
    (v / bucket) * bucket
  }

  lemma MultiplesAreApart(d: int, bucket: int)
    requires bucket >= 1
    ensures d >= 1 ==> d * bucket >= bucket
    ensures d <= -1 ==> d * bucket <= -bucket
  {
  }

  /** A value has one boundary, so a bucket is determined by any of its values. */
  lemma BoundaryIsUnique(m: int, v: int, m': int, bucket: int)
    requires bucket >= 1 && IsBoundary(m, v, bucket) && IsBoundary(m', v, bucket)
    ensures m == m'
  {
    var k :| m == Times(k, bucket);
    var k' :| m' == Times(k', bucket);
    assert m - m' == (k - k') * bucket;
    MultiplesAreApart(k - k', bucket);
  }

  /** Flooring a boundary leaves it where it is. */
  lemma BoundaryOfBoundary(v: int, bucket: int)
    requires bucket >= 1
    ensures Boundary(Boundary(v, bucket), bucket) == Boundary(v, bucket)
  {
    var m := Boundary(v, bucket);
    assert IsBoundary(m, m, bucket) by {
      var k :| m == Times(k, bucket);
    }
    BoundaryIsUnique(Boundary(m, bucket), m, m, bucket);
  }

  /** The result saturates only downwards: a boundary is never above its value. */
  lemma FloorToIsTheBoundary(v: int, bucket: int)
    requires I64_MIN <= v <= I64_MAX
    ensures var m := Boundary(v, AtLeastOne(bucket));
            FloorTo(v, bucket) == if m >= I64_MIN then m else I64_MIN
  {
  }

  lemma NarrowIsWithinLong(v: int, width: nat)
    requires width in {2, 4, 8} && Fits(v, width)
    ensures I64_MIN <= v <= I64_MAX
  {
    Pow256Values();
  }

  /**
   int2 and int4: the result reads back as the boundary of the value's bucket,
   and the value is refused exactly when that boundary is outside the type.
   */
  lemma NarrowBucketsAreBoundaries(bytes: seq<Byte>, typeOid: int, bucket: int)
    requires typeOid in {OID_INT2, OID_INT4} && |bytes| == Width(typeOid).value
    ensures var m := Boundary(Decode(bytes), AtLeastOne(bucket));
            var r := BucketBinary(bytes, typeOid, bucket);
            && (r.Some? <==> Fits(m, |bytes|))
            && (r.Some? ==> |r.value| == |bytes| && Decode(r.value) == m)
  {
    var v, width := Decode(bytes), Width(typeOid).value;
    var m := Boundary(v, AtLeastOne(bucket));
    DecodeFits(bytes);
    NarrowIsWithinLong(v, width);
    FloorToIsTheBoundary(v, bucket);
    if Fits(m, width) {
      NarrowIsWithinLong(m, width);
      CodecRoundTrip(m, width);
    } else {
      Pow256Values();
    }
  }

  /** int8: never refused; a boundary below the type's minimum becomes the minimum. */
  lemma LongBucketsAreBoundariesOrTheMinimum(bytes: seq<Byte>, bucket: int)
    requires |bytes| == 8
    ensures var m := Boundary(Decode(bytes), AtLeastOne(bucket));
            var r := BucketBinary(bytes, OID_INT8, bucket);
            r.Some? && |r.value| == 8 && Decode(r.value) == if m >= I64_MIN then m else I64_MIN
  {
    DecodeFits(bytes);
    NarrowIsWithinLong(Decode(bytes), 8);
    FloorToIsTheBoundary(Decode(bytes), bucket);
    FloorToFits(Decode(bytes), bucket);
    CodecRoundTrip(FloorTo(Decode(bytes), bucket), 8);
  }

  /** What a bucketed payload decodes to, whatever the type. */
  lemma BucketedValue(bytes: seq<Byte>, typeOid: int, bucket: int)
    requires BucketBinary(bytes, typeOid, bucket).Some?
    ensures Width(typeOid) == Some(|bytes|)
    ensures |BucketBinary(bytes, typeOid, bucket).value| == |bytes|
    ensures I64_MIN <= Decode(bytes) <= I64_MAX
    ensures Decode(BucketBinary(bytes, typeOid, bucket).value) == FloorTo(Decode(bytes), bucket)
  {
    DecodeFits(bytes);
    NarrowIsWithinLong(Decode(bytes), |bytes|);
    FloorToIsTheBoundary(Decode(bytes), bucket);
    if typeOid == OID_INT8 {
      LongBucketsAreBoundariesOrTheMinimum(bytes, bucket);
    } else {
      NarrowBucketsAreBoundaries(bytes, typeOid, bucket);
      NarrowIsWithinLong(Boundary(Decode(bytes), AtLeastOne(bucket)), |bytes|);
    }
  }

  /** Flooring twice is flooring once, saturated or not. */
  lemma FloorToIsIdempotent(v: int, bucket: int)
    requires I64_MIN <= v <= I64_MAX
    ensures FloorTo(FloorTo(v, bucket), bucket) == FloorTo(v, bucket)
  {
    var b := AtLeastOne(bucket);
    var f := FloorTo(v, bucket);
    FloorToIsTheBoundary(v, bucket);
    FloorToIsTheBoundary(f, bucket);
    BoundaryOfBoundary(v, b);
    if f != Boundary(v, b) {
      // `v` is in the bucket that straddles the minimum, and so is the minimum.
      BoundaryIsUnique(Boundary(v, b), I64_MIN, Boundary(I64_MIN, b), b);
    }
  }

  /** Two values floor alike exactly when they share a bucket. */
  lemma EqualFloorsShareABucket(v: int, w: int, bucket: int)
    requires I64_MIN <= v <= I64_MAX && I64_MIN <= w <= I64_MAX
    ensures FloorTo(v, bucket) == FloorTo(w, bucket)
       <==> Boundary(v, AtLeastOne(bucket)) == Boundary(w, AtLeastOne(bucket))
  {
    var b := AtLeastOne(bucket);
    var m, n := Boundary(v, b), Boundary(w, b);
    FloorToIsTheBoundary(v, bucket);
    FloorToIsTheBoundary(w, bucket);
    if m <= I64_MIN {
      BoundaryIsUnique(m, I64_MIN, Boundary(I64_MIN, b), b);
    }
    if n <= I64_MIN {
      BoundaryIsUnique(n, I64_MIN, Boundary(I64_MIN, b), b);
    }
  }

  /** A masked payload masks to itself: encoding is canonical. */
  lemma BucketingIsIdempotent(bytes: seq<Byte>, typeOid: int, bucket: int)
    requires BucketBinary(bytes, typeOid, bucket).Some?
    ensures var once := BucketBinary(bytes, typeOid, bucket).value;
            BucketBinary(once, typeOid, bucket) == Some(once)
  {
    BucketedValue(bytes, typeOid, bucket);
    var once := BucketBinary(bytes, typeOid, bucket).value;
    FloorToIsIdempotent(Decode(bytes), bucket);
    FloorToFits(Decode(bytes), bucket);
  }

  /** Equal outputs mean the same bucket, and the same bucket means equal outputs. */
  lemma EqualOutputsShareABucket(x: seq<Byte>, y: seq<Byte>, typeOid: int, bucket: int)
    requires BucketBinary(x, typeOid, bucket).Some? && BucketBinary(y, typeOid, bucket).Some?
    ensures BucketBinary(x, typeOid, bucket) == BucketBinary(y, typeOid, bucket)
       <==> Boundary(Decode(x), AtLeastOne(bucket)) == Boundary(Decode(y), AtLeastOne(bucket))
  {
    BucketedValue(x, typeOid, bucket);
    BucketedValue(y, typeOid, bucket);
    EqualFloorsShareABucket(Decode(x), Decode(y), bucket);
  }

  // The text format.

  /** Without leading and trailing white space. */
  function Trim(s: string): string
  {
    if s == "" then ""
    else if IsSpace(s[0]) then Trim(s[1..])
    else if IsSpace(s[|s| - 1]) then Trim(s[..|s| - 1])
    else s
  }

  /** A 64-bit integer: an optional sign and at least one digit, within range. */
  function ParseLong(s: string): Option<int>
  {
    var digits := if s != "" && s[0] in {'+', '-'} then s[1..] else s;
    if digits == "" || !AllDigits(digits) then None
    else
      var v: int := if s[0] == '-' then 0 - Magnitude(digits) else Magnitude(digits);
      if I64_MIN <= v <= I64_MAX then Some(v) else None
  }

  function PrintNat(n: nat): string
  {
    if n < 10 then [Digit(n)] else PrintNat(n / 10) + [Digit(n % 10)]
  }

  function Digit(n: nat): char
    requires n < 10
  {
    '0' + n as char
  }

  function PrintLong(v: int): string
  {
    if v < 0 then "-" + PrintNat(-v) else PrintNat(v)
  }

  lemma {:induction false} PrintNatReads(n: nat)
    ensures PrintNat(n) != "" && AllDigits(PrintNat(n)) && Magnitude(PrintNat(n)) == n
  {
    if n >= 10 {
      PrintNatReads(n / 10);
      var head := PrintNat(n / 10);
      assert (head + [Digit(n % 10)])[..|head|] == head;
    } else {
      assert [Digit(n)][..0] == "";
    }
  }

  lemma TrimKeeps(s: string)
    requires s != "" && !IsSpace(s[0]) && !IsSpace(s[|s| - 1])
    ensures Trim(s) == s
  {
  }

  lemma PrintLongIsTrimmed(v: int)
    ensures Trim(PrintLong(v)) == PrintLong(v)
  {
    PrintNatReads(if v < 0 then -v else v);
    TrimKeeps(PrintLong(v));
  }

  /** What is printed reads back, through the same trimming. */
  lemma PrintLongReads(v: int)
    requires I64_MIN <= v <= I64_MAX
    ensures Trim(PrintLong(v)) == PrintLong(v) && ParseLong(PrintLong(v)) == Some(v)
  {
    PrintLongIsTrimmed(v);
    if v < 0 {
      PrintNatReads(-v);
      assert PrintLong(v)[0] == '-' && PrintLong(v)[1..] == PrintNat(-v);
    } else {
      PrintNatReads(v);
      assert '0' <= PrintLong(v)[0] <= '9';
    }
  }

  /** The integer arm of the text format; `None` where another arm takes over. */
  function BucketText(text: string, bucket: int): Option<string>
  {
    match ParseLong(Trim(text))
    case None => None
    case Some(v) => Some(PrintLong(FloorTo(v, bucket)))
  }

  lemma FloorToIsLong(v: int, bucket: int)
    ensures I64_MIN <= FloorTo(v, bucket) <= I64_MAX
  {
  }

  /** The text served reads back as the floor of the text received, and is served again unchanged. */
  lemma TextIsFlooredOnce(text: string, bucket: int)
    requires ParseLong(Trim(text)).Some?
    ensures BucketText(text, bucket).Some?
    ensures ParseLong(Trim(BucketText(text, bucket).value)) == Some(FloorTo(ParseLong(Trim(text)).value, bucket))
    ensures BucketText(BucketText(text, bucket).value, bucket) == BucketText(text, bucket)
  {
    var v := ParseLong(Trim(text)).value;
    FloorToIsLong(v, bucket);
    PrintLongReads(FloorTo(v, bucket));
    FloorToIsIdempotent(v, bucket);
  }

  /**
   Text and binary agree exactly when the boundary fits the type. The text arm floors any
   64-bit value without asking how wide the column is, so for a value of an int2 or int4
   column it serves a boundary that the binary arm refuses.
   */
  lemma TextAgreesWithBinaryIffTheBoundaryFits(text: string, bytes: seq<Byte>, typeOid: int, bucket: int)
    requires Width(typeOid) == Some(|bytes|) && ParseLong(Trim(text)) == Some(Decode(bytes))
    ensures (var binary := BucketBinary(bytes, typeOid, bucket);
             binary.Some? && BucketText(text, bucket) == Some(PrintLong(Decode(binary.value))))
       <==> typeOid == OID_INT8 || Fits(Boundary(Decode(bytes), AtLeastOne(bucket)), |bytes|)
  {
    if typeOid == OID_INT8 {
      LongBucketsAreBoundariesOrTheMinimum(bytes, bucket);
    } else {
      NarrowBucketsAreBoundaries(bytes, typeOid, bucket);
    }
    if BucketBinary(bytes, typeOid, bucket).Some? {
      BucketedValue(bytes, typeOid, bucket);
    }
  }

  /** The int2 value -1 with a bucket of 32769: served as text, refused in binary. */
  lemma NarrowTextCanLeaveTheType()
    ensures Decode([255, 255]) == -1 && ParseLong(Trim("-1")) == Some(-1)
    ensures BucketText("-1", 32769) == Some(PrintLong(-32769)) && !Fits(-32769, 2)
    ensures BucketBinary([255, 255], OID_INT2, 32769).None?
  {
    Pow256Values();
    var bytes: seq<Byte> := [255, 255];
    assert bytes[..1] == [255];
    assert Unsigned([255]) == 255;
    assert Unsigned(bytes) == 65535;
    assert (-1) / 32769 == -1;
    PrintLongReads(-1);
    assert PrintNat(1) == "1" && PrintLong(-1) == "-1";
  }
}
