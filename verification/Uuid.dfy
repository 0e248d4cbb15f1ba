/**
 UUIDs on the wire: reading the 16 bytes a value denotes from either format,
 printing them, and shaping a keyed digest into a pseudonym that is the same
 UUID whichever format the client asked for.
 */
module Uuid {
  import opened Wrappers
  import opened Words

  /** A value as it arrives; text that is not UTF-8 has no characters. */
  datatype Wire = Binary(bytes: seq<Byte>) | Text(chars: string) | NotUtf8

  /** The characters that are not hyphens. */
  function Strip(text: string): string
  {
    if text == "" then ""
    else (if text[0] == '-' then "" else [text[0]]) + Strip(text[1..])
  }

  /** A hexadecimal digit of either case. */
  function HexValue(c: char): Option<int>
  {
    if '0' <= c <= '9' then Some((c - '0') as int)
    else if 'a' <= c <= 'f' then Some((c - 'a') as int + 10)
    else if 'A' <= c <= 'F' then Some((c - 'A') as int + 10)
    else None
  }

  function HexDigit(nibble: int): char
    requires 0 <= nibble < 16
  {
    if nibble < 10 then '0' + nibble as char else 'a' + (nibble - 10) as char
  }

  const DIGITS := "0123456789abcdef"

  /** Hexadecimal digits are read and printed by their place among the sixteen. */
  lemma HexDigitsAreTheirPlaces(nibble: int)
    requires 0 <= nibble < 16
    ensures HexDigit(nibble) == DIGITS[nibble] && HexValue(DIGITS[nibble]) == Some(nibble)
  {
  }

  /** Lower-case hexadecimal, two characters a byte. */
  function Hex(bytes: seq<Byte>): string
  {
    if bytes == [] then ""
    else Hex(bytes[..|bytes| - 1]) + [HexDigit(bytes[|bytes| - 1] / 16), HexDigit(bytes[|bytes| - 1] % 16)]
  }

  /** Upper-case hexadecimal digits brought to lower case. */
  function LowerHex(s: string): string
  {
    seq(|s|, i requires 0 <= i < |s| => if 'A' <= s[i] <= 'F' then s[i] - 'A' + 'a' else s[i])
  }

  /** What it means for a wire value to denote the 16 bytes `b`. */
  ghost predicate Denotes(w: Wire, b: seq<Byte>)
  {
    && |b| == 16
    && match w
       case Binary(bytes) => bytes == b
       case Text(chars) => LowerHex(Strip(chars)) == Hex(b)
       case NotUtf8 => false
  }

  // Printing.

  method HexInto(bytes: seq<Byte>, prefix: string) returns (out: string)
    ensures out == prefix + Hex(bytes)
  {
    out := prefix;
    for i := 0 to |bytes|
      invariant out == prefix + Hex(bytes[..i])
    {
      var nibbles := [bytes[i] / 16, bytes[i] % 16];
      assert bytes[..i + 1][..i] == bytes[..i];
      out := out + [HexDigit(nibbles[0])] + [HexDigit(nibbles[1])];
    }
    assert bytes[..|bytes|] == bytes;
  }

  /** Eight, four, four, four and twelve digits with hyphens between. */
  function Hyphenate(hex: string): string
    requires |hex| == 32
  {
    hex[0..8] + "-" + hex[8..12] + "-" + hex[12..16] + "-" + hex[16..20] + "-" + hex[20..32]
  }

  lemma {:induction false} HexShape(bytes: seq<Byte>)
    ensures |Hex(bytes)| == 2 * |bytes|
    ensures forall k :: 0 <= k < |bytes| ==>
      Hex(bytes)[2 * k] == HexDigit(bytes[k] / 16) && Hex(bytes)[2 * k + 1] == HexDigit(bytes[k] % 16)
  {
    if bytes != [] {
      HexShape(bytes[..|bytes| - 1]);
    }
  }

  method UuidText(bytes: seq<Byte>) returns (text: string)
    requires |bytes| == 16
    ensures |Hex(bytes)| == 32 && text == Hyphenate(Hex(bytes))
    ensures Denotes(Text(text), bytes)
  {
    HexShape(bytes);
    var hex := HexInto(bytes, "");
    assert "" + Hex(bytes) == Hex(bytes);
    text := hex[0..8] + "-" + hex[8..12] + "-" + hex[12..16] + "-" + hex[16..20] + "-" + hex[20..32];
    HexHasNoHyphen(bytes);
    StripHyphenated(hex);
    LowerOfHex(bytes);
  }

  /** A printed UUID is the 36 characters of section 3 of RFC 4122: hyphens at four places, digits elsewhere. */
  lemma HyphensStandInTheirPlaces(hex: string, k: nat)
    requires |hex| == 32 && '-' !in hex && k < 36
    ensures |Hyphenate(hex)| == 36
    ensures Hyphenate(hex)[k] == '-' <==> k in {8, 13, 18, 23}
  {
    var text := Hyphenate(hex);
    assert text[0..8] == hex[0..8] && text[9..13] == hex[8..12] && text[14..18] == hex[12..16];
    assert text[19..23] == hex[16..20] && text[24..36] == hex[20..32];
    assert text[8] == text[13] == text[18] == text[23] == '-';
    if k < 8 {
      assert text[k] == hex[k];
    } else if 8 < k < 13 {
      assert text[k] == hex[k - 1];
    } else if 13 < k < 18 {
      assert text[k] == hex[k - 2];
    } else if 18 < k < 23 {
      assert text[k] == hex[k - 3];
    } else if 23 < k {
      assert text[k] == hex[k - 4];
    }
  }

  lemma Associative(a: string, b: string, c: string)
    ensures a + (b + c) == (a + b) + c
  {
  }

  lemma {:induction false} StripAppend(a: string, b: string)
    ensures Strip(a + b) == Strip(a) + Strip(b)
  {
    if a == "" {
      assert a + b == b;
    } else {
      StripAppend(a[1..], b);
      var head := if a[0] == '-' then "" else [a[0]];
      assert (a + b)[1..] == a[1..] + b && (a + b)[0] == a[0];
      assert Strip(a + b) == head + Strip(a[1..] + b) && Strip(a) == head + Strip(a[1..]);
      Associative(head, Strip(a[1..]), Strip(b));
    }
  }

  lemma {:induction false} StripPlain(s: string)
    requires '-' !in s
    ensures Strip(s) == s
  {
    if s != "" {
      StripPlain(s[1..]);
    }
  }

  lemma StripHyphenated(hex: string)
    requires |hex| == 32 && '-' !in hex
    ensures Strip(Hyphenate(hex)) == hex
  {
    StripPlain(hex[0..8]);
    var ab := hex[0..8] + "-" + hex[8..12];
    StripGroup(hex, hex[0..8], 8, 12);
    var abc := ab + "-" + hex[12..16];
    StripGroup(hex, ab, 12, 16);
    var abcd := abc + "-" + hex[16..20];
    StripGroup(hex, abc, 16, 20);
    StripGroup(hex, abcd, 20, 32);
    assert hex[..32] == hex;
  }

  /** Appending the next group of digits behind a hyphen. */
  lemma StripGroup(hex: string, sofar: string, from: nat, to: nat)
    requires from <= to <= |hex| && '-' !in hex && Strip(sofar) == hex[..from]
    ensures Strip(sofar + "-" + hex[from..to]) == hex[..to]
  {
    var group := hex[from..to];
    StripPlain(group);
    StripJoin(sofar, group);
    SliceJoin(hex, from, to);
  }

  lemma SliceJoin(hex: string, from: nat, to: nat)
    requires from <= to <= |hex|
    ensures hex[..from] + hex[from..to] == hex[..to]
  {
  }

  lemma StripJoin(a: string, b: string)
    ensures Strip(a + "-" + b) == Strip(a) + Strip(b)
  {
    StripAppend(a + "-", b);
    StripAppend(a, "-");
    assert Strip("-") == "";
    assert Strip(a) + "" == Strip(a);
  }

  lemma HexDigits(nibble: int)
    requires 0 <= nibble < 16
    ensures HexDigit(nibble) != '-' && !('A' <= HexDigit(nibble) <= 'F')
    ensures HexValue(HexDigit(nibble)) == Some(nibble)
  {
  }

  lemma {:induction false} HexCharacters(bytes: seq<Byte>, i: nat)
    requires i < |Hex(bytes)|
    ensures exists n :: 0 <= n < 16 && Hex(bytes)[i] == HexDigit(n)
  {
    HexShape(bytes);
    assert i == 2 * (i / 2) || i == 2 * (i / 2) + 1;
    var b := bytes[i / 2];
    var n := if i % 2 == 0 then b / 16 else b % 16;
    assert Hex(bytes)[i] == HexDigit(n);
  }

  lemma {:induction false} HexHasNoHyphen(bytes: seq<Byte>)
    ensures '-' !in Hex(bytes)
  {
    forall i | 0 <= i < |Hex(bytes)| ensures Hex(bytes)[i] != '-' {
      HexCharacters(bytes, i);
    }
  }

  lemma {:induction false} LowerOfHex(bytes: seq<Byte>)
    ensures LowerHex(Hex(bytes)) == Hex(bytes)
  {
    forall i | 0 <= i < |Hex(bytes)| ensures !('A' <= Hex(bytes)[i] <= 'F') {
      HexCharacters(bytes, i);
    }
  }

  // Reading.

  /** A character reads as a nibble exactly when its lower case is how the nibble prints. */
  lemma HexValueInverts(c: char, nibble: int)
    requires 0 <= nibble < 16
    ensures HexValue(c) == Some(nibble) <==> (if 'A' <= c <= 'F' then c - 'A' + 'a' else c) == HexDigit(nibble)
  {
  }

  /** One value, one meaning: hexadecimal text determines its bytes. */
  lemma HexIsInjective(a: seq<Byte>, b: seq<Byte>)
    requires Hex(a) == Hex(b)
    ensures a == b
  {
    HexShape(a);
    HexShape(b);
    forall k | 0 <= k < |a| ensures a[k] == b[k] {
      HexDigits(a[k] / 16);
      HexDigits(b[k] / 16);
      HexDigits(a[k] % 16);
      HexDigits(b[k] % 16);
      assert Hex(a)[2 * k] == Hex(b)[2 * k] && Hex(a)[2 * k + 1] == Hex(b)[2 * k + 1];
    }
  }

  lemma DenotesOne(w: Wire, a: seq<Byte>, b: seq<Byte>)
    requires Denotes(w, a) && Denotes(w, b)
    ensures a == b
  {
    if w.Text? {
      HexIsInjective(a, b);
    }
  }

  /** The nibbles of `n` up to byte `k` read as `out`. */
  ghost predicate Reads(n: string, out: seq<Byte>)
  {
    && 2 * |out| <= |n|
    && forall j :: 0 <= j < |out| ==>
         HexValue(n[2 * j]) == Some(out[j] / 16) && HexValue(n[2 * j + 1]) == Some(out[j] % 16)
  }

  lemma NibblesPrint(n: string, out: seq<Byte>, j: nat)
    requires |n| == 2 * |out| && j < |out|
    ensures |Hex(out)| == |n|
    ensures HexValue(n[2 * j]) == Some(out[j] / 16) <==> LowerHex(n)[2 * j] == Hex(out)[2 * j]
    ensures HexValue(n[2 * j + 1]) == Some(out[j] % 16) <==> LowerHex(n)[2 * j + 1] == Hex(out)[2 * j + 1]
  {
    HexShape(out);
    HexValueInverts(n[2 * j], out[j] / 16);
    HexValueInverts(n[2 * j + 1], out[j] % 16);
  }

  lemma ReadsPrints(n: string, out: seq<Byte>)
    requires |n| == 2 * |out| && Reads(n, out)
    ensures LowerHex(n) == Hex(out)
  {
    HexShape(out);
    forall i | 0 <= i < |n| ensures LowerHex(n)[i] == Hex(out)[i] {
      var j := i / 2;
      assert i == 2 * j || i == 2 * j + 1;
      NibblesPrint(n, out, j);
    }
  }

  lemma PrintsReads(n: string, out: seq<Byte>)
    requires |n| == 2 * |out| && LowerHex(n) == Hex(out)
    ensures Reads(n, out)
  {
    forall j | 0 <= j < |out|
      ensures HexValue(n[2 * j]) == Some(out[j] / 16) && HexValue(n[2 * j + 1]) == Some(out[j] % 16)
    {
      NibblesPrint(n, out, j);
    }
  }

  /** A text whose nibbles cannot be read at byte `k` denotes nothing. */
  lemma UnreadableDenotesNothing(chars: string, k: nat)
    requires k < 16
    requires |Strip(chars)| <= 2 * k + 1
          || HexValue(Strip(chars)[2 * k]).None? || HexValue(Strip(chars)[2 * k + 1]).None?
    ensures forall b :: !Denotes(Text(chars), b)
  {
    forall b | Denotes(Text(chars), b) ensures false {
      HexShape(b);
      PrintsReads(Strip(chars), b);
    }
  }

  /** Sixteen pairs of nibbles and nothing left over. */
  method ReadText(chars: string) returns (r: Option<seq<Byte>>)
    ensures r.Some? ==> Denotes(Text(chars), r.value)
    ensures r.None? ==> forall b :: !Denotes(Text(chars), b)
  {
    var nibbles := Strip(chars);
    var out: seq<Byte> := [];
    for k := 0 to 16
      invariant |out| == k && Reads(nibbles, out)
    {
      if 2 * k >= |nibbles| || HexValue(nibbles[2 * k]).None?
         || 2 * k + 1 >= |nibbles| || HexValue(nibbles[2 * k + 1]).None? {
        UnreadableDenotesNothing(chars, k);
        return None;
      }
      var hi, lo := HexValue(nibbles[2 * k]).value, HexValue(nibbles[2 * k + 1]).value;
      var byte := hi * 16 + lo;
      assert byte / 16 == hi && byte % 16 == lo;
      out := out + [byte];
    }
    if |nibbles| > 32 {
      forall b | Denotes(Text(chars), b) ensures false {
        HexShape(b);
      }
      return None;
    }
    ReadsPrints(nibbles, out);
    return Some(out);
  }

  /** Reading succeeds exactly on the values that denote 16 bytes, and yields those. */
  method CanonicalUuid(w: Wire) returns (r: Option<seq<Byte>>)
    ensures r.Some? ==> Denotes(w, r.value)
    ensures r.None? ==> forall b :: !Denotes(w, b)
  {
    match w {
      case Binary(bytes) => return if |bytes| == 16 then Some(bytes) else None;
      case NotUtf8 => return None;
      case Text(chars) => r := ReadText(chars);
    }
  }

  // Pseudonyms.

  /** The bytes a string of octets stands for. */
  function Octets(s: seq<bv8>): seq<Byte>
  {
    seq(|s|, i requires 0 <= i < |s| => s[i] as int)
  }

  /** A digest shaped into a version 4 UUID of the RFC 4122 variant, by its bits. */
  method UuidBytes(digest: seq<bv8>) returns (out: seq<Byte>)
    requires |digest| == 32
    ensures out == Shaped(Octets(digest))
  {
    var octets := digest[..16];
    octets := octets[6 := (octets[6] & 0x0f) | 0x40];
    octets := octets[8 := (octets[8] & 0x3f) | 0x80];
    out := Octets(octets);
    VersionBits(digest[6]);
    VariantBits(digest[8]);
    ShapedAt(Octets(digest), out);
  }

  /** The shape of a digest, octet by octet. */
  lemma ShapedAt(digest: seq<Byte>, out: seq<Byte>)
    requires |digest| == 32 && |out| == 16
    requires out[6] == digest[6] % 16 + 64 && out[8] == digest[8] % 64 + 128
    requires forall i :: 0 <= i < 16 && i != 6 && i != 8 ==> out[i] == digest[i]
    ensures out == Shaped(digest)
  {
  }

  function Shaped(digest: seq<Byte>): (r: seq<Byte>)
    requires |digest| == 32
    ensures |r| == 16
    ensures r[6] / 16 == 4 && r[8] / 64 == 2
    ensures forall i :: 0 <= i < 16 && i != 6 && i != 8 ==> r[i] == digest[i]
    ensures r[6] % 16 == digest[6] % 16 && r[8] % 64 == digest[8] % 64
  {
    digest[..6] + [digest[6] % 16 + 64] + digest[7..8] + [digest[8] % 64 + 128] + digest[9..16]
  }

  /** The bit operations on a byte in arithmetic. */
  lemma VersionBits(x: bv8)
    ensures ((x & 0x0f) | 0x40) as int == x as int % 16 + 0x40
  {
  }

  lemma VariantBits(x: bv8)
    ensures ((x & 0x3f) | 0x80) as int == x as int % 64 + 0x80
  {
  }

  /** The pseudonym of a wire value in its own format, for any digest of 32 bytes. */
  method Pseudonym(w: Wire, digest: seq<Byte> -> seq<bv8>) returns (r: Option<Wire>)
    requires forall b :: |digest(b)| == 32
    ensures r.None? <==> forall b :: !Denotes(w, b)
    ensures r.Some? ==> (r.value.Binary? <==> w.Binary?) && !r.value.NotUtf8?
    ensures forall b :: Denotes(w, b) ==> r.Some? && Denotes(r.value, Shaped(Octets(digest(b))))
    ensures r.Some? && r.value.Text? ==> forall b :: Denotes(w, b) ==>
              var hex := Hex(Shaped(Octets(digest(b))));
              |hex| == 32 && r.value.chars == Hyphenate(hex)
  {
    var canonical := CanonicalUuid(w);
    if canonical.None? {
      return None;
    }
    var b := canonical.value;
    forall c | Denotes(w, c) ensures c == b {
      DenotesOne(w, c, b);
    }
    var shaped := UuidBytes(digest(b));
    if w.Binary? {
      return Some(Binary(shaped));
    }
    var text := UuidText(shaped);
    return Some(Text(text));
  }

  /** Printing then reading gives the bytes back. */
  lemma PrintedFormDenotes(b: seq<Byte>)
    requires |b| == 16
    ensures |Hex(b)| == 32 && Denotes(Text(Hyphenate(Hex(b))), b)
  {
    HexShape(b);
    HexHasNoHyphen(b);
    StripHyphenated(Hex(b));
    LowerOfHex(b);
  }

  lemma {:induction false} StripLower(text: string)
    ensures Strip(LowerHex(text)) == LowerHex(Strip(text))
  {
    if text != "" {
      StripLower(text[1..]);
      assert LowerHex(text)[1..] == LowerHex(text[1..]);
    }
  }

  /** The case of the digits never changes what a text denotes. */
  lemma CaseDoesNotMatter(text: string, b: seq<Byte>)
    ensures Denotes(Text(LowerHex(text)), b) <==> Denotes(Text(text), b)
  {
    StripLower(text);
    assert LowerHex(LowerHex(Strip(text))) == LowerHex(Strip(text));
  }

  /** Moving, adding or dropping hyphens never changes what a text denotes. */
  lemma HyphensDoNotMatter(p: string, s: string, b: seq<Byte>)
    ensures Denotes(Text(p + "-" + s), b) <==> Denotes(Text(p + s), b)
  {
    StripJoin(p, s);
    StripAppend(p, s);
  }

  /** In print, the version is the digit 4 and the variant one of 8, 9, a and b. */
  lemma PseudonymsPrintAsVersionFour(digest: seq<Byte>)
    requires |digest| == 32
    ensures var hex := Hex(Shaped(digest));
            |hex| == 32 && Hyphenate(hex)[14] == '4' && Hyphenate(hex)[19] in {'8', '9', 'a', 'b'}
  {
    var r := Shaped(digest);
    HexShape(r);
    assert Hex(r)[2 * 6] == HexDigit(r[6] / 16);
    assert Hex(r)[2 * 8] == HexDigit(r[8] / 16);
    assert 8 <= r[8] / 16 <= 11;
  }
}
