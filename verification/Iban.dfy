/**
 Recognising an IBAN by its check digits (ISO 13616 over ISO/IEC 7064 MOD 97-10):
 the one-character-at-a-time fold against the number it stands for, and which
 slips of the pen it is sure to catch.
 */
module Iban {
  import opened Words

  predicate IsDigit(c: char)
  {
    '0' <= c <= '9'
  }

  predicate IsUpper(c: char)
  {
    'A' <= c <= 'Z'
  }

  /** ASCII upper case; anything else is left alone. */
  function Upper(c: char): char
  {
    if 'a' <= c <= 'z' then c - 'a' + 'A' else c
  }

  /** The candidate without spaces, in upper case. */
  function Normalise(v: string): string
  {
    if v == "" then ""
    else (if v[0] == ' ' then "" else [Upper(v[0])]) + Normalise(v[1..])
  }

  /** Two letters, two digits, then letters and digits; 15 to 34 in all. */
  predicate WellFormed(u: string)
  {
    && 15 <= |u| <= 34
    && (forall i :: 0 <= i < 2 ==> IsUpper(u[i]))
    && (forall i :: 2 <= i < 4 ==> IsDigit(u[i]))
    && forall i :: 0 <= i < |u| ==> IsUpper(u[i]) || IsDigit(u[i])
  }

  /** Country code and check digits moved to the end. */
  function Rotated(u: string): string
    requires |u| >= 4
  {
    u[4..] + u[..4]
  }

  /** A digit's value, a letter's place in the alphabet plus nine. */
  function Part(c: char): nat
  {
    if IsDigit(c) then (c - '0') as nat
    else if IsUpper(c) then (c - 'A') as nat + 10
    else 0
  }

  const ALPHABET := "0123456789ABCDEFGHIJKLMNOPQRSTUVWXYZ"

  /** A character stands for its place in the alphabet of digits and letters. */
  lemma PartIsThePlace(c: char)
    requires IsDigit(c) || IsUpper(c)
    ensures Part(c) < |ALPHABET| && ALPHABET[Part(c)] == c
  {
  }

  // The number an IBAN stands for, written out in decimal.

  /** One decimal digit for a digit, two for a letter. */
  function Expand(s: string): seq<nat>
  {
    if s == "" then []
    else
      var part := Part(s[|s| - 1]);
      Expand(s[..|s| - 1]) + (if part < 10 then [part] else [part / 10, part % 10])
  }

  function Decimal(digits: seq<nat>): nat
  {
    if digits == [] then 0 else Decimal(digits[..|digits| - 1]) * 10 + digits[|digits| - 1]
  }

  /** What the standard calls a valid check: the whole number leaves 1 modulo 97. */
  ghost predicate Checks(u: string)
    requires |u| >= 4
  {
    Decimal(Expand(Rotated(u))) % 97 == 1
  }

  /** The running remainder. */
  function Remainder(s: string): nat
  {
    if s == "" then 0 else Fold(Remainder(s[..|s| - 1]), s[|s| - 1])
  }

  /** One decimal place for a digit, two for a letter. */
  function Shift(part: nat): nat
  {
    if part < 10 then 10 else 100
  }

  function Fold(r: nat, c: char): (r': nat)
    ensures r' < 97
  {
    (r * Shift(Part(c)) + Part(c)) % 97
  }

  lemma ModStep(n: nat, k: nat, p: nat)
    ensures (n * k + p) % 97 == ((n % 97) * k + p) % 97
  {
    var q := n / 97;
    assert n * k + p == ((n % 97) * k + p) + 97 * (q * k);
    ModMultiple((n % 97) * k + p, q * k);
  }

  lemma {:induction false} ModMultiple(x: int, m: nat)
    ensures (x + 97 * m) % 97 == x % 97
  {
  }

  /** The number a stretch stands for, character by character. */
  function Number(s: string): nat
  {
    if s == "" then 0 else Number(s[..|s| - 1]) * Shift(Part(s[|s| - 1])) + Part(s[|s| - 1])
  }

  lemma {:induction false} NumberIsDecimal(s: string)
    ensures Number(s) == Decimal(Expand(s))
  {
    if s != "" {
      var init, part := s[..|s| - 1], Part(s[|s| - 1]);
      NumberIsDecimal(init);
      var e := Expand(init);
      if part < 10 {
        assert (e + [part])[..|e|] == e;
      } else {
        var d, u := part / 10, part % 10;
        assert (e + [d, u])[..|e| + 1] == e + [d];
        assert (e + [d])[..|e|] == e;
      }
    }
  }

  lemma {:induction false} RemainderOfNumber(s: string)
    ensures Remainder(s) == Number(s) % 97
  {
    if s != "" {
      RemainderOfNumber(s[..|s| - 1]);
      var n, part := Number(s[..|s| - 1]), Part(s[|s| - 1]);
      ModStep(n, Shift(part), part);
    }
  }

  /** The fold computes the remainder of the whole expanded number. */
  lemma RemainderOfTheNumber(s: string)
    ensures Remainder(s) == Decimal(Expand(s)) % 97
  {
    RemainderOfNumber(s);
    NumberIsDecimal(s);
  }

  method Normalised(v: string) returns (upper: string)
    ensures upper == Normalise(v)
  {
    upper := "";
    for i := 0 to |v|
      invariant upper + Normalise(v[i..]) == Normalise(v)
    {
      assert v[i..][0] == v[i] && v[i..][1..] == v[i + 1..];
      if v[i] != ' ' {
        upper := upper + [Upper(v[i])];
      }
    }
    assert v[|v|..] == "";
  }

  /** Spaces and letter case never matter, and never come back. */
  lemma {:induction false} NormaliseIsIdempotent(v: string)
    ensures Normalise(Normalise(v)) == Normalise(v)
  {
    if v != "" {
      NormaliseIsIdempotent(v[1..]);
      var rest := Normalise(v[1..]);
      if v[0] == ' ' {
        assert Normalise(v) == rest;
      } else {
        var c := Upper(v[0]);
        assert c != ' ' && Upper(c) == c;
        assert Normalise(v) == [c] + rest && ([c] + rest)[1..] == rest;
      }
    }
  }

  /** The recogniser accepts exactly the well-formed candidates whose number checks. */
  method LooksLikeIban(v: string) returns (ok: bool)
    ensures ok <==> WellFormed(Normalise(v)) && Checks(Normalise(v))
  {
    var upper := Normalised(v);
    if !WellFormed(upper) {
      return false;
    }
    var rotated := upper[4..] + upper[..4];
    var remainder := 0;
    for i := 0 to |rotated|
      invariant remainder < 97
      invariant remainder == Remainder(rotated[..i])
    {
      var part := Part(rotated[i]);
      var shift := Shift(part);
      assert rotated[..i + 1][..i] == rotated[..i];
      NeverSaturates(remainder, shift, part);
      remainder := SaturatingAdd(SaturatingMul(remainder, shift), part) % 97;
    }
    assert rotated[..|rotated|] == rotated;
    RemainderOfTheNumber(rotated);
    ok := remainder == 1;
  }

  /** The 32-bit arithmetic of one step is exact. */
  lemma NeverSaturates(remainder: nat, shift: nat, part: nat)
    requires remainder < 97 && shift <= 100 && part <= 35
    ensures SaturatingAdd(SaturatingMul(remainder, shift), part) == remainder * shift + part
  {
    assert remainder * shift <= 96 * 100 by {
      assert remainder * shift <= remainder * 100;
    }
  }

  // What the check digits catch.

  /** A factor with an inverse modulo 97 cancels. */
  lemma FactorCancels(factor: int, inverse: int, m: int, e: int)
    requires factor * inverse == 97 * m + 1
    ensures (factor * e) % 97 == 0 <==> e % 97 == 0
  {
    if (factor * e) % 97 == 0 {
      var q := (factor * e) / 97;
      assert factor * e == 97 * q;
      calc {
        e;
        (factor * inverse - 97 * m) * e;
        (factor * e) * inverse - 97 * (m * e);
        97 * (q * inverse - m * e);
      }
      Multiples(q * inverse - m * e);
    } else if e % 97 == 0 {
      var q := e / 97;
      assert factor * e == 97 * (factor * q);
      Multiples(factor * q);
    }
  }

  /** Small numbers survive such a factor unless they are zero. */
  lemma SmallFactorCancels(d: int, factor: int, inverse: int, m: int, e: int)
    requires factor * inverse == 97 * m + 1 && -97 < e < 97 && d == factor * e
    ensures d % 97 == 0 <==> e == 0
  {
    FactorCancels(factor, inverse, m, e);
  }

  lemma Multiples(k: int)
    ensures (97 * k) % 97 == 0
  {
  }

  /** Neither shift loses anything: modulo 97, 68 undoes 10 and 65 undoes 100. */
  lemma FoldIsInjective(r: nat, r': nat, c: char)
    requires r < 97 && r' < 97
    ensures Fold(r, c) == Fold(r', c) <==> r == r'
  {
    var p := Part(c);
    if p < 10 {
      SameRemainder(r * 10 + p, r' * 10 + p);
      SmallFactorCancels((r * 10 + p) - (r' * 10 + p), 10, 68, 7, r - r');
    } else {
      SameRemainder(r * 100 + p, r' * 100 + p);
      SmallFactorCancels((r * 100 + p) - (r' * 100 + p), 100, 65, 67, r - r');
    }
  }

  lemma RemainderBounded(s: string)
    ensures Remainder(s) < 97
  {
  }

  /** Appending the same characters keeps equal remainders equal and different ones different. */
  lemma {:induction false} SuffixKeepsDifferences(p: string, q: string, t: string)
    ensures Remainder(p + t) == Remainder(q + t) <==> Remainder(p) == Remainder(q)
  {
    if t == "" {
      assert p + t == p && q + t == q;
    } else {
      var init, c := t[..|t| - 1], t[|t| - 1];
      SuffixKeepsDifferences(p, q, init);
      assert (p + t)[..|p + t| - 1] == p + init && (q + t)[..|q + t| - 1] == q + init;
      RemainderBounded(p + init);
      RemainderBounded(q + init);
      FoldIsInjective(Remainder(p + init), Remainder(q + init), c);
    }
  }

  /** A stretch that does not straddle the rotation point stays in one piece. */
  lemma RotationIsLocal(u: string, w: string, i: nat, n: nat) returns (p: string, t: string)
    requires |u| == |w| >= 4 && i + n <= |u| && (i >= 4 || i + n <= 4)
    requires u[..i] == w[..i] && u[i + n..] == w[i + n..]
    ensures Rotated(u) == p + u[i..i + n] + t
    ensures Rotated(w) == p + w[i..i + n] + t
  {
    var around := Around(u[..i], u[i + n..], i, n);
    p, t := around.0, around.1;
    RotationAround(u, i, n);
    RotationAround(w, i, n);
  }

  /** What stands before and behind a stretch once the string is rotated. */
  function Around(head: string, tail: string, i: nat, n: nat): (string, string)
    requires |head| == i && (i >= 4 || (i + n <= 4 <= i + n + |tail|))
  {
    if i >= 4 then (head[4..], tail + head[..4]) else (tail[4 - i - n..] + head, tail[..4 - i - n])
  }

  lemma RotationAround(u: string, i: nat, n: nat)
    requires |u| >= 4 && i + n <= |u| && (i >= 4 || i + n <= 4)
    ensures var around := Around(u[..i], u[i + n..], i, n);
            Rotated(u) == around.0 + u[i..i + n] + around.1
  {
    var head, tail := u[..i], u[i + n..];
    if i >= 4 {
      assert u[4..] == head[4..] + u[i..i + n] + tail && u[..4] == head[..4];
    } else {
      assert u[4..] == tail[4 - i - n..] && u[..4] == head + u[i..i + n] + tail[..4 - i - n];
    }
  }

  predicate SameClass(a: char, b: char)
  {
    (IsDigit(a) && IsDigit(b)) || (IsUpper(a) && IsUpper(b))
  }

  /** Two strings that differ only by one digit for a digit or one letter for a letter. */
  ghost predicate Substituted(u: string, w: string, i: nat)
  {
    && i < |u| == |w|
    && u[..i] == w[..i]
    && u[i + 1..] == w[i + 1..]
    && u[i] != w[i]
    && SameClass(u[i], w[i])
  }

  lemma FoldTellsApart(r: nat, a: char, b: char)
    requires r < 97 && a != b && SameClass(a, b)
    ensures Fold(r, a) != Fold(r, b)
  {
  }

  lemma OneCharacterApart(p: string, a: char, b: char, t: string)
    requires a != b && SameClass(a, b)
    ensures Remainder(p + [a] + t) != Remainder(p + [b] + t)
  {
    assert (p + [a])[..|p|] == p && (p + [b])[..|p|] == p;
    RemainderBounded(p);
    FoldTellsApart(Remainder(p), a, b);
    SuffixKeepsDifferences(p + [a], p + [b], t);
  }

  /** A single substitution is always caught: the two are never both accepted. */
  lemma SubstitutionIsCaught(u: string, w: string, i: nat)
    requires |u| >= 4 && Substituted(u, w, i)
    ensures !(Checks(u) && Checks(w))
  {
    var p, t := RotationIsLocal(u, w, i, 1);
    assert u[i..i + 1] == [u[i]] && w[i..i + 1] == [w[i]];
    OneCharacterApart(p, u[i], w[i], t);
    RemainderOfTheNumber(Rotated(u));
    RemainderOfTheNumber(Rotated(w));
  }

  /** Two strings that differ only by swapping the unequal neighbours at `i`. */
  ghost predicate Transposed(u: string, w: string, i: nat)
  {
    && i + 1 < |u| == |w|
    && u[..i] == w[..i]
    && u[i + 2..] == w[i + 2..]
    && u[i] == w[i + 1]
    && u[i + 1] == w[i]
    && u[i] != u[i + 1]
  }

  /** A digit and a letter standing for eleven times that digit. */
  predicate Confusable(a: char, b: char)
  {
    (a, b) in {('1', 'B'), ('B', '1'), ('2', 'M'), ('M', '2'), ('3', 'X'), ('X', '3')}
  }

  lemma TwoFolds(p: string, a: char, b: char)
    ensures Remainder(p + [a, b]) == Fold(Fold(Remainder(p), a), b)
  {
    assert (p + [a, b])[..|p| + 1] == p + [a];
    assert (p + [a])[..|p|] == p;
  }

  /** Two folds are one: the remainder after both parts, multiplied out. */
  lemma FoldTwice(r: nat, a: char, b: char)
    requires r < 97
    ensures Fold(Fold(r, a), b)
         == (r * Shift(Part(a)) * Shift(Part(b)) + Part(a) * Shift(Part(b)) + Part(b)) % 97
  {
    var k, l, x, y := Shift(Part(a)), Shift(Part(b)), Part(a), Part(b);
    ModStep(r * k + x, l, y);
    assert (r * k + x) * l + y == r * k * l + x * l + y;
  }

  lemma SameRemainder(m: nat, n: nat)
    ensures m % 97 == n % 97 <==> (m - n) % 97 == 0
  {
  }

  /** Swapping parts `x` and `y` of widths `k` and `l` changes the number by `x(l-1) - y(k-1)`. */
  lemma SwapDifference(r: nat, x: nat, k: nat, y: nat, l: nat)
    ensures (r * k * l + x * l + y) % 97 == (r * l * k + y * k + x) % 97
       <==> (x * (l - 1) - y * (k - 1)) % 97 == 0
  {
    assert r * k * l == r * l * k;
    SameRemainder(r * k * l + x * l + y, r * l * k + y * k + x);
    assert (r * k * l + x * l + y) - (r * l * k + y * k + x) == x * (l - 1) - y * (k - 1);
  }

  lemma SwappedParts(x: nat, y: nat)
    requires x < 36 && y < 36 && x != y
    ensures (x * (Shift(y) - 1) - y * (Shift(x) - 1)) % 97 == 0
       <==> (x < 10 && y >= 10 && y == 11 * x) || (y < 10 && x >= 10 && x == 11 * y)
  {
    if x < 10 && y < 10 {
      SmallFactorCancels(x * 9 - y * 9, 9, 54, 5, x - y);
    } else if x >= 10 && y >= 10 {
      SmallFactorCancels(x * 99 - y * 99, 99, 49, 50, x - y);
    } else if x < 10 {
      SmallFactorCancels(x * 99 - y * 9, 9, 54, 5, 11 * x - y);
    } else {
      SmallFactorCancels(x * 9 - y * 99, 9, 54, 5, x - 11 * y);
    }
  }

  lemma PartsAreDistinct(a: char, b: char)
    requires (IsDigit(a) || IsUpper(a)) && (IsDigit(b) || IsUpper(b))
    ensures Part(a) < 36 && Part(b) < 36 && (Part(a) == Part(b) ==> a == b)
    ensures Confusable(a, b) <==>
              || (Part(a) < 10 && Part(b) >= 10 && Part(b) == 11 * Part(a))
              || (Part(b) < 10 && Part(a) >= 10 && Part(a) == 11 * Part(b))
  {
  }

  lemma SwappedFolds(r: nat, a: char, b: char)
    requires r < 97 && a != b
    requires (IsDigit(a) || IsUpper(a)) && (IsDigit(b) || IsUpper(b))
    ensures Fold(Fold(r, a), b) == Fold(Fold(r, b), a) <==> Confusable(a, b)
  {
    FoldTwice(r, a, b);
    FoldTwice(r, b, a);
    var x, y := Part(a), Part(b);
    SwapDifference(r, x, Shift(x), y, Shift(y));
    PartsAreDistinct(a, b);
    SwappedParts(x, y);
  }

  /** Within one side of the rotation point. */
  lemma InnerTransposition(u: string, w: string, i: nat)
    requires WellFormed(u) && WellFormed(w) && i != 3 && Transposed(u, w, i)
    ensures Checks(u) && Checks(w) <==> Checks(u) && Confusable(u[i], u[i + 1])
  {
    var p, t := RotationIsLocal(u, w, i, 2);
    var a, b := u[i], u[i + 1];
    assert u[i..i + 2] == [a, b] && w[i..i + 2] == [b, a];
    TwoFolds(p, a, b);
    TwoFolds(p, b, a);
    RemainderBounded(p);
    SwappedFolds(Remainder(p), a, b);
    SuffixKeepsDifferences(p + [a, b], p + [b, a], t);
    RemainderOfTheNumber(Rotated(u));
    RemainderOfTheNumber(Rotated(w));
  }

  // The last check digit and the first of the account stand at the two ends of the number.

  function Ten(n: nat): nat
  {
    if n == 0 then 1 else Ten(n - 1) * 10
  }

  /** How many decimal digits a stretch stands for. */
  function Width(s: string): nat
  {
    if s == "" then 0 else Width(s[..|s| - 1]) + if Part(s[|s| - 1]) < 10 then 1 else 2
  }

  lemma {:induction false} WidthBounded(s: string)
    ensures Width(s) <= 2 * |s|
  {
    if s != "" {
      WidthBounded(s[..|s| - 1]);
    }
  }

  lemma NumberStep(s: string, c: char)
    ensures Number(s + [c]) == Number(s) * Shift(Part(c)) + Part(c)
    ensures Width(s + [c]) == Width(s) + if Part(c) < 10 then 1 else 2
  {
    assert (s + [c])[..|s|] == s;
  }

  lemma {:induction false} NumberSplits(p: string, t: string)
    ensures Number(p + t) == Number(p) * Ten(Width(t)) + Number(t)
  {
    if t == "" {
      assert p + t == p;
    } else {
      var init, c := t[..|t| - 1], t[|t| - 1];
      assert p + t == (p + init) + [c] && t == init + [c];
      NumberSplits(p, init);
      NumberStep(p + init, c);
      NumberStep(init, c);
      ShiftedSum(Number(p), Width(init), Number(init), Part(c));
    }
  }

  lemma ShiftedSum(n: nat, width: nat, m: nat, part: nat)
    ensures (n * Ten(width) + m) * Shift(part) + part
         == n * Ten(width + if part < 10 then 1 else 2) + (m * Shift(part) + part)
  {
    var ten := Ten(width);
    assert Ten(width + 1) == ten * 10;
    if part >= 10 {
      assert Ten(width + 2) == Ten(width + 1) * 10 == ten * 100;
      assert (n * ten + m) * 100 == n * (ten * 100) + m * 100;
    } else {
      assert (n * ten + m) * 10 == n * (ten * 10) + m * 10;
    }
  }

  lemma {:induction false} TenAdds(a: nat, b: nat)
    ensures Ten(a + b) == Ten(a) * Ten(b)
  {
    if b > 0 {
      TenAdds(a, b - 1);
      var x, y := Ten(a), Ten(b - 1);
      assert Ten(a + b) == (x * y) * 10 == x * (y * 10);
    }
  }

  lemma ProductRemainder(x: nat, y: nat)
    ensures (x * y) % 97 == ((x % 97) * (y % 97)) % 97
  {
    ModStep(x, y, 0);
    ModStep(y, x % 97, 0);
    assert (x % 97) * y == y * (x % 97) && (x % 97) * (y % 97) == (y % 97) * (x % 97);
  }

  lemma RemainderOfSum(a: nat, b: nat)
    ensures Ten(a + b) % 97 == ((Ten(a) % 97) * (Ten(b) % 97)) % 97
  {
    TenAdds(a, b);
    ProductRemainder(Ten(a), Ten(b));
  }

  /** Adding exponents, with the remainders known. */
  lemma AddExponents(n: nat, a: nat, x: nat, b: nat, y: nat, z: nat)
    requires n == a + b && Ten(a) % 97 == x && Ten(b) % 97 == y && (x * y) % 97 == z
    ensures Ten(n) % 97 == z
  {
    RemainderOfSum(a, b);
  }

  /** By repeated squaring; `e` is 16. */
  lemma SixteenthPower(e: nat)
    requires e == 16
    ensures Ten(e) % 97 == 62
  {
    var two := e / 8;
    assert Ten(two - 2) == 1;
    assert Ten(two - 1) == 10;
    assert Ten(two) == 100;
    AddExponents(2 * two, two, 3, two, 3, 9);
    AddExponents(4 * two, 2 * two, 9, 2 * two, 9, 81);
    AddExponents(e, 4 * two, 81, 4 * two, 81, 62);
  }

  /** The 48th power of ten is -1 modulo 97, and the 32nd and the 64th are not 1. */
  lemma SomePowers(e: nat)
    requires e == 16
    ensures Ten(2 * e) % 97 == 61 && Ten(3 * e) % 97 == 96 && Ten(4 * e) % 97 == 35
  {
    SixteenthPower(e);
    AddExponents(2 * e, e, 62, e, 62, 61);
    AddExponents(3 * e, 2 * e, 61, e, 62, 96);
    AddExponents(4 * e, 2 * e, 61, 2 * e, 61, 35);
  }

  /** A power of ten that is 1 stays 1 when its exponent is multiplied. */
  lemma {:induction false} OneMultiplies(n: nat, k: nat)
    requires Ten(n) % 97 == 1
    ensures Ten(n * k) % 97 == 1
  {
    if k == 0 {
      assert n * k == 0;
    } else {
      OneMultiplies(n, k - 1);
      assert n * k == n + n * (k - 1);
      RemainderOfSum(n, n * (k - 1));
    }
  }

  lemma SquareOfMinusOne(n: nat)
    requires Ten(n) % 97 == 96
    ensures Ten(n + n) % 97 == 1
  {
    RemainderOfSum(n, n);
  }

  /** Adding an exponent that gives 1 changes nothing. */
  lemma OneShifts(n: nat, rest: nat)
    requires Ten(n) % 97 == 1
    ensures Ten(n + rest) % 97 == Ten(rest) % 97
  {
    RemainderOfSum(n, rest);
  }

  /** Odd multiples of an exponent that gives -1 give -1. */
  lemma {:induction false} OddMultiples(n: nat, half: nat)
    requires Ten(n) % 97 == 96
    ensures Ten(n * (2 * half + 1)) % 97 == 96
  {
    if half == 0 {
      assert n * (2 * half + 1) == n;
    } else {
      var rest := n * (2 * half - 1);
      assert rest == n * (2 * (half - 1) + 1) && n + n + rest == n * (2 * half + 1);
      OddMultiples(n, half - 1);
      SquareOfMinusOne(n);
      OneShifts(n + n, rest);
    }
  }

  /** If some multiple of `n` is an odd multiple of 48, then 10^n is not 1. */
  lemma NotOne(n: nat, k: nat, half: nat, e: nat)
    requires e == 16 && n * k == 48 * (2 * half + 1)
    ensures Ten(n) % 97 != 1
  {
    SomePowers(e);
    OddMultiples(3 * e, half);
    assert (3 * e) * (2 * half + 1) == n * k;
    if Ten(n) % 97 == 1 {
      OneMultiplies(n, k);
    }
  }

  /** A number as a power of two times an odd number. */
  lemma {:induction false} OddPart(n: nat) returns (power: nat, half: nat)
    requires 1 <= n <= 66
    ensures power in {1, 2, 4, 8, 16, 32, 64} && n == power * (2 * half + 1)
  {
    if n % 2 == 1 {
      power, half := 1, n / 2;
    } else {
      power, half := OddPart(n / 2);
      Doubled(n / 2, power, half);
      assert power <= n / 2 by {
        assert power * 1 <= power * (2 * half + 1);
      }
      power := 2 * power;
    }
  }

  lemma Doubled(n: nat, power: nat, half: nat)
    requires n == power * (2 * half + 1)
    ensures 2 * n == (2 * power) * (2 * half + 1)
  {
  }

  lemma TimesFortyEight(n: nat, power: nat, half: nat, k: nat)
    requires n == power * (2 * half + 1) && power * k == 48
    ensures n * k == 48 * (2 * half + 1)
  {
    assert n * k == (power * k) * (2 * half + 1);
  }

  /** Apart from 32 and 64, every such number has a multiple that is an odd multiple of 48. */
  lemma OddMultipleOf48(n: nat) returns (k: nat, half: nat)
    requires 1 <= n <= 66 && n != 32 && n != 64
    ensures n * k == 48 * (2 * half + 1)
  {
    var power;
    power, half := OddPart(n);
    assert power != 32 && power != 64;
    k := if power == 1 then 48 else if power == 2 then 24 else if power == 4 then 12 else if power == 8 then 6 else 3;
    assert power * k == 48;
    TimesFortyEight(n, power, half, k);
  }

  /** 10^n is not 1 modulo 97 for any n from 1 to 66; `e` is 16. */
  lemma TenIsNeverOne(n: nat, e: nat)
    requires 1 <= n <= 66 && e == 16
    ensures Ten(n) % 97 != 1
  {
    if n == 2 * e || n == 4 * e {
      SomePowers(e);
    } else {
      var k, half := OddMultipleOf48(n);
      NotOne(n, k, half, e);
    }
  }

  /** A difference of two digits has an inverse modulo 97. */
  lemma DigitFactorCancels(x: int, y: int)
    requires -9 <= x <= 9 && x != 0 && (x * y) % 97 == 0
    ensures y % 97 == 0
  {
    var d := if x > 0 then x else -x;
    assert (d * y) % 97 == 0 by {
      if x < 0 {
        var q := (x * y) / 97;
        assert d * y == 97 * (-q);
        Multiples(-q);
      }
    }
    match d
    case 1 => FactorCancels(1, 1, 0, y);
    case 2 => FactorCancels(2, 49, 1, y);
    case 3 => FactorCancels(3, 65, 2, y);
    case 4 => FactorCancels(4, 73, 3, y);
    case 5 => FactorCancels(5, 39, 2, y);
    case 6 => FactorCancels(6, 81, 5, y);
    case 7 => FactorCancels(7, 14, 1, y);
    case 8 => FactorCancels(8, 85, 7, y);
    case 9 => FactorCancels(9, 54, 5, y);
  }

  /** Exchanging the digits at the two ends of a number changes it by their difference times 10^n - 1. */
  lemma EndsSwapped(a: nat, b: nat, m: nat, ten: nat)
    requires a < 10 && b < 10 && a != b && ten % 97 != 1
    ensures (b * ten + m + a) % 97 != (a * ten + m + b) % 97
  {
    var x, y := b * ten + m + a, a * ten + m + b;
    SameRemainder(x, y);
    assert x - y == (b - a) * (ten - 1);
    if ((b - a) * (ten - 1)) % 97 == 0 {
      DigitFactorCancels(b - a, ten - 1);
    }
  }

  /** Across the rotation point: always caught. */
  lemma OuterTransposition(u: string, w: string)
    requires WellFormed(u) && WellFormed(w) && Transposed(u, w, 3)
    ensures !(Checks(u) && Checks(w))
  {
    var a, b := u[3], u[4];
    assert IsDigit(a) && IsDigit(b);
    var m := u[5..] + u[..3];
    assert Rotated(u) == [b] + (m + [a]);
    assert w[5..] == u[5..] && w[..3] == u[..3];
    assert Rotated(w) == [a] + (m + [b]);
    EndNumber(b, m, a);
    EndNumber(a, m, b);
    NumberIsDecimal(Rotated(u));
    NumberIsDecimal(Rotated(w));
    WidthBounded(m);
    TenIsNeverOne(Width(m) + 1, 16);
    EndsSwapped(Part(a), Part(b), Number(m) * 10, Ten(Width(m) + 1));
  }

  lemma NumberOfOne(c: char)
    ensures Number([c]) == Part(c)
  {
    NumberStep("", c);
    assert "" + [c] == [c] && Number("") == 0;
  }

  lemma EndNumber(first: char, m: string, last: char)
    requires IsDigit(first) && IsDigit(last)
    ensures Number([first] + (m + [last])) == Part(first) * Ten(Width(m) + 1) + Number(m) * 10 + Part(last)
  {
    var rest := m + [last];
    NumberOfOne(first);
    NumberSplits([first], rest);
    NumberStep(m, last);
    Substitute(Number([first] + rest), Number([first]), Ten(Width(rest)), Number(rest), Part(first), Ten(Width(m) + 1));
  }

  lemma Substitute(n: nat, f: nat, x: nat, g: nat, f': nat, x': nat)
    requires n == f * x + g && f == f' && x == x'
    ensures n == f' * x' + g
  {
  }

  /**
   Swapping two neighbours of a well-formed candidate is caught, except where a digit
   meets the letter worth eleven times as much: then both spellings pass or both fail.
   */
  lemma TranspositionIsCaughtUnlessConfusable(u: string, w: string, i: nat)
    requires WellFormed(u) && WellFormed(w) && Transposed(u, w, i)
    ensures Checks(u) && Checks(w) <==> Checks(u) && Confusable(u[i], u[i + 1])
  {
    if i == 3 {
      OuterTransposition(u, w);
    } else {
      InnerTransposition(u, w, i);
    }
  }
}
