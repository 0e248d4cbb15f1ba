/**
 Recognising a payment card number by its Luhn checksum: the table-driven sum
 against the doubled digits it stands for, and which slips it catches.
 */
module Luhn {
  import opened Wrappers
  import opened Words

  type Digit = d: int | 0 <= d < 10

  /** The digits of a candidate, spaces and hyphens dropped; `None` if anything else is in it. */
  function Digits(v: string): Option<seq<Digit>>
  {
    if v == "" then Some([])
    else
      match Digits(v[1..])
      case None => None
      case Some(rest) =>
        if v[0] in {' ', '-'} then Some(rest)
        else if '0' <= v[0] <= '9' then Some([(v[0] - '0') as int] + rest)
        else None
  }

  /** Every second digit from the right is doubled and its own digits added up. */
  function Contribution(d: Digit, position: nat): (c: Digit)
  {
    if position % 2 == 1 then (2 * d) / 10 + (2 * d) % 10 else d
  }

  /** The checksum of digits whose last one stands at `position`, counted from the right. */
  function Sum(digits: seq<Digit>, position: nat): nat
  {
    if digits == [] then 0
    else Contribution(digits[0], position + |digits| - 1) + Sum(digits[1..], position)
  }

  ghost predicate Checks(digits: seq<Digit>)
  {
    Sum(digits, 0) % 10 == 0
  }

  /** Parsing, character by character; one bad character empties the list. */
  method ParseDigits(v: string) returns (digits: seq<Digit>)
    ensures digits == (if Digits(v).Some? then Digits(v).value else [])
  {
    digits := [];
    assert v[0..] == v;
    for i := 0 to |v|
      invariant Digits(v).Some? <==> Digits(v[i..]).Some?
      invariant Digits(v).Some? ==> Digits(v).value == digits + Digits(v[i..]).value
    {
      assert v[i..][0] == v[i] && v[i..][1..] == v[i + 1..];
      if v[i] !in {' ', '-'} {
        if '0' <= v[i] <= '9' {
          digits := digits + [(v[i] - '0') as int];
        } else {
          return [];
        }
      }
    }
    assert v[|v|..] == "";
  }

  /** The recogniser accepts exactly 13 to 19 digits whose Luhn sum is a multiple of ten. */
  method LooksLikeCard(v: string) returns (ok: bool)
    ensures ok <==> Digits(v).Some? && 13 <= |Digits(v).value| <= 19 && Checks(Digits(v).value)
  {
    var digits := ParseDigits(v);
    if |digits| < 13 || |digits| > 19 {
      return false;
    }
    var doubled: seq<int> := [0, 2, 4, 6, 8, 1, 3, 5, 7, 9];
    var sum: nat := 0;
    for i := 0 to |digits|
      invariant sum == Sum(digits[|digits| - i..], 0) <= 9 * i
    {
      var digit := digits[|digits| - 1 - i];
      assert digits[|digits| - i - 1..][1..] == digits[|digits| - i..];
      TableIsDoubling(digit, doubled);
      sum := SaturatingAdd(sum, if i % 2 == 1 then doubled[digit] else digit);
    }
    assert digits[0..] == digits;
    ok := sum % 10 == 0;
  }

  lemma TableIsDoubling(d: Digit, table: seq<int>)
    requires table == [0, 2, 4, 6, 8, 1, 3, 5, 7, 9]
    ensures table[d] == Contribution(d, 1)
  {
  }

  lemma {:induction false} SumSplits(p: seq<Digit>, t: seq<Digit>, position: nat)
    ensures Sum(p + t, position) == Sum(p, position + |t|) + Sum(t, position)
  {
    if p == [] {
      assert p + t == t;
    } else {
      SumSplits(p[1..], t, position);
      assert (p + t)[1..] == p[1..] + t;
    }
  }

  lemma SumAround(p: seq<Digit>, mid: seq<Digit>, t: seq<Digit>)
    ensures Sum(p + mid + t, 0) == Sum(p, |mid| + |t|) + Sum(mid, |t|) + Sum(t, 0)
  {
    SumSplits(p + mid, t, 0);
    SumSplits(p, mid, |t|);
  }

  /** Doubling permutes the digits: it is doubling modulo nine, with 9 kept as 9. */
  lemma DoubledValue(d: Digit, position: nat)
    ensures Contribution(d, position) == if position % 2 == 0 then d else if d < 5 then 2 * d else 2 * d - 9
  {
  }

  lemma SameResidue(rest: nat, m: nat, n: nat)
    requires (rest + m) % 10 == 0 && -10 < m - n < 10
    ensures (rest + n) % 10 == 0 <==> m == n
  {
  }

  lemma ContributionsDiffer(a: Digit, b: Digit, position: nat)
    requires a != b
    ensures Contribution(a, position) != Contribution(b, position)
  {
    DoubledValue(a, position);
    DoubledValue(b, position);
  }

  lemma SingleSum(a: Digit, position: nat)
    ensures Sum([a], position) == Contribution(a, position)
  {
    assert [a][1..] == [];
  }

  /** One wrong digit is always caught. */
  lemma SubstitutionIsCaught(p: seq<Digit>, a: Digit, b: Digit, t: seq<Digit>)
    requires a != b
    ensures !(Checks(p + [a] + t) && Checks(p + [b] + t))
  {
    SumAround(p, [a], t);
    SumAround(p, [b], t);
    if Checks(p + [a] + t) {
      var rest := Sum(p, 1 + |t|) + Sum(t, 0);
      SingleSum(a, |t|);
      SingleSum(b, |t|);
      SameResidue(rest, Contribution(a, |t|), Contribution(b, |t|));
      ContributionsDiffer(a, b, |t|);
    }
  }

  lemma PairSum(a: Digit, b: Digit, position: nat)
    ensures Sum([a, b], position) == Contribution(a, position + 1) + Contribution(b, position)
  {
    SumSplits([a], [b], position);
    assert [a] + [b] == [a, b];
    SingleSum(a, position + 1);
    SingleSum(b, position);
  }

  /** A swap changes the checksum by less than ten, and by nothing only for 0 and 9. */
  lemma SwappedPair(a: Digit, b: Digit, position: nat)
    requires a != b
    ensures -10 < Sum([a, b], position) - Sum([b, a], position) < 10
    ensures Sum([a, b], position) == Sum([b, a], position) <==> (a == 0 && b == 9) || (a == 9 && b == 0)
  {
    PairSum(a, b, position);
    PairSum(b, a, position);
    DoubledValue(a, position);
    DoubledValue(a, position + 1);
    DoubledValue(b, position);
    DoubledValue(b, position + 1);
    var d, e := if a < 5 then a else a - 9, if b < 5 then b else b - 9;
    assert Sum([a, b], position) - Sum([b, a], position) == if position % 2 == 0 then d - e else e - d;
  }

  /** Swapping two different neighbours is caught unless they are 0 and 9. */
  lemma TranspositionIsCaughtUnlessZeroNine(p: seq<Digit>, a: Digit, b: Digit, t: seq<Digit>)
    requires a != b
    ensures Checks(p + [a, b] + t) && Checks(p + [b, a] + t)
       <==> Checks(p + [a, b] + t) && ((a == 0 && b == 9) || (a == 9 && b == 0))
  {
    if Checks(p + [a, b] + t) {
      SumAround(p, [a, b], t);
      SumAround(p, [b, a], t);
      SwappedPair(a, b, |t|);
      SameResidue(Sum(p, 2 + |t|) + Sum(t, 0), Sum([a, b], |t|), Sum([b, a], |t|));
    }
  }
}
