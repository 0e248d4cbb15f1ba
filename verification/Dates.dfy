/**
 Coarsening the text of a date or timestamp to its month or its year, by finding
 delimiters rather than counting offsets.
 */
module Dates {
  import opened Wrappers
  import opened Masks
  import opened Words

  // Cutting strings up.

  predicate IsSign(c: char)
  {
    c == '+' || c == '-'
  }

  const ERA: string := " BC"

  predicate EndsWithEra(s: string)
  {
    |s| >= 3 && s[|s| - 3..] == ERA
  }

  /** Around the first occurrence of `c`. */
  function SplitOnce(s: string, c: char): Option<(string, string)>
  {
    if s == "" then None
    else if s[0] == c then Some(("", s[1..]))
    else
      match SplitOnce(s[1..], c)
      case None => None
      case Some(parts) => Some(([s[0]] + parts.0, parts.1))
  }

  /** Around every occurrence of `c`; never empty. */
  function Split(s: string, c: char): (r: seq<string>)
    ensures |r| >= 1
    decreases |s|
  {
    match SplitOnce(s, c)
    case None => [s]
    case Some(parts) =>
      SplitOnceParts(s, c);
      [parts.0] + Split(parts.1, c)
  }

  lemma {:induction false} SplitOnceParts(s: string, c: char)
    ensures SplitOnce(s, c).None? <==> c !in s
    ensures SplitOnce(s, c).Some? ==>
      var parts := SplitOnce(s, c).value;
      c !in parts.0 && s == parts.0 + [c] + parts.1 && |parts.1| < |s|
  {
    if s != "" {
      SplitOnceParts(s[1..], c);
      assert s == [s[0]] + s[1..];
    }
  }

  lemma {:induction false} SplitOnceJoin(a: string, c: char, b: string)
    requires c !in a
    ensures SplitOnce(a + [c] + b, c) == Some((a, b))
  {
    if a == "" {
      assert a + [c] + b == [c] + b;
    } else {
      SplitOnceJoin(a[1..], c, b);
      assert (a + [c] + b)[1..] == a[1..] + [c] + b;
      assert a == [a[0]] + a[1..] && (a + [c] + b)[0] == a[0] != c;
    }
  }

  /** From the last sign on; empty when there is none. */
  function Offset(time: string): string
  {
    if time == "" then ""
    else if Offset(time[1..]) != "" then Offset(time[1..])
    else if IsSign(time[0]) then time
    else ""
  }

  ghost predicate IsOffset(tz: string)
  {
    tz == "" || (IsSign(tz[0]) && forall i :: 1 <= i < |tz| ==> !IsSign(tz[i]))
  }

  lemma {:induction false} OffsetIsSuffix(time: string)
    ensures var tz := Offset(time);
            IsOffset(tz) && |tz| <= |time| && time[|time| - |tz|..] == tz
    ensures Offset(time) == "" <==> forall i :: 0 <= i < |time| ==> !IsSign(time[i])
  {
    if time != "" {
      OffsetIsSuffix(time[1..]);
      var tz := Offset(time[1..]);
      assert forall i :: 1 <= i < |time| ==> time[i] == time[1..][i - 1];
      if tz != "" {
        assert time[|time| - |tz|..] == time[1..][|time[1..]| - |tz|..];
        assert time[|time| - |tz|] == tz[0];
      }
    }
  }

  lemma {:induction false} OffsetOfJoin(plain: string, tz: string)
    requires IsOffset(tz) && forall i :: 0 <= i < |plain| ==> !IsSign(plain[i])
    ensures Offset(plain + tz) == tz
  {
    if plain == "" {
      assert plain + tz == tz;
      if tz != "" {
        OffsetIsSuffix(tz[1..]);
      }
    } else {
      OffsetOfJoin(plain[1..], tz);
      assert (plain + tz)[1..] == plain[1..] + tz;
    }
  }

  // What the program reads off a text.

  datatype Parsed = Parsed(year: string, month: string, day: string, tz: string, era: bool)

  /** Up to seven digits of year, but none beyond 9999; two of month and of day. */
  predicate ValidFields(year: string, month: string, day: string)
  {
    && 1 <= |year| <= 7 && AllDigits(year)
    && |month| == 2 && AllDigits(month)
    && |day| == 2 && AllDigits(day)
    && Magnitude(year) <= 9999
  }

  function ParseStem(stem: string, era: bool): Option<Parsed>
  {
    var (datePart, timePart) :=
      match SplitOnce(stem, ' ')
      case Some((date, time)) => (date, time)
      case None => (stem, "");
    var fields := Split(datePart, '-');
    if |fields| == 3 && ValidFields(fields[0], fields[1], fields[2])
    then Some(Parsed(fields[0], fields[1], fields[2], Offset(timePart), era))
    else None
  }

  function Parse(text: string): Option<Parsed>
  {
    if EndsWithEra(text) then ParseStem(text[..|text| - 3], true) else ParseStem(text, false)
  }

  function Render(p: Parsed, typeOid: int, toMonth: bool): string
  {
    var month := if toMonth then p.month else "01";
    var date := p.year + "-" + month + "-" + "01";
    var era := if p.era then ERA else "";
    if typeOid == OID_DATE then date + era
    else date + " " + ("00:00:00" + p.tz) + era
  }

  /** Truncation of text; `None` is an undecodable value. */
  function Truncate(text: string, typeOid: int, toMonth: bool): Option<string>
  {
    match Parse(text)
    case None => None
    case Some(p) => Some(Render(p, typeOid, toMonth))
  }

  // What reading means.

  ghost predicate Valid(p: Parsed)
  {
    && ValidFields(p.year, p.month, p.day)
    && IsOffset(p.tz)
    && (!p.era ==> !EndsWithEra(p.tz))
  }

  /** The date fields as written. */
  function DateText(p: Parsed): string
  {
    p.year + "-" + p.month + "-" + p.day
  }

  lemma SplitDate(a: string, b: string, c: string)
    requires '-' !in a && '-' !in b && '-' !in c
    ensures Split(a + "-" + b + "-" + c, '-') == [a, b, c]
  {
    var rest := b + "-" + c;
    assert a + "-" + b + "-" + c == a + "-" + rest;
    SplitOnceJoin(a, '-', rest);
    SplitOnceJoin(b, '-', c);
    SplitOnceParts(c, '-');
    assert Split(c, '-') == [c];
    assert Split(rest, '-') == [b] + [c];
  }

  /** Three fields come from exactly the text that joins them. */
  lemma SplitThree(s: string)
    requires |Split(s, '-')| == 3
    ensures var f := Split(s, '-'); s == f[0] + "-" + f[1] + "-" + f[2]
  {
    SplitOnceParts(s, '-');
    var one := SplitOnce(s, '-').value;
    SplitOnceParts(one.1, '-');
    var two := SplitOnce(one.1, '-').value;
    SplitOnceParts(two.1, '-');
    assert Split(one.1, '-') == [two.0] + Split(two.1, '-');
    assert |Split(two.1, '-')| == 1;
  }

  /** The stem is the date as read, then nothing or a space and a time that ends in the offset. */
  ghost predicate Spells(stem: string, p: Parsed)
  {
    || (stem == DateText(p) && p.tz == "")
    || exists time :: stem == DateText(p) + " " + time && p.tz == Offset(time)
  }

  /** Reading finds a year, month and day exactly where the text spells them. */
  lemma ParseStemSpells(stem: string, era: bool, p: Parsed)
    requires p.era == era
    ensures ParseStem(stem, era) == Some(p) <==> Spells(stem, p) && ValidFields(p.year, p.month, p.day)
  {
    SplitOnceParts(stem, ' ');
    if ParseStem(stem, era) == Some(p) {
      var date := if SplitOnce(stem, ' ').Some? then SplitOnce(stem, ' ').value.0 else stem;
      SplitThree(date);
    }
    if Spells(stem, p) && ValidFields(p.year, p.month, p.day) {
      SpelledIsParsed(stem, p);
    }
  }

  lemma DateHasNoSpace(p: Parsed)
    requires ValidFields(p.year, p.month, p.day)
    ensures ' ' !in DateText(p) && '-' !in p.year && '-' !in p.month && '-' !in p.day
  {
  }

  lemma SpelledIsParsed(stem: string, p: Parsed)
    requires Spells(stem, p) && ValidFields(p.year, p.month, p.day)
    ensures ParseStem(stem, p.era) == Some(p)
  {
    DateHasNoSpace(p);
    SplitDate(p.year, p.month, p.day);
    if time :| stem == DateText(p) + " " + time && p.tz == Offset(time) {
      SplitOnceJoin(DateText(p), ' ', time);
    } else {
      SplitOnceParts(stem, ' ');
    }
  }

  /** What is read is valid: in particular an offset never hides an era. */
  lemma ParsedIsValid(text: string, p: Parsed)
    requires Parse(text) == Some(p)
    ensures Valid(p)
  {
    if EndsWithEra(text) {
      OffsetIsValid(text[..|text| - 3], p);
    } else {
      OffsetIsValid(text, p);
      if EndsWithEra(p.tz) {
        SuffixOfSuffix(text, p.tz);
      }
    }
  }

  lemma OffsetOfTime(date: string, time: string)
    ensures var stem, tz := date + " " + time, Offset(time);
            && IsOffset(tz) && |tz| <= |stem| && stem[|stem| - |tz|..] == tz
  {
    OffsetIsSuffix(time);
    var stem, tz := date + " " + time, Offset(time);
    assert stem[|stem| - |tz|..] == time[|time| - |tz|..];
  }

  lemma OffsetIsValid(stem: string, p: Parsed)
    requires ParseStem(stem, p.era) == Some(p)
    ensures IsOffset(p.tz) && |p.tz| <= |stem| && stem[|stem| - |p.tz|..] == p.tz
  {
    ParseStemSpells(stem, p.era, p);
    if time :| stem == DateText(p) + " " + time && p.tz == Offset(time) {
      OffsetOfTime(DateText(p), time);
    }
  }

  lemma SuffixOfSuffix(s: string, tail: string)
    requires |tail| <= |s| && s[|s| - |tail|..] == tail && EndsWithEra(tail)
    ensures EndsWithEra(s)
  {
    assert s[|s| - 3..] == tail[|tail| - 3..];
  }

  // Printing and reading again.

  /** What is left of a value after truncation. */
  function Coarse(p: Parsed, typeOid: int, toMonth: bool): Parsed
  {
    Parsed(p.year, if toMonth then p.month else "01", "01", if typeOid == OID_DATE then "" else p.tz, p.era)
  }

  function Stem(p: Parsed, typeOid: int): string
  {
    if typeOid == OID_DATE then DateText(p) else DateText(p) + " " + ("00:00:00" + p.tz)
  }

  lemma RenderIsStem(p: Parsed, typeOid: int, toMonth: bool)
    ensures Render(p, typeOid, toMonth)
         == Stem(Coarse(p, typeOid, toMonth), typeOid) + (if p.era then ERA else "")
  {
  }

  lemma StemSpells(p: Parsed, typeOid: int)
    requires Valid(p) && (typeOid == OID_DATE ==> p.tz == "")
    ensures Spells(Stem(p, typeOid), p)
  {
    if typeOid != OID_DATE {
      OffsetOfJoin("00:00:00", p.tz);
    }
  }

  lemma StemHasNoEra(p: Parsed, typeOid: int)
    requires Valid(p) && !p.era
    ensures !EndsWithEra(Stem(p, typeOid))
  {
    var s := Stem(p, typeOid);
    if typeOid == OID_DATE {
      assert s[|s| - 1] == p.day[1];
    } else if |p.tz| >= 3 {
      assert s[|s| - 3..] == p.tz[|p.tz| - 3..];
    } else if |p.tz| > 0 {
      assert s[|s| - |p.tz|] == p.tz[0];
    } else {
      assert s[|s| - 1] == '0';
    }
  }

  lemma CoarseIsValid(p: Parsed, typeOid: int, toMonth: bool)
    requires Valid(p)
    ensures Valid(Coarse(p, typeOid, toMonth))
  {
  }

  /** Reading back what was printed gives the coarse value: nothing else survives, nothing is lost. */
  lemma ReadsBack(p: Parsed, typeOid: int, toMonth: bool)
    requires Valid(p)
    ensures Parse(Render(p, typeOid, toMonth)) == Some(Coarse(p, typeOid, toMonth))
  {
    var c := Coarse(p, typeOid, toMonth);
    CoarseIsValid(p, typeOid, toMonth);
    RenderIsStem(p, typeOid, toMonth);
    StemSpells(c, typeOid);
    SpelledIsParsed(Stem(c, typeOid), c);
    var text := Render(p, typeOid, toMonth);
    if p.era {
      assert text[|text| - 3..] == ERA && text[..|text| - 3] == Stem(c, typeOid);
    } else {
      assert text == Stem(c, typeOid);
      StemHasNoEra(c, typeOid);
    }
  }

  // The laws of truncation, for every string and type.

  /**
   Truncating again, to the same or the other unit, is truncating once to the
   coarser of the two; and whether a text is accepted does not depend on the unit.
   */
  lemma TruncationComposes(text: string, typeOid: int, first: bool, second: bool)
    ensures Truncate(text, typeOid, first).Some? <==> Truncate(text, typeOid, second).Some?
    ensures Truncate(text, typeOid, first).Some? ==>
      Truncate(Truncate(text, typeOid, first).value, typeOid, second) == Truncate(text, typeOid, first && second)
  {
    if Parse(text).Some? {
      var p := Parse(text).value;
      ParsedIsValid(text, p);
      ReadsBack(p, typeOid, first);
    }
  }

  /** Same output exactly when year, era, month (if kept) and offset (if printed) are the same. */
  lemma EqualOutputsShareTheirUnit(text: string, other: string, typeOid: int, toMonth: bool)
    requires Parse(text).Some? && Parse(other).Some?
    ensures Truncate(text, typeOid, toMonth) == Truncate(other, typeOid, toMonth)
       <==> Coarse(Parse(text).value, typeOid, toMonth) == Coarse(Parse(other).value, typeOid, toMonth)
  {
    var p, q := Parse(text).value, Parse(other).value;
    ParsedIsValid(text, p);
    ParsedIsValid(other, q);
    ReadsBack(p, typeOid, toMonth);
    ReadsBack(q, typeOid, toMonth);
    RenderIsStem(p, typeOid, toMonth);
    RenderIsStem(q, typeOid, toMonth);
  }

  /** The era suffix is kept where it was, never invented, and never doubled. */
  lemma EraIsKept(text: string, typeOid: int, toMonth: bool)
    requires Truncate(text, typeOid, toMonth).Some?
    ensures var out := Truncate(text, typeOid, toMonth).value;
            && (EndsWithEra(text) <==> EndsWithEra(out))
            && (EndsWithEra(text) && !EndsWithEra(text[..|text| - 3]) ==> !EndsWithEra(out[..|out| - 3]))
  {
    var p := Parse(text).value;
    ParsedIsValid(text, p);
    ReadsBack(p, typeOid, toMonth);
    if p.era && !EndsWithEra(text[..|text| - 3]) {
      var stem := text[..|text| - 3];
      OffsetIsValid(stem, p);
      if EndsWithEra(p.tz) {
        SuffixOfSuffix(stem, p.tz);
      }
      var c := Coarse(p, typeOid, toMonth);
      CoarseIsValid(p, typeOid, toMonth);
      StemHasNoEra(c.(era := false), typeOid);
      RenderIsStem(p, typeOid, toMonth);
      var out := Render(p, typeOid, toMonth);
      assert out[..|out| - 3] == Stem(c, typeOid) == Stem(c.(era := false), typeOid);
    }
  }
}
