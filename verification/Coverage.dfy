/**
 Which rules gained, lost or moved their column between two catalog snapshots:
 the keyed diff against the linear scan it replaced.
 */
module Coverage {
  import opened Wrappers
  import opened Roles

  /** Display names of the classified columns of one snapshot. */
  type Names = map<Column, string>

  datatype ColumnRule = ColumnRule(relation: string, column: string)

  function Display(rule: ColumnRule): string
  {
    rule.relation + "." + rule.column
  }

  datatype CoverageChange =
    | Moved(column: string, before: Column, after: Column)
    | Lost(column: string, before: Column)
    | Restored(column: string, after: Column)

  /** What one rule reports, given where its column was and is. */
  function Change(column: string, before: Option<Column>, after: Option<Column>): seq<CoverageChange>
  {
    match (before, after)
    case (Some(b), Some(a)) => if b != a then [Moved(column, b, a)] else []
    case (Some(b), None) => [Lost(column, b)]
    case (None, Some(a)) => [Restored(column, a)]
    case (None, None) => []
  }

  // The scan: for each rule, the first column bearing its name.

  /** An order in which a hash map may yield its keys. */
  ghost predicate Lists(names: Names, order: seq<Column>)
  {
    forall k :: k in order <==> k in names
  }

  ghost function Scan(names: Names, order: seq<Column>, display: string): Option<Column>
  {
    if order == [] then None
    else if order[0] in names && names[order[0]] == display then Some(order[0])
    else Scan(names, order[1..], display)
  }

  ghost function ScanChanges(
    rules: seq<ColumnRule>, previous: Names, previousOrder: seq<Column>, next: Names, nextOrder: seq<Column>)
    : seq<CoverageChange>
  {
    if rules == [] then []
    else
      var last := |rules| - 1;
      var column := Display(rules[last]);
      ScanChanges(rules[..last], previous, previousOrder, next, nextOrder)
      + Change(column, Scan(previous, previousOrder, column), Scan(next, nextOrder, column))
  }

  lemma {:induction false} ScanFinds(names: Names, order: seq<Column>, display: string)
    ensures var r := Scan(names, order, display);
            && (r.Some? ==> r.value in order && r.value in names && names[r.value] == display)
            && (r.None? ==> forall k :: k in order && k in names ==> names[k] != display)
  {
    if order != [] {
      ScanFinds(names, order[1..], display);
      assert order == [order[0]] + order[1..];
    }
  }

  // The keyed form: one reverse index per snapshot, one lookup per rule.

  type Index = map<string, Column>

  /** A reverse index: every display name, sent to some column that bears it. */
  ghost predicate IsIndex(names: Names, index: Index)
  {
    && index.Keys == names.Values
    && forall n :: n in index ==> index[n] in names && names[index[n]] == n
  }

  ghost function Diff(rules: seq<ColumnRule>, before: Index, after: Index): seq<CoverageChange>
  {
    if rules == [] then []
    else
      var last := |rules| - 1;
      var column := Display(rules[last]);
      Diff(rules[..last], before, after) + Change(column, Get(before, column), Get(after, column))
  }

  /** No two columns of the snapshot share a name that some rule displays as. */
  ghost predicate Unambiguous(rules: seq<ColumnRule>, names: Names)
  {
    forall rule, k, l ::
      rule in rules && k in names && l in names && names[k] == Display(rule) && names[l] == Display(rule) ==> k == l
  }

  /** Building the index, in whatever order the map is walked; a later name overwrites. */
  method DisplayIndex(names: Names) returns (index: Index)
    ensures IsIndex(names, index)
  {
    index := map[];
    var todo := names.Keys;
    while todo != {}
      invariant todo <= names.Keys
      invariant forall k :: k in names.Keys - todo ==> names[k] in index
      invariant forall n :: n in index ==> index[n] in names && names[index[n]] == n
      decreases |todo|
    {
      var key :| key in todo;
      index := index[names[key] := key];
      todo := todo - {key};
    }
  }

  /**
   The refresh diff. Its changes are those of some reverse index; and where no
   rule's name is ambiguous they are, in order, those of the linear scan.
   */
  method CoverageChanges(rules: seq<ColumnRule>, previous: Names, next: Names) returns (changes: seq<CoverageChange>)
    ensures exists before, after ::
              IsIndex(previous, before) && IsIndex(next, after) && changes == Diff(rules, before, after)
    ensures Unambiguous(rules, previous) && Unambiguous(rules, next) ==>
              forall po, no :: Lists(previous, po) && Lists(next, no) ==>
                changes == ScanChanges(rules, previous, po, next, no)
  {
    var before := DisplayIndex(previous);
    var after := DisplayIndex(next);
    changes := [];
    for i := 0 to |rules|
      invariant changes == Diff(rules[..i], before, after)
    {
      var column := Display(rules[i]);
      match (Get(before, column), Get(after, column)) {
        case (Some(b), Some(a)) =>
          if b != a {
            changes := changes + [Moved(column, b, a)];
          }
        case (Some(b), None) =>
          changes := changes + [Lost(column, b)];
        case (None, Some(a)) =>
          changes := changes + [Restored(column, a)];
        case (None, None) =>
      }
      assert rules[..i + 1][..i] == rules[..i];
    }
    assert rules[..|rules|] == rules;
    if Unambiguous(rules, previous) && Unambiguous(rules, next) {
      forall po, no | Lists(previous, po) && Lists(next, no)
        ensures changes == ScanChanges(rules, previous, po, next, no)
      {
        KeyedDiffIsTheScan(rules, previous, po, before, next, no, after);
      }
    }
  }

  lemma LookupIsTheScan(names: Names, order: seq<Column>, index: Index, rules: seq<ColumnRule>, rule: ColumnRule)
    requires Lists(names, order) && IsIndex(names, index) && Unambiguous(rules, names) && rule in rules
    ensures Get(index, Display(rule)) == Scan(names, order, Display(rule))
  {
    ScanFinds(names, order, Display(rule));
  }

  /** With unambiguous names the keyed diff reports the scan's changes in the scan's order. */
  lemma {:induction false} KeyedDiffIsTheScan(
    rules: seq<ColumnRule>,
    previous: Names, po: seq<Column>, before: Index,
    next: Names, no: seq<Column>, after: Index)
    requires Lists(previous, po) && IsIndex(previous, before) && Unambiguous(rules, previous)
    requires Lists(next, no) && IsIndex(next, after) && Unambiguous(rules, next)
    ensures Diff(rules, before, after) == ScanChanges(rules, previous, po, next, no)
  {
    if rules != [] {
      var last := |rules| - 1;
      KeyedDiffIsTheScan(rules[..last], previous, po, before, next, no, after);
      LookupIsTheScan(previous, po, before, rules, rules[last]);
      LookupIsTheScan(next, no, after, rules, rules[last]);
    }
  }

  // Uniqueness is exactly what the answer's independence of map order needs.

  lemma IndexExists(names: Names) returns (index: Index)
    ensures IsIndex(names, index)
  {
    index := map n | n in names.Values :: var k :| k in names && names[k] == n; k;
  }

  /** A change about a column is reported exactly when that column's own lookup yields it. */
  lemma {:induction false} DiffMembers(rules: seq<ColumnRule>, before: Index, after: Index, c: CoverageChange)
    ensures c in Diff(rules, before, after) <==>
              && (exists rule :: rule in rules && Display(rule) == c.column)
              && c in Change(c.column, Get(before, c.column), Get(after, c.column))
  {
    if rules != [] {
      var last := |rules| - 1;
      DiffMembers(rules[..last], before, after, c);
      assert rules == rules[..last] + [rules[last]];
      var column := Display(rules[last]);
      assert forall d :: d in Change(column, Get(before, column), Get(after, column)) ==> d.column == column;
    }
  }

  lemma {:induction false} DiffAgrees(rules: seq<ColumnRule>, b: Index, a: Index, b': Index, a': Index)
    requires forall rule :: rule in rules ==>
      Get(b, Display(rule)) == Get(b', Display(rule)) && Get(a, Display(rule)) == Get(a', Display(rule))
    ensures Diff(rules, b, a) == Diff(rules, b', a')
  {
    if rules != [] {
      DiffAgrees(rules[..|rules| - 1], b, a, b', a');
    }
  }

  /** Every pair of reverse indexes of the two snapshots gives the same diff. */
  ghost predicate Determined(rules: seq<ColumnRule>, previous: Names, next: Names)
  {
    forall b, a, b', a' :: IsIndex(previous, b) && IsIndex(next, a) && IsIndex(previous, b') && IsIndex(next, a')
      ==> Diff(rules, b, a) == Diff(rules, b', a')
  }

  /** Two lookups that report different changes for one rule give different diffs. */
  lemma DifferentLookupsDiffer(
    rules: seq<ColumnRule>, rule: ColumnRule, d: string, b: Index, a: Index, b': Index, a': Index)
    requires rule in rules && d == Display(rule)
    requires Change(d, Get(b, d), Get(a, d)) != Change(d, Get(b', d), Get(a', d))
    ensures Diff(rules, b, a) != Diff(rules, b', a')
  {
    var one, two := Change(d, Get(b, d), Get(a, d)), Change(d, Get(b', d), Get(a', d));
    var c := if one != [] then one[0] else two[0];
    assert c.column == d && (c in one <==> c !in two);
    DiffMembers(rules, b, a, c);
    DiffMembers(rules, b', a', c);
  }

  lemma AmbiguousBefore(rules: seq<ColumnRule>, previous: Names, next: Names)
    requires !Unambiguous(rules, previous)
    ensures !Determined(rules, previous, next)
  {
    var b := IndexExists(previous);
    var a := IndexExists(next);
    var rule, k, l :| rule in rules && k in previous && l in previous && k != l
      && previous[k] == Display(rule) && previous[l] == Display(rule);
    var d := Display(rule);
    var b1, b2 := b[d := k], b[d := l];
    assert IsIndex(previous, b1) && IsIndex(previous, b2);
    DifferentLookupsDiffer(rules, rule, d, b1, a, b2, a);
  }

  lemma AmbiguousAfter(rules: seq<ColumnRule>, previous: Names, next: Names)
    requires !Unambiguous(rules, next)
    ensures !Determined(rules, previous, next)
  {
    var b := IndexExists(previous);
    var a := IndexExists(next);
    var rule, k, l :| rule in rules && k in next && l in next && k != l
      && next[k] == Display(rule) && next[l] == Display(rule);
    var d := Display(rule);
    var a1, a2 := a[d := k], a[d := l];
    assert IsIndex(next, a1) && IsIndex(next, a2);
    DifferentLookupsDiffer(rules, rule, d, b, a1, b, a2);
  }

  lemma DeterminedIffUnambiguous(rules: seq<ColumnRule>, previous: Names, next: Names)
    ensures Determined(rules, previous, next) <==> Unambiguous(rules, previous) && Unambiguous(rules, next)
  {
    if !Unambiguous(rules, previous) {
      AmbiguousBefore(rules, previous, next);
    } else if !Unambiguous(rules, next) {
      AmbiguousAfter(rules, previous, next);
    } else {
      forall b, a, b', a' | IsIndex(previous, b) && IsIndex(next, a) && IsIndex(previous, b') && IsIndex(next, a')
        ensures Diff(rules, b, a) == Diff(rules, b', a')
      {
        forall rule | rule in rules
          ensures Get(b, Display(rule)) == Get(b', Display(rule)) && Get(a, Display(rule)) == Get(a', Display(rule))
        {
          SameLookup(rules, rule, previous, b, b');
          SameLookup(rules, rule, next, a, a');
        }
        DiffAgrees(rules, b, a, b', a');
      }
    }
  }

  lemma SameLookup(rules: seq<ColumnRule>, rule: ColumnRule, names: Names, i: Index, j: Index)
    requires IsIndex(names, i) && IsIndex(names, j) && Unambiguous(rules, names) && rule in rules
    ensures Get(i, Display(rule)) == Get(j, Display(rule))
  {
  }

  // What the changes say.

  /** A lookup brought up to date by a change, if the change speaks of what the lookup gave. */
  function Update(index: Index, c: CoverageChange): Option<Index>
  {
    match c
    case Moved(column, before, after) =>
      if Get(index, column) == Some(before) then Some(index[column := after]) else None
    case Lost(column, before) => if Get(index, column) == Some(before) then Some(index - {column}) else None
    case Restored(column, after) => if column !in index then Some(index[column := after]) else None
  }

  function Replay(index: Index, changes: seq<CoverageChange>): Option<Index>
  {
    if changes == [] then Some(index)
    else
      var last := |changes| - 1;
      var earlier := Replay(index, changes[..last]);
      if earlier.None? then None else Update(earlier.value, changes[last])
  }

  /** Each rule has a display name of its own. */
  ghost predicate Distinct(rules: seq<ColumnRule>)
  {
    forall i, j :: 0 <= i < j < |rules| ==> Display(rules[i]) != Display(rules[j])
  }

  /** What the rules display as, looked up after; everything else as before. */
  ghost predicate Updated(rules: seq<ColumnRule>, before: Index, after: Index, index: Index)
  {
    forall d :: Get(index, d) == if (exists rule :: rule in rules && Display(rule) == d) then Get(after, d)
                                 else Get(before, d)
  }

  lemma {:induction false} ReplayOneMore(index: Index, changes: seq<CoverageChange>, c: seq<CoverageChange>)
    requires |c| <= 1 && Replay(index, changes).Some?
    ensures Replay(index, changes + c)
         == if c == [] then Replay(index, changes) else Update(Replay(index, changes).value, c[0])
  {
    if c == [] {
      assert changes + c == changes;
    } else {
      assert (changes + c)[..|changes|] == changes;
    }
  }

  /** A change speaks of what was there, and leaves what is there now. */
  lemma ChangeUpdates(index: Index, column: string, before: Option<Column>, after: Option<Column>)
    requires Get(index, column) == before
    ensures var c := Change(column, before, after);
            && |c| <= 1 && (c == [] ==> before == after)
            && (c != [] ==>
                  && Update(index, c[0]).Some? && Get(Update(index, c[0]).value, column) == after
                  && forall d :: d != column ==> Get(Update(index, c[0]).value, d) == Get(index, d))
  {
  }

  lemma NotAmongTheEarlier(rules: seq<ColumnRule>)
    requires Distinct(rules) && rules != []
    ensures Distinct(rules[..|rules| - 1])
    ensures forall rule :: rule in rules[..|rules| - 1] ==> Display(rule) != Display(rules[|rules| - 1])
  {
  }

  /** The changes of a diff are exactly what takes the one lookup to the other, for the names the rules display. */
  lemma {:induction false} ReplayTakesBeforeToAfter(rules: seq<ColumnRule>, before: Index, after: Index)
    requires Distinct(rules)
    ensures var r := Replay(before, Diff(rules, before, after)); r.Some? && Updated(rules, before, after, r.value)
  {
    if rules != [] {
      var last := |rules| - 1;
      var earlier, column := rules[..last], Display(rules[last]);
      ReplayTakesBeforeToAfter(earlier, before, after);
      var changes := Diff(earlier, before, after);
      var index := Replay(before, changes).value;
      var c := Change(column, Get(before, column), Get(after, column));
      NotAmongTheEarlier(rules);
      ChangeUpdates(index, column, Get(before, column), Get(after, column));
      ReplayOneMore(before, changes, c);
      OneRuleMore(rules, before, after, index, if c == [] then index else Update(index, c[0]).value);
    }
  }

  lemma OneRuleMore(rules: seq<ColumnRule>, before: Index, after: Index, index: Index, updated: Index)
    requires rules != [] && Updated(rules[..|rules| - 1], before, after, index)
    requires var column := Display(rules[|rules| - 1]);
             && Get(updated, column) == Get(after, column)
             && forall d :: d != column ==> Get(updated, d) == Get(index, d)
    ensures Updated(rules, before, after, updated)
  {
    var earlier, rule := rules[..|rules| - 1], rules[|rules| - 1];
    assert rules == earlier + [rule];
    assert forall r :: r in rules <==> r in earlier || r == rule;
  }

  /** A dot inside a column name is enough to make two distinct rules display alike. */
  lemma DottedNamesCollide()
    ensures var one, two := ColumnRule("public.t", "a.b"), ColumnRule("public.t.a", "b");
            && one != two
            && Display(one) == Display(two)
            && !Determined([one, two], map[(1, 1) := Display(one), (2, 1) := Display(two)], map[])
  {
    var one, two := ColumnRule("public.t", "a.b"), ColumnRule("public.t.a", "b");
    assert Display(one) == "public.t.a.b" == Display(two);
    var names: Names := map[(1, 1) := Display(one), (2, 1) := Display(two)];
    assert (1, 1) in names && (2, 1) in names;
    DeterminedIffUnambiguous([one, two], names, map[]);
    assert one in [one, two];
  }
}
