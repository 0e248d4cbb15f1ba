/**
 Which views hide a set operation somewhere in their expansion.

 The SQL analyser's two answers, whether a definition's provenance can be
 believed and which identifiers it mentions, are arbitrary functions here.
 */
module OpaqueViews {
  import opened Wrappers
  import opened Words

  datatype Analyser = Analyser(
    trusted: string -> bool,
    identifiers: string -> Option<set<string>>)

  /** Lower-cased `schema.view` to its definition, which the engine may withhold. */
  type Definitions = map<string, Option<string>>

  predicate IsBlank(sql: string)
  {
    forall c :: c in sql ==> IsSpace(c)
  }

  /** What follows the last dot; nothing when there is no dot. */
  function BareName(name: string): Option<string>
  {
    if name == "" then None
    else if BareName(name[1..]).Some? then BareName(name[1..])
    else if name[0] == '.' then Some(name[1..])
    else None
  }

  /** Whatever precedes the last dot, including other dots, is dropped. */
  lemma {:induction false} BareNameOfQualified(prefix: string, bare: string)
    requires '.' !in bare
    ensures BareName(prefix + "." + bare) == Some(bare)
  {
    var name := prefix + "." + bare;
    if prefix == "" {
      NoDotNoBareName(bare);
      assert name[1..] == bare;
    } else {
      BareNameOfQualified(prefix[1..], bare);
      assert name[1..] == prefix[1..] + "." + bare;
    }
  }

  lemma {:induction false} NoDotNoBareName(name: string)
    ensures BareName(name).None? <==> '.' !in name
  {
    if name != "" {
      NoDotNoBareName(name[1..]);
      assert name == [name[0]] + name[1..];
    }
  }

  /** A definition is missing, blank or not to be believed. */
  predicate IsUnsafe(a: Analyser, def: Option<string>)
  {
    match def
    case None => true
    case Some(sql) => IsBlank(sql) || !a.trusted(sql)
  }

  /** The identifiers of a definition, unless it is missing or cannot be lexed. */
  function IdentifiersOf(a: Analyser, def: Option<string>): Option<set<string>>
  {
    match def
    case None => None
    case Some(sql) => a.identifiers(sql)
  }

  /** A view that is opaque on its own account. */
  predicate IsSeed(a: Analyser, defs: Definitions, name: string)
  {
    name in defs && (IsUnsafe(a, defs[name]) || IdentifiersOf(a, defs[name]).None?)
  }

  /** View `name` mentions the bare name of view `known`. */
  predicate Mentions(a: Analyser, defs: Definitions, name: string, known: string)
  {
    && name in defs
    && IdentifiersOf(a, defs[name]).Some?
    && BareName(known).Some?
    && BareName(known).value in IdentifiersOf(a, defs[name]).value
  }

  /** Contains every seed and every view that mentions a member. */
  ghost predicate Closed(a: Analyser, defs: Definitions, views: set<string>)
  {
    && views <= defs.Keys
    && (forall name :: IsSeed(a, defs, name) ==> name in views)
    && forall name, known :: known in views && Mentions(a, defs, name, known) ==> name in views
  }

  ghost predicate LeastClosed(a: Analyser, defs: Definitions, views: set<string>)
  {
    Closed(a, defs, views) && forall other :: Closed(a, defs, other) ==> views <= other
  }

  /** Each view of the chain mentions the next, and the last is a seed. */
  ghost predicate IsChain(a: Analyser, defs: Definitions, chain: seq<string>)
  {
    && chain != []
    && IsSeed(a, defs, chain[|chain| - 1])
    && forall i :: 0 <= i < |chain| - 1 ==> Mentions(a, defs, chain[i], chain[i + 1])
  }

  ghost predicate ReachesSeed(a: Analyser, defs: Definitions, name: string)
  {
    exists chain :: IsChain(a, defs, chain) && chain[0] == name
  }

  lemma SeedReaches(a: Analyser, defs: Definitions, name: string)
    requires IsSeed(a, defs, name)
    ensures ReachesSeed(a, defs, name)
  {
    assert IsChain(a, defs, [name]) && [name][0] == name;
  }

  lemma MentionReaches(a: Analyser, defs: Definitions, name: string, known: string)
    requires Mentions(a, defs, name, known) && ReachesSeed(a, defs, known)
    ensures ReachesSeed(a, defs, name)
  {
    var chain :| IsChain(a, defs, chain) && chain[0] == known;
    var longer := [name] + chain;
    assert IsChain(a, defs, longer) && longer[0] == name;
  }

  /** A closed set holds the head of every chain. */
  lemma {:induction false} ClosedHoldsChains(a: Analyser, defs: Definitions, views: set<string>, chain: seq<string>)
    requires Closed(a, defs, views) && IsChain(a, defs, chain)
    ensures chain[0] in views
    decreases |chain|
  {
    if |chain| > 1 {
      var rest := chain[1..];
      assert forall i :: 0 <= i < |rest| - 1 ==> Mentions(a, defs, rest[i], rest[i + 1]) by {
        forall i | 0 <= i < |rest| - 1 ensures Mentions(a, defs, rest[i], rest[i + 1]) {
          assert Mentions(a, defs, chain[i + 1], chain[i + 1 + 1]);
        }
      }
      ClosedHoldsChains(a, defs, views, rest);
      assert Mentions(a, defs, chain[0], chain[0 + 1]);
    }
  }

  /** Being in the least closed set is being connected to a seed by mentions. */
  lemma LeastMeansReaching(a: Analyser, defs: Definitions, views: set<string>)
    ensures LeastClosed(a, defs, views)
       <==> forall name :: name in views <==> ReachesSeed(a, defs, name)
  {
    var reaching := set name | name in defs && ReachesSeed(a, defs, name);
    forall name | ReachesSeed(a, defs, name) ensures name in defs {
      var chain :| IsChain(a, defs, chain) && chain[0] == name;
      if |chain| > 1 {
        assert Mentions(a, defs, chain[0], chain[0 + 1]);
      }
    }
    forall other, name | Closed(a, defs, other) && ReachesSeed(a, defs, name) ensures name in other {
      var chain :| IsChain(a, defs, chain) && chain[0] == name;
      ClosedHoldsChains(a, defs, other, chain);
    }
    assert Closed(a, defs, reaching) by {
      forall name | IsSeed(a, defs, name) ensures name in reaching {
        SeedReaches(a, defs, name);
      }
      forall name, known | known in reaching && Mentions(a, defs, name, known) ensures name in reaching {
        MentionReaches(a, defs, name, known);
      }
    }
    if forall name :: name in views <==> ReachesSeed(a, defs, name) {
      assert views == reaching;
    }
  }

  /** Whatever order the hash map yields its views in, there is one answer. */
  lemma OrderDoesNotMatter(a: Analyser, defs: Definitions, one: set<string>, two: set<string>)
    requires LeastClosed(a, defs, one) && LeastClosed(a, defs, two)
    ensures one == two
  {
    assert one <= two && two <= one;
  }

  /** The definition is there, says something, is believed and can be read for identifiers. */
  predicate Believable(a: Analyser, def: Option<string>)
  {
    def.Some? && (exists c :: c in def.value && !IsSpace(c)) && a.trusted(def.value) && a.identifiers(def.value).Some?
  }

  /** A view is opaque if its own definition is not believable; and if all are, none is. */
  lemma OpaqueUnlessBelievable(a: Analyser, defs: Definitions, views: set<string>)
    requires LeastClosed(a, defs, views)
    ensures forall name :: name in defs && !Believable(a, defs[name]) ==> name in views
    ensures views == {} <==> forall name :: name in defs ==> Believable(a, defs[name])
  {
    forall name | name in defs ensures IsSeed(a, defs, name) <==> !Believable(a, defs[name]) {
    }
    if forall name :: name in defs ==> Believable(a, defs[name]) {
      assert Closed(a, defs, {});
    }
  }

  /** More views that cannot be believed never make another view believable. */
  lemma DistrustSpreads(
    a: Analyser, b: Analyser, defs: Definitions, one: set<string>, two: set<string>)
    requires a.identifiers == b.identifiers
    requires forall sql :: b.trusted(sql) ==> a.trusted(sql)
    requires LeastClosed(a, defs, one) && LeastClosed(b, defs, two)
    ensures one <= two
  {
  }

  predicate Touches(a: Analyser, defs: Definitions, name: string, opaqueViews: set<string>)
    requires name in defs
  {
    match IdentifiersOf(a, defs[name])
    case None => true
    case Some(identifiers) =>
      exists identifier :: identifier in identifiers &&
        exists known :: known in opaqueViews && BareName(known) == Some(identifier)
  }

  /** First pass: every view whose definition is unsafe by itself. */
  method UnsafeViews(a: Analyser, defs: Definitions) returns (views: set<string>)
    ensures forall name :: name in views <==> name in defs && IsUnsafe(a, defs[name])
  {
    views := {};
    var todo := defs.Keys;
    while todo != {}
      invariant todo <= defs.Keys
      invariant forall name :: name in views <==> name in defs.Keys - todo && IsUnsafe(a, defs[name])
      decreases |todo|
    {
      var name :| name in todo;
      if IsUnsafe(a, defs[name]) {
        views := views + {name};
      }
      todo := todo - {name};
    }
  }

  /** One sweep over the views in any order, adding to the set as it goes. */
  method Sweep(a: Analyser, defs: Definitions, before: set<string>) returns (views: set<string>, grew: bool)
    requires before <= defs.Keys
    requires forall name :: name in before ==> ReachesSeed(a, defs, name)
    ensures before <= views <= defs.Keys
    ensures forall name :: name in views ==> ReachesSeed(a, defs, name)
    ensures grew <==> views != before
    ensures !grew ==> forall name :: name in defs && Touches(a, defs, name, views) ==> name in views
  {
    views, grew := before, false;
    var todo := defs.Keys;
    while todo != {}
      invariant todo <= defs.Keys
      invariant before <= views <= defs.Keys
      invariant forall name :: name in views ==> ReachesSeed(a, defs, name)
      invariant grew <==> views != before
      invariant !grew ==> forall name :: name in defs.Keys - todo && Touches(a, defs, name, views) ==> name in views
      decreases |todo|
    {
      var name :| name in todo;
      todo := todo - {name};
      if name in views {
        continue;
      }
      if Touches(a, defs, name, views) {
        if IdentifiersOf(a, defs[name]).None? {
          SeedReaches(a, defs, name);
        } else {
          var known :| known in views && Mentions(a, defs, name, known);
          MentionReaches(a, defs, name, known);
        }
        views, grew := views + {name}, true;
      }
    }
  }

  /** Sweeps until one adds nothing; the result is the least closed set. */
  method FindOpaqueViews(a: Analyser, defs: Definitions) returns (views: set<string>)
    ensures LeastClosed(a, defs, views)
    ensures forall name :: name in views <==> ReachesSeed(a, defs, name)
  {
    views := UnsafeViews(a, defs);
    forall name | name in views ensures ReachesSeed(a, defs, name) {
      SeedReaches(a, defs, name);
    }
    ghost var unsafeOnes := views;
    var grew := true;
    while grew
      invariant unsafeOnes <= views <= defs.Keys
      invariant forall name :: name in views ==> ReachesSeed(a, defs, name)
      invariant !grew ==> forall name :: name in defs && Touches(a, defs, name, views) ==> name in views
      decreases |defs.Keys - views|, grew
    {
      ghost var left := defs.Keys - views;
      views, grew := Sweep(a, defs, views);
      if grew {
        SmallerByInclusion(defs.Keys - views, left);
      }
    }
    assert Closed(a, defs, views) by {
      forall name, known | known in views && Mentions(a, defs, name, known) ensures name in views {
        assert Touches(a, defs, name, views);
      }
      forall name | IsSeed(a, defs, name) ensures name in views {
        assert IsUnsafe(a, defs[name]) || Touches(a, defs, name, views);
      }
    }
    forall other, name | Closed(a, defs, other) && name in views ensures name in other {
      var chain :| IsChain(a, defs, chain) && chain[0] == name;
      ClosedHoldsChains(a, defs, other, chain);
    }
    LeastMeansReaching(a, defs, views);
  }

  lemma SmallerByInclusion(small: set<string>, large: set<string>)
    requires small <= large && small != large
    ensures |small| < |large|
  {
    var extra :| extra in large && extra !in small;
    var rest := large - small;
    assert large == small + rest && extra in rest;
  }
}
