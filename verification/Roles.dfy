/**
 How a column's masks per role combine for a principal holding several roles:
 the most restrictive mask wins, and the alphabetically first role breaks ties.
 */
module Roles {
  import opened Wrappers
  import opened Masks

  /** Relation OID and attribute number. */
  type Column = (int, int)

  datatype Classification = Classification(standard: MaskSpec, byRole: map<string, MaskSpec>)

  /** How much a mask withholds; higher reveals less. */
  function Restrictiveness(mask: Mask): nat
  {
    match mask
    case NoMask => 0
    case Scrub | Json => 1
    case Partial | Inner | Outer | Range => 2
    case DateMonth | IpPrefix | NumericBucket => 3
    case DateYear => 4
    case Pseudonym => 5
    case Hash => 6
    case Redact => 7
    case Null => 8
  }

  /** The masks from what reveals all to what reveals nothing; those on one rung reveal as much. */
  const LADDER: seq<set<Mask>> :=
    [{NoMask}, {Scrub, Json}, {Partial, Inner, Outer, Range}, {DateMonth, IpPrefix, NumericBucket},
     {DateYear}, {Pseudonym}, {Hash}, {Redact}, {Null}]

  /** Every mask is on one rung of the ladder, and is as restrictive as that rung is high. */
  lemma MasksAreOnTheirRung(mask: Mask, rung: nat)
    ensures rung < |LADDER| && mask in LADDER[rung] <==> rung == Restrictiveness(mask)
  {
    assert LADDER[0] == {NoMask} && LADDER[1] == {Scrub, Json} && LADDER[2] == {Partial, Inner, Outer, Range};
    assert LADDER[3] == {DateMonth, IpPrefix, NumericBucket} && LADDER[4] == {DateYear} && LADDER[5] == {Pseudonym};
    assert LADDER[6] == {Hash} && LADDER[7] == {Redact} && LADDER[8] == {Null};
  }

  /** Lexicographic order on strings. */
  predicate AtMost(a: string, b: string)
  {
    a == [] || (b != [] && (a[0] < b[0] || (a[0] == b[0] && AtMost(a[1..], b[1..]))))
  }

  lemma {:induction false} AtMostTotal(a: string, b: string)
    ensures AtMost(a, b) || AtMost(b, a)
    ensures AtMost(a, b) && AtMost(b, a) ==> a == b
  {
    if a != [] && b != [] && a[0] == b[0] {
      AtMostTotal(a[1..], b[1..]);
      assert a == [a[0]] + a[1..] && b == [b[0]] + b[1..];
    }
  }

  lemma {:induction false} AtMostTransitive(a: string, b: string, c: string)
    requires AtMost(a, b) && AtMost(b, c)
    ensures AtMost(a, c)
  {
    if a != [] && a[0] == b[0] && b[0] == c[0] {
      AtMostTransitive(a[1..], b[1..], c[1..]);
    }
  }

  /** Of two roles that both carry a mask, `a` is the one to go by. */
  ghost predicate Beats(c: Classification, a: string, b: string)
    requires a in c.byRole && b in c.byRole
  {
    var x, y := Restrictiveness(c.byRole[a].kind), Restrictiveness(c.byRole[b].kind);
    x > y || (x == y && AtMost(a, b))
  }

  /** The held role whose mask applies. */
  ghost predicate Decides(c: Classification, roles: set<string>, role: string)
  {
    && role in roles
    && role in c.byRole
    && forall r :: r in roles && r in c.byRole ==> Beats(c, role, r)
  }

  ghost predicate Matches(c: Classification, roles: set<string>)
  {
    exists r :: r in roles && r in c.byRole
  }

  lemma {:induction false} DeciderExists(c: Classification, roles: set<string>) returns (role: string)
    requires Matches(c, roles)
    ensures Decides(c, roles, role)
    decreases |roles|
  {
    var r :| r in roles && r in c.byRole;
    var others := roles - {r};
    AtMostTotal(r, r);
    role := r;
    if Matches(c, others) {
      var other := DeciderExists(c, others);
      AtMostTotal(r, other);
      if Beats(c, other, r) {
        role := other;
      } else {
        forall s | s in roles && s in c.byRole ensures Beats(c, r, s) {
          if s != r && AtMost(r, other) && AtMost(other, s) {
            AtMostTransitive(r, other, s);
          }
        }
      }
    }
  }

  lemma DeciderIsUnique(c: Classification, roles: set<string>, a: string, b: string)
    requires Decides(c, roles, a) && Decides(c, roles, b)
    ensures a == b
  {
    AtMostTotal(a, b);
  }

  /** The mask that applies to a principal holding `roles`. */
  ghost function Effective(c: Classification, roles: set<string>): MaskSpec
  {
    if exists role :: Decides(c, roles, role)
    then var role :| Decides(c, roles, role); c.byRole[role]
    else c.standard
  }

  lemma EffectiveIs(c: Classification, roles: set<string>, role: string)
    requires Decides(c, roles, role)
    ensures Effective(c, roles) == c.byRole[role]
  {
    forall other | Decides(c, roles, other) ensures other == role {
      DeciderIsUnique(c, roles, other, role);
    }
  }

  /**
   Exactly when holding more roles can never reveal more: some role already
   decided, or no added role carries a mask, or an added role withholds at least
   as much as the default. Otherwise the added role replaces a tighter default.
   */
  lemma MoreRolesNeverRevealMore(c: Classification, roles: set<string>, added: set<string>)
    ensures Restrictiveness(Effective(c, roles + added).kind) >= Restrictiveness(Effective(c, roles).kind)
       <==> || Matches(c, roles)
            || !Matches(c, added)
            || exists r :: r in added && r in c.byRole
                  && Restrictiveness(c.byRole[r].kind) >= Restrictiveness(c.standard.kind)
  {
    if Matches(c, roles + added) {
      var after := DeciderExists(c, roles + added);
      EffectiveIs(c, roles + added, after);
      if Matches(c, roles) {
        var before := DeciderExists(c, roles);
        EffectiveIs(c, roles, before);
        assert Beats(c, after, before);
      }
    }
  }

  /** A first role that carries no mask lifts a column's default redaction. */
  lemma AFirstRoleCanRevealMore()
    ensures var c := Classification(NewSpec(Redact), map["support" := NewSpec(NoMask)]);
            && Effective(c, {}) == NewSpec(Redact)
            && Effective(c, {} + {"support"}) == NewSpec(NoMask)
  {
    var c := Classification(NewSpec(Redact), map["support" := NewSpec(NoMask)]);
    AtMostTotal("support", "support");
    assert Decides(c, {} + {"support"}, "support");
    EffectiveIs(c, {} + {"support"}, "support");
    assert forall role :: !Decides(c, {}, role);
  }

  /** A smallest element of a finite set of names. */
  lemma {:induction false} LeastExists(names: set<string>) returns (least: string)
    requires names != {}
    ensures least in names && forall x :: x in names ==> AtMost(least, x)
    decreases |names|
  {
    var one :| one in names;
    AtMostTotal(one, one);
    var others := names - {one};
    assert forall x :: x in names <==> x == one || x in others;
    least := one;
    if others != {} {
      var other := LeastExists(others);
      AtMostTotal(one, other);
      if AtMost(other, one) {
        least := other;
      } else {
        forall x | x in others ensures AtMost(one, x) {
          AtMostTransitive(one, other, x);
        }
      }
    }
  }

  ghost predicate Ascending(s: seq<string>)
  {
    forall i, j :: 0 <= i < j < |s| ==> AtMost(s[i], s[j])
  }

  /** The roles in order, each once; a hash set has no order of its own. */
  method SortRoles(roles: set<string>) returns (sorted: seq<string>)
    ensures Ascending(sorted)
    ensures forall r :: r in sorted <==> r in roles
  {
    sorted := [];
    var rest := roles;
    while rest != {}
      invariant Ascending(sorted)
      invariant rest <= roles
      invariant forall r :: r in sorted <==> r in roles - rest
      invariant forall r, s :: r in sorted && s in rest ==> AtMost(r, s)
      decreases |rest|
    {
      ghost var smallest := LeastExists(rest);
      var least :| least in rest && forall x :: x in rest ==> AtMost(least, x);
      sorted := sorted + [least];
      rest := rest - {least};
    }
  }

  /** Role resolution: the loop over sorted roles finds the deciding role, or falls back. */
  method ForRoles(c: Classification, roles: set<string>) returns (spec: MaskSpec)
    ensures spec == Effective(c, roles)
    ensures Matches(c, roles) ==> exists role :: Decides(c, roles, role) && spec == c.byRole[role]
    ensures !Matches(c, roles) ==> spec == c.standard
  {
    var matching := SortRoles(roles);
    var chosen: Option<MaskSpec> := None;
    ghost var at := 0;
    for i := 0 to |matching|
      invariant chosen.None? ==> forall j :: 0 <= j < i ==> matching[j] !in c.byRole
      invariant chosen.Some? ==> at < i && matching[at] in c.byRole && chosen.value == c.byRole[matching[at]]
      invariant chosen.Some? ==>
                  forall j :: 0 <= j < i && matching[j] in c.byRole ==> Beats(c, matching[at], matching[j])
    {
      var role := matching[i];
      if role in c.byRole {
        var spec := c.byRole[role];
        AtMostTotal(role, role);
        if chosen.None? || Restrictiveness(chosen.value.kind) < Restrictiveness(spec.kind) {
          chosen, at := Some(spec), i;
        }
      }
    }
    if chosen.Some? {
      assert Decides(c, roles, matching[at]);
      EffectiveIs(c, roles, matching[at]);
      spec := chosen.value;
    } else {
      spec := c.standard;
    }
  }
}
