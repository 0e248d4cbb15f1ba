/**
 Turning a result set's field descriptions into a masking plan, or refusing it.

 Analysis verdicts, lineage verdicts and resolved expression policies arrive as
 arbitrary inputs: nothing is assumed about how many there are or what they say.
 */
module Planning {
  import opened Wrappers
  import opened Masks
  import opened Roles
  import opened PlanStateModel

  datatype FieldDescription = FieldDescription(
    name: string,
    tableOid: int,
    columnId: int,
    typeOid: int,
    typeMod: int,
    format: int)

  datatype Safety = Releasable | Summary | JsonExtract | Unknown

  datatype Verdict = Release | Blocked(source: string) | Unresolved

  datatype ExpressionPolicy =
    | NotApplicable
    | Opaque
    | Released
    | Masked(spec: MaskSpec, projection: Option<string>)

  datatype FieldAnalysis = FieldAnalysis(
    safety: seq<Safety>,
    lineage: seq<Verdict>,
    expression: seq<ExpressionPolicy>,
    trustProvenance: bool)

  datatype UnclassifiedMode = MaskUnclassified | AllowUnclassified
  datatype UnclassifiedMask = TypeAware | AlwaysNull
  datatype OpaqueMode = RejectOpaque | MaskOpaque

  datatype LivePolicy = LivePolicy(
    unclassified: UnclassifiedMode,
    unclassifiedMask: UnclassifiedMask,
    opaqueMode: OpaqueMode)

  datatype Snapshot = Snapshot(
    byColumn: map<Column, Classification>,
    names: map<Column, string>,
    allColumns: map<Column, string>,
    columnNotNull: map<Column, bool>,
    relationColumns: map<string, seq<string>>,
    byName: map<(string, string), Classification>)

  /** Everything but the fields that one planning decision looks at. */
  datatype Request = Request(
    live: LivePolicy,
    snapshot: Snapshot,
    roles: set<string>,
    analysis: FieldAnalysis)

  /** Why a result set was refused. */
  datatype Cause =
    | OpaqueField(blockedBy: Option<string>)
    | NullabilityMismatch
    | MaskTypeMismatch

  function At<T>(s: seq<T>, i: nat): Option<T>
  {
    if i < |s| then Some(s[i]) else None
  }

  /** The column's stable name: the engine's spelling first, then the rule's. */
  function NameOf(s: Snapshot, column: Column): Option<string>
  {
    if column in s.allColumns then Some(s.allColumns[column]) else Get(s.names, column)
  }

  /** A policy counts only for a field whose shape was verified; a missing one is opaque, never released. */
  function ExpressionPolicyFor(a: FieldAnalysis, i: nat): ExpressionPolicy
  {
    if At(a.safety, i) !in {Some(Summary), Some(JsonExtract)} then NotApplicable
    else if i < |a.expression| then a.expression[i]
    else Opaque
  }

  // What a plan must be, said field by field without saying how it is found.

  function ColumnOf(f: FieldDescription): Column
  {
    (f.tableOid, f.columnId)
  }

  /** The engine's word on which column this is exists and is believed. */
  predicate Attributed(q: Request, f: FieldDescription)
  {
    f.tableOid != 0 && q.analysis.trustProvenance
  }

  predicate Classified(q: Request, f: FieldDescription)
  {
    Attributed(q, f) && ColumnOf(f) in q.snapshot.byColumn
  }

  /** A known column without a rule, under the default-deny setting with masks chosen by type. */
  predicate Automatic(q: Request, f: FieldDescription)
  {
    && Attributed(q, f)
    && !Classified(q, f)
    && q.live.unclassified == MaskUnclassified
    && q.live.unclassifiedMask == TypeAware
  }

  predicate NotNull(q: Request, f: FieldDescription)
  {
    Get(q.snapshot.columnNotNull, ColumnOf(f)) == Some(true)
  }

  /** An expression whose shape or whole lineage is known to carry no masked value. */
  predicate Rescued(q: Request, i: nat)
  {
    At(q.analysis.safety, i) == Some(Releasable) || At(q.analysis.lineage, i) == Some(Release)
  }

  /** The mask an expression's own policy asks for. */
  predicate ByPolicy(q: Request, i: nat, f: FieldDescription)
  {
    !Attributed(q, f) && !Rescued(q, i) && ExpressionPolicyFor(q.analysis, i).Masked?
  }

  /** Every reason for which a value may be served in the clear. */
  ghost predicate MayPass(q: Request, i: nat, f: FieldDescription)
  {
    if Attributed(q, f) then
      if Classified(q, f) then Effective(q.snapshot.byColumn[ColumnOf(f)], q.roles).kind == NoMask
      else q.live.unclassified == AllowUnclassified
    else
      || Rescued(q, i)
      || ExpressionPolicyFor(q.analysis, i) == Released
      || (ByPolicy(q, i, f) && ExpressionPolicyFor(q.analysis, i).spec.kind == NoMask)
  }

  /** No column, no verdict and no policy says anything about this field. */
  predicate Unexplained(q: Request, i: nat, f: FieldDescription)
  {
    && !Attributed(q, f)
    && !Rescued(q, i)
    && ExpressionPolicyFor(q.analysis, i) in {NotApplicable, Opaque}
  }

  /** What one entry of an accepted plan promises. */
  ghost predicate Sound(q: Request, i: nat, f: FieldDescription, e: FieldPlan)
  {
    && e.typeOid == f.typeOid
    && e.format == f.format
    && Supports(e.spec.kind, f.typeOid, f.format)
    // Cleartext for a listed reason and for no other.
    && (e.spec.kind == NoMask <==> MayPass(q, i, f))
    // A classified column carries the tightest of the principal's masks.
    && (Classified(q, f) ==> e.spec == Effective(q.snapshot.byColumn[ColumnOf(f)], q.roles))
    // An expression carries its own policy, and only then a projection.
    && (ByPolicy(q, i, f) ==> e.spec == ExpressionPolicyFor(q.analysis, i).spec)
    && e.jsonProjection == (if ByPolicy(q, i, f) then ExpressionPolicyFor(q.analysis, i).projection else None)
    // The automatic mask, which never surprises a NOT NULL column with NULL.
    && (Automatic(q, f) ==>
          IsFallback(e.spec, f.typeOid, f.format, f.typeMod, NameOf(q.snapshot, ColumnOf(f))))
    && (Automatic(q, f) && NotNull(q, f) ==> e.spec.kind != Null)
    && (e.lenient <==> Automatic(q, f) && !NotNull(q, f))
    // Everything else that is served is NULL, and only where the operator said so.
    && (Unexplained(q, i, f) ==> q.live.opaqueMode == MaskOpaque)
    && (!Classified(q, f) && !Automatic(q, f) && !ByPolicy(q, i, f) ==> e.spec in {NewSpec(NoMask), NewSpec(Null)})
  }

  /** The masked column lineage found behind an expression, if it found one. */
  function BlockedBy(lineage: Option<Verdict>): Option<string>
  {
    if lineage.Some? && lineage.value.Blocked? then Some(lineage.value.source) else None
  }

  /** Why a field cannot be planned, if it cannot. */
  ghost function Refusal(q: Request, i: nat, f: FieldDescription): Option<Cause>
  {
    if Unexplained(q, i, f) && q.live.opaqueMode == RejectOpaque then
      Some(OpaqueField(BlockedBy(At(q.analysis.lineage, i))))
    else if Automatic(q, f) && NotNull(q, f)
         && !PseudonymApplies(f.typeOid, f.typeMod, NameOf(q.snapshot, ColumnOf(f)))
         && f.typeOid !in {OID_DATE, OID_TIMESTAMP, OID_TIMESTAMPTZ}
         && !(f.typeOid in {OID_INET, OID_CIDR} && f.format == FORMAT_TEXT) then
      Some(NullabilityMismatch)
    else if Classified(q, f)
         && !Supports(Effective(q.snapshot.byColumn[ColumnOf(f)], q.roles).kind, f.typeOid, f.format) then
      Some(MaskTypeMismatch)
    else if ByPolicy(q, i, f)
         && !Supports(ExpressionPolicyFor(q.analysis, i).spec.kind, f.typeOid, f.format) then
      Some(MaskTypeMismatch)
    else
      None
  }

  /** A field nothing vouches for: NULL if the operator said so, refused otherwise. */
  method PlanOpaqueField(lineage: Option<Verdict>, mode: OpaqueMode) returns (r: Result<MaskSpec, Cause>)
    ensures r.Ok? <==> mode == MaskOpaque
    ensures r.Ok? ==> r.value == NewSpec(Null)
    ensures r.Err? ==> r.error.OpaqueField?
    ensures r.Err? ==> forall s :: r.error.blockedBy == Some(s) <==> lineage == Some(Blocked(s))
  {
    if mode == MaskOpaque {
      return Ok(NewSpec(Null));
    }
    match lineage {
      case Some(Blocked(source)) => return Err(OpaqueField(Some(source)));
      case _ => return Err(OpaqueField(None));
    }
  }

  /** The mask of a field without believed provenance, and the projection it came with. */
  method PlanExpression(q: Request, i: nat) returns (r: Result<(MaskSpec, Option<string>), Cause>)
    ensures r.Err? <==> !Rescued(q, i) && ExpressionPolicyFor(q.analysis, i) in {NotApplicable, Opaque}
                        && q.live.opaqueMode == RejectOpaque
    ensures r.Err? ==> r.error.OpaqueField?
    ensures r.Err? ==> forall s :: r.error.blockedBy == Some(s) <==> At(q.analysis.lineage, i) == Some(Blocked(s))
    ensures r.Ok? && (Rescued(q, i) || ExpressionPolicyFor(q.analysis, i) == Released)
            ==> r.value == (NewSpec(NoMask), None)
    ensures r.Ok? && !Rescued(q, i) && ExpressionPolicyFor(q.analysis, i) in {NotApplicable, Opaque}
            ==> r.value == (NewSpec(Null), None)
    ensures !Rescued(q, i) && ExpressionPolicyFor(q.analysis, i).Masked?
            ==> r == Ok((ExpressionPolicyFor(q.analysis, i).spec, ExpressionPolicyFor(q.analysis, i).projection))
  {
    if At(q.analysis.safety, i) == Some(Releasable) {
      return Ok((NewSpec(NoMask), None));
    }
    if At(q.analysis.lineage, i) == Some(Release) {
      return Ok((NewSpec(NoMask), None));
    }
    match ExpressionPolicyFor(q.analysis, i) {
      case Released => return Ok((NewSpec(NoMask), None));
      case Masked(spec, projection) => return Ok((spec, projection));
      case _ =>
        var opaqueField := PlanOpaqueField(At(q.analysis.lineage, i), q.live.opaqueMode);
        match opaqueField {
          case Ok(spec) => return Ok((spec, None));
          case Err(cause) => return Err(cause);
        }
    }
  }

  /** One turn of the planning loop. */
  method PlanField(q: Request, i: nat, f: FieldDescription) returns (r: Result<FieldPlan, Cause>)
    ensures r.Ok? ==> Sound(q, i, f, r.value) && Refusal(q, i, f) == None
    ensures r.Err? ==> Refusal(q, i, f) == Some(r.error)
  {
    var lenient, automatic, projection := false, false, None;
    var spec: MaskSpec;
    if f.tableOid == 0 || !q.analysis.trustProvenance {
      var planned := PlanExpression(q, i);
      if planned.Err? {
        return Err(planned.error);
      }
      spec, projection := planned.value.0, planned.value.1;
    } else if (f.tableOid, f.columnId) in q.snapshot.byColumn {
      spec := ForRoles(q.snapshot.byColumn[(f.tableOid, f.columnId)], q.roles);
    } else {
      match (q.live.unclassified, q.live.unclassifiedMask) {
        case (MaskUnclassified, TypeAware) =>
          automatic := true;
          spec := ForUnclassified(f.typeOid, f.format, f.typeMod, NameOf(q.snapshot, ColumnOf(f)));
        case (MaskUnclassified, AlwaysNull) =>
          spec := NewSpec(Null);
        case (AllowUnclassified, _) =>
          spec := NewSpec(NoMask);
      }
    }
    if automatic {
      var sourceIsNotNull := Get(q.snapshot.columnNotNull, ColumnOf(f)) == Some(true);
      if sourceIsNotNull && spec.kind == Null {
        return Err(NullabilityMismatch);
      }
      lenient := !sourceIsNotNull;
    }
    if !Supports(spec.kind, f.typeOid, f.format) {
      return Err(MaskTypeMismatch);
    }
    return Ok(FieldPlan(spec, projection, f.typeOid, f.format, lenient));
  }

  ghost predicate SoundPlan(q: Request, fields: seq<FieldDescription>, plan: Plan)
  {
    && |plan.fields| == |fields|
    && forall i :: 0 <= i < |fields| ==> Sound(q, i, fields[i], plan.fields[i])
  }

  /** A whole result set: a sound entry for every field, or the first field's refusal. */
  method PlanFor(q: Request, fields: seq<FieldDescription>) returns (r: Result<Plan, Cause>)
    ensures r.Ok? <==> forall i :: 0 <= i < |fields| ==> Refusal(q, i, fields[i]) == None
    ensures r.Ok? ==> SoundPlan(q, fields, r.value)
    ensures r.Err? ==> exists i :: 0 <= i < |fields| && Refusal(q, i, fields[i]) == Some(r.error)
                                   && forall j :: 0 <= j < i ==> Refusal(q, j, fields[j]) == None
  {
    var plan: seq<FieldPlan> := [];
    for i := 0 to |fields|
      invariant |plan| == i
      invariant forall j :: 0 <= j < i ==> Sound(q, j, fields[j], plan[j])
      invariant forall j :: 0 <= j < i ==> Refusal(q, j, fields[j]) == None
    {
      var entry := PlanField(q, i, fields[i]);
      if entry.Err? {
        return Err(entry.error);
      }
      plan := plan + [entry.value];
    }
    return Ok(Plan(plan));
  }

  /** Soundness leaves no freedom: a request and its fields have at most one sound plan. */
  lemma SoundPlanIsUnique(q: Request, fields: seq<FieldDescription>, p: Plan, p': Plan)
    requires SoundPlan(q, fields, p) && SoundPlan(q, fields, p')
    ensures p == p'
  {
  }

  /** Every classified column among the fields has a mask for a role already held. */
  ghost predicate RolesMatch(q: Request, fields: seq<FieldDescription>)
  {
    forall i :: 0 <= i < |fields| && Classified(q, fields[i])
      ==> Matches(q.snapshot.byColumn[ColumnOf(fields[i])], q.roles)
  }

  /**
   Granting a principal more roles never loosens a plan: no field is withheld
   less, so nothing masked before is served in the clear after.
   */
  lemma MoreRolesNeverLoosenAPlan(q: Request, added: set<string>, fields: seq<FieldDescription>, p: Plan, p': Plan)
    requires RolesMatch(q, fields)
    requires SoundPlan(q, fields, p)
    requires SoundPlan(q.(roles := q.roles + added), fields, p')
    ensures forall i :: 0 <= i < |fields| ==>
      Restrictiveness(p'.fields[i].spec.kind) >= Restrictiveness(p.fields[i].spec.kind)
    ensures forall i :: 0 <= i < |fields| && p'.fields[i].spec.kind == NoMask ==> p.fields[i].spec.kind == NoMask
  {
    var q' := q.(roles := q.roles + added);
    forall i | 0 <= i < |fields|
      ensures Restrictiveness(p'.fields[i].spec.kind) >= Restrictiveness(p.fields[i].spec.kind)
    {
      var f := fields[i];
      assert Sound(q, i, f, p.fields[i]) && Sound(q', i, f, p'.fields[i]);
      if Classified(q, f) {
        MoreRolesNeverRevealMore(q.snapshot.byColumn[ColumnOf(f)], q.roles, added);
      } else if Automatic(q, f) {
        FallbackIsUnique(p.fields[i].spec, p'.fields[i].spec, f.typeOid, f.format, f.typeMod,
                         NameOf(q.snapshot, ColumnOf(f)));
      }
    }
  }

  /** The shape of the expression was verified to be one a policy may speak for. */
  predicate ShapeVerified(q: Request, i: nat)
  {
    i < |q.analysis.safety| && (q.analysis.safety[i] == Summary || q.analysis.safety[i] == JsonExtract)
  }

  /** Two requests that differ in expression policies alone, and agree on them wherever a shape was verified. */
  ghost predicate AgreeOnVerifiedShapes(q: Request, q': Request)
  {
    && q' == q.(analysis := q.analysis.(expression := q'.analysis.expression))
    && forall i: nat :: ShapeVerified(q, i) ==> At(q.analysis.expression, i) == At(q'.analysis.expression, i)
  }

  /**
   An expression's policy counts only where its shape was verified: whatever it says
   elsewhere, the same result sets are accepted with the same plan, and the rest refused
   for the same cause.
   */
  lemma PoliciesNeedAVerifiedShape(q: Request, q': Request, fields: seq<FieldDescription>, p: Plan)
    requires AgreeOnVerifiedShapes(q, q')
    ensures SoundPlan(q, fields, p) <==> SoundPlan(q', fields, p)
    ensures forall i :: 0 <= i < |fields| ==> Refusal(q, i, fields[i]) == Refusal(q', i, fields[i])
  {
    forall i | 0 <= i < |fields| ensures ExpressionPolicyFor(q.analysis, i) == ExpressionPolicyFor(q'.analysis, i) {
      assert ShapeVerified(q, i) ==> At(q.analysis.expression, i) == At(q'.analysis.expression, i);
    }
    forall i | 0 <= i < |fields| && |p.fields| == |fields|
      ensures Sound(q, i, fields[i], p.fields[i]) <==> Sound(q', i, fields[i], p.fields[i])
    {
    }
  }

  /**
   Where a shape was verified the policy decides, unless the field is attributed or already
   rescued: released in the clear, masked as it says, or, if it says nothing or there is
   none, NULL or refused, as the operator chose.
   */
  lemma PoliciesDecideVerifiedShapes(q: Request, i: nat, f: FieldDescription, e: FieldPlan)
    requires ShapeVerified(q, i) && !Attributed(q, f) && !Rescued(q, i) && Sound(q, i, f, e)
    ensures At(q.analysis.expression, i) == Some(Released) ==> e.spec == NewSpec(NoMask)
    ensures forall spec, projection :: At(q.analysis.expression, i) == Some(Masked(spec, projection)) ==>
              e.spec == spec && e.jsonProjection == projection
    ensures At(q.analysis.expression, i) in {None, Some(Opaque), Some(NotApplicable)} ==>
              e.spec == NewSpec(Null) && q.live.opaqueMode == MaskOpaque
  {
  }

  // Attributing a reducing aggregate to the one relation that owns its column.

  datatype SummaryArgument = BareColumn(column: string) | Unattributable

  function AsciiLowerChar(c: char): char
  {
    if 'A' <= c <= 'Z' then c - 'A' + 'a' else c
  }

  function AsciiLower(s: string): string
  {
    seq(|s|, i requires 0 <= i < |s| => AsciiLowerChar(s[i]))
  }

  function Qualify(relation: (string, string)): Option<string>
  {
    if relation.0 == "" then None else Some(relation.0 + "." + relation.1)
  }

  /** The columns of a schema-qualified relation the catalog knows. */
  function ColumnsOf(s: Snapshot, relation: (string, string)): Option<seq<string>>
  {
    match Qualify(relation)
    case None => None
    case Some(name) => Get(s.relationColumns, AsciiLower(name))
  }

  predicate Owns(s: Snapshot, relation: (string, string), column: string)
  {
    ColumnsOf(s, relation).Some? && column in ColumnsOf(s, relation).value
  }

  ghost predicate AllKnown(s: Snapshot, relations: seq<(string, string)>)
  {
    forall i :: 0 <= i < |relations| ==> ColumnsOf(s, relations[i]).Some?
  }

  /** Position `k` of the FROM list owns the column and no other position does. */
  ghost predicate SoleOwner(s: Snapshot, relations: seq<(string, string)>, column: string, k: int)
  {
    0 <= k < |relations| && forall i :: 0 <= i < |relations| ==> (Owns(s, relations[i], column) <==> i == k)
  }

  /** Where a column of an owning relation is classified, by name. */
  function LookupByName(s: Snapshot, relation: (string, string), column: string): Option<Classification>
  {
    match Qualify(relation)
    case None => None
    case Some(name) => Get(s.byName, (AsciiLower(name), AsciiLower(column)))
  }

  /**
   A policy comes back exactly when every relation is qualified and known, one
   position alone owns the bare column, and the catalog classifies it; then it
   is that column's mask for those roles.
   */
  method ResolveSummarySource(
    s: Snapshot, relations: seq<(string, string)>, argument: SummaryArgument, roles: set<string>)
    returns (r: ExpressionPolicy)
    ensures r.Opaque? || r.Released? || r.Masked?
    ensures !r.Opaque? <==>
              && argument.BareColumn?
              && AllKnown(s, relations)
              && exists k :: SoleOwner(s, relations, argument.column, k)
                             && LookupByName(s, relations[k], argument.column).Some?
    ensures argument.BareColumn? && !r.Opaque? ==>
      forall k :: SoleOwner(s, relations, argument.column, k) && LookupByName(s, relations[k], argument.column).Some?
        ==> var spec := Effective(LookupByName(s, relations[k], argument.column).value, roles);
            r == (if spec.kind == NoMask then Released else Masked(spec, None))
  {
    if argument.Unattributable? {
      return Opaque;
    }
    var column := argument.column;
    var owners, owner := 0, None;
    ghost var at := 0;
    for i := 0 to |relations|
      invariant forall j :: 0 <= j < i ==> ColumnsOf(s, relations[j]).Some?
      invariant owners == 0 ==> owner.None? && forall j :: 0 <= j < i ==> !Owns(s, relations[j], column)
      invariant owners >= 1 ==> at < i && owner == Some(relations[at]) && Owns(s, relations[at], column)
      invariant owners == 1 ==> forall j :: 0 <= j < i && Owns(s, relations[j], column) ==> j == at
      invariant owners >= 2 ==> exists j :: 0 <= j < at && Owns(s, relations[j], column)
    {
      var columns := ColumnsOf(s, relations[i]);
      if columns.None? {
        return Opaque;
      }
      if column in columns.value {
        owners, owner, at := owners + 1, Some(relations[i]), i;
      }
    }
    if owners != 1 {
      assert forall k :: SoleOwner(s, relations, column, k) ==> Owns(s, relations[k], column);
      return Opaque;
    }
    assert SoleOwner(s, relations, column, at);
    assert forall k :: SoleOwner(s, relations, column, k) ==> Owns(s, relations[k], column) && k == at;
    var classification := LookupByName(s, owner.value, column);
    if classification.None? {
      return Opaque;
    }
    var spec := ForRoles(classification.value, roles);
    r := if spec.kind == NoMask then Released else Masked(spec, None);
  }
}
