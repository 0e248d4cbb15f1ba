/**
 The one plan the session holds beside the owners' snapshots, and the portal last executed:
 what they are over every run. A Query's rows are read from this cell (`PipelineRows`).
 */
module PlanCell {
  import opened Wrappers
  import opened PlanStateModel
  import opened PlanFormats
  import opened PlanOrder
  import opened PlanHistory
  import opened PlanRuns
  import opened PlanSuspension
  import opened PlanCaches

  // ---- The portal last executed ---------------------------------------------

  /** An error, or the end of a transaction while a result is paused. */
  predicate Abandons(s: State, op: Op)
  {
    op.OpDiscardFailedEpoch? || (op == OpReadyForQuery(IDLE) && s.suspended)
  }

  /** Step `k` executed the portal, and since then none was executed and nothing was abandoned. */
  ghost predicate ExecutedAt(ops: seq<Op>, portal: Name, k: nat)
  {
    && k < |ops| && ops[k] == OpExecute(portal)
    && forall j :: k < j < |ops| ==> !ops[j].OpExecute? && !Abandons(Run(ops[..j]), ops[j])
  }

  /** What no step but these writes to. */
  predicate SameCells(s: State, t: State)
  {
    t.activePlan == s.activePlan && t.activePortal == s.activePortal
  }

  lemma InstallKeepsCells(s: State, plans: map<Name, Plan>)
    ensures SameCells(s, Install(s, plans))
  {
  }

  lemma ParseKeepsCells(s: State, name: Name, sql: Sql)
    ensures SameCells(s, Parse(s, name, sql))
  {
  }

  lemma BindKeepsCells(s: State, portal: Name, statement: Name, formats: Formats)
    ensures SameCells(s, Bind(s, portal, statement, formats))
  {
    if statement in s.statementPlans {
      InstallKeepsCells(Rebound(s, portal, statement, formats),
                        map[portal := Stamp(s.statementPlans[statement], formats)]);
    }
  }

  lemma CloseKeepsCells(s: State, target: Target)
    ensures SameCells(s, Close(s, target))
  {
  }

  lemma DiscardEmptiesCells(s: State)
    ensures DiscardFailedEpoch(s).activePlan == None && DiscardFailedEpoch(s).activePortal == None
  {
    var failed := FailedEpoch(s);
    if failed.Some? {
      assert DiscardEpoch(s, failed.value).activePlan == None;
    }
  }

  lemma DescriptionWritesTheCell(s: State, plan: Plan)
    ensures FinishDescription(s, plan).activePlan == (if s.descriptions == [] then s.activePlan else Some(plan))
    ensures FinishDescription(s, plan).activePortal == s.activePortal
  {
    if DescribeIsNext(s) {
      InstallKeepsCells(Taken(s, plan), DescribedPlans(s, s.descriptions[0].target, plan));
    }
  }

  /** The BindComplete of the portal last executed, which has a plan by now. */
  predicate Activates(s: State, op: Op)
  {
    op.OpFinishBind? && s.binds != [] && s.activePortal == Some(s.binds[0].name)
    && s.binds[0].name in FinishBind(s).portalPlans
  }

  lemma BindCompleteWritesTheCell(s: State)
    ensures FinishBind(s).activePortal == s.activePortal
    ensures FinishBind(s).activePlan
         == if Activates(s, OpFinishBind) then Get(FinishBind(s).portalPlans, s.binds[0].name) else s.activePlan
  {
    if s.binds != [] {
      InstallKeepsCells(s, BindCompletePlans(s, s.binds[0].name));
    }
  }

  lemma ExecuteWritesTheCells(s: State, portal: Name)
    ensures var t := Execute(s, portal);
            t.activePlan == Get(s.portalPlans, portal) && t.activePortal == Some(portal)
  {
  }

  lemma SuppressKeepsCells(s: State, epoch: nat)
    ensures SameCells(s, FinishSuppressedEpoch(s, epoch))
  {
  }

  lemma SimplePortalStep(s: State, op: Op)
    requires !IsComposite(op)
    ensures Step(s, op).activePortal == if Abandons(s, op) then None else s.activePortal
  {
  }

  lemma PortalStep(s: State, op: Op)
    ensures Step(s, op).activePortal
         == if op.OpExecute? then Some(op.portal) else if Abandons(s, op) then None else s.activePortal
  {
    match op
    case OpParse(name, sql) => ParseKeepsCells(s, name, sql);
    case OpBind(portal, statement, formats) => BindKeepsCells(s, portal, statement, formats);
    case OpClose(target) => CloseKeepsCells(s, target);
    case OpFinishBind => BindCompleteWritesTheCell(s);
    case OpFinishDescription(plan) => DescriptionWritesTheCell(s, plan);
    case OpDiscardFailedEpoch => DiscardEmptiesCells(s);
    case OpFinishSuppressedEpoch(epoch) => SuppressKeepsCells(s, epoch);
    case OpExecute(portal) => ExecuteWritesTheCells(s, portal);
    case _ => SimplePortalStep(s, op);
  }

  lemma {:induction false} ExecutedOneStepMore(before: seq<Op>, op: Op, portal: Name, k: nat)
    ensures ExecutedAt(before + [op], portal, k) <==>
              if k < |before|
              then ExecutedAt(before, portal, k) && !op.OpExecute? && !Abandons(Run(before), op)
              else k == |before| && op == OpExecute(portal)
  {
    var ops := before + [op];
    assert ops[..|before|] == before && ops[|before|] == op;
    assert forall j :: 0 <= j <= |before| ==> ops[..j] == before[..j];
    assert forall j :: 0 <= j < |before| ==> ops[j] == before[j];
  }

  /** Over every run, the portal on record is the one executed last, unless that was abandoned since. */
  lemma {:induction false} PortalIsTheLastExecuted(ops: seq<Op>, portal: Name)
    ensures Run(ops).activePortal == Some(portal) <==> exists k: nat :: ExecutedAt(ops, portal, k)
  {
    if ops != [] {
      var n := |ops| - 1;
      var before, op := ops[..n], ops[n];
      assert before + [op] == ops;
      PortalIsTheLastExecuted(before, portal);
      PortalStep(Run(before), op);
      forall k: nat
        ensures ExecutedAt(ops, portal, k) <==>
                  if k < n then ExecutedAt(before, portal, k) && !op.OpExecute? && !Abandons(Run(before), op)
                  else k == n && op == OpExecute(portal)
      {
        ExecutedOneStepMore(before, op, portal, k);
      }
      if k: nat :| ExecutedAt(before, portal, k) { assert k < n; }
      if op == OpExecute(portal) { assert ExecutedAt(ops, portal, n); }
    }
  }

  // ---- The plan in the cell -------------------------------------------------

  predicate Empties(s: State, op: Op)
  {
    op.OpClearActive? || op.OpBeginSimpleQuery? || Abandons(s, op)
  }

  predicate Writes(s: State, op: Op)
  {
    || Empties(s, op) || op.OpExecute? || Activates(s, op)
    || (op.OpFinishDescription? && s.descriptions != [])
  }

  /** An answer's own plan; at an Execute or the BindComplete after it, the plan of that portal. */
  function Written(s: State, op: Op): Option<Plan>
    requires Writes(s, op)
  {
    if Empties(s, op) then None
    else if op.OpExecute? then Get(s.portalPlans, op.portal)
    else if op.OpFinishDescription? then Some(op.plan)
    else Get(FinishBind(s).portalPlans, s.binds[0].name)
  }

  lemma SimpleCellStep(s: State, op: Op)
    requires !IsComposite(op)
    ensures Step(s, op).activePlan == if Writes(s, op) then Written(s, op) else s.activePlan
  {
  }

  lemma CellStep(s: State, op: Op)
    ensures Step(s, op).activePlan == if Writes(s, op) then Written(s, op) else s.activePlan
  {
    match op
    case OpParse(name, sql) => ParseKeepsCells(s, name, sql);
    case OpBind(portal, statement, formats) => BindKeepsCells(s, portal, statement, formats);
    case OpClose(target) => CloseKeepsCells(s, target);
    case OpFinishBind => BindCompleteWritesTheCell(s);
    case OpFinishDescription(plan) => DescriptionWritesTheCell(s, plan);
    case OpDiscardFailedEpoch => DiscardEmptiesCells(s);
    case OpFinishSuppressedEpoch(epoch) => SuppressKeepsCells(s, epoch);
    case OpExecute(portal) => ExecuteWritesTheCells(s, portal);
    case _ => SimpleCellStep(s, op);
  }

  /** Step `k` wrote to the cell, and none since did. */
  ghost predicate LastWrite(ops: seq<Op>, k: nat)
  {
    && k < |ops| && Writes(Run(ops[..k]), ops[k])
    && forall j :: k < j < |ops| ==> !Writes(Run(ops[..j]), ops[j])
  }

  lemma {:induction false} WrittenOneStepMore(before: seq<Op>, op: Op, k: nat)
    requires LastWrite(before + [op], k)
    ensures if Writes(Run(before), op) then k == |before| else k < |before| && LastWrite(before, k)
  {
    var ops := before + [op];
    assert ops[..|before|] == before && ops[|before|] == op;
    assert forall j :: 0 <= j <= |before| ==> ops[..j] == before[..j];
    assert forall j :: 0 <= j < |before| ==> ops[j] == before[j];
  }

  /** Over every run, the plan in the cell is what was written there last. */
  lemma {:induction false} CellIsTheLastWritten(ops: seq<Op>, k: nat)
    requires LastWrite(ops, k)
    ensures Run(ops).activePlan == Written(Run(ops[..k]), ops[k])
  {
    var n := |ops| - 1;
    var before, op := ops[..n], ops[n];
    assert before + [op] == ops;
    WrittenOneStepMore(before, op, k);
    CellStep(Run(before), op);
    if k < n {
      CellIsTheLastWritten(before, k);
      assert before[..k] == ops[..k];
    }
  }

  /** Some step of the run described this plan, masks and all; only the formats may be a Bind's. */
  ghost predicate IsReal(ops: seq<Op>, plan: Plan)
  {
    exists d: nat, described :: d < |ops| && ops[d] == OpFinishDescription(described) && SameMasks(plan, described)
  }

  lemma {:induction false} RealStays(before: seq<Op>, op: Op, plan: Plan)
    requires IsReal(before, plan)
    ensures IsReal(before + [op], plan)
  {
    var d: nat, described :|
      d < |before| && before[d] == OpFinishDescription(described) && SameMasks(plan, described);
    assert (before + [op])[d] == before[d];
  }

  lemma {:induction false} CurrentPlanIsReal(ops: seq<Op>, at: seq<World>, portal: Name, plan: Plan)
    requires |at| == |ops| + 1 && PortalPlanIsCurrent(ops, at, portal, plan)
    ensures IsReal(ops, plan)
  {
    if d: nat :| AnsweredSinceRefresh(ops, at, d, Portal(portal), plan) {
      assert ops[d] == OpFinishDescription(plan) && SameMasks(plan, plan);
    } else {
      var s := at[|ops|].s;
      var d: nat, described :|
        AnsweredSinceRefresh(ops, at, d, Statement(s.portalStatement[portal]), described)
        && InFormats(plan, described, FormatsOf(s, portal));
      assert ops[d] == OpFinishDescription(described);
    }
  }

  lemma {:induction false} CachedPlansAreReal(ops: seq<Op>, portal: Name)
    requires |ops| <= U64_MAX && portal in Run(ops).portalPlans
    ensures IsReal(ops, Run(ops).portalPlans[portal])
  {
    CachedPlansFollowTheLastRefresh(ops, portal);
    WorldsAreRuns(ops, |ops|);
    CurrentPlanIsReal(ops, Worlds(ops), portal, Run(ops).portalPlans[portal]);
  }

  /** Over every run, a plan in the cell is one that some answer described: never stitched from two, never invented. */
  lemma {:induction false} TheActivePlanIsReal(ops: seq<Op>)
    requires |ops| <= U64_MAX && Run(ops).activePlan.Some?
    ensures IsReal(ops, Run(ops).activePlan.value)
  {
    var n := |ops| - 1;
    var before, op := ops[..n], ops[n];
    assert before + [op] == ops;
    var s, plan := Run(before), Run(ops).activePlan.value;
    CellStep(s, op);
    if !Writes(s, op) {
      TheActivePlanIsReal(before);
      RealStays(before, op, plan);
    } else if op.OpFinishDescription? {
      assert ops[n] == OpFinishDescription(plan) && SameMasks(plan, plan);
    } else if op.OpExecute? {
      CachedPlansAreReal(before, op.portal);
      RealStays(before, op, plan);
    } else {
      BindCompleteStep(s);
      CachedPlansAreReal(ops, s.binds[0].name);
    }
  }

  lemma BindCompleteStep(s: State)
    ensures Step(s, OpFinishBind) == FinishBind(s)
  {
  }

  // ---- Whether the rows are a simple query's --------------------------------

  /** The rows that follow are no simple query's. */
  predicate EndsSimple(s: State, op: Op)
  {
    || op.OpFinishResultSet? || op.OpFinishSuppressedEpoch? || op.OpDiscardFailedEpoch?
    || (op.OpFinishEmptyQuery? && QueryIsNext(s))
    || (op.OpFinishDescription? && DescribeIsNext(s))
  }

  predicate BeginsSimple(s: State, op: Op)
  {
    op.OpFinishDescription? && QueryIsNext(s)
  }

  lemma InstallKeepsTheKind(s: State, plans: map<Name, Plan>)
    ensures Install(s, plans).streamingSimple == s.streamingSimple
  {
  }

  lemma BindKeepsTheKind(s: State, portal: Name, statement: Name, formats: Formats)
    ensures Bind(s, portal, statement, formats).streamingSimple == s.streamingSimple
  {
    if statement in s.statementPlans {
      InstallKeepsTheKind(Rebound(s, portal, statement, formats),
                          map[portal := Stamp(s.statementPlans[statement], formats)]);
    }
  }

  lemma FinishBindKeepsTheKind(s: State)
    ensures FinishBind(s).streamingSimple == s.streamingSimple
  {
    if s.binds != [] {
      InstallKeepsTheKind(s, BindCompletePlans(s, s.binds[0].name));
    }
  }

  lemma ParseKeepsTheKind(s: State, name: Name, sql: Sql)
    ensures Parse(s, name, sql).streamingSimple == s.streamingSimple
  {
  }

  lemma CloseKeepsTheKind(s: State, target: Target)
    ensures Close(s, target).streamingSimple == s.streamingSimple
  {
  }

  lemma ExecuteKeepsTheKind(s: State, portal: Name)
    ensures Execute(s, portal).streamingSimple == s.streamingSimple
  {
  }

  lemma SuppressEndsSimple(s: State, epoch: nat)
    ensures !FinishSuppressedEpoch(s, epoch).streamingSimple
  {
  }

  lemma DescriptionSetsTheKind(s: State, plan: Plan)
    ensures FinishDescription(s, plan).streamingSimple == if s.descriptions == [] then s.streamingSimple
                                                          else QueryIsNext(s)
  {
    if DescribeIsNext(s) {
      InstallKeepsTheKind(Taken(s, plan), DescribedPlans(s, s.descriptions[0].target, plan));
    }
  }

  lemma DiscardEndsSimple(s: State)
    ensures !DiscardFailedEpoch(s).streamingSimple
  {
    var failed := FailedEpoch(s);
    if failed.Some? {
      assert !DiscardEpoch(s, failed.value).streamingSimple;
    }
  }

  lemma SimpleKindStep(s: State, op: Op)
    requires !IsComposite(op)
    ensures Step(s, op).streamingSimple <==> s.streamingSimple && !EndsSimple(s, op)
  {
  }

  lemma KindStep(s: State, op: Op)
    ensures Step(s, op).streamingSimple <==> BeginsSimple(s, op) || (s.streamingSimple && !EndsSimple(s, op))
  {
    match op
    case OpFinishDescription(plan) => DescriptionSetsTheKind(s, plan);
    case OpDiscardFailedEpoch => DiscardEndsSimple(s);
    case OpFinishSuppressedEpoch(epoch) => SuppressEndsSimple(s, epoch);
    case OpParse(name, sql) => ParseKeepsTheKind(s, name, sql);
    case OpBind(portal, statement, formats) => BindKeepsTheKind(s, portal, statement, formats);
    case OpClose(target) => CloseKeepsTheKind(s, target);
    case OpExecute(portal) => ExecuteKeepsTheKind(s, portal);
    case OpFinishBind => FinishBindKeepsTheKind(s);
    case _ => SimpleKindStep(s, op);
  }

  /** Step `k` was the RowDescription of a Query, and nothing since has ended its result. */
  ghost predicate SimpleAt(ops: seq<Op>, k: nat)
  {
    && k < |ops| && BeginsSimple(Run(ops[..k]), ops[k])
    && forall j :: k < j < |ops| ==> !EndsSimple(Run(ops[..j]), ops[j])
  }

  lemma {:induction false} SimpleOneStepMore(before: seq<Op>, op: Op, k: nat)
    ensures SimpleAt(before + [op], k) <==>
              if k < |before| then SimpleAt(before, k) && !EndsSimple(Run(before), op)
              else k == |before| && BeginsSimple(Run(before), op)
  {
    var ops := before + [op];
    assert ops[..|before|] == before && ops[|before|] == op;
    assert forall j :: 0 <= j <= |before| ==> ops[..j] == before[..j];
    assert forall j :: 0 <= j < |before| ==> ops[j] == before[j];
  }

  /**
   Over every run, the rows due are a simple query's exactly since a RowDescription answered
   one, until a result ends, an empty query or a Describe is answered, or an error or a
   refusal: a Describe's answer never makes them so.
   */
  lemma {:induction false} RowsAreSimpleExactlySince(ops: seq<Op>)
    ensures Run(ops).streamingSimple <==> exists k: nat :: SimpleAt(ops, k)
  {
    if ops != [] {
      var n := |ops| - 1;
      var before, op := ops[..n], ops[n];
      assert before + [op] == ops;
      RowsAreSimpleExactlySince(before);
      KindStep(Run(before), op);
      forall k: nat
        ensures SimpleAt(ops, k) <==>
                  if k < n then SimpleAt(before, k) && !EndsSimple(Run(before), op)
                  else k == n && BeginsSimple(Run(before), op)
      {
        SimpleOneStepMore(before, op, k);
      }
      if k: nat :| SimpleAt(before, k) { assert k < n; }
      if BeginsSimple(Run(before), op) { assert SimpleAt(ops, n); }
    }
  }
}
