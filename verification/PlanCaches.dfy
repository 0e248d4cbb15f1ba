/**
 What stays cached. A statement's plan is on record exactly from the answer that described
 it until something makes it stale; a portal is left alone by everything that does not
 concern it; and a portal bound to a described statement always has a plan.
 */
module PlanCaches {
  import opened Wrappers
  import opened PlanStateModel
  import opened PlanOrder
  import opened PlanHistory
  import opened PlanOrigin
  import opened PlanRuns
  import opened PlanSuspension

  /** The names and the plans on record for them. */
  predicate SameNames(s: State, t: State)
  {
    && t.statementPlans == s.statementPlans && t.portalPlans == s.portalPlans
    && t.portalStatement == s.portalStatement && t.portalFormats == s.portalFormats
  }

  predicate TouchesNames(op: Op)
  {
    op.OpInvalidateIfStale? || op.OpParse? || op.OpBind? || op.OpClose? || op.OpFinishBind?
    || op.OpFinishDescription? || op.OpDiscardFailedEpoch?
  }

  lemma ExecuteLeavesNames(s: State, portal: Name)
    ensures SameNames(s, Execute(s, portal))
  {
  }

  lemma SuppressLeavesNames(s: State, epoch: nat)
    ensures SameNames(s, FinishSuppressedEpoch(s, epoch))
  {
  }

  lemma OtherStepsLeaveNames(s: State, op: Op)
    requires !TouchesNames(op)
    ensures SameNames(s, Step(s, op))
  {
    match op
    case OpExecute(portal) => ExecuteLeavesNames(s, portal);
    case OpFinishSuppressedEpoch(epoch) => SuppressLeavesNames(s, epoch);
    case _ =>
  }

  /** Installing plans adds exactly these to the portal cache. */
  lemma InstallNames(s: State, plans: map<Name, Plan>)
    ensures var t := Install(s, plans);
            && t.portalPlans == s.portalPlans + plans && t.statementPlans == s.statementPlans
            && t.portalStatement == s.portalStatement && t.portalFormats == s.portalFormats
            && t.bindGenerations == s.bindGenerations
  {
  }

  /** What an answer to a Describe installs. */
  lemma DescribedNames(s: State, plan: Plan)
    requires DescribeIsNext(s)
    ensures var target, t := s.descriptions[0].target, FinishDescription(s, plan);
            && t.portalPlans == s.portalPlans + DescribedPlans(s, target, plan)
            && t.statementPlans
               == (if target.Statement? then s.statementPlans[target.name := plan] else s.statementPlans)
            && t.portalStatement == s.portalStatement && t.portalFormats == s.portalFormats
            && t.bindGenerations == s.bindGenerations
  {
    InstallNames(Taken(s, plan), DescribedPlans(s, s.descriptions[0].target, plan));
  }

  lemma UndescribedNames(s: State, plan: Plan)
    requires !DescribeIsNext(s)
    ensures SameNames(s, FinishDescription(s, plan))
    ensures FinishDescription(s, plan).bindGenerations == s.bindGenerations
  {
  }

  /** What a Bind does to the names. */
  lemma BoundNames(s: State, portal: Name, statement: Name, formats: Formats)
    ensures var t := Bind(s, portal, statement, formats);
            && t.statementPlans == s.statementPlans && t.portalStatement == s.portalStatement[portal := statement]
            && t.portalFormats == s.portalFormats[portal := formats]
            && t.bindGenerations == s.bindGenerations[portal := BumpedGeneration(s, portal)]
            && t.portalPlans == (if statement in s.statementPlans
                                 then s.portalPlans + map[portal := Stamp(s.statementPlans[statement], formats)]
                                 else s.portalPlans - {portal})
  {
    if statement in s.statementPlans {
      InstallNames(Rebound(s, portal, statement, formats),
                   map[portal := Stamp(s.statementPlans[statement], formats)]);
    }
  }

  // ---- A bound portal has its statement's plan ------------------------------

  ghost predicate Supplied(s: State)
  {
    forall p :: p in s.portalStatement && s.portalStatement[p] in s.statementPlans ==> p in s.portalPlans
  }

  lemma InvalidateSupplies(s: State, current: nat)
    requires Supplied(s)
    ensures Supplied(InvalidateIfStale(s, current))
  {
  }

  lemma ParseSupplies(s: State, name: Name, sql: Sql)
    requires Supplied(s)
    ensures Supplied(Parse(s, name, sql))
  {
  }

  lemma BindSupplies(s: State, portal: Name, statement: Name, formats: Formats)
    requires Supplied(s)
    ensures Supplied(Bind(s, portal, statement, formats))
  {
    BoundNames(s, portal, statement, formats);
  }

  lemma CloseSupplies(s: State, target: Target)
    requires Supplied(s)
    ensures Supplied(Close(s, target))
  {
  }

  lemma FinishBindSupplies(s: State)
    requires Supplied(s)
    ensures Supplied(FinishBind(s))
  {
  }

  lemma FinishDescriptionSupplies(s: State, plan: Plan)
    requires Supplied(s)
    ensures Supplied(FinishDescription(s, plan))
  {
    if DescribeIsNext(s) {
      DescribedNames(s, plan);
    } else {
      UndescribedNames(s, plan);
    }
  }

  lemma DiscardSupplies(s: State)
    requires Supplied(s)
    ensures Supplied(DiscardFailedEpoch(s))
  {
  }

  lemma StepSupplies(s: State, op: Op)
    requires Supplied(s)
    ensures Supplied(Step(s, op))
  {
    match op
    case OpInvalidateIfStale(current) => InvalidateSupplies(s, current);
    case OpParse(name, sql) => ParseSupplies(s, name, sql);
    case OpBind(portal, statement, formats) => BindSupplies(s, portal, statement, formats);
    case OpClose(target) => CloseSupplies(s, target);
    case OpFinishBind => FinishBindSupplies(s);
    case OpFinishDescription(plan) => FinishDescriptionSupplies(s, plan);
    case OpDiscardFailedEpoch => DiscardSupplies(s);
    case _ => OtherStepsLeaveNames(s, op);
  }

  lemma {:induction false} RunSupplies(ops: seq<Op>)
    ensures Supplied(Run(ops))
  {
    if ops != [] {
      var n := |ops| - 1;
      RunSupplies(ops[..n]);
      StepSupplies(Run(ops[..n]), ops[n]);
    }
  }

  /**
   In every run, a portal bound to a statement with a plan on record has one, and so has
   every queued Execute that still runs the portal's binding: whichever of Bind, Describe's
   answer, BindComplete and Execute came first.
   */
  lemma DescribedPortalsAreServed(ops: seq<Op>, portal: Name)
    requires |ops| <= U64_MAX && portal in Run(ops).portalStatement
    requires Run(ops).portalStatement[portal] in Run(ops).statementPlans
    ensures var s := Run(ops);
            && portal in s.portalPlans
            && forall e :: e in s.executes && e.name == portal && e.bindGeneration == BindGeneration(s, portal) ==>
                 e.plan.Some?
  {
    RunSupplies(ops);
    OwnersHideNothing(ops);
  }

  lemma BindCompleteFillsNothing(s: State, plans: map<Name, Plan>)
    requires HidesNothing(s) && forall p :: p in plans ==> p in s.portalPlans && plans[p] == s.portalPlans[p]
    ensures Install(s, plans).executes == s.executes && Install(s, plans).portalPlans == s.portalPlans
  {
    var t := Install(s, plans);
    forall i | 0 <= i < |s.executes| ensures t.executes[i] == s.executes[i] {
      assert s.executes[i] in s.executes;
    }
    assert t.executes == s.executes;
  }

  /** In every run, a BindComplete finds every plan it could supply already supplied: all it can do is activate one. */
  lemma BindCompleteSuppliesNothing(ops: seq<Op>)
    requires |ops| <= U64_MAX
    ensures var s, t := Run(ops), FinishBind(Run(ops)); t.executes == s.executes && t.portalPlans == s.portalPlans
  {
    RunSupplies(ops);
    OwnersHideNothing(ops);
    var s := Run(ops);
    if s.binds != [] {
      BindCompleteFillsNothing(s, BindCompletePlans(s, s.binds[0].name));
    }
  }

  // ---- A statement's plan ---------------------------------------------------

  /** From this operation on, the statement's plan is stale. */
  predicate Stales(s: State, op: Op, name: Name)
  {
    || (op.OpInvalidateIfStale? && op.current != s.generation)
    || (op.OpParse? && op.name == name && ChangesText(s, name, op.sql))
    || op == OpClose(Statement(name))
    || (op.OpDiscardFailedEpoch? && FailedEpoch(s).Some? && name in DeadNames(s.parses, FailedEpoch(s).value))
  }

  /** This operation answers a Describe of the statement. */
  predicate DescribesIt(s: State, op: Op, name: Name)
  {
    op.OpFinishDescription? && Answers(s, op, Statement(name), op.plan)
  }

  function StatementPlanAfter(s: State, op: Op, name: Name): Option<Plan>
  {
    if DescribesIt(s, op, name) then Some(op.plan)
    else if Stales(s, op, name) then None
    else Get(s.statementPlans, name)
  }

  lemma ParseCaches(s: State, parsed: Name, sql: Sql, name: Name)
    ensures Get(Parse(s, parsed, sql).statementPlans, name) == StatementPlanAfter(s, OpParse(parsed, sql), name)
  {
  }

  lemma BindCaches(s: State, portal: Name, statement: Name, formats: Formats)
    ensures Bind(s, portal, statement, formats).statementPlans == s.statementPlans
  {
    BoundNames(s, portal, statement, formats);
  }

  lemma CloseCaches(s: State, target: Target, name: Name)
    ensures Get(Close(s, target).statementPlans, name) == StatementPlanAfter(s, OpClose(target), name)
  {
  }

  lemma FinishBindCaches(s: State)
    ensures FinishBind(s).statementPlans == s.statementPlans
  {
  }

  lemma FinishDescriptionCaches(s: State, plan: Plan, name: Name)
    ensures Get(FinishDescription(s, plan).statementPlans, name)
         == StatementPlanAfter(s, OpFinishDescription(plan), name)
  {
    if DescribeIsNext(s) {
      DescribedNames(s, plan);
    } else {
      UndescribedNames(s, plan);
    }
  }

  lemma DiscardCaches(s: State, name: Name)
    ensures Get(DiscardFailedEpoch(s).statementPlans, name) == StatementPlanAfter(s, OpDiscardFailedEpoch, name)
  {
  }

  lemma InvalidateCaches(s: State, current: nat, name: Name)
    ensures Get(InvalidateIfStale(s, current).statementPlans, name)
         == StatementPlanAfter(s, OpInvalidateIfStale(current), name)
  {
  }

  lemma StepCaches(s: State, op: Op, name: Name)
    ensures Get(Step(s, op).statementPlans, name) == StatementPlanAfter(s, op, name)
  {
    match op
    case OpInvalidateIfStale(current) => InvalidateCaches(s, current, name);
    case OpParse(parsed, sql) => ParseCaches(s, parsed, sql, name);
    case OpBind(portal, statement, formats) => BindCaches(s, portal, statement, formats);
    case OpClose(target) => CloseCaches(s, target, name);
    case OpFinishBind => FinishBindCaches(s);
    case OpFinishDescription(plan) => FinishDescriptionCaches(s, plan, name);
    case OpDiscardFailedEpoch => DiscardCaches(s, name);
    case _ => OtherStepsLeaveNames(s, op);
  }

  /** The operation leaves the statement's plan as it is. */
  predicate Spares(s: State, op: Op, name: Name)
  {
    !DescribesIt(s, op, name) && !Stales(s, op, name)
  }

  /** Step `d` answered a Describe of the statement with this plan, and everything since has spared it. */
  ghost predicate CachedAt(ops: seq<Op>, name: Name, plan: Plan, d: nat)
  {
    && d < |ops| && Answers(Run(ops[..d]), ops[d], Statement(name), plan)
    && forall j :: d < j < |ops| ==> Spares(Run(ops[..j]), ops[j], name)
  }

  lemma {:induction false} CachedOneStepMore(before: seq<Op>, op: Op, name: Name, plan: Plan, d: nat)
    ensures CachedAt(before + [op], name, plan, d) <==>
              if d < |before|
              then CachedAt(before, name, plan, d) && Spares(Run(before), op, name)
              else d == |before| && Answers(Run(before), op, Statement(name), plan)
  {
    var ops := before + [op];
    assert ops[..|before|] == before && ops[|before|] == op;
    assert forall j :: 0 <= j <= |before| ==> ops[..j] == before[..j];
    assert forall j :: 0 <= j < |before| ==> ops[j] == before[j];
  }

  /**
   A statement's plan is on record, over every run, exactly since the answer to a Describe
   of it, for as long as no other answer came, the generation did not move, and its text
   was not changed, closed or lost with an error. A Parse of the same text, a refresh to
   the same generation, and whatever concerns other names leave it.
   */
  lemma {:induction false} PlansAreCachedExactlySince(ops: seq<Op>, name: Name, plan: Plan)
    ensures Get(Run(ops).statementPlans, name) == Some(plan) <==> exists d: nat :: CachedAt(ops, name, plan, d)
  {
    if ops != [] {
      var n := |ops| - 1;
      var before, op := ops[..n], ops[n];
      assert before + [op] == ops;
      PlansAreCachedExactlySince(before, name, plan);
      StepCaches(Run(before), op, name);
      forall d: nat
        ensures CachedAt(ops, name, plan, d) <==>
                  if d < n
                  then CachedAt(before, name, plan, d) && Spares(Run(before), op, name)
                  else d == n && Answers(Run(before), op, Statement(name), plan)
      {
        CachedOneStepMore(before, op, name, plan, d);
      }
      if DescribesIt(Run(before), op, name) {
        assert CachedAt(ops, name, op.plan, n) by { CachedOneStepMore(before, op, name, op.plan, n); }
      } else if d: nat :| CachedAt(before, name, plan, d) {
        assert d < n;
      }
    }
  }

  // ---- A portal -------------------------------------------------------------

  /** The operation concerns the portal, or the statement it is bound to. */
  predicate Concerns(s: State, op: Op, portal: Name)
  {
    || (op.OpInvalidateIfStale? && op.current != s.generation)
    || (op.OpBind? && op.portal == portal)
    || (op.OpFinishBind? && s.binds != [] && s.binds[0].name == portal)
    || op == OpClose(Portal(portal))
    || (op.OpDiscardFailedEpoch? && FailedEpoch(s).Some? && portal in DeadNames(s.binds, FailedEpoch(s).value))
    || (op.OpFinishDescription? && Answers(s, op, Portal(portal), op.plan))
    || (portal in s.portalStatement && ConcernsItsStatement(s, op, s.portalStatement[portal]))
  }

  predicate ConcernsItsStatement(s: State, op: Op, statement: Name)
  {
    || (op.OpParse? && op.name == statement && ChangesText(s, statement, op.sql))
    || op == OpClose(Statement(statement))
    || (op.OpFinishDescription? && Answers(s, op, Statement(statement), op.plan))
  }

  /** Binding, formats, plan and counter of the portal. */
  predicate SamePortal(s: State, t: State, portal: Name)
  {
    && Get(t.portalStatement, portal) == Get(s.portalStatement, portal)
    && Get(t.portalFormats, portal) == Get(s.portalFormats, portal)
    && Get(t.portalPlans, portal) == Get(s.portalPlans, portal)
    && Get(t.bindGenerations, portal) == Get(s.bindGenerations, portal)
  }

  lemma ParseSpares(s: State, name: Name, sql: Sql, portal: Name)
    requires !Concerns(s, OpParse(name, sql), portal)
    ensures SamePortal(s, Parse(s, name, sql), portal)
  {
    if ChangesText(s, name, sql) {
      assert portal !in BoundTo(s, name);
      ForgettingSpares(s, name, portal);
    }
  }

  lemma ForgettingSpares(s: State, name: Name, portal: Name)
    requires portal !in BoundTo(s, name)
    ensures SamePortal(s, ForgetText(s, name), portal)
  {
  }

  lemma BindSpares(s: State, bound: Name, statement: Name, formats: Formats, portal: Name)
    requires bound != portal
    ensures SamePortal(s, Bind(s, bound, statement, formats), portal)
  {
    BoundNames(s, bound, statement, formats);
  }

  lemma CloseSpares(s: State, target: Target, portal: Name)
    requires !Concerns(s, OpClose(target), portal)
    ensures SamePortal(s, Close(s, target), portal)
  {
  }

  lemma FinishBindSpares(s: State, portal: Name)
    requires !Concerns(s, OpFinishBind, portal)
    ensures SamePortal(s, FinishBind(s), portal)
  {
    if s.binds != [] {
      InstallNames(s, BindCompletePlans(s, s.binds[0].name));
    }
  }

  lemma FinishDescriptionSpares(s: State, plan: Plan, portal: Name)
    requires !Concerns(s, OpFinishDescription(plan), portal)
    ensures SamePortal(s, FinishDescription(s, plan), portal)
  {
    if DescribeIsNext(s) {
      DescribedNames(s, plan);
      assert portal !in DescribedPlans(s, s.descriptions[0].target, plan);
    } else {
      UndescribedNames(s, plan);
    }
  }

  lemma DiscardSpares(s: State, portal: Name)
    requires !Concerns(s, OpDiscardFailedEpoch, portal)
    ensures SamePortal(s, DiscardFailedEpoch(s), portal)
  {
    var failed := FailedEpoch(s);
    if failed.Some? {
      DiscardEpochSpares(s, failed.value, portal);
    }
  }

  lemma DiscardEpochSpares(s: State, failed: nat, portal: Name)
    requires portal !in DeadNames(s.binds, failed)
    ensures SamePortal(s, DiscardEpoch(s, failed), portal)
  {
  }

  lemma OthersKeepCounters(s: State, op: Op)
    requires !TouchesNames(op)
    ensures Step(s, op).bindGenerations == s.bindGenerations
  {
    match op
    case OpExecute(portal) => assert Execute(s, portal).bindGenerations == s.bindGenerations;
    case OpFinishSuppressedEpoch(epoch) => assert FinishSuppressedEpoch(s, epoch).bindGenerations == s.bindGenerations;
    case _ =>
  }

  lemma StepSpares(s: State, op: Op, portal: Name)
    requires !Concerns(s, op, portal)
    ensures SamePortal(s, Step(s, op), portal)
  {
    match op
    case OpParse(name, sql) => ParseSpares(s, name, sql, portal);
    case OpBind(bound, statement, formats) => BindSpares(s, bound, statement, formats, portal);
    case OpClose(target) => CloseSpares(s, target, portal);
    case OpFinishBind => FinishBindSpares(s, portal);
    case OpFinishDescription(plan) => FinishDescriptionSpares(s, plan, portal);
    case OpDiscardFailedEpoch => DiscardSpares(s, portal);
    case OpInvalidateIfStale(_) =>
    case _ => OtherStepsLeaveNames(s, op); OthersKeepCounters(s, op);
  }

  /** Nothing in this continuation of the run concerns the portal. */
  ghost predicate Unconcerned(ops: seq<Op>, more: seq<Op>, portal: Name)
  {
    forall j :: 0 <= j < |more| ==> !Concerns(Run(ops + more[..j]), more[j], portal)
  }

  lemma {:induction false} UnconcernedSoFar(ops: seq<Op>, before: seq<Op>, op: Op, portal: Name)
    requires Unconcerned(ops, before + [op], portal)
    ensures Unconcerned(ops, before, portal) && !Concerns(Run(ops + before), op, portal)
  {
    var more := before + [op];
    assert more[..|before|] == before && more[|before|] == op;
    forall j | 0 <= j < |before| ensures !Concerns(Run(ops + before[..j]), before[j], portal) {
      assert before[..j] == more[..j] && before[j] == more[j];
    }
  }

  /** A portal keeps its binding, formats, plan and counter through every run that does not concern it. */
  lemma {:induction false} UnconcernedPortalsAreLeftAlone(ops: seq<Op>, more: seq<Op>, portal: Name)
    requires Unconcerned(ops, more, portal)
    ensures SamePortal(Run(ops), Run(ops + more), portal)
    decreases |more|
  {
    if more == [] {
      assert ops + more == ops;
    } else {
      var n := |more| - 1;
      var before, op := more[..n], more[n];
      assert before + [op] == more && ops + more == (ops + before) + [op];
      UnconcernedSoFar(ops, before, op, portal);
      UnconcernedPortalsAreLeftAlone(ops, before, portal);
      RunExtends(ops + before, op);
      StepSpares(Run(ops + before), op, portal);
    }
  }

  /** Nothing on record for the portal. */
  predicate Released(s: State, portal: Name)
  {
    portal !in s.portalStatement && portal !in s.portalFormats && portal !in s.portalPlans
  }

  /** Closing this releases the portal. */
  predicate Releases(s: State, target: Target, portal: Name)
  {
    target == Portal(portal) || (target.Statement? && Get(s.portalStatement, portal) == Some(target.name))
  }

  lemma CloseReleases(s: State, target: Target, portal: Name)
    requires Releases(s, target, portal)
    ensures var t := Close(s, target);
            Released(t, portal) && t.executes == s.executes && t.bindGenerations == s.bindGenerations
  {
  }

  lemma ClosingStep(s: State, target: Target)
    ensures Step(s, OpClose(target)) == Close(s, target)
  {
  }

  /**
   Closing a portal, or the statement it is bound to, releases it: through whatever does not
   concern it, it has no binding, formats or plan, an Execute of it gets none, and its bind
   counter is kept. What is queued already keeps its plan (`PlanStability`).
   */
  lemma ClosedPortalsAreReleased(ops: seq<Op>, target: Target, more: seq<Op>, portal: Name)
    requires Releases(Run(ops), target, portal) && Unconcerned(ops + [OpClose(target)], more, portal)
    ensures var t := Run(ops + [OpClose(target)] + more);
            && Released(t, portal) && NewExecute(t, portal).plan == None
            && BindGeneration(t, portal) == BindGeneration(Run(ops), portal)
  {
    RunExtends(ops, OpClose(target));
    ClosingStep(Run(ops), target);
    CloseReleases(Run(ops), target, portal);
    UnconcernedPortalsAreLeftAlone(ops + [OpClose(target)], more, portal);
  }

  // ---- The formats a Bind chose ---------------------------------------------

  /** A bound portal has formats on record exactly while it has a counter. */
  ghost predicate FormatsWithCounters(s: State)
  {
    forall p :: p in s.portalStatement ==> (p in s.portalFormats <==> p in s.bindGenerations)
  }

  lemma ParseKeepsFormats(s: State, name: Name, sql: Sql)
    requires FormatsWithCounters(s)
    ensures FormatsWithCounters(Parse(s, name, sql))
  {
  }

  lemma BindKeepsFormats(s: State, portal: Name, statement: Name, formats: Formats)
    requires FormatsWithCounters(s)
    ensures FormatsWithCounters(Bind(s, portal, statement, formats))
  {
    BoundNames(s, portal, statement, formats);
  }

  lemma CloseKeepsFormats(s: State, target: Target)
    requires FormatsWithCounters(s)
    ensures FormatsWithCounters(Close(s, target))
  {
  }

  lemma FinishBindKeepsFormats(s: State)
    requires FormatsWithCounters(s)
    ensures FormatsWithCounters(FinishBind(s))
  {
    if s.binds != [] {
      InstallNames(s, BindCompletePlans(s, s.binds[0].name));
    }
  }

  lemma FinishDescriptionKeepsFormats(s: State, plan: Plan)
    requires FormatsWithCounters(s)
    ensures FormatsWithCounters(FinishDescription(s, plan))
  {
    if DescribeIsNext(s) {
      DescribedNames(s, plan);
    } else {
      UndescribedNames(s, plan);
    }
  }

  lemma DiscardKeepsFormats(s: State)
    requires FormatsWithCounters(s)
    ensures FormatsWithCounters(DiscardFailedEpoch(s))
  {
  }

  lemma StepKeepsFormats(s: State, op: Op)
    requires FormatsWithCounters(s)
    ensures FormatsWithCounters(Step(s, op))
  {
    match op
    case OpParse(name, sql) => ParseKeepsFormats(s, name, sql);
    case OpBind(portal, statement, formats) => BindKeepsFormats(s, portal, statement, formats);
    case OpClose(target) => CloseKeepsFormats(s, target);
    case OpFinishBind => FinishBindKeepsFormats(s);
    case OpFinishDescription(plan) => FinishDescriptionKeepsFormats(s, plan);
    case OpDiscardFailedEpoch => DiscardKeepsFormats(s);
    case OpInvalidateIfStale(_) =>
    case _ => OtherStepsLeaveNames(s, op); OthersKeepCounters(s, op);
  }

  lemma {:induction false} RunKeepsFormats(ops: seq<Op>)
    ensures FormatsWithCounters(Run(ops))
  {
    if ops != [] {
      var n := |ops| - 1;
      RunKeepsFormats(ops[..n]);
      StepKeepsFormats(Run(ops[..n]), ops[n]);
    }
  }

  lemma LastBindsFormats(ops: seq<Op>, at: seq<World>, portal: Name)
    requires Faithful(ops, at) && BoundByLastBind(at[|ops|].s, at[|ops|].h)
    requires portal in at[|ops|].s.portalStatement && portal in at[|ops|].s.bindGenerations
    ensures var s := at[|ops|].s;
            && portal in s.portalFormats
            && exists b: nat :: BoundAt(ops, b, |ops|, portal, s.portalStatement[portal], s.portalFormats[portal])
  {
    var s, b := at[|ops|].s, at[|ops|].h.lastBind[portal];
    assert BindIsReal(ops, at, portal, b, |ops|);
    assert BoundAt(ops, b.step, |ops|, portal, s.portalStatement[portal], s.portalFormats[portal]);
  }

  /**
   In every run a bound portal has formats on record exactly while it has a generation, that
   is, until its statement's text changes; and they are those of its last Bind.
   */
  lemma FormatsAreTheLastBinds(ops: seq<Op>, portal: Name)
    requires |ops| <= U64_MAX && portal in Run(ops).portalStatement
    ensures var s := Run(ops);
            && (portal in s.portalFormats <==> BindGeneration(s, portal) >= 1)
            && (portal in s.portalFormats ==> exists b: nat ::
                  BoundAt(ops, b, |ops|, portal, s.portalStatement[portal], s.portalFormats[portal]))
  {
    RunKeepsFormats(ops);
    RunReaches(ops);
    if portal in Run(ops).bindGenerations {
      LastBindsFormats(ops, Worlds(ops), portal);
    }
  }

  // ---- The generation -------------------------------------------------------

  /** Step `k` was the last to tell the session of a generation. */
  ghost predicate LastTold(ops: seq<Op>, k: nat)
  {
    && k < |ops| && ops[k].OpInvalidateIfStale?
    && forall j :: k < j < |ops| ==> !ops[j].OpInvalidateIfStale?
  }

  lemma BindKeepsGeneration(s: State, portal: Name, statement: Name, formats: Formats)
    ensures Bind(s, portal, statement, formats).generation == s.generation
  {
  }

  lemma FinishBindKeepsGeneration(s: State)
    ensures FinishBind(s).generation == s.generation
  {
  }

  lemma FinishDescriptionKeepsGeneration(s: State, plan: Plan)
    ensures FinishDescription(s, plan).generation == s.generation
  {
  }

  lemma ParseKeepsGeneration(s: State, name: Name, sql: Sql)
    ensures Parse(s, name, sql).generation == s.generation
  {
  }

  lemma ExecuteKeepsGeneration(s: State, portal: Name)
    ensures Execute(s, portal).generation == s.generation
  {
  }

  lemma DiscardKeepsGeneration(s: State)
    ensures DiscardFailedEpoch(s).generation == s.generation
  {
  }

  lemma SimpleStepsKeepGeneration(s: State, op: Op)
    requires !IsComposite(op)
    ensures Step(s, op).generation == if op.OpInvalidateIfStale? then op.current else s.generation
  {
  }

  lemma CloseKeepsGeneration(s: State, target: Target)
    ensures Close(s, target).generation == s.generation
  {
  }

  lemma SuppressKeepsGeneration(s: State, epoch: nat)
    ensures FinishSuppressedEpoch(s, epoch).generation == s.generation
  {
  }

  lemma OnlyTellingChangesGeneration(s: State, op: Op)
    ensures Step(s, op).generation == if op.OpInvalidateIfStale? then op.current else s.generation
  {
    match op
    case OpBind(portal, statement, formats) => BindKeepsGeneration(s, portal, statement, formats);
    case OpFinishBind => FinishBindKeepsGeneration(s);
    case OpFinishDescription(plan) => FinishDescriptionKeepsGeneration(s, plan);
    case OpDiscardFailedEpoch => DiscardKeepsGeneration(s);
    case OpParse(name, sql) => ParseKeepsGeneration(s, name, sql);
    case OpExecute(portal) => ExecuteKeepsGeneration(s, portal);
    case OpClose(target) => CloseKeepsGeneration(s, target);
    case OpFinishSuppressedEpoch(epoch) => SuppressKeepsGeneration(s, epoch);
    case _ => SimpleStepsKeepGeneration(s, op);
  }

  /** The generation a session compares with is the one it was told last: each moves its caches once. */
  lemma {:induction false} GenerationIsTheLastTold(ops: seq<Op>, k: nat)
    requires LastTold(ops, k)
    ensures Run(ops).generation == ops[k].current
  {
    var n := |ops| - 1;
    OnlyTellingChangesGeneration(Run(ops[..n]), ops[n]);
    if k < n {
      assert LastTold(ops[..n], k);
      GenerationIsTheLastTold(ops[..n], k);
    }
  }
}
