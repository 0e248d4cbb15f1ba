/**
 The whole-run theorems of the plan lifecycle, stated over the operations of the run
 themselves: for every sequence of client and backend messages, in any interleaving.
 */
module PlanRuns {
  import opened Wrappers
  import opened Sequences
  import opened PlanStateModel
  import opened PlanFormats
  import opened PlanOrder
  import opened PlanHistory
  import opened PlanOrigin

  // ---- Every step keeps the trace invariant ---------------------------------

  predicate OnlyForgets(op: Op)
  {
    !(op.OpInvalidateIfStale? || op.OpParse? || op.OpBind? || op.OpExecute? || op.OpFinishBind?
      || op.OpFinishDescription?)
  }

  lemma QueueOpForgets(s: State, t: State)
    requires t.executes == s.executes && s.nextOrder <= t.nextOrder
    requires t.bindGenerations == s.bindGenerations && t.statementPlans == s.statementPlans
    requires t.portalPlans == s.portalPlans && t.portalStatement == s.portalStatement
    requires t.portalFormats == s.portalFormats
    ensures Forgets(s, t)
  {
    TailSurvives(s.executes, s.executes);
    SameCacheForgets(s, t);
  }

  predicate OnlyQueues(op: Op)
  {
    op.OpClearActive? || op.OpBeginSimpleQuery? || op.OpDescribe? || op.OpSync? || op.OpFinishParse?
    || op.OpFinishNoData? || op.OpDiscardDescription? || op.OpFinishEmptyQuery?
  }

  lemma QueueStepForgets(s: State, op: Op)
    requires OnlyQueues(op)
    ensures Forgets(s, Step(s, op))
  {
    match op
    case OpClearActive => QueueOpForgets(s, ClearActive(s));
    case OpBeginSimpleQuery(text) => QueueOpForgets(s, BeginSimpleQuery(s, text));
    case OpDescribe(target) => QueueOpForgets(s, DescribeOp(s, target));
    case OpSync => QueueOpForgets(s, Sync(s));
    case OpFinishParse => QueueOpForgets(s, FinishParse(s));
    case OpFinishNoData => QueueOpForgets(s, FinishNoData(s));
    case OpDiscardDescription => QueueOpForgets(s, DiscardDescription(s));
    case OpFinishEmptyQuery => QueueOpForgets(s, FinishEmptyQuery(s));
  }

  lemma StepForgets(s: State, op: Op)
    requires OnlyForgets(op)
    ensures Forgets(s, Step(s, op))
  {
    match op
    case OpSuspendResult => SuspendForgets(s);
    case OpReadyForQuery(status) => ReadyForgets(s, status);
    case OpFinishResultSet => FinishResultSetForgets(s);
    case OpClose(target) => CloseForgets(s, target);
    case OpFinishSuppressedEpoch(epoch) => SuppressForgets(s, epoch);
    case OpDiscardFailedEpoch => DiscardForgets(s);
    case _ => QueueStepForgets(s, op);
  }

  lemma ExecuteKeepsTrace(s: State, h: History, portal: Name, step: nat, n: nat)
    requires Traced(s, h) && Counted(s, n) && n < U64_MAX
    requires forall p :: p in h.resets ==> h.resets[p] < step
    ensures Traced(Execute(s, portal), TrackExecute(s, h, portal, step))
  {
    if IsResume(s, portal) {
      ResumeForgets(s, portal);
      ForgettingKeepsTrace(s, Execute(s, portal), h);
    } else {
      OpenKeepsTrace(s, h, portal, step, n);
    }
  }

  /** Everything on record happened before this step. */
  ghost predicate Dated(h: History, step: nat)
  {
    && (forall p :: p in h.resets ==> h.resets[p] < step)
    && (forall p :: p in h.lastBind ==> h.lastBind[p].step < step)
  }

  lemma EventKeepsTrace(s: State, h: History, op: Op, step: nat, n: nat)
    requires Traced(s, h) && Counted(s, n) && n < U64_MAX && Dated(h, step)
    ensures Traced(Step(s, op), TrackEvent(s, h, op, step))
  {
    if op.OpClose? {
      CloseKeepsTrace(s, h, op.target, step);
    } else if OnlyForgets(op) {
      StepForgets(s, op);
      ForgettingKeepsTrace(s, Step(s, op), h);
    } else {
      match op
      case OpInvalidateIfStale(current) => InvalidateKeepsTrace(s, h, current, step);
      case OpParse(name, sql) => ParseKeepsTrace(s, h, name, sql, step);
      case OpBind(portal, statement, formats) => BindKeepsTrace(s, h, portal, statement, formats, step, n);
      case OpExecute(portal) => ExecuteKeepsTrace(s, h, portal, step, n);
      case OpFinishBind => FinishBindKeepsTrace(s, h);
      case OpFinishDescription(plan) => FinishDescriptionKeepsTrace(s, h, plan, step);
    }
  }

  lemma WorldKeepsTrace(w: World, op: Op, step: nat, n: nat)
    requires Traced(w.s, w.h) && Counted(w.s, n) && n < U64_MAX && Dated(w.h, step)
    ensures Traced(After(w, op, step).s, After(w, op, step).h)
  {
    EventKeepsTrace(w.s, w.h, op, step, n);
    QueueDoesNotMatter(Step(w.s, op), TrackEvent(w.s, w.h, op, step), AskedAfter(w.s, w.h, op, step));
  }

  lemma FaithfulIsDated(ops: seq<Op>, at: seq<World>)
    requires Faithful(ops, at)
    ensures Dated(at[|ops|].h, |ops|)
  {
    forall p | p in at[|ops|].h.lastBind ensures at[|ops|].h.lastBind[p].step < |ops| {
      assert BindIsReal(ops, at, p, at[|ops|].h.lastBind[p], |ops|);
    }
  }

  lemma {:induction false} RunIsTraced(ops: seq<Op>)
    requires |ops| <= U64_MAX
    ensures Traced(Run(ops), HistoryOf(ops))
  {
    WorldsAreRuns(ops, |ops|);
    assert ops[..|ops|] == ops;
    if ops != [] {
      var n := |ops| - 1;
      RunIsTraced(ops[..n]);
      QueuesStayInOrder(ops[..n]);
      HistoryIsFaithful(ops[..n]);
      FaithfulIsDated(ops[..n], Worlds(ops[..n]));
      WorldsAreRuns(ops[..n], n);
      assert ops[..n][..n] == ops[..n];
      WorldKeepsTrace(Worlds(ops[..n])[n], ops[n], n, n);
    }
  }

  // ---- Reading the run ------------------------------------------------------

  /** Step `g` drops the cached plans because the catalog or policy generation moved. */
  predicate RefreshesAt(ops: seq<Op>, at: seq<World>, g: nat)
    requires |at| == |ops| + 1
  {
    g < |ops| && ops[g].OpInvalidateIfStale? && at[g].s.generation != ops[g].current
  }

  ghost predicate ErasCountRefreshes(ops: seq<Op>, at: seq<World>)
    requires |at| == |ops| + 1
  {
    forall g: nat :: g < |ops| ==>
      at[g + 1].h.era == at[g].h.era + if RefreshesAt(ops, at, g) then 1 else 0
  }

  /** `at[j]` is the world before step `j` of a real run, and its history is trustworthy. */
  ghost predicate Reached(ops: seq<Op>, at: seq<World>)
  {
    |at| == |ops| + 1 && Faithful(ops, at) && ErasCountRefreshes(ops, at)
    && Traced(at[|ops|].s, at[|ops|].h)
  }

  lemma {:induction false} EraGrows(ops: seq<Op>, at: seq<World>, i: nat, j: nat)
    requires |at| == |ops| + 1 && ErasCountRefreshes(ops, at) && i <= j <= |ops|
    ensures at[i].h.era <= at[j].h.era
    ensures (exists g: nat :: i <= g < j && RefreshesAt(ops, at, g)) ==> at[i].h.era < at[j].h.era
    decreases j
  {
    if i < j {
      EraGrows(ops, at, i, j - 1);
      assert at[j - 1 + 1].h.era == at[j - 1].h.era + if RefreshesAt(ops, at, j - 1) then 1 else 0;
    }
  }

  lemma TrackCountsRefresh(s: State, h: History, op: Op, step: nat)
    ensures Track(s, h, op, step).era
         == h.era + if op.OpInvalidateIfStale? && s.generation != op.current then 1 else 0
  {
  }

  lemma ChainCountsRefreshes(ops: seq<Op>, at: seq<World>)
    requires Chained(ops, at)
    ensures ErasCountRefreshes(ops, at)
  {
    forall g: nat | g < |ops|
      ensures at[g + 1].h.era == at[g].h.era + if RefreshesAt(ops, at, g) then 1 else 0
    {
      TrackCountsRefresh(at[g].s, at[g].h, ops[g], g);
    }
  }

  lemma RunReaches(ops: seq<Op>)
    requires |ops| <= U64_MAX
    ensures Reached(ops, Worlds(ops)) && Worlds(ops)[|ops|] == World(Run(ops), HistoryOf(ops))
  {
    RunIsTraced(ops);
    HistoryIsFaithful(ops);
    WorldsAreRuns(ops, |ops|);
    assert ops[..|ops|] == ops;
    ChainCountsRefreshes(ops, Worlds(ops));
  }

  // ---- Bind generations -----------------------------------------------------

  /** Step `i` opened the result set that `e` owns, under the generation it still carries. */
  ghost predicate IssuedAt(ops: seq<Op>, at: seq<World>, i: nat, e: PendingExecute)
    requires |at| == |ops| + 1
  {
    i < |ops| && Opens(at[i].s, ops[i], e.name) && at[i].s.nextOrder == e.order
    && BindGeneration(at[i].s, e.name) == e.bindGeneration
  }

  /** No Bind of the portal and no reset of its counter after step `i`. */
  ghost predicate Untouched(ops: seq<Op>, at: seq<World>, portal: Name, i: nat)
    requires |at| == |ops| + 1
  {
    NoBindBetween(ops, portal, i, |ops|)
    && forall j :: i < j < |ops| ==> !Resets(at[j].s, ops[j], portal)
  }

  lemma FreshIn(ops: seq<Op>, at: seq<World>, e: PendingExecute)
    requires Reached(ops, at) && e in at[|ops|].s.executes
    requires e.bindGeneration >= 1 && e.bindGeneration == BindGeneration(at[|ops|].s, e.name)
    ensures exists i: nat :: IssuedAt(ops, at, i, e) && Untouched(ops, at, e.name, i)
  {
    var h := at[|ops|].h;
    assert StillCurrent(h, e);
    var issue := h.issues[e.order];
    assert IssueIsReal(ops, at, issue, e.order);
    assert IssuedAt(ops, at, issue.step, e) && Untouched(ops, at, e.name, issue.step);
  }

  /**
   Bind-generation freshness. In every run, a queued Execute whose generation is on
   record and still matches its portal's counter has seen neither a Bind of that name
   nor a counter reset since it was issued, although a re-Parse resets counters and
   Close keeps them.
   */
  lemma MatchingGenerationIsFresh(ops: seq<Op>, e: PendingExecute)
    requires |ops| <= U64_MAX && e in Run(ops).executes
    requires e.bindGeneration >= 1 && e.bindGeneration == BindGeneration(Run(ops), e.name)
    ensures exists i: nat :: IssuedAt(ops, Worlds(ops), i, e) && Untouched(ops, Worlds(ops), e.name, i)
  {
    RunReaches(ops);
    FreshIn(ops, Worlds(ops), e);
  }

  /** The portal was bound, and the text of its statement has not changed since while it stayed bound. */
  ghost predicate BoundSince(ops: seq<Op>, at: seq<World>, portal: Name, b: nat)
    requires |at| == |ops| + 1
  {
    && b < |ops| && ops[b].OpBind? && ops[b].portal == portal
    && forall j :: b <= j < |ops| ==> !Resets(at[j].s, ops[j], portal)
  }

  lemma {:induction false} OnRecordIn(ops: seq<Op>, at: seq<World>, portal: Name)
    requires Faithful(ops, at) && CountersOnRecord(at[|ops|].s, at[|ops|].h)
    ensures portal in at[|ops|].s.bindGenerations <==> exists b: nat :: BoundSince(ops, at, portal, b)
  {
    var h := at[|ops|].h;
    if portal in h.lastBind {
      assert BindIsReal(ops, at, portal, h.lastBind[portal], |ops|);
      if portal in at[|ops|].s.bindGenerations {
        assert BoundSince(ops, at, portal, h.lastBind[portal].step);
      }
    }
  }

  /**
   What a generation on record means: in every run a portal has one exactly when it was
   bound and no re-Parse has changed its statement's text under it since.
   */
  lemma GenerationMeansTheTextIsUnchanged(ops: seq<Op>, portal: Name)
    requires |ops| <= U64_MAX
    ensures BindGeneration(Run(ops), portal) >= 1 <==> exists b: nat :: BoundSince(ops, Worlds(ops), portal, b)
  {
    RunReaches(ops);
    OnRecordIn(ops, Worlds(ops), portal);
  }

  // ---- Plan origin and refresh isolation ------------------------------------

  /** Step `b` is the Bind in force at step `i`: the last one of that portal name before it. */
  ghost predicate BoundAt(ops: seq<Op>, b: nat, i: nat, portal: Name, statement: Name, formats: Formats)
  {
    b < i <= |ops| && ops[b] == OpBind(portal, statement, formats) && NoBindBetween(ops, portal, b, i)
  }

  /**
   Issued at step `i`, with the plan that step `d` described in answer to the Describe
   of step `asked`: the answer came after every refresh before `i`.
   */
  ghost predicate PlannedBy(ops: seq<Op>, at: seq<World>, e: PendingExecute,
                            i: nat, asked: nat, d: nat, target: Target, described: Plan)
    requires |at| == |ops| + 1
  {
    && e.plan.Some? && IssuedAt(ops, at, i, e) && AnsweredAt(ops, at, asked, d, target, described)
    && ((target == Portal(e.name) && e.plan.value == described)
        || (target.Statement? && Restamps(e.plan.value, described)))
    && forall g: nat :: g < i && RefreshesAt(ops, at, g) ==> g < d
  }

  /** This record is the origin of the Execute's plan. */
  ghost predicate IsOrigin(h: History, e: PendingExecute, a: Answer)
  {
    && e.plan.Some? && e.order in h.issues && h.issues[e.order].name == e.name
    && h.issues[e.order].generation == e.bindGeneration && a in h.answers
    && a.era >= h.issues[e.order].era && AnswersBinding(h.issues[e.order], a, e.plan.value)
  }

  lemma OriginExists(s: State, h: History, e: PendingExecute) returns (a: Answer)
    requires ExecutesTraced(s, h) && e in s.executes && e.plan.Some?
    ensures IsOrigin(h, e, a)
  {
    assert ExecuteTraced(s, h, e);
    a :| a in h.answers && a.era >= h.issues[e.order].era && AnswersBinding(h.issues[e.order], a, e.plan.value);
  }

  lemma OriginIsPlannedBy(ops: seq<Op>, at: seq<World>, e: PendingExecute, a: Answer)
    requires Reached(ops, at) && IsOrigin(at[|ops|].h, e, a)
    ensures PlannedBy(ops, at, e, at[|ops|].h.issues[e.order].step, a.asked, a.step, a.target, a.plan)
  {
    var issue := at[|ops|].h.issues[e.order];
    assert IssueIsReal(ops, at, issue, e.order) && AnswerIsReal(ops, at, a);
    forall g: nat | g < issue.step && RefreshesAt(ops, at, g) ensures g < a.step {
      if a.step <= g { EraGrows(ops, at, a.step, issue.step); }
    }
  }

  /**
   Plan origin and refresh isolation for every Execute. In every run, the plan of a queued
   Execute, up to the formats a Bind chose, is the answer to a Describe of its portal or
   of a statement, never a simple query's plan; and that answer came after every catalog
   refresh that preceded the Execute.
   */
  lemma EveryPlanAnswersADescribe(ops: seq<Op>, e: PendingExecute)
    requires |ops| <= U64_MAX && e in Run(ops).executes && e.plan.Some?
    ensures exists i: nat, asked: nat, d: nat, target, plan ::
              PlannedBy(ops, Worlds(ops), e, i, asked, d, target, plan)
  {
    RunReaches(ops);
    var a := OriginExists(Run(ops), HistoryOf(ops), e);
    OriginIsPlannedBy(ops, Worlds(ops), e, a);
  }

  // ---- Cached plans ---------------------------------------------------------

  /** The Describe was answered at step `d`, after the last refresh of the run. */
  ghost predicate AnsweredSinceRefresh(ops: seq<Op>, at: seq<World>, d: nat, target: Target, plan: Plan)
    requires |at| == |ops| + 1
  {
    d < |ops| && Answers(at[d].s, ops[d], target, plan) && forall g: nat :: d < g ==> !RefreshesAt(ops, at, g)
  }

  lemma CurrentAnswer(ops: seq<Op>, at: seq<World>, a: Answer)
    requires Reached(ops, at) && a in at[|ops|].h.answers && a.era == at[|ops|].h.era
    ensures AnsweredSinceRefresh(ops, at, a.step, a.target, a.plan)
    ensures Undisturbed(ops, at, a.target, a.step, |ops|) <==> a.answeredUnder == InForce(at[|ops|].h, a.target)
  {
    assert AnswerIsReal(ops, at, a);
    EraGrows(ops, at, a.step, |ops|);
    InForceIsTheLastEvent(ops, at, a.target, a.step);
    InForceIsTheLastEvent(ops, at, a.target, |ops|);
    LastEventsAgree(ops, at, a.target, a.step, |ops|);
  }

  /** A statement's cached plan answers a Describe of it since the last refresh and the last change of its text. */
  ghost predicate StatementPlanIsCurrent(ops: seq<Op>, at: seq<World>, name: Name, plan: Plan)
    requires |at| == |ops| + 1
  {
    exists d: nat ::
      AnsweredSinceRefresh(ops, at, d, Statement(name), plan) && Undisturbed(ops, at, Statement(name), d, |ops|)
  }

  /** A portal's answers one of it since the last refresh and the last Bind, or is its statement's, stamped. */
  ghost predicate PortalPlanIsCurrent(ops: seq<Op>, at: seq<World>, portal: Name, plan: Plan)
    requires |at| == |ops| + 1
  {
    var s := at[|ops|].s;
    || (exists d: nat ::
          AnsweredSinceRefresh(ops, at, d, Portal(portal), plan) && Undisturbed(ops, at, Portal(portal), d, |ops|))
    || (portal in s.portalStatement && exists d: nat, described ::
          AnsweredSinceRefresh(ops, at, d, Statement(s.portalStatement[portal]), described)
          && InFormats(plan, described, FormatsOf(s, portal)))
  }

  lemma CachesIn(ops: seq<Op>, at: seq<World>, name: Name)
    requires Reached(ops, at)
    ensures var s := at[|ops|].s;
            && (name in s.statementPlans ==> StatementPlanIsCurrent(ops, at, name, s.statementPlans[name]))
            && (name in s.portalPlans ==> PortalPlanIsCurrent(ops, at, name, s.portalPlans[name]))
  {
    var s, h := at[|ops|].s, at[|ops|].h;
    if name in s.statementPlans {
      assert StatementOrigin(h, name, s.statementPlans[name]);
      var a :| a in h.answers && a.era == h.era && a.target == Statement(name) && a.plan == s.statementPlans[name]
               && a.answeredUnder == Get(h.texts, name);
      CurrentAnswer(ops, at, a);
    }
    if name in s.portalPlans {
      assert PortalOrigin(s, h, name, s.portalPlans[name]);
      var a :| a in h.answers && a.era == h.era && FromAnswer(s, h, a, name, s.portalPlans[name]);
      StampedExactly(s.portalPlans[name], a.plan, FormatsOf(s, name));
      CurrentAnswer(ops, at, a);
    }
  }

  /**
   Refresh isolation of the caches. In every run, every cached statement plan was described
   after the last generation change and the last change of the statement's text, and every
   cached portal plan after the last generation change and, unless it is its statement's,
   the last Bind of the portal.
   */
  lemma CachedPlansFollowTheLastRefresh(ops: seq<Op>, name: Name)
    requires |ops| <= U64_MAX
    ensures var s := Run(ops);
            && (name in s.statementPlans ==>
                  StatementPlanIsCurrent(ops, Worlds(ops), name, s.statementPlans[name]))
            && (name in s.portalPlans ==>
                  PortalPlanIsCurrent(ops, Worlds(ops), name, s.portalPlans[name]))
  {
    RunReaches(ops);
    CachesIn(ops, Worlds(ops), name);
  }

  // ---- Streaming ------------------------------------------------------------

  lemma OwnerStreamsItsSnapshot(s: State, h: History)
    requires ExecutesTraced(s, h)
    ensures s.executes != [] && !s.streamingSimple ==> StreamingPlan(s) == s.executes[0].plan
  {
    if s.executes != [] {
      assert ExecuteTraced(s, h, s.executes[0]);
    }
  }

  /**
   The plan that governs the next DataRow of an Execute is exactly the owner's own
   snapshot: the fallback to the portal cache never supplies anything different.
   */
  lemma StreamingPlanIsTheSnapshot(ops: seq<Op>)
    requires |ops| <= U64_MAX
    ensures var s := Run(ops);
            s.executes != [] && !s.streamingSimple ==> StreamingPlan(s) == s.executes[0].plan
  {
    RunIsTraced(ops);
    OwnerStreamsItsSnapshot(Run(ops), HistoryOf(ops));
  }

  /**
   PortalSuspended with others queued: from that moment the stream belongs to the next
   Execute, and its rows go out under that Execute's own snapshot.
   */
  lemma SuspensionHandsOver(ops: seq<Op>)
    requires |ops| < U64_MAX && |Run(ops).executes| > 1 && !Run(ops).streamingSimple
    ensures var paused := SuspendResult(Run(ops));
            && !paused.suspended && paused.executes == Run(ops).executes[1..]
            && StreamingPlan(paused) == Run(ops).executes[1].plan
  {
    var s := Run(ops);
    RunIsTraced(ops);
    SuspendForgets(s);
    ForgettingKeepsExecutes(s, SuspendResult(s), HistoryOf(ops));
    OwnerStreamsItsSnapshot(SuspendResult(s), HistoryOf(ops));
  }

  lemma HeadWasAsked(ops: seq<Op>, at: seq<World>) returns (j: nat)
    requires Faithful(ops, at) && DescribeIsNext(at[|ops|].s)
    ensures var target := at[|ops|].s.descriptions[0].target;
            && j < |ops| && ops[j] == OpDescribe(target)
            && DescribedSql(at[|ops|].s) == TargetSql(at[j].s, target)
  {
    var q := at[|ops|].h.asked[0];
    assert q in at[|ops|].h.asked && AskedIsReal(ops, at, q);
    j := q.step;
  }

  /**
   What a description is judged by is the text on record for its target when the Describe
   was sent; for a portal, the text its statement had by then.
   */
  lemma DescribedTextIsTheTextAsked(ops: seq<Op>)
    requires DescribeIsNext(Run(ops))
    ensures exists j: nat :: j < |ops| && ops[j] == OpDescribe(Run(ops).descriptions[0].target)
              && DescribedSql(Run(ops)) == TargetSql(Run(ops[..j]), Run(ops).descriptions[0].target)
  {
    HistoryIsFaithful(ops);
    WorldsAreRuns(ops, |ops|);
    assert ops[..|ops|] == ops;
    var j := HeadWasAsked(ops, Worlds(ops));
    WorldsAreRuns(ops, j);
  }
}
