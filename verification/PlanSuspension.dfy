/**
 A paused result. PortalSuspended pauses the Execute whose rows were streaming; who owns
 the rows that come next depends on what the client executes, over every run.
 */
module PlanSuspension {
  import opened Wrappers
  import opened PlanStateModel
  import opened PlanOrder
  import opened PlanHistory
  import opened PlanOrigin
  import opened PlanRuns
  import opened PlanStability

  /** What ends a pause: an Execute, the end of a result, an error, a refusal, or the end of the transaction. */
  predicate EndsPause(s: State, op: Op)
  {
    || op.OpExecute? || op.OpDiscardFailedEpoch? || op.OpFinishSuppressedEpoch?
    || (op.OpFinishResultSet? && !s.streamingSimple)
    || op == OpReadyForQuery(IDLE)
  }

  /** The operations that are not just a few fields changed. */
  predicate IsComposite(op: Op)
  {
    op.OpParse? || op.OpBind? || op.OpClose? || op.OpExecute? || op.OpFinishBind? || op.OpFinishDescription?
    || op.OpFinishSuppressedEpoch? || op.OpDiscardFailedEpoch?
  }

  /** Neither paused nor resumed, and the same Executes queued. */
  predicate SamePause(s: State, t: State)
  {
    && t.suspended == s.suspended && |t.executes| == |s.executes|
    && forall i :: 0 <= i < |t.executes| ==> t.executes[i].order == s.executes[i].order
  }

  lemma InstallKeepsPause(s: State, plans: map<Name, Plan>)
    ensures SamePause(s, Install(s, plans))
  {
  }

  lemma BindKeepsPause(s: State, portal: Name, statement: Name, formats: Formats)
    ensures SamePause(s, Bind(s, portal, statement, formats))
  {
    var base := Rebound(s, portal, statement, formats);
    if statement in s.statementPlans {
      InstallKeepsPause(base, map[portal := Stamp(s.statementPlans[statement], formats)]);
    }
  }

  lemma FinishBindKeepsPause(s: State)
    ensures SamePause(s, FinishBind(s))
  {
    if s.binds != [] {
      InstallKeepsPause(s, BindCompletePlans(s, s.binds[0].name));
    }
  }

  lemma FinishDescriptionKeepsPause(s: State, plan: Plan)
    ensures SamePause(s, FinishDescription(s, plan))
  {
    if DescribeIsNext(s) {
      InstallKeepsPause(Taken(s, plan), DescribedPlans(s, s.descriptions[0].target, plan));
    }
  }

  lemma ParseKeepsPause(s: State, name: Name, sql: Sql)
    ensures SamePause(s, Parse(s, name, sql))
  {
  }

  lemma CloseKeepsPause(s: State, target: Target)
    ensures SamePause(s, Close(s, target))
  {
  }

  lemma SimpleStepsKeepPause(s: State, op: Op)
    requires !op.OpSuspendResult? && !EndsPause(s, op) && !IsComposite(op)
    ensures SamePause(s, Step(s, op))
  {
  }

  lemma OthersKeepPause(s: State, op: Op)
    requires !op.OpSuspendResult? && !EndsPause(s, op)
    ensures SamePause(s, Step(s, op))
  {
    match op
    case OpBind(portal, statement, formats) => BindKeepsPause(s, portal, statement, formats);
    case OpFinishBind => FinishBindKeepsPause(s);
    case OpFinishDescription(plan) => FinishDescriptionKeepsPause(s, plan);
    case OpParse(name, sql) => ParseKeepsPause(s, name, sql);
    case OpClose(target) => CloseKeepsPause(s, target);
    case _ => SimpleStepsKeepPause(s, op);
  }

  lemma ExecuteEndsPause(s: State, portal: Name)
    ensures !Execute(s, portal).suspended
  {
  }

  lemma DiscardEndsPause(s: State, failed: nat)
    ensures !DiscardEpoch(s, failed).suspended
  {
  }

  lemma ErrorEndsPause(s: State)
    ensures !DiscardFailedEpoch(s).suspended
  {
    var failed := FailedEpoch(s);
    if failed.Some? {
      DiscardEndsPause(s, failed.value);
    }
  }

  lemma EndingStep(s: State, op: Op)
    requires EndsPause(s, op)
    ensures !Step(s, op).suspended
  {
    match op
    case OpExecute(portal) => ExecuteEndsPause(s, portal);
    case OpDiscardFailedEpoch => ErrorEndsPause(s);
    case _ =>
  }

  /** With at most one Execute queued, a PortalSuspended starts a pause. */
  lemma SuspendingStep(s: State)
    ensures Step(s, OpSuspendResult).suspended <==> |s.executes| <= 1
    ensures |s.executes| <= 1 ==> Step(s, OpSuspendResult).executes == s.executes
  {
  }

  /** Nothing after step `k` has ended a pause. */
  ghost predicate NotEnded(ops: seq<Op>, k: nat)
  {
    forall j :: k < j < |ops| ==> !EndsPause(Run(ops[..j]), ops[j])
  }

  /** Step `k` was a PortalSuspended with nothing else queued, and nothing since has ended the pause. */
  ghost predicate PausedAt(ops: seq<Op>, k: nat)
  {
    k < |ops| && ops[k].OpSuspendResult? && |Run(ops[..k]).executes| <= 1 && NotEnded(ops, k)
  }

  /** A result is paused: by a PortalSuspended with nothing else queued, since when nothing has ended the pause. */
  ghost predicate Paused(ops: seq<Op>)
  {
    exists k: nat :: PausedAt(ops, k)
  }

  lemma {:induction false} NotEndedOneStepMore(before: seq<Op>, op: Op, k: nat)
    requires k < |before|
    ensures NotEnded(before + [op], k) <==> NotEnded(before, k) && !EndsPause(Run(before), op)
  {
    var ops := before + [op];
    assert ops[..|before|] == before;
    assert forall j :: 0 <= j <= |before| ==> ops[..j] == before[..j];
    if NotEnded(ops, k) {
      assert !EndsPause(Run(ops[..|before|]), ops[|before|]);
    }
  }

  lemma {:induction false} PausedOneStepMore(before: seq<Op>, op: Op, k: nat)
    requires k < |before|
    ensures PausedAt(before + [op], k) <==> PausedAt(before, k) && !EndsPause(Run(before), op)
  {
    NotEndedOneStepMore(before, op, k);
    assert (before + [op])[..k] == before[..k];
  }

  lemma {:induction false} PausedHasOneExecute(ops: seq<Op>)
    requires |ops| <= U64_MAX && Run(ops).suspended
    ensures |Run(ops).executes| <= 1
  {
    QueuesStayInOrder(ops);
  }

  lemma {:induction false} PausedLast(before: seq<Op>, op: Op)
    ensures PausedAt(before + [op], |before|) <==> op.OpSuspendResult? && |Run(before).executes| <= 1
  {
    assert (before + [op])[..|before|] == before;
  }

  lemma {:induction false} PausedAfter(before: seq<Op>, op: Op)
    requires |before| < U64_MAX
    requires Run(before).suspended <==> Paused(before)
    ensures Run(before + [op]).suspended <==> Paused(before + [op])
  {
    RunExtends(before, op);
    PausedLast(before, op);
    forall k: nat | k < |before|
      ensures PausedAt(before + [op], k) <==> PausedAt(before, k) && !EndsPause(Run(before), op)
    {
      PausedOneStepMore(before, op, k);
    }
    if op.OpSuspendResult? {
      SuspendingStep(Run(before));
      if Run(before).suspended { PausedHasOneExecute(before); }
    } else if EndsPause(Run(before), op) {
      EndingStep(Run(before), op);
    } else {
      OthersKeepPause(Run(before), op);
      if k: nat :| PausedAt(before, k) { assert PausedAt(before + [op], k); }
    }
  }

  /** Over every run, a result is suspended exactly since a PortalSuspended with nothing else queued. */
  lemma {:induction false} SuspendedExactlySince(ops: seq<Op>)
    requires |ops| <= U64_MAX
    ensures Run(ops).suspended <==> Paused(ops)
  {
    if ops == [] {
      assert !Paused(ops);
    } else {
      var n := |ops| - 1;
      SuspendedExactlySince(ops[..n]);
      PausedAfter(ops[..n], ops[n]);
      assert ops[..n] + [ops[n]] == ops;
    }
  }

  // ---- Who owns the rows ----------------------------------------------------

  /**
   Whose rows come next once the client executes a portal: the one queued Execute is the
   paused one, carried into this exchange with the plan it had, if the portal still stands
   for what was paused; otherwise it is this Execute, with its own portal's plan and
   nothing of the paused one.
   */
  ghost predicate HandedOver(s: State, portal: Name, t: State)
  {
    && |t.executes| == 1 && !t.suspended
    && var e := t.executes[0];
    && e.name == portal && e.bindGeneration == BindGeneration(s, portal) && e.epoch == s.syncEpoch
    && (if IsResume(s, portal) then e.order == s.executes[0].order && e.plan == s.executes[0].plan
        else e.order == s.nextOrder && e.plan == Get(s.portalPlans, portal))
    && (!t.streamingSimple ==> StreamingPlan(t) == e.plan)
  }

  /** An Execute without a plan, whose binding is current, has none in the portal cache either. */
  ghost predicate HidesNothing(s: State)
  {
    forall e :: e in s.executes && e.plan.None? && e.bindGeneration == BindGeneration(s, e.name) ==>
      e.name !in s.portalPlans
  }

  lemma PausedHandsOver(s: State, portal: Name)
    requires s.suspended && |s.executes| <= 1 && HidesNothing(s)
    ensures HandedOver(s, portal, Execute(s, portal))
  {
  }

  /**
   Suspension ownership over all runs. Whatever portal is executed while a result is
   suspended, resuming or replacing it, owns the stream alone and sends its rows under its
   own snapshot; and when the transaction ends instead, nothing is left to own the stream
   or to be streamed.
   */
  lemma SuspendedResultHasOneOwner(ops: seq<Op>, portal: Name)
    requires |ops| < U64_MAX && Run(ops).suspended
    ensures var s := Run(ops);
            var idle := ReadyForQuery(s, IDLE);
            && HandedOver(s, portal, Execute(s, portal))
            && idle.executes == [] && (!idle.streamingSimple ==> StreamingPlan(idle) == None)
  {
    QueuesStayInOrder(ops);
    OwnersHideNothing(ops);
    PausedHandsOver(Run(ops), portal);
  }

  lemma OwnersHideNothing(ops: seq<Op>)
    requires |ops| <= U64_MAX
    ensures HidesNothing(Run(ops))
  {
    RunIsTraced(ops);
    var s, h := Run(ops), HistoryOf(ops);
    forall e | e in s.executes && e.plan.None? && e.bindGeneration == BindGeneration(s, e.name)
      ensures e.name !in s.portalPlans
    {
      assert ExecuteTraced(s, h, e);
    }
  }

  lemma {:induction false} StaysPaused(ops: seq<Op>, more: seq<Op>)
    requires |ops| + |more| < U64_MAX && |Run(ops).executes| <= 1
    requires NotEnded(ops + [OpSuspendResult] + more, |ops|)
    ensures var s := Run(ops + [OpSuspendResult] + more);
            && s.suspended && |s.executes| == |Run(ops).executes|
            && (s.executes != [] ==> s.executes[0].order == Run(ops).executes[0].order)
    decreases |more|
  {
    var paused := ops + [OpSuspendResult];
    RunExtends(ops, OpSuspendResult);
    SuspendingStep(Run(ops));
    if more == [] {
      assert paused + more == paused;
    } else {
      var n := |more| - 1;
      var before, op := paused + more[..n], more[n];
      assert paused + more == before + [op];
      NotEndedOneStepMore(before, op, |ops|);
      StaysPaused(ops, more[..n]);
      RunExtends(before, op);
      if op.OpSuspendResult? {
        SuspendingStep(Run(before));
      } else {
        OthersKeepPause(Run(before), op);
      }
    }
  }

  /**
   A paused result is never inherited. After any run with one Execute queued, a
   PortalSuspended and whatever else that does not end the pause, an Execute that is no
   resume owns the stream alone, under its own portal's plan; one that is a resume carries
   on the paused Execute, which has kept the plan it had when it was paused.
   */
  lemma PausedResultIsNotInherited(ops: seq<Op>, more: seq<Op>, portal: Name)
    requires |ops| + |more| + 1 < U64_MAX && |Run(ops).executes| == 1
    requires NotEnded(ops + [OpSuspendResult] + more, |ops|)
    ensures var s := Run(ops + [OpSuspendResult] + more);
            && HandedOver(s, portal, Execute(s, portal))
            && |s.executes| == 1
            && SameOwner(Run(ops).executes[0], s.executes[0])
  {
    var all := ops + [OpSuspendResult] + more;
    StaysPaused(ops, more);
    SuspendedResultHasOneOwner(all, portal);
    assert all == ops + ([OpSuspendResult] + more);
    SnapshotIsStable(ops, [OpSuspendResult] + more, Run(ops).executes[0], Run(all).executes[0]);
  }

  /** With no Execute queued, nothing is served from a PortalSuspended until the pause ends. */
  lemma PauseWithoutOwnerServesNothing(ops: seq<Op>, more: seq<Op>)
    requires |ops| + |more| < U64_MAX && Run(ops).executes == []
    requires NotEnded(ops + [OpSuspendResult] + more, |ops|)
    ensures var s := Run(ops + [OpSuspendResult] + more); !s.streamingSimple ==> StreamingPlan(s) == None
  {
    StaysPaused(ops, more);
  }

  lemma ResumeLeavesTheQueue(s: State, portal: Name)
    requires IsResume(s, portal) && !s.suspended
    ensures Execute(s, portal).executes == s.executes
    ensures Execute(s, portal).streamingSimple == s.streamingSimple
    ensures !s.streamingSimple ==> StreamingPlan(Execute(s, portal)) == StreamingPlan(s)
  {
  }

  lemma ExecutingStep(s: State, portal: Name)
    ensures Step(s, OpExecute(portal)) == Execute(s, portal)
  {
  }

  /**
   A second Execute of the same binding, sent before the first has ended or paused, shares
   its owner: the queue and the plan of the rows due next are as they were.
   */
  lemma PipelinedResumeSharesItsOwner(ops: seq<Op>, portal: Name)
    requires |ops| < U64_MAX && IsResume(Run(ops), portal) && !Run(ops).suspended
    ensures var s, t := Run(ops), Run(ops + [OpExecute(portal)]);
            && t.executes == s.executes && (!s.streamingSimple ==> StreamingPlan(t) == StreamingPlan(s))
  {
    RunExtends(ops, OpExecute(portal));
    ExecutingStep(Run(ops), portal);
    ResumeLeavesTheQueue(Run(ops), portal);
  }
}
