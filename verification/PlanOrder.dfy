/**
 Order of the four pending queues, over all runs: epochs, result orders, and who
 can be suspended.
 */
module PlanOrder {
  import opened Wrappers
  import opened Sequences
  import opened PlanStateModel

  predicate DescriptionsInOrder(a: PendingDescription, b: PendingDescription)
  {
    a.epoch <= b.epoch && (a.Simple? && b.Simple? ==> a.order < b.order)
  }

  predicate MutationsInOrder(a: PendingMutation, b: PendingMutation)
  {
    a.epoch <= b.epoch
  }

  predicate ExecutesInOrder(a: PendingExecute, b: PendingExecute)
  {
    a.epoch <= b.epoch && a.order < b.order
  }

  /** Every queue is sorted; Query and Execute orders are distinct, across queues too. */
  ghost predicate Sorted(s: State)
  {
    && Pairwise(s.descriptions, DescriptionsInOrder)
    && Pairwise(s.parses, MutationsInOrder)
    && Pairwise(s.binds, MutationsInOrder)
    && Pairwise(s.executes, ExecutesInOrder)
    && forall d, e :: d in s.descriptions && e in s.executes && d.Simple? ==> d.order != e.order
  }

  /** No entry is stamped with an epoch or order that has not been handed out yet. */
  ghost predicate Bounded(s: State)
  {
    && (forall d :: d in s.descriptions ==> d.epoch <= s.syncEpoch && (d.Simple? ==> d.order < s.nextOrder))
    && (forall m :: m in s.parses ==> m.epoch <= s.syncEpoch)
    && (forall m :: m in s.binds ==> m.epoch <= s.syncEpoch)
    && (forall e :: e in s.executes ==> e.epoch <= s.syncEpoch && e.order < s.nextOrder)
    && (s.activeEpoch.Some? ==> s.activeEpoch.value <= s.syncEpoch)
  }

  ghost predicate QueueOrder(s: State)
  {
    Sorted(s) && Bounded(s) && (s.suspended ==> |s.executes| <= 1)
  }

  /** After `n` operations no counter exceeds `n`, so none has saturated while `n` is below the limit. */
  ghost predicate Counted(s: State, n: nat)
  {
    && s.nextOrder <= n && s.syncEpoch <= n
    && (forall p :: p in s.bindGenerations ==> s.bindGenerations[p] <= n)
    && (forall e :: e in s.executes ==> e.bindGeneration <= n)
  }

  /** Installing plans changes nothing but the plans of Executes that had none. */
  lemma InstallTouchesOnlyPlans(s: State, plans: map<Name, Plan>)
    ensures var t := Install(s, plans);
            && |t.executes| == |s.executes|
            && (forall i :: 0 <= i < |s.executes| ==>
                  && t.executes[i].(plan := None) == s.executes[i].(plan := None)
                  && (s.executes[i].plan.Some? ==> t.executes[i] == s.executes[i]))
            && t.(executes := s.executes, portalPlans := s.portalPlans) == s
    ensures forall e :: e in Install(s, plans).executes ==>
              exists o :: o in s.executes && e.(plan := None) == o.(plan := None)
  {
  }

  lemma InstallKeepsOrder(s: State, plans: map<Name, Plan>, n: nat)
    requires QueueOrder(s) && Counted(s, n)
    ensures QueueOrder(Install(s, plans)) && Counted(Install(s, plans), n)
  {
    InstallTouchesOnlyPlans(s, plans);
  }

  /** The generation chosen is held by nobody, and it is the first such number. */
  lemma {:induction false} FreeFromIsFree(q: seq<PendingExecute>, portal: Name, next: nat, n: nat)
    requires forall e :: e in q ==> e.bindGeneration <= n
    requires next <= n + 1 && n < U64_MAX
    ensures var free := FreeFrom(q, portal, next);
            && !Held(q, portal, free) && free <= n + 1
            && forall k :: next <= k < free ==> Held(q, portal, k)
    decreases U64_MAX - next
  {
    assert forall i :: 0 <= i < |q| ==> q[i] in q;
    if next < U64_MAX && Held(q, portal, next) {
      FreeFromIsFree(q, portal, next + 1, n);
    }
  }

  lemma RetainedKeepOrder(s: State, t: State,
                          fd: PendingDescription -> bool, fp: PendingMutation -> bool,
                          fb: PendingMutation -> bool, fe: PendingExecute -> bool, n: nat)
    requires QueueOrder(s) && Counted(s, n)
    requires t.descriptions == Retain(s.descriptions, fd) && t.parses == Retain(s.parses, fp)
    requires t.binds == Retain(s.binds, fb) && t.executes == Retain(s.executes, fe)
    requires t.syncEpoch == s.syncEpoch && t.nextOrder == s.nextOrder && t.bindGenerations == s.bindGenerations
    requires t.activeEpoch == s.activeEpoch || t.activeEpoch == None
    requires !t.suspended
    ensures QueueOrder(t) && Counted(t, n)
  {
    RetainPairwise(s.descriptions, fd, DescriptionsInOrder);
    RetainPairwise(s.parses, fp, MutationsInOrder);
    RetainPairwise(s.binds, fb, MutationsInOrder);
    RetainPairwise(s.executes, fe, ExecutesInOrder);
    RetainMembers(s.descriptions, fd);
    RetainMembers(s.parses, fp);
    RetainMembers(s.binds, fb);
    RetainMembers(s.executes, fe);
  }

  lemma ReboundKeepsOrder(s: State, portal: Name, statement: Name, formats: Formats, n: nat)
    requires QueueOrder(s) && Counted(s, n) && n < U64_MAX
    ensures var t := Rebound(s, portal, statement, formats); QueueOrder(t) && Counted(t, n + 1)
  {
    FreeFromIsFree(s.executes, portal, Inc(BindGeneration(s, portal)), n);
  }

  lemma BindKeepsOrder(s: State, portal: Name, statement: Name, formats: Formats, n: nat)
    requires QueueOrder(s) && Counted(s, n) && n < U64_MAX
    ensures var t := Bind(s, portal, statement, formats); QueueOrder(t) && Counted(t, n + 1)
  {
    ReboundKeepsOrder(s, portal, statement, formats, n);
    if statement in s.statementPlans {
      var base := Rebound(s, portal, statement, formats);
      InstallKeepsOrder(base, map[portal := Stamp(s.statementPlans[statement], formats)], n + 1);
    }
  }

  lemma PushKeepsOrder(s: State, q: seq<PendingExecute>, e: PendingExecute, n: nat)
    requires QueueOrder(s) && Counted(s, n) && n < U64_MAX
    requires q == s.executes || (s.executes != [] && q == s.executes[1..])
    requires e.epoch == s.syncEpoch && e.order == s.nextOrder && e.bindGeneration <= n
    ensures var t := s.(suspended := false, nextOrder := Inc(s.nextOrder), executes := q + [e]);
            QueueOrder(t) && Counted(t, n + 1)
  {
  }

  lemma ResumeKeepsOrder(s: State, portal: Name, n: nat)
    requires QueueOrder(s) && Counted(s, n) && IsResume(s, portal)
    ensures var t := Execute(s, portal); QueueOrder(t) && Counted(t, n)
  {
  }

  lemma ExecuteKeepsOrder(s: State, portal: Name, n: nat)
    requires QueueOrder(s) && Counted(s, n) && n < U64_MAX
    ensures var t := Execute(s, portal); QueueOrder(t) && Counted(t, n + 1)
  {
    if IsResume(s, portal) {
      ResumeKeepsOrder(s, portal, n);
    } else {
      var base := Execute(s, portal).(nextOrder := s.nextOrder, executes := s.executes);
      assert QueueOrder(base) && Counted(base, n);
      var q := if s.suspended && s.executes != [] then s.executes[1..] else s.executes;
      PushKeepsOrder(base, q, NewExecute(s, portal), n);
    }
  }

  lemma QueryKeepsOrder(s: State, text: Option<Sql>, n: nat)
    requires QueueOrder(s) && Counted(s, n) && n < U64_MAX
    ensures var t := BeginSimpleQuery(s, text); QueueOrder(t) && Counted(t, n + 1)
  {
  }

  lemma DescribeKeepsOrder(s: State, target: Target, n: nat)
    requires QueueOrder(s) && Counted(s, n)
    ensures var t := DescribeOp(s, target); QueueOrder(t) && Counted(t, n)
  {
  }

  lemma ParseKeepsOrder(s: State, name: Name, sql: Sql, n: nat)
    requires QueueOrder(s) && Counted(s, n) && n < U64_MAX
    ensures var t := Parse(s, name, sql); QueueOrder(t) && Counted(t, n + 1)
  {
    var t := Parse(s, name, sql);
    assert Sorted(t) && Bounded(t);
  }

  /** Answering the head of some queues, and ending a suspension unless only one owner is left. */
  predicate Shrinks(s: State, t: State)
  {
    && (t.descriptions == s.descriptions || t.descriptions == Pop(s.descriptions))
    && (t.executes == s.executes || t.executes == Pop(s.executes) || t.executes == [])
    && (t.parses == s.parses || t.parses == Pop(s.parses))
    && t.binds == s.binds
    && t.syncEpoch == s.syncEpoch && t.nextOrder == s.nextOrder && t.bindGenerations == s.bindGenerations
    && (t.activeEpoch == s.activeEpoch || t.activeEpoch == None)
    && (t.suspended ==> |t.executes| <= 1)
  }

  lemma ShrinkKeepsOrder(s: State, t: State, n: nat)
    requires QueueOrder(s) && Counted(s, n) && Shrinks(s, t)
    ensures QueueOrder(t) && Counted(t, n)
  {
  }

  lemma FinishResultSetShrinks(s: State)
    requires s.suspended ==> |s.executes| <= 1
    ensures Shrinks(s, FinishResultSet(s))
  {
  }

  lemma SuspendResultShrinks(s: State)
    requires s.suspended ==> |s.executes| <= 1
    ensures Shrinks(s, SuspendResult(s))
  {
  }

  lemma ReadyForQueryShrinks(s: State, status: int)
    requires s.suspended ==> |s.executes| <= 1
    ensures Shrinks(s, ReadyForQuery(s, status))
  {
  }

  lemma FinishNoDataShrinks(s: State)
    requires s.suspended ==> |s.executes| <= 1
    ensures Shrinks(s, FinishNoData(s))
  {
  }

  lemma FinishEmptyQueryShrinks(s: State)
    requires s.suspended ==> |s.executes| <= 1
    ensures Shrinks(s, FinishEmptyQuery(s))
  {
  }

  lemma InvalidateIfStaleShrinks(s: State, current: nat)
    requires s.suspended ==> |s.executes| <= 1
    ensures Shrinks(s, InvalidateIfStale(s, current))
  {
  }

  lemma CloseShrinks(s: State, target: Target)
    requires s.suspended ==> |s.executes| <= 1
    ensures Shrinks(s, Close(s, target))
  {
  }

  lemma DiscardKeepsOrder(s: State, n: nat)
    requires QueueOrder(s) && Counted(s, n)
    ensures var t := DiscardFailedEpoch(s); QueueOrder(t) && Counted(t, n)
  {
    if FailedEpoch(s).Some? {
      var failed := FailedEpoch(s).value;
      RetainedKeepOrder(s, DiscardEpoch(s, failed), OtherDescription(failed), OtherMutation(failed),
                        OtherMutation(failed), LiveExecute(failed, s.suspended), n);
    }
  }

  lemma SuppressKeepsOrder(s: State, epoch: nat, n: nat)
    requires QueueOrder(s) && Counted(s, n)
    ensures var t := FinishSuppressedEpoch(s, epoch); QueueOrder(t) && Counted(t, n)
  {
    RetainedKeepOrder(s, FinishSuppressedEpoch(s, epoch),
      OtherDescription(epoch),
      OtherMutation(epoch),
      OtherMutation(epoch),
      OtherExecute(epoch), n);
  }

  lemma FinishBindKeepsOrder(s: State, n: nat)
    requires QueueOrder(s) && Counted(s, n)
    ensures var t := FinishBind(s); QueueOrder(t) && Counted(t, n)
  {
    if s.binds != [] {
      InstallKeepsOrder(s, BindCompletePlans(s, s.binds[0].name), n);
    }
  }

  lemma FinishDescriptionKeepsOrder(s: State, plan: Plan, n: nat)
    requires QueueOrder(s) && Counted(s, n)
    ensures var t := FinishDescription(s, plan); QueueOrder(t) && Counted(t, n)
  {
    if s.descriptions != [] {
      assert s.descriptions[0] in s.descriptions;
      assert QueueOrder(Taken(s, plan)) && Counted(Taken(s, plan), n);
      if s.descriptions[0].Describe? {
        InstallKeepsOrder(Taken(s, plan), DescribedPlans(s, s.descriptions[0].target, plan), n);
      }
    }
  }

  predicate OnlyShrinks(op: Op)
  {
    op.OpFinishResultSet? || op.OpSuspendResult? || op.OpFinishParse? || op.OpFinishNoData?
    || op.OpDiscardDescription? || op.OpFinishEmptyQuery? || op.OpReadyForQuery?
    || op.OpInvalidateIfStale? || op.OpClearActive? || op.OpClose?
  }

  lemma StepShrinks(s: State, op: Op)
    requires s.suspended ==> |s.executes| <= 1
    requires OnlyShrinks(op)
    ensures Shrinks(s, Step(s, op))
  {
    match op
    case OpFinishResultSet => FinishResultSetShrinks(s);
    case OpSuspendResult => SuspendResultShrinks(s);
    case OpReadyForQuery(status) => ReadyForQueryShrinks(s, status);
    case OpFinishNoData => FinishNoDataShrinks(s);
    case OpFinishEmptyQuery => FinishEmptyQueryShrinks(s);
    case OpInvalidateIfStale(current) => InvalidateIfStaleShrinks(s, current);
    case OpClose(target) => CloseShrinks(s, target);
    case OpDiscardDescription => assert Shrinks(s, DiscardDescription(s));
    case OpFinishParse => assert Shrinks(s, FinishParse(s));
    case OpClearActive => assert Shrinks(s, ClearActive(s));
  }

  lemma SyncKeepsOrder(s: State, n: nat)
    requires QueueOrder(s) && Counted(s, n) && n < U64_MAX
    ensures QueueOrder(Sync(s)) && Counted(Sync(s), n + 1)
  {
  }

  /** The messages a client sends that put something on a queue, and its Sync. */
  predicate Queues(op: Op)
  {
    op.OpBind? || op.OpExecute? || op.OpParse? || op.OpBeginSimpleQuery? || op.OpDescribe? || op.OpSync?
  }

  lemma QueueingStepKeepsOrder(s: State, op: Op, n: nat)
    requires QueueOrder(s) && Counted(s, n) && n < U64_MAX && Queues(op)
    ensures QueueOrder(Step(s, op)) && Counted(Step(s, op), n + 1)
  {
    match op
    case OpBind(portal, statement, formats) => BindKeepsOrder(s, portal, statement, formats, n);
    case OpExecute(portal) => ExecuteKeepsOrder(s, portal, n);
    case OpParse(name, sql) => ParseKeepsOrder(s, name, sql, n);
    case OpBeginSimpleQuery(text) => QueryKeepsOrder(s, text, n);
    case OpDescribe(target) => DescribeKeepsOrder(s, target, n);
    case OpSync => SyncKeepsOrder(s, n);
  }

  lemma ShrinkingStepKeepsOrder(s: State, op: Op, n: nat)
    requires QueueOrder(s) && Counted(s, n) && n < U64_MAX && OnlyShrinks(op)
    ensures QueueOrder(Step(s, op)) && Counted(Step(s, op), n + 1)
  {
    StepShrinks(s, op);
    ShrinkKeepsOrder(s, Step(s, op), n);
  }

  /** Every operation keeps the order. */
  lemma StepKeepsOrder(s: State, op: Op, n: nat)
    requires QueueOrder(s) && Counted(s, n) && n < U64_MAX
    ensures QueueOrder(Step(s, op)) && Counted(Step(s, op), n + 1)
  {
    match op
    case OpDiscardFailedEpoch => DiscardKeepsOrder(s, n);
    case OpFinishSuppressedEpoch(epoch) => SuppressKeepsOrder(s, epoch, n);
    case OpFinishBind => FinishBindKeepsOrder(s, n);
    case OpFinishDescription(plan) => FinishDescriptionKeepsOrder(s, plan, n);
    case _ => if Queues(op) { QueueingStepKeepsOrder(s, op, n); } else { ShrinkingStepKeepsOrder(s, op, n); }
  }

  /**
   Queue order over all runs. Every queue is non-decreasing in epoch and bounded by
   the Sync count, also after a resume re-stamps the head; orders are distinct,
   increasing, and already handed out; a suspended result is the only queued one;
   and the epoch a local refusal suppresses is never one still to come.
   */
  lemma {:induction false} QueuesStayInOrder(ops: seq<Op>)
    requires |ops| <= U64_MAX
    ensures QueueOrder(Run(ops)) && Counted(Run(ops), |ops|)
    ensures RejectionEpoch(Run(ops)) <= Run(ops).syncEpoch
  {
    if ops != [] {
      var before := ops[..|ops| - 1];
      QueuesStayInOrder(before);
      StepKeepsOrder(Run(before), ops[|ops| - 1], |before|);
    }
    var s := Run(ops);
    if s.descriptions != [] { assert s.descriptions[0] in s.descriptions; }
  }
}
