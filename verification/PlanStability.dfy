/** Once a queued Execute has a plan, it keeps exactly that plan until it leaves the queue. */
module PlanStability {
  import opened Wrappers
  import opened Sequences
  import opened PlanStateModel
  import opened PlanOrder
  import opened PlanOrigin
  import opened PlanRuns

  predicate SameOwner(e: PendingExecute, f: PendingExecute)
  {
    f.order == e.order && f.name == e.name && f.bindGeneration == e.bindGeneration
    && (e.plan.Some? ==> f.plan == e.plan)
  }

  /** Every Execute of `t` that is not newer than `s` was queued in `s`, and lost no plan. */
  ghost predicate Persist(s: State, t: State)
  {
    s.nextOrder <= t.nextOrder
    && forall f :: f in t.executes && f.order < s.nextOrder ==>
         exists e :: e in s.executes && SameOwner(e, f)
  }

  lemma ForgettingPersists(s: State, t: State)
    requires Forgets(s, t)
    ensures Persist(s, t)
  {
  }

  lemma SameQueuePersists(s: State, t: State)
    requires t.executes == s.executes && s.nextOrder <= t.nextOrder
    ensures Persist(s, t)
  {
  }

  lemma InstallPersists(s: State, base: State, plans: map<Name, Plan>)
    requires base.executes == s.executes && base.nextOrder == s.nextOrder
    ensures Persist(s, Install(base, plans))
  {
    var t := Install(base, plans);
    forall f | f in t.executes ensures exists e :: e in s.executes && SameOwner(e, f) {
      var i :| 0 <= i < |t.executes| && t.executes[i] == f;
      assert s.executes[i] in s.executes && SameOwner(s.executes[i], f);
    }
  }

  lemma ExecutePersists(s: State, portal: Name)
    ensures Persist(s, Execute(s, portal))
  {
    if IsResume(s, portal) {
      ResumeForgets(s, portal);
      ForgettingPersists(s, Execute(s, portal));
    } else {
      OpenedQueue(s, portal);
      forall f | f in Execute(s, portal).executes && f.order < s.nextOrder
        ensures exists e :: e in s.executes && SameOwner(e, f)
      {
        assert SameOwner(f, f);
      }
    }
  }

  lemma BindPersists(s: State, portal: Name, statement: Name, formats: Formats)
    ensures Persist(s, Bind(s, portal, statement, formats))
  {
    var base := Rebound(s, portal, statement, formats);
    if statement in s.statementPlans {
      InstallPersists(s, base, map[portal := Stamp(s.statementPlans[statement], formats)]);
    } else {
      SameQueuePersists(s, Bind(s, portal, statement, formats));
    }
  }

  lemma FinishBindPersists(s: State)
    ensures Persist(s, FinishBind(s))
  {
    if s.binds == [] {
      SameQueuePersists(s, s);
    } else {
      InstallPersists(s, s, BindCompletePlans(s, s.binds[0].name));
    }
  }

  lemma FinishDescriptionPersists(s: State, plan: Plan)
    ensures Persist(s, FinishDescription(s, plan))
  {
    if s.descriptions == [] {
      SameQueuePersists(s, s);
    } else if s.descriptions[0].Simple? {
      SameQueuePersists(s, FinishDescription(s, plan));
    } else {
      InstallPersists(s, Taken(s, plan), DescribedPlans(s, s.descriptions[0].target, plan));
    }
  }

  lemma StepPersists(s: State, op: Op)
    ensures Persist(s, Step(s, op))
  {
    if OnlyForgets(op) {
      StepForgets(s, op);
      ForgettingPersists(s, Step(s, op));
    } else {
      match op
      case OpInvalidateIfStale(current) => SameQueuePersists(s, InvalidateIfStale(s, current));
      case OpParse(name, sql) => SameQueuePersists(s, Parse(s, name, sql));
      case OpBind(portal, statement, formats) => BindPersists(s, portal, statement, formats);
      case OpExecute(portal) => ExecutePersists(s, portal);
      case OpFinishBind => FinishBindPersists(s);
      case OpFinishDescription(plan) => FinishDescriptionPersists(s, plan);
    }
  }

  lemma PersistIsTransitive(s: State, t: State, u: State)
    requires Persist(s, t) && Persist(t, u)
    ensures Persist(s, u)
  {
  }

  lemma {:induction false} RunPersists(ops: seq<Op>, more: seq<Op>)
    ensures Persist(Run(ops), Run(ops + more))
    decreases |more|
  {
    if more == [] {
      assert ops + more == ops;
      SameQueuePersists(Run(ops), Run(ops));
    } else {
      var init, last := more[..|more| - 1], more[|more| - 1];
      assert ops + more == ops + init + [last];
      RunPersists(ops, init);
      RunExtends(ops + init, last);
      StepPersists(Run(ops + init), last);
      PersistIsTransitive(Run(ops), Run(ops + init), Run(ops + more));
    }
  }

  /**
   Snapshot stability. Whatever Bind, Parse, Close, Describe, refresh or error happens
   later, a result set still queued belongs to the same portal and binding, and the
   plan it had is the plan it has.
   */
  lemma SnapshotIsStable(ops: seq<Op>, more: seq<Op>, e: PendingExecute, f: PendingExecute)
    requires |ops| <= U64_MAX
    requires e in Run(ops).executes && f in Run(ops + more).executes && f.order == e.order
    ensures SameOwner(e, f)
  {
    QueuesStayInOrder(ops);
    RunPersists(ops, more);
    var s := Run(ops);
    var o :| o in s.executes && SameOwner(o, f);
    OrdersAreDistinct(s, e, o);
  }

  lemma OrdersAreDistinct(s: State, e: PendingExecute, o: PendingExecute)
    requires Sorted(s) && e in s.executes && o in s.executes && e.order == o.order
    ensures e == o
  {
    var i :| 0 <= i < |s.executes| && s.executes[i] == e;
    var j :| 0 <= j < |s.executes| && s.executes[j] == o;
  }
}
