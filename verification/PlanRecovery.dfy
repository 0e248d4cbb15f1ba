/** What an ErrorResponse removes, and what it must leave alone. */
module PlanRecovery {
  import opened Wrappers
  import opened Sequences
  import opened PlanStateModel
  import opened PlanOrder

  /** The entries that belong to a later exchange. */
  function DescriptionsAfter(q: seq<PendingDescription>, failed: nat): seq<PendingDescription>
  {
    Retain(q, (d: PendingDescription) => d.epoch > failed)
  }

  function MutationsAfter(q: seq<PendingMutation>, failed: nat): seq<PendingMutation>
  {
    Retain(q, (m: PendingMutation) => m.epoch > failed)
  }

  function ExecutesAfter(q: seq<PendingExecute>, failed: nat): seq<PendingExecute>
  {
    Retain(q, (e: PendingExecute) => e.epoch > failed)
  }

  /** The failed epoch is the oldest one any unanswered description, Parse or Bind belongs to. */
  lemma FailedEpochIsOldest(s: State, failed: nat)
    requires Sorted(s) && FailedEpoch(s) == Some(failed)
    ensures forall d :: d in s.descriptions ==> d.epoch >= failed
    ensures forall m :: m in s.parses ==> m.epoch >= failed
    ensures forall m :: m in s.binds ==> m.epoch >= failed
  {
  }

  /** The queues after an error are exactly the later exchanges, in order. */
  lemma RecoveredQueues(s: State, failed: nat)
    requires Sorted(s) && FailedEpoch(s) == Some(failed)
    ensures var t := DiscardFailedEpoch(s);
            && t.descriptions == DescriptionsAfter(s.descriptions, failed)
            && t.parses == MutationsAfter(s.parses, failed)
            && t.binds == MutationsAfter(s.binds, failed)
  {
    FailedEpochIsOldest(s, failed);
    RetainAgree(s.descriptions, OtherDescription(failed),
                (d: PendingDescription) => d.epoch > failed);
    RetainAgree(s.parses, OtherMutation(failed), (m: PendingMutation) => m.epoch > failed);
    RetainAgree(s.binds, OtherMutation(failed), (m: PendingMutation) => m.epoch > failed);
  }

  /** Every queued Execute is at or after the failed epoch, unless it belongs to an older exchange still streaming. */
  lemma RecoveredExecutes(s: State, failed: nat)
    requires FailedEpoch(s) == Some(failed)
    ensures var t := DiscardFailedEpoch(s);
            && (forall e :: e in t.executes <==>
                  e in s.executes && e.epoch != failed && (s.suspended ==> e.epoch > failed))
            && (s.suspended ==> t.executes == ExecutesAfter(s.executes, failed))
            && ExecutesAfter(t.executes, failed) == ExecutesAfter(s.executes, failed)
  {
    var keep := LiveExecute(failed, s.suspended);
    RetainMembers(s.executes, keep);
    if s.suspended {
      RetainAgree(s.executes, keep, (e: PendingExecute) => e.epoch > failed);
    }
    RetainTwice(s.executes, keep, failed);
  }

  lemma {:induction false} RetainTwice(q: seq<PendingExecute>, keep: PendingExecute -> bool, failed: nat)
    requires forall e :: e in q && e.epoch > failed ==> keep(e)
    ensures ExecutesAfter(Retain(q, keep), failed) == ExecutesAfter(q, failed)
  {
    if q != [] {
      RetainTwice(q[1..], keep, failed);
      var rest := Retain(q[1..], keep);
      if keep(q[0]) {
        assert ([q[0]] + rest)[1..] == rest;
      } else {
        assert [] + rest == rest;
      }
    }
  }

  ghost predicate Mentions(q: seq<PendingMutation>, name: Name)
  {
    exists m :: m in q && m.name == name
  }

  /** A mutation of the name failed and no later one is pending. */
  ghost predicate Died(before: seq<PendingMutation>, after: seq<PendingMutation>, failed: nat, name: Name)
  {
    (exists m :: m in before && m.name == name && m.epoch == failed) && !Mentions(after, name)
  }

  /** A name loses its text, binding and plans exactly when its mutations died; otherwise it keeps them. */
  ghost predicate NameRecovered(s: State, t: State, failed: nat, name: Name)
  {
    var parseDied := Died(s.parses, t.parses, failed, name);
    var bindDied := Died(s.binds, t.binds, failed, name);
    && Get(t.statementSql, name) == (if parseDied then None else Get(s.statementSql, name))
    && Get(t.statementPlans, name) == (if parseDied then None else Get(s.statementPlans, name))
    && Get(t.portalStatement, name) == (if bindDied then None else Get(s.portalStatement, name))
    && Get(t.portalPlans, name) == (if bindDied then None else Get(s.portalPlans, name))
  }

  lemma RecoveredNames(s: State, failed: nat, name: Name)
    requires Sorted(s) && FailedEpoch(s) == Some(failed)
    ensures NameRecovered(s, DiscardFailedEpoch(s), failed, name)
  {
    DeadIffNoneLater(s.parses, failed, name);
    DeadIffNoneLater(s.binds, failed, name);
    RecoveredQueues(s, failed);
  }

  lemma DeadIffNoneLater(q: seq<PendingMutation>, failed: nat, name: Name)
    ensures name in DeadNames(q, failed) <==> Died(q, MutationsAfter(q, failed), failed, name)
  {
    RetainMembers(q, (m: PendingMutation) => m.epoch > failed);
    assert PendingAfter(q, failed, name) <==> Mentions(MutationsAfter(q, failed), name) by {
      if PendingAfter(q, failed, name) {
        var i :| 0 <= i < |q| && q[i].epoch > failed && q[i].name == name;
        assert q[i] in MutationsAfter(q, failed);
      }
    }
  }

  /** No Parse, Bind or description of the failed exchange remains, and everything later does. */
  ghost predicate Recovered(s: State, t: State, failed: nat)
  {
    && t.descriptions == DescriptionsAfter(s.descriptions, failed)
    && t.parses == MutationsAfter(s.parses, failed)
    && t.binds == MutationsAfter(s.binds, failed)
    && (forall e :: e in t.executes <==>
          e in s.executes && e.epoch != failed && (s.suspended ==> e.epoch > failed))
    && ExecutesAfter(t.executes, failed) == ExecutesAfter(s.executes, failed)
    && !t.suspended && !t.streamingSimple
    && t.activePlan == None && t.activePortal == None && t.activeEpoch == None
    && t.portalFormats == s.portalFormats && t.bindGenerations == s.bindGenerations
    && t.syncEpoch == s.syncEpoch && t.nextOrder == s.nextOrder && t.generation == s.generation
  }

  lemma RecoversFrom(s: State, failed: nat, n: nat)
    requires QueueOrder(s) && Counted(s, n) && FailedEpoch(s) == Some(failed)
    ensures Recovered(s, DiscardFailedEpoch(s), failed) && QueueOrder(DiscardFailedEpoch(s))
  {
    RecoveredQueues(s, failed);
    RecoveredExecutes(s, failed);
    DiscardKeepsOrder(s, n);
  }

  /**
   Error recovery, from every reachable state, for the epoch the error is charged to:
   the queues keep exactly the later exchanges, in order (an Execute of an older exchange
   survives only if nothing was suspended); a statement or portal name loses its text,
   binding and plan exactly when a mutation of it failed and no later one is pending; and
   whatever remains is still in order.
   */
  lemma ErrorKeepsTheLaterExchanges(ops: seq<Op>, failed: nat, name: Name)
    requires |ops| <= U64_MAX && FailedEpoch(Run(ops)) == Some(failed)
    ensures var s, t := Run(ops), DiscardFailedEpoch(Run(ops));
            Recovered(s, t, failed) && QueueOrder(t) && NameRecovered(s, t, failed, name)
  {
    QueuesStayInOrder(ops);
    RecoversFrom(Run(ops), failed, |ops|);
    RecoveredNames(Run(ops), failed, name);
  }
}
