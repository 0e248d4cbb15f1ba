/**
 An error against the reference server. The message at the head of the server's queue
 fails. After a failed Query the server goes on with the next message; after any other it
 skips to the Sync that ends the exchange. The proxy drops the oldest exchange that has a
 description, Parse or Bind pending: exactly when that is the exchange of the message that
 failed, and exactly when the queues are then those of what the server still owes.
 */
module PipelineErrors {
  import opened Wrappers
  import opened Sequences
  import opened PlanStateModel
  import opened PlanOrder
  import opened PlanRecovery
  import opened Pipeline

  // ---- The server's queue, exchange by exchange -----------------------------

  function Bump(o: Outstanding): nat
  {
    if o.ends then 1 else 0
  }

  /** Nothing but a Sync the client sent ends an exchange. */
  ghost predicate Chained(q: seq<Outstanding>)
  {
    forall i :: 0 <= i < |q| - 1 ==> q[i + 1].epoch == q[i].epoch + Bump(q[i])
  }

  ghost predicate ByExchange(r: Server)
  {
    Chained(r.fifo) && (r.fifo != [] ==> r.syncs == r.fifo[|r.fifo| - 1].epoch + Bump(r.fifo[|r.fifo| - 1]))
  }

  lemma {:induction false} AcceptKeepsExchanges(r: Server, m: Sent)
    requires ByExchange(r)
    ensures ByExchange(Accept(r, m))
  {
  }

  lemma {:induction false} AdvanceKeepsExchanges(r: Server, a: Action)
    requires ByExchange(r)
    ensures ByExchange(Advance(r, a))
  {
    if a.Send? {
      AcceptKeepsExchanges(r, a.message);
    } else if r.fifo != [] {
      assert Chained(r.fifo[1..]) by {
        forall i | 0 <= i && i + 1 < |r.fifo[1..]|
          ensures r.fifo[1..][i + 1].epoch == r.fifo[1..][i].epoch + Bump(r.fifo[1..][i])
        {
          assert r.fifo[i + 1 + 1].epoch == r.fifo[i + 1].epoch + Bump(r.fifo[i + 1]);
        }
      }
    }
  }

  lemma {:induction false} ServerIsByExchange(actions: seq<Action>)
    ensures ByExchange(ServerAfter(actions))
  {
    if actions != [] {
      var n := |actions| - 1;
      ServerIsByExchange(actions[..n]);
      AdvanceKeepsExchanges(ServerAfter(actions[..n]), actions[n]);
    }
  }

  lemma {:induction false} LaterExchanges(q: seq<Outstanding>, i: nat)
    requires Chained(q) && i < |q|
    ensures q[0].epoch <= q[i].epoch
  {
    if i > 0 {
      LaterExchanges(q, i - 1);
      assert q[i - 1 + 1].epoch == q[i - 1].epoch + Bump(q[i - 1]);
    }
  }

  // ---- What the server still owes -------------------------------------------

  /** What is left after skipping up to and including the next Sync the client sent. */
  function SkipToSync(q: seq<Outstanding>): seq<Outstanding>
  {
    if q == [] then [] else if q[0].ends then q[1..] else SkipToSync(q[1..])
  }

  /** The message at the head can fail: a Sync cannot. */
  predicate CanFail(r: Server)
  {
    r.fifo != [] && !r.fifo[0].sent.SSync?
  }

  /** What the server owes once it has reported that the message at its head failed. */
  function StillOwed(r: Server): seq<Outstanding>
    requires CanFail(r)
  {
    if r.fifo[0].sent.SQuery? then r.fifo[1..] else SkipToSync(r.fifo)
  }

  function OutsideExchange(epoch: nat): Outstanding -> bool
  {
    (o: Outstanding) => o.epoch != epoch
  }

  lemma {:induction false} RetainAll<T(!new)>(q: seq<T>, keep: T -> bool)
    requires forall i :: 0 <= i < |q| ==> keep(q[i])
    ensures Retain(q, keep) == q
  {
    if q != [] {
      RetainAll(q[1..], keep);
      assert q == [q[0]] + q[1..];
    }
  }

  lemma {:induction false} TailIsChained(q: seq<Outstanding>)
    requires Chained(q) && |q| > 1
    ensures Chained(q[1..]) && q[1].epoch == q[0].epoch + Bump(q[0])
  {
    var rest := q[1..];
    forall i | 0 <= i < |rest| - 1 ensures rest[i + 1].epoch == rest[i].epoch + Bump(rest[i]) {
      assert q[(i + 1) + 1].epoch == q[i + 1].epoch + Bump(q[i + 1]);
    }
    assert q[0 + 1].epoch == q[0].epoch + Bump(q[0]);
  }

  /** Skipping to Sync drops exactly the exchange. */
  lemma {:induction false} SkippingDropsTheExchange(q: seq<Outstanding>)
    requires Chained(q) && q != []
    ensures SkipToSync(q) == Retain(q, OutsideExchange(q[0].epoch))
  {
    var rest, keep := q[1..], OutsideExchange(q[0].epoch);
    assert Retain(q, keep) == Retain(rest, keep);
    if rest != [] {
      TailIsChained(q);
      if q[0].ends {
        forall i | 0 <= i < |rest| ensures keep(rest[i]) {
          LaterExchanges(rest, i);
        }
        RetainAll(rest, keep);
      } else {
        SkippingDropsTheExchange(rest);
      }
    }
  }

  // ---- Queues that are the projections of a list ----------------------------

  /** The four queues are the projections of what is outstanding. */
  ghost predicate Projected(t: State, left: seq<Outstanding>)
  {
    && t.descriptions == Project(left, AsDescription) && t.parses == Project(left, AsParse)
    && t.binds == Project(left, AsBind) && Owners(t.executes) == Project(left, AsOwner)
  }

  /** A streaming Query owes no description, and nothing else of it was ever queued. */
  lemma {:induction false} UndescribedIsProjected(s: State, r: Server)
    requires QueuesMatch(s, r)
    ensures Projected(s, Undescribed(r))
  {
    if r.streaming {
      var rest := r.fifo[1..];
      assert Project(r.fifo, AsParse) == [] + Project(rest, AsParse) == Project(rest, AsParse);
      assert Project(r.fifo, AsBind) == [] + Project(rest, AsBind) == Project(rest, AsBind);
      assert Project(r.fifo, AsOwner) == [] + Project(rest, AsOwner) == Project(rest, AsOwner);
    }
  }

  lemma {:induction false} ProjectMembers<T(!new)>(q: seq<Outstanding>, part: Outstanding -> seq<T>)
    ensures forall x :: x in Project(q, part) <==> exists i :: 0 <= i < |q| && x in part(q[i])
  {
    if q != [] {
      var rest := q[1..];
      ProjectMembers(rest, part);
      forall x ensures x in Project(q, part) <==> exists i :: 0 <= i < |q| && x in part(q[i]) {
        if x in Project(rest, part) {
          var i :| 0 <= i < |rest| && x in part(rest[i]);
          assert x in part(q[i + 1]);
        }
        if i :| 0 <= i < |q| && x in part(q[i]) {
          assert i > 0 ==> x in part(rest[i - 1]);
        }
      }
    }
  }

  /** A message that leaves an entry in one of the three queues an error is charged by. */
  predicate Chargeable(o: Outstanding)
  {
    o.sent.SParse? || o.sent.SBind? || o.sent.SDescribe? || o.sent.SQuery?
  }

  /** A message that leaves an entry in one of the four queues. */
  predicate Queued(o: Outstanding)
  {
    Chargeable(o) || o.sent.SExecute?
  }

  ghost predicate SomeOf(q: seq<Outstanding>, kind: Outstanding -> bool, epoch: nat)
  {
    exists i :: 0 <= i < |q| && kind(q[i]) && q[i].epoch == epoch
  }

  ghost predicate InQueues(s: State, epoch: nat)
  {
    || (exists d :: d in s.descriptions && d.epoch == epoch)
    || (exists m :: m in s.parses && m.epoch == epoch)
    || (exists m :: m in s.binds && m.epoch == epoch)
  }

  ghost predicate InExecutes(s: State, epoch: nat)
  {
    exists e :: e in s.executes && e.epoch == epoch
  }

  lemma {:induction false} DescriptionsHold(d: seq<PendingDescription>, q: seq<Outstanding>, epoch: nat)
    requires d == Project(q, AsDescription)
    ensures (exists x :: x in d && x.epoch == epoch) <==>
              exists i :: 0 <= i < |q| && q[i].epoch == epoch && AsDescription(q[i]) != []
  {
    ProjectMembers(q, AsDescription);
    if x :| x in d && x.epoch == epoch {
      var i :| 0 <= i < |q| && x in AsDescription(q[i]);
      assert q[i].epoch == epoch && AsDescription(q[i]) != [];
    }
    if i :| 0 <= i < |q| && q[i].epoch == epoch && AsDescription(q[i]) != [] {
      assert AsDescription(q[i])[0] in d;
    }
  }

  lemma {:induction false} MutationsHold(
    m: seq<PendingMutation>, q: seq<Outstanding>, part: Outstanding -> seq<PendingMutation>, epoch: nat)
    requires m == Project(q, part)
    requires forall o, x :: x in part(o) ==> x.epoch == o.epoch
    ensures (exists x :: x in m && x.epoch == epoch) <==>
              exists i :: 0 <= i < |q| && q[i].epoch == epoch && part(q[i]) != []
  {
    ProjectMembers(q, part);
    if x :| x in m && x.epoch == epoch {
      var i :| 0 <= i < |q| && x in part(q[i]);
      assert q[i].epoch == epoch && part(q[i]) != [];
    }
    if i :| 0 <= i < |q| && q[i].epoch == epoch && part(q[i]) != [] {
      assert part(q[i])[0] in m;
    }
  }

  lemma {:induction false} ExecutesHold(s: State, q: seq<Outstanding>, epoch: nat)
    requires Owners(s.executes) == Project(q, AsOwner)
    ensures InExecutes(s, epoch) <==> SomeOf(q, (o: Outstanding) => o.sent.SExecute?, epoch)
  {
    ProjectMembers(q, AsOwner);
    var owners := Owners(s.executes);
    if e :| e in s.executes && e.epoch == epoch {
      var k :| 0 <= k < |s.executes| && s.executes[k] == e;
      assert owners[k] in owners;
      var i :| 0 <= i < |q| && owners[k] in AsOwner(q[i]);
      assert q[i].sent.SExecute? && q[i].epoch == epoch;
    }
    if i :| 0 <= i < |q| && q[i].sent.SExecute? && q[i].epoch == epoch {
      var o := AsOwner(q[i])[0];
      assert o in owners;
      var k :| 0 <= k < |owners| && owners[k] == o;
      assert s.executes[k] in s.executes;
    }
  }

  lemma {:induction false} ChargeablePart(o: Outstanding)
    ensures Chargeable(o) <==> AsDescription(o) != [] || AsParse(o) != [] || AsBind(o) != []
  {
  }

  lemma {:induction false} QueuesHold(s: State, q: seq<Outstanding>, epoch: nat)
    requires Projected(s, q)
    ensures InQueues(s, epoch) <==> SomeOf(q, Chargeable, epoch)
  {
    DescriptionsHold(s.descriptions, q, epoch);
    MutationsHold(s.parses, q, AsParse, epoch);
    MutationsHold(s.binds, q, AsBind, epoch);
    forall i | 0 <= i < |q|
      ensures Chargeable(q[i]) <==> AsDescription(q[i]) != [] || AsParse(q[i]) != [] || AsBind(q[i]) != []
    {
      ChargeablePart(q[i]);
    }
  }

  /** The exchanges with something queued are those with something outstanding that queues. */
  lemma {:induction false} EpochsHold(s: State, q: seq<Outstanding>, epoch: nat)
    requires Projected(s, q)
    ensures InQueues(s, epoch) || InExecutes(s, epoch) <==> SomeOf(q, Queued, epoch)
  {
    QueuesHold(s, q, epoch);
    ExecutesHold(s, q, epoch);
  }

  // ---- Which exchange is charged --------------------------------------------

  /** The charged epoch is that of some pending entry, and no pending entry is older. */
  lemma {:induction false} ChargedIsPending(s: State)
    requires Sorted(s)
    ensures FailedEpoch(s).Some? && (exists e: nat :: InQueues(s, e)) ==> InQueues(s, FailedEpoch(s).value)
    ensures forall e: nat :: InQueues(s, e) ==> FailedEpoch(s).Some? && FailedEpoch(s).value <= e
  {
    if s.descriptions != [] { assert s.descriptions[0] in s.descriptions; }
    if s.parses != [] { assert s.parses[0] in s.parses; }
    if s.binds != [] { assert s.binds[0] in s.binds; }
    if FailedEpoch(s).Some? {
      FailedEpochIsOldest(s, FailedEpoch(s).value);
    }
  }

  lemma {:induction false} ChargedToAnExecute(s: State)
    requires Sorted(s) && forall e: nat :: !InQueues(s, e)
    ensures FailedEpoch(s).None? <==> s.executes == []
    ensures FailedEpoch(s).Some? ==> FailedEpoch(s).value == s.executes[0].epoch
    ensures forall e :: e in s.executes ==> FailedEpoch(s).value <= e.epoch
  {
    if s.descriptions != [] { assert s.descriptions[0] in s.descriptions && InQueues(s, s.descriptions[0].epoch); }
    if s.parses != [] { assert s.parses[0] in s.parses && InQueues(s, s.parses[0].epoch); }
    if s.binds != [] { assert s.binds[0] in s.binds && InQueues(s, s.binds[0].epoch); }
    forall e | e in s.executes ensures s.executes[0].epoch <= e.epoch {
      var i :| 0 <= i < |s.executes| && s.executes[i] == e;
      assert i > 0 ==> ExecutesInOrder(s.executes[0], s.executes[i]);
    }
  }

  /** Whatever is charged, the exchange has something queued; nothing is only when nothing is queued. */
  lemma {:induction false} ChargedHasSomething(s: State)
    requires Sorted(s)
    ensures FailedEpoch(s).Some? ==> InQueues(s, FailedEpoch(s).value) || InExecutes(s, FailedEpoch(s).value)
    ensures FailedEpoch(s).None? <==> forall e: nat :: !InQueues(s, e) && !InExecutes(s, e)
  {
    ChargedIsPending(s);
    if forall e: nat :: !InQueues(s, e) {
      ChargedToAnExecute(s);
      if s.executes != [] { assert s.executes[0] in s.executes && InExecutes(s, s.executes[0].epoch); }
    }
  }

  /** The exchange of the message at the head of the server's queue is charged with its error. */
  ghost predicate ChargedToItsOwn(r: Server)
    requires r.fifo != []
  {
    var u, epoch := Undescribed(r), r.fifo[0].epoch;
    || SomeOf(u, Chargeable, epoch)
    || ((forall e: nat :: !SomeOf(u, Chargeable, e)) && SomeOf(u, Queued, epoch))
  }

  lemma {:induction false} NoneOlder(r: Server, epoch: nat)
    requires ByExchange(r) && r.fifo != [] && SomeOf(Undescribed(r), Queued, epoch)
    ensures r.fifo[0].epoch <= epoch
  {
    var u := Undescribed(r);
    var i :| 0 <= i < |u| && Queued(u[i]) && u[i].epoch == epoch;
    var k := if r.streaming then i + 1 else i;
    assert r.fifo[k] == u[i];
    LaterExchanges(r.fifo, k);
  }

  lemma {:induction false} SomeChargeableIsQueued(q: seq<Outstanding>, epoch: nat)
    ensures SomeOf(q, Chargeable, epoch) ==> SomeOf(q, Queued, epoch)
  {
  }

  /** What is pending is what is outstanding, and none of it is older than the head. */
  lemma {:induction false} PendingIsOutstanding(s: State, r: Server)
    requires Projected(s, Undescribed(r)) && ByExchange(r) && r.fifo != []
    ensures forall e: nat :: InQueues(s, e) <==> SomeOf(Undescribed(r), Chargeable, e)
    ensures forall e: nat :: InQueues(s, e) ==> r.fifo[0].epoch <= e
  {
    var u := Undescribed(r);
    forall e: nat
      ensures InQueues(s, e) <==> SomeOf(u, Chargeable, e)
      ensures InQueues(s, e) ==> r.fifo[0].epoch <= e
    {
      QueuesHold(s, u, e);
      SomeChargeableIsQueued(u, e);
      if SomeOf(u, Queued, e) { NoneOlder(r, e); }
    }
  }

  lemma {:induction false} ChargedToTheOldestPending(s: State, epoch: nat)
    requires Sorted(s) && (exists e: nat :: InQueues(s, e)) && forall e: nat :: InQueues(s, e) ==> epoch <= e
    ensures FailedEpoch(s) == Some(epoch) <==> InQueues(s, epoch)
  {
    ChargedIsPending(s);
  }

  lemma {:induction false} ChargedToTheExecuteOfTheHead(s: State, r: Server)
    requires Projected(s, Undescribed(r)) && Sorted(s) && ByExchange(r) && r.fifo != []
    requires forall e: nat :: !InQueues(s, e)
    ensures FailedEpoch(s) == Some(r.fifo[0].epoch) <==> SomeOf(Undescribed(r), Queued, r.fifo[0].epoch)
  {
    var u, epoch := Undescribed(r), r.fifo[0].epoch;
    ChargedToAnExecute(s);
    EpochsHold(s, u, epoch);
    if s.executes != [] {
      assert s.executes[0] in s.executes;
      EpochsHold(s, u, s.executes[0].epoch);
      NoneOlder(r, s.executes[0].epoch);
    }
  }

  lemma {:induction false} ChargedExactly(s: State, r: Server)
    requires Projected(s, Undescribed(r)) && Sorted(s) && ByExchange(r) && r.fifo != []
    ensures FailedEpoch(s) == Some(r.fifo[0].epoch) <==> ChargedToItsOwn(r)
  {
    PendingIsOutstanding(s, r);
    if e: nat :| InQueues(s, e) {
      assert SomeOf(Undescribed(r), Chargeable, e);
      ChargedToTheOldestPending(s, r.fifo[0].epoch);
    } else {
      ChargedToTheExecuteOfTheHead(s, r);
    }
  }

  /**
   An error is charged to the exchange of the message that failed, over every legal run,
   exactly when a description, Parse or Bind of that exchange is still pending, or none of
   any exchange is and the exchange has an Execute pending.
   */
  lemma {:induction false} ErrorIsChargedToItsExchangeIff(actions: seq<Action>)
    requires Legal(actions) && |actions| <= U64_MAX && ServerAfter(actions).fifo != []
    ensures FailedEpoch(ProxyAfter(actions)) == Some(ServerAfter(actions).fifo[0].epoch)
       <==> ChargedToItsOwn(ServerAfter(actions))
  {
    QueuesAreProjections(actions);
    ServerIsByExchange(actions);
    UndescribedIsProjected(ProxyAfter(actions), ServerAfter(actions));
    ChargedExactly(ProxyAfter(actions), ServerAfter(actions));
  }

  // ---- What is dropped ------------------------------------------------------

  lemma {:induction false} RetainProject<T>(
    q: seq<Outstanding>, part: Outstanding -> seq<T>, keep: T -> bool, epoch: nat)
    requires forall o, x :: o in q && x in part(o) ==> (keep(x) <==> o.epoch != epoch)
    requires forall o :: o in q ==> |part(o)| <= 1
    ensures Retain(Project(q, part), keep) == Project(Retain(q, OutsideExchange(epoch)), part)
  {
    if q != [] {
      var head, rest := q[0], q[1..];
      RetainProject(rest, part, keep, epoch);
      var kept := Retain(rest, OutsideExchange(epoch));
      assert ([head] + kept)[1..] == kept;
      assert Project([head] + kept, part) == part(head) + Project(kept, part);
      assert Retain(q, OutsideExchange(epoch)) == if head.epoch != epoch then [head] + kept else kept;
      if part(head) == [] {
        assert part(head) + Project(rest, part) == Project(rest, part);
        assert part(head) + Project(kept, part) == Project(kept, part);
      } else {
        var x := part(head)[0];
        assert part(head) == [x];
        assert ([x] + Project(rest, part))[1..] == Project(rest, part);
      }
    }
  }

  lemma {:induction false} RetainOwners(q: seq<PendingExecute>, failed: nat)
    ensures Owners(Retain(q, LiveExecute(failed, false))) == Retain(Owners(q), (o: Owner) => o.epoch != failed)
  {
    if q != [] {
      RetainOwners(q[1..], failed);
      assert Owners(q)[1..] == Owners(q[1..]);
    }
  }

  lemma {:induction false} DiscardIsRetain(s: State, failed: nat)
    requires FailedEpoch(s) == Some(failed) && !s.suspended
    ensures var t := DiscardFailedEpoch(s);
            && t.descriptions == Retain(s.descriptions, OtherDescription(failed))
            && t.parses == Retain(s.parses, OtherMutation(failed))
            && t.binds == Retain(s.binds, OtherMutation(failed))
            && t.executes == Retain(s.executes, LiveExecute(failed, false))
  {
  }

  lemma {:induction false} DroppedDescriptions(q: seq<Outstanding>, failed: nat)
    ensures Retain(Project(q, AsDescription), OtherDescription(failed))
         == Project(Retain(q, OutsideExchange(failed)), AsDescription)
  {
    RetainProject(q, AsDescription, OtherDescription(failed), failed);
  }

  lemma {:induction false} DroppedMutations(q: seq<Outstanding>, failed: nat)
    ensures Retain(Project(q, AsParse), OtherMutation(failed)) == Project(Retain(q, OutsideExchange(failed)), AsParse)
    ensures Retain(Project(q, AsBind), OtherMutation(failed)) == Project(Retain(q, OutsideExchange(failed)), AsBind)
  {
    RetainProject(q, AsParse, OtherMutation(failed), failed);
    RetainProject(q, AsBind, OtherMutation(failed), failed);
  }

  lemma {:induction false} DroppedExecutes(e: seq<PendingExecute>, q: seq<Outstanding>, failed: nat)
    requires Owners(e) == Project(q, AsOwner)
    ensures Owners(Retain(e, LiveExecute(failed, false))) == Project(Retain(q, OutsideExchange(failed)), AsOwner)
  {
    RetainOwners(e, failed);
    RetainProject(q, AsOwner, (o: Owner) => o.epoch != failed, failed);
  }

  /** The proxy drops the charged exchange from what is outstanding, and nothing else. */
  lemma {:induction false} DiscardDropsTheCharged(s: State, q: seq<Outstanding>, failed: nat)
    requires Projected(s, q) && FailedEpoch(s) == Some(failed) && !s.suspended
    ensures Projected(DiscardFailedEpoch(s), Retain(q, OutsideExchange(failed)))
  {
    DiscardIsRetain(s, failed);
    DroppedDescriptions(q, failed);
    DroppedMutations(q, failed);
    DroppedExecutes(s.executes, q, failed);
  }

  /** Nothing of the charged exchange is queued any more. */
  lemma {:induction false} NothingOfTheCharged(t: State, q: seq<Outstanding>, failed: nat)
    requires Projected(t, Retain(q, OutsideExchange(failed)))
    ensures !InQueues(t, failed) && !InExecutes(t, failed)
  {
    var left := Retain(q, OutsideExchange(failed));
    RetainMembers(q, OutsideExchange(failed));
    forall i | 0 <= i < |left| ensures left[i].epoch != failed {
      assert left[i] in left;
    }
    EpochsHold(t, left, failed);
  }

  lemma {:induction false} OtherExchangesStay(q: seq<Outstanding>, epoch: nat, other: nat)
    requires SomeOf(q, Queued, other) && other != epoch
    ensures SomeOf(Retain(q, OutsideExchange(epoch)), Queued, other)
  {
    var i :| 0 <= i < |q| && Queued(q[i]) && q[i].epoch == other;
    RetainMembers(q, OutsideExchange(epoch));
    var left := Retain(q, OutsideExchange(epoch));
    assert q[i] in left;
  }

  lemma {:induction false} NoneQueuedStays(q: seq<Outstanding>, epoch: nat)
    requires NoneQueued(q)
    ensures NoneQueued(Retain(q, OutsideExchange(epoch)))
  {
    var left := Retain(q, OutsideExchange(epoch));
    RetainMembers(q, OutsideExchange(epoch));
    forall i | 0 <= i < |left| ensures !Queued(left[i]) {
      assert left[i] in q;
    }
  }

  lemma {:induction false} NothingQueued<T>(q: seq<Outstanding>, part: Outstanding -> seq<T>)
    requires forall i :: 0 <= i < |q| ==> part(q[i]) == []
    ensures Project(q, part) == []
  {
    if q != [] {
      NothingQueued(q[1..], part);
    }
  }

  ghost predicate NoneQueued(q: seq<Outstanding>)
  {
    forall i :: 0 <= i < |q| ==> !Queued(q[i])
  }

  lemma {:induction false} NoneQueuedProjects(t: State, q: seq<Outstanding>)
    requires NoneQueued(q)
    ensures Projected(t, q) <==> t.descriptions == [] && t.parses == [] && t.binds == [] && t.executes == []
  {
    NothingQueued(q, AsDescription);
    NothingQueued(q, AsParse);
    NothingQueued(q, AsBind);
    NothingQueued(q, AsOwner);
    assert t.executes != [] ==> |Owners(t.executes)| > 0;
  }

  /** With nothing charged there is nothing to drop. */
  lemma {:induction false} NothingCharged(s: State, q: seq<Outstanding>)
    requires Projected(s, q) && Sorted(s)
    ensures FailedEpoch(s).None? <==> NoneQueued(q)
    ensures FailedEpoch(s).None? ==> forall left :: NoneQueued(left) ==> Projected(DiscardFailedEpoch(s), left)
  {
    ChargedHasSomething(s);
    forall e: nat ensures InQueues(s, e) || InExecutes(s, e) <==> SomeOf(q, Queued, e) {
      EpochsHold(s, q, e);
    }
    if NoneQueued(q) {
      NoneQueuedProjects(s, q);
    } else {
      var i :| 0 <= i < |q| && Queued(q[i]);
      assert SomeOf(q, Queued, q[i].epoch);
    }
    if FailedEpoch(s).None? {
      var t := DiscardFailedEpoch(s);
      assert t == Quiet(s);
      forall left | NoneQueued(left) ensures Projected(t, left) {
        NoneQueuedProjects(t, left);
      }
    }
  }

  // ---- Recovering in step ---------------------------------------------------

  /**
   When the queues follow the server: after a failed Query, nothing behind it may be queued
   in its own exchange, and once its rows had begun nothing at all; after any other message,
   the error must be charged to its own exchange, or nothing be queued.
   */
  ghost predicate RecoversInStep(r: Server)
    requires CanFail(r)
  {
    var head, behind := r.fifo[0], r.fifo[1..];
    if head.sent.SQuery? then
      forall i :: 0 <= i < |behind| && Queued(behind[i]) ==> !r.streaming && behind[i].epoch != head.epoch
    else
      ChargedToItsOwn(r) || NoneQueued(r.fifo)
  }

  /** Whatever exchange is charged, the queues follow a server that lost another one only if nothing was charged. */
  lemma {:induction false} ChargingAnotherExchange(s: State, q: seq<Outstanding>, left: seq<Outstanding>)
    requires Projected(s, q) && Sorted(s) && !s.suspended && FailedEpoch(s).Some?
    requires SomeOf(q, Queued, FailedEpoch(s).value) ==> SomeOf(left, Queued, FailedEpoch(s).value)
    ensures !Projected(DiscardFailedEpoch(s), left)
  {
    var failed, t := FailedEpoch(s).value, DiscardFailedEpoch(s);
    DiscardDropsTheCharged(s, q, failed);
    NothingOfTheCharged(t, q, failed);
    ChargedHasSomething(s);
    EpochsHold(s, q, failed);
    if Projected(t, left) {
      EpochsHold(t, left, failed);
    }
  }

  /** After a message that is not a Query. */
  lemma {:induction false} ExtendedMessageFails(s: State, r: Server)
    requires QueuesMatch(s, r) && Sorted(s) && ByExchange(r) && CanFail(r) && !r.fifo[0].sent.SQuery?
    ensures Projected(DiscardFailedEpoch(s), StillOwed(r)) <==> RecoversInStep(r)
  {
    var epoch := r.fifo[0].epoch;
    UndescribedIsProjected(s, r);
    SkippingDropsTheExchange(r.fifo);
    ChargedExactly(s, r);
    NothingCharged(s, r.fifo);
    if FailedEpoch(s) == Some(epoch) {
      DiscardDropsTheCharged(s, r.fifo, epoch);
    } else if FailedEpoch(s).Some? {
      if SomeOf(r.fifo, Queued, FailedEpoch(s).value) {
        OtherExchangesStay(r.fifo, epoch, FailedEpoch(s).value);
      }
      ChargingAnotherExchange(s, r.fifo, StillOwed(r));
    } else {
      NoneQueuedStays(r.fifo, epoch);
    }
  }

  /** Dropping an exchange that queues nothing changes no projection. */
  lemma {:induction false} DroppingNothing<T>(q: seq<Outstanding>, part: Outstanding -> seq<T>, epoch: nat)
    requires forall i :: 0 <= i < |q| && q[i].epoch == epoch ==> part(q[i]) == []
    ensures Project(Retain(q, OutsideExchange(epoch)), part) == Project(q, part)
  {
    if q != [] {
      var head, rest := q[0], q[1..];
      DroppingNothing(rest, part, epoch);
      var kept := Retain(rest, OutsideExchange(epoch));
      assert ([head] + kept)[1..] == kept;
      assert Retain(q, OutsideExchange(epoch)) == if head.epoch != epoch then [head] + kept else kept;
      if head.epoch == epoch {
        assert part(head) + Project(rest, part) == Project(rest, part);
      }
    }
  }

  /** After a Query whose rows have not begun: its own exchange is charged, and all of it dropped. */
  lemma {:induction false} QueryFails(s: State, r: Server)
    requires QueuesMatch(s, r) && Sorted(s) && ByExchange(r) && CanFail(r)
    requires r.fifo[0].sent.SQuery? && !r.streaming
    ensures Projected(DiscardFailedEpoch(s), StillOwed(r)) <==> RecoversInStep(r)
  {
    var epoch, t, behind := r.fifo[0].epoch, DiscardFailedEpoch(s), r.fifo[1..];
    UndescribedIsProjected(s, r);
    assert SomeOf(Undescribed(r), Chargeable, epoch) by {
      assert Chargeable(Undescribed(r)[0]);
    }
    ChargedExactly(s, r);
    DiscardDropsTheCharged(s, r.fifo, epoch);
    assert Retain(r.fifo, OutsideExchange(epoch)) == Retain(behind, OutsideExchange(epoch));
    if RecoversInStep(r) {
      DroppingNothing(behind, AsDescription, epoch);
      DroppingNothing(behind, AsParse, epoch);
      DroppingNothing(behind, AsBind, epoch);
      DroppingNothing(behind, AsOwner, epoch);
    } else {
      var i :| 0 <= i < |behind| && Queued(behind[i]) && behind[i].epoch == epoch;
      assert SomeOf(behind, Queued, epoch);
      ChargingAnotherExchange(s, r.fifo, behind);
    }
  }

  /** After a Query whose rows have begun: whatever is charged is a later message's exchange. */
  lemma {:induction false} StreamingQueryFails(s: State, r: Server)
    requires QueuesMatch(s, r) && Sorted(s) && ByExchange(r) && CanFail(r)
    requires r.fifo[0].sent.SQuery? && r.streaming
    ensures Projected(DiscardFailedEpoch(s), StillOwed(r)) <==> RecoversInStep(r)
  {
    var behind := Undescribed(r);
    assert behind == r.fifo[1..] == StillOwed(r);
    UndescribedIsProjected(s, r);
    NothingCharged(s, behind);
    if FailedEpoch(s).Some? {
      ChargingAnotherExchange(s, behind, behind);
    }
  }

  lemma {:induction false} RecoversExactly(s: State, r: Server)
    requires QueuesMatch(s, r) && Sorted(s) && ByExchange(r) && CanFail(r)
    ensures Projected(DiscardFailedEpoch(s), StillOwed(r)) <==> RecoversInStep(r)
  {
    if !r.fifo[0].sent.SQuery? {
      ExtendedMessageFails(s, r);
    } else if r.streaming {
      StreamingQueryFails(s, r);
    } else {
      QueryFails(s, r);
    }
  }

  /**
   After an error, over every legal run and whatever message failed, the four queues are the
   projections of what the server still owes if and only if `RecoversInStep`.
   */
  lemma {:induction false} ErrorRecoversInStepIff(actions: seq<Action>)
    requires Legal(actions) && |actions| <= U64_MAX && CanFail(ServerAfter(actions))
    ensures Projected(DiscardFailedEpoch(ProxyAfter(actions)), StillOwed(ServerAfter(actions)))
       <==> RecoversInStep(ServerAfter(actions))
  {
    QueuesAreProjections(actions);
    ServerIsByExchange(actions);
    RecoversExactly(ProxyAfter(actions), ServerAfter(actions));
  }

  // ---- Runs that do not recover in step -------------------------------------

  const P := Name([112])
  const A := Name([97])
  const C := Name([99])

  lemma {:induction false} ServerStep(actions: seq<Action>, k: nat)
    requires k < |actions|
    ensures ServerAfter(actions[..k + 1]) == Advance(ServerAfter(actions[..k]), actions[k])
  {
    assert actions[..k + 1][..k] == actions[..k];
  }

  /** Parse, Bind, Execute and Sync; the next exchange begins with a Parse while the Execute is pending. */
  function Hasty(): seq<Action>
  {
    [Send(SParse(A, Sql("one"))), Send(SBind(P, A, None)), Send(SExecute(P)), Send(SSync),
     Send(SParse(C, Sql("two"))), ParseComplete, BindComplete]
  }

  lemma {:induction false} HastyBegun()
    ensures forall k :: 0 <= k < 3 ==> Enabled(ServerAfter(Hasty()[..k]), Hasty()[k])
    ensures var r := ServerAfter(Hasty()[..3]);
            && |r.fifo| == 3 && !r.streaming && r.syncs == 0
            && r.fifo[0].sent.SParse? && r.fifo[1].sent.SBind?
            && r.fifo[2].sent == SExecute(P) && r.fifo[2].epoch == 0
  {
    var a := Hasty();
    assert a[..0] == [];
    ServerStep(a, 0);
    ServerStep(a, 1);
    ServerStep(a, 2);
  }

  /** A Sync and a Parse of the next exchange queue behind what is outstanding. */
  lemma {:induction false} SyncThenParse(a: seq<Action>, k: nat, name: Name, sql: Sql)
    requires k + 2 <= |a| && a[k] == Send(SSync) && a[k + 1] == Send(SParse(name, sql))
    ensures var r, u := ServerAfter(a[..k]), ServerAfter(a[..k + 2]);
            && |u.fifo| == |r.fifo| + 2 && u.streaming == r.streaming && u.fifo[..|r.fifo|] == r.fifo
            && u.fifo[|r.fifo|].sent == SSync && u.fifo[|r.fifo|].epoch == r.syncs
            && u.fifo[|r.fifo| + 1].sent.SParse? && u.fifo[|r.fifo| + 1].epoch == r.syncs + 1
  {
    ServerStep(a, k);
    ServerStep(a, k + 1);
  }

  lemma {:induction false} HastySent()
    ensures forall k :: 0 <= k < 5 ==> Enabled(ServerAfter(Hasty()[..k]), Hasty()[k])
    ensures var r := ServerAfter(Hasty()[..5]);
            && |r.fifo| == 5 && !r.streaming
            && r.fifo[0].sent.SParse? && r.fifo[1].sent.SBind?
            && r.fifo[2].sent == SExecute(P) && r.fifo[2].epoch == 0
            && r.fifo[3].sent == SSync && r.fifo[3].epoch == 0
            && r.fifo[4].sent.SParse? && r.fifo[4].epoch == 1
  {
    HastyBegun();
    SyncThenParse(Hasty(), 3, C, Sql("two"));
  }

  lemma {:induction false} HastyAnswered()
    ensures Legal(Hasty())
    ensures var r := ServerAfter(Hasty());
            && !r.streaming && |r.fifo| == 3
            && r.fifo[0].sent == SExecute(P) && r.fifo[0].epoch == 0
            && r.fifo[1].sent == SSync && r.fifo[1].epoch == 0
            && r.fifo[2].sent.SParse? && r.fifo[2].epoch == 1
  {
    HastySent();
    ServerStep(Hasty(), 5);
    ServerStep(Hasty(), 6);
    assert Hasty()[..7] == Hasty();
  }

  lemma {:induction false} NotItsOwn(r: Server)
    requires !r.streaming && |r.fifo| == 3
    requires r.fifo[0].sent == SExecute(P) && r.fifo[0].epoch == 0
    requires r.fifo[1].sent == SSync && r.fifo[1].epoch == 0
    requires r.fifo[2].sent.SParse? && r.fifo[2].epoch == 1
    ensures !ChargedToItsOwn(r) && CanFail(r) && !RecoversInStep(r)
  {
    var u := Undescribed(r);
    assert Chargeable(u[2]) && u[2].epoch == 1;
    assert SomeOf(u, Chargeable, 1);
    assert Queued(r.fifo[0]);
  }

  /** The Execute of the first exchange is about to fail, and the error would be charged to the second. */
  lemma {:induction false} AHastyErrorIsChargedToTheNextExchange()
    ensures Legal(Hasty()) && CanFail(ServerAfter(Hasty()))
    ensures ServerAfter(Hasty()).fifo[0].sent == SExecute(P) && ServerAfter(Hasty()).fifo[0].epoch == 0
    ensures FailedEpoch(ProxyAfter(Hasty())) != Some(0)
    ensures !Projected(DiscardFailedEpoch(ProxyAfter(Hasty())), StillOwed(ServerAfter(Hasty())))
  {
    HastyAnswered();
    NotItsOwn(ServerAfter(Hasty()));
    ErrorIsChargedToItsExchangeIff(Hasty());
    ErrorRecoversInStepIff(Hasty());
  }

  /** A Query, and behind it in the same exchange a Parse, a Bind and an Execute. */
  function Pipelined(): seq<Action>
  {
    [Send(SQuery(Some(Sql("bad")))), Send(SParse(A, Sql("one"))), Send(SBind(P, A, None)), Send(SExecute(P))]
  }

  lemma {:induction false} PipelinedBegun()
    ensures forall k :: 0 <= k < 2 ==> Enabled(ServerAfter(Pipelined()[..k]), Pipelined()[k])
    ensures var r := ServerAfter(Pipelined()[..2]);
            && !r.streaming && |r.fifo| == 3 && r.syncs == 0
            && r.fifo[0].sent.SQuery? && r.fifo[0].epoch == 0 && r.fifo[1].sent == SSync
            && r.fifo[2].sent.SParse? && r.fifo[2].epoch == 0
  {
    var a := Pipelined();
    assert a[..0] == [];
    ServerStep(a, 0);
    ServerStep(a, 1);
  }

  lemma {:induction false} PipelinedSent()
    ensures Legal(Pipelined())
    ensures var r := ServerAfter(Pipelined());
            && !r.streaming && |r.fifo| == 5
            && r.fifo[0].sent.SQuery? && r.fifo[0].epoch == 0 && r.fifo[1].sent == SSync
            && r.fifo[2].sent.SParse? && r.fifo[2].epoch == 0
            && r.fifo[3].sent.SBind? && r.fifo[4].sent == SExecute(P)
  {
    PipelinedBegun();
    ServerStep(Pipelined(), 2);
    ServerStep(Pipelined(), 3);
    assert Pipelined()[..4] == Pipelined();
  }

  /**
   The Query is about to fail. The server will go on to answer the Parse and the Bind and
   to send the rows of the Execute; the proxy forgets all three.
   */
  lemma {:induction false} AFailedQueryTakesItsExchangeWithIt()
    ensures Legal(Pipelined()) && CanFail(ServerAfter(Pipelined()))
    ensures ChargedToItsOwn(ServerAfter(Pipelined()))
    ensures |StillOwed(ServerAfter(Pipelined()))| == 4 && StillOwed(ServerAfter(Pipelined()))[3].sent == SExecute(P)
    ensures !Projected(DiscardFailedEpoch(ProxyAfter(Pipelined())), StillOwed(ServerAfter(Pipelined())))
  {
    PipelinedSent();
    var r := ServerAfter(Pipelined());
    assert Chargeable(Undescribed(r)[0]) && SomeOf(Undescribed(r), Chargeable, 0);
    assert Queued(r.fifo[1..][1]) && r.fifo[1..][1].epoch == 0;
    ErrorRecoversInStepIff(Pipelined());
  }
}
