/**
 The session's plan state as the program has it: mutable maps and queues, updated in
 place, with loops over portals in whatever order the hash map yields them. A ghost
 trace records the operations performed; a valid object is in the state its trace leads
 to, every operation appends itself to the trace and keeps the object valid, and so the
 theorems about all runs are theorems about the object.
 */
module PlanStates {
  import opened Wrappers
  import opened Sequences
  import opened PlanStateModel
  import M = PlanStateModel
  import PlanOrder
  import PlanRuns

  /** The state is the one these operations lead to. The quantifier only keeps `Run` folded (see `LeadsToIsRun`). */
  ghost predicate LeadsTo(ops: seq<Op>, s: State)
  {
    forall run :: run == ops ==> Run(run) == s
  }

  lemma LeadsToIsRun(ops: seq<Op>, s: State)
    ensures LeadsTo(ops, s) <==> Run(ops) == s
  {
  }

  lemma LeadsOn(ops: seq<Op>, s: State, op: Op)
    requires LeadsTo(ops, s)
    ensures LeadsTo(ops + [op], Step(s, op))
  {
    RunExtends(ops, op);
  }

  class PlanState {
    var statementPlans: map<Name, Plan>
    var statementSql: map<Name, Sql>
    var portalStatement: map<Name, Name>
    var portalPlans: map<Name, Plan>
    var portalFormats: map<Name, Formats>
    var bindGenerations: map<Name, nat>
    var activePlan: Option<Plan>
    var activePortal: Option<Name>
    var activeEpoch: Option<nat>
    var descriptions: seq<PendingDescription>
    var parses: seq<PendingMutation>
    var binds: seq<PendingMutation>
    var executes: seq<PendingExecute>
    var suspended: bool
    var streamingSimple: bool
    var syncEpoch: nat
    var nextOrder: nat
    var generation: nat

    /** The operations performed so far. */
    ghost var trace: seq<Op>

    function View(): State
      reads this
    {
      State(statementPlans, statementSql, portalStatement, portalPlans, portalFormats, bindGenerations,
            activePlan, activePortal, activeEpoch, descriptions, parses, binds, executes,
            suspended, streamingSimple, syncEpoch, nextOrder, generation)
    }

    /** The object is in the state its operations lead to. */
    ghost predicate Valid()
      reads this
    {
      LeadsTo(trace, View())
    }

    constructor ()
      ensures Valid() && trace == []
    {
      statementPlans, statementSql, portalStatement := map[], map[], map[];
      portalPlans, portalFormats, bindGenerations := map[], map[], map[];
      activePlan, activePortal, activeEpoch := None, None, None;
      descriptions, parses, binds, executes := [], [], [], [];
      suspended, streamingSimple := false, false;
      syncEpoch, nextOrder, generation := 0, 0, 0;
      trace := [];
    }

    ghost method Record(before: State, op: Op)
      requires LeadsTo(trace, before) && View() == Step(before, op)
      modifies this`trace
      ensures Valid() && trace == old(trace) + [op]
    {
      LeadsOn(trace, before, op);
      trace := trace + [op];
    }

    // ---- Reads --------------------------------------------------------------

    /** The plan for the next DataRow; for an Execute's rows, the owner's own snapshot. */
    method StreamingPlan() returns (plan: Option<Plan>)
      requires Valid()
      ensures plan == M.StreamingPlan(View())
      ensures |trace| <= U64_MAX && executes != [] && !streamingSimple ==> plan == executes[0].plan
    {
      LeadsToIsRun(trace, View());
      if |trace| <= U64_MAX { PlanRuns.StreamingPlanIsTheSnapshot(trace); }
      if streamingSimple { return activePlan; }
      if executes == [] {
        if suspended { return None; }
        return activePlan;
      }
      var owner := executes[0];
      if owner.plan.Some? { return owner.plan; }
      var current := Counter(bindGenerations, owner.name);
      if owner.bindGeneration == current { return Get(portalPlans, owner.name); }
      return None;
    }

    /**
     The text the next description is judged by: the one on record for its target when the
     Describe was sent; for a portal, the text its statement had by then.
     */
    method DescribedSql() returns (sql: Option<Sql>)
      requires Valid()
      ensures descriptions == [] ==> sql == None
      ensures descriptions != [] ==> sql == descriptions[0].sql
      ensures DescribeIsNext(View()) ==>
                exists j: nat ::
                  && j < |trace| && trace[j] == OpDescribe(descriptions[0].target)
                  && sql == TargetSql(Run(trace[..j]), descriptions[0].target)
    {
      LeadsToIsRun(trace, View());
      if DescribeIsNext(View()) { PlanRuns.DescribedTextIsTheTextAsked(trace); }
      if descriptions == [] { return None; }
      return descriptions[0].sql;
    }

    /** The epoch a local refusal suppresses; never one still to come. */
    method RejectionEpoch() returns (epoch: nat)
      requires Valid()
      ensures epoch == M.RejectionEpoch(View())
      ensures |trace| <= U64_MAX ==> epoch <= syncEpoch
    {
      LeadsToIsRun(trace, View());
      if |trace| <= U64_MAX { PlanOrder.QueuesStayInOrder(trace); }
      if descriptions != [] { return descriptions[0].epoch; }
      if activeEpoch.Some? { return activeEpoch.value; }
      return syncEpoch;
    }

    // ---- Private steps ------------------------------------------------------

    /** The loop skips every generation a queued Execute of the name still holds. */
    method BumpBindGeneration(portal: Name)
      modifies this`bindGenerations
      ensures bindGenerations == old(bindGenerations)[portal := BumpedGeneration(old(View()), portal)]
    {
      var next := Inc(Counter(bindGenerations, portal));
      ghost var start := next;
      while Held(executes, portal, next)
        invariant FreeFrom(executes, portal, next) == FreeFrom(executes, portal, start)
        decreases U64_MAX - next
      {
        var bumped := Inc(next);
        if bumped == next { break; }
        next := bumped;
      }
      bindGenerations := bindGenerations[portal := next];
    }

    /** Fill the waiting Executes of one portal, slot by slot. */
    method FillPendingPlan(portal: Name, plan: Plan)
      modifies this`executes
      ensures executes == FilledQueue(old(executes), bindGenerations, map[portal := plan])
    {
      var current := Counter(bindGenerations, portal);
      var i := 0;
      while i < |executes|
        invariant 0 <= i <= |executes| == |old(executes)|
        invariant forall j :: 0 <= j < i ==>
                    executes[j] == Filled(old(executes)[j], bindGenerations, map[portal := plan])
        invariant forall j :: i <= j < |executes| ==> executes[j] == old(executes)[j]
      {
        var pending := executes[i];
        if pending.name == portal && pending.bindGeneration == current && pending.plan.None? {
          executes := executes[i := pending.(plan := Some(plan))];
        }
        i := i + 1;
      }
    }

    method InstallPortalPlan(portal: Name, plan: Plan)
      modifies this`executes, this`portalPlans
      ensures executes == FilledQueue(old(executes), bindGenerations, map[portal := plan])
      ensures portalPlans == old(portalPlans) + map[portal := plan]
    {
      FillPendingPlan(portal, plan);
      portalPlans := portalPlans[portal := plan];
    }

    /** Stamp and install the plan for every portal bound to the statement, in any order. */
    method InstallForStatement(name: Name, plan: Plan)
      modifies this`portalPlans, this`executes
      ensures var plans := StampedFor(portalStatement, portalFormats, name, plan);
              && executes == FilledQueue(old(executes), bindGenerations, plans)
              && portalPlans == old(portalPlans) + plans
    {
      var waiting := set p | p in portalStatement && portalStatement[p] == name;
      var todo := waiting;
      ghost var done: map<Name, Plan> := map[];
      FillNothing(executes, bindGenerations);
      while todo != {}
        invariant todo <= waiting && done.Keys == waiting - todo
        invariant forall p :: p in done ==> done[p] == Stamp(plan, FormatsIn(portalFormats, p))
        invariant portalPlans == old(portalPlans) + done
        invariant executes == FilledQueue(old(executes), bindGenerations, done)
        decreases todo
      {
        var portal :| portal in todo;
        var stamped := Stamp(plan, FormatsIn(portalFormats, portal));
        FillTwice(old(executes), bindGenerations, done, portal, stamped);
        InstallPortalPlan(portal, stamped);
        done := done[portal := stamped];
        todo := todo - {portal};
      }
      assert done == StampedFor(portalStatement, portalFormats, name, plan);
    }

    // ---- Frontend messages --------------------------------------------------

    method InvalidateIfStale(current: nat) returns (moved: bool)
      requires Valid()
      modifies this
      ensures Valid() && trace == old(trace) + [OpInvalidateIfStale(current)]
      ensures moved == (old(generation) != current)
    {
      moved := generation != current;
      if moved {
        generation := current;
        statementPlans := map[];
        portalPlans := map[];
      }
      Record(old(View()), OpInvalidateIfStale(current));
    }

    method ClearActive()
      requires Valid()
      modifies this
      ensures Valid() && trace == old(trace) + [OpClearActive]
    {
      activePlan, activeEpoch := None, None;
      Record(old(View()), OpClearActive);
    }

    method BeginSimpleQuery(text: Option<Sql>)
      requires Valid()
      modifies this
      ensures Valid() && trace == old(trace) + [OpBeginSimpleQuery(text)]
    {
      activePlan, activeEpoch := None, None;
      var order := nextOrder;
      nextOrder := Inc(nextOrder);
      descriptions := descriptions + [Simple(text, syncEpoch, order)];
      Record(old(View()), OpBeginSimpleQuery(text));
    }

    /** A changed statement text: its portals lose plan, formats and bind counter. */
    method ForgetPortals(stale: set<Name>)
      modifies this`portalPlans, this`portalFormats, this`bindGenerations
      ensures portalPlans == old(portalPlans) - stale
      ensures portalFormats == old(portalFormats) - stale
      ensures bindGenerations == old(bindGenerations) - stale
    {
      var todo := stale;
      while todo != {}
        invariant todo <= stale
        invariant portalPlans == old(portalPlans) - (stale - todo)
        invariant portalFormats == old(portalFormats) - (stale - todo)
        invariant bindGenerations == old(bindGenerations) - (stale - todo)
        decreases todo
      {
        var portal :| portal in todo;
        portalPlans := portalPlans - {portal};
        portalFormats := portalFormats - {portal};
        bindGenerations := bindGenerations - {portal};
        todo := todo - {portal};
      }
      assert stale - todo == stale;
    }

    method Parse(name: Name, sql: Sql)
      requires Valid()
      modifies this
      ensures Valid() && trace == old(trace) + [OpParse(name, sql)]
    {
      ParseFields(name, sql);
      Record(old(View()), OpParse(name, sql));
    }

    method ParseFields(name: Name, sql: Sql)
      modifies this`statementPlans, this`portalPlans, this`portalFormats, this`bindGenerations,
               this`statementSql, this`parses
      ensures var t := M.Parse(old(View()), name, sql);
              && statementPlans == t.statementPlans && portalPlans == t.portalPlans
              && portalFormats == t.portalFormats && bindGenerations == t.bindGenerations
              && statementSql == t.statementSql && parses == t.parses
    {
      if Get(statementSql, name) != Some(sql) {
        statementPlans := statementPlans - {name};
        ForgetPortals(set p | p in portalStatement && portalStatement[p] == name);
      }
      statementSql := statementSql[name := sql];
      parses := parses + [PendingMutation(name, syncEpoch)];
    }

    method Bind(portal: Name, statement: Name, formats: Formats)
      requires Valid()
      modifies this
      ensures Valid() && trace == old(trace) + [OpBind(portal, statement, formats)]
    {
      BindFields(portal, statement, formats);
      Record(old(View()), OpBind(portal, statement, formats));
    }

    /** What a Bind changes whether or not the statement has a plan: meaning, formats and counter. */
    method RebindFields(portal: Name, statement: Name, formats: Formats)
      modifies this`portalStatement, this`binds, this`portalFormats, this`bindGenerations
      ensures View() == Rebound(old(View()), portal, statement, formats)
    {
      portalStatement := portalStatement[portal := statement];
      binds := binds + [PendingMutation(portal, syncEpoch)];
      portalFormats := portalFormats[portal := formats];
      BumpBindGeneration(portal);
    }

    method BindFields(portal: Name, statement: Name, formats: Formats)
      modifies this`portalStatement, this`binds, this`portalFormats, this`bindGenerations,
               this`portalPlans, this`executes
      ensures var t := M.Bind(old(View()), portal, statement, formats);
              && portalStatement == t.portalStatement && binds == t.binds
              && portalFormats == t.portalFormats && bindGenerations == t.bindGenerations
              && portalPlans == t.portalPlans && executes == t.executes
    {
      RebindFields(portal, statement, formats);
      if statement !in statementPlans {
        portalPlans := portalPlans - {portal};
        return;
      }
      InstallPortalPlan(portal, Stamp(statementPlans[statement], formats));
    }

    method Describe(target: Target)
      requires Valid()
      modifies this
      ensures Valid() && trace == old(trace) + [OpDescribe(target)]
    {
      var sql := match target
        case Statement(name) => Get(statementSql, name)
        case Portal(portal) =>
          if portal in portalStatement then Get(statementSql, portalStatement[portal]) else None;
      descriptions := descriptions + [PendingDescription.Describe(target, sql, syncEpoch)];
      Record(old(View()), OpDescribe(target));
    }

    method Execute(portal: Name)
      requires Valid()
      modifies this
      ensures Valid() && trace == old(trace) + [OpExecute(portal)]
    {
      ExecuteFields(portal);
      Record(old(View()), OpExecute(portal));
    }

    method ExecuteFields(portal: Name)
      modifies this`activePlan, this`activeEpoch, this`activePortal, this`suspended, this`executes, this`nextOrder
      ensures var t := M.Execute(old(View()), portal);
              && activePlan == t.activePlan && activeEpoch == t.activeEpoch
              && activePortal == t.activePortal && suspended == t.suspended && executes == t.executes
              && nextOrder == t.nextOrder
    {
      activePlan := Get(portalPlans, portal);
      activeEpoch := Some(syncEpoch);
      activePortal := Some(portal);
      var current := Counter(bindGenerations, portal);
      var resume := executes != [] && executes[0].name == portal && executes[0].bindGeneration == current;
      assert resume == IsResume(old(View()), portal);
      if suspended {
        suspended := false;
        if resume {
          executes := executes[0 := executes[0].(epoch := syncEpoch)];
          return;
        }
        executes := Pop(executes);
      } else if resume {
        return;
      }
      var order := nextOrder;
      nextOrder := Inc(nextOrder);
      executes := executes + [PendingExecute(portal, syncEpoch, order, Get(portalPlans, portal), current)];
    }

    /** Closed portals lose binding, plan and formats, but not their bind counter. */
    method ClosePortals(portals: set<Name>)
      modifies this`portalStatement, this`portalPlans, this`portalFormats
      ensures portalStatement == old(portalStatement) - portals
      ensures portalPlans == old(portalPlans) - portals
      ensures portalFormats == old(portalFormats) - portals
    {
      var todo := portals;
      while todo != {}
        invariant todo <= portals
        invariant portalStatement == old(portalStatement) - (portals - todo)
        invariant portalPlans == old(portalPlans) - (portals - todo)
        invariant portalFormats == old(portalFormats) - (portals - todo)
        decreases todo
      {
        var portal :| portal in todo;
        portalStatement := portalStatement - {portal};
        portalPlans := portalPlans - {portal};
        portalFormats := portalFormats - {portal};
        todo := todo - {portal};
      }
      assert portals - todo == portals;
    }

    method Close(target: Target)
      requires Valid()
      modifies this
      ensures Valid() && trace == old(trace) + [OpClose(target)]
    {
      CloseFields(target);
      Record(old(View()), OpClose(target));
    }

    method CloseFields(target: Target)
      modifies this`statementSql, this`statementPlans, this`portalStatement, this`portalPlans, this`portalFormats
      ensures var t := M.Close(old(View()), target);
              && statementSql == t.statementSql && statementPlans == t.statementPlans
              && portalStatement == t.portalStatement && portalPlans == t.portalPlans
              && portalFormats == t.portalFormats
    {
      match target {
        case Statement(statement) =>
          statementSql := statementSql - {statement};
          statementPlans := statementPlans - {statement};
          ClosePortals(set p | p in portalStatement && portalStatement[p] == statement);
        case Portal(portal) =>
          portalStatement := portalStatement - {portal};
          portalPlans := portalPlans - {portal};
          portalFormats := portalFormats - {portal};
      }
    }

    method Sync()
      requires Valid()
      modifies this
      ensures Valid() && trace == old(trace) + [OpSync]
    {
      syncEpoch := Inc(syncEpoch);
      Record(old(View()), OpSync);
    }

    // ---- Backend messages ---------------------------------------------------

    method SuspendResult()
      requires Valid()
      modifies this
      ensures Valid() && trace == old(trace) + [OpSuspendResult]
    {
      if |executes| > 1 {
        executes := executes[1..];
        suspended := false;
      } else {
        suspended := true;
      }
      Record(old(View()), OpSuspendResult);
    }

    method ReadyForQuery(status: int)
      requires Valid()
      modifies this
      ensures Valid() && trace == old(trace) + [OpReadyForQuery(status)]
    {
      ReadyForQueryFields(status);
      Record(old(View()), OpReadyForQuery(status));
    }

    method ReadyForQueryFields(status: int)
      modifies this`executes, this`suspended, this`activePlan, this`activePortal, this`activeEpoch
      ensures var t := M.ReadyForQuery(old(View()), status);
              && executes == t.executes && suspended == t.suspended && activePlan == t.activePlan
              && activePortal == t.activePortal && activeEpoch == t.activeEpoch
    {
      if !suspended || status != IDLE { return; }
      executes := [];
      suspended := false;
      activePlan, activePortal, activeEpoch := None, None, None;
    }

    method FinishResultSet()
      requires Valid()
      modifies this
      ensures Valid() && trace == old(trace) + [OpFinishResultSet]
    {
      FinishResultSetFields();
      Record(old(View()), OpFinishResultSet);
    }

    method FinishResultSetFields()
      modifies this`streamingSimple, this`suspended, this`descriptions, this`executes
      ensures var t := M.FinishResultSet(old(View()));
              && streamingSimple == t.streamingSimple && suspended == t.suspended
              && descriptions == t.descriptions && executes == t.executes
    {
      if streamingSimple {
        streamingSimple := false;
        return;
      }
      suspended := false;
      var simpleOrder := if descriptions != [] && descriptions[0].Simple? then Some(descriptions[0].order) else None;
      var executeOrder := if executes != [] then Some(executes[0].order) else None;
      if simpleOrder.Some? && (executeOrder.None? || simpleOrder.value < executeOrder.value) {
        descriptions := descriptions[1..];
      } else {
        executes := Pop(executes);
      }
    }

    method FinishParse()
      requires Valid()
      modifies this
      ensures Valid() && trace == old(trace) + [OpFinishParse]
    {
      parses := Pop(parses);
      Record(old(View()), OpFinishParse);
    }

    method FinishBind()
      requires Valid()
      modifies this
      ensures Valid() && trace == old(trace) + [OpFinishBind]
    {
      FinishBindFields();
      Record(old(View()), OpFinishBind);
    }

    method FinishBindFields()
      modifies this`binds, this`portalPlans, this`executes, this`activePlan
      ensures var t := M.FinishBind(old(View()));
              && binds == t.binds && portalPlans == t.portalPlans && executes == t.executes
              && activePlan == t.activePlan
    {
      if binds == [] { return; }
      ghost var s := View();
      var portal := binds[0].name;
      binds := binds[1..];
      ghost var plans := BindCompletePlans(s, portal);
      if portal !in portalPlans {
        if portal in portalStatement && portalStatement[portal] in statementPlans {
          var formats := FormatsIn(portalFormats, portal);
          InstallPortalPlan(portal, Stamp(statementPlans[portalStatement[portal]], formats));
        } else {
          FillNothing(executes, bindGenerations);
        }
      } else {
        FillPendingPlan(portal, portalPlans[portal]);
        assert s.portalPlans + plans == s.portalPlans;
      }
      assert executes == M.Install(s, plans).executes && portalPlans == M.Install(s, plans).portalPlans;
      if activePortal == Some(portal) && portal in portalPlans {
        activePlan := Some(portalPlans[portal]);
      }
    }

    method FinishSuppressedEpoch(epoch: nat)
      requires Valid()
      modifies this
      ensures Valid() && trace == old(trace) + [OpFinishSuppressedEpoch(epoch)]
    {
      FinishSuppressedEpochFields(epoch);
      Record(old(View()), OpFinishSuppressedEpoch(epoch));
    }

    method FinishSuppressedEpochFields(epoch: nat)
      modifies this`descriptions, this`parses, this`binds, this`executes, this`streamingSimple, this`suspended
      ensures var t := M.FinishSuppressedEpoch(old(View()), epoch);
              && descriptions == t.descriptions && parses == t.parses && binds == t.binds
              && executes == t.executes && streamingSimple == t.streamingSimple
              && suspended == t.suspended
    {
      descriptions := Retain(descriptions, OtherDescription(epoch));
      parses := Retain(parses, OtherMutation(epoch));
      binds := Retain(binds, OtherMutation(epoch));
      executes := Retain(executes, OtherExecute(epoch));
      streamingSimple := false;
      suspended := false;
    }

    /** Provisional state of the failed exchange goes, unless a later exchange reused the name. */
    method ForgetFailedNames(failed: nat)
      modifies this`statementSql, this`statementPlans, this`portalStatement, this`portalPlans
      ensures statementSql == old(statementSql) - DeadNames(parses, failed)
      ensures statementPlans == old(statementPlans) - DeadNames(parses, failed)
      ensures portalStatement == old(portalStatement) - DeadNames(binds, failed)
      ensures portalPlans == old(portalPlans) - DeadNames(binds, failed)
    {
      var statements := FailedNames(parses, failed);
      statementSql := statementSql - statements;
      statementPlans := statementPlans - statements;
      var portals := FailedNames(binds, failed);
      portalStatement := portalStatement - portals;
      portalPlans := portalPlans - portals;
    }

    method RetainLiveEntries(failed: nat, wasSuspended: bool)
      modifies this`descriptions, this`parses, this`binds, this`executes
      ensures descriptions == Retain(old(descriptions), OtherDescription(failed))
      ensures parses == Retain(old(parses), OtherMutation(failed))
      ensures binds == Retain(old(binds), OtherMutation(failed))
      ensures executes == Retain(old(executes), LiveExecute(failed, wasSuspended))
    {
      descriptions := Retain(descriptions, OtherDescription(failed));
      parses := Retain(parses, OtherMutation(failed));
      binds := Retain(binds, OtherMutation(failed));
      executes := Retain(executes, LiveExecute(failed, wasSuspended));
    }

    /** Whatever was streaming died with the error. */
    method QuietDown()
      modifies this`streamingSimple, this`activePlan, this`activePortal, this`activeEpoch, this`suspended
      ensures !streamingSimple && !suspended
      ensures activePlan == None && activePortal == None && activeEpoch == None
    {
      streamingSimple, suspended := false, false;
      activePlan, activePortal, activeEpoch := None, None, None;
    }

    method DiscardEpoch(failed: nat)
      modifies this`streamingSimple, this`activePlan, this`activePortal, this`activeEpoch, this`suspended,
               this`statementSql, this`statementPlans, this`portalStatement, this`portalPlans,
               this`descriptions, this`parses, this`binds, this`executes
      ensures var t := M.DiscardEpoch(old(View()), failed);
              && streamingSimple == t.streamingSimple && suspended == t.suspended
              && activePlan == t.activePlan && activePortal == t.activePortal && activeEpoch == t.activeEpoch
              && statementSql == t.statementSql && statementPlans == t.statementPlans
              && portalStatement == t.portalStatement && portalPlans == t.portalPlans
              && descriptions == t.descriptions && parses == t.parses
              && binds == t.binds && executes == t.executes
    {
      var wasSuspended := suspended;
      QuietDown();
      ForgetFailedNames(failed);
      RetainLiveEntries(failed, wasSuspended);
    }

    method DiscardFailedEpoch()
      requires Valid()
      modifies this
      ensures Valid() && trace == old(trace) + [OpDiscardFailedEpoch]
    {
      DiscardFrame(View());
      DiscardFailedEpochFields();
      Record(old(View()), OpDiscardFailedEpoch);
    }

    method DiscardFailedEpochFields()
      modifies this`streamingSimple, this`activePlan, this`activePortal, this`activeEpoch, this`suspended,
               this`statementSql, this`statementPlans, this`portalStatement, this`portalPlans,
               this`descriptions, this`parses, this`binds, this`executes
      ensures var t := M.DiscardFailedEpoch(old(View()));
              && streamingSimple == t.streamingSimple && suspended == t.suspended
              && activePlan == t.activePlan && activePortal == t.activePortal && activeEpoch == t.activeEpoch
              && statementSql == t.statementSql && statementPlans == t.statementPlans
              && portalStatement == t.portalStatement && portalPlans == t.portalPlans
              && descriptions == t.descriptions && parses == t.parses
              && binds == t.binds && executes == t.executes
    {
      var failed := M.FailedEpoch(View());
      if failed.Some? {
        DiscardEpoch(failed.value);
      } else {
        QuietDown();
      }
    }

    method FinishNoData() returns (ok: bool)
      requires Valid()
      modifies this
      ensures Valid() && trace == old(trace) + [OpFinishNoData]
      ensures ok == DescribeIsNext(old(View()))
    {
      ok := descriptions != [] && descriptions[0].Describe?;
      if ok { descriptions := descriptions[1..]; }
      Record(old(View()), OpFinishNoData);
    }

    method DiscardDescription()
      requires Valid()
      modifies this
      ensures Valid() && trace == old(trace) + [OpDiscardDescription]
    {
      descriptions := Pop(descriptions);
      Record(old(View()), OpDiscardDescription);
    }

    /** Answer the head description: arm its plan, and cache a statement's. */
    method TakeDescription(plan: Plan)
      requires descriptions != []
      modifies this`descriptions, this`streamingSimple, this`activePlan, this`activeEpoch, this`statementPlans
      ensures var t := M.Taken(old(View()), plan);
              && descriptions == t.descriptions && streamingSimple == t.streamingSimple
              && activePlan == t.activePlan && activeEpoch == t.activeEpoch
              && statementPlans == t.statementPlans
    {
      var head := descriptions[0];
      descriptions := descriptions[1..];
      streamingSimple := head.Simple?;
      activePlan := Some(plan);
      activeEpoch := Some(head.epoch);
      if head.Describe? && head.target.Statement? {
        statementPlans := statementPlans[head.target.name := plan];
      }
    }

    method FinishDescription(plan: Plan) returns (ok: bool)
      requires Valid()
      modifies this
      ensures Valid() && trace == old(trace) + [OpFinishDescription(plan)]
      ensures ok == (old(descriptions) != [])
    {
      FinishDescriptionFrame(View(), plan);
      ok := FinishDescriptionFields(plan);
      Record(old(View()), OpFinishDescription(plan));
    }

    method FinishDescriptionFields(plan: Plan) returns (ok: bool)
      modifies this`descriptions, this`streamingSimple, this`statementPlans, this`portalPlans, this`executes,
               this`activePlan, this`activeEpoch
      ensures var t := M.FinishDescription(old(View()), plan);
              && descriptions == t.descriptions && streamingSimple == t.streamingSimple
              && statementPlans == t.statementPlans && portalPlans == t.portalPlans
              && executes == t.executes && activePlan == t.activePlan && activeEpoch == t.activeEpoch
      ensures ok == (old(descriptions) != [])
    {
      if descriptions == [] { return false; }
      var head := descriptions[0];
      TakeDescription(plan);
      if head.Describe? {
        match head.target {
          case Statement(name) => InstallForStatement(name, plan);
          case Portal(name) => InstallPortalPlan(name, plan);
        }
      }
      return true;
    }

    method FinishEmptyQuery() returns (ok: bool)
      requires Valid()
      modifies this
      ensures Valid() && trace == old(trace) + [OpFinishEmptyQuery]
      ensures ok == QueryIsNext(old(View()))
    {
      ok := descriptions != [] && descriptions[0].Simple?;
      if ok {
        descriptions := descriptions[1..];
        streamingSimple := false;
      }
      Record(old(View()), OpFinishEmptyQuery);
    }
  }

  /** What the answer to a description never touches. */
  predicate Untouched(s: State, t: State)
  {
    && t.statementSql == s.statementSql && t.portalStatement == s.portalStatement
    && t.portalFormats == s.portalFormats && t.bindGenerations == s.bindGenerations
    && t.activePortal == s.activePortal && t.parses == s.parses && t.binds == s.binds
    && t.suspended == s.suspended && t.syncEpoch == s.syncEpoch && t.nextOrder == s.nextOrder
    && t.generation == s.generation
  }

  lemma TakenFrame(s: State, plan: Plan)
    requires s.descriptions != []
    ensures Untouched(s, Taken(s, plan))
  {
  }

  lemma InstallFrame(s: State, plans: map<Name, Plan>)
    ensures Untouched(s, Install(s, plans))
  {
  }

  lemma FinishDescriptionFrame(s: State, plan: Plan)
    ensures Untouched(s, FinishDescription(s, plan))
  {
    if s.descriptions != [] {
      TakenFrame(s, plan);
      if s.descriptions[0].Describe? {
        InstallFrame(Taken(s, plan), DescribedPlans(s, s.descriptions[0].target, plan));
      }
    }
  }

  /** What an error never touches. */
  lemma DiscardFrame(s: State)
    ensures var t := DiscardFailedEpoch(s);
            && t.portalFormats == s.portalFormats && t.bindGenerations == s.bindGenerations
            && t.syncEpoch == s.syncEpoch && t.nextOrder == s.nextOrder && t.generation == s.generation
  {
    if FailedEpoch(s).Some? {
      DiscardEpochFrame(s, FailedEpoch(s).value);
    }
  }

  lemma DiscardEpochFrame(s: State, failed: nat)
    ensures var t := DiscardEpoch(s, failed);
            && t.portalFormats == s.portalFormats && t.bindGenerations == s.bindGenerations
            && t.syncEpoch == s.syncEpoch && t.nextOrder == s.nextOrder && t.generation == s.generation
  {
  }

  lemma FillNothing(q: seq<PendingExecute>, generations: map<Name, nat>)
    ensures FilledQueue(q, generations, map[]) == q
  {
  }

  /** Filling portal by portal is filling for all of them at once. */
  lemma FillTwice(q: seq<PendingExecute>, generations: map<Name, nat>, plans: map<Name, Plan>,
                  portal: Name, plan: Plan)
    requires portal !in plans
    ensures FilledQueue(FilledQueue(q, generations, plans), generations, map[portal := plan])
         == FilledQueue(q, generations, plans[portal := plan])
  {
  }

  /** Names with a mutation in the failed epoch and none in a later one. */
  method FailedNames(q: seq<PendingMutation>, failed: nat) returns (dead: set<Name>)
    ensures dead == DeadNames(q, failed)
  {
    var later := set m | m in q && m.epoch > failed :: m.name;
    dead := {};
    var i := 0;
    while i < |q|
      invariant 0 <= i <= |q|
      invariant dead == set m | m in q[..i] && m.epoch == failed && !PendingAfter(q, failed, m.name) :: m.name
    {
      assert q[..i + 1] == q[..i] + [q[i]];
      assert q[i].name in later <==> PendingAfter(q, failed, q[i].name);
      if q[i].epoch == failed && q[i].name !in later {
        dead := dead + {q[i].name};
      }
      i := i + 1;
    }
    assert q[..i] == q;
  }
}
