/**
 The plan a simple query's rows go out under. Its own RowDescription arms the plan, in a
 cell that an Execute or another Query sent while the rows still stream writes to again.
 Over every legal run: exactly when the rows have the plan described for them.
 */
module PipelineRows {
  import opened Wrappers
  import opened PlanStateModel
  import opened PlanOrder
  import opened Pipeline
  import opened PipelineTexts

  /** A message whose sending writes to the cell. */
  predicate Rearms(a: Action)
  {
    a.Send? && (a.message.SExecute? || a.message.SQuery?)
  }

  /** The last action that does. */
  ghost predicate LastRearm(more: seq<Action>, j: nat)
  {
    j < |more| && Rearms(more[j]) && forall k :: j < k < |more| ==> !Rearms(more[k])
  }

  /** What that leaves in it: the portal's plan, or none. */
  function Rearmed(s: State, a: Action): Option<Plan>
    requires Rearms(a)
  {
    match a.message
    case SExecute(portal) => Get(s.portalPlans, portal)
    case SQuery(_) => None
  }

  lemma {:induction false} OneMore(before: seq<Action>, a: Action)
    ensures ServerAfter(before + [a]) == Advance(ServerAfter(before), a)
    ensures ProxyAfter(before + [a]) == ProxyStep(ProxyAfter(before), a)
  {
    assert (before + [a])[..|before|] == before;
  }

  lemma {:induction false} LastIsEnabled(before: seq<Action>, a: Action)
    requires Legal(before + [a])
    ensures Legal(before) && Enabled(ServerAfter(before), a)
  {
    PrefixIsLegal(before + [a], |before|);
    assert (before + [a])[..|before|] == before;
  }

  // ---- Right after the RowDescription ---------------------------------------

  lemma AnswerArms(s: State, plan: Plan)
    requires QueryIsNext(s)
    ensures var t := FinishDescription(s, plan); t.streamingSimple && StreamingPlan(t) == Some(plan)
  {
  }

  /** The rows that follow a Query's own RowDescription go out under the plan described by it. */
  lemma {:induction false} RowDescriptionArms(actions: seq<Action>, plan: Plan)
    requires Legal(actions + [RowDescription(plan)]) && |actions| < U64_MAX
    requires ServerAfter(actions).fifo != [] && ServerAfter(actions).fifo[0].sent.SQuery?
    ensures var after := actions + [RowDescription(plan)];
            && ServerAfter(after).streaming && ServerAfter(after).fifo == ServerAfter(actions).fifo
            && ProxyAfter(after).streamingSimple && StreamingPlan(ProxyAfter(after)) == Some(plan)
  {
    LastIsEnabled(actions, RowDescription(plan));
    OneMore(actions, RowDescription(plan));
    AnswersMeetTheirOwnEntry(actions);
    DescriptionStep(ProxyAfter(actions), plan);
    AnswerArms(ProxyAfter(actions), plan);
  }

  // ---- While the rows stream ------------------------------------------------

  predicate SameCell(s: State, t: State)
  {
    t.streamingSimple == s.streamingSimple && t.activePlan == s.activePlan
  }

  lemma ParseKeepsTheCell(s: State, name: Name, sql: Sql)
    ensures SameCell(s, Parse(s, name, sql))
  {
  }

  lemma CloseKeepsTheCell(s: State, target: Target)
    ensures SameCell(s, Close(s, target))
  {
  }

  lemma BindKeepsTheCell(s: State, portal: Name, statement: Name, formats: Formats)
    ensures SameCell(s, Bind(s, portal, statement, formats))
  {
    var base := Rebound(s, portal, statement, formats);
    assert SameCell(s, base);
    if statement in s.statementPlans {
      InstallKeepsTheCell(base, map[portal := Stamp(s.statementPlans[statement], formats)]);
    }
  }

  lemma InstallKeepsTheCell(s: State, plans: map<Name, Plan>)
    ensures SameCell(s, Install(s, plans))
  {
  }

  lemma SendKeepsTheCell(s: State, m: Sent)
    requires !Rearms(Send(m))
    ensures SameCell(s, ProxyStep(s, Send(m)))
  {
    match m
    case SParse(name, sql) => ParseStep(s, name, sql); ParseKeepsTheCell(s, name, sql);
    case SBind(portal, statement, formats) =>
      BindStep(s, portal, statement, formats);
      BindKeepsTheCell(s, portal, statement, formats);
    case SDescribe(target) => DescribeStep(s, target);
    case SClose(target) => CloseStep(s, target); CloseKeepsTheCell(s, target);
    case SSync => SyncStep(s);
  }

  lemma RearmingStep(s: State, a: Action)
    requires s.streamingSimple && Rearms(a)
    ensures ProxyStep(s, a).streamingSimple && StreamingPlan(ProxyStep(s, a)) == Rearmed(s, a)
  {
    match a.message
    case SExecute(portal) => ExecuteStep(s, portal);
    case SQuery(query) => QueryStep(s, query);
  }

  /** A message sent, or a refresh, leaves the stream a simple query's, and writes to the cell only if it rearms it. */
  lemma StreamingStep(s: State, a: Action)
    requires s.streamingSimple && (a.Send? || a.Refresh?)
    ensures ProxyStep(s, a).streamingSimple
    ensures StreamingPlan(ProxyStep(s, a)) == if Rearms(a) then Rearmed(s, a) else StreamingPlan(s)
  {
    if Rearms(a) {
      RearmingStep(s, a);
    } else if a.Send? {
      SendKeepsTheCell(s, a.message);
    } else {
      RefreshInvalidates(s, a.current);
    }
  }

  /** Until its CommandComplete, the server has nothing else to answer with. */
  lemma OnlyItsEndAnswers(r: Server, a: Action)
    requires r.streaming && r.fifo != [] && r.fifo[0].sent.SQuery? && Enabled(r, a) && !a.CommandComplete?
    ensures (a.Send? || a.Refresh?) && Advance(r, a).streaming
    ensures Advance(r, a).fifo != [] && Advance(r, a).fifo[0] == r.fifo[0]
  {
  }

  /** The state of the stream `more` actions after the RowDescription that began it. */
  ghost predicate StreamsOn(from: seq<Action>, more: seq<Action>, plan: Plan)
  {
    var s, r := ProxyAfter(from + more), ServerAfter(from + more);
    && s.streamingSimple && r.streaming && r.fifo != [] && r.fifo[0].sent.SQuery?
    && ((forall j :: 0 <= j < |more| ==> !Rearms(more[j])) ==> StreamingPlan(s) == Some(plan))
    && forall j: nat :: LastRearm(more, j) ==>
         StreamingPlan(s) == Rearmed(ProxyAfter(from + more[..j]), more[j])
  }

  lemma {:induction false} StreamsOneMore(from: seq<Action>, more: seq<Action>, a: Action, plan: Plan)
    requires StreamsOn(from, more, plan) && Enabled(ServerAfter(from + more), a) && !a.CommandComplete?
    ensures StreamsOn(from, more + [a], plan)
  {
    var longer := more + [a];
    assert from + longer == (from + more) + [a];
    OneMore(from + more, a);
    OnlyItsEndAnswers(ServerAfter(from + more), a);
    StreamingStep(ProxyAfter(from + more), a);
    forall j: nat | LastRearm(longer, j)
      ensures StreamingPlan(ProxyAfter(from + longer)) == Rearmed(ProxyAfter(from + longer[..j]), longer[j])
    {
      if j == |more| {
        assert longer[..j] == more;
      } else {
        assert longer[..j] == more[..j] && !Rearms(longer[|more|]);
        assert forall k :: j < k < |more| ==> !Rearms(more[k]) by {
          assert forall k :: j < k < |more| ==> more[k] == longer[k];
        }
        assert LastRearm(more, j);
      }
    }
    if forall j :: 0 <= j < |longer| ==> !Rearms(longer[j]) {
      assert forall j :: 0 <= j < |more| ==> more[j] == longer[j];
      assert !Rearms(longer[|more|]);
    }
  }

  lemma {:induction false} StreamsThroughout(from: seq<Action>, more: seq<Action>, plan: Plan)
    requires StreamsOn(from, [], plan) && Legal(from + more) && CommandComplete !in more
    ensures StreamsOn(from, more, plan)
    decreases |more|
  {
    if more != [] {
      var n := |more| - 1;
      var before, a := more[..n], more[n];
      assert more == before + [a] && from + more == (from + before) + [a];
      LastIsEnabled(from + before, a);
      StreamsThroughout(from, before, plan);
      StreamsOneMore(from, before, a, plan);
    }
  }

  /**
   The rows of a Query, over every legal run. From its RowDescription to its
   CommandComplete the rows go out under the plan described for them if and only if no
   Execute or Query has been sent since, or the last of these is an Execute of a portal
   whose plan is that very plan. Otherwise they go out under the plan of that portal, or
   are refused.
   */
  lemma {:induction false} QueryRowsHaveTheirOwnPlanIff(actions: seq<Action>, plan: Plan, more: seq<Action>)
    requires Legal(actions + [RowDescription(plan)] + more) && |actions| < U64_MAX
    requires ServerAfter(actions).fifo != [] && ServerAfter(actions).fifo[0].sent.SQuery?
    requires CommandComplete !in more
    ensures var from := actions + [RowDescription(plan)];
            var s := ProxyAfter(from + more);
            && ServerAfter(from + more).streaming && s.streamingSimple
            && (StreamingPlan(s) == Some(plan) <==>
                  forall j: nat :: LastRearm(more, j) ==>
                    Rearmed(ProxyAfter(from + more[..j]), more[j]) == Some(plan))
            && forall j: nat :: LastRearm(more, j) ==>
                 StreamingPlan(s) == Rearmed(ProxyAfter(from + more[..j]), more[j])
  {
    var from := actions + [RowDescription(plan)];
    PrefixIsLegal(from + more, |from|);
    assert (from + more)[..|from|] == from && from + [] == from;
    RowDescriptionArms(actions, plan);
    StreamsThroughout(from, more, plan);
    RearmingEnds(more);
  }

  lemma {:induction false} RearmingEnds(more: seq<Action>)
    ensures (exists j: nat :: LastRearm(more, j)) || forall j :: 0 <= j < |more| ==> !Rearms(more[j])
  {
    if more != [] {
      var n := |more| - 1;
      if Rearms(more[n]) {
        assert LastRearm(more, n);
      } else {
        RearmingEnds(more[..n]);
        if j: nat :| LastRearm(more[..n], j) {
          assert forall k :: j < k < n ==> more[k] == more[..n][k];
          assert LastRearm(more, j);
        } else {
          assert forall j :: 0 <= j < n ==> more[j] == more[..n][j];
        }
      }
    }
  }
}
