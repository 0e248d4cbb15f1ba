/**
 Whose text an answer is judged by. The proxy records, for a Describe of a portal, the text
 the portal's statement has by then; the server describes the text the portal was bound to.
 Over every legal run: exactly when they are the same.
 */
module PipelineTexts {
  import opened Wrappers
  import opened PlanStateModel
  import opened PlanOrder
  import opened PlanOrigin
  import opened PlanRuns
  import opened Pipeline

  // ---- A counter on record means the text bound is the text on record --------

  ghost predicate CountersMeanText(s: State, r: Server)
  {
    forall p :: p in s.bindGenerations ==> BoundText(r.sent, p) == LatestText(r.sent, Portal(p))
  }

  lemma {:induction false} UnboundHasNoText(sent: seq<Sent>, portal: Name)
    requires LastBinding(sent, portal).None?
    ensures BoundText(sent, portal).None?
  {
    if sent != [] {
      var m, earlier := sent[|sent| - 1], sent[..|sent| - 1];
      if !(m.SBind? && m.portal == portal) && m != SClose(Portal(portal))
         && !(m.SClose? && m.target.Statement? && LastBinding(earlier, portal) == Some(m.target.name)) {
        UnboundHasNoText(earlier, portal);
      }
    }
  }

  /** What one more message does to the two texts of a portal. */
  lemma OneMoreMessage(sent: seq<Sent>, m: Sent, portal: Name)
    requires !m.SBind? || m.portal != portal
    requires m.SParse? ==> LastBinding(sent, portal) != Some(m.name) || LastText(sent, m.name) == Some(m.sql)
    requires BoundText(sent, portal) == LatestText(sent, Portal(portal))
    ensures BoundText(sent + [m], portal) == LatestText(sent + [m], Portal(portal))
  {
    var longer := sent + [m];
    assert longer[..|longer| - 1] == sent;
  }

  lemma OwnBind(sent: seq<Sent>, portal: Name, statement: Name, formats: Formats)
    ensures var longer := sent + [SBind(portal, statement, formats)];
            BoundText(longer, portal) == LatestText(longer, Portal(portal))
  {
    var longer := sent + [SBind(portal, statement, formats)];
    assert longer[..|longer| - 1] == sent;
  }

  lemma InstallingKeepsGenerations(s: State, op: Op)
    requires op.OpInvalidateIfStale? || op.OpFinishBind? || op.OpExecute?
    ensures Step(s, op).bindGenerations == s.bindGenerations
  {
  }

  lemma DescriptionKeepsGenerations(s: State, plan: Plan)
    ensures FinishDescription(s, plan).bindGenerations == s.bindGenerations
  {
    if s.descriptions != [] && s.descriptions[0].Describe? {
      assert FinishDescription(s, plan)
          == Install(Taken(s, plan), DescribedPlans(s, s.descriptions[0].target, plan));
    }
  }

  /** Only a Parse and a Bind touch counters. */
  lemma StepKeepsGenerations(s: State, op: Op)
    requires !op.OpParse? && !op.OpBind?
    ensures Step(s, op).bindGenerations == s.bindGenerations
  {
    if op.OpFinishDescription? {
      DescriptionKeepsGenerations(s, op.plan);
    } else if OnlyForgets(op) {
      StepForgets(s, op);
    } else {
      InstallingKeepsGenerations(s, op);
    }
  }

  lemma ParseLeaves(s: State, name: Name, sql: Sql, p: Name)
    ensures p in Parse(s, name, sql).bindGenerations ==>
              p in s.bindGenerations && (ChangesText(s, name, sql) ==> p !in BoundTo(s, name))
  {
  }

  lemma BindLeaves(s: State, portal: Name, statement: Name, formats: Formats, p: Name)
    ensures p in Bind(s, portal, statement, formats).bindGenerations ==> p == portal || p in s.bindGenerations
  {
    var base := Rebound(s, portal, statement, formats);
    assert base.bindGenerations == s.bindGenerations[portal := BumpedGeneration(s, portal)];
    if statement in s.statementPlans {
      InstallKeepsGenerations(base, map[portal := Stamp(s.statementPlans[statement], formats)]);
    }
  }

  lemma InstallKeepsGenerations(s: State, plans: map<Name, Plan>)
    ensures Install(s, plans).bindGenerations == s.bindGenerations
  {
  }

  /** Which counters an operation for this message may leave. */
  lemma CountersLeft(s: State, m: Sent, p: Name)
    ensures p in Step(s, SendOp(m)).bindGenerations ==>
              || (m.SBind? && m.portal == p)
              || (p in s.bindGenerations
                  && (m.SParse? && ChangesText(s, m.name, m.sql) ==> p !in BoundTo(s, m.name)))
  {
    match m
    case SParse(name, sql) => ParseLeaves(s, name, sql, p);
    case SBind(portal, statement, formats) => BindLeaves(s, portal, statement, formats, p);
    case _ => StepKeepsGenerations(s, SendOp(m));
  }

  lemma SendKeepsCounters(s: State, r: Server, m: Sent)
    requires NamesMatch(s, r) && CountersMeanText(s, r)
    ensures CountersMeanText(Step(s, SendOp(m)), Accept(r, m))
  {
    var t := Step(s, SendOp(m));
    forall p | p in t.bindGenerations
      ensures BoundText(r.sent + [m], p) == LatestText(r.sent + [m], Portal(p))
    {
      CountersLeft(s, m, p);
      if m.SBind? && m.portal == p {
        OwnBind(r.sent, p, m.statement, m.formats);
      } else {
        assert Get(s.portalStatement, p) == LastBinding(r.sent, p);
        OneMoreMessage(r.sent, m, p);
      }
    }
  }

  lemma StepKeepsCounters(s: State, r: Server, a: Action)
    requires NamesMatch(s, r) && CountersMeanText(s, r)
    ensures CountersMeanText(ProxyStep(s, a), Advance(r, a))
  {
    if a.Send? {
      SendKeepsCounters(s, r, a.message);
    } else {
      if ProxyOp(a).Some? {
        StepKeepsGenerations(s, ProxyOp(a).value);
      }
      assert Advance(r, a).sent == r.sent;
    }
  }

  lemma {:induction false} RunKeepsCounters(actions: seq<Action>)
    requires Legal(actions) && |actions| <= U64_MAX
    ensures CountersMeanText(ProxyAfter(actions), ServerAfter(actions))
  {
    if actions != [] {
      var before, a := actions[..|actions| - 1], actions[|actions| - 1];
      assert forall j :: 0 <= j < |before| ==> before[..j] == actions[..j];
      RunKeepsCounters(before);
      QueuesAreProjections(before);
      StepKeepsCounters(ProxyAfter(before), ServerAfter(before), a);
    }
  }

  // ---- Every outstanding Describe was sent, with these two texts ---------------

  /** The Describe is action `j`, and carries the texts its target had in the messages before. */
  ghost predicate SentAt(actions: seq<Action>, o: Outstanding, j: nat)
  {
    && j < |actions| && actions[j] == Send(o.sent) && o.sent.SDescribe?
    && o.text == DescribedText(ServerAfter(actions[..j]).sent, o.sent.target)
    && o.latest == LatestText(ServerAfter(actions[..j]).sent, o.sent.target)
  }

  lemma {:induction false} DescribesWereSent(actions: seq<Action>, i: nat) returns (j: nat)
    requires i < |ServerAfter(actions).fifo| && ServerAfter(actions).fifo[i].sent.SDescribe?
    ensures SentAt(actions, ServerAfter(actions).fifo[i], j)
  {
    var n := |actions| - 1;
    var before, a := actions[..n], actions[n];
    var r, o := ServerAfter(before), ServerAfter(actions).fifo[i];
    if a.Send? && i >= |r.fifo| {
      j := n;
      assert o == Owed(r, a.message)[0];
    } else {
      var k := if ServerAfter(actions).fifo == r.fifo || a.Send? then i else i + 1;
      assert r.fifo[k] == o;
      j := DescribesWereSent(before, k);
      assert before[..j] == actions[..j];
    }
  }

  // ---- The exact condition --------------------------------------------------

  /**
   The answer the server owes next is judged by the text it is about exactly when, at the
   moment the Describe was sent, the text on record for its target was the one the target
   stands for on the server: always for a statement, and for a portal in particular when
   its bind generation was on record.
   */
  ghost predicate JudgedByItsOwnTextIff(actions: seq<Action>, o: Outstanding, j: nat)
  {
    && SentAt(actions, o, j)
    && var sent, target := ServerAfter(actions[..j]).sent, o.sent.target;
    && (DescribedSql(ProxyAfter(actions)) == o.text <==> LatestText(sent, target) == DescribedText(sent, target))
    && (target.Statement? ==> DescribedSql(ProxyAfter(actions)) == o.text)
    && (target.Portal? && BindGeneration(ProxyAfter(actions[..j]), target.name) >= 1 ==>
          DescribedSql(ProxyAfter(actions)) == o.text)
  }

  lemma PrefixIsLegal(actions: seq<Action>, j: nat)
    requires Legal(actions) && j <= |actions|
    ensures Legal(actions[..j])
  {
    forall k | 0 <= k < j ensures Enabled(ServerAfter(actions[..j][..k]), actions[..j][k]) {
      assert actions[..j][..k] == actions[..k];
    }
  }

  lemma AnswersAreJudgedByTheirOwnTextIff(actions: seq<Action>)
    requires Legal(actions) && |actions| <= U64_MAX
    requires ServerAfter(actions).fifo != [] && ServerAfter(actions).fifo[0].sent.SDescribe?
    ensures exists j: nat :: JudgedByItsOwnTextIff(actions, ServerAfter(actions).fifo[0], j)
  {
    AnswersMeetTheirOwnEntry(actions);
    var o := ServerAfter(actions).fifo[0];
    var j := DescribesWereSent(actions, 0);
    PrefixIsLegal(actions, j);
    RunKeepsCounters(actions[..j]);
    assert JudgedByItsOwnTextIff(actions, o, j);
  }
}
