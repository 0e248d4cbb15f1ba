/**
 When a plan is the plan of what the Execute runs. A Describe is matched with its answer,
 but the answer is filed under the portal's or statement's name as it stands by then: a
 Bind or a change of text sent while the Describe is pending overtakes it. For every run,
 an Execute's plan was described for its own Bind and text exactly when its Describe was
 not overtaken. A client that never overtakes one is safe; one that overtakes a Describe
 with a Bind or a Parse need not be. (After a Close the name must be prepared again before
 it is bound, and that Parse drops the late plan.)
 */
module PlanOvertaking {
  import opened Wrappers
  import opened Sequences
  import opened PlanStateModel
  import opened PlanFormats
  import opened PlanOrder
  import opened PlanHistory
  import opened PlanOrigin
  import opened PlanRuns

  /** The plan answers a Describe of the portal, or of the statement bound at step `i`, with that Bind's formats. */
  ghost predicate AnswersBindingAt(
    ops: seq<Op>, i: nat, portal: Name, target: Target, described: Plan, plan: Plan)
  {
    || (target == Portal(portal) && plan == described)
    || (target.Statement?
        && exists b: nat, formats :: BoundAt(ops, b, i, portal, target.name, formats)
                                     && InFormats(plan, described, formats))
  }

  /**
   The Describe sent at `asked` was about what the Execute issued at `i` runs: the portal
   stood for the same Bind at both times, or the statement had the text it had when the
   Execute's own Bind named it.
   */
  ghost predicate DescribedForIt(
    ops: seq<Op>, at: seq<World>, portal: Name, i: nat, asked: nat, target: Target)
    requires |at| == |ops| + 1 && i <= |ops| && asked <= |ops|
  {
    if target.Portal? then LastEvent(ops, at, target, asked) == LastEvent(ops, at, target, i)
    else exists b: nat, formats :: BoundAt(ops, b, i, portal, target.name, formats)
           && LastEvent(ops, at, target, asked) == LastEvent(ops, at, target, b)
  }

  lemma BindKeepsTexts(s: State, portal: Name, statement: Name, formats: Formats)
    ensures Bind(s, portal, statement, formats).statementSql == s.statementSql
  {
  }

  lemma FinishDescriptionKeepsTexts(s: State, plan: Plan)
    ensures FinishDescription(s, plan).statementSql == s.statementSql
  {
    if s.descriptions != [] {
      AnswerKeepsBindings(s, plan);
    }
  }

  lemma FinishBindKeepsTexts(s: State)
    ensures FinishBind(s).statementSql == s.statementSql
  {
  }

  lemma ExecuteKeepsTexts(s: State, portal: Name)
    ensures Execute(s, portal).statementSql == s.statementSql
  {
  }

  lemma FinishResultSetKeepsTexts(s: State)
    ensures FinishResultSet(s).statementSql == s.statementSql
  {
  }

  lemma OtherStepKeepsTexts(s: State, op: Op)
    requires !op.OpParse? && !op.OpClose? && !op.OpDiscardFailedEpoch?
    ensures Step(s, op).statementSql == s.statementSql
  {
    match op
    case OpBind(portal, statement, formats) => BindKeepsTexts(s, portal, statement, formats);
    case OpFinishBind => FinishBindKeepsTexts(s);
    case OpExecute(portal) => ExecuteKeepsTexts(s, portal);
    case OpFinishResultSet => FinishResultSetKeepsTexts(s);
    case OpFinishDescription(plan) => FinishDescriptionKeepsTexts(s, plan);
    case _ =>
  }

  lemma ParseKeepsText(s: State, parsed: Name, sql: Sql, name: Name)
    requires parsed != name || !ChangesText(s, name, sql)
    ensures Get(Parse(s, parsed, sql).statementSql, name) == Get(s.statementSql, name)
  {
  }

  lemma CloseKeepsText(s: State, target: Target, name: Name)
    requires target != Statement(name)
    ensures Get(Close(s, target).statementSql, name) == Get(s.statementSql, name)
  {
  }

  lemma StepKeepsText(s: State, op: Op, name: Name)
    requires !Redefines(s, op, Statement(name)) && !op.OpDiscardFailedEpoch?
    ensures Get(Step(s, op).statementSql, name) == Get(s.statementSql, name)
  {
    if op.OpParse? {
      ParseKeepsText(s, op.name, op.sql, name);
    } else if op.OpClose? {
      CloseKeepsText(s, op.target, name);
    } else {
      OtherStepKeepsTexts(s, op);
    }
  }

  /** As long as no step redefines a statement and no error drops it, its text on record is the same. */
  lemma {:induction false} UndisturbedTextIsTheSame(ops: seq<Op>, name: Name, j: nat, k: nat)
    requires j <= k <= |ops| && Undisturbed(ops, Worlds(ops), Statement(name), j, k)
    requires forall x :: j <= x < k ==> !ops[x].OpDiscardFailedEpoch?
    ensures Get(Run(ops[..j]).statementSql, name) == Get(Run(ops[..k]).statementSql, name)
    decreases k
  {
    if j < k {
      var x := k - 1;
      UndisturbedTextIsTheSame(ops, name, j, x);
      WorldsAreRuns(ops, x);
      StepKeepsText(Run(ops[..x]), ops[x], name);
      RunExtends(ops[..x], ops[x]);
      assert ops[..x] + [ops[x]] == ops[..k];
    }
  }

  /** Nothing redefined the name while this Describe of it was pending. */
  ghost predicate NotOvertaken(ops: seq<Op>, at: seq<World>, asked: nat, d: nat, target: Target)
    requires |at| == |ops| + 1
  {
    Undisturbed(ops, at, target, asked, d)
  }

  // ---- The exact condition --------------------------------------------------

  /** With a generation on record, a plan's origin answers the Execute's own binding. */
  lemma OriginFitsTheBinding(ops: seq<Op>, at: seq<World>, e: PendingExecute, a: Answer)
    requires Reached(ops, at) && IsOrigin(at[|ops|].h, e, a) && e.bindGeneration >= 1
    ensures AnswersBindingAt(ops, at[|ops|].h.issues[e.order].step, e.name, a.target, a.plan, e.plan.value)
  {
    var issue := at[|ops|].h.issues[e.order];
    assert IssueIsReal(ops, at, issue, e.order);
    var b := issue.bind.value;
    assert BoundAt(ops, b.step, issue.step, e.name, b.statement, b.formats);
  }

  lemma OvertakenMarks(ops: seq<Op>, at: seq<World>, a: Answer)
    requires Faithful(ops, at) && a in at[|ops|].h.answers
    ensures AnswerIsReal(ops, at, a)
    ensures a.askedUnder == LastEvent(ops, at, a.target, a.asked)
    ensures NotOvertaken(ops, at, a.asked, a.step, a.target) <==> a.askedUnder == a.answeredUnder
  {
    assert AnswerIsReal(ops, at, a);
    InForceIsTheLastEvent(ops, at, a.target, a.asked);
    InForceIsTheLastEvent(ops, at, a.target, a.step);
    LastEventsAgree(ops, at, a.target, a.asked, a.step);
  }

  lemma LastBindIsUnique(ops: seq<Op>, i: nat, portal: Name, b: nat, s: Name, f: Formats, c: nat, t: Name, g: Formats)
    requires BoundAt(ops, b, i, portal, s, f) && BoundAt(ops, c, i, portal, t, g)
    ensures b == c && s == t && f == g
  {
  }

  /** The Execute's own marks: its Bind's step, and its statement's text at that Bind. */
  lemma IssueMarks(ops: seq<Op>, at: seq<World>, issue: Issue, order: nat)
    requires Faithful(ops, at) && IssueIsReal(ops, at, issue, order) && issue.bind.Some?
    ensures LastEvent(ops, at, Portal(issue.name), issue.step) == Some(issue.bind.value.step)
    ensures issue.bind.value.step <= |ops|
    ensures LastEvent(ops, at, Statement(issue.bind.value.statement), issue.bind.value.step) == issue.bind.value.text
  {
    var b := issue.bind.value;
    InForceIsTheLastEvent(ops, at, Portal(issue.name), issue.step);
    InForceIsTheLastEvent(ops, at, Statement(b.statement), b.step);
  }

  /** The text of the statement bound, compared at the Execute's one Bind. */
  lemma DescribedForItsText(ops: seq<Op>, at: seq<World>, portal: Name, i: nat, asked: nat, b: BindRecord)
    requires |at| == |ops| + 1 && i <= |ops| && asked <= |ops|
    requires BoundAt(ops, b.step, i, portal, b.statement, b.formats)
    ensures DescribedForIt(ops, at, portal, i, asked, Statement(b.statement)) <==>
              LastEvent(ops, at, Statement(b.statement), asked) == LastEvent(ops, at, Statement(b.statement), b.step)
  {
    forall c: nat, formats | BoundAt(ops, c, i, portal, b.statement, formats) ensures c == b.step {
      LastBindIsUnique(ops, i, portal, b.step, b.statement, b.formats, c, b.statement, formats);
    }
  }

  lemma OvertakenExactly(ops: seq<Op>, at: seq<World>, e: PendingExecute, a: Answer)
    requires Reached(ops, at) && IsOrigin(at[|ops|].h, e, a) && e.bindGeneration >= 1
    ensures var i := at[|ops|].h.issues[e.order].step;
            && i < |ops| && a.asked < |ops|
            && (DescribedForIt(ops, at, e.name, i, a.asked, a.target)
                <==> NotOvertaken(ops, at, a.asked, a.step, a.target))
  {
    var issue := at[|ops|].h.issues[e.order];
    assert IssueIsReal(ops, at, issue, e.order);
    OvertakenMarks(ops, at, a);
    IssueMarks(ops, at, issue, e.order);
    if a.target.Statement? {
      DescribedForItsText(ops, at, e.name, issue.step, a.asked, issue.bind.value);
    }
  }

  /** Everything the origin theorem says of one Execute. */
  ghost predicate HasExactOrigin(
    ops: seq<Op>, at: seq<World>, e: PendingExecute, i: nat, asked: nat, d: nat, target: Target, described: Plan)
    requires |at| == |ops| + 1
  {
    && PlannedBy(ops, at, e, i, asked, d, target, described)
    && AnswersBindingAt(ops, i, e.name, target, described, e.plan.value)
    && (DescribedForIt(ops, at, e.name, i, asked, target) <==> NotOvertaken(ops, at, asked, d, target))
  }

  lemma OriginIsExact(ops: seq<Op>, at: seq<World>, e: PendingExecute, a: Answer)
    requires Reached(ops, at) && IsOrigin(at[|ops|].h, e, a) && e.bindGeneration >= 1
    ensures HasExactOrigin(ops, at, e, at[|ops|].h.issues[e.order].step, a.asked, a.step, a.target, a.plan)
  {
    OriginIsPlannedBy(ops, at, e, a);
    OriginFitsTheBinding(ops, at, e, a);
    OvertakenExactly(ops, at, e, a);
  }

  /**
   Plan origin, exactly. In every run, the plan of a queued Execute with a generation on
   record answers a Describe of its portal, or of the statement its Bind named with that
   Bind's formats; and that Describe was about the Execute's own Bind, or the text its
   Bind saw, if and only if no Bind of the portal, or no change of the statement's text,
   was sent while the Describe was pending.
   */
  lemma OwnPlanIffNotOvertaken(ops: seq<Op>, e: PendingExecute)
    requires |ops| <= U64_MAX && e in Run(ops).executes && e.plan.Some? && e.bindGeneration >= 1
    ensures exists i: nat, asked: nat, d: nat, target, described ::
              HasExactOrigin(ops, Worlds(ops), e, i, asked, d, target, described)
  {
    RunReaches(ops);
    var a := OriginExists(Run(ops), HistoryOf(ops), e);
    OriginIsExact(ops, Worlds(ops), e, a);
  }

  // ---- Executes without a generation on record ------------------------------

  /** The step a name's last event names did redefine it. */
  lemma {:induction false} LastEventIsAnEvent(ops: seq<Op>, at: seq<World>, target: Target, k: nat)
    requires |at| == |ops| + 1 && k <= |ops| && LastEvent(ops, at, target, k).Some?
    ensures var x := LastEvent(ops, at, target, k).value;
            x < k && Redefines(at[x].s, ops[x], target) && Undisturbed(ops, at, target, x + 1, k)
  {
    if !Redefines(at[k - 1].s, ops[k - 1], target) {
      LastEventIsAnEvent(ops, at, target, k - 1);
    }
  }

  /** The Bind in force at a step is the portal's last event, and what the Execute's record names. */
  lemma {:induction false} BindIsTheLastEvent(
    ops: seq<Op>, at: seq<World>, b: nat, i: nat, portal: Name, statement: Name, formats: Formats)
    requires |at| == |ops| + 1 && BoundAt(ops, b, i, portal, statement, formats)
    ensures LastEvent(ops, at, Portal(portal), i) == Some(b)
  {
    LastEventsAgree(ops, at, Portal(portal), b + 1, i);
    assert Redefines(at[b].s, ops[b], Portal(portal));
  }

  lemma {:induction false} BindInForce(
    ops: seq<Op>, at: seq<World>, issue: Issue, order: nat, b: nat, statement: Name, formats: Formats)
    requires Faithful(ops, at) && IssueIsReal(ops, at, issue, order)
    requires BoundAt(ops, b, issue.step, issue.name, statement, formats)
    ensures LastEvent(ops, at, Portal(issue.name), issue.step) == Some(b)
    ensures issue.bind.Some? && issue.bind.value.step == b
  {
    BindIsTheLastEvent(ops, at, b, issue.step, issue.name, statement, formats);
    InForceIsTheLastEvent(ops, at, Portal(issue.name), issue.step);
  }

  /** The answer came under something later than step `b`, or not earlier. */
  ghost predicate AnsweredUnder(ops: seq<Op>, at: seq<World>, target: Target, d: nat, b: nat)
    requires |at| == |ops| + 1 && d <= |ops|
  {
    var mark := LastEvent(ops, at, target, d);
    mark.Some? && (if target.Statement? then mark.value > b else mark.value >= b)
  }

  /**
   What is known of a plan when the portal had no counter: a statement's plan was answered
   under a text later than the Execute's own Bind, so unless the Describe was overtaken it is
   not the plan of what the Execute runs; a portal's plan, unless overtaken, is, exactly if
   the portal was not bound again between the Execute and the answer.
   */
  ghost predicate CounterlessOrigin(
    ops: seq<Op>, at: seq<World>, e: PendingExecute, i: nat, asked: nat, d: nat, target: Target, b: nat)
    requires |at| == |ops| + 1 && i <= |ops| && asked <= |ops| && d <= |ops|
  {
    && AnsweredUnder(ops, at, target, d, b)
    && (NotOvertaken(ops, at, asked, d, target) ==>
          (DescribedForIt(ops, at, e.name, i, asked, target) <==>
             target.Portal? && (d <= i || Undisturbed(ops, at, target, i, d))))
  }

  lemma AnsweredUnderMark(
    ops: seq<Op>, at: seq<World>, e: PendingExecute, a: Answer, b: nat, statement: Name, formats: Formats)
    requires Reached(ops, at) && IsOrigin(at[|ops|].h, e, a) && e.bindGeneration == 0
    requires BoundAt(ops, b, at[|ops|].h.issues[e.order].step, e.name, statement, formats)
    ensures a.step <= |ops| && AnsweredUnder(ops, at, a.target, a.step, b)
    ensures LastEvent(ops, at, Portal(e.name), at[|ops|].h.issues[e.order].step) == Some(b)
  {
    var issue := at[|ops|].h.issues[e.order];
    assert IssueIsReal(ops, at, issue, e.order) && AnswerIsReal(ops, at, a);
    BindInForce(ops, at, issue, e.order, b, statement, formats);
    InForceIsTheLastEvent(ops, at, a.target, a.step);
  }

  lemma StatementUnderALaterText(
    ops: seq<Op>, at: seq<World>, portal: Name, i: nat, asked: nat, d: nat, name: Name,
    b: nat, statement: Name, formats: Formats)
    requires |at| == |ops| + 1 && i <= |ops| && asked <= d <= |ops|
    requires BoundAt(ops, b, i, portal, statement, formats) && AnsweredUnder(ops, at, Statement(name), d, b)
    ensures NotOvertaken(ops, at, asked, d, Statement(name)) ==>
              !DescribedForIt(ops, at, portal, i, asked, Statement(name))
  {
    LastEventsAgree(ops, at, Statement(name), asked, d);
    LastEventsAgree(ops, at, Statement(name), b, b);
    forall c: nat, f | BoundAt(ops, c, i, portal, name, f) ensures c == b {
      LastBindIsUnique(ops, i, portal, b, statement, formats, c, name, f);
    }
  }

  lemma PortalUnderItsBind(
    ops: seq<Op>, at: seq<World>, portal: Name, i: nat, asked: nat, d: nat, b: nat)
    requires |at| == |ops| + 1 && i <= |ops| && asked <= d <= |ops|
    requires LastEvent(ops, at, Portal(portal), i) == Some(b) && AnsweredUnder(ops, at, Portal(portal), d, b)
    ensures NotOvertaken(ops, at, asked, d, Portal(portal)) ==>
              (DescribedForIt(ops, at, portal, i, asked, Portal(portal)) <==>
                 d <= i || Undisturbed(ops, at, Portal(portal), i, d))
  {
    var target := Portal(portal);
    LastEventsAgree(ops, at, target, asked, d);
    if d <= i {
      LastEventIsAnEvent(ops, at, target, d);
      LastEventIsAnEvent(ops, at, target, i);
    } else {
      LastEventsAgree(ops, at, target, i, d);
    }
  }

  ghost predicate HasCounterlessOrigin(
    ops: seq<Op>, at: seq<World>, e: PendingExecute, i: nat, asked: nat, d: nat, target: Target, described: Plan)
    requires |at| == |ops| + 1
  {
    && PlannedBy(ops, at, e, i, asked, d, target, described)
    && forall b: nat, statement, formats :: BoundAt(ops, b, i, e.name, statement, formats) ==>
         CounterlessOrigin(ops, at, e, i, asked, d, target, b)
  }

  lemma CounterlessIn(ops: seq<Op>, at: seq<World>, e: PendingExecute, a: Answer)
    requires Reached(ops, at) && IsOrigin(at[|ops|].h, e, a) && e.bindGeneration == 0
    ensures HasCounterlessOrigin(ops, at, e, at[|ops|].h.issues[e.order].step, a.asked, a.step, a.target, a.plan)
  {
    OriginIsPlannedBy(ops, at, e, a);
    var i := at[|ops|].h.issues[e.order].step;
    forall b: nat, statement, formats | BoundAt(ops, b, i, e.name, statement, formats)
      ensures CounterlessOrigin(ops, at, e, i, a.asked, a.step, a.target, b)
    {
      AnsweredUnderMark(ops, at, e, a, b, statement, formats);
      if a.target.Statement? {
        StatementUnderALaterText(ops, at, e.name, i, a.asked, a.step, a.target.name, b, statement, formats);
      } else {
        PortalUnderItsBind(ops, at, e.name, i, a.asked, a.step, b);
      }
    }
  }

  /** Over every run, for every planned Execute that was issued without a generation on record. */
  lemma CounterlessPlansAreOfALaterText(ops: seq<Op>, e: PendingExecute)
    requires |ops| <= U64_MAX && e in Run(ops).executes && e.plan.Some? && e.bindGeneration == 0
    ensures exists i: nat, asked: nat, d: nat, target, described ::
              HasCounterlessOrigin(ops, Worlds(ops), e, i, asked, d, target, described)
  {
    RunReaches(ops);
    var a := OriginExists(Run(ops), HistoryOf(ops), e);
    CounterlessIn(ops, Worlds(ops), e, a);
  }

  // ---- What the client can promise ------------------------------------------

  /** A Describe of this target waits for its answer. */
  predicate Awaits(s: State, target: Target)
  {
    exists k :: 0 <= k < |s.descriptions| && s.descriptions[k].Describe? && s.descriptions[k].target == target
  }

  /** The client never redefines a name while a Describe of it is pending. */
  ghost predicate Patient(ops: seq<Op>, at: seq<World>)
    requires |at| == |ops| + 1
  {
    forall j, target :: 0 <= j < |ops| && Redefines(at[j].s, ops[j], target) ==> !Awaits(at[j].s, target)
  }

  /** Every world of a run is aligned, not just the last. */
  lemma {:induction false} WorldIsAligned(ops: seq<Op>, j: nat)
    requires j <= |ops|
    ensures Aligned(Worlds(ops)[j].s, Worlds(ops)[j].h)
  {
    if j == |ops| {
      HistoryIsFaithful(ops);
    } else {
      WorldIsAligned(ops[..|ops| - 1], j);
    }
  }

  /** A Describe is pending from when it is sent to when it is answered. */
  lemma AnsweredMeansPending(ops: seq<Op>, asked: nat, d: nat, target: Target, plan: Plan, j: nat)
    requires AnsweredAt(ops, Worlds(ops), asked, d, target, plan) && asked < j <= d
    ensures Awaits(Worlds(ops)[j].s, target)
  {
    var at := Worlds(ops);
    HistoryIsFaithful(ops);
    WorldIsAligned(ops, d);
    WorldIsAligned(ops, j);
    var q := at[d].h.asked[0];
    AskedStays(ops, at, q, j, d);
    var k :| 0 <= k < |at[j].h.asked| && at[j].h.asked[k] == q;
    assert at[j].s.descriptions[k] == q.entry == at[d].s.descriptions[0];
  }

  lemma PatienceIsNotOvertaken(ops: seq<Op>, asked: nat, d: nat, target: Target, plan: Plan)
    requires AnsweredAt(ops, Worlds(ops), asked, d, target, plan) && Patient(ops, Worlds(ops))
    ensures NotOvertaken(ops, Worlds(ops), asked, d, target)
  {
    var at := Worlds(ops);
    forall x: nat | asked <= x < d && x < |ops| ensures !Redefines(at[x].s, ops[x], target) {
      if asked < x {
        AnsweredMeansPending(ops, asked, d, target, plan, x);
      }
    }
  }

  /**
   A patient client gets its own plans: in every run in which no Bind and no change of
   text is sent while a Describe of that name is pending, the plan of every queued Execute
   with a generation on record was described for its own Bind and text.
   */
  lemma PatientClientGetsItsOwnPlans(ops: seq<Op>, e: PendingExecute)
    requires |ops| <= U64_MAX && e in Run(ops).executes && e.plan.Some? && e.bindGeneration >= 1
    requires Patient(ops, Worlds(ops))
    ensures exists i: nat, asked: nat, d: nat, target, described ::
              && HasExactOrigin(ops, Worlds(ops), e, i, asked, d, target, described)
              && DescribedForIt(ops, Worlds(ops), e.name, i, asked, target)
  {
    RunReaches(ops);
    var a := OriginExists(Run(ops), HistoryOf(ops), e);
    OriginIsExact(ops, Worlds(ops), e, a);
    PatienceIsNotOvertaken(ops, a.asked, a.step, a.target, a.plan);
    var i := HistoryOf(ops).issues[e.order].step;
    assert HasExactOrigin(ops, Worlds(ops), e, i, a.asked, a.step, a.target, a.plan)
           && DescribedForIt(ops, Worlds(ops), e.name, i, a.asked, a.target);
  }

  /** Answered without interruption, a statement's plan is of another text than a counterless Execute's. */
  lemma CounterlessIsNotItsOwn(
    ops: seq<Op>, at: seq<World>, e: PendingExecute, i: nat, asked: nat, d: nat, target: Target, described: Plan)
    requires |at| == |ops| + 1 && HasCounterlessOrigin(ops, at, e, i, asked, d, target, described)
    requires target.Statement? && NotOvertaken(ops, at, asked, d, target)
    ensures !DescribedForIt(ops, at, e.name, i, asked, target)
  {
  }

  /**
   A patient client's Execute without a generation on record, if it has a statement's plan,
   never has the plan of the text it runs.
   */
  lemma PatientCounterlessPlansAreNeverItsOwn(ops: seq<Op>, e: PendingExecute)
    requires |ops| <= U64_MAX && e in Run(ops).executes && e.plan.Some? && e.bindGeneration == 0
    requires Patient(ops, Worlds(ops))
    ensures exists i: nat, asked: nat, d: nat, target, described ::
              && HasCounterlessOrigin(ops, Worlds(ops), e, i, asked, d, target, described)
              && (target.Statement? ==> !DescribedForIt(ops, Worlds(ops), e.name, i, asked, target))
  {
    RunReaches(ops);
    var at := Worlds(ops);
    var a := OriginExists(Run(ops), HistoryOf(ops), e);
    var i := HistoryOf(ops).issues[e.order].step;
    CounterlessIn(ops, at, e, a);
    PatienceIsNotOvertaken(ops, a.asked, a.step, a.target, a.plan);
    if a.target.Statement? {
      CounterlessIsNotItsOwn(ops, at, e, i, a.asked, a.step, a.target, a.plan);
    }
  }

  // ---- Overtaking gives plans away -------------------------------------------

  /** The first `n` pending descriptions answered, all with this plan. */
  function Answered(s: State, n: nat, plan: Plan): State
  {
    if n == 0 then s else FinishDescription(Answered(s, n - 1, plan), plan)
  }

  /** The portal and generation of every queued Execute. */
  function Holdings(q: seq<PendingExecute>): seq<(Name, nat)>
  {
    seq(|q|, i requires 0 <= i < |q| => (q[i].name, q[i].bindGeneration))
  }

  lemma HeldByHoldings(q: seq<PendingExecute>, r: seq<PendingExecute>, portal: Name, generation: nat)
    requires Holdings(q) == Holdings(r)
    ensures Held(q, portal, generation) <==> Held(r, portal, generation)
  {
    assert |q| == |Holdings(q)| == |r|;
    forall i | 0 <= i < |q| ensures q[i].name == r[i].name && q[i].bindGeneration == r[i].bindGeneration {
      assert Holdings(q)[i] == Holdings(r)[i];
    }
  }

  /** What answers leave alone: texts, counters, and which generations queued Executes hold. */
  predicate SameBindings(s: State, t: State)
  {
    && t.bindGenerations == s.bindGenerations
    && t.statementSql == s.statementSql
    && Holdings(t.executes) == Holdings(s.executes)
  }

  lemma InstallKeepsBindings(s: State, plans: map<Name, Plan>)
    ensures SameBindings(s, Install(s, plans))
  {
  }

  lemma AnswerKeepsBindings(s: State, plan: Plan)
    requires s.descriptions != []
    ensures SameBindings(s, FinishDescription(s, plan))
    ensures FinishDescription(s, plan).descriptions == s.descriptions[1..]
  {
    TakenKeepsBindings(s, plan);
    if s.descriptions[0].Describe? {
      InstallKeepsBindings(Taken(s, plan), DescribedPlans(s, s.descriptions[0].target, plan));
      InstallKeepsDescriptions(Taken(s, plan), DescribedPlans(s, s.descriptions[0].target, plan));
    } else {
      assert FinishDescription(s, plan) == Taken(s, plan);
    }
  }

  lemma TakenKeepsBindings(s: State, plan: Plan)
    requires s.descriptions != []
    ensures SameBindings(s, Taken(s, plan)) && Taken(s, plan).descriptions == s.descriptions[1..]
  {
  }

  lemma InstallKeepsDescriptions(s: State, plans: map<Name, Plan>)
    ensures Install(s, plans).descriptions == s.descriptions
  {
  }

  lemma {:induction false} AnsweredKeepsBindings(s: State, n: nat, plan: Plan)
    requires n <= |s.descriptions|
    ensures SameBindings(s, Answered(s, n, plan)) && Answered(s, n, plan).descriptions == s.descriptions[n..]
  {
    if n > 0 {
      AnsweredKeepsBindings(s, n - 1, plan);
      AnswerKeepsBindings(Answered(s, n - 1, plan), plan);
    }
  }

  /** A fresh binding's Execute is never taken for a resume, and snapshots the portal's plan. */
  lemma FreshExecute(s: State, portal: Name)
    requires !Held(s.executes, portal, BindGeneration(s, portal))
    ensures Execute(s, portal).executes != [] && Newest(Execute(s, portal)) == NewExecute(s, portal)
  {
    assert !IsResume(s, portal);
  }

  function Newest(s: State): PendingExecute
    requires s.executes != []
  {
    s.executes[|s.executes| - 1]
  }

  /** A Bind's generation is held by no queued Execute; nothing pending is answered by it. */
  lemma BindIsFresh(s: State, portal: Name, statement: Name, formats: Formats, n: nat)
    requires Counted(s, n) && n < U64_MAX
    ensures var t := Bind(s, portal, statement, formats);
            && BindGeneration(t, portal) >= 1
            && !Held(t.executes, portal, BindGeneration(t, portal))
            && t.descriptions == s.descriptions && t.statementSql == s.statementSql
  {
    FreeFromIsFree(s.executes, portal, Inc(BindGeneration(s, portal)), n);
    var base, t := Rebound(s, portal, statement, formats), Bind(s, portal, statement, formats);
    if statement in s.statementPlans {
      InstallKeepsBindings(base, map[portal := Stamp(s.statementPlans[statement], formats)]);
    }
    HeldByHoldings(s.executes, t.executes, portal, BindGeneration(t, portal));
  }

  lemma PortalAnswerIsCached(s: State, portal: Name, plan: Plan)
    requires DescribeIsNext(s) && s.descriptions[0].target == Portal(portal)
    ensures Get(FinishDescription(s, plan).portalPlans, portal) == Some(plan)
  {
  }

  /** The session after the portal is bound again, the first `k + 1` descriptions answered, and it is executed. */
  function OvertakenBind(s: State, k: nat, portal: Name, statement: Name, formats: Formats, plan: Plan): State
  {
    Execute(Answered(Bind(s, portal, statement, formats), k + 1, plan), portal)
  }

  /**
   From every reachable state, a Bind sent while a Describe of its portal is pending can
   give the next Execute of the new binding the plan described for the old one, whatever
   that plan says.
   */
  lemma OvertakenByABind(ops: seq<Op>, k: nat, portal: Name, statement: Name, formats: Formats, plan: Plan)
    requires |ops| < U64_MAX && k < |Run(ops).descriptions|
    requires Run(ops).descriptions[k].Describe? && Run(ops).descriptions[k].target == Portal(portal)
    ensures var t := OvertakenBind(Run(ops), k, portal, statement, formats, plan);
            && t.executes != [] && Newest(t).name == portal
            && Newest(t).plan == Some(plan) && Newest(t).bindGeneration >= 1
  {
    QueuesStayInOrder(ops);
    BindGivesAwayThePlan(Run(ops), k, portal, statement, formats, plan, |ops|);
  }

  lemma BindGivesAwayThePlan(
    s: State, k: nat, portal: Name, statement: Name, formats: Formats, plan: Plan, n: nat)
    requires Counted(s, n) && n < U64_MAX && k < |s.descriptions|
    requires s.descriptions[k].Describe? && s.descriptions[k].target == Portal(portal)
    ensures var t := OvertakenBind(s, k, portal, statement, formats, plan);
            && t.executes != [] && Newest(t).name == portal
            && Newest(t).plan == Some(plan) && Newest(t).bindGeneration >= 1
  {
    BindIsFresh(s, portal, statement, formats, n);
    var t := Bind(s, portal, statement, formats);
    AnsweredKeepsBindings(t, k, plan);
    AnsweredKeepsBindings(t, k + 1, plan);
    PortalAnswerIsCached(Answered(t, k, plan), portal, plan);
    HeldByHoldings(t.executes, Answered(t, k + 1, plan).executes, portal, BindGeneration(t, portal));
    FreshExecute(Answered(t, k + 1, plan), portal);
  }

  lemma StatementAnswerIsCached(s: State, name: Name, plan: Plan)
    requires DescribeIsNext(s) && s.descriptions[0].target == Statement(name)
    ensures Get(FinishDescription(s, plan).statementPlans, name) == Some(plan)
  {
  }

  lemma BindTakesTheStatementPlan(s: State, portal: Name, name: Name, formats: Formats)
    requires name in s.statementPlans
    ensures Get(Bind(s, portal, name, formats).portalPlans, portal) == Some(Stamp(s.statementPlans[name], formats))
  {
  }

  lemma OneAnswerKeepsOrder(s: State, t: State, plan: Plan, n: nat)
    requires QueueOrder(s) && Counted(s, n) && t == FinishDescription(s, plan)
    ensures QueueOrder(t) && Counted(t, n)
  {
    FinishDescriptionKeepsOrder(s, plan, n);
  }

  lemma {:induction false} AnsweredKeepsOrder(s: State, m: nat, plan: Plan, n: nat)
    requires QueueOrder(s) && Counted(s, n) && n < U64_MAX
    ensures QueueOrder(Answered(s, m, plan)) && Counted(Answered(s, m, plan), n)
  {
    if m > 0 {
      AnsweredKeepsOrder(s, m - 1, plan, n);
      OneAnswerKeepsOrder(Answered(s, m - 1, plan), Answered(s, m, plan), plan, n);
    }
  }

  /** The session after the statement gets another text, the answers arrive, and a portal of it is executed. */
  function OvertakenParse(
    s: State, k: nat, name: Name, sql: Sql, portal: Name, formats: Formats, plan: Plan): State
  {
    Execute(Bind(Answered(Parse(s, name, sql), k + 1, plan), portal, name, formats), portal)
  }

  /** So can a Parse that gives a statement another text while a Describe of it is pending. */
  lemma OvertakenByAParse(
    ops: seq<Op>, k: nat, name: Name, sql: Sql, portal: Name, formats: Formats, plan: Plan)
    requires |ops| + 1 < U64_MAX && k < |Run(ops).descriptions| && ChangesText(Run(ops), name, sql)
    requires Run(ops).descriptions[k].Describe? && Run(ops).descriptions[k].target == Statement(name)
    ensures var t := OvertakenParse(Run(ops), k, name, sql, portal, formats, plan);
            && t.executes != [] && Newest(t).name == portal && Get(t.statementSql, name) == Some(sql)
            && Newest(t).plan.Some? && InFormats(Newest(t).plan.value, plan, formats)
            && Newest(t).bindGeneration >= 1
  {
    QueuesStayInOrder(ops);
    ParseGivesAwayThePlan(Run(ops), k, name, sql, portal, formats, plan, |ops|);
  }

  lemma ParseGivesAwayThePlan(
    s: State, k: nat, name: Name, sql: Sql, portal: Name, formats: Formats, plan: Plan, n: nat)
    requires QueueOrder(s) && Counted(s, n) && n + 1 < U64_MAX && k < |s.descriptions|
    requires s.descriptions[k].Describe? && s.descriptions[k].target == Statement(name)
    ensures var t := OvertakenParse(s, k, name, sql, portal, formats, plan);
            && t.executes != [] && Newest(t).name == portal && Get(t.statementSql, name) == Some(sql)
            && Newest(t).plan.Some? && InFormats(Newest(t).plan.value, plan, formats)
            && Newest(t).bindGeneration >= 1
  {
    var p := Parse(s, name, sql);
    ParseKeepsOrder(s, name, sql, n);
    AnswerAboutTheOldText(p, k, name, plan, n + 1);
    var t := Answered(p, k + 1, plan);
    BindTakesTheStatementPlan(t, portal, name, formats);
    StampIsInFormats(plan, formats);
    BindIsFresh(t, portal, name, formats, n + 1);
    FreshExecute(Bind(t, portal, name, formats), portal);
  }

  lemma AnswerAboutTheOldText(p: State, k: nat, name: Name, plan: Plan, n: nat)
    requires QueueOrder(p) && Counted(p, n) && n < U64_MAX && k < |p.descriptions|
    requires p.descriptions[k].Describe? && p.descriptions[k].target == Statement(name)
    ensures var t := Answered(p, k + 1, plan);
            Counted(t, n) && t.statementSql == p.statementSql && Get(t.statementPlans, name) == Some(plan)
  {
    AnsweredKeepsOrder(p, k + 1, plan, n);
    AnsweredKeepsBindings(p, k, plan);
    AnsweredKeepsBindings(p, k + 1, plan);
    StatementAnswerIsCached(Answered(p, k, plan), name, plan);
  }
}
