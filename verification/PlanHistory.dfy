/**
 What happened in a run, kept beside the state: every Describe asked and answered, the
 last Bind of every portal name, the last change of every statement's text, every
 counter reset, and every Execute with the Bind it ran against. The state itself
 forgets all of this.
 */
module PlanHistory {
  import opened Wrappers
  import opened Sequences
  import opened PlanStateModel

  /** A Bind; `text` is the step that gave its statement the text it had then. */
  datatype BindRecord = BindRecord(step: nat, statement: Name, formats: Formats, text: Option<nat>)

  /** An Execute that opened a result set, keyed by its order in the history. */
  datatype Issue = Issue(step: nat, name: Name, generation: nat, bind: Option<BindRecord>, era: nat)

  /** A pending description, the step it was sent at, and what its target stood for then. */
  datatype Asked = Asked(entry: PendingDescription, step: nat, under: Option<nat>)

  /**
   A Describe's RowDescription: when it was asked and answered, and what its target stood
   for at both times. `era` counts the generation changes before the answer.
   */
  datatype Answer = Answer(
    step: nat,
    target: Target,
    plan: Plan,
    era: nat,
    asked: nat,
    askedUnder: Option<nat>,
    answeredUnder: Option<nat>)

  datatype History = History(
    answers: set<Answer>,
    era: nat,
    lastBind: map<Name, BindRecord>,
    texts: map<Name, nat>,
    resets: map<Name, nat>,
    issues: map<nat, Issue>,
    asked: seq<Asked>)

  const Empty := History({}, 0, map[], map[], map[], map[], [])

  /** What a name stands for: the last Bind of a portal, the last change of a statement's text. */
  function InForce(h: History, target: Target): Option<nat>
  {
    match target
    case Portal(portal) => if portal in h.lastBind then Some(h.lastBind[portal].step) else None
    case Statement(name) => Get(h.texts, name)
  }

  /** From this operation on, the name stands for something else. */
  predicate Redefines(s: State, op: Op, target: Target)
  {
    match target
    case Portal(portal) => op.OpBind? && op.portal == portal
    case Statement(name) => op == OpClose(target) || (op.OpParse? && op.name == name && ChangesText(s, name, op.sql))
  }

  /** This operation drops the portal's bind counter. */
  predicate Resets(s: State, op: Op, portal: Name)
  {
    op.OpParse? && ChangesText(s, op.name, op.sql) && portal in BoundTo(s, op.name)
  }

  /** This operation answers a Describe of `target` with `plan`. */
  predicate Answers(s: State, op: Op, target: Target, plan: Plan)
  {
    op == OpFinishDescription(plan) && s.descriptions != []
    && s.descriptions[0].Describe? && s.descriptions[0].target == target
  }

  /** This operation opens a result set for the portal, with the next order. */
  predicate Opens(s: State, op: Op, portal: Name)
  {
    op == OpExecute(portal) && !IsResume(s, portal)
  }

  function TrackParse(s: State, h: History, name: Name, sql: Sql, step: nat): History
  {
    if ChangesText(s, name, sql)
    then h.(resets := h.resets + map p | p in BoundTo(s, name) :: step, texts := h.texts[name := step])
    else h
  }

  function TrackBind(h: History, portal: Name, statement: Name, formats: Formats, step: nat): History
  {
    h.(lastBind := h.lastBind[portal := BindRecord(step, statement, formats, Get(h.texts, statement))])
  }

  function TrackClose(h: History, target: Target, step: nat): History
  {
    if target.Statement? then h.(texts := h.texts[target.name := step]) else h
  }

  function TrackExecute(s: State, h: History, portal: Name, step: nat): History
  {
    if IsResume(s, portal) then h
    else h.(issues := h.issues[s.nextOrder :=
              Issue(step, portal, BindGeneration(s, portal), Get(h.lastBind, portal), h.era)])
  }

  /** What is known of the Describe whose answer arrives. */
  function Head(h: History): Asked
  {
    if h.asked == [] then Asked(Simple(None, 0, 0), 0, None) else h.asked[0]
  }

  function NewAnswer(h: History, target: Target, plan: Plan, step: nat): Answer
  {
    Answer(step, target, plan, h.era, Head(h).step, Head(h).under, InForce(h, target))
  }

  function TrackDescription(s: State, h: History, plan: Plan, step: nat): History
  {
    if s.descriptions != [] && s.descriptions[0].Describe?
    then h.(answers := h.answers + {NewAnswer(h, s.descriptions[0].target, plan, step)})
    else h
  }

  function TrackEvent(s: State, h: History, op: Op, step: nat): History
  {
    match op
    case OpInvalidateIfStale(current) => if s.generation == current then h else h.(era := h.era + 1)
    case OpParse(name, sql) => TrackParse(s, h, name, sql, step)
    case OpBind(portal, statement, formats) => TrackBind(h, portal, statement, formats, step)
    case OpClose(target) => TrackClose(h, target, step)
    case OpExecute(portal) => TrackExecute(s, h, portal, step)
    case OpFinishDescription(plan) => TrackDescription(s, h, plan, step)
    case _ => h
  }

  function OutsideEpoch(epoch: nat): Asked -> bool
  {
    (a: Asked) => a.entry.epoch != epoch
  }

  /** The same queue as the state's, with what the state does not keep. */
  function AskedAfter(s: State, h: History, op: Op, step: nat): seq<Asked>
  {
    match op
    case OpDescribe(target) =>
      h.asked + [Asked(Describe(target, TargetSql(s, target), s.syncEpoch), step, InForce(h, target))]
    case OpBeginSimpleQuery(text) => h.asked + [Asked(Simple(text, s.syncEpoch, s.nextOrder), step, None)]
    case OpFinishResultSet => if !s.streamingSimple && SimpleEndsFirst(s) then Pop(h.asked) else h.asked
    case OpFinishSuppressedEpoch(epoch) => Retain(h.asked, OutsideEpoch(epoch))
    case OpDiscardFailedEpoch =>
      if FailedEpoch(s).Some? then Retain(h.asked, OutsideEpoch(FailedEpoch(s).value)) else h.asked
    case OpFinishNoData => if DescribeIsNext(s) then Pop(h.asked) else h.asked
    case OpDiscardDescription => Pop(h.asked)
    case OpFinishDescription(_) => Pop(h.asked)
    case OpFinishEmptyQuery => if QueryIsNext(s) then Pop(h.asked) else h.asked
    case _ => h.asked
  }

  function Track(s: State, h: History, op: Op, step: nat): History
  {
    TrackEvent(s, h, op, step).(asked := AskedAfter(s, h, op, step))
  }

  /** A state together with what led to it. */
  datatype World = World(s: State, h: History)

  function After(w: World, op: Op, step: nat): World
  {
    World(Step(w.s, op), Track(w.s, w.h, op, step))
  }

  /** The world before each step of a run, and after the last. */
  function Worlds(ops: seq<Op>): (at: seq<World>)
    ensures |at| == |ops| + 1
  {
    if ops == [] then [World(Init, Empty)]
    else
      var n := |ops| - 1;
      var at := Worlds(ops[..n]);
      at + [After(at[n], ops[n], n)]
  }

  function HistoryOf(ops: seq<Op>): History
  {
    Worlds(ops)[|ops|].h
  }

  /** Each world's state is that of the run so far. */
  lemma {:induction false} WorldsAreRuns(ops: seq<Op>, k: nat)
    requires k <= |ops|
    ensures Worlds(ops)[k].s == Run(ops[..k])
  {
    if k == |ops| {
      assert ops[..k] == ops;
      if ops != [] {
        WorldsAreRuns(ops[..k - 1], k - 1);
        assert ops[..k - 1][..k - 1] == ops[..k - 1];
      }
    } else {
      WorldsAreRuns(ops[..|ops| - 1], k);
      assert ops[..|ops| - 1][..k] == ops[..k];
    }
  }

  // ---- The history tells the truth ------------------------------------------

  /** Each world's history is the previous one with that step recorded. */
  ghost predicate Chained(ops: seq<Op>, at: seq<World>)
  {
    && |at| == |ops| + 1
    && at[0].h == Empty
    && forall k: nat :: k < |ops| ==> at[k + 1].h == Track(at[k].s, at[k].h, ops[k], k)
  }

  ghost predicate NoBindBetween(ops: seq<Op>, portal: Name, from: nat, to: nat)
  {
    forall j :: from < j < to && j < |ops| ==> !(ops[j].OpBind? && ops[j].portal == portal)
  }

  /** The description queue with its records is the state's description queue. */
  ghost predicate Aligned(s: State, h: History)
  {
    |h.asked| == |s.descriptions| && forall i :: 0 <= i < |h.asked| ==> h.asked[i].entry == s.descriptions[i]
  }

  /** A pending Describe is the step that sent it, with the text its target had then. */
  ghost predicate AskedIsReal(ops: seq<Op>, at: seq<World>, q: Asked)
    requires |at| == |ops| + 1
  {
    && q.step < |ops|
    && (q.entry.Describe? ==>
          && ops[q.step] == OpDescribe(q.entry.target)
          && q.entry.sql == TargetSql(at[q.step].s, q.entry.target)
          && q.under == InForce(at[q.step].h, q.entry.target))
  }

  ghost predicate AskedAreReal(ops: seq<Op>, at: seq<World>)
    requires |at| == |ops| + 1
  {
    forall q :: q in at[|ops|].h.asked ==> AskedIsReal(ops, at, q)
  }

  /** Step `d` answers, with `plan`, the Describe of `target` that step `asked` sent. */
  ghost predicate AnsweredAt(ops: seq<Op>, at: seq<World>, asked: nat, d: nat, target: Target, plan: Plan)
    requires |at| == |ops| + 1
  {
    && asked < d < |ops|
    && ops[asked] == OpDescribe(target)
    && Answers(at[d].s, ops[d], target, plan)
    && at[d].h.asked != [] && at[d].h.asked[0].step == asked
  }

  ghost predicate AnswerIsReal(ops: seq<Op>, at: seq<World>, a: Answer)
    requires |at| == |ops| + 1
  {
    && AnsweredAt(ops, at, a.asked, a.step, a.target, a.plan)
    && a.era == at[a.step].h.era
    && a.askedUnder == InForce(at[a.asked].h, a.target)
    && a.answeredUnder == InForce(at[a.step].h, a.target)
  }

  /** Every recorded answer is a step that answered a Describe of that target with that plan. */
  ghost predicate AnswersAreReal(ops: seq<Op>, at: seq<World>)
    requires |at| == |ops| + 1
  {
    forall a :: a in at[|ops|].h.answers ==> AnswerIsReal(ops, at, a)
  }

  ghost predicate BindIsReal(ops: seq<Op>, at: seq<World>, portal: Name, b: BindRecord, before: nat)
    requires |at| == |ops| + 1
  {
    && b.step < before <= |ops|
    && ops[b.step] == OpBind(portal, b.statement, b.formats)
    && b.text == InForce(at[b.step].h, Statement(b.statement))
    && NoBindBetween(ops, portal, b.step, before)
  }

  /** The recorded Bind of a name is its last one in the run. */
  ghost predicate BindsAreLast(ops: seq<Op>, at: seq<World>)
    requires |at| == |ops| + 1
  {
    var last := at[|ops|].h.lastBind;
    && (forall p :: p in last ==> BindIsReal(ops, at, p, last[p], |ops|))
    && (forall j :: 0 <= j < |ops| && ops[j].OpBind? ==> ops[j].portal in last)
  }

  /** No counter reset of the run is missed, and none is invented. */
  ghost predicate ResetsAreSeen(ops: seq<Op>, at: seq<World>)
    requires |at| == |ops| + 1
  {
    var seen := at[|ops|].h.resets;
    && (forall p, j :: 0 <= j < |ops| && Resets(at[j].s, ops[j], p) ==> p in seen && j <= seen[p])
    && (forall p :: p in seen ==> seen[p] < |ops| && Resets(at[seen[p]].s, ops[seen[p]], p))
  }

  /** Every recorded issue is the step that opened the result set of that order. */
  ghost predicate IssueIsReal(ops: seq<Op>, at: seq<World>, issue: Issue, order: nat)
    requires |at| == |ops| + 1
  {
    && issue.step < |ops| && Opens(at[issue.step].s, ops[issue.step], issue.name)
    && at[issue.step].s.nextOrder == order
    && BindGeneration(at[issue.step].s, issue.name) == issue.generation
    && at[issue.step].h.era == issue.era
    && issue.bind == Get(at[issue.step].h.lastBind, issue.name)
    && (issue.bind.Some? ==> BindIsReal(ops, at, issue.name, issue.bind.value, issue.step))
  }

  ghost predicate IssuesAreReal(ops: seq<Op>, at: seq<World>)
    requires |at| == |ops| + 1
  {
    var issues := at[|ops|].h.issues;
    forall o :: o in issues ==> IssueIsReal(ops, at, issues[o], o)
  }

  ghost predicate Faithful(ops: seq<Op>, at: seq<World>)
  {
    && Chained(ops, at)
    && Aligned(at[|ops|].s, at[|ops|].h) && AskedAreReal(ops, at)
    && AnswersAreReal(ops, at) && BindsAreLast(ops, at) && ResetsAreSeen(ops, at) && IssuesAreReal(ops, at)
  }

  ghost predicate Follows(ops: seq<Op>, at: seq<World>, op: Op, next: World)
  {
    |at| == |ops| + 1 && next.h == Track(at[|ops|].s, at[|ops|].h, op, |ops|)
  }

  lemma ChainGrows(ops: seq<Op>, at: seq<World>, op: Op, next: World)
    requires Follows(ops, at, op, next) && Chained(ops, at)
    ensures Chained(ops + [op], at + [next])
  {
  }

  lemma {:induction false} RetainAligns(q: seq<Asked>, d: seq<PendingDescription>, epoch: nat)
    requires |q| == |d| && forall i :: 0 <= i < |q| ==> q[i].entry == d[i]
    ensures var r, e := Retain(q, OutsideEpoch(epoch)), Retain(d, OtherDescription(epoch));
            |r| == |e| && forall i :: 0 <= i < |r| ==> r[i].entry == e[i]
  {
    if q != [] {
      RetainAligns(q[1..], d[1..], epoch);
    }
  }

  predicate DropsEpoch(op: Op)
  {
    op.OpFinishSuppressedEpoch? || op.OpDiscardFailedEpoch?
  }

  lemma SuppressKeepsAligned(s: State, h: History, epoch: nat, step: nat)
    requires Aligned(s, h)
    ensures Aligned(FinishSuppressedEpoch(s, epoch), Track(s, h, OpFinishSuppressedEpoch(epoch), step))
  {
    RetainAligns(h.asked, s.descriptions, epoch);
  }

  lemma DiscardKeepsAligned(s: State, h: History, step: nat)
    requires Aligned(s, h)
    ensures Aligned(DiscardFailedEpoch(s), Track(s, h, OpDiscardFailedEpoch, step))
  {
    if FailedEpoch(s).Some? {
      RetainAligns(h.asked, s.descriptions, FailedEpoch(s).value);
    }
  }

  predicate Asks(op: Op)
  {
    op.OpDescribe? || op.OpBeginSimpleQuery?
  }

  predicate TakesHead(op: Op)
  {
    op.OpFinishResultSet? || op.OpFinishNoData? || op.OpDiscardDescription? || op.OpFinishDescription?
    || op.OpFinishEmptyQuery?
  }

  lemma AskKeepsAligned(s: State, h: History, op: Op, step: nat)
    requires Aligned(s, h) && Asks(op)
    ensures Aligned(Step(s, op), Track(s, h, op, step))
  {
  }

  lemma TakeKeepsAligned(s: State, h: History, op: Op, step: nat)
    requires Aligned(s, h) && TakesHead(op)
    ensures Aligned(Step(s, op), Track(s, h, op, step))
  {
  }

  lemma InstallingStepKeepsQueue(s: State, op: Op)
    requires op.OpBind? || op.OpFinishBind? || op.OpParse? || op.OpExecute?
    ensures Step(s, op).descriptions == s.descriptions
  {
  }

  lemma OtherStepKeepsQueue(s: State, op: Op)
    requires !DropsEpoch(op) && !Asks(op) && !TakesHead(op)
    ensures Step(s, op).descriptions == s.descriptions
  {
    if op.OpBind? || op.OpFinishBind? || op.OpParse? || op.OpExecute? {
      InstallingStepKeepsQueue(s, op);
    }
  }

  lemma StepKeepsAligned(s: State, h: History, op: Op, step: nat)
    requires Aligned(s, h)
    ensures Aligned(Step(s, op), Track(s, h, op, step))
  {
    if op.OpFinishSuppressedEpoch? {
      SuppressKeepsAligned(s, h, op.epoch, step);
    } else if op.OpDiscardFailedEpoch? {
      DiscardKeepsAligned(s, h, step);
    } else if Asks(op) {
      AskKeepsAligned(s, h, op, step);
    } else if TakesHead(op) {
      TakeKeepsAligned(s, h, op, step);
    } else {
      OtherStepKeepsQueue(s, op);
    }
  }

  /** Only the step itself adds to the queue. */
  lemma AskedComesFrom(s: State, h: History, op: Op, step: nat, q: Asked)
    requires q in AskedAfter(s, h, op, step)
    ensures q in h.asked || (q.step == step && (q.entry.Describe? ==>
              && op == OpDescribe(q.entry.target) && q.entry.sql == TargetSql(s, q.entry.target)
              && q.under == InForce(h, q.entry.target)))
  {
    if op.OpFinishSuppressedEpoch? {
      RetainMembers(h.asked, OutsideEpoch(op.epoch));
    } else if op.OpDiscardFailedEpoch? && FailedEpoch(s).Some? {
      RetainMembers(h.asked, OutsideEpoch(FailedEpoch(s).value));
    }
  }

  lemma AskedStayReal(ops: seq<Op>, at: seq<World>, op: Op, next: World)
    requires Follows(ops, at, op, next) && AskedAreReal(ops, at)
    ensures AskedAreReal(ops + [op], at + [next])
  {
    forall q | q in next.h.asked ensures AskedIsReal(ops + [op], at + [next], q) {
      AskedComesFrom(at[|ops|].s, at[|ops|].h, op, |ops|, q);
      assert q in at[|ops|].h.asked ==> AskedIsReal(ops, at, q);
    }
  }

  lemma AnswersStayReal(ops: seq<Op>, at: seq<World>, op: Op, next: World)
    requires Follows(ops, at, op, next) && AnswersAreReal(ops, at)
    requires Aligned(at[|ops|].s, at[|ops|].h) && AskedAreReal(ops, at)
    ensures AnswersAreReal(ops + [op], at + [next])
  {
    var s, h := at[|ops|].s, at[|ops|].h;
    forall a | a in next.h.answers ensures AnswerIsReal(ops + [op], at + [next], a) {
      if a in h.answers {
        assert AnswerIsReal(ops, at, a);
      } else {
        assert h.asked[0] in h.asked && AskedIsReal(ops, at, h.asked[0]);
      }
    }
  }

  function BindsAfter(h: History, op: Op, step: nat): map<Name, BindRecord>
  {
    if op.OpBind? then TrackBind(h, op.portal, op.statement, op.formats, step).lastBind else h.lastBind
  }

  lemma TrackBinds(s: State, h: History, op: Op, step: nat)
    ensures Track(s, h, op, step).lastBind == BindsAfter(h, op, step)
  {
  }

  lemma BindsStayLast(ops: seq<Op>, at: seq<World>, op: Op, next: World)
    requires |at| == |ops| + 1 && BindsAreLast(ops, at)
    requires next.h.lastBind == BindsAfter(at[|ops|].h, op, |ops|)
    ensures BindsAreLast(ops + [op], at + [next])
  {
    var last := at[|ops|].h.lastBind;
    forall p | p in next.h.lastBind ensures BindIsReal(ops + [op], at + [next], p, next.h.lastBind[p], |ops| + 1) {
      if !(op.OpBind? && op.portal == p) {
        assert BindIsReal(ops, at, p, last[p], |ops|);
      }
    }
  }

  /** A step records its own resets and keeps all others. */
  ghost predicate ResetsFollow(s: State, op: Op, step: nat, before: map<Name, nat>, after: map<Name, nat>)
  {
    forall p ::
      && (p in after <==> p in before || Resets(s, op, p))
      && (p in after ==> after[p] == if Resets(s, op, p) then step else before[p])
  }

  lemma TrackResets(s: State, h: History, op: Op, step: nat)
    ensures ResetsFollow(s, op, step, h.resets, Track(s, h, op, step).resets)
  {
  }

  lemma ResetsStaySeen(ops: seq<Op>, at: seq<World>, op: Op, next: World)
    requires |at| == |ops| + 1 && ResetsAreSeen(ops, at)
    requires ResetsFollow(at[|ops|].s, op, |ops|, at[|ops|].h.resets, next.h.resets)
    ensures ResetsAreSeen(ops + [op], at + [next])
  {
    var before, after := at[|ops|].h.resets, next.h.resets;
    forall p | p in after
      ensures after[p] <= |ops| && Resets((at + [next])[after[p]].s, (ops + [op])[after[p]], p)
    {
      if !Resets(at[|ops|].s, op, p) {
        assert p in before && Resets(at[before[p]].s, ops[before[p]], p);
      }
    }
    forall p, k | 0 <= k <= |ops| && Resets((at + [next])[k].s, (ops + [op])[k], p)
      ensures p in after && k <= after[p]
    {
      if k < |ops| {
        assert Resets(at[k].s, ops[k], p);
      }
    }
  }

  lemma IssuesStayReal(ops: seq<Op>, at: seq<World>, op: Op, next: World)
    requires Follows(ops, at, op, next) && IssuesAreReal(ops, at) && BindsAreLast(ops, at)
    ensures IssuesAreReal(ops + [op], at + [next])
  {
    var h := at[|ops|].h;
    forall o | o in next.h.issues ensures IssueIsReal(ops + [op], at + [next], next.h.issues[o], o) {
      if o in h.issues && next.h.issues[o] == h.issues[o] {
        assert IssueIsReal(ops, at, h.issues[o], o);
      }
    }
  }

  /** The history of every run records what the run did. */
  lemma {:induction false} HistoryIsFaithful(ops: seq<Op>)
    ensures Faithful(ops, Worlds(ops))
  {
    if ops != [] {
      var n := |ops| - 1;
      var before, at := ops[..n], Worlds(ops[..n]);
      HistoryIsFaithful(before);
      FaithGrows(before, at, ops[n], After(at[n], ops[n], n));
      assert before + [ops[n]] == ops;
    }
  }

  lemma FaithGrows(ops: seq<Op>, at: seq<World>, op: Op, next: World)
    requires Faithful(ops, at) && Follows(ops, at, op, next) && next.s == Step(at[|ops|].s, op)
    ensures Faithful(ops + [op], at + [next])
  {
    ChainGrows(ops, at, op, next);
    StepKeepsAligned(at[|ops|].s, at[|ops|].h, op, |ops|);
    AskedStayReal(ops, at, op, next);
    AnswersStayReal(ops, at, op, next);
    TrackBinds(at[|ops|].s, at[|ops|].h, op, |ops|);
    BindsStayLast(ops, at, op, next);
    TrackResets(at[|ops|].s, at[|ops|].h, op, |ops|);
    ResetsStaySeen(ops, at, op, next);
    IssuesStayReal(ops, at, op, next);
  }

  // ---- What a name stands for -----------------------------------------------

  /** The last step before `k` that changed what the name stands for. */
  ghost function LastEvent(ops: seq<Op>, at: seq<World>, target: Target, k: nat): Option<nat>
    requires |at| == |ops| + 1 && k <= |ops|
  {
    if k == 0 then None
    else if Redefines(at[k - 1].s, ops[k - 1], target) then Some(k - 1)
    else LastEvent(ops, at, target, k - 1)
  }

  lemma TrackInForce(s: State, h: History, op: Op, step: nat, target: Target)
    ensures InForce(Track(s, h, op, step), target)
         == if Redefines(s, op, target) then Some(step) else InForce(h, target)
  {
  }

  lemma ChainInForce(ops: seq<Op>, at: seq<World>, target: Target, k: nat)
    requires Chained(ops, at) && k < |ops|
    ensures InForce(at[k + 1].h, target)
         == if Redefines(at[k].s, ops[k], target) then Some(k) else InForce(at[k].h, target)
  {
    TrackInForce(at[k].s, at[k].h, ops[k], k, target);
  }

  lemma {:induction false} InForceIsTheLastEvent(ops: seq<Op>, at: seq<World>, target: Target, k: nat)
    requires Chained(ops, at) && k <= |ops|
    ensures InForce(at[k].h, target) == LastEvent(ops, at, target, k)
  {
    if k > 0 {
      InForceIsTheLastEvent(ops, at, target, k - 1);
      ChainInForce(ops, at, target, k - 1);
    }
  }

  /** No step from `j` up to `k` changes what the name stands for. */
  ghost predicate Undisturbed(ops: seq<Op>, at: seq<World>, target: Target, j: nat, k: nat)
    requires |at| == |ops| + 1
  {
    forall x: nat :: j <= x < k && x < |ops| ==> !Redefines(at[x].s, ops[x], target)
  }

  /** A name stands for the same at two steps exactly when no step between them redefines it. */
  lemma {:induction false} LastEventsAgree(ops: seq<Op>, at: seq<World>, target: Target, j: nat, k: nat)
    requires |at| == |ops| + 1 && j <= k <= |ops|
    ensures LastEvent(ops, at, target, j) == LastEvent(ops, at, target, k) <==> Undisturbed(ops, at, target, j, k)
    ensures LastEvent(ops, at, target, j).Some? ==> LastEvent(ops, at, target, j).value < j
    decreases k
  {
    if j < k {
      LastEventsAgree(ops, at, target, j, k - 1);
    } else if k > 0 {
      LastEventsAgree(ops, at, target, k - 1, k - 1);
    }
  }

  /** A Describe answered at `d` was in the queue all the time since it was sent. */
  lemma {:induction false} AskedStays(ops: seq<Op>, at: seq<World>, q: Asked, j: nat, d: nat)
    requires Chained(ops, at) && q.step < j <= d <= |ops| && q in at[d].h.asked
    ensures q in at[j].h.asked
    decreases d
  {
    if j < d {
      assert at[d - 1 + 1].h == Track(at[d - 1].s, at[d - 1].h, ops[d - 1], d - 1);
      AskedComesFrom(at[d - 1].s, at[d - 1].h, ops[d - 1], d - 1, q);
      AskedStays(ops, at, q, j, d - 1);
    }
  }
}
