/**
 Runs that a server answering strictly in order does produce, in which an Execute gets a
 plan that was not described for what it runs, or a Describe is judged by a text the
 answer is not about. Nothing in them is refused by the server: a name in use is prepared
 or bound again only if it is the empty one.
 */
module PlanLimits {
  import opened Wrappers
  import opened PlanStateModel
  import opened Pipeline

  const E := Name([])
  const P := Name([112])
  const A := Name([97])
  const C := Name([99])
  const ONE := Sql("one")
  const TWO := Sql("two")

  const ME := PendingMutation(E, 0)
  const MA := PendingMutation(A, 0)
  const MC := PendingMutation(C, 0)
  const MP := PendingMutation(P, 0)

  // ---- Runs a server serves -------------------------------------------------

  /** The server has no reason to refuse the message. */
  predicate Accepts(sent: seq<Sent>, m: Sent)
  {
    match m
    case SParse(name, _) => name == E || LastText(sent, name).None?
    case SBind(portal, statement, _) =>
      (portal == E || LastBinding(sent, portal).None?) && LastText(sent, statement).Some?
    case SDescribe(target) => DescribedText(sent, target).Some?
    case SExecute(portal) => BoundText(sent, portal).Some?
    case _ => true
  }

  predicate Serves(r: Server, a: Action)
  {
    Answerable(r, a) && (a.Send? ==> Accepts(r.sent, a.message))
  }

  /** Every message is accepted, and every answer is the next one owed. */
  ghost predicate Served(actions: seq<Action>)
  {
    forall j :: 0 <= j < |actions| ==> Serves(ServerAfter(actions[..j]), actions[j])
  }

  /** This is the only Execute among the actions, if it is one. */
  predicate OneExecute(actions: seq<Action>, k: nat)
  {
    forall j :: 0 <= j < |actions| && actions[j].Send? && actions[j].message.SExecute? ==> j == k
  }

  /** Served, and the only Execute runs a Bind still good for one. */
  lemma ServedIsLegal(actions: seq<Action>, k: nat)
    requires Served(actions) && OneExecute(actions, k) && k < |actions|
    requires actions[k].Send? && actions[k].message.SExecute? ==>
               actions[k].message.portal in ServerAfter(actions[..k]).ready
    ensures Legal(actions)
  {
    forall j | 0 <= j < |actions| ensures Enabled(ServerAfter(actions[..j]), actions[j]) {
      assert Serves(ServerAfter(actions[..j]), actions[j]);
    }
  }

  /**
   After the first `k` of these messages, proxy and server are in these states. The
   quantifier only keeps the run folded (see `ReachesIs`).
   */
  ghost predicate Reaches(actions: seq<Action>, k: nat, s: State, r: Server)
  {
    && k <= |actions|
    && forall run :: run == actions[..k] ==> Served(run) && ProxyAfter(run) == s && ServerAfter(run) == r
  }

  lemma ReachesIs(actions: seq<Action>, k: nat, s: State, r: Server)
    requires k <= |actions|
    ensures Reaches(actions, k, s, r) <==>
              Served(actions[..k]) && ProxyAfter(actions[..k]) == s && ServerAfter(actions[..k]) == r
  {
  }

  lemma Begin(actions: seq<Action>)
    ensures Reaches(actions, 0, Init, Start)
  {
  }

  lemma {:induction false} ServedExtends(before: seq<Action>, a: Action)
    requires Served(before) && Serves(ServerAfter(before), a)
    ensures Served(before + [a])
  {
    var longer := before + [a];
    forall j | 0 <= j < |longer| ensures Serves(ServerAfter(longer[..j]), longer[j]) {
      if j < |before| {
        assert longer[..j] == before[..j];
      } else {
        assert longer[..j] == before;
      }
    }
  }

  lemma {:induction false} RunsExtend(before: seq<Action>, a: Action)
    ensures ServerAfter(before + [a]) == Advance(ServerAfter(before), a)
    ensures ProxyAfter(before + [a]) == ProxyStep(ProxyAfter(before), a)
  {
    assert (before + [a])[..|before|] == before;
  }

  lemma {:induction false} Go(actions: seq<Action>, k: nat, s: State, r: Server)
    requires k < |actions| && Reaches(actions, k, s, r) && Serves(r, actions[k])
    ensures Reaches(actions, k + 1, ProxyStep(s, actions[k]), Advance(r, actions[k]))
  {
    ReachesIs(actions, k, s, r);
    ServedExtends(actions[..k], actions[k]);
    RunsExtend(actions[..k], actions[k]);
    assert actions[..k] + [actions[k]] == actions[..k + 1];
  }

  lemma GoSend(actions: seq<Action>, k: nat, s: State, r: Server, m: Sent)
    requires k < |actions| && Reaches(actions, k, s, r) && actions[k] == Send(m) && Accepts(r.sent, m)
    ensures Reaches(actions, k + 1, ProxyStep(s, Send(m)), Accept(r, m))
  {
    assert Serves(r, actions[k]);
    Go(actions, k, s, r);
  }

  lemma GoParse(actions: seq<Action>, k: nat, s: State, r: Server, name: Name, sql: Sql)
    requires k < |actions| && Reaches(actions, k, s, r) && actions[k] == Send(SParse(name, sql))
    requires Accepts(r.sent, SParse(name, sql))
    ensures Reaches(actions, k + 1, Parse(s, name, sql), Accept(r, SParse(name, sql)))
  {
    ParseStep(s, name, sql);
    GoSend(actions, k, s, r, SParse(name, sql));
  }

  lemma GoBind(actions: seq<Action>, k: nat, s: State, r: Server, portal: Name, statement: Name)
    requires k < |actions| && Reaches(actions, k, s, r) && actions[k] == Send(SBind(portal, statement, None))
    requires Accepts(r.sent, SBind(portal, statement, None))
    ensures Reaches(actions, k + 1, Bind(s, portal, statement, None), Accept(r, SBind(portal, statement, None)))
  {
    BindStep(s, portal, statement, None);
    GoSend(actions, k, s, r, SBind(portal, statement, None));
  }

  lemma GoDescribe(actions: seq<Action>, k: nat, s: State, r: Server, target: Target)
    requires k < |actions| && Reaches(actions, k, s, r) && actions[k] == Send(SDescribe(target))
    requires Accepts(r.sent, SDescribe(target))
    ensures Reaches(actions, k + 1, DescribeOp(s, target), Accept(r, SDescribe(target)))
  {
    DescribeStep(s, target);
    GoSend(actions, k, s, r, SDescribe(target));
  }

  lemma GoExecute(actions: seq<Action>, k: nat, s: State, r: Server, portal: Name)
    requires k < |actions| && Reaches(actions, k, s, r) && actions[k] == Send(SExecute(portal))
    requires Accepts(r.sent, SExecute(portal))
    ensures Reaches(actions, k + 1, Execute(s, portal), Accept(r, SExecute(portal)))
  {
    ExecuteStep(s, portal);
    GoSend(actions, k, s, r, SExecute(portal));
  }

  /** The server sends the answer at its head, and is done with it. */
  lemma Answered(r: Server, a: Action)
    requires Answerable(r, a) && !r.streaming
    requires a.ParseComplete? || a.BindComplete? || (a.RowDescription? && r.fifo[0].sent.SDescribe?)
    ensures Serves(r, a) && Advance(r, a) == r.(fifo := r.fifo[1..])
  {
  }

  lemma CompletionSteps(s: State)
    ensures ProxyStep(s, ParseComplete) == FinishParse(s) && ProxyStep(s, BindComplete) == FinishBind(s)
  {
  }

  lemma GoParseComplete(actions: seq<Action>, k: nat, s: State, r: Server)
    requires k < |actions| && Reaches(actions, k, s, r) && actions[k] == ParseComplete
    requires Answerable(r, ParseComplete) && !r.streaming
    ensures Reaches(actions, k + 1, FinishParse(s), r.(fifo := r.fifo[1..]))
  {
    CompletionSteps(s);
    Answered(r, ParseComplete);
    Go(actions, k, s, r);
  }

  lemma GoBindComplete(actions: seq<Action>, k: nat, s: State, r: Server)
    requires k < |actions| && Reaches(actions, k, s, r) && actions[k] == BindComplete
    requires Answerable(r, BindComplete) && !r.streaming
    ensures Reaches(actions, k + 1, FinishBind(s), r.(fifo := r.fifo[1..]))
  {
    CompletionSteps(s);
    Answered(r, BindComplete);
    Go(actions, k, s, r);
  }

  lemma GoRowDescription(actions: seq<Action>, k: nat, s: State, r: Server, plan: Plan)
    requires k < |actions| && Reaches(actions, k, s, r) && actions[k] == RowDescription(plan)
    requires Answerable(r, RowDescription(plan)) && r.fifo[0].sent.SDescribe? && !r.streaming
    ensures Reaches(actions, k + 1, FinishDescription(s, plan), r.(fifo := r.fifo[1..]))
  {
    DescriptionStep(s, plan);
    Answered(r, RowDescription(plan));
    Go(actions, k, s, r);
  }

  /** What the last message did to the texts, and what the ones before it had said. */
  lemma TextsGrow(sent: seq<Sent>, k: nat)
    requires k < |sent|
    ensures sent[..k + 1][..k] == sent[..k] && sent[..k + 1][k] == sent[k]
  {
  }

  /** The rows of the Execute at the server's head go out under a plan the server gave for another text. */
  ghost predicate ServesAnotherTextsPlan(actions: seq<Action>, answered: nat, plan: Plan)
  {
    && answered < |actions| && Served(actions)
    && actions[answered] == RowDescription(plan)
    && var described, owed := ServerAfter(actions[..answered]).fifo, ServerAfter(actions).fifo;
    && described != [] && described[0].sent.SDescribe? && described[0].text.Some?
    && owed != [] && owed[0].sent.SExecute? && owed[0].text.Some?
    && described[0].text != owed[0].text
    && StreamingPlan(ProxyAfter(actions)) == Some(plan)
  }

  // ---- A Describe overtaken by a Bind ---------------------------------------

  function Sent1(): seq<Sent>
  {
    [SParse(A, ONE), SParse(C, TWO), SBind(E, A, None), SDescribe(Portal(E)), SBind(E, C, None), SExecute(E)]
  }

  function Owed1(): seq<Outstanding>
  {
    [Outstanding(SParse(A, ONE), None, None, 0, 0, false), Outstanding(SParse(C, TWO), None, None, 0, 0, false),
     Outstanding(SBind(E, A, None), None, None, 0, 0, false),
     Outstanding(SDescribe(Portal(E)), Some(ONE), Some(ONE), 0, 0, false),
     Outstanding(SBind(E, C, None), None, None, 0, 0, false),
     Outstanding(SExecute(E), Some(TWO), Some(TWO), 0, 0, false)]
  }

  /** The Describe of the unnamed portal is pending when the portal is bound to another statement. */
  function BindOvertakes(plan: Plan): seq<Action>
  {
    [Send(Sent1()[0]), Send(Sent1()[1]), Send(Sent1()[2]), Send(Sent1()[3]), Send(Sent1()[4]), Send(Sent1()[5]),
     ParseComplete, ParseComplete, BindComplete, RowDescription(plan), BindComplete]
  }

  const S1 := Init.(statementSql := map[A := ONE], parses := [MA])
  const S2 := Init.(statementSql := map[A := ONE, C := TWO], parses := [MA, MC])
  const S4 := S2.(portalStatement := map[E := A], portalFormats := map[E := None], bindGenerations := map[E := 1],
                  binds := [ME], descriptions := [Describe(Portal(E), Some(ONE), 0)])
  const S3 := S4.(descriptions := [])
  const S5 := S4.(portalStatement := map[E := C], bindGenerations := map[E := 2], binds := [ME, ME])
  const S6 := S5.(activeEpoch := Some(0), activePortal := Some(E), nextOrder := 1,
                  executes := [PendingExecute(E, 0, 0, None, 2)])
  const S9 := S6.(parses := [], binds := [ME])

  function S11(plan: Plan): State
  {
    S9.(descriptions := [], activePlan := Some(plan), portalPlans := map[E := plan], binds := [],
        executes := [PendingExecute(E, 0, 0, Some(plan), 2)])
  }

  function R1(sends: nat, answers: nat): Server
    requires answers <= sends <= 6
  {
    Server(Owed1()[answers..sends], false, 0, if sends == 6 then 1 else 0, Sent1()[..sends],
           if 3 <= sends <= 5 then {E} else {})
  }

  lemma Texts1()
    ensures LastText(Sent1()[..1], C) == None
    ensures LastText(Sent1()[..2], A) == Some(ONE) && LastText(Sent1()[..4], C) == Some(TWO)
    ensures DescribedText(Sent1()[..3], Portal(E)) == LatestText(Sent1()[..3], Portal(E)) == Some(ONE)
    ensures DescribedText(Sent1()[..5], Portal(E)) == LatestText(Sent1()[..5], Portal(E)) == Some(TWO)
  {
    var m := Sent1();
    TextsGrow(m, 0);
    TextsGrow(m, 1);
    TextsGrow(m, 2);
    TextsGrow(m, 3);
    TextsGrow(m, 4);
    assert LastText(m[..1], A) == Some(ONE);
    assert LastText(m[..3], A) == Some(ONE);
    assert LastText(m[..2], C) == LastText(m[..3], C) == LastText(m[..4], C) == LastText(m[..5], C) == Some(TWO);
  }

  lemma Grow1(k: nat)
    requires k < 6
    ensures Owed1()[0..k] + [Owed1()[k]] == Owed1()[0..k + 1] && Sent1()[..k] + [Sent1()[k]] == Sent1()[..k + 1]
  {
  }

  lemma ServeBinds1()
    ensures Accept(R1(2, 0), SBind(E, A, None)) == R1(3, 0)
    ensures Accept(R1(4, 0), SBind(E, C, None)) == R1(5, 0)
  {
    Grow1(2);
    Grow1(4);
  }

  lemma ServeDescribe1()
    ensures Accept(R1(3, 0), SDescribe(Portal(E))) == R1(4, 0)
  {
    Grow1(3);
    Texts1();
  }

  lemma AcceptsDescribe1()
    ensures Accepts(R1(3, 0).sent, SDescribe(Portal(E)))
  {
    Texts1();
  }

  lemma ServeExecute1()
    ensures Accept(R1(5, 0), SExecute(E)) == R1(6, 0)
  {
    Grow1(5);
    Texts1();
  }

  lemma AcceptsBinds1()
    ensures Accepts(R1(2, 0).sent, SBind(E, A, None)) && Accepts(R1(4, 0).sent, SBind(E, C, None))
  {
    Texts1();
  }

  lemma FirstBind1()
    ensures Bind(S2, E, A, None) == S3
  {
    assert !Held([], E, 1);
  }

  lemma SecondBind1()
    ensures Bind(S4, E, C, None) == S5
  {
    assert !Held([], E, 2);
  }

  lemma FirstBindComplete1()
    ensures FinishBind(S6.(parses := [])) == S9
  {
  }

  lemma Answer1(plan: Plan)
    ensures FinishDescription(S9, plan) == S11(plan).(binds := [ME])
  {
  }

  lemma LastBindComplete1(plan: Plan)
    ensures FinishBind(S11(plan).(binds := [ME])) == S11(plan)
  {
  }

  lemma Prepare1()
    ensures Parse(Init, A, ONE) == S1 && Parse(S1, C, TWO) == S2
  {
  }

  lemma ServeFirst1()
    ensures Accept(Start, SParse(A, ONE)) == R1(1, 0)
  {
    Grow1(0);
  }

  lemma ServeSecond1()
    ensures Accept(R1(1, 0), SParse(C, TWO)) == R1(2, 0)
  {
    Grow1(1);
    var r := R1(1, 0);
    assert ReadyAfter(r, SParse(C, TWO)) == {};
  }

  lemma Describe1()
    ensures DescribeOp(S3, Portal(E)) == S4
  {
  }

  lemma Execute1()
    ensures Execute(S5, E) == S6
  {
  }

  lemma Bind1At1(plan: Plan)
    ensures Reaches(BindOvertakes(plan), 1, S1, R1(1, 0))
  {
    Begin(BindOvertakes(plan));
    Prepare1();
    ServeFirst1();
    GoParse(BindOvertakes(plan), 0, Init, Start, A, ONE);
  }

  lemma Bind1At2(plan: Plan)
    ensures Reaches(BindOvertakes(plan), 2, S2, R1(2, 0))
  {
    Bind1At1(plan);
    Prepare1();
    ServeSecond1();
    Texts1();
    GoParse(BindOvertakes(plan), 1, S1, R1(1, 0), C, TWO);
  }

  lemma Bind1At3(plan: Plan)
    ensures Reaches(BindOvertakes(plan), 3, S3, R1(3, 0))
  {
    Bind1At2(plan);
    FirstBind1();
    ServeBinds1();
    AcceptsBinds1();
    GoBind(BindOvertakes(plan), 2, S2, R1(2, 0), E, A);
  }

  lemma Bind1At4(plan: Plan)
    ensures Reaches(BindOvertakes(plan), 4, S4, R1(4, 0))
  {
    Bind1At3(plan);
    Describe1();
    ServeDescribe1();
    AcceptsDescribe1();
    GoDescribe(BindOvertakes(plan), 3, S3, R1(3, 0), Portal(E));
  }

  lemma Bind1At5(plan: Plan)
    ensures Reaches(BindOvertakes(plan), 5, S5, R1(5, 0))
  {
    Bind1At4(plan);
    SecondBind1();
    ServeBinds1();
    AcceptsBinds1();
    GoBind(BindOvertakes(plan), 4, S4, R1(4, 0), E, C);
  }

  lemma Bind1At6(plan: Plan)
    ensures Reaches(BindOvertakes(plan), 6, S6, R1(6, 0))
  {
    Bind1At5(plan);
    Execute1();
    ServeExecute1();
    Texts1();
    GoExecute(BindOvertakes(plan), 5, S5, R1(5, 0), E);
  }

  lemma Bind1At7(plan: Plan)
    ensures Reaches(BindOvertakes(plan), 7, S6.(parses := [MC]), R1(6, 1))
  {
    Bind1At6(plan);
    GoParseComplete(BindOvertakes(plan), 6, S6, R1(6, 0));
  }

  lemma Bind1At8(plan: Plan)
    ensures Reaches(BindOvertakes(plan), 8, S6.(parses := []), R1(6, 2))
  {
    Bind1At7(plan);
    GoParseComplete(BindOvertakes(plan), 7, S6.(parses := [MC]), R1(6, 1));
  }

  lemma Bind1At9(plan: Plan)
    ensures Reaches(BindOvertakes(plan), 9, S9, R1(6, 3))
  {
    Bind1At8(plan);
    FirstBindComplete1();
    GoBindComplete(BindOvertakes(plan), 8, S6.(parses := []), R1(6, 2));
  }

  lemma Bind1At10(plan: Plan)
    ensures Reaches(BindOvertakes(plan), 10, S11(plan).(binds := [ME]), R1(6, 4))
  {
    Bind1At9(plan);
    Answer1(plan);
    GoRowDescription(BindOvertakes(plan), 9, S9, R1(6, 3), plan);
  }

  lemma Bind1At11(plan: Plan)
    ensures Reaches(BindOvertakes(plan), 11, S11(plan), R1(6, 5))
  {
    Bind1At10(plan);
    LastBindComplete1(plan);
    GoBindComplete(BindOvertakes(plan), 10, S11(plan).(binds := [ME]), R1(6, 4));
  }

  lemma OneExecute1(plan: Plan)
    ensures OneExecute(BindOvertakes(plan), 5)
  {
  }

  lemma Legal1(plan: Plan)
    ensures Legal(BindOvertakes(plan))
  {
    Bind1At5(plan);
    Bind1At11(plan);
    assert BindOvertakes(plan)[..11] == BindOvertakes(plan);
    OneExecute1(plan);
    ServedIsLegal(BindOvertakes(plan), 5);
  }

  /**
   Parse A, Parse C, Bind the unnamed portal to A, Describe it, Bind it to C, Execute it,
   all answered in order: the rows of C go out under the plan described for A.
   */
  lemma BindOvertakesDescribe(plan: Plan)
    ensures ServesAnotherTextsPlan(BindOvertakes(plan), 9, plan) && Legal(BindOvertakes(plan))
  {
    Legal1(plan);
    Bind1At9(plan);
    Bind1At11(plan);
    assert BindOvertakes(plan)[..11] == BindOvertakes(plan);
    assert R1(6, 3).fifo[0] == Owed1()[3] && R1(6, 5).fifo[0] == Owed1()[5];
  }

  // ---- A Describe overtaken by a new text -----------------------------------

  function Sent2(): seq<Sent>
  {
    [SParse(E, ONE), SDescribe(Statement(E)), SParse(E, TWO), SBind(E, E, None), SExecute(E)]
  }

  function Owed2(): seq<Outstanding>
  {
    [Outstanding(SParse(E, ONE), None, None, 0, 0, false),
     Outstanding(SDescribe(Statement(E)), Some(ONE), Some(ONE), 0, 0, false),
     Outstanding(SParse(E, TWO), None, None, 0, 0, false), Outstanding(SBind(E, E, None), None, None, 0, 0, false),
     Outstanding(SExecute(E), Some(TWO), Some(TWO), 0, 0, false)]
  }

  /** The unnamed statement gets another text while the Describe of the first is pending. */
  function ParseOvertakes(plan: Plan): seq<Action>
  {
    [Send(Sent2()[0]), Send(Sent2()[1]), Send(Sent2()[2]), Send(Sent2()[3]), Send(Sent2()[4]),
     ParseComplete, RowDescription(plan), ParseComplete, BindComplete]
  }

  const T1 := Init.(statementSql := map[E := ONE], parses := [ME])
  const T2 := T1.(descriptions := [Describe(Statement(E), Some(ONE), 0)])
  const T3 := T2.(statementSql := map[E := TWO], parses := [ME, ME])
  const T4 := T3.(portalStatement := map[E := E], portalFormats := map[E := None], bindGenerations := map[E := 1],
                  binds := [ME])
  const T5 := T4.(activeEpoch := Some(0), activePortal := Some(E), nextOrder := 1,
                  executes := [PendingExecute(E, 0, 0, None, 1)])
  const T6 := T5.(parses := [ME])

  function T7(plan: Plan): State
  {
    T6.(descriptions := [], activePlan := Some(plan), statementPlans := map[E := plan],
        portalPlans := map[E := plan], executes := [PendingExecute(E, 0, 0, Some(plan), 1)])
  }

  function R2(sends: nat, answers: nat): Server
    requires answers <= sends <= 5
  {
    Server(Owed2()[answers..sends], false, 0, if sends == 5 then 1 else 0, Sent2()[..sends],
           if sends == 4 then {E} else {})
  }

  lemma Texts2()
    ensures LastText(Sent2()[..1], E) == Some(ONE) && LastText(Sent2()[..2], E) == Some(ONE)
    ensures LastText(Sent2()[..3], E) == Some(TWO)
    ensures DescribedText(Sent2()[..4], Portal(E)) == LatestText(Sent2()[..4], Portal(E)) == Some(TWO)
  {
    var m := Sent2();
    TextsGrow(m, 0);
    TextsGrow(m, 1);
    TextsGrow(m, 2);
    TextsGrow(m, 3);
    assert LastText(m[..4], E) == Some(TWO);
  }

  lemma Grow2(k: nat)
    requires k < 5
    ensures Owed2()[0..k] + [Owed2()[k]] == Owed2()[0..k + 1] && Sent2()[..k] + [Sent2()[k]] == Sent2()[..k + 1]
  {
  }

  lemma ServePrepares2()
    ensures Accept(Start, SParse(E, ONE)) == R2(1, 0)
    ensures Accept(R2(1, 0), SDescribe(Statement(E))) == R2(2, 0)
    ensures Accept(R2(2, 0), SParse(E, TWO)) == R2(3, 0)
  {
    Texts2();
    Grow2(1);
    Grow2(2);
  }

  lemma ServeRuns2()
    ensures Accept(R2(3, 0), SBind(E, E, None)) == R2(4, 0)
    ensures Accept(R2(4, 0), SExecute(E)) == R2(5, 0)
  {
    Texts2();
    Grow2(3);
    Grow2(4);
  }

  lemma Prepare2()
    ensures Parse(Init, E, ONE) == T1 && DescribeOp(T1, Statement(E)) == T2
  {
  }

  lemma Reparse2()
    ensures Parse(T2, E, TWO) == T3
  {
    assert BoundTo(T2, E) == {};
  }

  lemma Bind2()
    ensures Bind(T3, E, E, None) == T4
  {
    assert !Held([], E, 1);
  }

  lemma Execute2()
    ensures Execute(T4, E) == T5
  {
  }

  lemma Answer2(plan: Plan)
    ensures FinishDescription(T6, plan) == T7(plan)
  {
    assert StampedFor(T6.portalStatement, T6.portalFormats, E, plan) == map[E := plan];
  }

  lemma LastBindComplete2(plan: Plan)
    ensures FinishBind(T7(plan).(parses := [])) == T7(plan).(parses := [], binds := [])
  {
  }

  lemma Parse2At1(plan: Plan)
    ensures Reaches(ParseOvertakes(plan), 1, T1, R2(1, 0))
  {
    Begin(ParseOvertakes(plan));
    Prepare2();
    ServePrepares2();
    GoParse(ParseOvertakes(plan), 0, Init, Start, E, ONE);
  }

  lemma Parse2At2(plan: Plan)
    ensures Reaches(ParseOvertakes(plan), 2, T2, R2(2, 0))
  {
    Parse2At1(plan);
    Texts2();
    Prepare2();
    ServePrepares2();
    GoDescribe(ParseOvertakes(plan), 1, T1, R2(1, 0), Statement(E));
  }

  lemma Parse2At3(plan: Plan)
    ensures Reaches(ParseOvertakes(plan), 3, T3, R2(3, 0))
  {
    Parse2At2(plan);
    Reparse2();
    ServePrepares2();
    GoParse(ParseOvertakes(plan), 2, T2, R2(2, 0), E, TWO);
  }

  lemma Parse2At4(plan: Plan)
    ensures Reaches(ParseOvertakes(plan), 4, T4, R2(4, 0))
  {
    Parse2At3(plan);
    Texts2();
    Bind2();
    ServeRuns2();
    GoBind(ParseOvertakes(plan), 3, T3, R2(3, 0), E, E);
  }

  lemma Parse2At5(plan: Plan)
    ensures Reaches(ParseOvertakes(plan), 5, T5, R2(5, 0))
  {
    Parse2At4(plan);
    Texts2();
    Execute2();
    ServeRuns2();
    GoExecute(ParseOvertakes(plan), 4, T4, R2(4, 0), E);
  }

  lemma Parse2At6(plan: Plan)
    ensures Reaches(ParseOvertakes(plan), 6, T6, R2(5, 1))
  {
    Parse2At5(plan);
    GoParseComplete(ParseOvertakes(plan), 5, T5, R2(5, 0));
  }

  lemma Parse2At7(plan: Plan)
    ensures Reaches(ParseOvertakes(plan), 7, T7(plan), R2(5, 2))
  {
    Parse2At6(plan);
    Answer2(plan);
    GoRowDescription(ParseOvertakes(plan), 6, T6, R2(5, 1), plan);
  }

  lemma Parse2At8(plan: Plan)
    ensures Reaches(ParseOvertakes(plan), 8, T7(plan).(parses := []), R2(5, 3))
  {
    Parse2At7(plan);
    GoParseComplete(ParseOvertakes(plan), 7, T7(plan), R2(5, 2));
  }

  lemma Parse2At9(plan: Plan)
    ensures Reaches(ParseOvertakes(plan), 9, T7(plan).(parses := [], binds := []), R2(5, 4))
  {
    Parse2At8(plan);
    LastBindComplete2(plan);
    GoBindComplete(ParseOvertakes(plan), 8, T7(plan).(parses := []), R2(5, 3));
  }

  lemma OneExecute2(plan: Plan)
    ensures OneExecute(ParseOvertakes(plan), 4)
  {
  }

  lemma Legal2(plan: Plan)
    ensures Legal(ParseOvertakes(plan))
  {
    Parse2At4(plan);
    Parse2At9(plan);
    assert ParseOvertakes(plan)[..9] == ParseOvertakes(plan);
    OneExecute2(plan);
    ServedIsLegal(ParseOvertakes(plan), 4);
  }

  /**
   Parse one, Describe the statement, Parse two, Bind, Execute, all answered in order and
   all under the empty name: the rows of the second text go out under the plan of the first.
   */
  lemma ParseOvertakesDescribe(plan: Plan)
    ensures ServesAnotherTextsPlan(ParseOvertakes(plan), 6, plan) && Legal(ParseOvertakes(plan))
  {
    Legal2(plan);
    Parse2At6(plan);
    Parse2At9(plan);
    assert ParseOvertakes(plan)[..9] == ParseOvertakes(plan);
    assert R2(5, 1).fifo[0] == Owed2()[1] && R2(5, 4).fifo[0] == Owed2()[4];
  }

  // ---- A portal whose statement got a new text ------------------------------

  function Sent3(): seq<Sent>
  {
    [SParse(E, ONE), SBind(P, E, None), SParse(E, TWO), SDescribe(Statement(E)), SExecute(P)]
  }

  function Owed3(): seq<Outstanding>
  {
    [Outstanding(SParse(E, ONE), None, None, 0, 0, false), Outstanding(SBind(P, E, None), None, None, 0, 0, false),
     Outstanding(SParse(E, TWO), None, None, 0, 0, false),
     Outstanding(SDescribe(Statement(E)), Some(TWO), Some(TWO), 0, 0, false),
     Outstanding(SExecute(P), Some(ONE), Some(TWO), 0, 0, false)]
  }

  /** Portal P is bound to the unnamed statement, which gets a new text and is described; then P is executed. */
  function Counterless(plan: Plan): seq<Action>
  {
    [Send(Sent3()[0]), Send(Sent3()[1]), Send(Sent3()[2]), Send(Sent3()[3]), Send(Sent3()[4]),
     ParseComplete, BindComplete, ParseComplete, RowDescription(plan)]
  }

  const W2 := T1.(portalStatement := map[P := E], portalFormats := map[P := None], bindGenerations := map[P := 1],
                  binds := [MP])
  const W3 := W2.(statementSql := map[E := TWO], parses := [ME, ME], portalFormats := map[], bindGenerations := map[])
  const W4 := W3.(descriptions := [Describe(Statement(E), Some(TWO), 0)])
  const W5 := W4.(activeEpoch := Some(0), activePortal := Some(P), nextOrder := 1,
                  executes := [PendingExecute(P, 0, 0, None, 0)])
  const W8 := W5.(parses := [], binds := [])

  function W9(plan: Plan): State
  {
    W8.(descriptions := [], activePlan := Some(plan), statementPlans := map[E := plan],
        portalPlans := map[P := plan], executes := [PendingExecute(P, 0, 0, Some(plan), 0)])
  }

  function R3(sends: nat, answers: nat): Server
    requires answers <= sends <= 5
  {
    Server(Owed3()[answers..sends], false, 0, if sends == 5 then 1 else 0, Sent3()[..sends],
           if sends == 2 then {P} else {})
  }

  lemma Texts3()
    ensures LastText(Sent3()[..1], E) == Some(ONE) && LastBinding(Sent3()[..1], P) == None
    ensures LastText(Sent3()[..2], E) == Some(ONE) && LastBinding(Sent3()[..2], P) == Some(E)
    ensures LastText(Sent3()[..3], E) == Some(TWO)
    ensures BoundText(Sent3()[..3], P) == Some(ONE) && LatestText(Sent3()[..3], Portal(P)) == Some(TWO)
    ensures BoundText(Sent3()[..4], P) == Some(ONE) && LatestText(Sent3()[..4], Portal(P)) == Some(TWO)
  {
    var m := Sent3();
    TextsGrow(m, 0);
    TextsGrow(m, 1);
    TextsGrow(m, 2);
    TextsGrow(m, 3);
    assert LastText(m[..4], E) == Some(TWO);
  }

  lemma Grow3(k: nat)
    requires k < 5
    ensures Owed3()[0..k] + [Owed3()[k]] == Owed3()[0..k + 1] && Sent3()[..k] + [Sent3()[k]] == Sent3()[..k + 1]
  {
  }

  lemma ServePrepares3()
    ensures Accept(Start, SParse(E, ONE)) == R3(1, 0)
    ensures Accept(R3(1, 0), SBind(P, E, None)) == R3(2, 0)
    ensures Accept(R3(2, 0), SParse(E, TWO)) == R3(3, 0)
  {
    Texts3();
    Grow3(1);
    Grow3(2);
    assert (set p | p in {P} && LastBinding(Sent3()[..2], p) != Some(E)) == {};
  }

  lemma ServeRuns3()
    ensures Accept(R3(3, 0), SDescribe(Statement(E))) == R3(4, 0)
    ensures Accept(R3(4, 0), SExecute(P)) == R3(5, 0)
  {
    Texts3();
    Grow3(3);
    Grow3(4);
  }

  lemma Prepare3()
    ensures Parse(Init, E, ONE) == T1 && Bind(T1, P, E, None) == W2
  {
    assert !Held([], P, 1);
  }

  lemma AcceptsBind3()
    ensures Accepts(R3(1, 0).sent, SBind(P, E, None))
  {
    Texts3();
  }

  lemma Reparse3()
    ensures Parse(W2, E, TWO) == W3
  {
    assert BoundTo(W2, E) == {P};
  }

  lemma Run3()
    ensures DescribeOp(W3, Statement(E)) == W4 && Execute(W4, P) == W5
  {
  }

  lemma BindComplete3()
    ensures FinishBind(W5.(parses := [ME])) == W5.(parses := [ME], binds := [])
  {
  }

  lemma Answer3(plan: Plan)
    ensures FinishDescription(W8, plan) == W9(plan)
  {
    assert StampedFor(W8.portalStatement, W8.portalFormats, E, plan) == map[P := plan];
  }

  lemma Late3At1(plan: Plan)
    ensures Reaches(Counterless(plan), 1, T1, R3(1, 0))
  {
    Begin(Counterless(plan));
    Prepare3();
    ServePrepares3();
    GoParse(Counterless(plan), 0, Init, Start, E, ONE);
  }

  lemma Late3At2(plan: Plan)
    ensures Reaches(Counterless(plan), 2, W2, R3(2, 0))
  {
    Late3At1(plan);
    AcceptsBind3();
    Prepare3();
    ServePrepares3();
    GoBind(Counterless(plan), 1, T1, R3(1, 0), P, E);
  }

  lemma Late3At3(plan: Plan)
    ensures Reaches(Counterless(plan), 3, W3, R3(3, 0))
  {
    Late3At2(plan);
    Reparse3();
    ServePrepares3();
    GoParse(Counterless(plan), 2, W2, R3(2, 0), E, TWO);
  }

  lemma Late3At4(plan: Plan)
    ensures Reaches(Counterless(plan), 4, W4, R3(4, 0))
  {
    Late3At3(plan);
    Texts3();
    Run3();
    ServeRuns3();
    GoDescribe(Counterless(plan), 3, W3, R3(3, 0), Statement(E));
  }

  lemma Late3At5(plan: Plan)
    ensures Reaches(Counterless(plan), 5, W5, R3(5, 0))
  {
    Late3At4(plan);
    Texts3();
    Run3();
    ServeRuns3();
    GoExecute(Counterless(plan), 4, W4, R3(4, 0), P);
  }

  lemma Late3At6(plan: Plan)
    ensures Reaches(Counterless(plan), 6, W5.(parses := [ME]), R3(5, 1))
  {
    Late3At5(plan);
    GoParseComplete(Counterless(plan), 5, W5, R3(5, 0));
  }

  lemma Late3At7(plan: Plan)
    ensures Reaches(Counterless(plan), 7, W5.(parses := [ME], binds := []), R3(5, 2))
  {
    Late3At6(plan);
    BindComplete3();
    GoBindComplete(Counterless(plan), 6, W5.(parses := [ME]), R3(5, 1));
  }

  lemma Late3At8(plan: Plan)
    ensures Reaches(Counterless(plan), 8, W8, R3(5, 3))
  {
    Late3At7(plan);
    GoParseComplete(Counterless(plan), 7, W5.(parses := [ME], binds := []), R3(5, 2));
  }

  lemma Late3At9(plan: Plan)
    ensures Reaches(Counterless(plan), 9, W9(plan), R3(5, 4))
  {
    Late3At8(plan);
    Answer3(plan);
    GoRowDescription(Counterless(plan), 8, W8, R3(5, 3), plan);
  }

  /**
   Without a generation on record nothing need be overtaken: the Execute runs the text its
   Bind saw, and takes the plan described for the text the statement was given since.
   */
  lemma CounterlessExecuteTakesTheNewTextsPlan(plan: Plan)
    ensures ServesAnotherTextsPlan(Counterless(plan), 8, plan)
    ensures Newest(Counterless(plan)).bindGeneration == 0
  {
    Late3At8(plan);
    Late3At9(plan);
    assert Counterless(plan)[..9] == Counterless(plan);
    assert R3(5, 3).fifo[0] == Owed3()[3] && R3(5, 4).fifo[0] == Owed3()[4];
  }

  /** The last Execute in the proxy's queue. */
  function Newest(actions: seq<Action>): PendingExecute
  {
    var q := ProxyAfter(actions).executes;
    if q == [] then PendingExecute(E, 0, 0, None, 1) else q[|q| - 1]
  }

  // ---- A portal judged by its statement's new text --------------------------

  function Sent4(): seq<Sent>
  {
    [SParse(E, ONE), SBind(P, E, None), SParse(E, TWO), SDescribe(Portal(P))]
  }

  /** Portal P is bound to the unnamed statement, which gets a new text; then P is described. */
  function Rejudged(): seq<Action>
  {
    [Send(Sent4()[0]), Send(Sent4()[1]), Send(Sent4()[2]), Send(Sent4()[3]), ParseComplete, BindComplete, ParseComplete]
  }

  const W4P := W3.(descriptions := [Describe(Portal(P), Some(TWO), 0)])

  function R4(answers: nat): Server
    requires answers <= 4
  {
    Server((R3(3, 0).fifo + [Outstanding(SDescribe(Portal(P)), Some(ONE), Some(TWO), 0, 0, false)])[answers..],
           false, 0, 0, Sent4(), {})
  }

  lemma Serve4()
    ensures Accept(R3(3, 0), SDescribe(Portal(P))) == R4(0)
    ensures DescribeOp(W3, Portal(P)) == W4P
    ensures FinishBind(W4P.(parses := [ME])) == W4P.(parses := [ME], binds := [])
  {
    Texts3();
    assert Sent3()[..3] + [SDescribe(Portal(P))] == Sent4();
  }

  /** The first three messages are those of the run before. */
  lemma Judge4At3()
    ensures Reaches(Rejudged(), 3, W3, R3(3, 0))
  {
    Late3At3(Plan([]));
    assert Rejudged()[..3] == Counterless(Plan([]))[..3];
  }

  lemma Accepts4()
    ensures Accepts(R3(3, 0).sent, SDescribe(Portal(P)))
  {
    Texts3();
  }

  lemma Judge4At4()
    ensures Reaches(Rejudged(), 4, W4P, R4(0))
  {
    Judge4At3();
    Accepts4();
    Serve4();
    GoDescribe(Rejudged(), 3, W3, R3(3, 0), Portal(P));
  }

  lemma Judge4At5()
    ensures Reaches(Rejudged(), 5, W4P.(parses := [ME]), R4(1))
  {
    Judge4At4();
    GoParseComplete(Rejudged(), 4, W4P, R4(0));
  }

  lemma Judge4At6()
    ensures Reaches(Rejudged(), 6, W4P.(parses := [ME], binds := []), R4(2))
  {
    Judge4At5();
    Serve4();
    GoBindComplete(Rejudged(), 5, W4P.(parses := [ME]), R4(1));
  }

  lemma Judge4At7()
    ensures Reaches(Rejudged(), 7, W4P.(parses := [], binds := []), R4(3))
  {
    Judge4At6();
    GoParseComplete(Rejudged(), 6, W4P.(parses := [ME], binds := []), R4(2));
  }

  lemma NoExecute4()
    ensures OneExecute(Rejudged(), 0) && Rejudged()[0] == Send(SParse(E, ONE))
  {
  }

  /** The RowDescription owed next is of the first text; the proxy is about to judge it by the second. */
  lemma PortalIsJudgedByAnotherText()
    ensures Served(Rejudged()) && Legal(Rejudged()) && ServerAfter(Rejudged()).fifo != []
    ensures ServerAfter(Rejudged()).fifo[0].sent == SDescribe(Portal(P))
    ensures ServerAfter(Rejudged()).fifo[0].text == Some(ONE) && DescribedSql(ProxyAfter(Rejudged())) == Some(TWO)
  {
    Judge4At7();
    assert Rejudged()[..7] == Rejudged();
    NoExecute4();
    ServedIsLegal(Rejudged(), 0);
  }

  // ---- A Query's rows under a portal's plan ---------------------------------

  function Sent5(): seq<Sent>
  {
    [SParse(A, ONE), SDescribe(Statement(A)), SBind(P, A, None), SQuery(Some(TWO)), SExecute(P)]
  }

  function Owed5(): seq<Outstanding>
  {
    [Outstanding(SParse(A, ONE), None, None, 0, 0, false),
     Outstanding(SDescribe(Statement(A)), Some(ONE), Some(ONE), 0, 0, false),
     Outstanding(SBind(P, A, None), None, None, 0, 0, false),
     Outstanding(SQuery(Some(TWO)), Some(TWO), Some(TWO), 0, 0, false),
     Outstanding(SSync, None, None, 0, 0, false),
     Outstanding(SExecute(P), Some(ONE), Some(ONE), 0, 1, false)]
  }

  /** A portal is described and bound, a Query's rows have begun, and the portal is executed. */
  function Interrupted(x: Plan, y: Plan): seq<Action>
  {
    [Send(Sent5()[0]), Send(Sent5()[1]), Send(Sent5()[2]), Send(Sent5()[3]),
     ParseComplete, RowDescription(x), BindComplete, RowDescription(y), Send(Sent5()[4])]
  }

  const V1 := Init.(statementSql := map[A := ONE], parses := [MA])
  const V2 := V1.(descriptions := [Describe(Statement(A), Some(ONE), 0)])
  const V3 := V2.(portalStatement := map[P := A], portalFormats := map[P := None], bindGenerations := map[P := 1],
                  binds := [MP])
  const V4 := V3.(descriptions := [Describe(Statement(A), Some(ONE), 0), Simple(Some(TWO), 0, 0)], nextOrder := 1)
  const V5 := V4.(parses := [])

  function V6(x: Plan): State
  {
    V5.(descriptions := [Simple(Some(TWO), 0, 0)], activePlan := Some(x), activeEpoch := Some(0),
        statementPlans := map[A := x], portalPlans := map[P := x])
  }

  function V8(x: Plan, y: Plan): State
  {
    V6(x).(binds := [], descriptions := [], streamingSimple := true, activePlan := Some(y))
  }

  function V9(x: Plan, y: Plan): State
  {
    V8(x, y).(activePlan := Some(x), activePortal := Some(P), nextOrder := 2,
              executes := [PendingExecute(P, 0, 1, Some(x), 1)])
  }

  /** The first `sends` messages sent; the first `answers` entries answered. */
  function R5(sends: nat, answers: nat, streaming: bool): Server
    requires sends <= 5 && answers <= Entries5(sends)
  {
    Server(Owed5()[answers..Entries5(sends)], streaming, 0, if sends == 5 then 2 else if sends == 4 then 1 else 0,
           Sent5()[..sends], if 3 <= sends <= 4 then {P} else {})
  }

  /** The Query is owed its ReadyForQuery too. */
  function Entries5(sends: nat): (n: nat)
    ensures sends <= 5 ==> n <= 6
  {
    if sends <= 3 then sends else sends + 1
  }

  lemma Texts5()
    ensures LastText(Sent5()[..1], A) == Some(ONE) && LastText(Sent5()[..2], A) == Some(ONE)
    ensures LastBinding(Sent5()[..2], P) == None && LastBinding(Sent5()[..3], P) == Some(A)
    ensures BoundText(Sent5()[..4], P) == Some(ONE) && LatestText(Sent5()[..4], Portal(P)) == Some(ONE)
  {
    var m := Sent5();
    TextsGrow(m, 0);
    TextsGrow(m, 1);
    TextsGrow(m, 2);
    TextsGrow(m, 3);
    assert LastText(m[..2], A) == LastText(m[..1], A) == Some(ONE);
    assert LastText(m[..3], A) == LastText(m[..2], A);
    assert LastText(m[..4], A) == LastText(m[..3], A);
    assert LastBinding(m[..4], P) == Some(A) && BoundText(m[..3], P) == Some(ONE);
  }

  lemma Grow5(k: nat)
    requires k < 5
    ensures Sent5()[..k] + [Sent5()[k]] == Sent5()[..k + 1]
  {
  }

  lemma ServeFirst5()
    ensures Accept(Start, SParse(A, ONE)) == R5(1, 0, false)
  {
    Grow5(0);
  }

  lemma ServeDescribe5()
    ensures Accept(R5(1, 0, false), SDescribe(Statement(A))) == R5(2, 0, false)
    ensures Accepts(R5(1, 0, false).sent, SDescribe(Statement(A)))
  {
    Grow5(1);
    Texts5();
  }

  lemma ServeBind5()
    ensures Accept(R5(2, 0, false), SBind(P, A, None)) == R5(3, 0, false)
    ensures Accepts(R5(2, 0, false).sent, SBind(P, A, None))
  {
    Grow5(2);
    Texts5();
  }

  lemma ServeQuery5()
    ensures Accept(R5(3, 0, false), SQuery(Some(TWO))) == R5(4, 0, false)
  {
    Grow5(3);
  }

  lemma ServeExecute5()
    ensures Accept(R5(4, 3, true), SExecute(P)) == R5(5, 3, true)
    ensures Accepts(R5(4, 3, true).sent, SExecute(P))
  {
    Grow5(4);
    Texts5();
  }

  lemma Prepare5()
    ensures Parse(Init, A, ONE) == V1 && DescribeOp(V1, Statement(A)) == V2
  {
  }

  lemma Bind5()
    ensures Bind(V2, P, A, None) == V3
  {
    assert !Held([], P, 1);
  }

  lemma Query5()
    ensures BeginSimpleQuery(V3, Some(TWO)) == V4
  {
  }

  lemma Answer5(x: Plan)
    ensures FinishDescription(V5, x) == V6(x)
  {
    assert StampedFor(V5.portalStatement, V5.portalFormats, A, x) == map[P := x];
  }

  lemma BindComplete5(x: Plan)
    ensures FinishBind(V6(x)) == V6(x).(binds := [])
  {
  }

  lemma QueryAnswer5(x: Plan, y: Plan)
    ensures FinishDescription(V6(x).(binds := []), y) == V8(x, y)
  {
  }

  lemma Execute5(x: Plan, y: Plan)
    ensures Execute(V8(x, y), P) == V9(x, y)
  {
  }

  lemma Interrupt5At2(x: Plan, y: Plan)
    ensures Reaches(Interrupted(x, y), 2, V2, R5(2, 0, false))
  {
    Begin(Interrupted(x, y));
    Prepare5();
    ServeFirst5();
    GoParse(Interrupted(x, y), 0, Init, Start, A, ONE);
    ServeDescribe5();
    GoDescribe(Interrupted(x, y), 1, V1, R5(1, 0, false), Statement(A));
  }

  lemma Interrupt5At3(x: Plan, y: Plan)
    ensures Reaches(Interrupted(x, y), 3, V3, R5(3, 0, false))
  {
    Interrupt5At2(x, y);
    Bind5();
    ServeBind5();
    GoBind(Interrupted(x, y), 2, V2, R5(2, 0, false), P, A);
  }

  lemma Interrupt5At4(x: Plan, y: Plan)
    ensures Reaches(Interrupted(x, y), 4, V4, R5(4, 0, false))
  {
    Interrupt5At3(x, y);
    Query5();
    ServeQuery5();
    QueryStep(V3, Some(TWO));
    GoSend(Interrupted(x, y), 3, V3, R5(3, 0, false), SQuery(Some(TWO)));
  }

  lemma Interrupt5At5(x: Plan, y: Plan)
    ensures Reaches(Interrupted(x, y), 5, V5, R5(4, 1, false))
  {
    Interrupt5At4(x, y);
    GoParseComplete(Interrupted(x, y), 4, V4, R5(4, 0, false));
  }

  lemma Interrupt5At6(x: Plan, y: Plan)
    ensures Reaches(Interrupted(x, y), 6, V6(x), R5(4, 2, false))
  {
    Interrupt5At5(x, y);
    Answer5(x);
    GoRowDescription(Interrupted(x, y), 5, V5, R5(4, 1, false), x);
  }

  lemma Interrupt5At7(x: Plan, y: Plan)
    ensures Reaches(Interrupted(x, y), 7, V6(x).(binds := []), R5(4, 3, false))
  {
    Interrupt5At6(x, y);
    BindComplete5(x);
    GoBindComplete(Interrupted(x, y), 6, V6(x), R5(4, 2, false));
  }

  lemma Interrupt5At8(x: Plan, y: Plan)
    ensures Reaches(Interrupted(x, y), 8, V8(x, y), R5(4, 3, true))
  {
    Interrupt5At7(x, y);
    QueryAnswer5(x, y);
    DescriptionStep(V6(x).(binds := []), y);
    Go(Interrupted(x, y), 7, V6(x).(binds := []), R5(4, 3, false));
  }

  lemma Interrupt5At9(x: Plan, y: Plan)
    ensures Reaches(Interrupted(x, y), 9, V9(x, y), R5(5, 3, true))
  {
    Interrupt5At8(x, y);
    Execute5(x, y);
    ServeExecute5();
    GoExecute(Interrupted(x, y), 8, V8(x, y), R5(4, 3, true), P);
  }

  lemma Legal5(x: Plan, y: Plan)
    ensures Legal(Interrupted(x, y))
  {
    Interrupt5At8(x, y);
    Interrupt5At9(x, y);
    ReachesIs(Interrupted(x, y), 8, V8(x, y), R5(4, 3, true));
    ReachesIs(Interrupted(x, y), 9, V9(x, y), R5(5, 3, true));
    assert Interrupted(x, y)[..9] == Interrupted(x, y);
    OneExecute5(x, y);
    ServedIsLegal(Interrupted(x, y), 8);
  }

  lemma OneExecute5(x: Plan, y: Plan)
    ensures OneExecute(Interrupted(x, y), 8)
  {
  }

  /**
   Parse, Describe and Bind a portal, and a Query, all answered; the Query's rows have begun
   under y when the portal is executed: what is left of them goes out under the portal's x.
   */
  lemma AQuerysRowsTakeThePortalsPlan(x: Plan, y: Plan)
    ensures var r := ServerAfter(Interrupted(x, y));
            && Served(Interrupted(x, y)) && Legal(Interrupted(x, y))
            && r.streaming && r.fifo != [] && r.fifo[0].sent == SQuery(Some(TWO))
    ensures Interrupted(x, y)[7] == RowDescription(y) && StreamingPlan(ProxyAfter(Interrupted(x, y))) == Some(x)
  {
    Legal5(x, y);
    Interrupt5At9(x, y);
    ReachesIs(Interrupted(x, y), 9, V9(x, y), R5(5, 3, true));
    assert Interrupted(x, y)[..9] == Interrupted(x, y);
    assert R5(5, 3, true).fifo[0] == Owed5()[3];
  }
}
