/**
 A result set the proxy refuses. It swallows what the server sends until the next
 ReadyForQuery, then drops the entries of one exchange: over every legal run, which
 exchange that is, and exactly when the queues are afterwards those of what the server
 still owes. Unlike after an error, the server did carry out what was swallowed.
 */
module PipelineRefusals {
  import opened Wrappers
  import opened Sequences
  import opened PlanStateModel
  import opened PlanOrder
  import opened Pipeline
  import opened PipelineErrors
  import opened PipelineRows
  import opened PipelineTexts

  // ---- Whose exchange is refused --------------------------------------------

  /** A message whose description, if it has not come yet, is pending. */
  predicate Described(o: Outstanding)
  {
    o.sent.SDescribe? || o.sent.SQuery?
  }

  /** The exchange of what last armed a plan: an Execute sent, or a RowDescription; a Query disarms. */
  function Armed(actions: seq<Action>): Option<nat>
  {
    if actions == [] then None
    else
      var before, a := actions[..|actions| - 1], actions[|actions| - 1];
      match a
      case Send(SExecute(_)) => Some(ServerAfter(before).syncs)
      case Send(SQuery(_)) => None
      case RowDescription(_) => if ServerAfter(before).fifo == [] then Armed(before)
                                else Some(ServerAfter(before).fifo[0].epoch)
      case _ => Armed(before)
  }

  lemma BindKeepsArmed(s: State, portal: Name, statement: Name, formats: Formats)
    ensures Bind(s, portal, statement, formats).activeEpoch == s.activeEpoch
  {
    var base := Rebound(s, portal, statement, formats);
    assert base.activeEpoch == s.activeEpoch;
  }

  lemma ParseKeepsArmed(s: State, name: Name, sql: Sql)
    ensures Parse(s, name, sql).activeEpoch == s.activeEpoch
  {
  }

  lemma CloseKeepsArmed(s: State, target: Target)
    ensures Close(s, target).activeEpoch == s.activeEpoch
  {
  }

  lemma FinishBindKeepsArmed(s: State)
    ensures FinishBind(s).activeEpoch == s.activeEpoch
  {
  }

  lemma SendArms(s: State, m: Sent)
    ensures ProxyStep(s, Send(m)).activeEpoch
         == if m.SExecute? then Some(s.syncEpoch) else if m.SQuery? then None else s.activeEpoch
  {
    match m
    case SParse(name, sql) => ParseStep(s, name, sql); ParseKeepsArmed(s, name, sql);
    case SBind(portal, statement, formats) =>
      BindStep(s, portal, statement, formats);
      BindKeepsArmed(s, portal, statement, formats);
    case SDescribe(target) => DescribeStep(s, target);
    case SExecute(portal) => ExecuteStep(s, portal);
    case SClose(target) => CloseStep(s, target); CloseKeepsArmed(s, target);
    case SQuery(query) => QueryStep(s, query);
    case SSync => SyncStep(s);
  }

  lemma RowDescriptionArmsItsEpoch(s: State, plan: Plan)
    requires s.descriptions != []
    ensures ProxyStep(s, RowDescription(plan)).activeEpoch == Some(s.descriptions[0].epoch)
  {
    DescriptionStep(s, plan);
  }

  lemma AnswerKeepsArmed(s: State, a: Action)
    requires !a.Send? && !a.RowDescription? && !s.suspended
    ensures ProxyStep(s, a).activeEpoch == s.activeEpoch
  {
    if a.BindComplete? {
      FinishBindKeepsArmed(s);
    } else if a.Refresh? {
      RefreshInvalidates(s, a.current);
    }
  }

  lemma {:induction false} ActiveIsArmed(actions: seq<Action>)
    requires Legal(actions) && |actions| <= U64_MAX
    ensures ProxyAfter(actions).activeEpoch == Armed(actions)
  {
    if actions != [] {
      var n := |actions| - 1;
      var before, a := actions[..n], actions[n];
      assert before + [a] == actions;
      LastIsEnabled(before, a);
      ActiveIsArmed(before);
      QueuesAreProjections(before);
      if a.Send? {
        SendArms(ProxyAfter(before), a.message);
      } else if a.RowDescription? {
        AnswersMeetTheirOwnEntry(before);
        HeadEpoch(ProxyAfter(before), ServerAfter(before));
        RowDescriptionArmsItsEpoch(ProxyAfter(before), a.plan);
      } else {
        AnswerKeepsArmed(ProxyAfter(before), a);
      }
    }
  }

  /** The description due next is in the exchange of the message it is of. */
  lemma HeadEpoch(s: State, r: Server)
    requires QueuesMatch(s, r) && r.fifo != [] && Described(r.fifo[0]) && !r.streaming
    ensures s.descriptions != [] && s.descriptions[0].epoch == r.fifo[0].epoch
  {
    assert s.descriptions[0] == AsDescription(r.fifo[0])[0];
  }

  /**
   A refused description is charged to its own exchange. Over every legal run, when the
   server's next answer is to a Describe, or to a Query whose rows have not begun, the
   epoch a refusal suppresses is that of this very message, whatever is pipelined behind.
   */
  lemma RefusedDescriptionsAreOfTheirExchange(actions: seq<Action>)
    requires Legal(actions) && |actions| <= U64_MAX && ServerAfter(actions).fifo != []
    requires Described(ServerAfter(actions).fifo[0]) && !ServerAfter(actions).streaming
    ensures RejectionEpoch(ProxyAfter(actions)) == ServerAfter(actions).fifo[0].epoch
  {
    QueuesAreProjections(actions);
    HeadEpoch(ProxyAfter(actions), ServerAfter(actions));
  }

  /** Refused rows are charged to the exchange they are of exactly under this condition. */
  ghost predicate RefusedInItsExchange(actions: seq<Action>)
    requires ServerAfter(actions).fifo != []
  {
    var r := ServerAfter(actions);
    var u, epoch := Undescribed(r), r.fifo[0].epoch;
    if exists o :: o in u && Described(o) then SomeOf(u, Described, epoch)
    else epoch == if Armed(actions).Some? then Armed(actions).value else r.syncs
  }

  lemma {:induction false} FirstDescribed(q: seq<Outstanding>) returns (k: nat)
    requires exists o :: o in q && Described(o)
    ensures k < |q| && Described(q[k]) && Project(q, AsDescription) != []
    ensures Project(q, AsDescription)[0] == AsDescription(q[k])[0]
    ensures forall i :: 0 <= i < k ==> !Described(q[i])
  {
    if Described(q[0]) {
      k := 0;
    } else {
      assert exists o :: o in q[1..] && Described(o) by {
        var o :| o in q && Described(o);
        assert o in q[1..];
      }
      var j := FirstDescribed(q[1..]);
      LeavesNothing(q, AsDescription);
      k := j + 1;
    }
  }

  lemma {:induction false} EveryTailIsChained(q: seq<Outstanding>, k: nat)
    requires Chained(q) && k <= |q|
    ensures Chained(q[k..])
  {
    var tail := q[k..];
    forall n | 0 <= n < |tail| - 1 ensures tail[n + 1].epoch == tail[n].epoch + Bump(tail[n]) {
      assert q[(k + n) + 1].epoch == q[k + n].epoch + Bump(q[k + n]);
    }
  }

  lemma {:induction false} TailInOrder(q: seq<Outstanding>, i: nat, j: nat)
    requires Chained(q) && i <= j < |q|
    ensures q[i].epoch <= q[j].epoch
  {
    EveryTailIsChained(q, i);
    LaterExchanges(q[i..], j - i);
  }

  /** Entry by entry of what is left to describe, the exchanges do not go back. */
  lemma {:induction false} UndescribedInOrder(r: Server, i: nat, j: nat)
    requires ByExchange(r) && i <= j < |Undescribed(r)|
    ensures r.fifo[0].epoch <= Undescribed(r)[i].epoch <= Undescribed(r)[j].epoch
  {
    var k := if r.streaming then 1 else 0;
    assert Undescribed(r)[i] == r.fifo[i + k] && Undescribed(r)[j] == r.fifo[j + k];
    LaterExchanges(r.fifo, i + k);
    TailInOrder(r.fifo, i + k, j + k);
  }

  lemma {:induction false} DescribedFirstIff(s: State, r: Server)
    requires QueuesMatch(s, r) && ByExchange(r) && r.fifo != [] && exists o :: o in Undescribed(r) && Described(o)
    ensures RejectionEpoch(s) == r.fifo[0].epoch <==> SomeOf(Undescribed(r), Described, r.fifo[0].epoch)
  {
    var u := Undescribed(r);
    var k := FirstDescribed(u);
    assert RejectionEpoch(s) == u[k].epoch;
    UndescribedInOrder(r, k, k);
    if SomeOf(u, Described, r.fifo[0].epoch) {
      var i :| 0 <= i < |u| && Described(u[i]) && u[i].epoch == r.fifo[0].epoch;
      UndescribedInOrder(r, k, i);
    }
  }

  lemma {:induction false} NothingToDescribe(q: seq<Outstanding>)
    requires forall o :: o in q ==> !Described(o)
    ensures Project(q, AsDescription) == []
  {
    forall i | 0 <= i < |q| ensures AsDescription(q[i]) == [] {
      assert q[i] in q;
    }
    NothingQueued(q, AsDescription);
  }

  /**
   Refused rows or descriptions, whatever message is being answered: over every legal run
   the suppressed epoch is that of the exchange being refused if and only if a description
   of that exchange is still pending, or none of any is and what last armed a plan was of
   that exchange.
   */
  lemma {:induction false} RefusalIsOfItsExchangeIff(actions: seq<Action>)
    requires Legal(actions) && |actions| <= U64_MAX && ServerAfter(actions).fifo != []
    ensures RejectionEpoch(ProxyAfter(actions)) == ServerAfter(actions).fifo[0].epoch
       <==> RefusedInItsExchange(actions)
  {
    var s, r := ProxyAfter(actions), ServerAfter(actions);
    QueuesAreProjections(actions);
    ServerIsByExchange(actions);
    if exists o :: o in Undescribed(r) && Described(o) {
      DescribedFirstIff(s, r);
    } else {
      NothingToDescribe(Undescribed(r));
      ActiveIsArmed(actions);
    }
  }

  // ---- After the refusal ----------------------------------------------------

  /** What the server owes after its next ReadyForQuery. */
  function SkipToReady(q: seq<Outstanding>): seq<Outstanding>
  {
    if q == [] then [] else if q[0].sent.SSync? then q[1..] else SkipToReady(q[1..])
  }

  function AsActions(sends: seq<Sent>): seq<Action>
  {
    seq(|sends|, i requires 0 <= i < |sends| => Send(sends[i]))
  }

  /** The proxy refused the next answer, heard nothing since, and passed on these messages. */
  function Refusing(actions: seq<Action>, sends: seq<Sent>): State
  {
    if sends == [] then ClearActive(ProxyAfter(actions))
    else ProxyStep(Refusing(actions, sends[..|sends| - 1]), Send(sends[|sends| - 1]))
  }

  lemma ClearingDisarms(s: State)
    ensures ClearActive(s).activePlan == None && ClearActive(s).streamingSimple == s.streamingSimple
  {
  }

  /** A Query's rows once refused have no plan, until a message rearms the cell. */
  lemma {:induction false} RefusedQueryStreamsNothing(actions: seq<Action>, sends: seq<Sent>)
    requires ProxyAfter(actions).streamingSimple && forall i :: 0 <= i < |sends| ==> !Rearms(Send(sends[i]))
    ensures Refusing(actions, sends).streamingSimple && StreamingPlan(Refusing(actions, sends)) == None
    decreases |sends|
  {
    if sends == [] {
      ClearingDisarms(ProxyAfter(actions));
    } else {
      var n := |sends| - 1;
      RefusedQueryStreamsNothing(actions, sends[..n]);
      SendKeepsTheCell(Refusing(actions, sends[..n]), sends[n]);
    }
  }

  lemma ClearingRefines(s: State, r: Server, n: nat)
    requires Refines(s, r) && QueueOrder(s) && Counted(s, n)
    ensures Refines(ClearActive(s), r) && QueueOrder(ClearActive(s)) && Counted(ClearActive(s), n)
  {
  }

  lemma {:induction false} RefusingRefines(actions: seq<Action>, sends: seq<Sent>)
    requires Legal(actions + AsActions(sends)) && |actions| + |sends| <= U64_MAX
    ensures Refines(Refusing(actions, sends), ServerAfter(actions + AsActions(sends)))
    ensures QueueOrder(Refusing(actions, sends)) && Counted(Refusing(actions, sends), |actions| + |sends|)
    decreases |sends|
  {
    if sends == [] {
      assert actions + AsActions(sends) == actions;
      QueuesAreProjections(actions);
      ClearingRefines(ProxyAfter(actions), ServerAfter(actions), |actions|);
    } else {
      var n := |sends| - 1;
      var earlier, m := sends[..n], sends[n];
      var before := actions + AsActions(earlier);
      OneMoreSend(actions, sends);
      LastIsEnabled(before, Send(m));
      OneMore(before, Send(m));
      RefusingRefines(actions, earlier);
      StepRefines(Refusing(actions, earlier), ServerAfter(before), Send(m), |before|);
      StepKeepsOrder(Refusing(actions, earlier), SendOp(m), |before|);
    }
  }

  /** Only a Sync ends an exchange. */
  ghost predicate SyncsEnd(q: seq<Outstanding>)
  {
    forall o :: o in q && o.ends ==> o.sent.SSync?
  }

  lemma {:induction false} ServerSyncsEnd(actions: seq<Action>)
    ensures SyncsEnd(ServerAfter(actions).fifo)
  {
    if actions != [] {
      ServerSyncsEnd(actions[..|actions| - 1]);
    }
  }

  /** The swallowed answers are those of the exchange of the message at the head. */
  lemma {:induction false} SwallowedIsTheExchange(q: seq<Outstanding>, epoch: nat)
    requires Chained(q) && SyncsEnd(q) && (q != [] ==> q[0].epoch == epoch)
    ensures Retain(q, OutsideExchange(epoch)) == Retain(SkipToReady(q), OutsideExchange(epoch))
  {
    if q != [] {
      var rest := q[1..];
      assert Retain(q, OutsideExchange(epoch)) == Retain(rest, OutsideExchange(epoch));
      if !q[0].sent.SSync? {
        assert q[0] in q && !q[0].ends;
        if rest != [] { TailIsChained(q); }
        SwallowedIsTheExchange(rest, epoch);
      }
    }
  }

  lemma {:induction false} LeftIsATail(q: seq<Outstanding>)
    ensures |SkipToReady(q)| <= |q| && SkipToReady(q) == q[|q| - |SkipToReady(q)|..]
  {
    if q != [] && !q[0].sent.SSync? {
      LeftIsATail(q[1..]);
    }
  }

  lemma {:induction false} DropsTheExchange(s: State, q: seq<Outstanding>, epoch: nat)
    requires Projected(s, q)
    ensures Projected(FinishSuppressedEpoch(s, epoch), Retain(q, OutsideExchange(epoch)))
  {
    DroppedDescriptions(q, epoch);
    DroppedMutations(q, epoch);
    DroppedExecutes(s.executes, q, epoch);
    RetainAgree(s.executes, OtherExecute(epoch), LiveExecute(epoch, false));
  }

  /** Nothing of this exchange is queued behind the ReadyForQuery. */
  ghost predicate NoneOf(q: seq<Outstanding>, epoch: nat)
  {
    forall i :: 0 <= i < |q| && Queued(q[i]) ==> q[i].epoch != epoch
  }

  lemma {:induction false} NothingElseIsDropped(t: State, left: seq<Outstanding>, epoch: nat)
    requires Projected(t, Retain(left, OutsideExchange(epoch)))
    ensures Projected(t, left) <==> NoneOf(left, epoch)
  {
    if NoneOf(left, epoch) {
      DroppingNothing(left, AsDescription, epoch);
      DroppingNothing(left, AsParse, epoch);
      DroppingNothing(left, AsBind, epoch);
      DroppingNothing(left, AsOwner, epoch);
    } else {
      NothingOfTheCharged(t, left, epoch);
      var i :| 0 <= i < |left| && Queued(left[i]) && left[i].epoch == epoch;
      assert SomeOf(left, Queued, epoch);
      if Projected(t, left) { EpochsHold(t, left, epoch); }
    }
  }

  /** The server after its next ReadyForQuery, everything up to it having been sent. */
  function AfterReady(r: Server): Server
  {
    r.(fifo := SkipToReady(r.fifo), streaming := false)
  }

  lemma {:induction false} FewerExecutes(s: State, epoch: nat)
    ensures HoldsNoMore(s.executes, FinishSuppressedEpoch(s, epoch).executes)
  {
    RetainMembers(s.executes, OtherExecute(epoch));
    var kept := Retain(s.executes, OtherExecute(epoch));
    forall i | 0 <= i < |kept| ensures exists j :: 0 <= j < |s.executes| && s.executes[j] == kept[i] {
      assert kept[i] in s.executes;
    }
  }

  lemma {:induction false} LeftIsNumbered(r: Server)
    requires Numbered(r)
    ensures Numbered(AfterReady(r))
  {
    LeftIsATail(r.fifo);
  }

  lemma {:induction false} SuppressedRefines(s: State, r: Server)
    requires Refines(s, r) && ByExchange(r) && SyncsEnd(r.fifo) && r.fifo != []
    ensures Refines(FinishSuppressedEpoch(s, r.fifo[0].epoch), AfterReady(r))
       <==> NoneOf(SkipToReady(r.fifo), r.fifo[0].epoch)
  {
    var epoch, left := r.fifo[0].epoch, SkipToReady(r.fifo);
    var t, u := FinishSuppressedEpoch(s, epoch), AfterReady(r);
    UndescribedIsProjected(s, r);
    DropsTheExchange(s, Undescribed(r), epoch);
    assert Retain(r.fifo, OutsideExchange(epoch)) == Retain(r.fifo[1..], OutsideExchange(epoch));
    SwallowedIsTheExchange(r.fifo, epoch);
    NothingElseIsDropped(t, left, epoch);
    assert QueuesMatch(t, u) <==> Projected(t, left);
    LeftIsNumbered(r);
    FewerExecutes(s, epoch);
    ReadyStaysFresh(s, t, r, u);
  }

  lemma {:induction false} OneMoreSend(actions: seq<Action>, sends: seq<Sent>)
    requires sends != []
    ensures var n := |sends| - 1;
            actions + AsActions(sends) == (actions + AsActions(sends[..n])) + [Send(sends[n])]
  {
  }

  lemma AcceptKeepsTheHead(r: Server, m: Sent)
    requires r.fifo != []
    ensures var u := Accept(r, m); u.fifo != [] && u.fifo[0] == r.fifo[0] && u.streaming == r.streaming
  {
  }

  lemma {:induction false} SendsKeepTheHead(actions: seq<Action>, sends: seq<Sent>)
    requires ServerAfter(actions).fifo != []
    ensures var r := ServerAfter(actions + AsActions(sends));
            && r.fifo != [] && r.fifo[0] == ServerAfter(actions).fifo[0]
            && r.streaming == ServerAfter(actions).streaming
    decreases |sends|
  {
    if sends == [] {
      assert actions + AsActions(sends) == actions;
    } else {
      var n := |sends| - 1;
      var before := actions + AsActions(sends[..n]);
      SendsKeepTheHead(actions, sends[..n]);
      OneMoreSend(actions, sends);
      OneMore(before, Send(sends[n]));
      AcceptKeepsTheHead(ServerAfter(before), sends[n]);
    }
  }

  /**
   A refusal charged to its own exchange, over every legal run and whatever is sent
   meanwhile: once the swallowed exchange is over, queues, names and counters are those of
   a server that has answered everything up to its ReadyForQuery, if and only if nothing of
   the refused exchange is queued behind that. Behind a Describe or an Execute nothing is
   unless a Query follows it in its exchange; behind a Query, whatever was sent before the
   next Sync.
   */
  lemma {:induction false} SuppressedInStepIff(actions: seq<Action>, sends: seq<Sent>)
    requires Legal(actions + AsActions(sends)) && |actions| + |sends| <= U64_MAX
    requires ServerAfter(actions).fifo != [] && RefusedInItsExchange(actions)
    ensures var epoch := RejectionEpoch(ProxyAfter(actions));
            var r := ServerAfter(actions + AsActions(sends));
            Refines(FinishSuppressedEpoch(Refusing(actions, sends), epoch), AfterReady(r))
            <==> NoneOf(SkipToReady(r.fifo), epoch)
  {
    var all := actions + AsActions(sends);
    PrefixIsLegal(all, |actions|);
    assert all[..|actions|] == actions;
    RefusalIsOfItsExchangeIff(actions);
    RefusingRefines(actions, sends);
    ServerIsByExchange(all);
    ServerSyncsEnd(all);
    SendsKeepTheHead(actions, sends);
    SuppressedRefines(Refusing(actions, sends), ServerAfter(all));
  }

  // ---- Runs in which another exchange is dropped ----------------------------

  lemma {:induction false} OneMoreIsLegal(before: seq<Action>, a: Action)
    requires Legal(before) && Enabled(ServerAfter(before), a)
    ensures Legal(before + [a])
  {
    var longer := before + [a];
    forall j | 0 <= j < |longer| ensures Enabled(ServerAfter(longer[..j]), longer[j]) {
      if j < |before| {
        assert longer[..j] == before[..j];
      } else {
        assert longer[..j] == before;
      }
    }
  }

  /** An Execute's rows are due, and the next exchange has sent a Parse and a Describe. */
  function Ahead(): seq<Action>
  {
    Hasty() + [Send(SDescribe(Statement(C)))]
  }

  lemma {:induction false} AheadOwes(r: Server)
    requires !r.streaming && |r.fifo| == 3
    requires r.fifo[0].sent == SExecute(P) && r.fifo[0].epoch == 0
    requires r.fifo[1].sent == SSync && r.fifo[1].epoch == 0 && r.fifo[2].sent.SParse? && r.fifo[2].epoch == 1
    requires ByExchange(r)
    ensures var u := Accept(r, SDescribe(Statement(C)));
            && !u.streaming && u.fifo[..3] == r.fifo && |u.fifo| == 4
            && u.fifo[3].sent.SDescribe? && u.fifo[3].epoch >= 1
  {
    assert r.fifo[2].epoch + Bump(r.fifo[2]) == r.syncs;
  }

  lemma {:induction false} AheadIsLegal()
    ensures Legal(Ahead())
    ensures var r := ServerAfter(Ahead());
            && !r.streaming && |r.fifo| == 4 && r.fifo[0].sent == SExecute(P) && r.fifo[0].epoch == 0
            && r.fifo[1].sent == SSync && r.fifo[2].sent.SParse?
            && r.fifo[3].sent.SDescribe? && r.fifo[3].epoch >= 1
  {
    var m := SDescribe(Statement(C));
    HastyAnswered();
    ServerIsByExchange(Hasty());
    OneMoreIsLegal(Hasty(), Send(m));
    OneMore(Hasty(), Send(m));
    AheadOwes(ServerAfter(Hasty()));
    var r := ServerAfter(Ahead());
    assert r.fifo[0] == r.fifo[..3][0] && r.fifo[1] == r.fifo[..3][1] && r.fifo[2] == r.fifo[..3][2];
  }

  /** With a description pending, but none of the exchange at the head. */
  lemma {:induction false} OthersAreDescribed(actions: seq<Action>)
    requires var r := ServerAfter(actions);
             && !r.streaming && |r.fifo| == 4 && !Described(r.fifo[0]) && !Described(r.fifo[1])
             && !Described(r.fifo[2]) && Described(r.fifo[3]) && r.fifo[3].epoch != r.fifo[0].epoch
    ensures !RefusedInItsExchange(actions)
  {
    var r := ServerAfter(actions);
    assert r.fifo[3] in Undescribed(r);
  }

  /**
   Rows refused while the next exchange awaits a description are charged to that one: the
   proxy will forget the Describe it has passed on, and keep the Execute it refused.
   */
  lemma {:induction false} RefusedRowsAreChargedToTheNextExchange()
    ensures Legal(Ahead()) && ServerAfter(Ahead()).fifo != []
    ensures ServerAfter(Ahead()).fifo[0].sent == SExecute(P)
    ensures RejectionEpoch(ProxyAfter(Ahead())) != ServerAfter(Ahead()).fifo[0].epoch
  {
    AheadIsLegal();
    OthersAreDescribed(Ahead());
    RefusalIsOfItsExchangeIff(Ahead());
  }

  /** A refused Query takes with it what is pipelined behind it, though the server will answer that. */
  lemma {:induction false} ARefusedQueryTakesItsExchangeWithIt()
    ensures Legal(Pipelined()) && ServerAfter(Pipelined()).fifo != []
    ensures ServerAfter(Pipelined()).fifo[0].sent.SQuery? && !ServerAfter(Pipelined()).streaming
    ensures var t := FinishSuppressedEpoch(Refusing(Pipelined(), []), RejectionEpoch(ProxyAfter(Pipelined())));
            !Refines(t, AfterReady(ServerAfter(Pipelined())))
  {
    PipelinedSent();
    var q := ServerAfter(Pipelined()).fifo;
    assert Pipelined() + AsActions([]) == Pipelined();
    assert SkipToReady(q) == q[1..][1..] && SkipToReady(q)[0] == q[2];
    RefusedDescriptionsAreOfTheirExchange(Pipelined());
    RefusalIsOfItsExchangeIff(Pipelined());
    SuppressedInStepIff(Pipelined(), []);
  }
}
