/**
 What a statement name means after an error. On the server a Parse or Close that failed or
 was skipped has had no effect; the proxy dropped the texts of the failed exchange, and the
 Describes already queued keep the text on record when they were sent.
 */
module PipelineNames {
  import opened Wrappers
  import opened Sequences
  import opened PlanStateModel
  import opened PlanOrder
  import opened Pipeline
  import opened PipelineErrors

  // ---- The messages behind what is outstanding ------------------------------

  /** The message an entry stands for; a Query's own ReadyForQuery stands for none. */
  function AsMessage(o: Outstanding): seq<Sent>
  {
    if o.sent.SSync? && !o.ends then [] else [o.sent]
  }

  function Messages(q: seq<Outstanding>): seq<Sent>
  {
    Project(q, AsMessage)
  }

  /** The messages already answered. */
  function Processed(r: Server): seq<Sent>
    requires |Messages(r.fifo)| <= |r.sent|
  {
    r.sent[..|r.sent| - |Messages(r.fifo)|]
  }

  /** What the client sent is what was answered, then what is outstanding, in order. */
  ghost predicate InOrder(r: Server)
  {
    |Messages(r.fifo)| <= |r.sent| && r.sent == Processed(r) + Messages(r.fifo)
  }

  /** A Describe carries the text on record when it was sent. */
  ghost predicate Remembers(r: Server)
    requires InOrder(r)
  {
    forall i :: 0 <= i < |r.fifo| && r.fifo[i].sent.SDescribe? ==>
      r.fifo[i].latest == LatestText(Processed(r) + Messages(r.fifo[..i]), r.fifo[i].sent.target)
  }

  lemma {:induction false} OwedIsTheMessage(r: Server, m: Sent)
    ensures Messages(Owed(r, m)) == [m]
  {
    var q := Owed(r, m);
    assert Project(q[1..], AsMessage) == [] by {
      if m.SQuery? {
        assert q[1..][1..] == [];
      }
    }
  }

  lemma {:induction false} AcceptRemembers(r: Server, m: Sent)
    requires InOrder(r) && Remembers(r)
    ensures InOrder(Accept(r, m)) && Remembers(Accept(r, m))
  {
    var u := Accept(r, m);
    OwedIsTheMessage(r, m);
    ProjectAppend(r.fifo, Owed(r, m), AsMessage);
    assert Processed(u) == Processed(r);
    forall i | 0 <= i < |u.fifo| && u.fifo[i].sent.SDescribe?
      ensures u.fifo[i].latest == LatestText(Processed(u) + Messages(u.fifo[..i]), u.fifo[i].sent.target)
    {
      if i < |r.fifo| {
        assert u.fifo[..i] == r.fifo[..i] && u.fifo[i] == r.fifo[i];
      } else {
        assert u.fifo[..i] == r.fifo;
      }
    }
  }

  /** Answering the head moves its message to the answered ones. */
  lemma {:induction false} AnswerRemembers(r: Server, u: Server)
    requires InOrder(r) && Remembers(r) && r.fifo != [] && u.fifo == r.fifo[1..] && u.sent == r.sent
    ensures InOrder(u) && Remembers(u)
  {
    var head := AsMessage(r.fifo[0]);
    assert Messages(r.fifo) == head + Messages(u.fifo);
    assert Processed(u) == Processed(r) + head;
    forall i | 0 <= i < |u.fifo| && u.fifo[i].sent.SDescribe?
      ensures u.fifo[i].latest == LatestText(Processed(u) + Messages(u.fifo[..i]), u.fifo[i].sent.target)
    {
      assert r.fifo[..i + 1][1..] == u.fifo[..i] && u.fifo[i] == r.fifo[i + 1];
      assert Processed(u) + Messages(u.fifo[..i]) == Processed(r) + Messages(r.fifo[..i + 1]);
    }
  }

  lemma {:induction false} ServerRemembers(actions: seq<Action>)
    ensures InOrder(ServerAfter(actions)) && Remembers(ServerAfter(actions))
  {
    if actions != [] {
      var before, a := actions[..|actions| - 1], actions[|actions| - 1];
      var r := ServerAfter(before);
      ServerRemembers(before);
      var u := Advance(r, a);
      assert u == ServerAfter(actions);
      if a.Send? {
        AcceptRemembers(r, a.message);
      } else if u.fifo == r.fifo {
        assert u.sent == r.sent;
      } else {
        AnswerRemembers(r, u);
      }
    }
  }

  // ---- What an error takes out ----------------------------------------------

  /** The entries up to and including the next Sync the client sent. */
  function Skipped(q: seq<Outstanding>): seq<Outstanding>
  {
    if q == [] then [] else if q[0].ends then [q[0]] else [q[0]] + Skipped(q[1..])
  }

  /** The entries lost when the message at the head fails. */
  function Lost(r: Server): seq<Outstanding>
    requires CanFail(r)
  {
    if r.fifo[0].sent.SQuery? then [r.fifo[0]] else Skipped(r.fifo)
  }

  lemma {:induction false} SkippedThenLeft(q: seq<Outstanding>)
    ensures q == Skipped(q) + SkipToSync(q)
  {
    if q != [] {
      assert q == [q[0]] + q[1..];
      if !q[0].ends {
        SkippedThenLeft(q[1..]);
      }
    }
  }

  /** The skipped entries are those of the exchange, and everything after them is later. */
  lemma {:induction false} SkippedIsTheExchange(q: seq<Outstanding>)
    requires Chained(q) && q != []
    ensures forall o :: o in Skipped(q) ==> o.epoch == q[0].epoch
    ensures forall o :: o in SkipToSync(q) ==> o.epoch > q[0].epoch
  {
    var rest := q[1..];
    if rest != [] {
      TailIsChained(q);
      if q[0].ends {
        forall i | 0 <= i < |rest| ensures rest[i].epoch > q[0].epoch {
          LaterExchanges(rest, i);
        }
      } else {
        SkippedIsTheExchange(rest);
      }
    }
  }

  /** What was outstanding is what is lost, then what is still owed. */
  lemma {:induction false} LostThenOwed(r: Server)
    requires CanFail(r)
    ensures r.fifo == Lost(r) + StillOwed(r)
    ensures Messages(r.fifo) == Messages(Lost(r)) + Messages(StillOwed(r))
  {
    SkippedThenLeft(r.fifo);
    ProjectAppend(Lost(r), StillOwed(r), AsMessage);
  }

  // ---- Texts ----------------------------------------------------------------

  predicate Names(m: Sent, name: Name)
  {
    (m.SParse? && m.name == name) || m == SClose(Statement(name))
  }

  /** Some of these messages prepare or close the statement. */
  ghost predicate Touches(sent: seq<Sent>, name: Name)
  {
    exists i :: 0 <= i < |sent| && Names(sent[i], name)
  }

  ghost predicate Parses(sent: seq<Sent>, name: Name)
  {
    exists i :: 0 <= i < |sent| && sent[i].SParse? && sent[i].name == name
  }

  /** Only the messages that name the statement decide its text. */
  lemma {:induction false} TextOfBoth(one: seq<Sent>, two: seq<Sent>, name: Name)
    ensures LastText(one + two, name) == if Touches(two, name) then LastText(two, name) else LastText(one, name)
  {
    if two == [] {
      assert one + two == one;
    } else {
      var n := |two| - 1;
      var m, earlier := two[n], two[..n];
      assert (one + two)[..|one + two| - 1] == one + earlier && (one + two)[|one + two| - 1] == m;
      TextOfBoth(one, earlier, name);
      if Names(m, name) {
        assert Touches(two, name);
      } else if Touches(two, name) {
        var i :| 0 <= i < |two| && Names(two[i], name);
        assert Names(earlier[i], name);
      } else {
        forall i | 0 <= i < |earlier| ensures !Names(earlier[i], name) {
          assert !Names(two[i], name);
        }
      }
    }
  }

  /** A name that is closed but not prepared has no text. */
  lemma {:induction false} ClosedHasNoText(sent: seq<Sent>, name: Name)
    requires !Parses(sent, name)
    ensures LastText(sent, name) == None
  {
    if sent != [] {
      var n := |sent| - 1;
      assert !(sent[n].SParse? && sent[n].name == name);
      ClosedHasNoText(sent[..n], name);
    }
  }

  // ---- Describes of the exchanges that follow -------------------------------

  /** The text the server will describe, the lost messages having had no effect. */
  function TextThen(r: Server, k: nat, name: Name): Option<Sql>
    requires CanFail(r) && InOrder(r) && k <= |StillOwed(r)|
  {
    LastText(Processed(r) + Messages(StillOwed(r)[..k]), name)
  }

  /** A message still to be answered names the statement first, or those lost left its text as it was. */
  ghost predicate TextSurvives(r: Server, k: nat, name: Name)
    requires CanFail(r) && InOrder(r) && k <= |StillOwed(r)|
  {
    || Touches(Messages(StillOwed(r)[..k]), name)
    || LastText(Processed(r) + Messages(Lost(r)), name) == LastText(Processed(r), name)
  }

  /** Entry by entry, what was sent before a message still to be answered. */
  lemma {:induction false} SentBefore(r: Server, k: nat)
    requires CanFail(r) && k < |StillOwed(r)|
    ensures var at := |Lost(r)| + k;
            && at < |r.fifo| && r.fifo[at] == StillOwed(r)[k]
            && Messages(r.fifo[..at]) == Messages(Lost(r)) + Messages(StillOwed(r)[..k])
  {
    LostThenOwed(r);
    assert r.fifo[..|Lost(r)| + k] == Lost(r) + StillOwed(r)[..k];
    ProjectAppend(Lost(r), StillOwed(r)[..k], AsMessage);
  }

  lemma {:induction false} TextsThen(answered: seq<Sent>, lost: seq<Sent>, before: seq<Sent>, name: Name)
    ensures LastText(answered + (lost + before), name) == LastText(answered + before, name)
       <==> Touches(before, name) || LastText(answered + lost, name) == LastText(answered, name)
  {
    assert answered + (lost + before) == (answered + lost) + before;
    TextOfBoth(answered + lost, before, name);
    TextOfBoth(answered, before, name);
  }

  lemma {:induction false} RememberedThen(r: Server, k: nat, name: Name)
    requires CanFail(r) && InOrder(r) && Remembers(r)
    requires k < |StillOwed(r)| && StillOwed(r)[k].sent == SDescribe(Statement(name))
    ensures StillOwed(r)[k].latest == TextThen(r, k, name) <==> TextSurvives(r, k, name)
  {
    SentBefore(r, k);
    var lost, before := Messages(Lost(r)), Messages(StillOwed(r)[..k]);
    assert StillOwed(r)[k].latest == LastText(Processed(r) + (lost + before), name);
    TextsThen(Processed(r), lost, before, name);
  }

  /**
   After an error from which the queues recover in step, a Describe of a statement sent
   before the error is still queued, and the text it is judged by is the one the server will
   describe if and only if a message still to be answered names the statement before it, or
   the messages lost with the error leave its text as it was.
   */
  lemma {:induction false} LaterDescribesKeepTheirTextIff(actions: seq<Action>, k: nat, name: Name)
    requires Legal(actions) && |actions| <= U64_MAX
    requires CanFail(ServerAfter(actions)) && RecoversInStep(ServerAfter(actions))
    requires k < |StillOwed(ServerAfter(actions))|
    requires StillOwed(ServerAfter(actions))[k].sent == SDescribe(Statement(name))
    ensures InOrder(ServerAfter(actions))
    ensures var r, t := ServerAfter(actions), DiscardFailedEpoch(ProxyAfter(actions));
            var judged := Describe(Statement(name), StillOwed(r)[k].latest, StillOwed(r)[k].epoch);
            judged in t.descriptions && (judged.sql == TextThen(r, k, name) <==> TextSurvives(r, k, name))
  {
    var r := ServerAfter(actions);
    ServerRemembers(actions);
    ServerIsByExchange(actions);
    ErrorRecoversInStepIff(actions);
    ProjectMembers(StillOwed(r), AsDescription);
    var o := StillOwed(r)[k];
    assert Describe(Statement(name), o.latest, o.epoch) in AsDescription(o);
    RememberedThen(r, k, name);
  }

  // ---- The texts on record --------------------------------------------------

  lemma {:induction false} ParsesOf(q: seq<Outstanding>, name: Name)
    ensures Parses(Messages(q), name) <==> exists o :: o in q && o.sent.SParse? && o.sent.name == name
  {
    ProjectMembers(q, AsMessage);
    if Parses(Messages(q), name) {
      var j :| 0 <= j < |Messages(q)| && Messages(q)[j].SParse? && Messages(q)[j].name == name;
      assert Messages(q)[j] in Messages(q);
    }
    if o :| o in q && o.sent.SParse? && o.sent.name == name {
      var i :| 0 <= i < |q| && q[i] == o;
      assert o.sent in AsMessage(q[i]);
      assert o.sent in Messages(q);
    }
  }

  /** A Parse of the name is pending exactly if one is outstanding, in the same exchange. */
  lemma {:induction false} PendingParses(q: seq<Outstanding>, m: PendingMutation)
    ensures m in Project(q, AsParse)
       <==> exists o :: o in q && o.sent.SParse? && o.sent.name == m.name && o.epoch == m.epoch
  {
    ProjectMembers(q, AsParse);
    if o :| o in q && o.sent.SParse? && o.sent.name == m.name && o.epoch == m.epoch {
      var i :| 0 <= i < |q| && q[i] == o;
      assert m in AsParse(q[i]);
    }
  }

  lemma {:induction false} LostIsPending(r: Server, name: Name)
    requires CanFail(r) && !r.fifo[0].sent.SQuery? && ByExchange(r)
    ensures PendingMutation(name, r.fifo[0].epoch) in Project(r.fifo, AsParse) <==> Parses(Messages(Lost(r)), name)
  {
    LostThenOwed(r);
    SkippedIsTheExchange(r.fifo);
    ParsesOf(Lost(r), name);
    PendingParses(r.fifo, PendingMutation(name, r.fifo[0].epoch));
  }

  lemma {:induction false} OwedIsPending(r: Server, name: Name)
    requires CanFail(r) && !r.fifo[0].sent.SQuery? && ByExchange(r)
    ensures PendingAfter(Project(r.fifo, AsParse), r.fifo[0].epoch, name) <==> Parses(Messages(StillOwed(r)), name)
  {
    var parses, failed, owed := Project(r.fifo, AsParse), r.fifo[0].epoch, StillOwed(r);
    LostThenOwed(r);
    SkippedIsTheExchange(r.fifo);
    ParsesOf(owed, name);
    if PendingAfter(parses, failed, name) {
      var i :| 0 <= i < |parses| && parses[i].epoch > failed && parses[i].name == name;
      PendingParses(r.fifo, parses[i]);
    }
    if o :| o in owed && o.sent.SParse? && o.sent.name == name {
      PendingParses(r.fifo, PendingMutation(name, o.epoch));
      var i :| 0 <= i < |parses| && parses[i] == PendingMutation(name, o.epoch);
    }
  }

  /** The proxy drops the text of a name prepared in the failed exchange and not in a later one. */
  lemma {:induction false} DeadIsLost(r: Server, name: Name)
    requires CanFail(r) && !r.fifo[0].sent.SQuery? && ByExchange(r)
    ensures name in DeadNames(Project(r.fifo, AsParse), r.fifo[0].epoch)
       <==> Parses(Messages(Lost(r)), name) && !Parses(Messages(StillOwed(r)), name)
  {
    LostIsPending(r, name);
    OwedIsPending(r, name);
  }

  lemma {:induction false} TextAfter(s: State, r: Server, name: Name)
    requires QueuesMatch(s, r) && NamesMatch(s, r) && ByExchange(r) && InOrder(r)
    requires CanFail(r) && !r.fifo[0].sent.SQuery? && FailedEpoch(s) == Some(r.fifo[0].epoch)
    ensures Get(DiscardFailedEpoch(s).statementSql, name)
         == if Parses(Messages(Lost(r)), name) && !Parses(Messages(StillOwed(r)), name) then None
            else LastText(r.sent, name)
  {
    DeadIsLost(r, name);
  }

  /**
   After an error charged to the exchange of the message that failed, not a Query: the text
   on record for a statement is never another than the server's, and it is the server's if
   and only if a message still to be answered names the statement, or none of those lost
   does, or it had no text before them.
   */
  lemma {:induction false} TextsAfterAnErrorIff(actions: seq<Action>, name: Name)
    requires Legal(actions) && |actions| <= U64_MAX
    requires var r := ServerAfter(actions); CanFail(r) && !r.fifo[0].sent.SQuery? && ChargedToItsOwn(r)
    ensures InOrder(ServerAfter(actions))
    ensures var r := ServerAfter(actions);
            var recorded := Get(DiscardFailedEpoch(ProxyAfter(actions)).statementSql, name);
            var truth := TextThen(r, |StillOwed(r)|, name);
            && (recorded == None || recorded == truth)
            && (recorded == truth <==>
                  || Touches(Messages(StillOwed(r)), name)
                  || !Touches(Messages(Lost(r)), name)
                  || LastText(Processed(r), name) == None)
  {
    var r := ServerAfter(actions);
    QueuesAreProjections(actions);
    ServerIsByExchange(actions);
    ServerRemembers(actions);
    ErrorIsChargedToItsExchangeIff(actions);
    TextAfter(ProxyAfter(actions), r, name);
    TextsCompare(r, name);
  }

  lemma {:induction false} TextsCompare(r: Server, name: Name)
    requires CanFail(r) && InOrder(r)
    ensures var lost, owed := Messages(Lost(r)), Messages(StillOwed(r));
            var recorded := if Parses(lost, name) && !Parses(owed, name) then None else LastText(r.sent, name);
            var truth := TextThen(r, |StillOwed(r)|, name);
            && (recorded == None || recorded == truth)
            && (recorded == truth <==>
                  Touches(owed, name) || !Touches(lost, name) || LastText(Processed(r), name) == None)
  {
    LostThenOwed(r);
    var lost, owed := Messages(Lost(r)), Messages(StillOwed(r));
    assert StillOwed(r)[..|StillOwed(r)|] == StillOwed(r);
    assert r.sent == Processed(r) + lost + owed;
    TextOfBoth(Processed(r) + lost, owed, name);
    TextOfBoth(Processed(r), lost, name);
    TextOfBoth(Processed(r), owed, name);
    if !Parses(owed, name) { ClosedHasNoText(owed, name); }
    if !Parses(lost, name) { ClosedHasNoText(lost, name); }
    assert Parses(lost, name) ==> Touches(lost, name);
  }

  // ---- A Describe judged by a text the server refused -----------------------

  const ONE := Sql("one")
  const TWO := Sql("two")

  /** A name in use is prepared again, which the server will refuse; the next exchange describes it. */
  function Repeated(): seq<Action>
  {
    [Send(SParse(A, ONE)), ParseComplete, Send(SParse(A, TWO)), Send(SSync), Send(SDescribe(Statement(A)))]
  }

  function RepeatedOwed(): seq<Outstanding>
  {
    [Outstanding(SParse(A, TWO), None, None, 0, 0, false), Outstanding(SSync, None, None, 0, 0, true),
     Outstanding(SDescribe(Statement(A)), Some(TWO), Some(TWO), 1, 0, false)]
  }

  lemma {:induction false} RepeatedBegun()
    ensures Enabled(ServerAfter(Repeated()[..0]), Repeated()[0])
    ensures Enabled(ServerAfter(Repeated()[..1]), Repeated()[1])
    ensures ServerAfter(Repeated()[..2]) == Server([], false, 0, 0, [SParse(A, ONE)], {})
  {
    assert Repeated()[..0] == [];
    ServerStep(Repeated(), 0);
    ServerStep(Repeated(), 1);
  }

  lemma {:induction false} RepeatedAccepted(r: Server)
    requires r == Server([], false, 0, 0, [SParse(A, ONE)], {})
    ensures var u := Accept(Accept(Accept(r, SParse(A, TWO)), SSync), SDescribe(Statement(A)));
            && u.fifo == RepeatedOwed() && !u.streaming
            && u.sent == [SParse(A, ONE), SParse(A, TWO), SSync, SDescribe(Statement(A))]
  {
    var first := Accept(r, SParse(A, TWO));
    var second := Accept(first, SSync);
    assert first.sent == [SParse(A, ONE), SParse(A, TWO)] && second.sent[..2] == first.sent;
    assert LastText(second.sent, A) == LastText(first.sent, A) == Some(TWO);
  }

  lemma {:induction false} RepeatedSteps(a: seq<Action>)
    requires |a| == 5 && a[2] == Send(SParse(A, TWO)) && a[3] == Send(SSync) && a[4] == Send(SDescribe(Statement(A)))
    ensures ServerAfter(a)
         == Accept(Accept(Accept(ServerAfter(a[..2]), SParse(A, TWO)), SSync), SDescribe(Statement(A)))
  {
    ServerStep(a, 2);
    ServerStep(a, 3);
    ServerStep(a, 4);
    assert a[..5] == a;
  }

  lemma {:induction false} RepeatedSent()
    ensures Legal(Repeated())
    ensures var r := ServerAfter(Repeated());
            && r.fifo == RepeatedOwed() && !r.streaming
            && r.sent == [SParse(A, ONE), SParse(A, TWO), SSync, SDescribe(Statement(A))]
  {
    RepeatedBegun();
    RepeatedSteps(Repeated());
    RepeatedAccepted(ServerAfter(Repeated()[..2]));
  }

  lemma {:induction false} RepeatedFails(r: Server)
    requires r.fifo == RepeatedOwed() && !r.streaming
    requires r.sent == [SParse(A, ONE), SParse(A, TWO), SSync, SDescribe(Statement(A))]
    ensures CanFail(r) && RecoversInStep(r) && ChargedToItsOwn(r) && InOrder(r)
    ensures StillOwed(r) == [RepeatedOwed()[2]] && TextThen(r, 0, A) == Some(ONE)
  {
    var q := RepeatedOwed();
    assert Chargeable(r.fifo[0]) && SomeOf(Undescribed(r), Chargeable, 0);
    assert q[1..][0].ends && q[1..][1..] == [q[2]];
    assert Messages(q) == [SParse(A, TWO)] + ([SSync] + ([SDescribe(Statement(A))] + Messages(q[1..][1..][1..])));
    assert Processed(r) == [SParse(A, ONE)];
    assert StillOwed(r)[..0] == [];
  }

  /**
   Parse A one, which is answered; Parse A two, which the server refuses since A exists;
   Sync; Describe A. The Describe is answered for one and judged by two.
   */
  lemma {:induction false} ADescribeIsJudgedByARefusedText()
    ensures var r, t := ServerAfter(Repeated()), DiscardFailedEpoch(ProxyAfter(Repeated()));
            && Legal(Repeated()) && CanFail(r) && RecoversInStep(r) && InOrder(r)
            && |StillOwed(r)| == 1 && StillOwed(r)[0].sent == SDescribe(Statement(A))
            && Describe(Statement(A), Some(TWO), 1) in t.descriptions && TextThen(r, 0, A) == Some(ONE)
  {
    RepeatedSent();
    RepeatedFails(ServerAfter(Repeated()));
    LaterDescribesKeepTheirTextIff(Repeated(), 0, A);
  }
}
