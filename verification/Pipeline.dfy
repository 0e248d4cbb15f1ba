/**
 The pending queues against a reference: a server with one first-in-first-out queue of
 outstanding messages, answered strictly in order. As long as the server reports no
 error and suspends nothing, each Query has one result, and each Bind is executed at
 most once, the four queues of the proxy are the projections of that one queue.
 */
module Pipeline {
  import opened Wrappers
  import opened PlanStateModel
  import opened PlanOrder

  /** What the client can send. */
  datatype Sent =
    | SParse(name: Name, sql: Sql)
    | SBind(portal: Name, statement: Name, formats: Formats)
    | SDescribe(target: Target)
    | SExecute(portal: Name)
    | SClose(target: Target)
    | SQuery(query: Option<Sql>)
    | SSync

  /**
   A message the server still owes an answer: the text the answer is about, if it is about
   one; the latest text the client gave the statement behind it; and whether it is a Sync
   the client sent, which ends an exchange.
   */
  datatype Outstanding = Outstanding(
    sent: Sent,
    text: Option<Sql>,
    latest: Option<Sql>,
    epoch: nat,
    order: nat,
    ends: bool)

  /**
   The server, in terms of messages alone: what is outstanding, whether the Query at the
   head has begun its rows, how many Syncs and result-bearing messages were sent, all the
   client ever sent, and the portals whose Bind is still good for one Execute.
   */
  datatype Server = Server(
    fifo: seq<Outstanding>,
    streaming: bool,
    syncs: nat,
    results: nat,
    sent: seq<Sent>,
    ready: set<Name>)

  datatype Action =
    | Send(message: Sent)
    | ParseComplete
    | BindComplete
    | CloseComplete
    | RowDescription(plan: Plan)
    | NoData
    | EmptyQueryResponse
    | CommandComplete
    | ServerReady(status: int)
    | Refresh(current: nat)

  const Start := Server([], false, 0, 0, [], {})

  // ---- What the messages sent so far mean -----------------------------------

  /** The text the client last prepared under a statement name, unless it closed it. */
  function LastText(sent: seq<Sent>, name: Name): Option<Sql>
  {
    if sent == [] then None
    else
      var m, earlier := sent[|sent| - 1], sent[..|sent| - 1];
      if m.SParse? && m.name == name then Some(m.sql)
      else if m == SClose(Statement(name)) then None
      else LastText(earlier, name)
  }

  /** The statement a portal name was last bound to, unless the portal or that statement was closed. */
  function LastBinding(sent: seq<Sent>, portal: Name): Option<Name>
  {
    if sent == [] then None
    else
      var m, earlier := sent[|sent| - 1], sent[..|sent| - 1];
      if m.SBind? && m.portal == portal then Some(m.statement)
      else if m == SClose(Portal(portal)) then None
      else if m.SClose? && m.target.Statement? && LastBinding(earlier, portal) == Some(m.target.name) then None
      else LastBinding(earlier, portal)
  }

  /** The text a portal was bound to: its statement's at the Bind, whatever the statement is given later. */
  function BoundText(sent: seq<Sent>, portal: Name): Option<Sql>
  {
    if sent == [] then None
    else
      var m, earlier := sent[|sent| - 1], sent[..|sent| - 1];
      if m.SBind? && m.portal == portal then LastText(earlier, m.statement)
      else if m == SClose(Portal(portal)) then None
      else if m.SClose? && m.target.Statement? && LastBinding(earlier, portal) == Some(m.target.name) then None
      else BoundText(earlier, portal)
  }

  /** The text the server describes: a statement's, or the one a portal was bound to. */
  function DescribedText(sent: seq<Sent>, target: Target): Option<Sql>
  {
    match target
    case Statement(name) => LastText(sent, name)
    case Portal(portal) => BoundText(sent, portal)
  }

  /** The text on record: a statement's, or the one the statement behind a portal has by now. */
  function LatestText(sent: seq<Sent>, target: Target): Option<Sql>
  {
    match target
    case Statement(name) => LastText(sent, name)
    case Portal(portal) =>
      var bound := LastBinding(sent, portal);
      if bound.Some? then LastText(sent, bound.value) else None
  }

  // ---- The server -----------------------------------------------------------

  /** The server, which answers in order, can answer this now; the client can send anything. */
  predicate Answerable(r: Server, a: Action)
  {
    match a
    case Send(_) => true
    case ParseComplete => r.fifo != [] && r.fifo[0].sent.SParse?
    case BindComplete => r.fifo != [] && r.fifo[0].sent.SBind?
    case CloseComplete => r.fifo != [] && r.fifo[0].sent.SClose?
    case RowDescription(_) => r.fifo != [] && (r.fifo[0].sent.SDescribe? || (r.fifo[0].sent.SQuery? && !r.streaming))
    case NoData => r.fifo != [] && r.fifo[0].sent.SDescribe?
    case EmptyQueryResponse => r.fifo != [] && r.fifo[0].sent.SQuery? && !r.streaming
    case CommandComplete => r.fifo != [] && (r.fifo[0].sent.SQuery? || r.fifo[0].sent.SExecute?)
    case ServerReady(_) => r.fifo != [] && r.fifo[0].sent.SSync?
    case Refresh(_) => true
  }

  /** And each Bind is executed at most once, while the text it was bound to is its statement's. */
  predicate Enabled(r: Server, a: Action)
  {
    Answerable(r, a) && (a.Send? && a.message.SExecute? ==> a.message.portal in r.ready)
  }

  /** Portals still good for one Execute after this message. */
  function ReadyAfter(r: Server, m: Sent): set<Name>
  {
    match m
    case SBind(portal, _, _) => r.ready + {portal}
    case SExecute(portal) => r.ready - {portal}
    case SParse(name, sql) =>
      if LastText(r.sent, name) == Some(sql) then r.ready
      else set p | p in r.ready && LastBinding(r.sent, p) != Some(name)
    case SClose(Statement(name)) => set p | p in r.ready && LastBinding(r.sent, p) != Some(name)
    case SClose(Portal(portal)) => r.ready - {portal}
    case _ => r.ready
  }

  /** The entries a message adds: itself, and after a Query the ReadyForQuery it ends with. */
  function Owed(r: Server, m: Sent): seq<Outstanding>
  {
    match m
    case SDescribe(target) =>
      [Outstanding(m, DescribedText(r.sent, target), LatestText(r.sent, target), r.syncs, 0, false)]
    case SQuery(query) =>
      [Outstanding(m, query, query, r.syncs, r.results, false), Outstanding(SSync, None, None, r.syncs, 0, false)]
    case SExecute(portal) =>
      [Outstanding(m, BoundText(r.sent, portal), LatestText(r.sent, Portal(portal)), r.syncs, r.results, false)]
    case _ => [Outstanding(m, None, None, r.syncs, 0, m.SSync?)]
  }

  function Accept(r: Server, m: Sent): Server
  {
    Server(r.fifo + Owed(r, m), r.streaming,
           if m.SSync? then r.syncs + 1 else r.syncs,
           if m.SQuery? || m.SExecute? then r.results + 1 else r.results,
           r.sent + [m], ReadyAfter(r, m))
  }

  function Advance(r: Server, a: Action): Server
  {
    if !Answerable(r, a) then r else
    match a
    case Send(m) => Accept(r, m)
    case Refresh(_) => r
    case RowDescription(_) =>
      if r.fifo[0].sent.SQuery? then r.(streaming := true) else r.(fifo := r.fifo[1..])
    case _ => r.(fifo := r.fifo[1..], streaming := false)
  }

  // ---- The proxy ------------------------------------------------------------

  function SendOp(m: Sent): Op
  {
    match m
    case SParse(name, sql) => OpParse(name, sql)
    case SBind(portal, statement, formats) => OpBind(portal, statement, formats)
    case SDescribe(target) => OpDescribe(target)
    case SExecute(portal) => OpExecute(portal)
    case SClose(target) => OpClose(target)
    case SQuery(query) => OpBeginSimpleQuery(query)
    case SSync => OpSync
  }

  /** The operation the session performs for each message, if it performs one. */
  function ProxyOp(a: Action): Option<Op>
  {
    match a
    case Send(m) => Some(SendOp(m))
    case ParseComplete => Some(OpFinishParse)
    case BindComplete => Some(OpFinishBind)
    case CloseComplete => None
    case RowDescription(plan) => Some(OpFinishDescription(plan))
    case NoData => Some(OpFinishNoData)
    case EmptyQueryResponse => Some(OpFinishEmptyQuery)
    case CommandComplete => Some(OpFinishResultSet)
    case ServerReady(status) => Some(OpReadyForQuery(status))
    case Refresh(current) => Some(OpInvalidateIfStale(current))
  }

  // ---- Projections ----------------------------------------------------------

  function AsDescription(o: Outstanding): seq<PendingDescription>
  {
    match o.sent
    case SDescribe(target) => [Describe(target, o.latest, o.epoch)]
    case SQuery(_) => [Simple(o.latest, o.epoch, o.order)]
    case _ => []
  }

  function AsParse(o: Outstanding): seq<PendingMutation>
  {
    if o.sent.SParse? then [PendingMutation(o.sent.name, o.epoch)] else []
  }

  function AsBind(o: Outstanding): seq<PendingMutation>
  {
    if o.sent.SBind? then [PendingMutation(o.sent.portal, o.epoch)] else []
  }

  datatype Owner = Owner(name: Name, epoch: nat, order: nat)

  function AsOwner(o: Outstanding): seq<Owner>
  {
    if o.sent.SExecute? then [Owner(o.sent.portal, o.epoch, o.order)] else []
  }

  function Project<T>(q: seq<Outstanding>, part: Outstanding -> seq<T>): seq<T>
  {
    if q == [] then [] else part(q[0]) + Project(q[1..], part)
  }

  lemma {:induction false} ProjectAppend<T>(p: seq<Outstanding>, q: seq<Outstanding>, part: Outstanding -> seq<T>)
    ensures Project(p + q, part) == Project(p, part) + Project(q, part)
  {
    if p == [] {
      assert p + q == q;
    } else {
      var head, rest, tail := part(p[0]), Project(p[1..], part), Project(q, part);
      ProjectAppend(p[1..], q, part);
      assert (p + q)[1..] == p[1..] + q && (p + q)[0] == p[0];
      assert head + (rest + tail) == (head + rest) + tail;
    }
  }

  function Owners(q: seq<PendingExecute>): seq<Owner>
  {
    seq(|q|, i requires 0 <= i < |q| => Owner(q[i].name, q[i].epoch, q[i].order))
  }

  /** A Query whose rows have begun owes no description any more. */
  function Undescribed(r: Server): seq<Outstanding>
  {
    if r.streaming && r.fifo != [] then r.fifo[1..] else r.fifo
  }

  ghost predicate QueuesMatch(s: State, r: Server)
  {
    && s.descriptions == Project(Undescribed(r), AsDescription)
    && s.parses == Project(r.fifo, AsParse)
    && s.binds == Project(r.fifo, AsBind)
    && Owners(s.executes) == Project(r.fifo, AsOwner)
    && s.streamingSimple == r.streaming && (r.streaming ==> r.fifo != [] && r.fifo[0].sent.SQuery?)
    && !s.suspended && s.syncEpoch == r.syncs && s.nextOrder == r.results
  }

  /** The proxy's names mean what the client's messages say they mean. */
  ghost predicate NamesMatch(s: State, r: Server)
  {
    && (forall n :: Get(s.statementSql, n) == LastText(r.sent, n))
    && (forall p :: Get(s.portalStatement, p) == LastBinding(r.sent, p))
  }

  /** A Bind still good for an Execute has a counter no queued Execute holds. */
  ghost predicate ReadyIsFresh(s: State, r: Server)
  {
    forall p :: p in r.ready ==>
      p in s.bindGenerations && !Held(s.executes, p, s.bindGenerations[p])
  }

  predicate BearsResult(o: Outstanding)
  {
    o.sent.SQuery? || o.sent.SExecute?
  }

  /** Result-bearing messages are numbered in the order they were sent. */
  ghost predicate Numbered(r: Server)
  {
    && (forall i, j :: 0 <= i < j < |r.fifo| && BearsResult(r.fifo[i]) && BearsResult(r.fifo[j])
          ==> r.fifo[i].order < r.fifo[j].order)
    && (forall i :: 0 <= i < |r.fifo| && BearsResult(r.fifo[i]) ==> r.fifo[i].order < r.results)
  }

  ghost predicate Refines(s: State, r: Server)
  {
    QueuesMatch(s, r) && NamesMatch(s, r) && ReadyIsFresh(s, r) && Numbered(r)
  }

  // ---- The server's own order -----------------------------------------------

  lemma AcceptKeepsNumbered(r: Server, m: Sent)
    requires Numbered(r)
    ensures Numbered(Accept(r, m))
  {
  }

  lemma AdvanceKeepsNumbered(r: Server, a: Action)
    requires Numbered(r) && Enabled(r, a)
    ensures Numbered(Advance(r, a))
  {
  }

  /** Everything behind a result-bearing head is numbered after it. */
  lemma {:induction false} ProjectedOrder(q: seq<Outstanding>, bound: nat)
    requires forall i :: 0 <= i < |q| && BearsResult(q[i]) ==> bound < q[i].order
    ensures forall d :: d in Project(q, AsDescription) && d.Simple? ==> bound < d.order
    ensures forall o :: o in Project(q, AsOwner) ==> bound < o.order
  {
    if q != [] {
      ProjectedOrder(q[1..], bound);
      assert BearsResult(q[0]) ==> bound < q[0].order;
    }
  }

  // ---- Names ----------------------------------------------------------------

  lemma ParseKeepsNames(s: State, r: Server, name: Name, sql: Sql)
    requires NamesMatch(s, r)
    ensures NamesMatch(Parse(s, name, sql), Accept(r, SParse(name, sql)))
  {
  }

  lemma BindKeepsNames(s: State, t: State, r: Server, portal: Name, statement: Name, formats: Formats)
    requires NamesMatch(s, r)
    requires t.statementSql == s.statementSql && t.portalStatement == s.portalStatement[portal := statement]
    ensures NamesMatch(t, Accept(r, SBind(portal, statement, formats)))
  {
    assert (r.sent + [SBind(portal, statement, formats)])[..|r.sent|] == r.sent;
  }

  lemma CloseKeepsNames(s: State, r: Server, target: Target)
    requires NamesMatch(s, r)
    ensures NamesMatch(Close(s, target), Accept(r, SClose(target)))
  {
  }

  /** Messages that rename nothing. */
  lemma OtherSendKeepsNames(s: State, t: State, r: Server, m: Sent)
    requires NamesMatch(s, r) && t.statementSql == s.statementSql && t.portalStatement == s.portalStatement
    requires m.SDescribe? || m.SExecute? || m.SQuery? || m.SSync?
    ensures NamesMatch(t, Accept(r, m))
  {
    assert (r.sent + [m])[..|r.sent|] == r.sent;
  }

  // ---- Freshness of what is ready -------------------------------------------

  /** No queued Execute is new: none holds a generation it did not hold before. */
  ghost predicate HoldsNoMore(q: seq<PendingExecute>, r: seq<PendingExecute>)
  {
    forall p, g :: Held(r, p, g) ==> Held(q, p, g)
  }

  lemma InstallHoldsNoMore(s: State, plans: map<Name, Plan>)
    ensures HoldsNoMore(s.executes, Install(s, plans).executes)
    ensures Owners(Install(s, plans).executes) == Owners(s.executes)
  {
  }

  lemma TailHoldsNoMore(q: seq<PendingExecute>)
    ensures HoldsNoMore(q, Pop(q))
  {
  }

  lemma ReadyStaysFresh(s: State, t: State, r: Server, u: Server)
    requires ReadyIsFresh(s, r) && u.ready <= r.ready
    requires HoldsNoMore(s.executes, t.executes) && t.bindGenerations == s.bindGenerations
    ensures ReadyIsFresh(t, u)
  {
  }

  lemma ParseKeepsReady(s: State, r: Server, name: Name, sql: Sql)
    requires ReadyIsFresh(s, r) && NamesMatch(s, r)
    ensures ReadyIsFresh(Parse(s, name, sql), Accept(r, SParse(name, sql)))
  {
  }

  /** What a Bind does to everything but plans. */
  lemma BindShape(s: State, portal: Name, statement: Name, formats: Formats)
    ensures var t := Bind(s, portal, statement, formats);
            && HoldsNoMore(s.executes, t.executes) && Owners(t.executes) == Owners(s.executes)
            && t.bindGenerations == s.bindGenerations[portal := BumpedGeneration(s, portal)]
            && t.statementSql == s.statementSql && t.portalStatement == s.portalStatement[portal := statement]
            && t.descriptions == s.descriptions && t.parses == s.parses
            && t.binds == s.binds + [PendingMutation(portal, s.syncEpoch)]
            && t.streamingSimple == s.streamingSimple && t.suspended == s.suspended
            && t.syncEpoch == s.syncEpoch && t.nextOrder == s.nextOrder
  {
    if statement in s.statementPlans {
      InstallHoldsNoMore(Rebound(s, portal, statement, formats),
                         map[portal := Stamp(s.statementPlans[statement], formats)]);
    }
  }

  lemma ReboundReadyIsFresh(s: State, t: State, r: Server, portal: Name, statement: Name, formats: Formats, n: nat)
    requires ReadyIsFresh(s, r) && Counted(s, n) && n < U64_MAX
    requires HoldsNoMore(s.executes, t.executes)
    requires t.bindGenerations == s.bindGenerations[portal := BumpedGeneration(s, portal)]
    ensures ReadyIsFresh(t, Accept(r, SBind(portal, statement, formats)))
  {
    FreeFromIsFree(s.executes, portal, Inc(BindGeneration(s, portal)), n);
  }

  /** A ready portal is not a resume, so its Execute is queued as a new result set. */
  lemma ReadyIsNoResume(s: State, r: Server, portal: Name)
    requires ReadyIsFresh(s, r) && portal in r.ready
    ensures !IsResume(s, portal)
  {
  }

  lemma ExecuteKeepsReady(s: State, r: Server, portal: Name)
    requires ReadyIsFresh(s, r) && portal in r.ready && !s.suspended
    ensures ReadyIsFresh(Execute(s, portal), Accept(r, SExecute(portal)))
  {
    ReadyIsNoResume(s, r, portal);
    assert Execute(s, portal).executes == s.executes + [NewExecute(s, portal)];
  }

  // ---- Queues ---------------------------------------------------------------

  lemma AcceptProjects(r: Server, m: Sent)
    requires r.streaming ==> r.fifo != []
    ensures var u := Accept(r, m);
            && Project(Undescribed(u), AsDescription)
               == Project(Undescribed(r), AsDescription) + Project(Owed(r, m), AsDescription)
            && Project(u.fifo, AsParse) == Project(r.fifo, AsParse) + Project(Owed(r, m), AsParse)
            && Project(u.fifo, AsBind) == Project(r.fifo, AsBind) + Project(Owed(r, m), AsBind)
            && Project(u.fifo, AsOwner) == Project(r.fifo, AsOwner) + Project(Owed(r, m), AsOwner)
  {
    ProjectAppend(r.fifo, Owed(r, m), AsParse);
    ProjectAppend(r.fifo, Owed(r, m), AsBind);
    ProjectAppend(r.fifo, Owed(r, m), AsOwner);
    ProjectAppend(Undescribed(r), Owed(r, m), AsDescription);
    assert Undescribed(Accept(r, m)) == Undescribed(r) + Owed(r, m);
  }

  lemma OwedProjects(r: Server, m: Sent)
    ensures Project(Owed(r, m), AsDescription) == AsDescription(Owed(r, m)[0])
    ensures Project(Owed(r, m), AsParse) == AsParse(Owed(r, m)[0])
    ensures Project(Owed(r, m), AsBind) == AsBind(Owed(r, m)[0])
    ensures Project(Owed(r, m), AsOwner) == AsOwner(Owed(r, m)[0])
  {
    ProjectOne(Owed(r, m), AsDescription);
    ProjectOne(Owed(r, m), AsParse);
    ProjectOne(Owed(r, m), AsBind);
    ProjectOne(Owed(r, m), AsOwner);
  }

  lemma {:induction false} ProjectOne<T>(q: seq<Outstanding>, part: Outstanding -> seq<T>)
    requires |q| == 1 || (|q| == 2 && part(q[1]) == [])
    ensures Project(q, part) == part(q[0])
  {
    if |q| == 2 {
      assert Project(q[1..], part) == part(q[1]) + Project(q[1..][1..], part);
    }
  }

  /** A message sent: each queue gains exactly that message's own entry. */
  lemma SendMatches(s: State, t: State, r: Server, m: Sent)
    requires QueuesMatch(s, r)
    requires var o := Owed(r, m)[0];
             && t.descriptions == s.descriptions + AsDescription(o)
             && t.parses == s.parses + AsParse(o)
             && t.binds == s.binds + AsBind(o)
             && Owners(t.executes) == Owners(s.executes) + AsOwner(o)
    requires t.streamingSimple == s.streamingSimple && !t.suspended
    requires t.syncEpoch == Accept(r, m).syncs && t.nextOrder == Accept(r, m).results
    ensures QueuesMatch(t, Accept(r, m))
  {
    AcceptProjects(r, m);
    OwedProjects(r, m);
  }

  // ---- Each message sent ----------------------------------------------------

  lemma SendParseRefines(s: State, r: Server, name: Name, sql: Sql)
    requires Refines(s, r)
    ensures Refines(Parse(s, name, sql), Accept(r, SParse(name, sql)))
  {
    ParseKeepsNames(s, r, name, sql);
    ParseKeepsReady(s, r, name, sql);
    AcceptKeepsNumbered(r, SParse(name, sql));
    SendMatches(s, Parse(s, name, sql), r, SParse(name, sql));
  }

  lemma SendBindRefines(s: State, r: Server, portal: Name, statement: Name, formats: Formats, n: nat)
    requires Refines(s, r) && Counted(s, n) && n < U64_MAX
    ensures Refines(Bind(s, portal, statement, formats), Accept(r, SBind(portal, statement, formats)))
  {
    var m, t := SBind(portal, statement, formats), Bind(s, portal, statement, formats);
    BindShape(s, portal, statement, formats);
    BindKeepsNames(s, t, r, portal, statement, formats);
    ReboundReadyIsFresh(s, t, r, portal, statement, formats, n);
    AcceptKeepsNumbered(r, m);
    SendMatches(s, t, r, m);
  }

  lemma SendDescribeMatches(s: State, r: Server, target: Target)
    requires QueuesMatch(s, r) && NamesMatch(s, r)
    ensures QueuesMatch(DescribeOp(s, target), Accept(r, SDescribe(target)))
  {
    assert TargetSql(s, target) == LatestText(r.sent, target);
    SendMatches(s, DescribeOp(s, target), r, SDescribe(target));
  }

  lemma SendDescribeRefines(s: State, r: Server, target: Target)
    requires Refines(s, r)
    ensures Refines(DescribeOp(s, target), Accept(r, SDescribe(target)))
  {
    var m, t := SDescribe(target), DescribeOp(s, target);
    OtherSendKeepsNames(s, t, r, m);
    ReadyStaysFresh(s, t, r, Accept(r, m));
    AcceptKeepsNumbered(r, m);
    SendDescribeMatches(s, r, target);
  }

  lemma SendExecuteMatches(s: State, r: Server, portal: Name)
    requires QueuesMatch(s, r) && !IsResume(s, portal) && s.nextOrder < U64_MAX
    ensures QueuesMatch(Execute(s, portal), Accept(r, SExecute(portal)))
  {
    var m, t := SExecute(portal), Execute(s, portal);
    assert t.executes == s.executes + [NewExecute(s, portal)];
    SendMatches(s, t, r, m);
  }

  lemma SendExecuteRefines(s: State, r: Server, portal: Name, n: nat)
    requires Refines(s, r) && portal in r.ready && Counted(s, n) && n < U64_MAX
    ensures Refines(Execute(s, portal), Accept(r, SExecute(portal)))
  {
    ReadyIsNoResume(s, r, portal);
    ExecuteKeepsReady(s, r, portal);
    OtherSendKeepsNames(s, Execute(s, portal), r, SExecute(portal));
    AcceptKeepsNumbered(r, SExecute(portal));
    SendExecuteMatches(s, r, portal);
  }

  lemma SendCloseRefines(s: State, r: Server, target: Target)
    requires Refines(s, r)
    ensures Refines(Close(s, target), Accept(r, SClose(target)))
  {
    var m, t := SClose(target), Close(s, target);
    CloseKeepsNames(s, r, target);
    ReadyStaysFresh(s, t, r, Accept(r, m));
    AcceptKeepsNumbered(r, m);
    SendMatches(s, t, r, m);
  }

  lemma SendQueryRefines(s: State, r: Server, query: Option<Sql>, n: nat)
    requires Refines(s, r) && Counted(s, n) && n < U64_MAX
    ensures Refines(BeginSimpleQuery(s, query), Accept(r, SQuery(query)))
  {
    var m, t := SQuery(query), BeginSimpleQuery(s, query);
    OtherSendKeepsNames(s, t, r, m);
    ReadyStaysFresh(s, t, r, Accept(r, m));
    AcceptKeepsNumbered(r, m);
    SendMatches(s, t, r, m);
  }

  lemma SendSyncRefines(s: State, r: Server, n: nat)
    requires Refines(s, r) && Counted(s, n) && n < U64_MAX
    ensures Refines(Sync(s), Accept(r, SSync))
  {
    OtherSendKeepsNames(s, Sync(s), r, SSync);
    ReadyStaysFresh(s, Sync(s), r, Accept(r, SSync));
    AcceptKeepsNumbered(r, SSync);
    SendMatches(s, Sync(s), r, SSync);
  }

  // ---- Each answer ----------------------------------------------------------

  /** An answer renames nothing, bumps nothing and queues nothing. */
  predicate OnlyAnswers(s: State, t: State)
  {
    t.statementSql == s.statementSql && t.portalStatement == s.portalStatement
    && t.bindGenerations == s.bindGenerations
  }

  lemma AnswerRefines(s: State, t: State, r: Server, a: Action)
    requires Refines(s, r) && Enabled(r, a) && !a.Send?
    requires OnlyAnswers(s, t) && HoldsNoMore(s.executes, t.executes) && QueuesMatch(t, Advance(r, a))
    ensures Refines(t, Advance(r, a))
  {
    AdvanceKeepsNumbered(r, a);
    ReadyStaysFresh(s, t, r, Advance(r, a));
  }

  lemma ParseCompleteRefines(s: State, r: Server)
    requires Refines(s, r) && Enabled(r, ParseComplete)
    ensures Refines(FinishParse(s), Advance(r, ParseComplete))
  {
    AnswerRefines(s, FinishParse(s), r, ParseComplete);
  }

  lemma BindCompleteRefines(s: State, r: Server)
    requires Refines(s, r) && Enabled(r, BindComplete)
    ensures Refines(FinishBind(s), Advance(r, BindComplete))
  {
    InstallHoldsNoMore(s, BindCompletePlans(s, s.binds[0].name));
    AnswerRefines(s, FinishBind(s), r, BindComplete);
  }

  lemma NoDataRefines(s: State, r: Server)
    requires Refines(s, r) && Enabled(r, NoData)
    ensures Refines(FinishNoData(s), Advance(r, NoData))
  {
    AnswerRefines(s, FinishNoData(s), r, NoData);
  }

  lemma EmptyQueryRefines(s: State, r: Server)
    requires Refines(s, r) && Enabled(r, EmptyQueryResponse)
    ensures Refines(FinishEmptyQuery(s), Advance(r, EmptyQueryResponse))
  {
    AnswerRefines(s, FinishEmptyQuery(s), r, EmptyQueryResponse);
  }

  lemma RowDescriptionRefines(s: State, r: Server, plan: Plan)
    requires Refines(s, r) && Enabled(r, RowDescription(plan))
    ensures Refines(FinishDescription(s, plan), Advance(r, RowDescription(plan)))
  {
    assert s.descriptions[0] == AsDescription(r.fifo[0])[0];
    InstallHoldsNoMore(Taken(s, plan), if r.fifo[0].sent.SDescribe?
                                       then DescribedPlans(s, r.fifo[0].sent.target, plan) else map[]);
    AnswerRefines(s, FinishDescription(s, plan), r, RowDescription(plan));
  }

  lemma FinishResultSetOnlyAnswers(s: State)
    ensures OnlyAnswers(s, FinishResultSet(s)) && HoldsNoMore(s.executes, FinishResultSet(s).executes)
  {
    TailHoldsNoMore(s.executes);
  }

  /** With a Query at the head of the pipeline, no queued Execute is older. */
  lemma QueryEndsFirst(s: State, r: Server)
    requires QueuesMatch(s, r) && Numbered(r) && Enabled(r, CommandComplete) && r.fifo[0].sent.SQuery?
    ensures !r.streaming ==> SimpleEndsFirst(s)
  {
    if !r.streaming {
      ProjectedOrder(r.fifo[1..], r.fifo[0].order);
      assert s.descriptions[0] == AsDescription(r.fifo[0])[0];
      if s.executes != [] {
        assert Owners(s.executes)[0] in Project(r.fifo[1..], AsOwner);
      }
    }
  }

  lemma {:induction false} LeavesNothing<T>(q: seq<Outstanding>, part: Outstanding -> seq<T>)
    requires q != [] && part(q[0]) == []
    ensures Project(q, part) == Project(q[1..], part)
  {
    var rest := Project(q[1..], part);
    assert [] + rest == rest;
  }

  /** A Query leaves an entry in the description queue only. */
  lemma {:induction false} QueryIsADescription(q: seq<Outstanding>)
    requires q != [] && q[0].sent.SQuery?
    ensures Project(q, AsParse) == Project(q[1..], AsParse) && Project(q, AsBind) == Project(q[1..], AsBind)
    ensures Project(q, AsOwner) == Project(q[1..], AsOwner)
    ensures Project(q, AsDescription) != [] && Project(q, AsDescription)[1..] == Project(q[1..], AsDescription)
  {
    LeavesNothing(q, AsParse);
    LeavesNothing(q, AsBind);
    LeavesNothing(q, AsOwner);
    var d := AsDescription(q[0])[0];
    assert Project(q, AsDescription) == [d] + Project(q[1..], AsDescription);
  }

  lemma QueryCompleteMatches(s: State, r: Server)
    requires QueuesMatch(s, r) && Numbered(r) && Enabled(r, CommandComplete) && r.fifo[0].sent.SQuery?
    ensures QueuesMatch(FinishResultSet(s), Advance(r, CommandComplete))
  {
    QueryEndsFirst(s, r);
    QueryIsADescription(r.fifo);
    assert Advance(r, CommandComplete) == r.(fifo := r.fifo[1..], streaming := false);
  }

  /** With an Execute at the head of the pipeline, no queued Query is older. */
  lemma ExecuteEndsFirst(s: State, r: Server)
    requires QueuesMatch(s, r) && Numbered(r) && Enabled(r, CommandComplete) && r.fifo[0].sent.SExecute?
    ensures s.executes != [] && !s.streamingSimple && !SimpleEndsFirst(s)
  {
    ProjectedOrder(r.fifo[1..], r.fifo[0].order);
    assert Owners(s.executes)[0] == AsOwner(r.fifo[0])[0];
    if s.descriptions != [] {
      assert s.descriptions[0] in Project(r.fifo[1..], AsDescription);
    }
  }

  lemma ExecuteCompleteMatches(s: State, r: Server)
    requires QueuesMatch(s, r) && Numbered(r) && Enabled(r, CommandComplete) && r.fifo[0].sent.SExecute?
    ensures QueuesMatch(FinishResultSet(s), Advance(r, CommandComplete))
  {
    ExecuteEndsFirst(s, r);
    assert Owners(Pop(s.executes)) == Owners(s.executes)[1..];
  }

  /** The CommandComplete retires exactly the Query or Execute that ended. */
  lemma CommandCompleteRefines(s: State, r: Server)
    requires Refines(s, r) && Enabled(r, CommandComplete)
    ensures Refines(FinishResultSet(s), Advance(r, CommandComplete))
  {
    FinishResultSetOnlyAnswers(s);
    if r.fifo[0].sent.SQuery? {
      QueryCompleteMatches(s, r);
    } else {
      ExecuteCompleteMatches(s, r);
    }
    AnswerRefines(s, FinishResultSet(s), r, CommandComplete);
  }

  lemma CloseCompleteRefines(s: State, r: Server)
    requires Refines(s, r) && Enabled(r, CloseComplete)
    ensures Refines(s, Advance(r, CloseComplete))
  {
    AnswerRefines(s, s, r, CloseComplete);
  }

  lemma ReadyRefines(s: State, r: Server, status: int)
    requires Refines(s, r) && Enabled(r, ServerReady(status))
    ensures Refines(ReadyForQuery(s, status), Advance(r, ServerReady(status)))
  {
    AnswerRefines(s, s, r, ServerReady(status));
  }

  lemma RefreshRefines(s: State, r: Server, current: nat)
    requires Refines(s, r)
    ensures Refines(InvalidateIfStale(s, current), Advance(r, Refresh(current)))
  {
    AnswerRefines(s, InvalidateIfStale(s, current), r, Refresh(current));
  }

  // ---- Runs -----------------------------------------------------------------

  function ProxyStep(s: State, a: Action): State
  {
    if ProxyOp(a).Some? then Step(s, ProxyOp(a).value) else s
  }

  lemma ParseStep(s: State, name: Name, sql: Sql)
    ensures ProxyStep(s, Send(SParse(name, sql))) == Step(s, SendOp(SParse(name, sql))) == Parse(s, name, sql)
  {
  }

  lemma BindStep(s: State, portal: Name, statement: Name, formats: Formats)
    ensures var m := SBind(portal, statement, formats);
            ProxyStep(s, Send(m)) == Step(s, SendOp(m)) == Bind(s, portal, statement, formats)
  {
  }

  lemma DescribeStep(s: State, target: Target)
    ensures ProxyStep(s, Send(SDescribe(target))) == Step(s, SendOp(SDescribe(target))) == DescribeOp(s, target)
  {
  }

  lemma CloseStep(s: State, target: Target)
    ensures ProxyStep(s, Send(SClose(target))) == Step(s, SendOp(SClose(target))) == Close(s, target)
  {
  }

  lemma SendPreparesRefines(s: State, r: Server, m: Sent, n: nat)
    requires Refines(s, r) && Counted(s, n) && n < U64_MAX && Enabled(r, Send(m))
    requires m.SParse? || m.SBind?
    ensures Refines(Step(s, SendOp(m)), Accept(r, m))
  {
    match m
    case SParse(name, sql) => ParseStep(s, name, sql); SendParseRefines(s, r, name, sql);
    case SBind(portal, statement, formats) =>
      BindStep(s, portal, statement, formats);
      SendBindRefines(s, r, portal, statement, formats, n);
  }

  lemma ExecuteStep(s: State, portal: Name)
    ensures ProxyStep(s, Send(SExecute(portal))) == Step(s, SendOp(SExecute(portal))) == Execute(s, portal)
  {
  }

  lemma QueryStep(s: State, query: Option<Sql>)
    ensures ProxyStep(s, Send(SQuery(query))) == Step(s, SendOp(SQuery(query))) == BeginSimpleQuery(s, query)
  {
  }

  lemma SyncStep(s: State)
    ensures ProxyStep(s, Send(SSync)) == Step(s, SendOp(SSync)) == Sync(s)
  {
  }

  lemma SendRunsRefines(s: State, r: Server, m: Sent, n: nat)
    requires Refines(s, r) && Counted(s, n) && n < U64_MAX && Enabled(r, Send(m))
    requires m.SExecute? || m.SQuery? || m.SSync?
    ensures Refines(Step(s, SendOp(m)), Accept(r, m))
  {
    match m
    case SExecute(portal) => ExecuteStep(s, portal); SendExecuteRefines(s, r, portal, n);
    case SQuery(query) => QueryStep(s, query); SendQueryRefines(s, r, query, n);
    case SSync => SyncStep(s); SendSyncRefines(s, r, n);
  }

  lemma SendRefines(s: State, r: Server, m: Sent, n: nat)
    requires Refines(s, r) && Counted(s, n) && n < U64_MAX && Enabled(r, Send(m))
    ensures Refines(Step(s, SendOp(m)), Accept(r, m))
  {
    match m
    case SDescribe(target) => DescribeStep(s, target); SendDescribeRefines(s, r, target);
    case SClose(target) => CloseStep(s, target); SendCloseRefines(s, r, target);
    case _ => if m.SParse? || m.SBind? { SendPreparesRefines(s, r, m, n); } else { SendRunsRefines(s, r, m, n); }
  }

  predicate Describes(a: Action)
  {
    a.RowDescription? || a.NoData?
  }

  predicate EndsResult(a: Action)
  {
    a.EmptyQueryResponse? || a.CommandComplete?
  }

  lemma DescriptionStep(s: State, plan: Plan)
    ensures ProxyStep(s, RowDescription(plan)) == FinishDescription(s, plan)
  {
    assert ProxyOp(RowDescription(plan)) == Some(OpFinishDescription(plan));
  }

  lemma NoDataStep(s: State, r: Server)
    requires Refines(s, r) && Enabled(r, NoData)
    ensures Refines(Step(s, OpFinishNoData), Advance(r, NoData))
  {
    NoDataRefines(s, r);
  }

  lemma DescriptionStepRefines(s: State, r: Server, a: Action)
    requires Refines(s, r) && Enabled(r, a) && Describes(a)
    ensures Refines(ProxyStep(s, a), Advance(r, a))
  {
    match a
    case RowDescription(plan) => DescriptionStep(s, plan); RowDescriptionRefines(s, r, plan);
    case NoData => NoDataStep(s, r);
  }

  lemma CommandCompleteStep(s: State)
    ensures ProxyStep(s, CommandComplete) == FinishResultSet(s)
    ensures ProxyStep(s, EmptyQueryResponse) == FinishEmptyQuery(s)
  {
  }

  lemma ResultEndRefines(s: State, t: State, r: Server, a: Action)
    requires Refines(s, r) && Enabled(r, a) && EndsResult(a)
    requires t == if a.CommandComplete? then FinishResultSet(s) else FinishEmptyQuery(s)
    ensures Refines(t, Advance(r, a))
  {
    match a
    case EmptyQueryResponse => EmptyQueryRefines(s, r);
    case CommandComplete => CommandCompleteRefines(s, r);
  }

  lemma BindCompleteStep(s: State, r: Server)
    requires Refines(s, r) && Enabled(r, BindComplete)
    ensures Refines(ProxyStep(s, BindComplete), Advance(r, BindComplete))
  {
    BindCompleteRefines(s, r);
  }

  lemma RefreshInvalidates(s: State, current: nat)
    ensures ProxyStep(s, Refresh(current)) == InvalidateIfStale(s, current)
  {
  }

  lemma RefreshStep(s: State, r: Server, current: nat)
    requires Refines(s, r) && Enabled(r, Refresh(current))
    ensures Refines(ProxyStep(s, Refresh(current)), Advance(r, Refresh(current)))
  {
    RefreshInvalidates(s, current);
    RefreshRefines(s, r, current);
  }

  lemma CompletionStepRefines(s: State, r: Server, a: Action)
    requires Refines(s, r) && Enabled(r, a) && !Describes(a) && !EndsResult(a) && !a.Send?
    ensures Refines(ProxyStep(s, a), Advance(r, a))
  {
    match a
    case ParseComplete => ParseCompleteRefines(s, r);
    case BindComplete => BindCompleteStep(s, r);
    case CloseComplete => CloseCompleteRefines(s, r);
    case ServerReady(status) => ReadyRefines(s, r, status);
    case Refresh(current) => RefreshStep(s, r, current);
  }

  lemma StepRefines(s: State, r: Server, a: Action, n: nat)
    requires Refines(s, r) && Counted(s, n) && n < U64_MAX && Enabled(r, a)
    ensures Refines(ProxyStep(s, a), Advance(r, a))
  {
    if a.Send? {
      SendRefines(s, r, a.message, n);
    } else if Describes(a) {
      DescriptionStepRefines(s, r, a);
    } else if EndsResult(a) {
      CommandCompleteStep(s);
      ResultEndRefines(s, ProxyStep(s, a), r, a);
    } else {
      CompletionStepRefines(s, r, a);
    }
  }

  function ServerAfter(actions: seq<Action>): Server
  {
    if actions == [] then Start
    else Advance(ServerAfter(actions[..|actions| - 1]), actions[|actions| - 1])
  }

  function ProxyAfter(actions: seq<Action>): State
  {
    if actions == [] then Init
    else ProxyStep(ProxyAfter(actions[..|actions| - 1]), actions[|actions| - 1])
  }

  /** Every action is one the client may take or the server does take. */
  ghost predicate Legal(actions: seq<Action>)
  {
    forall j :: 0 <= j < |actions| ==> Enabled(ServerAfter(actions[..j]), actions[j])
  }

  /**
   Queue refinement. Over every legal interleaving of client messages, server answers and
   catalog refreshes, the four pending queues are the projections of the server's one
   queue of outstanding messages.
   */
  lemma {:induction false} QueuesAreProjections(actions: seq<Action>)
    requires Legal(actions) && |actions| <= U64_MAX
    ensures var s, r := ProxyAfter(actions), ServerAfter(actions);
            Refines(s, r) && QueueOrder(s) && Counted(s, |actions|)
  {
    if actions != [] {
      var before, a := actions[..|actions| - 1], actions[|actions| - 1];
      assert forall j :: 0 <= j < |before| ==> before[..j] == actions[..j];
      QueuesAreProjections(before);
      StepRefines(ProxyAfter(before), ServerAfter(before), a, |before|);
      if ProxyOp(a).Some? {
        StepKeepsOrder(ProxyAfter(before), ProxyOp(a).value, |before|);
      }
    }
  }

  /** The next answer's message is at the head of its own queue, with the text on record when it was sent. */
  ghost predicate HeadMatches(s: State, r: Server)
    requires r.fifo != []
  {
    var head := r.fifo[0];
    && (head.sent.SDescribe? ==>
          DescribeIsNext(s) && s.descriptions[0].target == head.sent.target && DescribedSql(s) == head.latest)
    && (head.sent.SQuery? && !r.streaming ==>
          QueryIsNext(s) && s.descriptions[0].order == head.order && DescribedSql(s) == head.latest)
    && (head.sent.SQuery? && r.streaming ==> s.streamingSimple)
    && (head.sent.SExecute? ==>
          s.executes != [] && s.executes[0].name == head.sent.portal && s.executes[0].order == head.order
          && !s.streamingSimple)
    && (head.sent.SParse? ==> s.parses != [] && s.parses[0].name == head.sent.name)
    && (head.sent.SBind? ==> s.binds != [] && s.binds[0].name == head.sent.portal)
  }

  lemma HeadEntry(s: State, r: Server)
    requires QueuesMatch(s, r) && r.fifo != []
    ensures HeadMatches(s, r)
  {
    if r.fifo[0].sent.SExecute? {
      assert Owners(s.executes)[0] == AsOwner(r.fifo[0])[0];
    }
  }

  /**
   So every answer meets its own entry: the text judged when a RowDescription, NoData or
   EmptyQueryResponse arrives is the one recorded for the very message it answers, and the
   owner of the rows that arrive is the very Execute that produced them. Whether that is
   the text the answer is about is the subject of `PipelineTexts`.
   */
  lemma AnswersMeetTheirOwnEntry(actions: seq<Action>)
    requires Legal(actions) && |actions| <= U64_MAX && ServerAfter(actions).fifo != []
    ensures HeadMatches(ProxyAfter(actions), ServerAfter(actions))
  {
    QueuesAreProjections(actions);
    HeadEntry(ProxyAfter(actions), ServerAfter(actions));
  }
}
