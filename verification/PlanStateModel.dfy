/**
 The extended-query plan lifecycle as a value: every field of the session's plan
 state, and each operation as a function from one state to the next.

 Where the program loops over a hash map (all portals bound to a statement), the
 function says the effect on all of them at once; the class in `PlanStates` has
 the loops and is proved equal to these functions whatever the iteration order.
 */
module PlanStateModel {
  import opened Wrappers
  import opened Sequences
  import opened Masks

  /** Counters are unsigned 64-bit and saturate. */
  const U64_MAX: nat := 0xFFFF_FFFF_FFFF_FFFF

  function Inc(n: nat): nat
  {
    if n < U64_MAX then n + 1 else n
  }

  /** A statement or portal name: the raw bytes of the message. */
  datatype Name = Name(bytes: seq<int>)

  datatype Sql = Sql(text: string)

  datatype Target = Statement(name: Name) | Portal(name: Name)

  /** Result-format codes of a Bind; `None` when the message could not be parsed. */
  type Formats = Option<seq<int>>

  datatype FieldPlan = FieldPlan(
    spec: MaskSpec,
    jsonProjection: Option<string>,
    typeOid: int,
    format: int,
    lenient: bool)

  datatype Plan = Plan(fields: seq<FieldPlan>)

  datatype PendingDescription =
    | Describe(target: Target, sql: Option<Sql>, epoch: nat)
    | Simple(sql: Option<Sql>, epoch: nat, order: nat)

  datatype PendingMutation = PendingMutation(name: Name, epoch: nat)

  datatype PendingExecute = PendingExecute(
    name: Name,
    epoch: nat,
    order: nat,
    plan: Option<Plan>,
    bindGeneration: nat)

  datatype State = State(
    statementPlans: map<Name, Plan>,
    statementSql: map<Name, Sql>,
    portalStatement: map<Name, Name>,
    portalPlans: map<Name, Plan>,
    portalFormats: map<Name, Formats>,
    bindGenerations: map<Name, nat>,
    activePlan: Option<Plan>,
    activePortal: Option<Name>,
    activeEpoch: Option<nat>,
    descriptions: seq<PendingDescription>,
    parses: seq<PendingMutation>,
    binds: seq<PendingMutation>,
    executes: seq<PendingExecute>,
    suspended: bool,
    streamingSimple: bool,
    syncEpoch: nat,
    nextOrder: nat,
    generation: nat)

  /** The message-level operations a session performs on its plan state. */
  datatype Op =
    | OpInvalidateIfStale(current: nat)
    | OpClearActive
    | OpBeginSimpleQuery(text: Option<Sql>)
    | OpParse(name: Name, sql: Sql)
    | OpBind(portal: Name, statement: Name, formats: Formats)
    | OpDescribe(target: Target)
    | OpExecute(portal: Name)
    | OpSuspendResult
    | OpReadyForQuery(status: int)
    | OpFinishResultSet
    | OpClose(target: Target)
    | OpSync
    | OpFinishParse
    | OpFinishBind
    | OpFinishSuppressedEpoch(epoch: nat)
    | OpDiscardFailedEpoch
    | OpFinishNoData
    | OpDiscardDescription
    | OpFinishDescription(plan: Plan)
    | OpFinishEmptyQuery

  /** `b'I'`, the ReadyForQuery status of a session outside any transaction. */
  const IDLE: int := 73

  const Init := State(map[], map[], map[], map[], map[], map[], None, None, None,
                      [], [], [], [], false, false, 0, 0, 0)

  // ---- Reads ----------------------------------------------------------------

  /** None, one for all columns, or one per column. */
  function FormatFor(formats: seq<int>, index: nat): int
  {
    if formats == [] then 0
    else if |formats| == 1 then formats[0]
    else if index < |formats| then formats[index]
    else 0
  }

  /** A statement's plan with the formats a Bind chose. */
  function Stamp(plan: Plan, formats: Formats): Plan
  {
    match formats
    case None => plan
    case Some(codes) =>
      Plan(seq(|plan.fields|, i requires 0 <= i < |plan.fields| =>
        plan.fields[i].(format := FormatFor(codes, i))))
  }

  function Counter(generations: map<Name, nat>, portal: Name): nat
  {
    if portal in generations then generations[portal] else 0
  }

  function BindGeneration(s: State, portal: Name): nat
  {
    Counter(s.bindGenerations, portal)
  }

  function FormatsIn(formats: map<Name, Formats>, portal: Name): Formats
  {
    if portal in formats then formats[portal] else None
  }

  function FormatsOf(s: State, portal: Name): Formats
  {
    FormatsIn(s.portalFormats, portal)
  }

  function BoundTo(s: State, statement: Name): set<Name>
  {
    set p | p in s.portalStatement && s.portalStatement[p] == statement
  }

  predicate IsResume(s: State, portal: Name)
  {
    s.executes != [] && s.executes[0].name == portal
    && s.executes[0].bindGeneration == BindGeneration(s, portal)
  }

  function TargetSql(s: State, target: Target): Option<Sql>
  {
    match target
    case Statement(name) => Get(s.statementSql, name)
    case Portal(portal) =>
      if portal in s.portalStatement then Get(s.statementSql, s.portalStatement[portal]) else None
  }

  function DescribedSql(s: State): Option<Sql>
  {
    if s.descriptions == [] then None else s.descriptions[0].sql
  }

  function RejectionEpoch(s: State): nat
  {
    if s.descriptions != [] then s.descriptions[0].epoch
    else if s.activeEpoch.Some? then s.activeEpoch.value
    else s.syncEpoch
  }

  /** The plan that governs the backend's next DataRow. */
  function StreamingPlan(s: State): Option<Plan>
  {
    if s.streamingSimple then s.activePlan
    else if s.executes == [] then (if s.suspended then None else s.activePlan)
    else
      var owner := s.executes[0];
      if owner.plan.Some? then owner.plan
      else if owner.bindGeneration == BindGeneration(s, owner.name) then Get(s.portalPlans, owner.name)
      else None
  }

  // ---- Bind generations -----------------------------------------------------

  /** Some queued Execute of this portal name holds this generation. */
  predicate Held(q: seq<PendingExecute>, portal: Name, generation: nat)
  {
    exists i :: 0 <= i < |q| && q[i].name == portal && q[i].bindGeneration == generation
  }

  /** First number from `next` on that no queued Execute of the name holds. */
  function FreeFrom(q: seq<PendingExecute>, portal: Name, next: nat): (free: nat)
    ensures next <= free
    decreases U64_MAX - next
  {
    if next < U64_MAX && Held(q, portal, next) then FreeFrom(q, portal, next + 1) else next
  }

  function BumpedGeneration(s: State, portal: Name): nat
  {
    FreeFrom(s.executes, portal, Inc(BindGeneration(s, portal)))
  }

  // ---- Installing plans -----------------------------------------------------

  /** Give a plan to an Execute that has none, if it still runs the portal's current binding. */
  function Filled(e: PendingExecute, generations: map<Name, nat>, plans: map<Name, Plan>): PendingExecute
  {
    if e.name in plans && e.bindGeneration == Counter(generations, e.name) && e.plan.None?
    then e.(plan := Some(plans[e.name]))
    else e
  }

  function FilledQueue(q: seq<PendingExecute>, generations: map<Name, nat>, plans: map<Name, Plan>): seq<PendingExecute>
  {
    seq(|q|, i requires 0 <= i < |q| => Filled(q[i], generations, plans))
  }

  /** Install portal plans, in the cache and in the waiting Executes of those portals. */
  function Install(s: State, plans: map<Name, Plan>): State
  {
    s.(portalPlans := s.portalPlans + plans,
       executes := FilledQueue(s.executes, s.bindGenerations, plans))
  }

  // ---- Frontend messages ----------------------------------------------------

  function InvalidateIfStale(s: State, current: nat): State
  {
    s.(generation := current,
       statementPlans := if s.generation == current then s.statementPlans else map[],
       portalPlans := if s.generation == current then s.portalPlans else map[])
  }

  function ClearActive(s: State): State
  {
    s.(activePlan := None, activeEpoch := None)
  }

  function BeginSimpleQuery(s: State, text: Option<Sql>): State
  {
    s.(activePlan := None, activeEpoch := None,
       nextOrder := Inc(s.nextOrder),
       descriptions := s.descriptions + [Simple(text, s.syncEpoch, s.nextOrder)])
  }

  /** Drop everything derived from the statement's previous text, bind counters included. */
  function ForgetText(s: State, name: Name): State
  {
    var stale := BoundTo(s, name);
    s.(statementPlans := s.statementPlans - {name},
       portalPlans := s.portalPlans - stale,
       portalFormats := s.portalFormats - stale,
       bindGenerations := s.bindGenerations - stale)
  }

  predicate ChangesText(s: State, name: Name, sql: Sql)
  {
    Get(s.statementSql, name) != Some(sql)
  }

  function Parse(s: State, name: Name, sql: Sql): State
  {
    var base := if ChangesText(s, name, sql) then ForgetText(s, name) else s;
    base.(statementSql := s.statementSql[name := sql],
          parses := s.parses + [PendingMutation(name, s.syncEpoch)])
  }

  /** A Bind before any plan is installed: binding, formats and a fresh generation. */
  function Rebound(s: State, portal: Name, statement: Name, formats: Formats): State
  {
    s.(portalStatement := s.portalStatement[portal := statement],
       binds := s.binds + [PendingMutation(portal, s.syncEpoch)],
       portalFormats := s.portalFormats[portal := formats],
       bindGenerations := s.bindGenerations[portal := BumpedGeneration(s, portal)])
  }

  function Bind(s: State, portal: Name, statement: Name, formats: Formats): State
  {
    var base := Rebound(s, portal, statement, formats);
    if statement in s.statementPlans
    then Install(base, map[portal := Stamp(s.statementPlans[statement], formats)])
    else base.(portalPlans := base.portalPlans - {portal})
  }

  function DescribeOp(s: State, target: Target): State
  {
    s.(descriptions := s.descriptions + [Describe(target, TargetSql(s, target), s.syncEpoch)])
  }

  function NewExecute(s: State, portal: Name): PendingExecute
  {
    PendingExecute(portal, s.syncEpoch, s.nextOrder, Get(s.portalPlans, portal), BindGeneration(s, portal))
  }

  /** A resume re-stamps the paused head; any other Execute queues, in place of a paused one. */
  function ExecuteQueue(s: State, portal: Name): seq<PendingExecute>
  {
    if IsResume(s, portal) then
      if s.suspended then s.executes[0 := s.executes[0].(epoch := s.syncEpoch)] else s.executes
    else
      (if s.suspended then Pop(s.executes) else s.executes) + [NewExecute(s, portal)]
  }

  function Execute(s: State, portal: Name): State
  {
    s.(activePlan := Get(s.portalPlans, portal), activeEpoch := Some(s.syncEpoch), activePortal := Some(portal),
       suspended := false,
       nextOrder := if IsResume(s, portal) then s.nextOrder else Inc(s.nextOrder),
       executes := ExecuteQueue(s, portal))
  }

  function Close(s: State, target: Target): State
  {
    match target
    case Statement(statement) =>
      var portals := BoundTo(s, statement);
      s.(statementSql := s.statementSql - {statement},
         statementPlans := s.statementPlans - {statement},
         portalStatement := s.portalStatement - portals,
         portalPlans := s.portalPlans - portals,
         portalFormats := s.portalFormats - portals)
    case Portal(portal) =>
      s.(portalStatement := s.portalStatement - {portal},
         portalPlans := s.portalPlans - {portal},
         portalFormats := s.portalFormats - {portal})
  }

  function Sync(s: State): State
  {
    s.(syncEpoch := Inc(s.syncEpoch))
  }

  // ---- Backend messages -----------------------------------------------------

  function Pop<T>(q: seq<T>): seq<T>
  {
    if q == [] then [] else q[1..]
  }

  function SuspendResult(s: State): State
  {
    s.(executes := if |s.executes| > 1 then s.executes[1..] else s.executes, suspended := |s.executes| <= 1)
  }

  function ReadyForQuery(s: State, status: int): State
  {
    if !s.suspended || status != IDLE then s
    else s.(executes := [], suspended := false, activePlan := None, activePortal := None, activeEpoch := None)
  }

  /** The head of the description queue is a Query issued before the oldest queued Execute. */
  predicate SimpleEndsFirst(s: State)
  {
    s.descriptions != [] && s.descriptions[0].Simple?
    && (s.executes == [] || s.descriptions[0].order < s.executes[0].order)
  }

  /** A streaming simple result just ends; otherwise the older of the two heads is retired. */
  function FinishResultSet(s: State): State
  {
    s.(streamingSimple := false,
       suspended := if s.streamingSimple then s.suspended else false,
       descriptions := if !s.streamingSimple && SimpleEndsFirst(s) then s.descriptions[1..] else s.descriptions,
       executes := if !s.streamingSimple && !SimpleEndsFirst(s) then Pop(s.executes) else s.executes)
  }

  function FinishParse(s: State): State
  {
    s.(parses := Pop(s.parses))
  }

  /** The portal plan a BindComplete can supply: the cached one, or the statement's, stamped. */
  function BindCompletePlans(s: State, portal: Name): map<Name, Plan>
  {
    if portal in s.portalPlans then map[portal := s.portalPlans[portal]]
    else if portal in s.portalStatement && s.portalStatement[portal] in s.statementPlans
    then map[portal := Stamp(s.statementPlans[s.portalStatement[portal]], FormatsOf(s, portal))]
    else map[]
  }

  function FinishBind(s: State): State
  {
    if s.binds == [] then s
    else
      var portal := s.binds[0].name;
      var installed := Install(s, BindCompletePlans(s, portal));
      installed.(binds := s.binds[1..],
                 activePlan := if s.activePortal == Some(portal) && portal in installed.portalPlans
                               then Some(installed.portalPlans[portal])
                               else s.activePlan)
  }

  /** What a queue keeps when the entries of one epoch are dropped. */
  function OtherDescription(epoch: nat): PendingDescription -> bool
  {
    (d: PendingDescription) => d.epoch != epoch
  }

  function OtherMutation(epoch: nat): PendingMutation -> bool
  {
    (m: PendingMutation) => m.epoch != epoch
  }

  function OtherExecute(epoch: nat): PendingExecute -> bool
  {
    (e: PendingExecute) => e.epoch != epoch
  }

  /** After an error while suspended, the older paused Execute is dropped too. */
  function LiveExecute(failed: nat, suspended: bool): PendingExecute -> bool
  {
    (e: PendingExecute) => e.epoch != failed && !(suspended && e.epoch < failed)
  }

  function FinishSuppressedEpoch(s: State, epoch: nat): State
  {
    s.(descriptions := Retain(s.descriptions, OtherDescription(epoch)),
       parses := Retain(s.parses, OtherMutation(epoch)),
       binds := Retain(s.binds, OtherMutation(epoch)),
       executes := Retain(s.executes, OtherExecute(epoch)),
       streamingSimple := false, suspended := false)
  }

  function Min(a: Option<nat>, b: Option<nat>): Option<nat>
  {
    if a.None? then b else if b.None? then a
    else if a.value <= b.value then a else b
  }

  /** The epoch an ErrorResponse is charged to: the oldest unanswered one. */
  function FailedEpoch(s: State): Option<nat>
  {
    var d := if s.descriptions == [] then None else Some(s.descriptions[0].epoch);
    var p := if s.parses == [] then None else Some(s.parses[0].epoch);
    var b := if s.binds == [] then None else Some(s.binds[0].epoch);
    var oldest := Min(d, Min(p, b));
    if oldest.Some? then oldest
    else if s.executes == [] then None else Some(s.executes[0].epoch)
  }

  /** Names whose pending mutations all belong to the failed epoch or earlier, one of them to it. */
  function DeadNames(q: seq<PendingMutation>, failed: nat): set<Name>
  {
    set m | m in q && m.epoch == failed && !PendingAfter(q, failed, m.name) :: m.name
  }

  predicate PendingAfter(q: seq<PendingMutation>, failed: nat, name: Name)
  {
    exists i :: 0 <= i < |q| && q[i].epoch > failed && q[i].name == name
  }

  /** Nothing streams and nothing is active after an error. */
  function Quiet(s: State): State
  {
    s.(streamingSimple := false, activePlan := None, activePortal := None, activeEpoch := None, suspended := false)
  }

  /** Drop the failed exchange's entries, and the provisional state of names only it touched. */
  function DiscardEpoch(s: State, failed: nat): State
  {
    Quiet(s).(
      statementSql := s.statementSql - DeadNames(s.parses, failed),
      statementPlans := s.statementPlans - DeadNames(s.parses, failed),
      portalStatement := s.portalStatement - DeadNames(s.binds, failed),
      portalPlans := s.portalPlans - DeadNames(s.binds, failed),
      descriptions := Retain(s.descriptions, OtherDescription(failed)),
      parses := Retain(s.parses, OtherMutation(failed)),
      binds := Retain(s.binds, OtherMutation(failed)),
      executes := Retain(s.executes, LiveExecute(failed, s.suspended)))
  }

  function DiscardFailedEpoch(s: State): State
  {
    if FailedEpoch(s).Some? then DiscardEpoch(s, FailedEpoch(s).value) else Quiet(s)
  }

  predicate DescribeIsNext(s: State)
  {
    s.descriptions != [] && s.descriptions[0].Describe?
  }

  predicate QueryIsNext(s: State)
  {
    s.descriptions != [] && s.descriptions[0].Simple?
  }

  function FinishNoData(s: State): State
  {
    s.(descriptions := if DescribeIsNext(s) then s.descriptions[1..] else s.descriptions)
  }

  function DiscardDescription(s: State): State
  {
    s.(descriptions := Pop(s.descriptions))
  }

  /** A statement's plan for every portal bound to it, with that portal's formats. */
  function StampedFor(bound: map<Name, Name>, formats: map<Name, Formats>, name: Name, plan: Plan): map<Name, Plan>
  {
    map p | p in bound && bound[p] == name :: Stamp(plan, FormatsIn(formats, p))
  }

  /** The portal plans a description of this target supplies. */
  function DescribedPlans(s: State, target: Target, plan: Plan): map<Name, Plan>
  {
    match target
    case Statement(name) => StampedFor(s.portalStatement, s.portalFormats, name, plan)
    case Portal(name) => map[name := plan]
  }

  /** The head description is answered; a statement's own plan is cached. */
  function Taken(s: State, plan: Plan): State
    requires s.descriptions != []
  {
    var head := s.descriptions[0];
    s.(descriptions := s.descriptions[1..],
       streamingSimple := head.Simple?,
       activePlan := Some(plan),
       activeEpoch := Some(head.epoch),
       statementPlans := if head.Describe? && head.target.Statement?
                         then s.statementPlans[head.target.name := plan]
                         else s.statementPlans)
  }

  function FinishDescription(s: State, plan: Plan): State
  {
    if s.descriptions == [] then s
    else if s.descriptions[0].Simple? then Taken(s, plan)
    else Install(Taken(s, plan), DescribedPlans(s, s.descriptions[0].target, plan))
  }

  function FinishEmptyQuery(s: State): State
  {
    s.(descriptions := if QueryIsNext(s) then s.descriptions[1..] else s.descriptions,
       streamingSimple := if QueryIsNext(s) then false else s.streamingSimple)
  }

  // ---- Runs -----------------------------------------------------------------

  function Step(s: State, op: Op): State
  {
    match op
    case OpInvalidateIfStale(current) => InvalidateIfStale(s, current)
    case OpClearActive => ClearActive(s)
    case OpBeginSimpleQuery(text) => BeginSimpleQuery(s, text)
    case OpParse(name, sql) => Parse(s, name, sql)
    case OpBind(portal, statement, formats) => Bind(s, portal, statement, formats)
    case OpDescribe(target) => DescribeOp(s, target)
    case OpExecute(portal) => Execute(s, portal)
    case OpSuspendResult => SuspendResult(s)
    case OpReadyForQuery(status) => ReadyForQuery(s, status)
    case OpFinishResultSet => FinishResultSet(s)
    case OpClose(target) => Close(s, target)
    case OpSync => Sync(s)
    case OpFinishParse => FinishParse(s)
    case OpFinishBind => FinishBind(s)
    case OpFinishSuppressedEpoch(epoch) => FinishSuppressedEpoch(s, epoch)
    case OpDiscardFailedEpoch => DiscardFailedEpoch(s)
    case OpFinishNoData => FinishNoData(s)
    case OpDiscardDescription => DiscardDescription(s)
    case OpFinishDescription(plan) => FinishDescription(s, plan)
    case OpFinishEmptyQuery => FinishEmptyQuery(s)
  }

  /** The state after a whole run. */
  function Run(ops: seq<Op>): State
  {
    if ops == [] then Init else Step(Run(ops[..|ops| - 1]), ops[|ops| - 1])
  }

  lemma RunExtends(ops: seq<Op>, op: Op)
    ensures Run(ops + [op]) == Step(Run(ops), op)
  {
    assert (ops + [op])[..|ops|] == ops;
  }
}
