/**
 The reload protocol: policy reloads, catalog refreshes and any number of sessions, as
 one state machine over their atomic steps. A reload bumps the policy epoch before it
 starts swapping and again when it is over; a snapshot install bumps the catalog counter
 after the store. A session reads the two counters, one after the other, before it loads
 anything, and stamps what it caches with their sum.
 */
module Reload {
  import opened Wrappers

  datatype Live = Live(settings: string)
  datatype Key = Key(bytes: seq<int>)
  datatype Mapping = Mapping(columns: map<(int, int), string>)
  datatype Spec = Spec(rules: multiset<string>)

  datatype Config = Config(live: Live, key: Key, spec: Spec)

  /** What is installed and read by sessions. */
  datatype Cells = Cells(live: Live, key: Key, snapshot: Mapping, spec: Spec)

  datatype Phase =
    | Idle
    | Begun                      // first bump done, nothing stored
    | Locked                     // resolving names, holding the catalog lock
    | Resolved(next: Mapping)   // resolved, not yet stored
    | Stored                     // snapshot stored, catalog counter not yet bumped
    | Counted                    // counter bumped, spec not yet stored
    | Swapping                   // catalog settled, key and settings not yet stored
    | KeyStored
    | LiveStored                 // everything stored, second bump still owed
    | Failed                     // resolution failed, second bump still owed

  /** `before` and `refreshed` only record: the cells at the first bump, and whether a refresh stored since. */
  datatype Reloading = Reloading(phase: Phase, config: Config, bump: bool, before: Cells, refreshed: bool)

  datatype Refresher = Waiting | Querying | Ready(next: Mapping) | Storing

  datatype Built = Built(live: Live, snapshot: Mapping, key: Key)

  /** Where a session is between reading the counters and caching a plan. */
  datatype Stage =
    | Rest
    | ReadCatalog(count: nat)
    | Synced
    | HasLive(live: Live)
    | HasSnapshot(live: Live, snapshot: Mapping)
    | HasAll(built: Built)

  datatype Session = Session(stage: Stage, stamp: nat, cache: set<Built>)

  datatype System = System(
    cells: Cells,
    refreshes: nat,
    epoch: nat,
    reload: Reloading,
    refresher: Refresher,
    sessions: map<nat, Session>)

  datatype Move =
    | Begin(config: Config)
    | LockCatalog
    | ResolveOk(next: Mapping)
    | ResolveErr
    | StoreSnapshot
    | CountInstall
    | StoreSpec
    | SkipResolve
    | StoreKey
    | StoreLive
    | End
    | RefreshLock
    | RefreshOk(found: Mapping)
    | RefreshErr
    | RefreshStore
    | RefreshCount
    | Connect(id: nat)
    | ReadRefreshes(id: nat)
    | ReadEpoch(id: nat)
    | LoadLive(id: nat)
    | LoadSnapshot(id: nat)
    | LoadKey(id: nat)
    | CachePlan(id: nat)
    | GoToRest(id: nat)

  /** The generation a session compares its cache against. */
  function Generation(w: System): nat
  {
    w.refreshes + w.epoch
  }

  function Changes(c: Cells, config: Config): bool
  {
    c.live != config.live || c.key != config.key || c.spec != config.spec
  }

  predicate LockFree(w: System)
  {
    !(w.reload.phase.Locked? || w.reload.phase.Resolved? || w.reload.phase.Stored? || w.reload.phase.Counted?)
    && w.refresher.Waiting?
  }

  // ---- Steps of a reload ----------------------------------------------------

  function BeginReload(w: System, config: Config): System
  {
    if !w.reload.phase.Idle? then w
    else
      var bump := Changes(w.cells, config);
      w.(epoch := if bump then w.epoch + 1 else w.epoch,
         reload := Reloading(Begun, config, bump, w.cells, false))
  }

  function ReloadStep(w: System, step: Move): System
  {
    var phase := w.reload.phase;
    match step
    case LockCatalog =>
      if phase.Begun? && w.cells.spec != w.reload.config.spec && LockFree(w)
      then w.(reload := w.reload.(phase := Locked)) else w
    case ResolveOk(next) => if phase.Locked? then w.(reload := w.reload.(phase := Resolved(next))) else w
    case ResolveErr => if phase.Locked? then w.(reload := w.reload.(phase := Failed)) else w
    case StoreSnapshot =>
      if phase.Resolved?
      then w.(cells := w.cells.(snapshot := phase.next), reload := w.reload.(phase := Stored)) else w
    case CountInstall =>
      if phase.Stored? then w.(refreshes := w.refreshes + 1, reload := w.reload.(phase := Counted)) else w
    case StoreSpec =>
      if phase.Counted?
      then w.(cells := w.cells.(spec := w.reload.config.spec), reload := w.reload.(phase := Swapping)) else w
    case SkipResolve =>
      if phase.Begun? && w.cells.spec == w.reload.config.spec
      then w.(reload := w.reload.(phase := Swapping)) else w
    case StoreKey =>
      if phase.Swapping?
      then w.(cells := w.cells.(key := w.reload.config.key), reload := w.reload.(phase := KeyStored)) else w
    case StoreLive =>
      if phase.KeyStored?
      then w.(cells := w.cells.(live := w.reload.config.live), reload := w.reload.(phase := LiveStored)) else w
    case End =>
      if phase.LiveStored? || phase.Failed?
      then w.(epoch := if w.reload.bump then w.epoch + 1 else w.epoch, reload := w.reload.(phase := Idle)) else w
    case _ => w
  }

  // ---- Steps of the refresher -----------------------------------------------

  function RefreshStep(w: System, step: Move): System
  {
    match step
    case RefreshLock => if LockFree(w) then w.(refresher := Querying) else w
    case RefreshOk(found) => if w.refresher.Querying? then w.(refresher := Ready(found)) else w
    case RefreshErr => if w.refresher.Querying? then w.(refresher := Waiting) else w
    case RefreshStore =>
      if w.refresher.Ready?
      then w.(cells := w.cells.(snapshot := w.refresher.next), refresher := Storing,
              reload := w.reload.(refreshed := true))
      else w
    case RefreshCount =>
      if w.refresher.Storing? then w.(refreshes := w.refreshes + 1, refresher := Waiting) else w
    case _ => w
  }

  // ---- Steps of a session ---------------------------------------------------

  /** A cache is dropped when the generation just read differs from its stamp. */
  function Sync(s: Session, generation: nat): Session
  {
    s.(stage := Synced, stamp := generation, cache := if s.stamp == generation then s.cache else {})
  }

  function SessionStep(w: System, s: Session, step: Move): Session
  {
    match step
    case ReadRefreshes(_) => if s.stage.Rest? then s.(stage := ReadCatalog(w.refreshes)) else s
    case ReadEpoch(_) => if s.stage.ReadCatalog? then Sync(s, s.stage.count + w.epoch) else s
    case LoadLive(_) => if s.stage.Synced? then s.(stage := HasLive(w.cells.live)) else s
    case LoadSnapshot(_) =>
      if s.stage.HasLive? then s.(stage := HasSnapshot(s.stage.live, w.cells.snapshot)) else s
    case LoadKey(_) =>
      if s.stage.HasSnapshot?
      then s.(stage := HasAll(Built(s.stage.live, s.stage.snapshot, w.cells.key))) else s
    case CachePlan(_) =>
      if s.stage.HasAll? then s.(stage := Rest, cache := s.cache + {s.stage.built}) else s
    case GoToRest(_) => if s.stage.ReadCatalog? then s else s.(stage := Rest)
    case _ => s
  }

  predicate OfReload(step: Move)
  {
    step.LockCatalog? || step.ResolveOk? || step.ResolveErr? || step.StoreSnapshot? || step.CountInstall?
    || step.StoreSpec? || step.SkipResolve? || step.StoreKey? || step.StoreLive? || step.End?
  }

  predicate OfRefresher(step: Move)
  {
    step.RefreshLock? || step.RefreshOk? || step.RefreshErr? || step.RefreshStore? || step.RefreshCount?
  }

  function Next(w: System, step: Move): System
  {
    if step.Begin? then BeginReload(w, step.config)
    else if OfReload(step) then ReloadStep(w, step)
    else if OfRefresher(step) then RefreshStep(w, step)
    else if step.Connect? then
      (if step.id in w.sessions then w else w.(sessions := w.sessions[step.id := Session(Rest, 0, {})]))
    else if step.id in w.sessions then
      w.(sessions := w.sessions[step.id := SessionStep(w, w.sessions[step.id], step)])
    else w
  }

  function Start(cells: Cells): System
  {
    System(cells, 0, 0, Reloading(Idle, Config(cells.live, cells.key, cells.spec), false, cells, false), Waiting, map[])
  }

  function Run(cells: Cells, steps: seq<Move>): System
  {
    if steps == [] then Start(cells) else Next(Run(cells, steps[..|steps| - 1]), steps[|steps| - 1])
  }

  // ---- The invariant --------------------------------------------------------

  /** A snapshot has been stored whose counter bump is still to come. */
  predicate SnapshotMidway(w: System)
  {
    w.reload.phase.Stored? || w.refresher.Storing?
  }

  /** Settings or key may have been stored, and the second bump is still to come. */
  predicate PolicyMidway(w: System)
  {
    w.reload.bump && (w.reload.phase.KeyStored? || w.reload.phase.LiveStored?)
  }

  predicate LiveAgrees(w: System, live: Live)
  {
    !PolicyMidway(w) ==> live == w.cells.live
  }

  predicate SnapshotAgrees(w: System, snapshot: Mapping)
  {
    !SnapshotMidway(w) ==> snapshot == w.cells.snapshot
  }

  predicate Agrees(w: System, b: Built)
  {
    LiveAgrees(w, b.live) && SnapshotAgrees(w, b.snapshot) && (!PolicyMidway(w) ==> b.key == w.cells.key)
  }

  predicate StageAgrees(w: System, stage: Stage)
  {
    match stage
    case HasLive(live) => LiveAgrees(w, live)
    case HasSnapshot(live, snapshot) => LiveAgrees(w, live) && SnapshotAgrees(w, snapshot)
    case HasAll(built) => Agrees(w, built)
    case _ => true
  }

  /** What carries the current stamp agrees with what is installed, up to a swap midway. */
  ghost predicate SessionSafe(w: System, s: Session)
  {
    && s.stamp <= Generation(w)
    && (s.stage.ReadCatalog? ==> s.stage.count <= w.refreshes)
    && (s.stamp == Generation(w) ==> StageAgrees(w, s.stage) && forall b :: b in s.cache ==> Agrees(w, b))
  }

  /** Until it stores, a reload has changed nothing; one that bumps nothing has nothing to change. */
  predicate ReloadSafe(w: System)
  {
    var r := w.reload;
    && (r.phase.Begun? || r.phase.Locked? || r.phase.Resolved? || r.phase.Failed? ==>
          w.cells.live == r.before.live && w.cells.key == r.before.key && w.cells.spec == r.before.spec
          && (!r.refreshed ==> w.cells.snapshot == r.before.snapshot))
    && (!r.phase.Idle? && !r.bump ==>
          w.cells.live == r.config.live && w.cells.key == r.config.key && w.cells.spec == r.config.spec
          && !(r.phase.Locked? || r.phase.Resolved? || r.phase.Stored? || r.phase.Counted?))
  }

  ghost predicate Safe(w: System)
  {
    ReloadSafe(w) && forall id :: id in w.sessions ==> SessionSafe(w, w.sessions[id])
  }

  // ---- Every step keeps it --------------------------------------------------

  /** A bump makes every stamp in existence stale. */
  lemma BumpOutdatesStamps(w: System, v: System)
    requires Safe(w) && ReloadSafe(v) && v.sessions == w.sessions
    requires Generation(w) < Generation(v) && w.refreshes <= v.refreshes
    ensures Safe(v)
  {
  }

  /** A step that neither bumps nor changes anything not already midway. */
  lemma QuietStep(w: System, v: System)
    requires Safe(w) && ReloadSafe(v) && v.sessions == w.sessions
    requires v.refreshes == w.refreshes && v.epoch == w.epoch
    requires SnapshotMidway(w) ==> SnapshotMidway(v)
    requires PolicyMidway(w) ==> PolicyMidway(v)
    requires SnapshotMidway(v) || v.cells.snapshot == w.cells.snapshot
    requires PolicyMidway(v) || (v.cells.live == w.cells.live && v.cells.key == w.cells.key)
    ensures Safe(v)
  {
  }

  lemma BeginKeepsSafe(w: System, config: Config)
    requires Safe(w)
    ensures Safe(BeginReload(w, config))
  {
  }

  lemma ReloadStepKeepsSafe(w: System, step: Move)
    requires Safe(w) && OfReload(step)
    ensures Safe(ReloadStep(w, step))
  {
    var v := ReloadStep(w, step);
    assert ReloadSafe(v);
    if Generation(w) < Generation(v) {
      BumpOutdatesStamps(w, v);
    } else {
      QuietStep(w, v);
    }
  }

  lemma RefreshStepKeepsSafe(w: System, step: Move)
    requires Safe(w) && OfRefresher(step)
    ensures Safe(RefreshStep(w, step))
  {
  }

  lemma SessionStepKeepsSafe(w: System, s: Session, step: Move)
    requires SessionSafe(w, s)
    ensures SessionSafe(w, SessionStep(w, s, step))
  {
  }

  lemma SessionMoveKeepsSafe(w: System, step: Move)
    requires Safe(w) && !step.Begin? && !OfReload(step) && !OfRefresher(step)
    ensures Safe(Next(w, step))
  {
    var v := Next(w, step);
    forall id | id in v.sessions ensures SessionSafe(v, v.sessions[id]) {
      if id in w.sessions {
        SessionStepKeepsSafe(w, w.sessions[id], step);
      }
    }
  }

  lemma NextKeepsSafe(w: System, step: Move)
    requires Safe(w)
    ensures Safe(Next(w, step))
  {
    if step.Begin? {
      BeginKeepsSafe(w, step.config);
    } else if OfReload(step) {
      ReloadStepKeepsSafe(w, step);
    } else if OfRefresher(step) {
      RefreshStepKeepsSafe(w, step);
    } else {
      SessionMoveKeepsSafe(w, step);
    }
  }

  lemma {:induction false} RunIsSafe(cells: Cells, steps: seq<Move>)
    ensures Safe(Run(cells, steps))
  {
    if steps != [] {
      var before := steps[..|steps| - 1];
      RunIsSafe(cells, before);
      NextKeepsSafe(Run(cells, before), steps[|steps| - 1]);
    }
  }

  // ---- Theorems -------------------------------------------------------------

  /**
   The two-bump protocol. For every interleaving of reloads, catalog refreshes and
   sessions, whenever no swap is midway, every cached plan whose stamp is the current
   generation was built from the settings, the key and the snapshot now installed.
   */
  lemma CurrentPlansAgreeWithWhatIsInstalled(cells: Cells, steps: seq<Move>, id: nat, plan: Built)
    ensures var w := Run(cells, steps);
            id in w.sessions && plan in w.sessions[id].cache && w.sessions[id].stamp == Generation(w)
            && !SnapshotMidway(w) && !PolicyMidway(w)
            ==> plan == Built(w.cells.live, w.cells.snapshot, w.cells.key)
  {
    RunIsSafe(cells, steps);
    var w := Run(cells, steps);
    if id in w.sessions {
      assert SessionSafe(w, w.sessions[id]);
    }
  }

  /**
   And while one is midway: the moment a reload that changes anything begins, no plan
   cached so far is current any more, and the same holds when it ends; so neither a plan
   from before the reload nor one built in the middle of it is reused after it.
   */
  lemma BumpsRetireEveryEarlierPlan(cells: Cells, steps: seq<Move>, step: Move, id: nat)
    requires step.Begin? || step == End || step == CountInstall || step == RefreshCount
    ensures var w := Run(cells, steps);
            var v := Next(w, step);
            id in w.sessions && Generation(v) != Generation(w) ==> v.sessions[id].stamp < Generation(v)
  {
    RunIsSafe(cells, steps);
    var w := Run(cells, steps);
    if id in w.sessions {
      assert SessionSafe(w, w.sessions[id]);
    }
  }

  /**
   A reload that fails has installed nothing: settings, key and rules are those it found,
   and so is the snapshot unless a refresh stored one meanwhile. Ending it changes only
   the generation.
   */
  lemma FailedReloadChangesNothing(cells: Cells, steps: seq<Move>)
    ensures var w := Run(cells, steps);
            var v := Next(w, End);
            w.reload.phase.Failed? ==>
              && v.cells == w.cells && v.reload.phase.Idle?
              && v.cells.live == w.reload.before.live && v.cells.key == w.reload.before.key
              && v.cells.spec == w.reload.before.spec
              && (!w.reload.refreshed ==> v.cells.snapshot == w.reload.before.snapshot)
  {
    RunIsSafe(cells, steps);
  }
}
