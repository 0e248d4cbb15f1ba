/**
 What a reload that succeeds leaves behind, what a refresh does, and that the generations
 do not retire plans for nothing: over every interleaving of the steps of `Reload`.
 */
module ReloadProgress {
  import opened Wrappers
  import opened Reload

  lemma {:induction false} RunExtends(cells: Cells, steps: seq<Move>, step: Move)
    ensures Run(cells, steps + [step]) == Next(Run(cells, steps), step)
  {
    assert (steps + [step])[..|steps|] == steps;
  }

  // ---- The snapshot installed -----------------------------------------------

  /** This step stores a snapshot. */
  predicate Stores(w: System, step: Move)
  {
    (step.StoreSnapshot? && w.reload.phase.Resolved?) || (step.RefreshStore? && w.refresher.Ready?)
  }

  function StoredBy(w: System, step: Move): Mapping
    requires Stores(w, step)
  {
    if step.StoreSnapshot? then w.reload.phase.next else w.refresher.next
  }

  /** Step `k` stored a snapshot, and none since did. */
  ghost predicate LastStore(cells: Cells, steps: seq<Move>, k: nat)
  {
    && k < |steps| && Stores(Run(cells, steps[..k]), steps[k])
    && forall j :: k < j < |steps| ==> !Stores(Run(cells, steps[..j]), steps[j])
  }

  lemma SnapshotStep(w: System, step: Move)
    ensures Next(w, step).cells.snapshot == if Stores(w, step) then StoredBy(w, step) else w.cells.snapshot
  {
  }

  /** No step stored a snapshot. */
  ghost predicate NothingStored(cells: Cells, steps: seq<Move>)
  {
    forall j :: 0 <= j < |steps| ==> !Stores(Run(cells, steps[..j]), steps[j])
  }

  lemma {:induction false} StoresOneMore(cells: Cells, steps: seq<Move>, step: Move)
    ensures NothingStored(cells, steps + [step]) <==> NothingStored(cells, steps) && !Stores(Run(cells, steps), step)
    ensures forall k: nat :: LastStore(cells, steps + [step], k) <==>
              if k == |steps| then Stores(Run(cells, steps), step)
              else LastStore(cells, steps, k) && !Stores(Run(cells, steps), step)
  {
    var longer := steps + [step];
    assert longer[..|steps|] == steps && longer[|steps|] == step;
    assert forall j :: 0 <= j < |steps| ==> longer[..j] == steps[..j] && longer[j] == steps[j];
  }

  /** The snapshot in force is the one stored last, by whichever of the two. */
  lemma {:induction false} SnapshotIsTheLastStored(cells: Cells, steps: seq<Move>)
    ensures NothingStored(cells, steps) ==> Run(cells, steps).cells.snapshot == cells.snapshot
    ensures forall k: nat :: LastStore(cells, steps, k) ==>
              Run(cells, steps).cells.snapshot == StoredBy(Run(cells, steps[..k]), steps[k])
  {
    if steps != [] {
      var n := |steps| - 1;
      var before := steps[..n];
      assert before + [steps[n]] == steps;
      SnapshotIsTheLastStored(cells, before);
      StoresOneMore(cells, before, steps[n]);
      SnapshotStep(Run(cells, before), steps[n]);
      forall k: nat | LastStore(cells, steps, k)
        ensures Run(cells, steps).cells.snapshot == StoredBy(Run(cells, steps[..k]), steps[k])
      {
        assert k < n ==> before[..k] == steps[..k];
      }
    }
  }

  lemma {:induction false} SomeStoreIsLast(cells: Cells, steps: seq<Move>, k: nat) returns (l: nat)
    requires k < |steps| && Stores(Run(cells, steps[..k]), steps[k])
    ensures k <= l && LastStore(cells, steps, l)
    decreases |steps| - k
  {
    l := k;
    if j :| k < j < |steps| && Stores(Run(cells, steps[..j]), steps[j]) {
      l := SomeStoreIsLast(cells, steps, j);
    }
  }

  // ---- How far a reload has come --------------------------------------------

  predicate OutOfCatalog(phase: Phase)
  {
    phase.Swapping? || phase.KeyStored? || phase.LiveStored?
  }

  /** What has been stored by now is the configuration's. */
  predicate InstalledSoFar(w: System)
  {
    var phase, config := w.reload.phase, w.reload.config;
    && (OutOfCatalog(phase) ==> w.cells.spec == config.spec)
    && (phase.KeyStored? || phase.LiveStored? ==> w.cells.key == config.key)
    && (phase.LiveStored? ==> w.cells.live == config.live)
  }

  /** Names are resolved again exactly if the rules changed. */
  predicate ResolvesIfChanged(w: System)
  {
    var phase := w.reload.phase;
    phase.Locked? || phase.Resolved? || phase.Stored? || phase.Counted? ==>
      w.reload.before.spec != w.reload.config.spec
  }

  /** Reload and refresh never hold the catalog lock together. */
  predicate LocksExclude(w: System)
  {
    var phase := w.reload.phase;
    phase.Locked? || phase.Resolved? || phase.Stored? || phase.Counted? ==> w.refresher.Waiting?
  }

  lemma InstallingStep(w: System, step: Move)
    requires ReloadSafe(w) && InstalledSoFar(w) && ResolvesIfChanged(w) && LocksExclude(w)
    ensures InstalledSoFar(Next(w, step)) && ResolvesIfChanged(Next(w, step)) && LocksExclude(Next(w, step))
  {
  }

  /** Never two at the catalog, and never another's settings, whatever interleaves. */
  lemma {:induction false} RunInstalls(cells: Cells, steps: seq<Move>)
    ensures var w := Run(cells, steps); InstalledSoFar(w) && ResolvesIfChanged(w) && LocksExclude(w)
  {
    if steps != [] {
      var n := |steps| - 1;
      RunInstalls(cells, steps[..n]);
      RunIsSafe(cells, steps[..n]);
      InstallingStep(Run(cells, steps[..n]), steps[n]);
    }
  }

  /** The reload under way began at step `b`. */
  ghost predicate BegunAt(cells: Cells, steps: seq<Move>, b: nat)
  {
    && b < |steps| && steps[b].Begin? && Run(cells, steps[..b]).reload.phase.Idle?
    && forall j :: b < j <= |steps| ==> !Run(cells, steps[..j]).reload.phase.Idle?
  }

  /** Names resolved to `next` at step `m`, which step `k` stored. */
  ghost predicate ResolvedAndStored(cells: Cells, steps: seq<Move>, b: nat, m: nat, k: nat, next: Mapping)
  {
    && b < m < k < |steps| && steps[m] == ResolveOk(next) && steps[k] == StoreSnapshot
    && Run(cells, steps[..k]).reload.phase == Resolved(next)
  }

  /** What the run so far says about the reload under way. */
  ghost predicate Underway(cells: Cells, steps: seq<Move>, b: nat)
  {
    var w := Run(cells, steps);
    && BegunAt(cells, steps, b) && w.reload.config == steps[b].config
    && w.reload.before == Run(cells, steps[..b]).cells
    && (w.reload.phase.Resolved? ==>
          exists m :: b < m < |steps| && steps[m] == ResolveOk(w.reload.phase.next))
    && (w.reload.phase.Stored? || w.reload.phase.Counted?
        || (OutOfCatalog(w.reload.phase) && w.reload.before.spec != w.reload.config.spec) ==>
          exists m: nat, k: nat, next :: ResolvedAndStored(cells, steps, b, m, k, next))
  }

  lemma {:induction false} StoredStays(
    cells: Cells, steps: seq<Move>, step: Move, b: nat, m: nat, k: nat, next: Mapping)
    requires ResolvedAndStored(cells, steps, b, m, k, next)
    ensures ResolvedAndStored(cells, steps + [step], b, m, k, next)
  {
    assert (steps + [step])[..k] == steps[..k];
  }

  lemma {:induction false} BegunStays(cells: Cells, steps: seq<Move>, step: Move, b: nat)
    requires BegunAt(cells, steps, b) && !Next(Run(cells, steps), step).reload.phase.Idle?
    ensures BegunAt(cells, steps + [step], b)
  {
    var longer := steps + [step];
    RunExtends(cells, steps, step);
    assert longer[..b] == steps[..b];
    forall j | b < j <= |longer| ensures !Run(cells, longer[..j]).reload.phase.Idle? {
      if j <= |steps| {
        assert longer[..j] == steps[..j];
      } else {
        assert longer[..j] == longer;
      }
    }
  }

  lemma {:induction false} Begins(cells: Cells, steps: seq<Move>, step: Move)
    requires Run(cells, steps).reload.phase.Idle? && step.Begin?
    ensures Underway(cells, steps + [step], |steps|)
  {
    var longer := steps + [step];
    RunExtends(cells, steps, step);
    assert longer[..|steps|] == steps && longer[..|longer|] == longer;
  }

  /** The phases after one more step, from the ones before. */
  lemma PhaseStep(w: System, step: Move)
    ensures var v := Next(w, step);
            && (!w.reload.phase.Idle? ==> v.reload.config == w.reload.config && v.reload.before == w.reload.before)
            && (w.reload.phase.Idle? && !step.Begin? ==> v.reload.phase.Idle?)
            && (v.reload.phase.Resolved? ==> w.reload.phase == v.reload.phase || step == ResolveOk(v.reload.phase.next))
            && (v.reload.phase.Stored? ==>
                  w.reload.phase.Stored? || (w.reload.phase.Resolved? && step == StoreSnapshot))
            && (v.reload.phase.Counted? ==> w.reload.phase.Stored? || w.reload.phase.Counted?)
            && (OutOfCatalog(v.reload.phase) ==>
                  || OutOfCatalog(w.reload.phase) || w.reload.phase.Counted?
                  || (w.reload.phase.Begun? && w.cells.spec == w.reload.config.spec))
  {
  }

  lemma {:induction false} Continues(cells: Cells, steps: seq<Move>, step: Move, b: nat)
    requires Underway(cells, steps, b) && !Next(Run(cells, steps), step).reload.phase.Idle?
    ensures Underway(cells, steps + [step], b)
  {
    var longer, w := steps + [step], Run(cells, steps);
    RunExtends(cells, steps, step);
    RunIsSafe(cells, steps);
    BegunStays(cells, steps, step, b);
    PhaseStep(w, step);
    assert steps[..|steps|] == steps && longer[..|steps|] == steps && longer[|steps|] == step;
    assert longer[b] == steps[b] && longer[..b] == steps[..b];
    assert !Run(cells, steps[..|steps|]).reload.phase.Idle?;
    var v := Run(cells, longer);
    if v.reload.phase.Resolved? {
      if m :| w.reload.phase == v.reload.phase && b < m < |steps| && steps[m] == ResolveOk(w.reload.phase.next) {
        assert longer[m] == steps[m];
      }
    }
    if m: nat, k: nat, next :| ResolvedAndStored(cells, steps, b, m, k, next) {
      StoredStays(cells, steps, step, b, m, k, next);
    } else if w.reload.phase.Resolved? && step == StoreSnapshot {
      var m :| b < m < |steps| && steps[m] == ResolveOk(w.reload.phase.next);
      assert longer[m] == steps[m];
      assert ResolvedAndStored(cells, longer, b, m, |steps|, w.reload.phase.next);
    }
  }

  lemma {:induction false} ReloadIsUnderway(cells: Cells, steps: seq<Move>)
    ensures !Run(cells, steps).reload.phase.Idle? ==> exists b: nat :: Underway(cells, steps, b)
  {
    if steps != [] {
      var n := |steps| - 1;
      var before, step := steps[..n], steps[n];
      ReloadIsUnderway(cells, before);
      RunExtends(cells, before, step);
      assert before + [step] == steps;
      PhaseStep(Run(cells, before), step);
      if !Run(cells, steps).reload.phase.Idle? {
        if Run(cells, before).reload.phase.Idle? {
          Begins(cells, before, step);
        } else {
          var b: nat :| Underway(cells, before, b);
          Continues(cells, before, step, b);
        }
      }
    }
  }

  /** The snapshot in force was stored at step `k` or later. */
  ghost predicate StoredSince(cells: Cells, steps: seq<Move>, k: nat)
  {
    exists l: nat :: k <= l && LastStore(cells, steps, l)
      && Run(cells, steps).cells.snapshot == StoredBy(Run(cells, steps[..l]), steps[l])
  }

  /** Names were resolved since step `b`, and the snapshot in force is that one or a later one. */
  ghost predicate ResolvedSince(cells: Cells, steps: seq<Move>, b: nat)
  {
    exists m: nat, k: nat, next :: ResolvedAndStored(cells, steps, b, m, k, next) && StoredSince(cells, steps, k)
  }

  /** The reload begun at step `b` is in force: its settings, key and rules, and names resolved by it or later. */
  ghost predicate InForce(cells: Cells, steps: seq<Move>, b: nat)
  {
    var w := Run(cells, steps);
    && BegunAt(cells, steps, b) && steps[b].Begin?
    && w.cells.live == steps[b].config.live && w.cells.key == steps[b].config.key
    && w.cells.spec == steps[b].config.spec
    && (Run(cells, steps[..b]).cells.spec != steps[b].config.spec ==> ResolvedSince(cells, steps, b))
  }

  lemma {:induction false} StoredIsInForce(
    cells: Cells, steps: seq<Move>, b: nat, m: nat, k: nat, next: Mapping)
    requires ResolvedAndStored(cells, steps, b, m, k, next)
    ensures ResolvedSince(cells, steps, b)
  {
    var l := SomeStoreIsLast(cells, steps, k);
    SnapshotIsTheLastStored(cells, steps);
    assert StoredSince(cells, steps, k);
  }

  lemma {:induction false} UnderwayIsInForce(cells: Cells, steps: seq<Move>, b: nat)
    requires Underway(cells, steps, b) && InstalledSoFar(Run(cells, steps))
    requires Run(cells, steps).reload.phase.LiveStored?
    ensures InForce(cells, steps, b)
  {
    if Run(cells, steps[..b]).cells.spec != steps[b].config.spec {
      var m: nat, k: nat, next :| ResolvedAndStored(cells, steps, b, m, k, next);
      StoredIsInForce(cells, steps, b, m, k, next);
    }
  }

  lemma EndStep(w: System)
    requires w.reload.phase.LiveStored?
    ensures Next(w, End).cells == w.cells && Next(w, End).reload.phase.Idle?
  {
  }

  /**
   A reload that succeeds is in force. For every interleaving, when a reload has stored
   everything and ends, the settings, the key and the rules installed are those of its own
   configuration; and if the rules changed, names were resolved since it began, and the
   snapshot in force is the one it resolved or that of a later refresh.
   */
  lemma {:induction false} SucceededReloadIsInForce(cells: Cells, steps: seq<Move>)
    requires Run(cells, steps).reload.phase.LiveStored?
    ensures exists b: nat :: InForce(cells, steps, b)
    ensures var v := Next(Run(cells, steps), End);
            v.cells == Run(cells, steps).cells && v.reload.phase.Idle?
  {
    ReloadIsUnderway(cells, steps);
    RunInstalls(cells, steps);
    var b: nat :| Underway(cells, steps, b);
    UnderwayIsInForce(cells, steps, b);
    EndStep(Run(cells, steps));
  }

  // ---- What can always be done ----------------------------------------------

  function RunFrom(w: System, steps: seq<Move>): System
    decreases |steps|
  {
    if steps == [] then w else RunFrom(Next(w, steps[0]), steps[1..])
  }

  lemma {:induction false} OneStep(w: System, step: Move, rest: seq<Move>)
    ensures RunFrom(w, [step] + rest) == RunFrom(Next(w, step), rest)
  {
    assert ([step] + rest)[1..] == rest;
  }

  lemma {:induction false} ThreeSteps(w: System, a: Move, b: Move, c: Move, rest: seq<Move>)
    ensures RunFrom(w, [a, b, c] + rest) == RunFrom(Next(Next(Next(w, a), b), c), rest)
  {
    OneStep(w, a, [b, c] + rest);
    OneStep(Next(w, a), b, [c] + rest);
    OneStep(Next(Next(w, a), b), c, rest);
    assert [a, b, c] + rest == [a] + ([b, c] + rest) && [b, c] + rest == [b] + ([c] + rest);
  }

  lemma {:induction false} StoringSettings(w: System)
    requires w.reload.phase.Swapping?
    ensures var v := RunFrom(w, [StoreKey, StoreLive, End]);
            && v.cells == w.cells.(live := w.reload.config.live, key := w.reload.config.key)
            && v.reload.phase.Idle? && v.refreshes == w.refreshes
            && v.epoch == w.epoch + if w.reload.bump then 1 else 0
  {
    ThreeSteps(w, StoreKey, StoreLive, End, []);
    assert [StoreKey, StoreLive, End] + [] == [StoreKey, StoreLive, End];
  }

  /** From any idle state, with the rules unchanged: settings and key are swapped, and nothing is resolved. */
  lemma {:induction false} ASwapInstalls(w: System, config: Config)
    requires w.reload.phase.Idle? && config.spec == w.cells.spec
    ensures var v := RunFrom(w, [Begin(config), SkipResolve] + [StoreKey, StoreLive, End]);
            && v.cells == w.cells.(live := config.live, key := config.key) && v.reload.phase.Idle?
            && Generation(v) == Generation(w) + if Changes(w.cells, config) then 2 else 0
  {
    var rest := [StoreKey, StoreLive, End];
    OneStep(w, Begin(config), [SkipResolve] + rest);
    OneStep(Next(w, Begin(config)), SkipResolve, rest);
    assert [Begin(config), SkipResolve] + rest == [Begin(config)] + ([SkipResolve] + rest);
    StoringSettings(Next(Next(w, Begin(config)), SkipResolve));
  }

  /** With the rules changed and nobody at the catalog: names are resolved, and then everything is installed. */
  lemma {:induction false} AReloadResolvesAndInstalls(w: System, config: Config, next: Mapping)
    requires w.reload.phase.Idle? && config.spec != w.cells.spec && LockFree(w)
    ensures var v := RunFrom(w, [Begin(config), LockCatalog, ResolveOk(next)]
                                + ([StoreSnapshot, CountInstall, StoreSpec] + [StoreKey, StoreLive, End]));
            && v.cells == Cells(config.live, config.key, next, config.spec) && v.reload.phase.Idle?
            && Generation(v) == Generation(w) + 3
  {
    var rest := [StoreKey, StoreLive, End];
    ThreeSteps(w, Begin(config), LockCatalog, ResolveOk(next), [StoreSnapshot, CountInstall, StoreSpec] + rest);
    var u := Next(Next(Next(w, Begin(config)), LockCatalog), ResolveOk(next));
    ThreeSteps(u, StoreSnapshot, CountInstall, StoreSpec, rest);
    StoringSettings(Next(Next(Next(u, StoreSnapshot), CountInstall), StoreSpec));
  }

  /** A reload whose names cannot be resolved ends all the same, with nothing installed and the catalog free. */
  lemma {:induction false} AFailedReloadLetsGo(w: System, config: Config)
    requires w.reload.phase.Idle? && config.spec != w.cells.spec && LockFree(w)
    ensures var v := RunFrom(w, [Begin(config), LockCatalog, ResolveErr] + [End]);
            && v.cells == w.cells && v.reload.phase.Idle? && LockFree(v) && Generation(v) == Generation(w) + 2
  {
    ThreeSteps(w, Begin(config), LockCatalog, ResolveErr, [End]);
    OneStep(Next(Next(Next(w, Begin(config)), LockCatalog), ResolveErr), End, []);
    assert [End] + [] == [End];
  }

  /** So does a refresh that fails, and it moves no generation. */
  lemma {:induction false} AFailedRefreshLetsGo(w: System)
    requires LockFree(w)
    ensures RunFrom(w, [RefreshLock] + [RefreshErr]) == w
  {
    OneStep(w, RefreshLock, [RefreshErr]);
    OneStep(Next(w, RefreshLock), RefreshErr, []);
    assert [RefreshErr] + [] == [RefreshErr];
  }

  /** A refresh installs what it found, whatever a reload that is not at the catalog is doing. */
  lemma {:induction false} ARefreshInstalls(w: System, found: Mapping)
    requires LockFree(w)
    ensures var v := RunFrom(w, [RefreshLock, RefreshOk(found), RefreshStore] + [RefreshCount]);
            && v.cells == w.cells.(snapshot := found) && v.refresher.Waiting?
            && v.reload.phase == w.reload.phase && Generation(v) == Generation(w) + 1
  {
    ThreeSteps(w, RefreshLock, RefreshOk(found), RefreshStore, [RefreshCount]);
    var u := Next(Next(Next(w, RefreshLock), RefreshOk(found)), RefreshStore);
    OneStep(u, RefreshCount, []);
    assert [RefreshCount] + [] == [RefreshCount];
  }

  /**
   The generations retire no plan for nothing: a session that is left alone between two
   answers caches the plan it builds from what is installed, under the current generation,
   and keeps what it had cached under that generation.
   */
  lemma {:induction false} AnUndisturbedPlanIsKept(w: System, id: nat)
    requires id in w.sessions && w.sessions[id].stage.Rest?
    ensures var v := RunFrom(w, [ReadRefreshes(id), ReadEpoch(id), LoadLive(id)]
                                + [LoadSnapshot(id), LoadKey(id), CachePlan(id)]);
            && id in v.sessions
            && var s, was := v.sessions[id], w.sessions[id];
            && var kept := if was.stamp == Generation(w) then was.cache else {};
            && v == w.(sessions := w.sessions[id := s]) && s.stage.Rest? && s.stamp == Generation(v)
            && s.cache == kept + {Built(w.cells.live, w.cells.snapshot, w.cells.key)}
  {
    var rest := [LoadSnapshot(id), LoadKey(id), CachePlan(id)];
    ThreeSteps(w, ReadRefreshes(id), ReadEpoch(id), LoadLive(id), rest);
    var u := Next(Next(Next(w, ReadRefreshes(id)), ReadEpoch(id)), LoadLive(id));
    ThreeSteps(u, LoadSnapshot(id), LoadKey(id), CachePlan(id), []);
    assert rest + [] == rest;
  }
}
