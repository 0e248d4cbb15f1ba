/**
 Where plans come from, over all runs: which Describe answer a cached or snapshotted
 plan is, which Bind an Execute ran against, and why a rebind, a re-Parse or a catalog
 refresh cannot change that.
 */
module PlanOrigin {
  import opened Wrappers
  import opened Sequences
  import opened PlanStateModel
  import opened PlanFormats
  import opened PlanOrder
  import opened PlanHistory

  // ---- Executes -------------------------------------------------------------

  /** The Bind this Execute ran against is still the last one of the name, and no reset came since. */
  predicate StillCurrent(h: History, e: PendingExecute)
  {
    && e.order in h.issues && e.name in h.lastBind
    && h.issues[e.order].bind == Some(h.lastBind[e.name])
    && (e.name in h.resets ==> h.resets[e.name] < h.issues[e.order].step)
  }

  /** A counter is on record exactly from a Bind until the text of its statement changes. */
  ghost predicate CountersOnRecord(s: State, h: History)
  {
    && (forall p :: p in s.bindGenerations ==> s.bindGenerations[p] >= 1)
    && (forall p :: p in s.bindGenerations <==>
          p in h.lastBind && (p in h.resets ==> h.resets[p] < h.lastBind[p].step))
  }

  /** This mark names an event later than step `b`. */
  predicate Later(mark: Option<nat>, b: nat)
  {
    mark.Some? && mark.value > b
  }

  /**
   Bindings and formats on record are those of the name's last Bind; while a counter is on
   record the statement still has the text it had then, and without one it has a later text.
   */
  ghost predicate BoundByLastBind(s: State, h: History)
  {
    && (forall p :: p in s.bindGenerations ==> p in h.lastBind)
    && (forall p :: p in s.portalStatement ==>
          p in h.lastBind && s.portalStatement[p] == h.lastBind[p].statement)
    && (forall p :: p in s.portalStatement && p in s.bindGenerations ==>
          && p in s.portalFormats && s.portalFormats[p] == h.lastBind[p].formats
          && h.lastBind[p].text == Get(h.texts, s.portalStatement[p]))
    && (forall p :: p in s.portalStatement && p !in s.bindGenerations ==>
          Later(Get(h.texts, s.portalStatement[p]), h.lastBind[p].step))
  }

  /** The plan answers a Describe of the statement, whose text has not changed since the answer. */
  predicate StatementOrigin(h: History, name: Name, plan: Plan)
  {
    exists a :: a in h.answers && a.era == h.era && a.target == Statement(name) && a.plan == plan
                && a.answeredUnder == Get(h.texts, name)
  }

  /**
   The plan is the answer to a Describe of the portal, not bound again since; or of its
   statement with the portal's formats, answered under the text the portal was bound to
   while its counter is on record, and under a later one otherwise.
   */
  predicate FromAnswer(s: State, h: History, a: Answer, portal: Name, plan: Plan)
  {
    || (a.target == Portal(portal) && plan == a.plan && a.answeredUnder == InForce(h, a.target))
    || (portal in s.portalStatement && a.target == Statement(s.portalStatement[portal])
        && plan == Stamp(a.plan, FormatsOf(s, portal))
        && portal in h.lastBind
        && (if portal in s.bindGenerations then a.answeredUnder == h.lastBind[portal].text
            else Later(a.answeredUnder, h.lastBind[portal].step)))
  }

  predicate PortalOrigin(s: State, h: History, portal: Name, plan: Plan)
  {
    exists a :: a in h.answers && a.era == h.era && FromAnswer(s, h, a, portal, plan)
  }

  /** Every cached plan was described after the last generation change. */
  ghost predicate CachedPlansAreCurrent(s: State, h: History)
  {
    && (forall n :: n in s.statementPlans ==> StatementOrigin(h, n, s.statementPlans[n]))
    && (forall p :: p in s.portalPlans ==> PortalOrigin(s, h, p, s.portalPlans[p]))
  }

  /** The plan, field by field, up to the formats a Bind chose. */
  ghost predicate Restamps(plan: Plan, described: Plan)
  {
    exists formats :: InFormats(plan, described, formats)
  }

  /**
   The plan answers a Describe of the portal, under the Bind the Execute ran against or a
   later one; or of a statement. With a generation on record, the answer came under that
   very Bind, or under the text of the very statement it named and with its formats;
   without one, a statement's answer came under a later text than the Bind saw.
   */
  ghost predicate AnswersBinding(issue: Issue, a: Answer, plan: Plan)
  {
    || (a.target == Portal(issue.name) && plan == a.plan
        && (issue.bind.Some? ==> a.answeredUnder.Some? && a.answeredUnder.value >= issue.bind.value.step)
        && (issue.generation >= 1 ==> issue.bind.Some? && a.answeredUnder == Some(issue.bind.value.step)))
    || (a.target.Statement? && Restamps(plan, a.plan)
        && (issue.generation == 0 && issue.bind.Some? ==> Later(a.answeredUnder, issue.bind.value.step))
        && (issue.generation >= 1 ==>
              && issue.bind.Some? && a.target.name == issue.bind.value.statement
              && InFormats(plan, a.plan, issue.bind.value.formats)
              && a.answeredUnder == issue.bind.value.text))
  }

  ghost predicate ExecuteOrigin(h: History, issue: Issue, plan: Plan)
  {
    exists a :: a in h.answers && a.era >= issue.era && AnswersBinding(issue, a, plan)
  }

  /** The Bind the Execute ran against is on record, or a later one of the name is. */
  predicate NotBefore(h: History, issue: Issue)
  {
    issue.bind.Some? ==> issue.name in h.lastBind && issue.bind.value.step <= h.lastBind[issue.name].step
  }

  /**
   What holds of a queued Execute: it was issued in this history under the generation it
   carries; a generation on record that still matches its portal's counter means that
   nothing happened in between; its plan has an origin; and one without a plan whose
   binding is current has no plan hiding in the portal cache.
   */
  ghost predicate ExecuteTraced(s: State, h: History, e: PendingExecute)
  {
    && e.order in h.issues && h.issues[e.order].name == e.name
    && h.issues[e.order].generation == e.bindGeneration && h.issues[e.order].era <= h.era
    && NotBefore(h, h.issues[e.order])
    && (e.bindGeneration >= 1 && e.bindGeneration == BindGeneration(s, e.name) ==> StillCurrent(h, e))
    && (e.plan.Some? ==> ExecuteOrigin(h, h.issues[e.order], e.plan.value))
    && (e.plan.None? && e.bindGeneration == BindGeneration(s, e.name) ==> e.name !in s.portalPlans)
  }

  ghost predicate ExecutesTraced(s: State, h: History)
  {
    && (forall o :: o in h.issues ==> o < s.nextOrder)
    && (forall e :: e in s.executes ==> ExecuteTraced(s, h, e))
  }

  ghost predicate NamesTraced(s: State, h: History)
  {
    CountersOnRecord(s, h) && BoundByLastBind(s, h) && CachedPlansAreCurrent(s, h)
  }

  ghost predicate Traced(s: State, h: History)
  {
    ExecutesTraced(s, h) && NamesTraced(s, h)
  }

  // ---- Operations that only forget ------------------------------------------

  /** Every Execute left was queued before, at most re-stamped with another epoch. */
  ghost predicate Survive(q: seq<PendingExecute>, r: seq<PendingExecute>)
  {
    forall e :: e in r ==> exists o :: o in q && o == e.(epoch := o.epoch)
  }

  ghost predicate Submap<K(!new), V>(m: map<K, V>, n: map<K, V>)
  {
    forall k :: k in m ==> k in n && m[k] == n[k]
  }

  /** No plan is new in `t`, and a portal plan it keeps keeps its binding and formats. */
  ghost predicate KeepsBindings(s: State, t: State)
  {
    && Submap(t.statementPlans, s.statementPlans)
    && Submap(t.portalPlans, s.portalPlans)
    && forall p :: p in t.portalPlans ==>
         && (p in s.portalStatement ==> p in t.portalStatement && t.portalStatement[p] == s.portalStatement[p])
         && FormatsOf(t, p) == FormatsOf(s, p)
         && (p in t.bindGenerations <==> p in s.bindGenerations)
  }

  /** What `k` adds to `h` redefines no name `t` still has a plan for. */
  ghost predicate KeepsNames(t: State, h: History, k: History)
  {
    && (forall n :: n in t.statementPlans ==> Get(k.texts, n) == Get(h.texts, n))
    && (forall p :: p in t.portalPlans ==> Get(k.lastBind, p) == Get(h.lastBind, p))
  }

  lemma CachesCarryOver(s: State, t: State, h: History, k: History)
    requires CachedPlansAreCurrent(s, h) && KeepsBindings(s, t) && KeepsNames(t, h, k)
    requires h.answers <= k.answers && k.era == h.era
    ensures CachedPlansAreCurrent(t, k)
  {
    forall p | p in t.portalPlans ensures PortalOrigin(t, k, p, t.portalPlans[p]) {
      assert PortalOrigin(s, h, p, s.portalPlans[p]);
      var a :| a in h.answers && a.era == h.era && FromAnswer(s, h, a, p, s.portalPlans[p]);
      assert a in k.answers && FromAnswer(t, k, a, p, t.portalPlans[p]);
    }
    forall n | n in t.statementPlans ensures StatementOrigin(k, n, t.statementPlans[n]) {
      assert StatementOrigin(h, n, s.statementPlans[n]);
    }
  }

  /** The Executes are untouched when nothing they are compared with appears. */
  lemma ExecuteCarriesOver(s: State, t: State, h: History, k: History, e: PendingExecute)
    requires ExecuteTraced(s, h, e)
    requires h.answers <= k.answers && h.era <= k.era && e.order in k.issues && k.issues[e.order] == h.issues[e.order]
    requires Get(k.lastBind, e.name) == Get(h.lastBind, e.name)
    requires e.bindGeneration >= 1 && e.bindGeneration == BindGeneration(t, e.name) ==>
               e.bindGeneration == BindGeneration(s, e.name) && Get(k.resets, e.name) == Get(h.resets, e.name)
    requires e.name in t.portalPlans && e.bindGeneration == BindGeneration(t, e.name) ==>
               e.name in s.portalPlans && e.bindGeneration == BindGeneration(s, e.name)
    ensures ExecuteTraced(t, k, e)
  {
    if e.plan.Some? {
      var a :| a in h.answers && a.era >= h.issues[e.order].era
               && AnswersBinding(h.issues[e.order], a, e.plan.value);
      assert a in k.answers;
    }
  }

  /** `t` forgets part of what `s` holds. */
  ghost predicate Forgets(s: State, t: State)
  {
    && Survive(s.executes, t.executes) && s.nextOrder <= t.nextOrder
    && t.bindGenerations == s.bindGenerations
    && KeepsBindings(s, t)
    && Submap(t.portalStatement, s.portalStatement)
    && (forall p :: p in t.portalStatement && p in s.portalFormats ==>
          p in t.portalFormats && t.portalFormats[p] == s.portalFormats[p])
  }

  lemma ForgettingKeepsExecutes(s: State, t: State, h: History)
    requires ExecutesTraced(s, h) && Forgets(s, t)
    ensures ExecutesTraced(t, h)
  {
    forall e | e in t.executes ensures ExecuteTraced(t, h, e) {
      var o :| o in s.executes && o == e.(epoch := o.epoch);
      assert StillCurrent(h, o) ==> StillCurrent(h, e);
    }
  }

  lemma ForgettingKeepsTrace(s: State, t: State, h: History)
    requires Traced(s, h) && Forgets(s, t)
    ensures Traced(t, h)
  {
    ForgettingKeepsExecutes(s, t, h);
    CachesCarryOver(s, t, h, h);
  }

  lemma RetainSurvives(q: seq<PendingExecute>, keep: PendingExecute -> bool)
    ensures Survive(q, Retain(q, keep))
  {
    RetainMembers(q, keep);
    forall e | e in Retain(q, keep) ensures exists o :: o in q && o == e.(epoch := o.epoch) {
      assert e in q && e == e.(epoch := e.epoch);
    }
  }

  lemma TailSurvives(q: seq<PendingExecute>, r: seq<PendingExecute>)
    requires forall e :: e in r ==> e in q
    ensures Survive(q, r)
  {
  }

  lemma SameCacheForgets(s: State, t: State)
    requires Survive(s.executes, t.executes) && s.nextOrder <= t.nextOrder
    requires t.bindGenerations == s.bindGenerations && t.statementPlans == s.statementPlans
    requires t.portalPlans == s.portalPlans && t.portalStatement == s.portalStatement
    requires t.portalFormats == s.portalFormats
    ensures Forgets(s, t)
  {
  }

  lemma CloseForgets(s: State, target: Target)
    ensures Forgets(s, Close(s, target))
  {
  }

  lemma DiscardEpochForgets(s: State, failed: nat)
    ensures Forgets(s, DiscardEpoch(s, failed))
  {
    RetainSurvives(s.executes, LiveExecute(failed, s.suspended));
  }

  lemma DiscardForgets(s: State)
    ensures Forgets(s, DiscardFailedEpoch(s))
  {
    if FailedEpoch(s).Some? {
      DiscardEpochForgets(s, FailedEpoch(s).value);
    } else {
      QuietForgets(s);
    }
  }

  lemma QuietForgets(s: State)
    ensures Forgets(s, Quiet(s))
  {
    TailSurvives(s.executes, s.executes);
    SameCacheForgets(s, Quiet(s));
  }

  lemma SuppressForgets(s: State, epoch: nat)
    ensures Forgets(s, FinishSuppressedEpoch(s, epoch))
  {
    RetainSurvives(s.executes, OtherExecute(epoch));
    SameCacheForgets(s, FinishSuppressedEpoch(s, epoch));
  }

  lemma FinishResultSetKeepsCaches(s: State)
    ensures var t := FinishResultSet(s);
            && t.bindGenerations == s.bindGenerations && t.statementPlans == s.statementPlans
            && t.portalPlans == s.portalPlans && t.portalStatement == s.portalStatement
            && t.portalFormats == s.portalFormats && t.nextOrder == s.nextOrder
            && forall e :: e in t.executes ==> e in s.executes
  {
  }

  lemma FinishResultSetForgets(s: State)
    ensures Forgets(s, FinishResultSet(s))
  {
    FinishResultSetKeepsCaches(s);
    var t := FinishResultSet(s);
    TailSurvives(s.executes, t.executes);
    SameCacheForgets(s, t);
  }

  lemma SuspendForgets(s: State)
    ensures Forgets(s, SuspendResult(s))
  {
    if |s.executes| > 1 {
      TailSurvives(s.executes, s.executes[1..]);
      SameCacheForgets(s, SuspendResult(s));
    } else {
      TailSurvives(s.executes, s.executes);
      SameCacheForgets(s, SuspendResult(s));
    }
  }

  lemma ReadyForgets(s: State, status: int)
    ensures Forgets(s, ReadyForQuery(s, status))
  {
  }

  lemma ResumeForgets(s: State, portal: Name)
    requires IsResume(s, portal)
    ensures Forgets(s, Execute(s, portal))
  {
  }

  // ---- A generation change --------------------------------------------------

  lemma StaleKeepsTrace(s: State, h: History, current: nat)
    requires Traced(s, h) && s.generation != current
    ensures Traced(InvalidateIfStale(s, current), h.(era := h.era + 1))
  {
    var t, k := InvalidateIfStale(s, current), h.(era := h.era + 1);
    forall e | e in t.executes ensures ExecuteTraced(t, k, e) {
      ExecuteCarriesOver(s, t, h, k, e);
    }
  }

  lemma InvalidateKeepsTrace(s: State, h: History, current: nat, step: nat)
    requires Traced(s, h)
    ensures Traced(InvalidateIfStale(s, current), TrackEvent(s, h, OpInvalidateIfStale(current), step))
  {
    if s.generation != current {
      StaleKeepsTrace(s, h, current);
    }
  }

  // ---- Installing plans -----------------------------------------------------

  /** A current portal plan is the right plan for an Execute that still runs the portal's binding. */
  lemma PortalPlanAnswersBinding(s: State, h: History, e: PendingExecute, plan: Plan)
    requires ExecuteTraced(s, h, e) && BoundByLastBind(s, h) && CountersOnRecord(s, h)
    requires e.bindGeneration == BindGeneration(s, e.name) && PortalOrigin(s, h, e.name, plan)
    ensures ExecuteOrigin(h, h.issues[e.order], plan)
  {
    var a :| a in h.answers && a.era == h.era && FromAnswer(s, h, a, e.name, plan);
    if a.target.Statement? {
      StampedExactly(plan, a.plan, FormatsOf(s, e.name));
    }
    assert AnswersBinding(h.issues[e.order], a, plan);
  }

  lemma FilledIsTraced(s: State, t: State, h: History, plans: map<Name, Plan>, e: PendingExecute)
    requires ExecuteTraced(s, h, e) && BoundByLastBind(s, h) && CountersOnRecord(s, h)
    requires forall p :: p in plans ==> PortalOrigin(s, h, p, plans[p])
    requires t.bindGenerations == s.bindGenerations && t.portalPlans == s.portalPlans + plans
    ensures ExecuteTraced(t, h, Filled(e, s.bindGenerations, plans))
  {
    var f := Filled(e, s.bindGenerations, plans);
    assert StillCurrent(h, e) ==> StillCurrent(h, f);
    if e.plan.None? && f.plan.Some? {
      PortalPlanAnswersBinding(s, h, e, plans[e.name]);
    }
  }

  lemma InstallKeepsExecutes(s: State, h: History, plans: map<Name, Plan>)
    requires ExecutesTraced(s, h) && BoundByLastBind(s, h) && CountersOnRecord(s, h)
    requires forall p :: p in plans ==> PortalOrigin(s, h, p, plans[p])
    ensures ExecutesTraced(Install(s, plans), h)
  {
    var t := Install(s, plans);
    forall e | e in t.executes ensures ExecuteTraced(t, h, e) {
      var i :| 0 <= i < |t.executes| && t.executes[i] == e;
      assert s.executes[i] in s.executes;
      FilledIsTraced(s, t, h, plans, s.executes[i]);
    }
  }

  lemma InstallKeepsCaches(s: State, h: History, plans: map<Name, Plan>)
    requires CachedPlansAreCurrent(s, h)
    requires forall p :: p in plans ==> PortalOrigin(s, h, p, plans[p])
    ensures CachedPlansAreCurrent(Install(s, plans), h)
  {
  }

  lemma InstallKeepsTrace(s: State, h: History, plans: map<Name, Plan>)
    requires Traced(s, h)
    requires forall p :: p in plans ==> PortalOrigin(s, h, p, plans[p])
    ensures Traced(Install(s, plans), h)
  {
    InstallKeepsCaches(s, h, plans);
    InstallKeepsExecutes(s, h, plans);
  }

  // ---- Parse and Close ------------------------------------------------------

  lemma NewTextKeepsRecords(s: State, h: History, name: Name, step: nat)
    requires BoundByLastBind(s, h) && BoundTo(s, name) == {}
    ensures BoundByLastBind(s, h.(texts := h.texts[name := step]))
  {
    forall p | p in s.portalStatement ensures s.portalStatement[p] != name {
      assert p in BoundTo(s, name) || s.portalStatement[p] != name;
    }
  }

  /** The end of a text, once nothing derived from it is left. */
  lemma NewTextKeepsTrace(s: State, h: History, name: Name, step: nat)
    requires Traced(s, h) && name !in s.statementPlans && BoundTo(s, name) == {}
    ensures Traced(s, h.(texts := h.texts[name := step]))
  {
    var k := h.(texts := h.texts[name := step]);
    NewTextKeepsRecords(s, h, name, step);
    assert KeepsNames(s, h, k);
    CachesCarryOver(s, s, h, k);
    forall e | e in s.executes ensures ExecuteTraced(s, k, e) {
      ExecuteCarriesOver(s, s, h, k, e);
    }
  }

  lemma CloseKeepsTrace(s: State, h: History, target: Target, step: nat)
    requires Traced(s, h)
    ensures Traced(Close(s, target), TrackClose(h, target, step))
  {
    CloseForgets(s, target);
    ForgettingKeepsTrace(s, Close(s, target), h);
    if target.Statement? {
      NewTextKeepsTrace(Close(s, target), h, target.name, step);
    }
  }

  /** The history of a text change: the text, and the counters it resets. */
  function NewText(s: State, h: History, name: Name, step: nat): History
  {
    h.(resets := h.resets + map p | p in BoundTo(s, name) :: step, texts := h.texts[name := step])
  }

  lemma ForgetTextKeepsCounters(s: State, h: History, name: Name, step: nat)
    requires CountersOnRecord(s, h) && forall p :: p in h.lastBind ==> h.lastBind[p].step < step
    ensures CountersOnRecord(ForgetText(s, name), NewText(s, h, name, step))
  {
  }

  lemma ForgetTextKeepsRecords(s: State, h: History, name: Name, step: nat)
    requires BoundByLastBind(s, h)
    requires forall p :: p in h.lastBind ==> h.lastBind[p].step < step
    ensures BoundByLastBind(ForgetText(s, name), NewText(s, h, name, step))
  {
    var t, k := ForgetText(s, name), NewText(s, h, name, step);
    forall p | p in t.portalStatement && p !in t.bindGenerations
      ensures Later(Get(k.texts, t.portalStatement[p]), k.lastBind[p].step)
    {
      if s.portalStatement[p] != name {
        assert p !in s.bindGenerations;
      }
    }
  }

  lemma ForgetTextKeepsBindings(s: State, name: Name)
    ensures KeepsBindings(s, ForgetText(s, name))
  {
  }

  lemma ForgetTextKeepsExecutes(s: State, h: History, name: Name, step: nat)
    requires ExecutesTraced(s, h)
    ensures ExecutesTraced(ForgetText(s, name), NewText(s, h, name, step))
  {
    var t, k := ForgetText(s, name), NewText(s, h, name, step);
    forall e | e in t.executes ensures ExecuteTraced(t, k, e) {
      ExecuteCarriesOver(s, t, h, k, e);
    }
  }

  /** A statement's plans, its portals' plans and counters go, and the change is recorded. */
  lemma ForgetTextKeepsTrace(s: State, h: History, name: Name, step: nat)
    requires Traced(s, h) && forall p :: p in h.lastBind ==> h.lastBind[p].step < step
    ensures Traced(ForgetText(s, name), NewText(s, h, name, step))
  {
    var t, k := ForgetText(s, name), NewText(s, h, name, step);
    ForgetTextKeepsBindings(s, name);
    ForgetTextKeepsCounters(s, h, name, step);
    ForgetTextKeepsRecords(s, h, name, step);
    ForgetTextKeepsExecutes(s, h, name, step);
    assert KeepsNames(t, h, k);
    CachesCarryOver(s, t, h, k);
  }

  lemma ReparseKeepsTrace(s: State, base: State, k: History, name: Name, sql: Sql)
    requires base == ForgetText(s, name) && ChangesText(s, name, sql) && Traced(base, k)
    ensures Traced(Parse(s, name, sql), k)
  {
    TailSurvives(base.executes, base.executes);
    SameCacheForgets(base, Parse(s, name, sql));
    ForgettingKeepsTrace(base, Parse(s, name, sql), k);
  }

  lemma ParseKeepsTrace(s: State, h: History, name: Name, sql: Sql, step: nat)
    requires Traced(s, h) && forall p :: p in h.lastBind ==> h.lastBind[p].step < step
    ensures Traced(Parse(s, name, sql), TrackParse(s, h, name, sql, step))
  {
    if ChangesText(s, name, sql) {
      ForgetTextKeepsTrace(s, h, name, step);
      ReparseKeepsTrace(s, ForgetText(s, name), NewText(s, h, name, step), name, sql);
    } else {
      SameTextKeepsTrace(s, h, name, sql);
    }
  }

  lemma SameTextKeepsTrace(s: State, h: History, name: Name, sql: Sql)
    requires Traced(s, h) && !ChangesText(s, name, sql)
    ensures Traced(Parse(s, name, sql), h)
  {
    TailSurvives(s.executes, s.executes);
    SameCacheForgets(s, Parse(s, name, sql));
    ForgettingKeepsTrace(s, Parse(s, name, sql), h);
  }

  // ---- Bind -----------------------------------------------------------------

  /** The new binding before it has a plan. */
  function Bare(s: State, portal: Name, statement: Name, formats: Formats): State
  {
    Rebound(s, portal, statement, formats).(portalPlans := s.portalPlans - {portal})
  }

  lemma RebindKeepsBindings(s: State, portal: Name, statement: Name, formats: Formats)
    ensures KeepsBindings(s, Bare(s, portal, statement, formats))
  {
  }

  lemma RebindKeepsCounters(s: State, h: History, portal: Name, statement: Name, formats: Formats, step: nat)
    requires CountersOnRecord(s, h) && forall p :: p in h.resets ==> h.resets[p] < step
    ensures CountersOnRecord(Bare(s, portal, statement, formats), TrackBind(h, portal, statement, formats, step))
  {
  }

  /** Whatever the counter, a Bind is on record as the last one. */
  lemma BindIsOnRecord(
    s: State, t: State, h: History, portal: Name, statement: Name, formats: Formats, counter: nat, step: nat)
    requires BoundByLastBind(s, h)
    requires t.portalStatement == s.portalStatement[portal := statement]
    requires t.portalFormats == s.portalFormats[portal := formats]
    requires t.bindGenerations == s.bindGenerations[portal := counter]
    ensures BoundByLastBind(t, TrackBind(h, portal, statement, formats, step))
  {
  }

  lemma RebindKeepsRecords(s: State, h: History, portal: Name, statement: Name, formats: Formats, step: nat)
    requires BoundByLastBind(s, h)
    ensures BoundByLastBind(Bare(s, portal, statement, formats), TrackBind(h, portal, statement, formats, step))
  {
    var t := Bare(s, portal, statement, formats);
    BindIsOnRecord(s, t, h, portal, statement, formats, BumpedGeneration(s, portal), step);
  }

  /** No queued Execute of the name looks current any more. */
  lemma RebindKeepsExecutes(
    s: State, h: History, portal: Name, statement: Name, formats: Formats, step: nat, n: nat)
    requires forall p :: p in h.lastBind ==> h.lastBind[p].step < step
    requires ExecutesTraced(s, h) && Counted(s, n) && n < U64_MAX
    ensures ExecutesTraced(Bare(s, portal, statement, formats), TrackBind(h, portal, statement, formats, step))
  {
    var t, k := Bare(s, portal, statement, formats), TrackBind(h, portal, statement, formats, step);
    FreeFromIsFree(s.executes, portal, Inc(BindGeneration(s, portal)), n);
    forall e | e in t.executes ensures ExecuteTraced(t, k, e) {
      if e.name != portal {
        ExecuteCarriesOver(s, t, h, k, e);
      } else {
        assert e.bindGeneration != BindGeneration(t, portal);
      }
    }
  }

  lemma RebindKeepsTrace(s: State, h: History, portal: Name, statement: Name, formats: Formats, step: nat, n: nat)
    requires forall p :: p in h.lastBind ==> h.lastBind[p].step < step
    requires Traced(s, h) && Counted(s, n) && n < U64_MAX
    requires forall p :: p in h.resets ==> h.resets[p] < step
    ensures Traced(Bare(s, portal, statement, formats), TrackBind(h, portal, statement, formats, step))
  {
    var t, k := Bare(s, portal, statement, formats), TrackBind(h, portal, statement, formats, step);
    RebindKeepsBindings(s, portal, statement, formats);
    RebindKeepsCounters(s, h, portal, statement, formats, step);
    RebindKeepsRecords(s, h, portal, statement, formats, step);
    RebindKeepsExecutes(s, h, portal, statement, formats, step, n);
    assert KeepsNames(t, h, k);
    CachesCarryOver(s, t, h, k);
  }

  /** The statement's plan, stamped, is the new binding's plan. */
  lemma StatementPlanFitsTheBinding(
    s: State, h: History, portal: Name, statement: Name, formats: Formats, step: nat)
    requires CachedPlansAreCurrent(s, h) && statement in s.statementPlans
    ensures PortalOrigin(Bare(s, portal, statement, formats), TrackBind(h, portal, statement, formats, step),
                         portal, Stamp(s.statementPlans[statement], formats))
  {
    var t, k := Bare(s, portal, statement, formats), TrackBind(h, portal, statement, formats, step);
    assert StatementOrigin(h, statement, s.statementPlans[statement]);
    var a :| a in h.answers && a.era == h.era && a.target == Statement(statement)
             && a.plan == s.statementPlans[statement] && a.answeredUnder == Get(h.texts, statement);
    assert FromAnswer(t, k, a, portal, Stamp(a.plan, formats));
  }

  lemma BindKeepsTrace(s: State, h: History, portal: Name, statement: Name, formats: Formats, step: nat, n: nat)
    requires forall p :: p in h.lastBind ==> h.lastBind[p].step < step
    requires Traced(s, h) && Counted(s, n) && n < U64_MAX
    requires forall p :: p in h.resets ==> h.resets[p] < step
    ensures Traced(Bind(s, portal, statement, formats), TrackBind(h, portal, statement, formats, step))
  {
    RebindKeepsTrace(s, h, portal, statement, formats, step, n);
    if statement in s.statementPlans {
      StatementPlanFitsTheBinding(s, h, portal, statement, formats, step);
      PlannedBindKeepsTrace(Rebound(s, portal, statement, formats), TrackBind(h, portal, statement, formats, step),
                            portal, Stamp(s.statementPlans[statement], formats));
    }
  }

  lemma PlannedBindKeepsTrace(base: State, k: History, portal: Name, plan: Plan)
    requires var bare := base.(portalPlans := base.portalPlans - {portal});
             Traced(bare, k) && PortalOrigin(bare, k, portal, plan)
    ensures Traced(Install(base, map[portal := plan]), k)
  {
    InstallKeepsTrace(base.(portalPlans := base.portalPlans - {portal}), k, map[portal := plan]);
    InstallIgnoresOldPlan(base, portal, plan);
  }

  lemma InstallIgnoresOldPlan(s: State, portal: Name, plan: Plan)
    ensures Install(s, map[portal := plan])
         == Install(s.(portalPlans := s.portalPlans - {portal}), map[portal := plan])
  {
  }

  // ---- Execute --------------------------------------------------------------

  lemma OpenKeepsCaches(s: State, h: History, portal: Name, k: History)
    requires CachedPlansAreCurrent(s, h) && !IsResume(s, portal)
    requires k.answers == h.answers && k.era == h.era && k.texts == h.texts && k.lastBind == h.lastBind
    ensures CachedPlansAreCurrent(Execute(s, portal), k)
  {
    assert KeepsBindings(s, Execute(s, portal));
    CachesCarryOver(s, Execute(s, portal), h, k);
  }

  lemma OpenedQueue(s: State, portal: Name)
    requires !IsResume(s, portal)
    ensures forall e :: e in Execute(s, portal).executes ==> e == NewExecute(s, portal) || e in s.executes
  {
  }

  /** The Execute just issued: current by construction, and its snapshot has the portal plan's origin. */
  lemma OpenedExecute(s: State, h: History, portal: Name, step: nat)
    requires NamesTraced(s, h) && !IsResume(s, portal)
    requires forall p :: p in h.resets ==> h.resets[p] < step
    ensures ExecuteTraced(s, TrackExecute(s, h, portal, step), NewExecute(s, portal))
  {
    var k, e := TrackExecute(s, h, portal, step), NewExecute(s, portal);
    if e.plan.Some? {
      assert PortalOrigin(s, h, portal, s.portalPlans[portal]);
      var a :| a in h.answers && a.era == h.era && FromAnswer(s, h, a, portal, e.plan.value);
      if a.target.Statement? {
        StampedExactly(e.plan.value, a.plan, FormatsOf(s, portal));
      }
      assert a in k.answers && AnswersBinding(k.issues[e.order], a, e.plan.value);
    }
  }

  lemma OpenKeepsTrace(s: State, h: History, portal: Name, step: nat, n: nat)
    requires Traced(s, h) && Counted(s, n) && n < U64_MAX && !IsResume(s, portal)
    requires forall p :: p in h.resets ==> h.resets[p] < step
    ensures Traced(Execute(s, portal), TrackExecute(s, h, portal, step))
  {
    var t, k := Execute(s, portal), TrackExecute(s, h, portal, step);
    OpenKeepsCaches(s, h, portal, k);
    OpenedQueue(s, portal);
    OpenedExecute(s, h, portal, step);
    forall e | e in t.executes ensures ExecuteTraced(t, k, e) {
      if e != NewExecute(s, portal) {
        ExecuteCarriesOver(s, t, h, k, e);
      }
    }
  }

  // ---- BindComplete ---------------------------------------------------------

  lemma BindCompletePlansHaveOrigin(s: State, h: History, portal: Name)
    requires CachedPlansAreCurrent(s, h) && BoundByLastBind(s, h)
    ensures forall p :: p in BindCompletePlans(s, portal) ==> PortalOrigin(s, h, p, BindCompletePlans(s, portal)[p])
  {
  }

  lemma FinishBindKeepsTrace(s: State, h: History)
    requires Traced(s, h)
    ensures Traced(FinishBind(s), h)
  {
    if s.binds != [] {
      var portal := s.binds[0].name;
      var plans := BindCompletePlans(s, portal);
      BindCompletePlansHaveOrigin(s, h, portal);
      InstallKeepsTrace(s, h, plans);
      FinishBindAddsNothing(s);
      ForgettingKeepsTrace(Install(s, plans), FinishBind(s), h);
    }
  }

  lemma FinishBindAddsNothing(s: State)
    requires s.binds != []
    ensures Forgets(Install(s, BindCompletePlans(s, s.binds[0].name)), FinishBind(s))
  {
  }

  // ---- RowDescription -------------------------------------------------------

  lemma MoreAnswersKeepTrace(s: State, h: History, a0: Answer)
    requires Traced(s, h)
    ensures Traced(s, h.(answers := h.answers + {a0}))
  {
    var k := h.(answers := h.answers + {a0});
    CachesCarryOver(s, s, h, k);
    forall e | e in s.executes ensures ExecuteTraced(s, k, e) {
      ExecuteCarriesOver(s, s, h, k, e);
    }
  }

  lemma CacheStatementKeepsTrace(s: State, h: History, name: Name, plan: Plan)
    requires Traced(s, h) && StatementOrigin(h, name, plan)
    ensures Traced(s.(statementPlans := s.statementPlans[name := plan]), h)
  {
    var t := s.(statementPlans := s.statementPlans[name := plan]);
    forall p | p in t.portalPlans ensures PortalOrigin(t, h, p, t.portalPlans[p]) {
      var a :| a in h.answers && a.era == h.era && FromAnswer(s, h, a, p, s.portalPlans[p]);
      assert FromAnswer(t, h, a, p, t.portalPlans[p]);
    }
    forall e | e in t.executes ensures ExecuteTraced(t, h, e) {
      assert ExecuteTraced(s, h, e);
    }
  }

  /** Taking the answer, before a statement's plan is cached. */
  lemma UncachedAnswerKeepsTrace(s: State, h: History, plan: Plan)
    requires Traced(s, h) && s.descriptions != []
    ensures Traced(Taken(s, plan).(statementPlans := s.statementPlans), h)
  {
    UncachedAnswerForgets(s, plan);
    ForgettingKeepsTrace(s, Taken(s, plan).(statementPlans := s.statementPlans), h);
  }

  lemma UncachedAnswerForgets(s: State, plan: Plan)
    requires s.descriptions != []
    ensures Forgets(s, Taken(s, plan).(statementPlans := s.statementPlans))
  {
    TailSurvives(s.executes, s.executes);
    SameCacheForgets(s, Taken(s, plan).(statementPlans := s.statementPlans));
  }

  lemma TakenKeepsTrace(s: State, h: History, plan: Plan, step: nat)
    requires Traced(s, h) && s.descriptions != []
    ensures Traced(Taken(s, plan), TrackDescription(s, h, plan, step))
  {
    var head := s.descriptions[0];
    var bare := Taken(s, plan).(statementPlans := s.statementPlans);
    UncachedAnswerKeepsTrace(s, h, plan);
    if head.Describe? {
      var a0 := NewAnswer(h, head.target, plan, step);
      var k := TrackDescription(s, h, plan, step);
      MoreAnswersKeepTrace(bare, h, a0);
      if head.target.Statement? {
        assert a0 in k.answers && a0.era == k.era;
        assert StatementOrigin(k, head.target.name, plan);
        CacheStatementKeepsTrace(bare, k, head.target.name, plan);
      }
    }
  }

  /** The answer just recorded is the origin of every plan the description supplies. */
  lemma DescribedPlansHaveOrigin(s: State, h: History, t: State, plan: Plan, step: nat)
    requires DescribeIsNext(s) && BoundByLastBind(s, h) && t == Taken(s, plan)
    ensures var plans := DescribedPlans(s, s.descriptions[0].target, plan);
            forall p :: p in plans ==> PortalOrigin(t, TrackDescription(s, h, plan, step), p, plans[p])
  {
    var target, k := s.descriptions[0].target, TrackDescription(s, h, plan, step);
    var a0, plans := NewAnswer(h, target, plan, step), DescribedPlans(s, target, plan);
    forall p | p in plans ensures PortalOrigin(t, k, p, plans[p]) {
      assert a0 in k.answers && a0.era == k.era && FromAnswer(t, k, a0, p, plans[p]);
    }
  }

  lemma FinishDescriptionKeepsTrace(s: State, h: History, plan: Plan, step: nat)
    requires Traced(s, h)
    ensures Traced(FinishDescription(s, plan), TrackDescription(s, h, plan, step))
  {
    if s.descriptions != [] {
      TakenKeepsTrace(s, h, plan, step);
      if s.descriptions[0].Describe? {
        DescribedPlansHaveOrigin(s, h, Taken(s, plan), plan, step);
        InstallKeepsTrace(Taken(s, plan), TrackDescription(s, h, plan, step),
                          DescribedPlans(s, s.descriptions[0].target, plan));
      }
    }
  }

  /** The queue of pending descriptions plays no part in the invariant. */
  lemma QueueDoesNotMatter(s: State, h: History, asked: seq<Asked>)
    requires Traced(s, h)
    ensures Traced(s, h.(asked := asked))
  {
    var k := h.(asked := asked);
    CachesCarryOver(s, s, h, k);
    forall e | e in s.executes ensures ExecuteTraced(s, k, e) {
      ExecuteCarriesOver(s, s, h, k, e);
    }
  }
}
