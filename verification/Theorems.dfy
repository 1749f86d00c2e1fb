// What the protocol promises over every behaviour.
module Theorems {
  import opened Sources
  import opened StatusRules
  import opened Protocol
  import opened Conservation

  // ---- Hooks are conserved ----

  // Seen from the latest version, a key excused earlier costs the changes since.
  lemma StoredExcused(h: seq<Source>, live: set<HookKey>, i: nat, id: Option<int>)
    requires i < |h|
    ensures |live - KeyOf(h[|h| - 1].spec.projectURL, id)| + Moves(h, i)
         <= |live - KeyOf(h[i].spec.projectURL, id)| + Moves(h, |h| - 1)
  {
    MovesBetween(h, i, |h| - 1);
    SwapExcused(live, h[i].spec.projectURL, h[|h| - 1].spec.projectURL, id);
  }

  // What the account says of the hooks the latest version does not name.
  lemma UnrecordedIdle(s: State)
    requires Hooks(s) && s.run.None?
    ensures |Live(s) - KeyOf(Last(s).spec.projectURL, Last(s).status.webhookID)| <= Budget(s)
  {
    StoredExcused(s.history, Live(s), s.cache, Last(s).status.webhookID);
  }

  lemma UnrecordedFresh(s: State)
    requires Running(s) && Hooks(s) && Excused(s) == KeyOf(Copy(s).spec.projectURL, Last(s).status.webhookID)
    ensures |Live(s) - KeyOf(Last(s).spec.projectURL, Last(s).status.webhookID)| <= Budget(s)
  {
    StoredExcused(s.history, Live(s), s.run.value.base, Last(s).status.webhookID);
  }

  lemma UnrecordedOther(s: State)
    requires Running(s) && Hooks(s) && Excused(s) != KeyOf(Copy(s).spec.projectURL, Last(s).status.webhookID)
    ensures |Live(s) - Pending(s)| <= Budget(s)
  {
    MovesBetween(s.history, s.run.value.base, |s.history| - 1);
    if s.run.value.added.None? {
      assert Live(s) - Excused(s) == Live(s);
      CardinalityLeq(Live(s) - Pending(s), Live(s));
    }
  }

  lemma OrphansWithin(s: State)
    requires WellFormed(s)
    ensures |Orphans(s)| <= |Live(s) - Pending(s)|
    ensures !s.gone ==> |Orphans(s)| <= |Live(s) - KeyOf(Last(s).spec.projectURL, Last(s).status.webhookID)|
    ensures |Orphans(s)| <= |Live(s)|
  {
    CardinalityLeq(Orphans(s), Live(s));
    CardinalityLeq(Orphans(s), Live(s) - Pending(s));
    if !s.gone { CardinalityLeq(Orphans(s), Live(s) - KeyOf(Last(s).spec.projectURL, Last(s).status.webhookID)); }
  }

  lemma GoneCounted(s: State)
    requires Hooks(s) && s.gone
    ensures |Live(s)| <= Budget(s)
  {
    MovesBetween(s.history, if s.run.Some? then s.run.value.base else s.cache, |s.history| - 1);
  }

  lemma OrphansCounted(s: State)
    requires Hooks(s)
    ensures |Orphans(s)| <= Budget(s)
  {
    OrphansWithin(s);
    if s.gone {
      GoneCounted(s);
    } else if s.run.None? {
      UnrecordedIdle(s);
    } else if Excused(s) == KeyOf(Copy(s).spec.projectURL, Last(s).status.webhookID) {
      UnrecordedFresh(s);
    } else {
      UnrecordedOther(s);
    }
  }

  // Hooks of ours that exist, are not the recorded one and are not about to be
  // recorded never outnumber the status writes that lost an added hook, the
  // replies lost, the runs from a stale copy, the project URL changes (with
  // those a restarted lister went back over) and the finalizations that gave up.
  lemma HooksConserved(s: State)
    requires Reachable(s)
    ensures |Orphans(s)| <= Losses(s.tally) + Moves(s.history, |s.history| - 1)
  {
    InvReachable(s);
    OrphansCounted(s);
  }

  // When nothing of the kind ever happened there is at most one hook: the recorded one.
  lemma OneRecordedHook(s: State)
    requires Reachable(s) && s.run.None?
    requires Losses(s.tally) == 0 && Moves(s.history, |s.history| - 1) == 0
    ensures Live(s) <= Recorded(s) && |Live(s)| <= 1
  {
    HooksConserved(s);
    assert Orphans(s) == {};
    CardinalityLeq(Live(s), Recorded(s));
  }

  // ---- No hook outlives its source ----

  // Once the object is gone, no hook of ours is left beyond the counted losses;
  // without losses none is.
  lemma NoHookOutlivesSource(s: State)
    requires Reachable(s) && s.gone
    ensures |Live(s)| <= Losses(s.tally) + Moves(s.history, |s.history| - 1)
    ensures Losses(s.tally) == 0 && Moves(s.history, |s.history| - 1) == 0 ==> Live(s) == {}
  {
    InvReachable(s);
    GoneCounted(s);
  }

  // A run that began from the current version only adds a hook while the
  // stored object waits for the finalizer.
  lemma AddsUnderFinalizer(s: State, id: int, hook: Hook, replied: bool)
    requires Reachable(s) && Running(s) && !s.run.value.stale
    requires ControllerEnabled(s, AddHook(id, hook, replied))
    ensures !s.gone && s.finalizer in Last(s).finalizers
  {
    InvReachable(s);
  }

  // ---- Who may remove the finalizer ----

  predicate Held(s: State) {
    s.history != [] && !s.gone && s.finalizer in Last(s).finalizers
  }

  lemma HeldByWorld(s: State, w: WorldStep)
    requires WellFormed(s) && Held(s) && WorldEnabled(s, w)
    ensures Held(WorldApply(s, w))
  {
  }

  lemma HeldByController(s: State, c: ControllerStep)
    requires Running(s) && RunOk(s) && Held(s) && ControllerEnabled(s, c)
    requires !Held(ControllerApply(s, c))
    ensures c.PatchFinalizers? && !s.run.value.stale && Copy(s) == Last(s) && Last(s).deleting && Settled(s)
  {
  }

  lemma RemovalStep(s: State, a: Action)
    requires Hooks(s) && Enabled(s, a) && Held(s) && !Held(Apply(s, a))
    ensures a.Controller? && a.step.PatchFinalizers? && Running(s)
    ensures !s.run.value.stale && Copy(s) == Last(s) && Last(s).deleting && Settled(s)
  {
    hide WorldEnabled, WorldApply, ControllerEnabled, ControllerApply, RunOk, Accounted;
    match a
    case World(w) => HeldByWorld(s, w);
    case Controller(c) => HeldByController(s, c);
    case _ =>
  }

  // Finalization only gives up once the token's Secret was reported missing or access to it denied.
  lemma GivesUpOnlyDenied(s: State)
    requires Reachable(s) && Running(s) && s.run.value.ignored
    ensures Copy(s).deleting && (Some(404) in s.run.value.unread || Some(401) in s.run.value.unread)
  {
    InvReachable(s);
  }

  // Every removal was decided on the current object, marked for deletion, by a
  // run that had deleted the recorded hook, if any, or could not for want of a
  // Secret or of access; a run from a stale copy never removes it.
  lemma FinalizerRemoval(s: State, a: Action)
    requires Reachable(s) && Enabled(s, a) && Held(s)
    ensures !Held(Apply(s, a)) ==>
      && a.Controller? && a.step.PatchFinalizers? && Running(s)
      && !s.run.value.stale && Copy(s) == Last(s) && Last(s).deleting
      && (|| Last(s).status.webhookID.None?
          || s.run.value.removed
          || Some(404) in s.run.value.unread || Some(401) in s.run.value.unread)
  {
    hide Apply, Enabled;
    InvReachable(s);
    if !Held(Apply(s, a)) { RemovalStep(s, a); }
  }

  // ---- Status writes ----

  // A status write replaces the status of the current version and nothing
  // else, although it submits the whole object as it was read.
  lemma StatusWriteKeepsTheRest(s: State, o: Source)
    requires Running(s) && ControllerEnabled(s, WriteStatus(o))
    ensures Last(ControllerApply(s, WriteStatus(o)))
         == Last(s).(status := o.status, version := Last(s).version + 1)
  {
  }

  // Every status stored while the object was not being deleted tells the truth.
  lemma StatusesTruthful(s: State, i: nat)
    requires Reachable(s) && i < |s.history| && !s.history[i].deleting
    ensures Truthful(s.history[i].status)
  {
    InvReachable(s);
  }

  // ---- The adapter ----

  // A source never controls two Services, and creates one more only for each
  // one that others removed.
  lemma OneAdapter(s: State)
    requires Reachable(s)
    ensures Owned(s.services) <= 1
    ensures s.creates == Owned(s.services) + s.removals <= 1 + s.removals
  {
    InvReachable(s);
  }
}
