// With the vendored GitLab client a missing hook is never recognised, so a run
// only adds a hook when none is recorded. That bounds the hooks far more
// tightly than the protocol alone does.
module SingleHook {
  import opened Sources
  import opened Protocol
  import opened Conservation
  import opened Theorems

  // Events after which a run can add a hook although one of ours exists.
  function Slips(t: Tally): nat {
    t.lostWrites + t.lostReplies + t.staleRuns
  }

  // The slips, and one more if the project URL changed or finalization gave up.
  function Allowance(s: State): nat
    requires s.history != []
  {
    Slips(s.tally) + if Moves(s.history, |s.history| - 1) == 0 && s.tally.ignored == 0 then 0 else 1
  }

  // Nothing stops the controller from adding a first hook.
  predicate Vacant(s: State)
    requires s.history != []
  {
    !s.gone && !Last(s).deleting && Last(s).status.webhookID.None?
  }

  // The one hook allowed besides the slips: the recorded one, the one a run
  // has just added, or one left to an object that gets no further hook.
  function Slot(s: State): nat
    requires WellFormed(s)
  {
    if s.run.None? then (if Vacant(s) then 0 else 1)
    else
      var r := s.run.value;
      if r.added.Some? || (!r.stale && (Copy(s).deleting || NamesHook(s))) then 1 else 0
  }

  predicate Few(s: State) {
    && WellFormed(s)
    && (s.run.Some? ==> !s.run.value.missing)
    && |Live(s)| <= Slips(s.tally) + Slot(s)
  }

  lemma FewEdited(s: State, w: WorldStep)
    requires Few(s) && WorldEnabled(s, w) && (w.EditSpec? || w.MarkDeleted? || w.EditFinalizers?)
    ensures Few(WorldApply(s, w))
  {
    assert Live(WorldApply(s, w)) == Live(s);
  }

  lemma FewBystander(s: State, w: WorldStep)
    requires s.created <= s.issued && Few(s) && WorldEnabled(s, w)
    requires !w.EditSpec? && !w.MarkDeleted? && !w.EditFinalizers?
    ensures Few(WorldApply(s, w))
  {
    CardinalityLeq(Live(WorldApply(s, w)), Live(s));
  }

  lemma FewWorld(s: State, w: WorldStep)
    requires s.created <= s.issued && Few(s) && WorldEnabled(s, w)
    ensures Few(WorldApply(s, w))
  {
    hide Few, WorldEnabled, WorldApply;
    if w.EditSpec? || w.MarkDeleted? || w.EditFinalizers? {
      FewEdited(s, w);
    } else {
      FewBystander(s, w);
    }
  }

  lemma FewBegun(s: State)
    requires Few(s) && s.run.None?
    ensures Few(Begun(s))
  {
    assert Live(Begun(s)) == Live(s);
  }

  lemma FewFinish(s: State)
    requires Inv(s) && Few(s)
    ensures Few(Finish(s))
  {
    hide Accounted, Adapter;
    assert Live(Finish(s)) == Live(s);
  }

  lemma FewRestarted(s: State, to: nat)
    requires Few(s) && s.run.None? && to < |s.history|
    ensures Few(Restarted(s, to))
  {
    assert Live(Restarted(s, to)) == Live(s);
  }

  lemma FewAdded(s: State, id: int, hook: Hook, replied: bool)
    requires Running(s) && RunOk(s) && Few(s) && AddAllowed(s)
    ensures Few(Added(s, id, hook, replied))
  {
    var t, key := Added(s, id, hook, replied), NewHook(s, id);
    assert Live(t) <= Live(s) + {key};
    CardinalityLeq(Live(t), Live(s) + {key});
  }

  lemma FewPatched(s: State, fs: seq<string>, replied: bool)
    requires Running(s) && Few(s) && Current(s)
    ensures Few(Patched(s, fs, replied))
  {
    assert Live(Patched(s, fs, replied)) == Live(s);
  }

  lemma FewController(s: State, c: ControllerStep)
    requires Running(s) && s.sentinel && RunOk(s) && Few(s) && ControllerEnabled(s, c)
    ensures Few(ControllerApply(s, c))
  {
    if c.AddHook? {
      FewAdded(s, c.id, c.hook, c.replied);
    } else if c.PatchFinalizers? {
      FewPatched(s, c.finalizers, c.replied);
    } else {
      hide RunOk;
      CardinalityLeq(Live(ControllerApply(s, c)), Live(s));
    }
  }

  lemma FewStep(s: State, a: Action)
    requires Inv(s) && s.sentinel && Few(s) && Enabled(s, a)
    ensures Few(Apply(s, a))
  {
    hide Chronicle, Adapter, RunOk, Accounted, Slips, Slot;
    match a
    case World(w) => FewWorld(s, w);
    case Begin => FewBegun(s);
    case Controller(c) => FewController(s, c);
    case End => FewFinish(s);
    case Restart(to) => FewFinish(s); FewRestarted(Finish(s), to);
  }

  // ---- What a restarted lister went back over was a change ----

  predicate Remembered(s: State) {
    WellFormed(s) && (s.tally.forgotten > 0 ==> Moves(s.history, |s.history| - 1) > 0)
  }

  lemma RememberedGrown(s: State, t: State)
    requires Remembered(s) && WellFormed(t) && t.tally.forgotten == s.tally.forgotten
    requires t.history == s.history || t.history == s.history + [Last(t)]
    ensures Remembered(t)
  {
    MovesPrefix(s.history, Last(t), |s.history| - 1);
  }

  // From s to t at most one version was stored, and nothing was forgotten.
  predicate Forward(s: State, t: State) {
    && s.history != [] && WellFormed(t) && t.sentinel == s.sentinel && t.tally.forgotten == s.tally.forgotten
    && (t.history == s.history || t.history == s.history + [Last(t)])
  }

  lemma ForwardWorld(s: State, w: WorldStep)
    requires WellFormed(s) && WorldEnabled(s, w)
    ensures Forward(s, WorldApply(s, w))
  {
  }

  lemma ForwardController(s: State, c: ControllerStep)
    requires Running(s) && ControllerEnabled(s, c)
    ensures Forward(s, ControllerApply(s, c))
  {
    hide PatchAllowed, StatusAllowed, AddAllowed;
  }

  // An action stores at most one version.
  lemma HistoryStep(s: State, a: Action)
    requires Enabled(s, a)
    ensures WellFormed(Apply(s, a)) && Apply(s, a).sentinel == s.sentinel
    ensures !a.Restart? ==> Forward(s, Apply(s, a))
  {
    hide WorldEnabled, WorldApply, ControllerEnabled, ControllerApply;
    match a
    case World(w) => ForwardWorld(s, w);
    case Controller(c) => ForwardController(s, c);
    case _ =>
  }

  lemma RememberedRestarted(s: State, to: nat)
    requires Remembered(s) && to < |s.history|
    ensures Remembered(Restarted(s, to))
  {
    MovesBetween(s.history, s.cache, |s.history| - 1);
  }

  lemma RememberedStep(s: State, a: Action)
    requires Remembered(s) && Enabled(s, a)
    ensures Remembered(Apply(s, a))
  {
    hide Moves, Remembered;
    HistoryStep(s, a);
    if a.Restart? {
      RememberedGrown(s, Finish(s));
      RememberedRestarted(Finish(s), a.to);
    } else {
      hide Enabled, Apply;
      RememberedGrown(s, Apply(s, a));
    }
  }

  // ---- Every reachable state ----

  predicate Tight(s: State) {
    Inv(s) && Remembered(s) && (s.sentinel ==> Few(s))
  }

  lemma TightNext(s: State, t: State)
    requires Tight(s) && Next(s, t)
    ensures Tight(t)
  {
    hide Inv, Remembered, Few, Apply, Enabled;
    var a :| Enabled(s, a) && t == Apply(s, a);
    InvStep(s, a);
    RememberedStep(s, a);
    HistoryStep(s, a);
    if s.sentinel { FewStep(s, a); }
  }

  lemma TightInitial(s: State)
    requires Initial(s)
    ensures Tight(s)
  {
    hide Inv;
    InvInitial(s);
    assert Live(s) == {};
  }

  lemma TightReachable(s: State)
    requires Reachable(s)
    ensures Tight(s)
  {
    hide Tight, Initial;
    var trace :| Behaviour(trace) && Initial(trace[0]) && trace[|trace| - 1] == s;
    TightInitial(trace[0]);
    forall s, t | Tight(s) && Next(s, t) ensures Tight(t) { TightNext(s, t); }
    Invariance(trace, Tight, |trace| - 1);
  }

  // However often the URL changes, the lister goes back or finalization gives
  // up: the hooks of this source never outnumber the slips by more than one,
  // and not at all while none is recorded and another could be added.
  lemma FewHooks(s: State)
    requires Reachable(s) && s.sentinel
    ensures |Live(s)| <= Slips(s.tally) + 1
    ensures s.run.None? && Vacant(s) ==> |Live(s)| <= Slips(s.tally)
    ensures Slips(s.tally) == 0 ==> |Live(s)| <= 1
  {
    hide Inv;
    TightReachable(s);
  }

  // So the hooks without a record are the slips, and one more at most if the
  // project URL changed or finalization gave up.
  lemma HooksConservedTightly(s: State)
    requires Reachable(s) && s.sentinel
    ensures |Orphans(s)| <= Allowance(s)
  {
    hide Inv, Few, Orphans, Live;
    TightReachable(s);
    HooksConserved(s);
    OrphansWithin(s);
    FewHooks(s);
  }
}
