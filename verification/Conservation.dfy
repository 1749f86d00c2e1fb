// What every behaviour of the protocol keeps: hooks are accounted for,
// Services are unique, statuses are truthful.
module Conservation {
  import opened Sources
  import opened StatusRules
  import opened Protocol

  // Hooks of ours that still exist.
  function Live(s: State): set<HookKey> {
    s.created * s.hooks.Keys
  }

  function KeyOf(project: string, id: Option<int>): set<HookKey> {
    if id.Some? then {HookKey(project, id.value)} else {}
  }

  // The hook the stored object names.
  function Recorded(s: State): set<HookKey>
    requires s.history != []
  {
    if s.gone then {} else KeyOf(Last(s).spec.projectURL, Last(s).status.webhookID)
  }

  // The hook the current run has added and still has to record.
  function Pending(s: State): set<HookKey>
    requires WellFormed(s)
  {
    if s.run.Some? then KeyOf(Copy(s).spec.projectURL, s.run.value.added) else {}
  }

  function Orphans(s: State): set<HookKey>
    requires WellFormed(s)
  {
    Live(s) - Recorded(s) - Pending(s)
  }

  function Losses(t: Tally): nat {
    t.lostWrites + t.lostReplies + t.staleRuns + t.forgotten + t.ignored
  }

  // Everything that can have cost a hook its record.
  function Budget(s: State): nat
    requires s.history != []
  {
    Losses(s.tally) + Moves(s.history, |s.history| - 1)
  }

  // Nothing on the stored object makes it wait for this controller.
  predicate Detached(s: State)
    requires s.history != []
  {
    Loose(s.gone, Last(s).finalizers, s.finalizer)
  }

  predicate Loose(gone: bool, finalizers: seq<string>, name: string) {
    gone || name !in finalizers
  }

  // The one live hook that is excused from the count, seen from the version
  // the lister holds (between runs) or handed out (during one).
  function Excused(s: State): set<HookKey>
    requires WellFormed(s)
  {
    if s.run.None? then KeyOf(s.history[s.cache].spec.projectURL, Last(s).status.webhookID)
    else
      var r, copy := s.run.value, Copy(s);
      if r.added.Some? then KeyOf(copy.spec.projectURL, r.added)
      else if r.stale || r.attempted || r.ignored then {}
      else KeyOf(copy.spec.projectURL, copy.status.webhookID)
  }

  // Project URL changes count from when the controller can have seen them.
  function Seen(s: State): nat
    requires WellFormed(s)
  {
    Losses(s.tally) + Moves(s.history, if s.run.Some? then s.run.value.base else s.cache)
  }

  // A stale run that has not asked for a hook yet still has its loss to spend.
  function Unspent(s: State): nat {
    if s.run.Some? && s.run.value.stale && !s.run.value.attempted then 1 else 0
  }

  // The account on its own terms.
  predicate Covers(live: set<HookKey>, excused: set<HookKey>, detached: bool, unspent: nat, seen: nat) {
    && |live - excused| <= seen
    && (detached ==> |live| + unspent <= seen)
  }

  predicate Accounted(s: State) {
    WellFormed(s) && Covers(Live(s), Excused(s), Detached(s), Unspent(s), Seen(s))
  }

  predicate RunConsistent(s: State)
    requires WellFormed(s) && s.run.Some?
  {
    var r, copy, last := s.run.value, Copy(s), Last(s);
    && r.base <= s.cache
    && r.base <= r.version
    && s.history[r.base].spec == copy.spec
    && (r.stale ==> r.base == r.version && (s.gone || r.version < |s.history| - 1))
    && (r.added.Some? ==> r.attempted && r.added.value >= 0)
    && (r.attempted ==> !copy.deleting && s.finalizer in copy.finalizers)
    && (r.ignored || r.removed ==> copy.deleting)
    && (r.ignored ==> Hopeless(s))
    // The recorded hook, once found missing or deleted, stays so until a hook is added.
    && ((r.removed || (r.missing && !r.attempted)) && copy.status.webhookID.Some? ==>
          HookKey(copy.spec.projectURL, copy.status.webhookID.value) !in Live(s))
    // Until it writes the status, a run from the current copy sees the recorded id.
    && (!r.stale ==>
          || (r.added.None? && last.status.webhookID == copy.status.webhookID)
          || (r.added.Some? && (last.status.webhookID == copy.status.webhookID || last.status.webhookID == r.added))
          || (r.removed && last.status.webhookID.None?))
    // While a fresh run may add hooks, the finalizer holds the object.
    && (!r.stale && !copy.deleting && s.finalizer in copy.finalizers ==> !Detached(s))
  }

  predicate RunOk(s: State) {
    WellFormed(s) && (s.run.Some? ==> RunConsistent(s))
  }

  // Versions are numbered in order, deletion is never undone, statuses are truthful.
  predicate Chronicle(h: seq<Source>) {
    && h != []
    && (forall i :: 0 <= i < |h| ==> h[i].version == i)
    && (forall i :: 0 <= i < |h| && h[i].deleting ==> h[|h| - 1].deleting)
    && (forall i :: 0 <= i < |h| && !h[i].deleting ==> Truthful(h[i].status))
  }

  // At most one owned Service; each one created is still there or was removed by others.
  predicate Adapter(s: State) {
    && Owned(s.services) <= 1 && s.creates == Owned(s.services) + s.removals
    && (s.run.Some? && s.run.value.vacant ==> Owned(s.services) == 0)
  }

  predicate Hooks(s: State) {
    && WellFormed(s)
    && s.created <= s.issued && s.hooks.Keys <= s.issued
    && RunOk(s)
    && Accounted(s)
  }

  predicate Inv(s: State) {
    && Chronicle(s.history)
    && Adapter(s)
    && Hooks(s)
  }

  // ---- Counting project URL changes ----

  lemma {:induction false} MovesPrefix(h: seq<Source>, o: Source, i: nat)
    requires i < |h|
    ensures Moves(h + [o], i) == Moves(h, i)
  {
    if i > 0 { MovesPrefix(h, o, i - 1); }
  }

  // A change of URL between two versions has been counted in between.
  lemma {:induction false} MovesBetween(h: seq<Source>, i: nat, j: nat)
    requires i <= j < |h|
    ensures Moves(h, i) + (if h[i].spec.projectURL != h[j].spec.projectURL then 1 else 0) <= Moves(h, j)
  {
    if i < j { MovesBetween(h, i, j - 1); }
  }

  // ---- Small facts on sets ----

  lemma CardinalityLeq(a: set<HookKey>, b: set<HookKey>)
    requires a <= b
    ensures |a| <= |b|
  {
    assert b == a + (b - a);
  }

  // Excusing another key instead costs at most one; the same key costs nothing.
  lemma SwapExcused(live: set<HookKey>, p: string, q: string, id: Option<int>)
    ensures |live - KeyOf(q, id)| <= |live - KeyOf(p, id)| + (if p != q then 1 else 0)
    ensures |live| <= |live - KeyOf(p, id)| + 1
  {
    var a := live - KeyOf(p, id);
    assert live <= a + KeyOf(p, id);
    CardinalityLeq(live, a + KeyOf(p, id));
    CardinalityLeq(live - KeyOf(q, id), live);
  }

  // ---- The invariant, part by part and action by action ----

  lemma InvInitial(s: State)
    requires Initial(s)
    ensures Inv(s)
  {
    assert Live(s) == {};
  }

  lemma ChronicleAppend(h: seq<Source>, o: Source)
    requires Chronicle(h)
    requires h[|h| - 1].deleting ==> o.deleting
    requires !o.deleting ==> Truthful(o.status)
    ensures Chronicle(h + [o.(version := |h|)])
  {
  }

  lemma ChronicleWorld(s: State, w: WorldStep)
    requires WellFormed(s) && Chronicle(s.history) && WorldEnabled(s, w)
    ensures Chronicle(WorldApply(s, w).history)
  {
    hide Truthful;
    if w.EditSpec? || w.MarkDeleted? || w.EditFinalizers? { ChronicleAppend(s.history, Edited(Last(s), w)); }
  }

  lemma ChronicleController(s: State, c: ControllerStep)
    requires Running(s) && Chronicle(s.history) && ControllerEnabled(s, c)
    ensures Chronicle(ControllerApply(s, c).history)
  {
    hide Truthful;
    if c.PatchFinalizers? {
      ChronicleAppend(s.history, Last(s).(finalizers := c.finalizers));
    } else if c.WriteStatus? {
      ChronicleAppend(s.history, c.submitted);
    }
  }

  lemma ChronicleStep(s: State, a: Action)
    requires WellFormed(s) && Chronicle(s.history) && Enabled(s, a)
    ensures Chronicle(Apply(s, a).history)
  {
    hide Chronicle;
    match a
    case World(w) => ChronicleWorld(s, w);
    case Controller(c) => ChronicleController(s, c);
    case _ =>
  }

  lemma OwnedUpdate(services: seq<Service>, i: nat, svc: Service)
    requires i < |services| && svc.controlled == services[i].controlled
    ensures Owned(services[i := svc]) == Owned(services)
  {
    var u, init := services[i := svc], services[..|services| - 1];
    if i < |init| {
      OwnedUpdate(init, i, svc);
      assert u[..|init|] == init[i := svc];
    } else {
      assert u[..|init|] == init;
    }
  }

  lemma OwnedAppend(services: seq<Service>, svc: Service)
    ensures Owned(services + [svc]) == Owned(services) + (if svc.controlled then 1 else 0)
  {
    assert (services + [svc])[..|services|] == services;
  }

  lemma {:induction false} OwnedRemove(services: seq<Service>, i: nat)
    requires i < |services|
    ensures Owned(services[..i] + services[i + 1..]) + (if services[i].controlled then 1 else 0) == Owned(services)
  {
    var init, last := services[..|services| - 1], services[|services| - 1];
    if i < |init| {
      OwnedRemove(init, i);
      OwnedAppend(init[..i] + init[i + 1..], last);
      assert services[..i] + services[i + 1..] == init[..i] + init[i + 1..] + [last];
    } else {
      assert services[..i] + services[i + 1..] == init;
    }
  }

  lemma AdapterWorld(s: State, w: WorldStep)
    requires WellFormed(s) && Adapter(s) && WorldEnabled(s, w)
    ensures Adapter(WorldApply(s, w))
  {
    match w
    case RemoveService(i) => OwnedRemove(s.services, i);
    case ChangeService(i, ready, url) => OwnedUpdate(s.services, i, s.services[i].(ready := ready, url := url));
    case ForeignService(svc) => OwnedAppend(s.services, svc);
    case _ =>
  }

  lemma AdapterController(s: State, c: ControllerStep)
    requires Running(s) && Adapter(s) && ControllerEnabled(s, c)
    ensures Adapter(ControllerApply(s, c))
  {
    if c.CreateService? { OwnedAppend(s.services, Service(c.name, true, false, None)); }
  }

  // ---- Hooks: the run's bookkeeping ----

  lemma RunStored(s: State, o: Source)
    requires Running(s) && RunOk(s)
    requires o.status.webhookID == Last(s).status.webhookID
    requires !Detached(s) && !s.run.value.stale ==> s.finalizer in o.finalizers
    ensures RunOk(Store(s, o))
  {
  }

  lemma RunPatched(s: State, fs: seq<string>, replied: bool)
    requires Running(s) && RunOk(s) && Current(s) && PatchAllowed(s, fs)
    ensures RunOk(Patched(s, fs, replied))
  {
    assert Live(Patched(s, fs, replied)) == Live(s);
  }

  lemma RunWritten(s: State, o: Source)
    requires Running(s) && RunOk(s) && WriteApplies(s, o) && WriteAllowed(s, o)
    ensures RunOk(Store(s, o))
  {
  }

  lemma RunAdded(s: State, id: int, hook: Hook, replied: bool)
    requires Running(s) && RunOk(s) && AddAllowed(s) && id >= 0
    ensures RunOk(Added(s, id, hook, replied))
  {
  }

  // The world's steps that store no version.
  lemma RunBystander(s: State, w: WorldStep)
    requires RunOk(s) && s.created <= s.issued && WorldEnabled(s, w)
    requires !w.EditSpec? && !w.MarkDeleted? && !w.EditFinalizers?
    ensures RunOk(WorldApply(s, w))
  {
    assert Live(WorldApply(s, w)) <= Live(s);
  }

  lemma RunWorld(s: State, w: WorldStep)
    requires RunOk(s) && s.created <= s.issued && WorldEnabled(s, w)
    ensures RunOk(WorldApply(s, w))
  {
    if w.EditSpec? || w.MarkDeleted? || w.EditFinalizers? {
      if s.run.Some? { RunStored(s, Edited(Last(s), w)); }
    } else {
      RunBystander(s, w);
    }
  }

  // Steps that only add to what the run knows, or take hooks away.
  lemma RunQuiet(s: State, c: ControllerStep)
    requires Running(s) && RunOk(s) && ControllerEnabled(s, c)
    requires !c.PatchFinalizers? && !c.AddHook? && !c.WriteStatus?
    ensures RunOk(ControllerApply(s, c))
  {
    assert Live(ControllerApply(s, c)) <= Live(s);
  }

  lemma RunController(s: State, c: ControllerStep)
    requires Running(s) && RunOk(s) && ControllerEnabled(s, c)
    ensures RunOk(ControllerApply(s, c))
  {
    if c.PatchFinalizers? {
      RunPatched(s, c.finalizers, c.replied);
    } else if c.WriteStatus? {
      RunWritten(s, c.submitted);
    } else if c.AddHook? {
      RunAdded(s, c.id, c.hook, c.replied);
    } else {
      RunQuiet(s, c);
    }
  }

  // ---- Hooks: the account ----

  // Fewer live hooks never break the account.
  lemma CoversFewer(live: set<HookKey>, fewer: set<HookKey>, excused: set<HookKey>, detached: bool, unspent: nat, seen: nat)
    requires Covers(live, excused, detached, unspent, seen) && fewer <= live
    ensures Covers(fewer, excused, detached, unspent, seen)
  {
    CardinalityLeq(fewer, live);
    CardinalityLeq(fewer - excused, live - excused);
  }

  // A new hook takes the place of the excused one, or is paid for.
  lemma CoversAdded(live: set<HookKey>, e: set<HookKey>, d: bool, u: nat, x: nat, key: HookKey, replied: bool)
    requires Covers(live, e, d, u, x) && live - e == live && key !in live && (d ==> u == 1)
    ensures Covers(live + {key}, if replied then {key} else {}, d, 0, if replied then x else x + 1)
  {
    assert live + {key} - {key} == live;
    assert live + {key} - {} == live + {key};
  }

  // The steps between s and t left the stored object alone.
  predicate SameObject(s: State, t: State) {
    t == s.(cache := t.cache, hooks := t.hooks, issued := t.issued, created := t.created,
            services := t.services, creates := t.creates, removals := t.removals, tally := t.tally, run := t.run)
  }

  lemma SameDetached(s: State, t: State)
    requires s.history != [] && t.history != [] && SameObject(s, t)
    ensures Detached(t) == Detached(s)
  {
  }

  lemma AccountFewer(s: State, t: State)
    requires WellFormed(s) && WellFormed(t) && Accounted(s)
    requires Live(t) <= Live(s)
    requires Excused(t) == Excused(s) && Detached(t) == Detached(s) && Unspent(t) == Unspent(s) && Seen(t) == Seen(s)
    ensures Accounted(t)
  {
    CoversFewer(Live(s), Live(t), Excused(s), Detached(s), Unspent(s), Seen(s));
  }

  // Another key excused, at the price of what was lost.
  lemma AccountShift(s: State, t: State)
    requires WellFormed(s) && WellFormed(t) && Accounted(s)
    requires Live(t) == Live(s) && Seen(s) <= Seen(t)
    requires |Live(s) - Excused(t)| <= |Live(s) - Excused(s)| + (Seen(t) - Seen(s))
    requires Detached(t) ==> Detached(s)
    requires Unspent(t) <= Unspent(s) + (Seen(t) - Seen(s))
    ensures Accounted(t)
  {
  }

  lemma SeenStored(s: State, o: Source)
    requires WellFormed(s)
    ensures WellFormed(Store(s, o)) && Seen(Store(s, o)) == Seen(s)
  {
    MovesPrefix(s.history, o.(version := |s.history|), if s.run.Some? then s.run.value.base else s.cache);
  }

  // An edit of the stored object by others.
  lemma EditEntries(s: State, w: WorldStep)
    requires WellFormed(s) && WorldEnabled(s, w) && (w.EditSpec? || w.MarkDeleted? || w.EditFinalizers?)
    ensures var t := WorldApply(s, w);
      && WellFormed(t) && Live(t) == Live(s) && Excused(t) == Excused(s) && Unspent(t) == Unspent(s)
      && Seen(t) == Seen(s)
  {
    SeenStored(s, Edited(Last(s), w));
  }

  lemma EditDetaches(s: State, w: WorldStep)
    requires WellFormed(s) && WorldEnabled(s, w) && (w.EditSpec? || w.MarkDeleted? || w.EditFinalizers?)
    requires !Detached(s)
    ensures !Detached(Store(s, Edited(Last(s), w)))
  {
  }

  lemma AccountEdit(s: State, w: WorldStep)
    requires WellFormed(s) && Accounted(s)
    requires WorldEnabled(s, w) && (w.EditSpec? || w.MarkDeleted? || w.EditFinalizers?)
    ensures Accounted(WorldApply(s, w))
  {
    EditEntries(s, w);
    if !Detached(s) { EditDetaches(s, w); }
  }

  lemma CatchUpEntries(s: State, to: nat)
    requires WellFormed(s) && s.cache <= to < |s.history|
    ensures var t := s.(cache := to);
      && Live(t) == Live(s) && Unspent(t) == Unspent(s)
      && Seen(s) <= Seen(t) && |Live(s) - Excused(t)| <= |Live(s) - Excused(s)| + (Seen(t) - Seen(s))
  {
    if s.run.None? {
      MovesBetween(s.history, s.cache, to);
      SwapExcused(Live(s), s.history[s.cache].spec.projectURL, s.history[to].spec.projectURL, Last(s).status.webhookID);
    }
  }

  lemma AccountCatchUp(s: State, to: nat)
    requires WellFormed(s) && Accounted(s) && s.cache <= to < |s.history|
    ensures Accounted(s.(cache := to))
  {
    CatchUpEntries(s, to);
    SameDetached(s, s.(cache := to));
    AccountShift(s, s.(cache := to));
  }

  lemma BegunEntries(s: State)
    requires WellFormed(s) && s.run.None?
    ensures var t := Begun(s);
      && Live(t) == Live(s) && Unspent(s) == 0
      && Seen(t) - Seen(s) == Unspent(t) <= 1 && Excused(t) == if Unspent(t) == 1 then {} else Excused(s)
  {
  }

  lemma BegunExcused(s: State)
    requires WellFormed(s) && s.run.None?
    ensures |Live(s)| <= |Live(s) - Excused(s)| + 1 && Live(s) - {} == Live(s)
  {
    SwapExcused(Live(s), s.history[s.cache].spec.projectURL, "", Last(s).status.webhookID);
  }

  lemma AccountBegun(s: State)
    requires WellFormed(s) && Accounted(s) && s.run.None?
    ensures Accounted(Begun(s))
  {
    BegunEntries(s);
    BegunExcused(s);
    SameDetached(s, Begun(s));
    AccountShift(s, Begun(s));
  }

  lemma PatchedEntries(s: State, fs: seq<string>, replied: bool)
    requires Running(s) && RunOk(s) && Current(s) && PatchAllowed(s, fs)
    ensures var t := Patched(s, fs, replied);
      WellFormed(t) && Live(t) == Live(s) && Excused(t) == Excused(s) && Unspent(t) == Unspent(s) == 0 && Seen(t) == Seen(s)
    ensures s.finalizer in Copy(s).finalizers ==> Live(s) - Excused(s) == Live(s)
  {
    SeenStored(s, Last(s).(finalizers := fs));
  }

  lemma PatchedDetaches(s: State, fs: seq<string>, replied: bool)
    requires Running(s) && Current(s) && PatchAllowed(s, fs)
    requires s.finalizer !in Copy(s).finalizers
    ensures !Detached(Patched(s, fs, replied))
  {
    assert fs[|Copy(s).finalizers|] == s.finalizer;
  }

  lemma AccountPatched(s: State, fs: seq<string>, replied: bool)
    requires Running(s) && RunOk(s) && Accounted(s) && Current(s) && PatchAllowed(s, fs)
    ensures Accounted(Patched(s, fs, replied))
  {
    PatchedEntries(s, fs, replied);
    if s.finalizer !in Copy(s).finalizers { PatchedDetaches(s, fs, replied); }
  }

  lemma AddedEntries(s: State, id: int, hook: Hook, replied: bool)
    requires Running(s) && RunOk(s) && s.created <= s.issued && AddAllowed(s) && NewHook(s, id) !in s.issued
    ensures var t, key := Added(s, id, hook, replied), NewHook(s, id);
      && Live(t) == Live(s) + {key} && key !in Live(s)
      && Excused(t) == (if replied then {key} else {})
      && Unspent(t) == 0
      && Seen(t) == Seen(s) + (if replied then 0 else 1)
    ensures Live(s) - Excused(s) == Live(s)
  {
  }

  // Only a stale run can add a hook to an object that does not wait for the controller.
  lemma AddedDetached(s: State, id: int, hook: Hook, replied: bool)
    requires Running(s) && RunOk(s) && AddAllowed(s)
    ensures Detached(Added(s, id, hook, replied)) == Detached(s)
    ensures Detached(s) ==> Unspent(s) == 1
  {
    SameDetached(s, Added(s, id, hook, replied));
  }

  lemma AccountAdded(s: State, id: int, hook: Hook, replied: bool)
    requires Running(s) && RunOk(s) && Accounted(s) && s.created <= s.issued
    requires AddAllowed(s) && NewHook(s, id) !in s.issued
    ensures Accounted(Added(s, id, hook, replied))
  {
    var t, key := Added(s, id, hook, replied), NewHook(s, id);
    AddedEntries(s, id, hook, replied);
    AddedDetached(s, id, hook, replied);
    CoversAdded(Live(s), Excused(s), Detached(s), Unspent(s), Seen(s), key, replied);
  }

  lemma IgnoredEntries(s: State)
    requires Running(s) && RunOk(s) && Copy(s).deleting
    ensures Live(Ignored(s)) == Live(s) && Excused(Ignored(s)) == {}
    ensures Unspent(Ignored(s)) == Unspent(s) && Seen(Ignored(s)) == Seen(s) + 1
    ensures |Live(s)| <= |Live(s) - Excused(s)| + 1
  {
    SwapExcused(Live(s), Copy(s).spec.projectURL, "", Copy(s).status.webhookID);
  }

  lemma AccountIgnored(s: State)
    requires Running(s) && RunOk(s) && Accounted(s) && Copy(s).deleting
    ensures Accounted(Ignored(s))
  {
    IgnoredEntries(s);
    SameDetached(s, Ignored(s));
    assert Live(s) - {} == Live(s);
  }

  lemma WrittenEntries(s: State, o: Source)
    requires Running(s) && WriteApplies(s, o) && WriteAllowed(s, o)
    ensures var t := Store(s, o);
      WellFormed(t) && Live(t) == Live(s) && Excused(t) == Excused(s) && Unspent(t) == Unspent(s) && Seen(t) == Seen(s)
  {
    SeenStored(s, o);
  }

  // The status write carries the latest metadata, so it detaches nothing.
  lemma WrittenDetaches(s: State, o: Source)
    requires Running(s) && WriteApplies(s, o) && WriteAllowed(s, o) && !Detached(s)
    ensures !Detached(Store(s, o))
  {
  }

  lemma AccountWritten(s: State, o: Source)
    requires Running(s) && Accounted(s) && WriteApplies(s, o) && WriteAllowed(s, o)
    ensures Accounted(Store(s, o))
  {
    WrittenEntries(s, o);
    if !Detached(s) { WrittenDetaches(s, o); }
  }

  // When the run ends, what it excused passes to the lister's view of the
  // recorded id, or is paid for as a lost write.
  lemma FinishedSeen(s: State)
    requires Running(s)
    ensures var t, r := Finish(s), s.run.value;
      && WellFormed(t) && Live(t) == Live(s) && Unspent(t) == 0
      && Seen(t) == Losses(s.tally) + Moves(s.history, s.cache)
           + (if r.added.Some? && (s.gone || Last(s).status.webhookID != r.added) then 1 else 0)
      && Excused(t) == KeyOf(s.history[s.cache].spec.projectURL, Last(s).status.webhookID)
  {
  }

  // Seen from the run's copy, the stored id excuses no less than the run did.
  lemma FinishedExcused(s: State)
    requires Running(s) && RunOk(s)
    ensures var r, stored := s.run.value, KeyOf(Copy(s).spec.projectURL, Last(s).status.webhookID);
      if r.added.Some? && (s.gone || Last(s).status.webhookID != r.added)
      then |Live(s)| <= |Live(s) - Excused(s)| + 1
      else |Live(s) - stored| <= |Live(s) - Excused(s)|
  {
    var r, p := s.run.value, Copy(s).spec.projectURL;
    var stored := KeyOf(p, Last(s).status.webhookID);
    if r.added.Some? {
      SwapExcused(Live(s), p, p, r.added);
    } else if r.stale || r.ignored || r.attempted || r.removed {
      assert Live(s) - Excused(s) == Live(s);
      CardinalityLeq(Live(s) - stored, Live(s));
    }
  }

  lemma FinishedEntries(s: State)
    requires Running(s) && RunOk(s)
    ensures var t := Finish(s);
      Seen(s) <= Seen(t) && |Live(s) - Excused(t)| <= |Live(s) - Excused(s)| + (Seen(t) - Seen(s))
  {
    var p, q := Copy(s).spec.projectURL, s.history[s.cache].spec.projectURL;
    FinishedSeen(s);
    FinishedExcused(s);
    MovesBetween(s.history, s.run.value.base, s.cache);
    SwapExcused(Live(s), p, q, Last(s).status.webhookID);
    CardinalityLeq(Live(s) - Excused(Finish(s)), Live(s));
  }

  lemma AccountFinished(s: State)
    requires Running(s) && RunOk(s) && Accounted(s)
    ensures WellFormed(Finish(s)) && Accounted(Finish(s))
  {
    var t := Finish(s);
    FinishedSeen(s);
    FinishedEntries(s);
    SameDetached(s, t);
    AccountShift(s, t);
  }

  lemma RestartedSeen(s: State, to: nat)
    requires WellFormed(s) && s.run.None? && to < |s.history|
    ensures var t := Restarted(s, to);
      && WellFormed(t) && Live(t) == Live(s) && Unspent(t) == 0
      && Seen(t) == Losses(s.tally) + Forgets(s, to) + Moves(s.history, to)
  {
  }

  lemma RestartedExcused(s: State, to: nat)
    requires WellFormed(s) && s.run.None? && to < |s.history|
    ensures WellFormed(Restarted(s, to))
    ensures Excused(Restarted(s, to)) == KeyOf(s.history[to].spec.projectURL, Last(s).status.webhookID)
  {
  }

  lemma RestartedEntries(s: State, to: nat)
    requires WellFormed(s) && s.run.None? && to < |s.history|
    ensures var t := Restarted(s, to);
      Seen(s) <= Seen(t) && |Live(s) - Excused(t)| <= |Live(s) - Excused(s)| + (Seen(t) - Seen(s))
  {
    RestartedSeen(s, to);
    RestartedExcused(s, to);
    SwapExcused(Live(s), s.history[s.cache].spec.projectURL, s.history[to].spec.projectURL, Last(s).status.webhookID);
    if s.cache <= to {
      MovesBetween(s.history, s.cache, to);
    } else {
      MovesBetween(s.history, to, s.cache);
    }
  }

  lemma AccountRestarted(s: State, to: nat)
    requires WellFormed(s) && s.run.None? && Accounted(s) && to < |s.history|
    ensures Accounted(Restarted(s, to))
  {
    var t := Restarted(s, to);
    RestartedSeen(s, to);
    RestartedEntries(s, to);
    SameDetached(s, t);
    AccountShift(s, t);
  }

  // Steps that touch neither the object, the run's view nor the tally.
  lemma QuietEntries(s: State, t: State)
    requires WellFormed(s) && WellFormed(t)
    requires SameObject(s, t) && t.cache == s.cache && t.tally == s.tally && Live(t) <= Live(s)
    requires s.run.None? ==> t.run.None?
    requires s.run.Some? ==> t.run.Some? && var r := s.run.value;
      t.run.value.(removed := r.removed, missing := r.missing, vacant := r.vacant, adapter := r.adapter, unread := r.unread) == r
    ensures Excused(t) == Excused(s) && Unspent(t) == Unspent(s) && Seen(t) == Seen(s)
  {
  }

  lemma AccountQuiet(s: State, t: State)
    requires WellFormed(s) && WellFormed(t) && Accounted(s)
    requires SameObject(s, t) && t.cache == s.cache && t.tally == s.tally && Live(t) <= Live(s)
    requires s.run.None? ==> t.run.None?
    requires s.run.Some? ==> t.run.Some? && var r := s.run.value;
      t.run.value.(removed := r.removed, missing := r.missing, vacant := r.vacant, adapter := r.adapter, unread := r.unread) == r
    ensures Accounted(t)
  {
    QuietEntries(s, t);
    SameDetached(s, t);
    AccountFewer(s, t);
  }

  lemma AccountWorld(s: State, w: WorldStep)
    requires Hooks(s) && WorldEnabled(s, w)
    ensures Accounted(WorldApply(s, w))
  {
    if w.EditSpec? || w.MarkDeleted? || w.EditFinalizers? {
      AccountEdit(s, w);
    } else if w.CatchUp? {
      AccountCatchUp(s, w.to);
    } else {
      AccountQuiet(s, WorldApply(s, w));
    }
  }

  // The steps that only add to what the run knows, or change hooks or Services.
  lemma AccountBystander(s: State, c: ControllerStep)
    requires Running(s) && Hooks(s) && ControllerEnabled(s, c)
    requires !c.PatchFinalizers? && !c.AddHook? && !c.IgnoreHook? && !c.WriteStatus?
    ensures Accounted(ControllerApply(s, c))
  {
    hide Accounted, RunOk, PatchAllowed, StatusAllowed;
    AccountQuiet(s, ControllerApply(s, c));
  }

  lemma AccountController(s: State, c: ControllerStep)
    requires Running(s) && Hooks(s) && ControllerEnabled(s, c)
    ensures Accounted(ControllerApply(s, c))
  {
    if c.PatchFinalizers? {
      AccountPatched(s, c.finalizers, c.replied);
    } else if c.AddHook? {
      AccountAdded(s, c.id, c.hook, c.replied);
    } else if c.IgnoreHook? {
      AccountIgnored(s);
    } else if c.WriteStatus? {
      AccountWritten(s, c.submitted);
    } else {
      AccountBystander(s, c);
    }
  }

  // ---- Every action keeps the invariant ----

  lemma HooksWorld(s: State, w: WorldStep)
    requires Hooks(s) && WorldEnabled(s, w)
    ensures Hooks(WorldApply(s, w))
  {
    RunWorld(s, w);
    AccountWorld(s, w);
  }

  lemma HooksController(s: State, c: ControllerStep)
    requires Running(s) && Hooks(s) && ControllerEnabled(s, c)
    ensures Hooks(ControllerApply(s, c))
  {
    RunController(s, c);
    AccountController(s, c);
  }

  lemma HooksBegun(s: State)
    requires Hooks(s) && s.run.None?
    ensures Hooks(Begun(s))
  {
    hide Accounted;
    AccountBegun(s);
  }

  lemma HooksFinished(s: State)
    requires Hooks(s)
    ensures Hooks(Finish(s))
  {
    if s.run.Some? { AccountFinished(s); }
  }

  lemma HooksRestarted(s: State, to: nat)
    requires Hooks(s) && s.run.None? && to < |s.history|
    ensures Hooks(Restarted(s, to))
  {
    AccountRestarted(s, to);
  }

  lemma HooksStep(s: State, a: Action)
    requires Hooks(s) && Enabled(s, a)
    ensures Hooks(Apply(s, a))
  {
    match a
    case World(w) => HooksWorld(s, w);
    case Begin => HooksBegun(s);
    case Controller(c) => HooksController(s, c);
    case End => HooksFinished(s);
    case Restart(to) => HooksFinished(s); HooksRestarted(Finish(s), to);
  }

  lemma InvStep(s: State, a: Action)
    requires Inv(s) && Enabled(s, a)
    ensures Inv(Apply(s, a))
  {
    ChronicleStep(s, a);
    HooksStep(s, a);
    match a
    case World(w) => AdapterWorld(s, w);
    case Controller(c) => AdapterController(s, c);
    case _ =>
  }

  lemma InvNext(s: State, t: State)
    requires Inv(s) && Next(s, t)
    ensures Inv(t)
  {
    var a :| Enabled(s, a) && t == Apply(s, a);
    InvStep(s, a);
  }

  lemma InvAlong(trace: seq<State>, i: nat)
    requires Behaviour(trace) && Inv(trace[0]) && i < |trace|
    ensures Inv(trace[i])
  {
    forall s, t | Inv(s) && Next(s, t) ensures Inv(t) { InvNext(s, t); }
    Invariance(trace, Inv, i);
  }

  lemma InvFrom(trace: seq<State>, i: nat)
    requires Behaviour(trace) && Initial(trace[0]) && i < |trace|
    ensures Inv(trace[i])
  {
    InvInitial(trace[0]);
    InvAlong(trace, i);
  }

  lemma InvReachable(s: State)
    requires Reachable(s)
    ensures Inv(s)
  {
    hide Initial, Inv, NextAt;
    var trace :| Behaviour(trace) && Initial(trace[0]) && trace[|trace| - 1] == s;
    InvFrom(trace, |trace| - 1);
  }
}
