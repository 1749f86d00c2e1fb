// What single undisturbed runs of the controller leave behind, hook by hook.
module Outcomes {
  import opened Sources
  import opened WebhookOptions
  import opened Protocol
  import opened Conservation
  import opened Clusters
  import opened Calm
  import opened Convergence

  // Versions were only added, all with the spec of the last one.
  predicate Continues(s: State, t: State) {
    && s.history != [] && s.history <= t.history
    && forall i :: |s.history| <= i < |t.history| ==> t.history[i].spec == Last(s).spec
  }

  // The same world around a run.
  predicate SameWorld(s: State, t: State) {
    && t.services == s.services && t.cache == s.cache
    && t.finalizer == s.finalizer && t.sentinel == s.sentinel
  }

  predicate SameHooks(s: State, t: State) {
    t.hooks == s.hooks && t.issued == s.issued && t.created == s.created
  }

  // From s to t one hook of ours was added.
  predicate Gained(s: State, t: State, key: HookKey) {
    && key !in s.issued && t.issued == s.issued + {key}
    && t.created == s.created + {key} && t.hooks.Keys == s.hooks.Keys + {key}
  }

  function NextKey(s: State, project: string): HookKey {
    HookKey(project, FreshId(s.issued, project, 0))
  }

  // ---- The first run, which finds no Service ----

  lemma FirstRunObject(b: State, w: Surroundings)
    requires Running(b) && FirstOwned(CalmFinalizer(b).services).None?
    ensures var (t, st) := CalmObject(b, w);
      && t == Created(Listed(CalmFinalizer(b)), "")
      && st.webhookID == Copy(CalmFinalizer(b)).status.webhookID
  {
  }

  lemma QuietEnd(t: State, before: Status, st: Status, w: Surroundings)
    requires Running(t) && !t.gone && !Last(t).deleting && t.run.value.added.None? && st.webhookID == Last(t).status.webhookID
    ensures var u := CalmEnd(t, before, st, w);
      && WellFormed(u) && u.run.None? && !u.gone && SameHooks(t, u) && SameWorld(t, u) && u.tally == t.tally
      && Continues(t, u) && Last(u).status.webhookID == Last(t).status.webhookID
      && Last(u).finalizers == Last(t).finalizers && !Last(u).deleting
  {
  }

  lemma ContinuesOn(s: State, t: State, u: State)
    requires Continues(s, t) && Continues(t, u) && Last(t).spec == Last(s).spec
    ensures Continues(s, u)
  {
  }

  // The list a run works under.
  function Holding(fs: seq<string>, name: string): seq<string> {
    if name in fs then fs else fs + [name]
  }

  // How a run on the current version gets going.
  lemma Underway(s: State)
    requires Rested(s)
    ensures var t := Listed(CalmFinalizer(Begun(s)));
      && Running(t) && Copy(t) == Last(t) && Continues(s, t) && SameHooks(s, t) && SameWorld(s, t) && t.tally == s.tally
      && Last(t) == Last(s).(finalizers := Holding(Last(s).finalizers, s.finalizer), version := Last(t).version)
      && t.run.value.added.None? && !t.run.value.stale && t.gone == (Last(s).deleting && Last(t).finalizers == [])
  {
    hide Listed;
    ListedSame(CalmFinalizer(Begun(s)));
  }

  // It puts the finalizer in place and creates the adapter.
  lemma FirstRun(s: State, w: Surroundings)
    requires Rested(s) && !Last(s).deleting && FirstOwned(s.services).None?
    ensures var r := CalmRun(s, w);
      && WellFormed(r) && r.run.None? && !r.gone && !Last(r).deleting && Continues(s, r)
      && SameHooks(s, r) && r.tally == s.tally && r.finalizer == s.finalizer && r.sentinel == s.sentinel
      && r.cache == s.cache && r.services == s.services + [Service("", true, false, None)]
      && Last(r).status.webhookID == Last(s).status.webhookID
      && Last(r).finalizers == Holding(Last(s).finalizers, s.finalizer)
  {
    hide CalmObject, CalmEnd, Listed;
    StartedRun(s);
    Underway(s);
    FirstRunObject(Begun(s), w);
    var (t, st) := CalmObject(Begun(s), w);
    QuietEnd(t, Last(s).status, st, w);
    ContinuesOn(s, t, CalmEnd(t, Last(s).status, st, w));
  }

  // ---- Runs that add a hook ----

  // None is recorded for the run, or the recorded one can be told to be missing.
  predicate Adds(b: State)
    requires Running(b)
  {
    b.run.value.added.None? && (!NamesHook(b) || (!b.sentinel && NamedHook(b) !in b.hooks))
  }

  // What asking for a hook leaves, whether or not the answer arrives.
  predicate AskedFor(b: State, t: State, url: string, id: Option<int>, w: Surroundings)
    requires Running(b)
  {
    var key := NextKey(b, Copy(b).spec.projectURL);
    && Running(t) && t.history == b.history && t.gone == b.gone && Copy(t) == Copy(b) && SameWorld(b, t) && Gained(b, t, key)
    && t.hooks == b.hooks[key := Configure(AddOptionsFor(Copy(b).spec, url), w.defaults)]
    && id == (if w.outage.HookAnswers? then None else Some(key.id)) && t.run.value.added == id
    && t.run.value.stale == b.run.value.stale
    && t.tally == (if w.outage.HookAnswers? then b.tally.(lostReplies := b.tally.lostReplies + 1) else b.tally)
  }

  lemma AddingAsks(b: State, url: string, w: Surroundings)
    requires Running(b)
    ensures var (t, id) := CalmAdding(b, url, w); AskedFor(b, t, url, id, w)
  {
    hide Configure;
  }

  lemma SyncAsks(b: State, url: string, w: Surroundings)
    requires Running(b) && Adds(b) && !w.outage.Credentials?
    ensures var (t, id) := CalmSync(b, url, w); AskedFor(b, t, url, id, w)
  {
    hide CalmAdding, CalmEditing;
    if NamesHook(b) {
      AddingAsks(FoundMissing(b), url, w);
    } else {
      AddingAsks(b, url, w);
    }
  }

  // The end of a run that knows the hook it added and stores its id.
  lemma StoredEnd(t: State, before: Status, st: Status, w: Surroundings)
    requires Running(t) && !t.gone && t.run.value.added.Some? && st.webhookID == t.run.value.added
    requires (st == before ==> Last(t).status == st) && !w.outage.StatusWrites? && !Last(t).deleting
    ensures var u := CalmEnd(t, before, st, w);
      && WellFormed(u) && u.run.None? && !u.gone && SameHooks(t, u) && SameWorld(t, u) && u.tally == t.tally
      && Continues(t, u) && Last(u) == Last(t).(status := st, version := Last(u).version)
  {
  }

  // ... and of one that cannot.
  lemma RefusedEnd(t: State, before: Status, st: Status, w: Surroundings)
    requires Running(t) && !t.gone && t.run.value.added.Some? && Last(t).status.webhookID.None? && w.outage.StatusWrites?
    ensures var u := CalmEnd(t, before, st, w);
      && WellFormed(u) && u.run.None? && !u.gone && SameHooks(t, u) && SameWorld(t, u)
      && u.tally == t.tally.(lostWrites := t.tally.lostWrites + 1) && u.history == t.history
  {
  }

  // Whether a run on the latest version would add a hook.
  predicate Wanting(s: State)
    requires s.history != []
  {
    Last(s).status.webhookID.Some? ==> !s.sentinel && KeyFor(Last(s)) !in s.hooks
  }

  lemma Wants(s: State)
    requires Rested(s) && Wanting(s)
    ensures Adds(Listed(CalmFinalizer(Begun(s))))
  {
    hide Listed, CalmFinalizer;
    Underway(s);
  }

  // A run that adds a hook and records it.
  lemma RecordingRun(s: State, url: string, w: Surroundings)
    requires Favourable(s, url) && Wanting(s) && w.outage.NoOutage?
    ensures var r, key := CalmRun(s, w), NextKey(s, Last(s).spec.projectURL);
      && WellFormed(r) && r.run.None? && !r.gone && !Last(r).deleting && Continues(s, r) && SameWorld(s, r)
      && Gained(s, r, key) && r.tally == s.tally
      && Last(r).status.webhookID == Some(key.id) && Last(r).finalizers == Holding(Last(s).finalizers, s.finalizer)
      && var (h, spec) := (r.hooks[key], Last(s).spec);
      && h.url == url && h.sslVerify == spec.sslVerify
      && forall v: Webhook :: v != Unsupported ==> (Flag(h.flags, v) <==> NameOf(v) in spec.eventTypes || Flag(w.defaults, v))
  {
    AddedHook(Last(s).spec, url, w.defaults);
    RecordingHook(s, url, w);
  }

  lemma RecordingHook(s: State, url: string, w: Surroundings)
    requires Favourable(s, url) && Wanting(s) && w.outage.NoOutage?
    ensures var r, key := CalmRun(s, w), NextKey(s, Last(s).spec.projectURL);
      && WellFormed(r) && r.run.None? && !r.gone && !Last(r).deleting && Continues(s, r) && SameWorld(s, r)
      && Gained(s, r, key) && r.tally == s.tally
      && Last(r).status.webhookID == Some(key.id) && Last(r).finalizers == Holding(Last(s).finalizers, s.finalizer)
      && r.hooks == s.hooks[key := Configure(AddOptionsFor(Last(s).spec, url), w.defaults)]
  {
    hide CalmObject, CalmEnd, CalmSync, Listed, CalmFinalizer, FirstOwned, Configure;
    var b := Listed(CalmFinalizer(Begun(s)));
    Underway(s);
    Wants(s);
    SyncAsks(b, url, w);
    ObjectOutcome(s, url, w);
    var (t, st) := CalmObject(Begun(s), w);
    StoredEnd(t, Last(s).status, st, w);
    ContinuesOn(s, t, CalmEnd(t, Last(s).status, st, w));
  }

  // A run that adds a hook while status writes are refused.
  lemma RefusedRun(s: State, url: string, w: Surroundings)
    requires Favourable(s, url) && Last(s).status.webhookID.None? && w.outage.StatusWrites?
    ensures var r := CalmRun(s, w);
      && WellFormed(r) && r.run.None? && !r.gone && Continues(s, r)
      && Gained(s, r, NextKey(s, Last(s).spec.projectURL))
      && r.tally == s.tally.(lostWrites := s.tally.lostWrites + 1) && Last(r).status.webhookID.None?
  {
    hide CalmObject, CalmEnd, CalmSync, Listed, CalmFinalizer, FirstOwned;
    var b := Listed(CalmFinalizer(Begun(s)));
    Underway(s);
    Wants(s);
    SyncAsks(b, url, w);
    ObjectOutcome(s, url, w);
    var (t, st) := CalmObject(Begun(s), w);
    RefusedEnd(t, Last(s).status, st, w);
  }

  // A run whose hook is created while answers are lost.
  lemma UnansweredRun(s: State, url: string, w: Surroundings)
    requires Favourable(s, url) && Last(s).status.webhookID.None? && w.outage.HookAnswers?
    ensures var r := CalmRun(s, w);
      && WellFormed(r) && r.run.None? && !r.gone && Continues(s, r)
      && Gained(s, r, NextKey(s, Last(s).spec.projectURL))
      && r.tally == s.tally.(lostReplies := s.tally.lostReplies + 1) && Last(r).status.webhookID.None?
  {
    hide CalmObject, CalmEnd, CalmSync, Listed, CalmFinalizer, FirstOwned;
    var b := Listed(CalmFinalizer(Begun(s)));
    Underway(s);
    Wants(s);
    SyncAsks(b, url, w);
    ObjectOutcome(s, url, w);
    var (t, st) := CalmObject(Begun(s), w);
    QuietEnd(t, Last(s).status, st, w);
    ContinuesOn(s, t, CalmEnd(t, Last(s).status, st, w));
  }

  // ---- Runs from an old copy ----

  // The lister holds an older version, which carries the finalizer.
  predicate Behind(s: State, url: string) {
    && WellFormed(s) && s.run.None? && !s.gone && !Last(s).deleting && s.cache < |s.history| - 1
    && !s.history[s.cache].deleting && s.finalizer in s.history[s.cache].finalizers
    && FirstOwned(s.services).Some? && FirstOwned(s.services).value.ready
    && FirstOwned(s.services).value.url == Some(url)
  }

  lemma Overtaken(s: State, url: string)
    requires Behind(s, url)
    ensures var o, t := s.history[s.cache], Listed(Begun(s));
      && Running(Begun(s)) && CalmFinalizer(Begun(s)) == Begun(s) && Begun(s).services == s.services
      && Copy(Begun(s)) == o
      && Running(t) && Copy(t) == o && t.history == s.history && !t.gone && SameHooks(s, t) && SameWorld(s, t)
      && t.tally == s.tally.(staleRuns := s.tally.staleRuns + 1) && t.run.value.added.None?
  {
    hide Listed;
    ListedSame(Begun(s));
  }

  // A run from a copy that names no hook adds one and replaces the record.
  lemma StaleRun(s: State, url: string, w: Surroundings)
    requires Behind(s, url) && s.history[s.cache].status.webhookID.None? && w.outage.NoOutage?
    ensures var r, key := CalmRun(s, w), NextKey(s, s.history[s.cache].spec.projectURL);
      && WellFormed(r) && r.run.None? && !r.gone && Continues(s, r)
      && Gained(s, r, key) && r.tally == s.tally.(staleRuns := s.tally.staleRuns + 1)
      && Last(r).status.webhookID == Some(key.id) && Last(r).spec == Last(s).spec && SameWorld(s, r)
  {
    hide CalmObject, CalmEnd, CalmSync, Listed, CalmFinalizer, FirstOwned, Begun;
    Overtaken(s, url);
    var b := Listed(Begun(s));
    SyncAsks(b, url, w);
    ObjectNames(Begun(s), url, w);
    var (t, st) := CalmObject(Begun(s), w);
    StoredEnd(t, s.history[s.cache].status, st, w);
  }

  // ---- Runs that edit or delete the hook under the recorded key, whoever made it ----

  lemma EditingRound(s: State, url: string, w: Surroundings)
    requires Favourable(s, url) && Last(s).status.webhookID.Some? && KeyFor(Last(s)) in s.hooks && w.outage.NoOutage?
    ensures var r := Round(s, w);
      r.hooks == s.hooks[KeyFor(Last(s)) := WantedHook(Last(s).spec, url)] && r.created == s.created
  {
    hide CalmObject, CalmEnd, Listed, CalmFinalizer, FirstOwned;
    Underway(s);
    ObjectOutcome(s, url, w);
    var (t, st) := CalmObject(Begun(s), w);
    EditWanted(Last(s).spec, url, s.hooks[KeyFor(Last(s))].flags);
    EndOutcome(t, Last(s).status, st, w);
  }

  // A stranger who comes by the recorded key has their hook overwritten by the next run ...
  lemma StrangersHookOverwritten(s: State, url: string, stranger: Hook, w: Surroundings)
    requires Reachable(s) && Favourable(s, url) && w.outage.NoOutage?
    requires Last(s).status.webhookID.Some? && KeyFor(Last(s)) !in s.issued
    ensures var key := KeyFor(Last(s));
      && Enabled(s, World(ForeignHook(key, stranger)))
      && var r := Round(Apply(s, World(ForeignHook(key, stranger))), w);
         key !in r.created && key in r.hooks && r.hooks[key] == WantedHook(Last(s).spec, url)
  {
    hide Round, Inv;
    InvReachable(s);
    IssuedFirst(s);
    EditingRound(Apply(s, World(ForeignHook(KeyFor(Last(s)), stranger))), url, w);
  }

  lemma IssuedFirst(s: State)
    requires Inv(s)
    ensures s.created <= s.issued && s.hooks.Keys <= s.issued
  {
  }

  // ... or deleted when the source is.
  lemma StrangersHookDeleted(s: State, stranger: Hook, w: Surroundings)
    requires Reachable(s) && Rested(s) && Last(s).deleting && s.finalizer in Last(s).finalizers && w.outage.NoOutage?
    requires Last(s).status.webhookID.Some? && KeyFor(Last(s)) !in s.issued
    ensures var key := KeyFor(Last(s));
      && Enabled(s, World(ForeignHook(key, stranger)))
      && var t := Apply(s, World(ForeignHook(key, stranger)));
         && key in t.hooks && key !in t.created
         && key !in Round(t, w).hooks && key in Round(t, w).issued && key !in Round(t, w).created
  {
    hide Round, Inv;
    InvReachable(s);
    IssuedFirst(s);
    Finalized(Apply(s, World(ForeignHook(KeyFor(Last(s)), stranger))), w);
  }

  // ---- Finalization without credentials ----

  // The hook stays, the finalizer goes, and the object with it if it was the last.
  lemma GivingUpRun(s: State, w: Surroundings)
    requires Rested(s) && Last(s).deleting && s.finalizer in Last(s).finalizers
    requires Last(s).status.webhookID.Some? && w.outage.Credentials?
    ensures var r := CalmRun(s, w);
      && WellFormed(r) && r.run.None? && Continues(s, r) && SameHooks(s, r)
      && r.tally == s.tally.(ignored := s.tally.ignored + 1)
      && Last(r).finalizers == WithoutFinalizer(Last(s).finalizers, s.finalizer)
      && r.gone == (Last(r).finalizers == [])
  {
    assert CalmFinalizer(Begun(s)) == Begun(s);
  }

  // ---- Which runs fail ----

  // Without an outage a run fails exactly if the recorded hook is missing and cannot be told to be.
  lemma RoundFails(s: State, url: string, w: Surroundings)
    requires Favourable(s, url) && w.outage.NoOutage?
    ensures CalmFails(s, w) <==> !Recoverable(s)
  {
    hide CalmObject, Listed;
    Started(s);
    StartedRun(s);
    ObjectOutcome(s, url, w);
  }

  // On an object being deleted, exactly if the recorded hook is missing.
  lemma FinalizationFails(s: State, w: Surroundings)
    requires Rested(s) && Last(s).deleting && s.finalizer in Last(s).finalizers && w.outage.NoOutage?
    ensures CalmFails(s, w) <==> !Findable(s)
  {
  }

  lemma LaggingSucceeds(s: State, url: string, w: Surroundings)
    requires Lagging(s, url) && Recoverable(s) && CopyRecoverable(s) && w.outage.NoOutage?
    ensures !CalmFails(s, w)
  {
    hide CalmObject, Listed;
    LaggingStarted(s, url);
    SyncOutcome(Listed(Begun(s)), url, w);
    ObjectNames(Begun(s), url, w);
  }

  // While status writes are refused, a run that finds its hook fails exactly
  // if the status is not yet what it should be, and one that adds a first hook does.
  lemma RefusedFails(s: State, url: string, w: Surroundings)
    requires Favourable(s, url) && Findable(s) && w.outage.StatusWrites?
    ensures CalmFails(s, w) <==>
      Last(s).status.webhookID.None? || Last(s).status != TargetStatus(Last(s), w, Last(s).status.webhookID.value)
  {
    hide CalmObject, Listed;
    Started(s);
    StartedRun(s);
    ObjectOutcome(s, url, w);
  }

  // While the answers to adds are lost, exactly if it asks for a hook or cannot tell that it should.
  lemma UnansweredFails(s: State, url: string, w: Surroundings)
    requires Favourable(s, url) && w.outage.HookAnswers?
    ensures CalmFails(s, w) <==> !Findable(s) || Last(s).status.webhookID.None?
  {
    hide CalmObject, Listed;
    Started(s);
    StartedRun(s);
    ObjectOutcome(s, url, w);
  }

  // A run from an old copy that names no hook fails no more than a finalization that gives up.
  lemma StaleSucceeds(s: State, url: string, w: Surroundings)
    requires Behind(s, url) && s.history[s.cache].status.webhookID.None? && w.outage.NoOutage?
    ensures !CalmFails(s, w)
  {
    hide CalmObject, Listed;
    Overtaken(s, url);
    var b := Listed(Begun(s));
    SyncAsks(b, url, w);
    ObjectNames(Begun(s), url, w);
  }

  lemma GivingUpSucceeds(s: State, w: Surroundings)
    requires Rested(s) && Last(s).deleting && s.finalizer in Last(s).finalizers
    requires Last(s).status.webhookID.Some? && w.outage.Credentials?
    ensures !CalmFails(s, w)
  {
  }

  // A missing Secret fails no run.
  lemma CredentialsPass(s: State, url: string, w: Surroundings)
    requires Favourable(s, url) && w.outage.Credentials?
    ensures !CalmFails(s, w)
  {
    hide CalmObject, Listed;
    Started(s);
    StartedRun(s);
    ObjectOutcome(s, url, w);
  }

  // ---- Counting ----

  lemma {:induction false} SameProject(h: seq<Source>, n: nat, i: nat)
    requires n <= i < |h| && forall k :: n <= k < |h| ==> h[k].spec == h[n].spec
    ensures Moves(h, i) == Moves(h, n)
  {
    if i > n { SameProject(h, n, i - 1); }
  }

  lemma {:induction false} SamePrefix(h: seq<Source>, k: seq<Source>, i: nat)
    requires h <= k && i < |h|
    ensures Moves(k, i) == Moves(h, i)
  {
    if i > 0 { SamePrefix(h, k, i - 1); }
  }

  // Runs change no project URL.
  lemma NoMoves(s: State, t: State)
    requires Continues(s, t)
    ensures Moves(t.history, |t.history| - 1) == Moves(s.history, |s.history| - 1)
  {
    SamePrefix(s.history, t.history, |s.history| - 1);
    SameProject(t.history, |s.history| - 1, |t.history| - 1);
  }
}
