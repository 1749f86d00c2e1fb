// The code at work on a fresh object, step by step: each way a hook can lose
// its record does occur, and so do the states in which the controller
// recovers, stops for good, or takes hold of somebody else's hook. Between the
// calls of Reconcile others do one thing at a time; nothing else goes wrong
// than what the witness is about.
module Witnesses {
  import opened Sources
  import opened Protocol
  import opened Conservation
  import opened Clusters
  import opened Calm
  import opened Convergence
  import opened Outcomes
  import opened Controllers
  import opened Settling
  import SingleHook

  const NO_TALLY := Tally(0, 0, 0, 0, 0)

  function Moved(s: State): nat
    requires s.history != []
  {
    Moves(s.history, |s.history| - 1)
  }

  // A new object with nothing around it.
  predicate Fresh(s: State) {
    Initial(s) && s.services == []
  }

  lemma FreshExists(sentinel: bool, spec: Spec)
    ensures var s := State("f", sentinel, [Source("n", 0, 1, [], false, spec, EMPTY_STATUS)], false, 0,
                           map[], {}, {}, [], 0, 0, NO_TALLY, None);
      Fresh(s) && s.issued == {} && Last(s).finalizers == []
  {
  }

  lemma FreshRested(s: State)
    requires Fresh(s)
    ensures Rested(s) && !Last(s).deleting && FirstOwned(s.services).None? && Numbered(s)
    ensures Last(s).status.webhookID.None? && s.created == {} && s.tally == NO_TALLY && Moved(s) == 0
    ensures s.finalizer !in Last(s).finalizers && s.hooks.Keys <= s.issued
  {
  }

  // ---- Deploying the adapter ----

  // The source is deployed, its adapter is ready, and no hook was asked for.
  predicate Deployed(s0: State, s: State, url: string) {
    && s0.history != [] && Favourable(s, url) && Continues(s0, s) && SameHooks(s0, s) && s.created == {}
    && s.tally == NO_TALLY && s.sentinel == s0.sentinel && s.finalizer == s0.finalizer
    && Last(s).spec == Last(s0).spec && Last(s).status.webhookID.None?
    && Last(s).finalizers == Last(s0).finalizers + [s0.finalizer] && Moved(s) == 0
  }

  function ServiceReady(s: State, url: string): State
    requires |s.services| == 1
  {
    s.(services := [s.services[0].(ready := true, url := Some(url))])
  }

  lemma DeployedBy(s0: State, url: string, w: Surroundings)
    requires Fresh(s0)
    ensures var r := CalmRun(s0, w);
      && WellFormed(r) && |r.services| == 1
      && var t := ServiceReady(r, url); Deployed(s0, t.(cache := |t.history| - 1), url)
  {
    hide CalmRun, CalmFails, Initial;
    FreshRested(s0);
    FirstRun(s0, w);
    NoMoves(s0, CalmRun(s0, w));
  }

  // The first call of Reconcile; then the adapter becomes ready and the lister catches up.
  method Deploy(s0: State, url: string, w: Surroundings) returns (c: Cluster)
    requires Fresh(s0)
    ensures fresh(c) && c.Valid() && c.start == s0 && c.script == [] && c.around == w
    ensures Deployed(s0, c.s, url)
  {
    hide CalmRun, CalmFails, Initial, Deployed, Behaviour;
    FreshRested(s0);
    c := new Cluster(s0, [], w);
    RestedTimely(c.s);
    var _ := RunOnce(c);
    DeployedBy(s0, url, w);
    ghost var r := c.s;
    c.Act(World(ChangeService(0, true, Some(url))));
    assert c.s.services == ServiceReady(r, url).services;
    CatchUpLister(c);
  }

  // ---- The ways a hook loses its record ----

  function FirstKey(s0: State): HookKey
    requires s0.history != []
  {
    NextKey(s0, Last(s0).spec.projectURL)
  }

  // Exactly this hook has lost its record, to exactly these losses.
  predicate Lost(s: State, key: HookKey, tally: Tally, moves: nat) {
    && WellFormed(s) && s.run.None? && Orphans(s) == {key} && s.tally == tally && Moved(s) == moves
  }

  lemma RefusedLoses(s0: State, s: State, url: string, w: Surroundings)
    requires Fresh(s0) && Deployed(s0, s, url) && w.outage.StatusWrites?
    ensures Lost(CalmRun(s, w), FirstKey(s0), NO_TALLY.(lostWrites := 1), 0)
  {
    hide CalmRun, CalmFails, Initial;
    RefusedRun(s, url, w);
    NoMoves(s, CalmRun(s, w));
  }

  // A status write that fails after an add.
  method LostWrite(s0: State, url: string, sinks: map<Option<Ref>, string>, defaults: Flags) returns (c: Cluster, failed: bool)
    requires Fresh(s0)
    ensures fresh(c) && c.Valid() && c.start == s0 && Reachable(c.s)
    ensures Lost(c.s, FirstKey(s0), NO_TALLY.(lostWrites := 1), 0)
    ensures failed
  {
    hide CalmRun, CalmFails, Behaviour, Lost, Reachable;
    c := Deploy(s0, url, Surroundings(sinks, defaults, StatusWrites));
    RestedTimely(c.s);
    RefusedLoses(s0, c.s, url, c.around);
    RefusedFails(c.s, url, c.around);
    failed := RunOnce(c);
    ClusterReachable(c);
  }

  lemma UnansweredLoses(s0: State, s: State, url: string, w: Surroundings)
    requires Fresh(s0) && Deployed(s0, s, url) && w.outage.HookAnswers?
    ensures Lost(CalmRun(s, w), FirstKey(s0), NO_TALLY.(lostReplies := 1), 0)
  {
    hide CalmRun, CalmFails, Initial;
    UnansweredRun(s, url, w);
    NoMoves(s, CalmRun(s, w));
  }

  // An answer to an add that never arrives.
  method LostReply(s0: State, url: string, sinks: map<Option<Ref>, string>, defaults: Flags) returns (c: Cluster, failed: bool)
    requires Fresh(s0)
    ensures fresh(c) && c.Valid() && c.start == s0 && Reachable(c.s)
    ensures Lost(c.s, FirstKey(s0), NO_TALLY.(lostReplies := 1), 0)
    ensures failed
  {
    hide CalmRun, CalmFails, Behaviour, Lost, Reachable;
    c := Deploy(s0, url, Surroundings(sinks, defaults, HookAnswers));
    RestedTimely(c.s);
    UnansweredLoses(s0, c.s, url, c.around);
    UnansweredFails(c.s, url, c.around);
    failed := RunOnce(c);
    ClusterReachable(c);
  }

  // ---- A recorded hook ----

  // The run that adds the first hook has recorded it; the lister may still
  // hold the version before, `from`.
  predicate Recorded(s0: State, s: State, from: nat, url: string) {
    && s0.history != [] && WellFormed(s) && s.run.None? && !s.gone && !Last(s).deleting && from < |s.history| - 1
    && !s.history[from].deleting && s.finalizer in s.history[from].finalizers
    && s.history[from].status.webhookID.None? && s.history[from].spec == Last(s).spec
    && FirstOwned(s.services).Some? && FirstOwned(s.services).value.ready
    && FirstOwned(s.services).value.url == Some(url)
    && s.created == {FirstKey(s0)} && FirstKey(s0) in s.hooks && Gained(s0, s, FirstKey(s0))
    && Last(s).spec == Last(s0).spec && Last(s).status.webhookID == Some(FirstKey(s0).id)
    && Last(s).finalizers == Last(s0).finalizers + [s0.finalizer]
    && s.tally == NO_TALLY && Moved(s) == 0 && s.sentinel == s0.sentinel && s.finalizer == s0.finalizer
  }

  lemma RecordedBy(s0: State, s: State, url: string, w: Surroundings)
    requires Fresh(s0) && Deployed(s0, s, url) && w.outage.NoOutage?
    ensures Recorded(s0, CalmRun(s, w), |s.history| - 1, url) && CalmRun(s, w).cache == |s.history| - 1
    ensures |s.history| - 1 < |CalmRun(s, w).history|
  {
    hide CalmRun, CalmFails, Initial;
    FreshRested(s0);
    RecordingRun(s, url, w);
    NoMoves(s, CalmRun(s, w));
  }

  // Two calls of Reconcile with the adapter becoming ready between them.
  method Record(s0: State, url: string, w: Surroundings) returns (c: Cluster)
    requires Fresh(s0) && w.outage.NoOutage?
    ensures fresh(c) && c.Valid() && c.start == s0 && c.script == [] && c.around == w
    ensures Recorded(s0, c.s, c.s.cache, url)
  {
    hide CalmRun, CalmFails, Behaviour, Recorded;
    c := Deploy(s0, url, w);
    RestedTimely(c.s);
    RecordedBy(s0, c.s, url, w);
    var _ := RunOnce(c);
  }

  method RecordAndCatchUp(s0: State, url: string, w: Surroundings) returns (c: Cluster)
    requires Fresh(s0) && w.outage.NoOutage?
    ensures fresh(c) && c.Valid() && c.start == s0 && c.script == [] && c.around == w
    ensures Favourable(c.s, url) && Findable(c.s) && exists from :: Recorded(s0, c.s, from, url)
  {
    hide Behaviour, Initial;
    c := Record(s0, url, w);
    ghost var from := c.s.cache;
    CatchUpLister(c);
    assert Recorded(s0, c.s, from, url);
  }

  // ---- A run from a stale copy ----

  lemma StaleLoses(s0: State, s: State, url: string, w: Surroundings)
    requires Fresh(s0) && Recorded(s0, s, s.cache, url) && w.outage.NoOutage?
    ensures Timely(s) && !CalmFails(s, w)
    ensures Lost(CalmRun(s, w), FirstKey(s0), NO_TALLY.(staleRuns := 1), 0)
  {
    hide CalmRun, CalmFails, Initial;
    StaleSucceeds(s, url, w);
    Outcomes.StaleRun(s, url, w);
    NoMoves(s, CalmRun(s, w));
  }

  // A third call before the lister has seen what the second recorded.
  method StaleRun(s0: State, url: string, w: Surroundings) returns (c: Cluster, failed: bool)
    requires Fresh(s0) && w.outage.NoOutage?
    ensures fresh(c) && c.Valid() && c.start == s0 && Reachable(c.s)
    ensures Lost(c.s, FirstKey(s0), NO_TALLY.(staleRuns := 1), 0)
    ensures !failed
  {
    hide CalmRun, CalmFails, Behaviour, Lost, Reachable, Timely, Recorded;
    c := Record(s0, url, w);
    assert c.s.run.None? by { RecordedIdle(s0, c.s, c.s.cache, url); }
    StaleLoses(s0, c.s, url, w);
    failed := RunOnce(c);
    ClusterReachable(c);
  }

  lemma RecordedIdle(s0: State, s: State, from: nat, url: string)
    requires Recorded(s0, s, from, url)
    ensures WellFormed(s) && s.run.None? && !s.gone && !Last(s).deleting
  {
  }

  // ---- A change of the project URL ----

  function Renamed(s: State, spec: Spec): State
    requires WellFormed(s) && !s.gone
  {
    WorldApply(s, WorldStep.EditSpec(spec))
  }

  lemma RenamedLoses(s0: State, s: State, from: nat, url: string, spec: Spec)
    requires Fresh(s0) && Recorded(s0, s, from, url) && spec.projectURL != Last(s0).spec.projectURL
    ensures Lost(Renamed(s, spec), FirstKey(s0), NO_TALLY, 1)
  {
    hide Initial;
    SamePrefix(s.history, Renamed(s, spec).history, |s.history| - 1);
  }

  method MovedAway(s0: State, url: string, spec: Spec, w: Surroundings) returns (c: Cluster)
    requires Fresh(s0) && w.outage.NoOutage? && spec.projectURL != Last(s0).spec.projectURL
    ensures fresh(c) && c.Valid() && c.start == s0 && Reachable(c.s)
    ensures Lost(c.s, FirstKey(s0), NO_TALLY, 1)
  {
    hide Behaviour, Lost, Reachable, Recorded;
    c := Record(s0, url, w);
    RecordedIdle(s0, c.s, c.s.cache, url);
    RenamedLoses(s0, c.s, c.s.cache, url, spec);
    c.Act(World(WorldStep.EditSpec(spec)));
    ClusterReachable(c);
  }

  // ---- A finalization that gives up ----

  function Condemned(s: State): State
    requires WellFormed(s) && !s.gone && !Last(s).deleting
  {
    var t := WorldApply(s, MarkDeleted);
    t.(cache := |t.history| - 1)
  }

  lemma CondemnedRested(s0: State, s: State, from: nat, url: string)
    requires Fresh(s0) && Recorded(s0, s, from, url)
    ensures var t := Condemned(s);
      && Rested(t) && Last(t).deleting && t.finalizer in Last(t).finalizers
      && Last(t).status == Last(s).status && Last(t).spec == Last(s).spec && Last(t).finalizers == Last(s).finalizers
      && SameHooks(s, t) && t.tally == s.tally && Moved(t) == Moved(s) && t.finalizer == s.finalizer
  {
    hide Initial;
    SamePrefix(s.history, Condemned(s).history, |s.history| - 1);
  }

  lemma GivingUpLoses(s0: State, s: State, from: nat, url: string, w: Surroundings)
    requires Fresh(s0) && Recorded(s0, s, from, url) && Last(s0).finalizers == [] && w.outage.Credentials?
    ensures Rested(Condemned(s)) && !CalmFails(Condemned(s), w)
    ensures var r := CalmRun(Condemned(s), w); r.gone && Lost(r, FirstKey(s0), NO_TALLY.(ignored := 1), 0)
  {
    hide CalmRun, CalmFails, Initial;
    CondemnedRested(s0, s, from, url);
    var t := Condemned(s);
    GivingUpSucceeds(t, w);
    GivingUpRun(t, w);
    NoMoves(t, CalmRun(t, w));
    assert Last(t).finalizers == [s0.finalizer];
    NoneLeft(s0.finalizer);
  }

  lemma NoneLeft(name: string)
    ensures WithoutFinalizer([name], name) == []
  {
    assert [name][1..] == [];
    assert Others([name], name) == [];
  }

  // The object is deleted after the Secret with the token is gone.
  method GaveUp(s0: State, url: string, w: Surroundings) returns (c: Cluster, failed: bool)
    requires Fresh(s0) && w.outage.NoOutage? && Last(s0).finalizers == []
    ensures fresh(c) && c.Valid() && c.start == s0 && Reachable(c.s) && c.s.gone
    ensures Lost(c.s, FirstKey(s0), NO_TALLY.(ignored := 1), 0)
    ensures !failed
  {
    hide CalmRun, CalmFails, Behaviour, Lost, Reachable, Recorded;
    c := Record(s0, url, w);
    RecordedIdle(s0, c.s, c.s.cache, url);
    c.around := c.around.(outage := Credentials);
    GivingUpLoses(s0, c.s, c.s.cache, url, c.around);
    ghost var s := c.s;
    c.Act(World(MarkDeleted));
    CatchUpLister(c);
    assert c.s == Condemned(s);
    RestedTimely(c.s);
    failed := RunOnce(c);
    ClusterReachable(c);
  }

  // ---- A restarted lister, and a client whose 404 is recognised ----

  function CaughtUp(s: State): State
    requires s.history != []
  {
    s.(cache := |s.history| - 1)
  }

  function SecondKey(spec: Spec): HookKey {
    HookKey(spec.projectURL, 0)
  }

  // The hook was replaced in the new project.
  predicate Replaced(s0: State, s: State, from: nat, url: string, spec: Spec) {
    && s0.history != [] && WellFormed(s) && s.run.None? && !s.gone && !Last(s).deleting && from < |s.history| - 1
    && !s.history[from].deleting && s.finalizer in s.history[from].finalizers
    && s.history[from].status.webhookID.None? && s.history[from].spec == Last(s0).spec
    && FirstOwned(s.services).Some? && FirstOwned(s.services).value.ready
    && FirstOwned(s.services).value.url == Some(url)
    && s.created == {FirstKey(s0), SecondKey(spec)} && s.created == s.issued == s.hooks.Keys
    && Last(s).spec == spec && Last(s).status.webhookID == Some(0) && s.tally == NO_TALLY && !s.sentinel
    && Moved(s) == 1 && Moves(s.history, from) == 0 && Moves(s.history, s.cache) == 1
  }

  // The spec names another project, and the lister has seen it.
  predicate Renaming(s0: State, t: State, from: nat, url: string, spec: Spec) {
    && s0.history != [] && Favourable(t, url) && from < |t.history| - 1
    && !t.history[from].deleting && t.finalizer in t.history[from].finalizers
    && t.history[from].status.webhookID.None? && t.history[from].spec == Last(s0).spec
    && t.created == {FirstKey(s0)} && t.created == t.issued == t.hooks.Keys
    && Last(t).spec == spec && Last(t).status.webhookID == Some(FirstKey(s0).id) && t.tally == NO_TALLY && !t.sentinel
    && Moved(t) == 1 && Moves(t.history, from) == 0
  }

  lemma RenamedReady(s0: State, s: State, from: nat, url: string, spec: Spec)
    requires Fresh(s0) && s0.issued == {} && !s0.sentinel
    requires Recorded(s0, s, from, url) && spec.projectURL != Last(s0).spec.projectURL
    ensures Renaming(s0, CaughtUp(Renamed(s, spec)), from, url, spec)
  {
    hide Initial;
    FreshRested(s0);
    var t := CaughtUp(Renamed(s, spec));
    SamePrefix(s.history, t.history, |s.history| - 1);
    SamePrefix(s.history, t.history, from);
    MovesBetween(s.history, from, |s.history| - 1);
  }

  lemma ReplacedBy(s0: State, t: State, from: nat, url: string, spec: Spec, w: Surroundings)
    requires s0.history != [] && s0.issued == {} && w.outage.NoOutage?
    requires Renaming(s0, t, from, url, spec) && spec.projectURL != Last(s0).spec.projectURL
    ensures Replaced(s0, CalmRun(t, w), from, url, spec)
  {
    hide CalmRun, CalmFails, Moves;
    NoIds(s0, Last(s0).spec.projectURL);
    var r := CalmRun(t, w);
    FreeId(t.issued, spec.projectURL);
    RecordingRun(t, url, w);
    NoMoves(t, r);
    SamePrefix(t.history, r.history, |t.history| - 1);
    SamePrefix(t.history, r.history, from);
  }

  lemma FreeId(issued: set<HookKey>, p: string)
    requires HookKey(p, 0) !in issued
    ensures FreshId(issued, p, 0) == 0
  {
  }

  lemma NoIds(s0: State, p: string)
    requires s0.issued == {}
    ensures NextKey(s0, p) == HookKey(p, 0)
  {
  }

  // Three hooks without a record, of which the other losses account for two.
  predicate BeyondOthers(s: State) {
    && WellFormed(s) && !s.sentinel && |Orphans(s)| == 3
    && SingleHook.Slips(s.tally) + s.tally.ignored + Moved(s) == 2
  }

  lemma WentBackRun(s0: State, s: State, from: nat, url: string, spec: Spec, w: Surroundings)
    requires Replaced(s0, s, from, url, spec) && w.outage.NoOutage?
    ensures var t := Restarted(s, from);
      var r, third := CalmRun(t, w), NextKey(s, Last(s0).spec.projectURL);
      && Timely(t) && WellFormed(r) && r.run.None? && !r.gone && Gained(s, r, third)
      && Last(r).spec == spec && Last(r).status.webhookID == Some(third.id)
      && r.tally.lostWrites == 0 && r.tally.lostReplies == 0 && r.tally.staleRuns == 1 && r.tally.ignored == 0
      && Moved(r) == 1 && !r.sentinel
  {
    hide CalmRun, CalmFails, Moves, FreshId;
    var t := Restarted(s, from);
    Outcomes.StaleRun(t, url, w);
    NoMoves(t, CalmRun(t, w));
  }

  lemma Three(a: HookKey, b: HookKey, c: HookKey)
    requires a != b && b != c && a != c
    ensures |{a, b, c}| == 3
  {
  }

  lemma WentBack(s0: State, s: State, from: nat, url: string, spec: Spec, w: Surroundings)
    requires Replaced(s0, s, from, url, spec) && spec.projectURL != Last(s0).spec.projectURL
    requires s0.issued == {} && w.outage.NoOutage?
    ensures Timely(Restarted(s, from))
    ensures BeyondOthers(CalmRun(Restarted(s, from), w))
  {
    hide CalmRun, CalmFails, Moves, FreshId, Timely;
    WentBackRun(s0, s, from, url, spec, w);
    NoIds(s0, Last(s0).spec.projectURL);
    var r, third := CalmRun(Restarted(s, from), w), NextKey(s, Last(s0).spec.projectURL);
    assert HookKey(Last(s0).spec.projectURL, 0) in s.issued;
    assert Orphans(r) == {FirstKey(s0), SecondKey(spec), third};
    Three(FirstKey(s0), SecondKey(spec), third);
  }

  // The URL changes, the hook is replaced, and a new process's lister starts
  // from before the first record. It takes a client with which the controller
  // recognises a missing hook; with the vendored one it cannot happen
  // (SingleHook.HooksConservedTightly).
  method ForgottenNeeded(s0: State, url: string, spec: Spec, w: Surroundings) returns (c: Cluster)
    requires Fresh(s0) && s0.issued == {} && !s0.sentinel && w.outage.NoOutage?
    requires spec.projectURL != Last(s0).spec.projectURL
    ensures fresh(c) && c.Valid() && c.start == s0 && Reachable(c.s) && BeyondOthers(c.s)
  {
    hide CalmRun, CalmFails, Behaviour, Reachable, Recorded, Replaced, Renaming, BeyondOthers, Favourable, Timely;
    c := Record(s0, url, w);
    ghost var s := c.s;
    var from := c.s.cache;
    RecordedIdle(s0, c.s, from, url);
    c.Act(World(WorldStep.EditSpec(spec)));
    CatchUpLister(c);
    assert c.s == CaughtUp(Renamed(s, spec));
    FreshRested(s0);
    RenamedReady(s0, s, from, url, spec);
    RenamingFavourable(s0, c.s, from, url, spec);
    ReplacedBy(s0, c.s, from, url, spec, w);
    FavourableRested(c.s, url);
    RestedTimely(c.s);
    var _ := RunOnce(c);
    ReplacedIdle(s0, c.s, from, url, spec);
    WentBack(s0, c.s, from, url, spec, w);
    c.Act(Restart(from));
    assert c.s.run.None?;
    var _ := RunOnce(c);
    ClusterReachable(c);
  }

  lemma RenamingFavourable(s0: State, t: State, from: nat, url: string, spec: Spec)
    requires Renaming(s0, t, from, url, spec)
    ensures Favourable(t, url)
  {
  }

  lemma FavourableRested(s: State, url: string)
    requires Favourable(s, url)
    ensures Rested(s)
  {
  }

  lemma ReplacedIdle(s0: State, s: State, from: nat, url: string, spec: Spec)
    requires Replaced(s0, s, from, url, spec)
    ensures WellFormed(s) && s.run.None? && from < |s.history|
  {
  }

  // ---- Recovering, and stopping for good ----

  function WithoutHook(s: State, key: HookKey): State {
    s.(hooks := s.hooks - {key})
  }

  lemma HookLost(s0: State, s: State, from: nat, url: string)
    requires Recorded(s0, s, from, url) && Favourable(s, url)
    ensures KeyFor(Last(s)) == FirstKey(s0) && FirstKey(s0) in s.hooks
    ensures var t := WithoutHook(s, FirstKey(s0));
      Favourable(t, url) && !Findable(t) && (Recoverable(t) <==> !s0.sentinel)
  {
  }

  // Someone deletes the recorded hook. With the vendored client no number of
  // calls brings it back; with one whose 404 is recognised two calls do.
  method LoseHook(s0: State, url: string, w: Surroundings, n: nat) returns (c: Cluster, failures: nat)
    requires Fresh(s0) && w.outage.NoOutage?
    ensures fresh(c) && c.Valid() && c.start == s0 && Reachable(c.s)
    ensures s0.sentinel ==> !InPlace(c.s, url) && failures == n
    ensures !s0.sentinel && n >= 2 ==> InPlace(c.s, url) && failures == 0
  {
    hide Behaviour, Reachable, Recorded, Favourable, Findable, Recoverable, InPlace, Rounds, Healthy;
    c := RecordAndCatchUp(s0, url, w);
    ghost var from :| Recorded(s0, c.s, from, url);
    HookLost(s0, c.s, from, url);
    FavourableRested(c.s, url);
    ghost var s := c.s;
    c.Act(World(RemoveHook(FirstKey(s0))));
    assert c.s == WithoutHook(s, FirstKey(s0));
    failures := RunRounds(c, url, n);
    ClusterReachable(c);
  }

  lemma HookLostAndCondemned(s0: State, s: State, from: nat, url: string)
    requires Fresh(s0) && Recorded(s0, s, from, url)
    ensures KeyFor(Last(s)) == FirstKey(s0) && FirstKey(s0) in s.hooks
    ensures var t := Condemned(WithoutHook(s, FirstKey(s0)));
      Rested(t) && Last(t).deleting && t.finalizer in Last(t).finalizers && !Findable(t)
  {
    hide Initial;
  }

  // Then the object is deleted: no number of calls lets it go.
  method NeverDeleted(s0: State, url: string, w: Surroundings, n: nat) returns (c: Cluster, failures: nat)
    requires Fresh(s0) && w.outage.NoOutage?
    ensures fresh(c) && c.Valid() && c.start == s0 && Reachable(c.s)
    ensures !c.s.gone && Last(c.s).deleting && c.s.finalizer in Last(c.s).finalizers && failures == n
  {
    hide Behaviour, Reachable, Recorded, Findable;
    c := Record(s0, url, w);
    ghost var s := c.s;
    RecordedIdle(s0, s, s.cache, url);
    HookLostAndCondemned(s0, s, s.cache, url);
    c.Act(World(RemoveHook(FirstKey(s0))));
    c.Act(World(MarkDeleted));
    CatchUpLister(c);
    assert c.s == Condemned(WithoutHook(s, FirstKey(s0)));
    failures := RunFinals(c, n);
    ClusterReachable(c);
  }

  // ---- Somebody else's hook ----

  lemma RenamedFree(s0: State, s: State, from: nat, url: string, spec: Spec)
    requires Fresh(s0) && s0.issued == {} && Recorded(s0, s, from, url) && spec.projectURL != Last(s0).spec.projectURL
    ensures var t := CaughtUp(Renamed(s, spec));
      && Favourable(t, url) && Last(t).spec == spec && t.finalizer in Last(t).finalizers
      && Last(t).status.webhookID.Some? && KeyFor(Last(t)) !in t.issued
  {
    hide Initial;
  }

  // The URL changes, a stranger gets the recorded id in the new project, and
  // the next call makes their hook the source's.
  method StrangersHook(s0: State, url: string, spec: Spec, stranger: Hook, w: Surroundings)
    returns (c: Cluster, failed: bool, ghost key: HookKey)
    requires Fresh(s0) && s0.issued == {} && w.outage.NoOutage? && spec.projectURL != Last(s0).spec.projectURL
    ensures fresh(c) && c.Valid() && c.start == s0 && Reachable(c.s)
    ensures !failed && key !in c.s.created && key in c.s.hooks && c.s.hooks[key] == WantedHook(spec, url)
  {
    hide Behaviour, Reachable, Recorded, Favourable;
    c := Record(s0, url, w);
    ghost var s, from := c.s, c.s.cache;
    RecordedIdle(s0, s, from, url);
    RenamedFree(s0, s, from, url, spec);
    c.Act(World(WorldStep.EditSpec(spec)));
    CatchUpLister(c);
    assert c.s == CaughtUp(Renamed(s, spec));
    key := KeyFor(Last(c.s));
    failed := RunOverStranger(c, url, stranger);
    ClusterReachable(c);
  }

  lemma RenamedCondemned(s0: State, s: State, from: nat, url: string, spec: Spec)
    requires Fresh(s0) && s0.issued == {} && Recorded(s0, s, from, url) && spec.projectURL != Last(s0).spec.projectURL
    ensures var t := Condemned(Renamed(s, spec));
      && Rested(t) && Last(t).deleting && t.finalizer in Last(t).finalizers
      && Last(t).status.webhookID.Some? && KeyFor(Last(t)) !in t.issued && t.finalizer == s0.finalizer
      && Last(t).spec == spec
  {
    hide Initial;
  }

  // The URL changes, the object is deleted, a stranger gets the recorded id in
  // the new project, and the next call deletes their hook.
  method StrangersHookGone(s0: State, url: string, spec: Spec, stranger: Hook, w: Surroundings)
    returns (c: Cluster, failed: bool, ghost key: HookKey)
    requires Fresh(s0) && s0.issued == {} && w.outage.NoOutage? && spec.projectURL != Last(s0).spec.projectURL
    ensures fresh(c) && c.Valid() && c.start == s0 && Reachable(c.s)
    ensures key in c.s.issued && key !in c.s.created && key !in c.s.hooks && key.project == spec.projectURL
    ensures !failed && s0.finalizer !in Last(c.s).finalizers
  {
    hide Behaviour, Reachable, Recorded;
    c := Record(s0, url, w);
    ghost var s, from := c.s, c.s.cache;
    RecordedIdle(s0, s, from, url);
    RenamedCondemned(s0, s, from, url, spec);
    c.Act(World(WorldStep.EditSpec(spec)));
    c.Act(World(MarkDeleted));
    CatchUpLister(c);
    assert c.s == Condemned(Renamed(s, spec));
    key := KeyFor(Last(c.s));
    failed := RunFinalOverStranger(c, stranger);
    ClusterReachable(c);
  }
}
