// The controller at work undisturbed: the code reaches what Convergence
// proves of the runs it stands for.
module Settling {
  import opened Sources
  import opened Strings
  import opened Protocol
  import opened Objects
  import opened Clusters
  import opened Calm
  import opened Convergence
  import opened Outcomes
  import opened Controllers

  lemma RoundFavourable(s: State, url: string, w: Surroundings)
    requires Favourable(s, url) && w.outage.NoOutage?
    ensures Favourable(Round(s, w), url)
  {
    if Recoverable(s) {
      FirstRound(s, url, w);
    } else {
      BrokenRound(s, url, w);
    }
  }

  // One call of Reconcile by the leader, on whatever the lister holds.
  method RunOnce(c: Cluster) returns (failed: bool)
    requires c.Valid() && Initial(c.start) && c.script == [] && c.s.run.None? && Timely(c.s)
    modifies c`s, c`trace, c`script
    ensures c.Valid() && c.script == [] && c.s.run.None? && c.s == CalmRun(old(c.s), c.around)
    ensures failed <==> CalmFails(old(c.s), c.around)
  {
    hide CalmRun, Behaviour, Initial, Timely;
    ClusterReachable(c);
    ListedOk(c.s);
    var original := new GitLabSource.Decode(c.s.history[c.s.cache]);
    ghost var left;
    failed, left := Reconcile(c, original, true);
  }

  // The lister catches up with the latest version.
  method CatchUpLister(c: Cluster)
    requires c.Valid()
    modifies c`s, c`trace
    ensures c.Valid() && c.s == old(c.s).(cache := |old(c.s).history| - 1)
  {
    hide Behaviour;
    c.Act(World(CatchUp(|c.s.history| - 1)));
  }

  lemma RestedTimely(s: State)
    requires Rested(s)
    ensures Timely(s)
  {
  }

  lemma RoundIsRun(s: State, w: Surroundings)
    requires WellFormed(s)
    ensures var t := CalmRun(s, w); Round(s, w) == t.(cache := |t.history| - 1)
  {
  }

  // One run of the leader, after which the lister catches up.
  method RunRound(c: Cluster, ghost url: string) returns (failed: bool)
    requires c.Valid() && Initial(c.start) && c.script == [] && c.around.outage.NoOutage? && Favourable(c.s, url)
    modifies c`s, c`trace, c`script
    ensures c.Valid() && c.script == [] && Favourable(c.s, url)
    ensures c.s == Round(old(c.s), c.around) && (failed <==> !old(Recoverable(c.s)))
  {
    hide Convergence.Round, CalmRun, CalmFails, Behaviour, Initial;
    RestedTimely(c.s);
    RoundFails(c.s, url, c.around);
    failed := RunOnce(c);
    RoundIsRun(old(c.s), c.around);
    RoundFavourable(old(c.s), url, c.around);
    CatchUpLister(c);
  }

  lemma LaggingTimely(s: State, url: string)
    requires Lagging(s, url)
    ensures Timely(s)
  {
  }

  // One run on an older version the lister still holds leads to where RunRounds starts.
  method RunLagging(c: Cluster, ghost url: string) returns (failed: bool)
    requires c.Valid() && Initial(c.start) && c.script == [] && c.around.outage.NoOutage?
    requires Lagging(c.s, url) && Recoverable(c.s) && CopyRecoverable(c.s)
    modifies c`s, c`trace, c`script
    ensures c.Valid() && c.script == [] && c.s == Round(old(c.s), c.around)
    ensures Favourable(c.s, url) && Recoverable(c.s) && Last(c.s).spec == Last(old(c.s)).spec && !failed
  {
    hide Convergence.Round, CalmRun, CalmFails, Behaviour, Initial, Apply, Enabled, Favourable, Recoverable, Timely;
    LaggingTimely(c.s, url);
    LaggingSucceeds(c.s, url, c.around);
    failed := RunOnce(c);
    RoundIsRun(old(c.s), c.around);
    LaggingRound(old(c.s), url, c.around);
    CatchUpLister(c);
  }

  // One run on an object being deleted: the finalizer goes exactly if no hook
  // is recorded or the recorded one exists, the object exactly if no other
  // finalizer holds it; otherwise nothing changes, however often it is run.
  method RunFinal(c: Cluster) returns (failed: bool)
    requires c.Valid() && Initial(c.start) && c.script == [] && c.around.outage.NoOutage?
    requires Rested(c.s) && Last(c.s).deleting && c.s.finalizer in Last(c.s).finalizers
    modifies c`s, c`trace, c`script
    ensures c.Valid() && c.script == [] && c.s == Round(old(c.s), c.around)
    ensures old(Findable(c.s)) <==> old(c.s.finalizer) !in Last(c.s).finalizers
    ensures c.s.gone <==> old(Findable(c.s)) && Elements(Last(old(c.s)).finalizers) == {old(c.s.finalizer)}
    ensures old(Findable(c.s)) && Last(old(c.s)).status.webhookID.Some? ==> KeyFor(Last(old(c.s))) !in c.s.hooks
    ensures !old(Findable(c.s)) ==> c.s == old(c.s)
    ensures failed <==> !old(Findable(c.s))
  {
    hide Convergence.Round, CalmRun, CalmFails, Behaviour, Initial, Apply, Enabled, Findable;
    RestedTimely(c.s);
    FinalizationFails(c.s, c.around);
    failed := RunOnce(c);
    RoundIsRun(old(c.s), c.around);
    FinalizedRound(old(c.s), c.around);
    Finalized(old(c.s), c.around);
    CatchUpLister(c);
  }

  // A recorded hook that does not exist keeps the object for ever.
  method RunFinals(c: Cluster, n: nat) returns (failures: nat)
    requires c.Valid() && Initial(c.start) && c.script == [] && c.around.outage.NoOutage?
    requires Rested(c.s) && Last(c.s).deleting && c.s.finalizer in Last(c.s).finalizers && !Findable(c.s)
    modifies c`s, c`trace, c`script
    ensures c.Valid() && c.script == [] && c.s == old(c.s) && failures == n
  {
    hide Behaviour, Initial, Findable;
    failures := 0;
    for i := 0 to n
      invariant c.Valid() && c.script == [] && c.s == old(c.s) && failures == i
    {
      var failed := RunFinal(c);
      if failed { failures := failures + 1; }
    }
  }

  lemma RoundsRecoverable(s: State, url: string, w: Surroundings, n: nat)
    requires Favourable(s, url) && w.outage.NoOutage?
    ensures Recoverable(Rounds(s, n, w)) <==> Recoverable(s)
  {
    if Recoverable(s) {
      AlwaysRecoverable(s, url, w, n);
    } else {
      StaysBroken(s, url, w, n);
    }
  }

  lemma {:induction false} AlwaysRecoverable(s: State, url: string, w: Surroundings, n: nat)
    requires Favourable(s, url) && Recoverable(s) && w.outage.NoOutage?
    ensures Favourable(Rounds(s, n, w), url) && Recoverable(Rounds(s, n, w))
  {
    hide Convergence.Round;
    if n > 0 {
      AlwaysRecoverable(s, url, w, n - 1);
      FirstRound(Rounds(s, n - 1, w), url, w);
    }
  }

  // Two runs or more bring the project's hook to what the spec asks for,
  // unless the recorded hook does not exist.
  method RunRounds(c: Cluster, ghost url: string, n: nat) returns (failures: nat)
    requires c.Valid() && Initial(c.start) && c.script == [] && c.around.outage.NoOutage? && Favourable(c.s, url)
    modifies c`s, c`trace, c`script
    ensures c.Valid() && c.script == [] && c.s == Rounds(old(c.s), n, c.around)
    ensures n >= 2 && old(Recoverable(c.s)) ==> InPlace(c.s, url) && Healthy(c.s, url, c.around)
    ensures !old(Recoverable(c.s)) ==> !InPlace(c.s, url) && c.s.hooks == old(c.s.hooks)
    ensures failures == if old(Recoverable(c.s)) then 0 else n
  {
    hide Convergence.Round, Initial, Favourable, Healthy, Recoverable;
    ghost var s := c.s;
    failures := 0;
    for i := 0 to n
      invariant c.Valid() && c.script == [] && Favourable(c.s, url)
      invariant WellFormed(s) && c.s == Rounds(s, i, c.around)
      invariant failures == if Recoverable(s) then 0 else i
    {
      RoundsRecoverable(s, url, c.around, i);
      var failed := RunRound(c, url);
      if failed { failures := failures + 1; }
    }
    if Recoverable(s) {
      if n >= 2 { Converges(s, url, c.around, n); }
    } else {
      StaysBroken(s, url, c.around, n);
      NotInPlace(c.s, url);
    }
  }

  // A stranger comes by the recorded key; the next call overwrites their hook.
  method RunOverStranger(c: Cluster, ghost url: string, stranger: Hook) returns (failed: bool)
    requires c.Valid() && Initial(c.start) && c.script == [] && c.around.outage.NoOutage? && Favourable(c.s, url)
    requires Last(c.s).status.webhookID.Some? && KeyFor(Last(c.s)) !in c.s.issued
    modifies c`s, c`trace, c`script
    ensures c.Valid() && c.script == [] && !failed
    ensures var key := KeyFor(Last(old(c.s)));
      key !in c.s.created && key in c.s.hooks && c.s.hooks[key] == WantedHook(Last(old(c.s)).spec, url)
  {
    hide Convergence.Round, Behaviour, Initial, Reachable;
    ClusterReachable(c);
    StrangersHookOverwritten(c.s, url, stranger, c.around);
    c.Act(World(ForeignHook(KeyFor(Last(c.s)), stranger)));
    failed := RunRound(c, url);
  }

  // The same on an object being deleted; the next call deletes their hook.
  method RunFinalOverStranger(c: Cluster, stranger: Hook) returns (failed: bool)
    requires c.Valid() && Initial(c.start) && c.script == [] && c.around.outage.NoOutage?
    requires Rested(c.s) && Last(c.s).deleting && c.s.finalizer in Last(c.s).finalizers
    requires Last(c.s).status.webhookID.Some? && KeyFor(Last(c.s)) !in c.s.issued
    modifies c`s, c`trace, c`script
    ensures c.Valid() && c.script == [] && !failed
    ensures var key := KeyFor(Last(old(c.s)));
      && key in c.s.issued && key !in c.s.created && key !in c.s.hooks && old(c.s.finalizer) !in Last(c.s).finalizers
  {
    hide Convergence.Round, Behaviour, Initial, Reachable;
    ClusterReachable(c);
    StrangersHookDeleted(c.s, stranger, c.around);
    c.Act(World(ForeignHook(KeyFor(Last(c.s)), stranger)));
    failed := RunFinal(c);
  }
}
