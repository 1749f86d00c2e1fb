// The shared informer factory under any interleaving of its callers and of
// the goroutines it starts. Everything but the wait group is guarded by the
// factory's lock; Start holds it over its whole loop.
module InformerFactory {
  import opened Sources

  type ThreadId = nat
  type InformerId = nat

  // One informer.Run; it counts in the wait group until it is done.
  datatype Goroutine = Goroutine(informer: InformerId, done: bool)

  // Where a caller is.
  datatype Phase =
    | Idle
    | Starting(todo: set<string>)                        // in Start's loop, holding the lock
    | Adding(todo: set<string>, current: string)         // ... after wg.Add
    | Marking(todo: set<string>, current: string)        // ... after the go statement
    | Waiting                                            // in Shutdown, after unlocking
    | Syncing(informers: map<string, InformerId>)        // in WaitForCacheSync, after unlocking

  datatype State = State(
    informers: map<string, InformerId>,  // by type
    started: set<string>,
    shuttingDown: bool,
    wg: int,
    lock: Option<ThreadId>,
    threads: map<ThreadId, Phase>,
    goroutines: seq<Goroutine>,          // every one ever spawned
    created: nat,                        // informers created so far
    returned: bool)                      // some Shutdown has returned

  datatype Action =
    | BeginStart(t: ThreadId)
    | Skip(t: ThreadId, typ: string)     // already started
    | Add(t: ThreadId, typ: string)      // wg.Add(1)
    | Spawn(t: ThreadId)                 // go
    | Mark(t: ThreadId)                  // startedInformers[typ] = true
    | EndStart(t: ThreadId)
    | InformerFor(t: ThreadId, typ: string)
    | BeginShutdown(t: ThreadId)
    | EndShutdown(t: ThreadId)           // wg.Wait returns
    | BeginSync(t: ThreadId)
    | EndSync(t: ThreadId)
    | Exit(g: nat)                       // informer.Run returns, wg.Done

  function PhaseOf(s: State, t: ThreadId): Phase {
    if t in s.threads then s.threads[t] else Idle
  }

  function Enter(s: State, t: ThreadId, p: Phase): State {
    s.(threads := s.threads[t := p])
  }

  predicate Free(s: State, t: ThreadId) {
    s.lock.None? && PhaseOf(s, t).Idle?
  }

  predicate Enabled(s: State, a: Action) {
    match a
    case BeginStart(t) => Free(s, t)
    case Skip(t, typ) => PhaseOf(s, t).Starting? && typ in PhaseOf(s, t).todo && typ in s.started
    case Add(t, typ) => PhaseOf(s, t).Starting? && typ in PhaseOf(s, t).todo && typ !in s.started
    case Spawn(t) => PhaseOf(s, t).Adding? && PhaseOf(s, t).current in s.informers
    case Mark(t) => PhaseOf(s, t).Marking?
    case EndStart(t) => PhaseOf(s, t).Starting? && PhaseOf(s, t).todo == {}
    case InformerFor(t, _) => Free(s, t)
    case BeginShutdown(t) => Free(s, t)
    case EndShutdown(t) => PhaseOf(s, t).Waiting? && s.wg == 0
    case BeginSync(t) => Free(s, t)
    case EndSync(t) => PhaseOf(s, t).Syncing?
    case Exit(g) => g < |s.goroutines| && !s.goroutines[g].done
  }

  function Apply(s: State, a: Action): State
    requires Enabled(s, a)
  {
    match a
    case BeginStart(t) =>
      Enter(s, t, Starting(if s.shuttingDown then {} else s.informers.Keys)).(lock := Some(t))
    case Skip(t, typ) => Enter(s, t, Starting(PhaseOf(s, t).todo - {typ}))
    case Add(t, typ) => Enter(s, t, Adding(PhaseOf(s, t).todo - {typ}, typ)).(wg := s.wg + 1)
    case Spawn(t) =>
      var p := PhaseOf(s, t);
      Enter(s, t, Marking(p.todo, p.current)).(
        goroutines := s.goroutines + [Goroutine(s.informers[p.current], false)])
    case Mark(t) =>
      var p := PhaseOf(s, t);
      Enter(s, t, Starting(p.todo)).(started := s.started + {p.current})
    case EndStart(t) => Enter(s, t, Idle).(lock := None)
    case InformerFor(t, typ) =>
      if typ in s.informers then s
      else s.(informers := s.informers[typ := s.created], created := s.created + 1)
    case BeginShutdown(t) => Enter(s, t, Waiting).(shuttingDown := true)
    case EndShutdown(t) => Enter(s, t, Idle).(returned := true)
    case BeginSync(t) => Enter(s, t, Syncing(map typ | typ in s.informers && typ in s.started :: s.informers[typ]))
    case EndSync(t) => Enter(s, t, Idle)
    case Exit(g) => s.(goroutines := s.goroutines[g := s.goroutines[g].(done := true)], wg := s.wg - 1)
  }

  predicate Initial(s: State) {
    && s.informers == map[] && s.started == {} && !s.shuttingDown && s.wg == 0 && s.lock.None?
    && s.threads == map[] && s.goroutines == [] && s.created == 0 && !s.returned
  }

  ghost predicate Next(s: State, t: State) {
    exists a :: Enabled(s, a) && t == Apply(s, a)
  }

  ghost predicate NextAt(trace: seq<State>, i: nat)
    requires 0 < i < |trace|
  {
    Next(trace[i - 1], trace[i])
  }

  ghost predicate Behaviour(trace: seq<State>) {
    trace != [] && Initial(trace[0]) && forall i :: 0 < i < |trace| ==> NextAt(trace, i)
  }

  // ---- The invariant ----

  function Live(gs: seq<Goroutine>): nat {
    if gs == [] then 0
    else Live(gs[..|gs| - 1]) + (if gs[|gs| - 1].done then 0 else 1)
  }

  predicate InStart(p: Phase) {
    p.Starting? || p.Adding? || p.Marking?
  }

  // Whether an informer has been run.
  predicate Ran(s: State, id: InformerId) {
    exists g :: 0 <= g < |s.goroutines| && s.goroutines[g].informer == id
  }

  // The type between wg.Add and the go statement, and the one between that and its mark.
  predicate AddedOnly(s: State) {
    s.lock.Some? && PhaseOf(s, s.lock.value).Adding?
  }

  predicate Unmarked(s: State, typ: string) {
    s.lock.Some? && PhaseOf(s, s.lock.value).Marking? && PhaseOf(s, s.lock.value).current == typ
  }

  // The lock is held by exactly the caller in Start, which has nothing to start once shutdown has begun.
  predicate Locked(s: State) {
    && (forall t :: t in s.threads && InStart(s.threads[t]) ==> s.lock == Some(t))
    && (s.lock.Some? ==> InStart(PhaseOf(s, s.lock.value)))
    && (s.lock.Some? ==> PhaseOf(s, s.lock.value).todo <= s.informers.Keys)
    && (s.lock.Some? && s.shuttingDown ==> PhaseOf(s, s.lock.value) == Starting({}))
    && (s.lock.Some? && !PhaseOf(s, s.lock.value).Starting? ==>
        PhaseOf(s, s.lock.value).current in s.informers && PhaseOf(s, s.lock.value).current !in s.started)
  }

  // One informer per type, each its own.
  predicate Known(s: State) {
    && (forall typ :: typ in s.informers ==> s.informers[typ] < s.created)
    && (forall a, b :: a in s.informers && b in s.informers && a != b ==> s.informers[a] != s.informers[b])
    && s.started <= s.informers.Keys
  }

  // The informers that were run are those of the started types, each once.
  predicate RunOnce(s: State) {
    && (forall g, h :: 0 <= g < h < |s.goroutines| ==> s.goroutines[g].informer != s.goroutines[h].informer)
    && (forall g :: 0 <= g < |s.goroutines| ==> s.goroutines[g].informer < s.created)
    && (forall typ :: typ in s.informers ==> (Ran(s, s.informers[typ]) <==> typ in s.started || Unmarked(s, typ)))
  }

  predicate Counted(s: State) {
    s.wg == Live(s.goroutines) + if AddedOnly(s) then 1 else 0
  }

  // Shutdown only waits after announcing itself, and once one has returned nothing runs.
  predicate Quiet(s: State) {
    && (forall t :: t in s.threads && s.threads[t].Waiting? ==> s.shuttingDown)
    && (s.returned ==> s.shuttingDown && Live(s.goroutines) == 0)
  }

  // What WaitForCacheSync waits for has been run.
  predicate Synced(s: State) {
    forall t :: t in s.threads && s.threads[t].Syncing? ==>
      forall typ :: typ in s.threads[t].informers ==> typ in s.started && typ in s.informers && s.informers[typ] == s.threads[t].informers[typ]
  }

  predicate Inv(s: State) {
    Locked(s) && Known(s) && RunOnce(s) && Counted(s) && Quiet(s) && Synced(s)
  }

  lemma LiveAppend(gs: seq<Goroutine>, g: Goroutine)
    ensures Live(gs + [g]) == Live(gs) + if g.done then 0 else 1
  {
    assert (gs + [g])[..|gs|] == gs;
  }

  lemma {:induction false} LiveExit(gs: seq<Goroutine>, g: nat)
    requires g < |gs| && !gs[g].done
    ensures Live(gs[g := gs[g].(done := true)]) == Live(gs) - 1
  {
    var hs := gs[g := gs[g].(done := true)];
    if g == |gs| - 1 {
      assert hs[..|gs| - 1] == gs[..|gs| - 1];
    } else {
      assert hs[..|gs| - 1] == gs[..|gs| - 1][g := gs[g].(done := true)];
      LiveExit(gs[..|gs| - 1], g);
    }
  }

  lemma {:induction false} NoneLive(gs: seq<Goroutine>)
    requires Live(gs) == 0
    ensures forall g :: 0 <= g < |gs| ==> gs[g].done
  {
    if gs != [] { NoneLive(gs[..|gs| - 1]); }
  }

  lemma LockedStep(s: State, a: Action)
    requires Inv(s) && Enabled(s, a)
    ensures Locked(Apply(s, a))
  {
  }

  lemma KnownStep(s: State, a: Action)
    requires Inv(s) && Enabled(s, a)
    ensures Known(Apply(s, a))
  {
  }

  lemma CountedStep(s: State, a: Action)
    requires Inv(s) && Enabled(s, a)
    ensures Counted(Apply(s, a))
  {
    hide RunOnce, Known, Synced, Quiet;
    match a
    case Spawn(t) => LiveAppend(s.goroutines, Goroutine(s.informers[PhaseOf(s, t).current], false));
    case Exit(g) => LiveExit(s.goroutines, g);
    case _ =>
  }

  lemma QuietStep(s: State, a: Action)
    requires Inv(s) && Enabled(s, a)
    ensures Quiet(Apply(s, a))
  {
    match a
    case Spawn(t) =>
    case Exit(g) => LiveExit(s.goroutines, g);
    case _ =>
  }

  lemma SyncedStep(s: State, a: Action)
    requires Inv(s) && Enabled(s, a)
    ensures Synced(Apply(s, a))
  {
  }

  lemma RunOnceSpawn(s: State, t: ThreadId)
    requires Inv(s) && Enabled(s, Spawn(t))
    ensures RunOnce(Apply(s, Spawn(t)))
  {
    var p := PhaseOf(s, t);
    var u := Apply(s, Spawn(t));
    var id := s.informers[p.current];
    assert !Ran(s, id);
    assert u.goroutines[|s.goroutines|].informer == id;
    forall typ | typ in u.informers
      ensures Ran(u, u.informers[typ]) <==> typ in u.started || Unmarked(u, typ)
    {
      if Ran(s, s.informers[typ]) {
        var g :| 0 <= g < |s.goroutines| && s.goroutines[g].informer == s.informers[typ];
        assert u.goroutines[g].informer == s.informers[typ];
      }
    }
  }

  lemma RunOnceSame(s: State, t: State)
    requires RunOnce(s) && t.goroutines == s.goroutines && t.informers == s.informers && t.created == s.created
    requires forall typ :: typ in s.informers ==>
      (typ in s.started || Unmarked(s, typ) <==> typ in t.started || Unmarked(t, typ))
    ensures RunOnce(t)
  {
    assert forall id :: Ran(t, id) <==> Ran(s, id);
  }

  lemma RunOnceExit(s: State, g: nat)
    requires Inv(s) && Enabled(s, Exit(g))
    ensures RunOnce(Apply(s, Exit(g)))
  {
    var t := Apply(s, Exit(g));
    assert forall h :: 0 <= h < |s.goroutines| ==> t.goroutines[h].informer == s.goroutines[h].informer;
    assert forall id :: Ran(t, id) <==> Ran(s, id);
  }

  lemma RunOnceNew(s: State, t: ThreadId, typ: string)
    requires Inv(s) && Enabled(s, InformerFor(t, typ))
    ensures RunOnce(Apply(s, InformerFor(t, typ)))
  {
    var u := Apply(s, InformerFor(t, typ));
    assert forall id :: Ran(u, id) <==> Ran(s, id);
    assert !Ran(s, s.created);
  }

  lemma RunOnceStep(s: State, a: Action)
    requires Inv(s) && Enabled(s, a)
    ensures RunOnce(Apply(s, a))
  {
    match a
    case Spawn(t) => RunOnceSpawn(s, t);
    case Exit(g) => RunOnceExit(s, g);
    case InformerFor(t, typ) => RunOnceNew(s, t, typ);
    case _ => RunOnceSame(s, Apply(s, a));
  }

  lemma InvNext(s: State, t: State)
    requires Inv(s) && Next(s, t)
    ensures Inv(t)
  {
    var a :| Enabled(s, a) && t == Apply(s, a);
    LockedStep(s, a);
    KnownStep(s, a);
    RunOnceStep(s, a);
    CountedStep(s, a);
    QuietStep(s, a);
    SyncedStep(s, a);
  }

  lemma {:induction false} InvAlong(trace: seq<State>, i: nat)
    requires Behaviour(trace) && i < |trace|
    ensures Inv(trace[i])
  {
    if i > 0 {
      InvAlong(trace, i - 1);
      assert NextAt(trace, i);
      InvNext(trace[i - 1], trace[i]);
    }
  }

  // ---- What holds along every behaviour ----

  // Each informer is run at most once, and only those of started types are;
  // started types are known types.
  lemma EachRunOnce(trace: seq<State>, i: nat)
    requires Behaviour(trace) && i < |trace|
    ensures var s := trace[i];
      && s.started <= s.informers.Keys
      && (forall g, h :: 0 <= g < h < |s.goroutines| ==> s.goroutines[g].informer != s.goroutines[h].informer)
      && (s.lock.None? ==> forall typ :: typ in s.informers ==> (Ran(s, s.informers[typ]) <==> typ in s.started))
  {
    InvAlong(trace, i);
  }

  // The wait group counts the goroutines that are not done, and one about to be spawned.
  lemma WaitGroupCounts(trace: seq<State>, i: nat)
    requires Behaviour(trace) && i < |trace|
    ensures trace[i].wg == Live(trace[i].goroutines) + if AddedOnly(trace[i]) then 1 else 0
    ensures trace[i].lock.None? ==> trace[i].wg == Live(trace[i].goroutines)
  {
    InvAlong(trace, i);
  }

  lemma QuietNext(s: State, t: State)
    requires Inv(s) && s.returned && Next(s, t)
    ensures t.returned && t.goroutines == s.goroutines
  {
    hide RunOnce, Known, Counted, Synced;
    NoneLive(s.goroutines);
  }

  // Once any Shutdown has returned, no informer is running, and none is ever started again.
  lemma {:induction false} NothingAfterShutdown(trace: seq<State>, i: nat, j: nat)
    requires Behaviour(trace) && i <= j < |trace| && trace[i].returned
    ensures trace[j].returned && trace[j].goroutines == trace[i].goroutines
    ensures forall g :: 0 <= g < |trace[j].goroutines| ==> trace[j].goroutines[g].done
  {
    if i < j {
      NothingAfterShutdown(trace, i, j - 1);
      InvAlong(trace, j - 1);
      assert NextAt(trace, j);
      QuietNext(trace[j - 1], trace[j]);
    } else {
      InvAlong(trace, i);
      NoneLive(trace[i].goroutines);
    }
  }

  // WaitForCacheSync only ever waits for informers that were run.
  lemma SyncedRan(trace: seq<State>, i: nat, t: ThreadId, typ: string)
    requires Behaviour(trace) && i < |trace| && t in trace[i].threads
    requires trace[i].threads[t].Syncing? && typ in trace[i].threads[t].informers
    ensures Ran(trace[i], trace[i].threads[t].informers[typ])
  {
    InvAlong(trace, i);
  }

  // It waits for all of them: the informer of every type started when it held the lock.
  lemma SyncsStarted(trace: seq<State>, i: nat, t: ThreadId)
    requires Behaviour(trace) && i < |trace| && Enabled(trace[i], BeginSync(t))
    ensures var (s, u) := (trace[i], Apply(trace[i], BeginSync(t)));
      && t in u.threads && u.threads[t].Syncing?
      && u.threads[t].informers.Keys == s.started
      && forall typ :: typ in s.started ==> typ in s.informers && u.threads[t].informers[typ] == s.informers[typ]
  {
    InvAlong(trace, i);
  }

  // A type keeps the informer it was first given.
  lemma {:induction false} SameInformer(trace: seq<State>, i: nat, j: nat, typ: string)
    requires Behaviour(trace) && i <= j < |trace| && typ in trace[i].informers
    ensures typ in trace[j].informers && trace[j].informers[typ] == trace[i].informers[typ]
  {
    if i < j {
      SameInformer(trace, i, j - 1, typ);
      assert NextAt(trace, j);
    }
  }

  // ---- The factory's methods, each step of which other callers may come between ----

  function Actor(a: Action): Option<ThreadId> {
    if a.Exit? then None else Some(a.t)
  }

  // What the holder of the lock can rely on while others move.
  predicate Undisturbed(s: State, u: State, me: ThreadId) {
    && u.lock == s.lock && PhaseOf(u, me) == PhaseOf(s, me)
    && u.informers == s.informers && u.started == s.started && u.shuttingDown == s.shuttingDown
  }

  lemma OthersBlocked(s: State, a: Action, me: ThreadId)
    requires Inv(s) && Enabled(s, a) && Actor(a) != Some(me) && s.lock == Some(me)
    ensures Undisturbed(s, Apply(s, a), me)
  {
  }

  // What a caller without the lock can rely on: nothing known or started is forgotten.
  predicate Grown(s: State, u: State) {
    && s.informers.Keys <= u.informers.Keys && s.started <= u.started
    && (s.shuttingDown ==> u.shuttingDown)
    && (forall typ :: typ in s.informers ==> u.informers[typ] == s.informers[typ])
  }

  lemma StepGrows(s: State, a: Action)
    requires Inv(s) && Enabled(s, a)
    ensures Grown(s, Apply(s, a))
  {
  }

  // What a caller of WaitForCacheSync waits for: all that was started, which stays started.
  lemma SyncBegun(s: State, me: ThreadId)
    requires Inv(s) && Enabled(s, BeginSync(me))
    ensures var u := Apply(s, BeginSync(me));
      && PhaseOf(u, me).Syncing? && PhaseOf(u, me).informers.Keys == s.started
      && u.started == s.started && Grown(s, u)
  {
  }

  // What is started was run.
  lemma StartedRan(s: State)
    requires Inv(s)
    ensures forall typ :: typ in s.started ==> typ in s.informers && Ran(s, s.informers[typ])
  {
  }

  lemma SyncEnded(s: State, me: ThreadId)
    requires Inv(s) && Enabled(s, EndSync(me))
    ensures var informers := PhaseOf(s, me).informers;
      && PhaseOf(Apply(s, EndSync(me)), me).Idle? && Grown(s, Apply(s, EndSync(me)))
      && informers.Keys <= s.started && Apply(s, EndSync(me)).started == s.started
      && Apply(s, EndSync(me)).informers == s.informers
      && forall typ :: typ in informers ==> typ in s.informers && s.informers[typ] == informers[typ]
  {
  }

  class SharedInformerFactory {
    var s: State
    var others: seq<Action>  // what the other callers and the goroutines try to do, in order
    ghost var trace: seq<State>

    ghost predicate Valid()
      reads this
    {
      Behaviour(trace) && trace[|trace| - 1] == s && Inv(s)
    }

    constructor ()
      ensures Valid() && Initial(s)
    {
      s := State(map[], {}, false, 0, None, map[], [], 0, false);
      others := [];
      trace := [State(map[], {}, false, 0, None, map[], [], 0, false)];
    }

    method Step(a: Action)
      requires Valid() && Enabled(s, a)
      modifies this`s, this`trace
      ensures Valid() && s == Apply(old(s), a) && trace == old(trace) + [s]
    {
      var t := Apply(s, a);
      assert Next(s, t);
      InvNext(s, t);
      ghost var before := trace;
      s, trace := t, trace + [t];
      forall i | 0 < i < |trace| ensures NextAt(trace, i) {
        if i < |before| { assert NextAt(before, i); }
      }
    }

    // One step of somebody else, if it is possible.
    method Advance(me: ThreadId)
      requires Valid() && others != []
      modifies this
      ensures Valid() && Grown(old(s), s) && PhaseOf(s, me) == PhaseOf(old(s), me) && others == old(others)[1..]
      ensures old(s.lock) == Some(me) ==> Undisturbed(old(s), s, me)
    {
      hide Inv, Behaviour;
      var a := others[0];
      others := others[1..];
      if Actor(a) != Some(me) && Enabled(s, a) {
        StepGrows(s, a);
        if s.lock == Some(me) { OthersBlocked(s, a, me); }
        Step(a);
      }
    }

    // Others move for a while.
    method Yield(me: ThreadId)
      requires Valid()
      modifies this
      ensures Valid() && Grown(old(s), s) && PhaseOf(s, me) == PhaseOf(old(s), me)
      ensures old(s.lock) == Some(me) ==> Undisturbed(old(s), s, me)
    {
      hide Inv, Behaviour;
      var n: int := *;
      while others != [] && n > 0
        invariant Valid() && Grown(old(s), s) && PhaseOf(s, me) == PhaseOf(old(s), me)
        invariant old(s.lock) == Some(me) ==> Undisturbed(old(s), s, me)
        decreases |others|
      {
        Advance(me);
        n := n - 1;
      }
    }

    // Waits until nobody holds the lock. Only a holder that never moves again keeps the caller waiting.
    method AwaitLock(me: ThreadId) returns (free: bool)
      requires Valid() && PhaseOf(s, me).Idle?
      modifies this
      ensures Valid() && Grown(old(s), s) && PhaseOf(s, me).Idle?
      ensures free == s.lock.None? && (!free ==> others == [])
    {
      hide Inv, Behaviour;
      Yield(me);
      while s.lock.Some? && others != []
        invariant Valid() && Grown(old(s), s) && PhaseOf(s, me).Idle?
        decreases |others|
      {
        Advance(me);
      }
      free := s.lock.None?;
    }

    // One turn of Start's loop.
    method StartOne(me: ThreadId, typ: string)
      requires Valid() && PhaseOf(s, me).Starting? && typ in PhaseOf(s, me).todo && s.lock == Some(me)
      modifies this
      ensures Valid() && Grown(old(s), s) && s.lock == Some(me) && typ in s.started
      ensures PhaseOf(s, me) == Starting(PhaseOf(old(s), me).todo - {typ})
    {
      if typ in s.started {
        Step(Skip(me, typ));
      } else {
        Step(Add(me, typ));
        Yield(me);
        Step(Spawn(me));
        Yield(me);
        Step(Mark(me));
      }
    }

    // Start. It waits for the lock; by the time it returns every informer
    // known before has been started, unless shutdown has begun.
    method Start(me: ThreadId) returns (returned: bool)
      requires Valid() && PhaseOf(s, me).Idle?
      modifies this
      ensures Valid() && PhaseOf(s, me).Idle? && Grown(old(s), s)
      ensures returned ==> old(s.informers.Keys) <= s.started || s.shuttingDown
      ensures !returned ==> s.lock.Some? && others == []
    {
      hide Inv, Behaviour;
      returned := AwaitLock(me);
      if !returned { return; }
      ghost var known := s.informers.Keys;
      Step(BeginStart(me));
      while PhaseOf(s, me).todo != {}
        invariant Valid() && Grown(old(s), s) && s.lock == Some(me) && PhaseOf(s, me).Starting?
        invariant s.shuttingDown || known <= PhaseOf(s, me).todo + s.started
        decreases PhaseOf(s, me).todo
      {
        var typ :| typ in PhaseOf(s, me).todo;
        StartOne(me, typ);
        Yield(me);
      }
      Step(EndStart(me));
      return true;
    }

    // Shutdown. It waits for the lock and then for the goroutines; when it
    // returns none of them is left.
    method Shutdown(me: ThreadId) returns (returned: bool)
      requires Valid() && PhaseOf(s, me).Idle?
      modifies this
      ensures Valid()
      ensures returned ==> s.returned && forall g :: 0 <= g < |s.goroutines| ==> s.goroutines[g].done
      ensures !returned ==> (s.lock.Some? || s.wg != 0) && others == []
    {
      returned := AwaitLock(me);
      if !returned { return; }
      Step(BeginShutdown(me));
      Yield(me);
      while s.wg != 0 && others != []
        invariant Valid() && PhaseOf(s, me).Waiting?
        decreases |others|
      {
        Advance(me);
      }
      if s.wg != 0 { return false; }
      Step(EndShutdown(me));
      NoneLive(s.goroutines);
    }

    // InformerFor: the informer of a type, created on first use.
    method InformerFor(me: ThreadId, typ: string) returns (r: Option<InformerId>)
      requires Valid() && PhaseOf(s, me).Idle?
      modifies this
      ensures Valid() && PhaseOf(s, me).Idle? && Grown(old(s), s)
      ensures r.Some? ==> typ in s.informers && s.informers[typ] == r.value
      ensures r.Some? && typ in old(s.informers) ==> r.value == old(s.informers)[typ]
      ensures r.None? ==> s.lock.Some? && others == []
    {
      var free := AwaitLock(me);
      if !free { return None; }
      StepGrows(s, Action.InformerFor(me, typ));
      Step(Action.InformerFor(me, typ));
      return Some(s.informers[typ]);
    }

    // WaitForCacheSync. It waits for the lock, and then on every informer
    // started by then: which of them have synced when asked.
    method WaitForCacheSync(me: ThreadId, synced: InformerId -> bool) returns (res: Option<map<string, bool>>)
      requires Valid() && PhaseOf(s, me).Idle?
      modifies this
      ensures Valid() && PhaseOf(s, me).Idle? && Grown(old(s), s)
      ensures res.Some? ==> old(s.started) <= res.value.Keys <= s.started
      ensures res.Some? ==> forall typ :: typ in res.value ==>
        typ in s.informers && Ran(s, s.informers[typ]) && res.value[typ] == synced(s.informers[typ])
      ensures res.None? ==> s.lock.Some? && others == []
    {
      hide Behaviour, Inv, Apply;
      var free := AwaitLock(me);
      if !free { return None; }
      SyncBegun(s, me);
      ghost var s1 := s;
      Step(BeginSync(me));
      var informers := PhaseOf(s, me).informers;
      assert informers.Keys == s1.started;
      var answers: map<string, bool> := map[];
      var rest := informers.Keys;
      while rest != {}
        invariant Valid() && Grown(s1, s) && PhaseOf(s, me) == Syncing(informers)
        invariant rest <= informers.Keys && answers.Keys == informers.Keys - rest
        invariant forall typ :: typ in answers ==> answers[typ] == synced(informers[typ])
        decreases rest
      {
        var typ :| typ in rest;
        Yield(me);
        answers := answers[typ := synced(informers[typ])];
        rest := rest - {typ};
      }
      SyncEnded(s, me);
      Step(EndSync(me));
      StartedRan(s);
      return Some(answers);
    }
  }
}
