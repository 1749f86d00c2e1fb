// The world one GitLabSource lives in, as a step system: the API server's
// stored versions, the lister's copy, GitLab's hooks, the owned Services, and
// the reconcile run in progress. Actions are the effects a caller can have on
// it; calls that fail without an effect are not actions. Whether a missing
// hook can be told from other failures depends on the GitLab client: the
// vendored one reports status 404 as a sentinel the controller does not know.
module Protocol {
  import opened Sources
  import opened StatusRules
  import opened Strings

  // What the run in progress has done so far.
  datatype Run = Run(
    base: nat,           // the version the lister handed to this run
    stale: bool,         // the stored object had already moved on
    version: nat,        // the version of the copy being worked on
    missing: bool,       // GitLab said the recorded hook does not exist
    attempted: bool,     // a hook was requested
    added: Option<int>,  // ... and GitLab answered with this id
    removed: bool,       // the recorded hook was deleted
    ignored: bool,       // finalization gave up on deleting the recorded hook
    vacant: bool,        // no owned Service was listed
    adapter: Option<string>,  // the URL of the ready adapter that was listed
    unread: set<Option<nat>>)  // how reads of the token failed: the status that refused them, or no answer

  // Events that can cost a hook its record.
  datatype Tally = Tally(
    lostWrites: nat,   // runs that added a hook whose id never reached the status
    lostReplies: nat,  // hooks GitLab created without the controller learning the id
    staleRuns: nat,    // runs that began from a copy older than the stored object
    forgotten: nat,    // project URL changes a restarted lister went back over, plus one per such restart
    ignored: nat)      // finalizations that took an ignore branch

  datatype State = State(
    finalizer: string,         // the name of the finalizer this controller owns
    sentinel: bool,            // the GitLab client reports status 404 as its ErrNotFound value
    history: seq<Source>,      // every version ever stored, oldest first
    gone: bool,                // the object was removed from the API server
    cache: nat,                // the version the lister holds
    hooks: map<HookKey, Hook>, // the hooks that exist
    issued: set<HookKey>,      // every id GitLab ever gave out
    created: set<HookKey>,     // those given to this source's controller
    services: seq<Service>,
    creates: nat,              // owned Services created
    removals: nat,             // owned Services removed by others
    tally: Tally,
    run: Option<Run>)

  function Last(s: State): Source
    requires s.history != []
  {
    s.history[|s.history| - 1]
  }

  predicate WellFormed(s: State) {
    && s.history != []
    && s.cache < |s.history|
    && (s.run.Some? ==> s.run.value.base < |s.history| && s.run.value.version < |s.history|)
  }

  // The copy the run works on.
  function Copy(s: State): Source
    requires WellFormed(s) && s.run.Some?
  {
    s.history[s.run.value.version]
  }

  function Owned(services: seq<Service>): nat {
    if services == [] then 0
    else Owned(services[..|services| - 1]) + (if services[|services| - 1].controlled then 1 else 0)
  }

  function FirstOwned(services: seq<Service>): (r: Option<Service>)
    ensures r.Some? ==> r.value.controlled && r.value in services
  {
    if services == [] then None
    else if services[0].controlled then Some(services[0])
    else FirstOwned(services[1..])
  }

  // It is the first controlled one in the order listed.
  lemma {:induction false} FirstOwnedAt(services: seq<Service>, i: nat)
    requires i < |services| && services[i].controlled && forall j :: 0 <= j < i ==> !services[j].controlled
    ensures FirstOwned(services) == Some(services[i])
  {
    if i > 0 { FirstOwnedAt(services[1..], i - 1); }
  }

  // Where the adapter listens, if it is ready and has been given a URL.
  function AdapterURL(services: seq<Service>): Option<string> {
    var owned := FirstOwned(services);
    if owned.Some? && owned.value.ready then owned.value.url else None
  }

  // How often the project URL had changed by version i.
  function Moves(h: seq<Source>, i: nat): nat
    requires i < |h|
  {
    if i == 0 then 0
    else Moves(h, i - 1) + (if h[i - 1].spec.projectURL != h[i].spec.projectURL then 1 else 0)
  }

  // What other writers and the world do.
  datatype WorldStep =
    | EditSpec(spec: Spec)
    | MarkDeleted
    | EditFinalizers(finalizers: seq<string>)
    | RemoveHook(key: HookKey)
    | ChangeHook(key: HookKey, hook: Hook)
    | ForeignHook(key: HookKey, hook: Hook)
    | RemoveService(index: nat)
    | ChangeService(index: nat, ready: bool, url: Option<string>)
    | ForeignService(service: Service)
    | CatchUp(to: nat)

  // What the run in progress does. replied: the caller learnt that it worked.
  datatype ControllerStep =
    | PatchFinalizers(finalizers: seq<string>, replied: bool)
    | FindNoService
    | FindAdapter(url: string)
    | CreateService(name: string)
    | FindHookMissing
    | AddHook(id: int, hook: Hook, replied: bool)
    | EditHook(hook: Hook)
    | DeleteHook(replied: bool)
    | FailToken(answer: Option<nat>)
    | IgnoreHook
    | WriteStatus(submitted: Source)

  datatype Action =
    | World(world: WorldStep)
    | Begin
    | Controller(step: ControllerStep)
    | End
    | Restart(to: nat)

  // Stores a new version; an object being deleted that nothing holds back is removed.
  function Store(s: State, o: Source): State
    requires s.history != []
  {
    s.(history := s.history + [o.(version := |s.history|)],
       gone := o.deleting && o.finalizers == [])
  }

  predicate WorldEnabled(s: State, w: WorldStep)
    requires WellFormed(s)
  {
    match w
    case EditSpec(_) => !s.gone
    case MarkDeleted => !s.gone && !Last(s).deleting
    case EditFinalizers(fs) =>
      // Others leave our finalizer alone; none can be added once deletion has begun.
      && !s.gone
      && (s.finalizer in fs <==> s.finalizer in Last(s).finalizers)
      && (Last(s).deleting ==> forall f | f in fs :: f in Last(s).finalizers)
    case RemoveHook(key) => key in s.hooks
    case ChangeHook(key, _) => key in s.hooks
    case ForeignHook(key, _) => key !in s.issued
    case RemoveService(i) => i < |s.services|
    case ChangeService(i, _, _) => i < |s.services|
    case ForeignService(svc) => !svc.controlled
    case CatchUp(to) => s.cache <= to < |s.history|
  }

  // The stored object after another writer's edit.
  function Edited(o: Source, w: WorldStep): Source {
    match w
    case EditSpec(spec) => o.(spec := spec, generation := o.generation + 1)
    case MarkDeleted => o.(deleting := true, generation := o.generation + 1)
    case EditFinalizers(fs) => o.(finalizers := fs)
    case _ => o
  }

  function WorldApply(s: State, w: WorldStep): State
    requires WellFormed(s) && WorldEnabled(s, w)
  {
    match w
    case EditSpec(_) => Store(s, Edited(Last(s), w))
    case MarkDeleted => Store(s, Edited(Last(s), w))
    case EditFinalizers(_) => Store(s, Edited(Last(s), w))
    case RemoveHook(key) => s.(hooks := s.hooks - {key})
    case ChangeHook(key, hook) => s.(hooks := s.hooks[key := hook])
    case ForeignHook(key, hook) => s.(hooks := s.hooks[key := hook], issued := s.issued + {key})
    case RemoveService(i) =>
      s.(services := s.services[..i] + s.services[i + 1..],
         removals := s.removals + if s.services[i].controlled then 1 else 0)
    case ChangeService(i, ready, url) =>
      s.(services := s.services[i := s.services[i].(ready := ready, url := url)])
    case ForeignService(svc) => s.(services := s.services + [svc])
    case CatchUp(to) => s.(cache := to)
  }

  // A run begins with the lister's copy.
  function Begun(s: State): State
    requires WellFormed(s)
  {
    var stale := s.gone || s.cache < |s.history| - 1;
    s.(run := Some(Run(s.cache, stale, s.cache, false, false, None, false, false, false, None, {})),
       tally := if stale then s.tally.(staleRuns := s.tally.staleRuns + 1) else s.tally)
  }

  // The run ends, or its process dies: an added hook that the stored status does not name is lost.
  function Finish(s: State): State
    requires s.history != []
  {
    if s.run.None? then s
    else
      var added := s.run.value.added;
      var lost := added.Some? && (s.gone || Last(s).status.webhookID != added);
      s.(run := None,
         tally := if lost then s.tally.(lostWrites := s.tally.lostWrites + 1) else s.tally)
  }

  // The project URL changes a new lister at version `to` has not seen any more, and one for having lost any.
  function Forgets(s: State, to: nat): nat
    requires s.cache < |s.history| && to < |s.history|
  {
    var before, after := Moves(s.history, s.cache), Moves(s.history, to);
    if after < before then before - after + 1 else 0
  }

  // A new process's lister starts from any version.
  function Restarted(s: State, to: nat): State
    requires s.cache < |s.history| && to < |s.history|
  {
    s.(cache := to, tally := s.tally.(forgotten := s.tally.forgotten + Forgets(s, to)))
  }

  // ---- The run's own steps ----

  function Others(fs: seq<string>, name: string): seq<string> {
    if fs == [] then []
    else (if fs[0] == name then [] else [fs[0]]) + Others(fs[1..], name)
  }

  // The finalizer list after removing one name: sets.List of the others.
  function WithoutFinalizer(fs: seq<string>, name: string): seq<string> {
    SortedSet(Others(fs, name))
  }

  predicate Running(s: State) {
    WellFormed(s) && s.run.Some?
  }

  // The hook the run's copy names.
  predicate NamesHook(s: State)
    requires Running(s)
  {
    Copy(s).status.webhookID.Some?
  }

  function NamedHook(s: State): HookKey
    requires Running(s) && NamesHook(s)
  {
    HookKey(Copy(s).spec.projectURL, Copy(s).status.webhookID.value)
  }

  // The recorded hook needs no further attention from finalization.
  predicate Settled(s: State)
    requires Running(s)
  {
    !NamesHook(s) || s.run.value.removed || s.run.value.ignored
  }

  // What a merge patch may ask for, given the copy it was computed from.
  predicate PatchAllowed(s: State, fs: seq<string>)
    requires Running(s)
  {
    var copy := Copy(s);
    if s.finalizer !in copy.finalizers then
      !copy.deleting && fs == copy.finalizers + [s.finalizer]
    else
      copy.deleting && Settled(s) && fs == WithoutFinalizer(copy.finalizers, s.finalizer)
  }

  // The patch carries the copy's resource version, so it only applies to that version.
  predicate Current(s: State)
    requires Running(s)
  {
    !s.gone && s.run.value.version == |s.history| - 1
  }

  function Patched(s: State, fs: seq<string>, replied: bool): State
    requires Running(s)
  {
    var t := Store(s, Last(s).(finalizers := fs));
    if replied then t.(run := Some(s.run.value.(version := |s.history|))) else t
  }

  // A run on an object held by the finalizer that has asked for no hook yet.
  predicate Willing(s: State)
    requires Running(s)
  {
    !Copy(s).deleting && s.finalizer in Copy(s).finalizers && !s.run.value.attempted
  }

  // Once it has seen a ready adapter it may add one hook ...
  predicate Addable(s: State)
    requires Running(s)
  {
    Willing(s) && s.run.value.adapter.Some?
  }

  // ... if none is recorded, or the recorded one is missing.
  predicate AddAllowed(s: State)
    requires Running(s)
  {
    Addable(s) && (!NamesHook(s) || s.run.value.missing)
  }

  // The lister's object this run started from.
  function Origin(s: State): Source
    requires Running(s)
  {
    s.history[s.run.value.base]
  }

  // From s to t the run's copy, its origin and the controller's name stayed the same.
  predicate Keeps(s: State, t: State)
    requires Running(s)
  {
    Running(t) && Copy(t) == Copy(s) && Origin(t) == Origin(s) && t.finalizer == s.finalizer
  }

  function NewHook(s: State, id: int): HookKey
    requires Running(s)
  {
    HookKey(Copy(s).spec.projectURL, id)
  }

  function Added(s: State, id: int, hook: Hook, replied: bool): State
    requires Running(s)
  {
    var key := NewHook(s, id);
    s.(hooks := s.hooks[key := hook],
       issued := s.issued + {key},
       created := s.created + {key},
       tally := if replied then s.tally else s.tally.(lostReplies := s.tally.lostReplies + 1),
       run := Some(s.run.value.(attempted := true, added := if replied then Some(id) else None)))
  }

  function Deleted(s: State, replied: bool): State
    requires Running(s) && NamesHook(s)
  {
    s.(hooks := s.hooks - {NamedHook(s)},
       run := Some(s.run.value.(removed := s.run.value.removed || replied)))
  }

  function Unread(s: State, answer: Option<nat>): State
    requires Running(s)
  {
    s.(run := Some(s.run.value.(unread := s.run.value.unread + {answer})))
  }

  // Finalization may give up: the Secret with the token is missing, or access was denied.
  predicate Hopeless(s: State)
    requires Running(s)
  {
    Some(404) in s.run.value.unread || Some(401) in s.run.value.unread
  }

  function Ignored(s: State): State
    requires Running(s)
  {
    s.(run := Some(s.run.value.(ignored := true)),
       tally := s.tally.(ignored := s.tally.ignored + 1))
  }

  // What a status write may say: the truth, and the hook this run knows of.
  predicate StatusAllowed(s: State, st: Status)
    requires Running(s)
  {
    var r, copy := s.run.value, Copy(s);
    && (!copy.deleting ==> Truthful(st))
    && (|| (r.added.Some? && st.webhookID == r.added)
        || (r.added.None? && st.webhookID == copy.status.webhookID)
        || (r.added.None? && st.webhookID.None? && copy.deleting
            && r.removed && (s.finalizer !in copy.finalizers || s.gone)))
  }

  // It submits an object read at some version with only its status replaced.
  predicate WriteAllowed(s: State, o: Source)
    requires Running(s)
  {
    && o.version < |s.history|
    && o == s.history[o.version].(status := o.status)
    && StatusAllowed(s, o.status)
  }

  // Optimistic locking on the submitted object's resource version.
  predicate WriteApplies(s: State, o: Source) {
    !s.gone && o.version == |s.history| - 1
  }

  function NoneFound(s: State): State
    requires Running(s)
  {
    s.(run := Some(s.run.value.(vacant := true)))
  }

  function AdapterFound(s: State, url: string): State
    requires Running(s)
  {
    s.(run := Some(s.run.value.(adapter := Some(url))))
  }

  function Created(s: State, name: string): State
    requires Running(s)
  {
    s.(services := s.services + [Service(name, true, false, None)],
       creates := s.creates + 1,
       run := Some(s.run.value.(vacant := false)))
  }

  function FoundMissing(s: State): State
    requires Running(s)
  {
    s.(run := Some(s.run.value.(missing := true)))
  }

  function Reconfigured(s: State, hook: Hook): State
    requires Running(s) && NamesHook(s)
  {
    s.(hooks := s.hooks[NamedHook(s) := hook])
  }

  predicate ControllerEnabled(s: State, c: ControllerStep)
    requires Running(s)
  {
    match c
    case PatchFinalizers(fs, _) => Current(s) && PatchAllowed(s, fs)
    case FindNoService => Owned(s.services) == 0
    case FindAdapter(url) => AdapterURL(s.services) == Some(url)
    case CreateService(_) => s.run.value.vacant
    case FindHookMissing => !s.sentinel && NamesHook(s) && NamedHook(s) !in s.hooks
    case AddHook(id, hook, _) =>
      AddAllowed(s) && id >= 0 && NewHook(s, id) !in s.issued && s.run.value.adapter == Some(hook.url)
    case EditHook(hook) =>
      Addable(s) && NamesHook(s) && NamedHook(s) in s.hooks && s.run.value.adapter == Some(hook.url)
    case DeleteHook(_) => Copy(s).deleting && NamesHook(s) && NamedHook(s) in s.hooks
    case FailToken(_) => true
    case IgnoreHook => Copy(s).deleting && Hopeless(s)
    case WriteStatus(o) => WriteApplies(s, o) && WriteAllowed(s, o)
  }

  function ControllerApply(s: State, c: ControllerStep): State
    requires Running(s) && ControllerEnabled(s, c)
  {
    match c
    case PatchFinalizers(fs, replied) => Patched(s, fs, replied)
    case FindNoService => NoneFound(s)
    case FindAdapter(url) => AdapterFound(s, url)
    case CreateService(name) => Created(s, name)
    case FindHookMissing => FoundMissing(s)
    case AddHook(id, hook, replied) => Added(s, id, hook, replied)
    case EditHook(hook) => Reconfigured(s, hook)
    case DeleteHook(replied) => Deleted(s, replied)
    case FailToken(answer) => Unread(s, answer)
    case IgnoreHook => Ignored(s)
    case WriteStatus(o) => Store(s, o)
  }

  predicate Enabled(s: State, a: Action) {
    && WellFormed(s)
    && match a
       case World(w) => WorldEnabled(s, w)
       case Begin => s.run.None?
       case Controller(c) => Running(s) && ControllerEnabled(s, c)
       case End => Running(s)
       case Restart(to) => to < |s.history|
  }

  function Apply(s: State, a: Action): State
    requires Enabled(s, a)
  {
    match a
    case World(w) => WorldApply(s, w)
    case Begin => Begun(s)
    case Controller(c) => ControllerApply(s, c)
    case End => Finish(s)
    case Restart(to) => Restarted(Finish(s), to)
  }

  // A freshly created object, no hooks or Services of ours, a lister that holds it.
  predicate Initial(s: State) {
    && |s.history| == 1
    && s.history[0].version == 0 && !s.history[0].deleting
    && s.finalizer !in s.history[0].finalizers
    && s.history[0].status == EMPTY_STATUS
    && !s.gone && s.cache == 0
    && s.hooks.Keys <= s.issued && s.created == {}
    && Owned(s.services) == 0 && s.creates == 0 && s.removals == 0
    && s.tally == Tally(0, 0, 0, 0, 0)
    && s.run.None?
  }

  ghost predicate Next(s: State, t: State) {
    exists a :: Enabled(s, a) && t == Apply(s, a)
  }

  ghost predicate NextAt(trace: seq<State>, i: nat)
    requires 0 < i < |trace|
  {
    Next(trace[i - 1], trace[i])
  }

  // Successive states, each an enabled action after the one before.
  ghost predicate Behaviour(trace: seq<State>) {
    trace != [] && forall i :: 0 < i < |trace| ==> NextAt(trace, i)
  }

  ghost predicate Reachable(s: State) {
    WellFormed(s) && exists trace :: Behaviour(trace) && Initial(trace[0]) && trace[|trace| - 1] == s
  }

  lemma BehaviourExtends(trace: seq<State>, a: Action)
    requires Behaviour(trace) && Enabled(trace[|trace| - 1], a)
    ensures Behaviour(trace + [Apply(trace[|trace| - 1], a)])
  {
    var t := trace + [Apply(trace[|trace| - 1], a)];
    forall i | 0 < i < |t| ensures NextAt(t, i) {
      if i < |trace| { assert NextAt(trace, i); }
    }
  }

  lemma WorldWellFormed(s: State, w: WorldStep)
    requires WellFormed(s) && WorldEnabled(s, w)
    ensures WellFormed(WorldApply(s, w))
  {
  }

  lemma StepWellFormed(s: State, c: ControllerStep)
    requires Running(s) && ControllerEnabled(s, c)
    ensures WellFormed(ControllerApply(s, c))
  {
  }

  lemma ApplyWellFormed(s: State, a: Action)
    requires Enabled(s, a)
    ensures WellFormed(Apply(s, a))
  {
    match a
    case World(w) => WorldWellFormed(s, w);
    case Controller(c) => StepWellFormed(s, c);
    case _ =>
  }

  // A reachable state's successors are reachable.
  lemma ReachableStep(s: State, a: Action)
    requires Reachable(s) && Enabled(s, a)
    ensures Reachable(Apply(s, a))
  {
    hide Initial, Enabled, Apply;
    ApplyWellFormed(s, a);
    var trace :| Behaviour(trace) && Initial(trace[0]) && trace[|trace| - 1] == s;
    BehaviourExtends(trace, a);
    var longer := trace + [Apply(s, a)];
    assert longer[0] == trace[0] && longer[|longer| - 1] == Apply(s, a);
  }

  lemma ReachableInitial(s: State)
    requires Initial(s)
    ensures Reachable(s)
  {
    assert Behaviour([s]) && [s][|[s]| - 1] == s;
  }

  // What every action keeps holds all along a behaviour.
  lemma {:induction false} Invariance(trace: seq<State>, p: State -> bool, i: nat)
    requires Behaviour(trace) && i < |trace|
    requires p(trace[0]) && forall s, t :: p(s) && Next(s, t) ==> p(t)
    ensures p(trace[i])
  {
    if i > 0 {
      Invariance(trace, p, i - 1);
      assert NextAt(trace, i);
    }
  }
}
