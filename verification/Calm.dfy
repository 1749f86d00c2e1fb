// What one run does when nothing else moves and every call succeeds, but for
// one lasting outage if there is one, as a function of the state it starts from.
module Calm {
  import opened Sources
  import opened ConditionSets
  import opened StatusRules
  import opened Strings
  import opened EventTypes
  import opened WebhookOptions
  import opened Protocol
  import opened Clusters

  function AddOptionsFor(spec: Spec, url: string): HookOptions {
    HookOptions(url, spec.sslVerify, Sparse(Wanted(Cases(spec.eventTypes))))
  }

  function EditOptionsFor(spec: Spec, url: string): HookOptions {
    HookOptions(url, spec.sslVerify, Full(Wanted(Cases(spec.eventTypes))))
  }

  // The hook the spec asks for.
  function WantedHook(spec: Spec, url: string): Hook {
    Hook(url, spec.sslVerify, Wanted(Cases(spec.eventTypes)))
  }

  // A hook with the spec's URL and SSL setting and, of the flags the client
  // knows, the listed ones on top of others that were on before.
  predicate Carries(h: Hook, spec: Spec, url: string, before: Flags) {
    && h.url == url && h.sslVerify == spec.sslVerify
    && forall w: Webhook :: w != Unsupported ==> (Flag(h.flags, w) <==> NameOf(w) in spec.eventTypes || Flag(before, w))
  }

  // The hook with this id is as the run that added or edited it left it.
  predicate Configured(s: State, id: int, url: string, defaults: Flags)
    requires Running(s)
  {
    var key, spec := HookKey(Copy(s).spec.projectURL, id), Copy(s).spec;
    key in s.hooks && Carries(s.hooks[key], spec, url, if s.run.value.added.Some? then defaults else NO_FLAGS)
  }

  lemma EditWanted(spec: Spec, url: string, prior: Flags)
    ensures Configure(EditOptionsFor(spec, url), prior) == WantedHook(spec, url)
  {
  }

  // An added hook has the listed flags and those GitLab enables on its own ...
  lemma AddedHook(spec: Spec, url: string, defaults: Flags)
    ensures var h := Configure(AddOptionsFor(spec, url), defaults);
      && h.url == url && h.sslVerify == spec.sslVerify
      && forall w: Webhook :: w != Unsupported ==> (Flag(h.flags, w) <==> NameOf(w) in spec.eventTypes || Flag(defaults, w))
  {
    forall w: Webhook | w != Unsupported
      ensures Flag(Configure(AddOptionsFor(spec, url), defaults).flags, w) <==> NameOf(w) in spec.eventTypes || Flag(defaults, w)
    {
      AddByName(spec.eventTypes, defaults, w);
    }
  }

  // ... an edited one the listed flags alone, which says all there is to it.
  lemma EditedHook(spec: Spec, url: string)
    ensures var h := WantedHook(spec, url);
      && h.url == url && h.sslVerify == spec.sslVerify
      && forall w: Webhook :: w != Unsupported ==> (Flag(h.flags, w) <==> NameOf(w) in spec.eventTypes)
  {
    forall w: Webhook | w != Unsupported ensures Flag(WantedHook(spec, url).flags, w) <==> NameOf(w) in spec.eventTypes {
      FlagWanted(Cases(spec.eventTypes), w);
      CaseListed(spec.eventTypes, w);
    }
  }

  // Adding a hook, and editing the recorded one.
  function CalmAdding(s: State, url: string, w: Surroundings): (r: (State, Option<int>))
    requires Running(s)
    ensures r.0.history == s.history
  {
    var id := FreshId(s.issued, Copy(s).spec.projectURL, 0);
    var hook := Configure(AddOptionsFor(Copy(s).spec, url), w.defaults);
    if w.outage.HookAnswers? then (Added(s, id, hook, false), None) else (Added(s, id, hook, true), Some(id))
  }

  function CalmEditing(s: State, url: string): (r: (State, Option<int>))
    requires Running(s) && NamesHook(s) && NamedHook(s) in s.hooks
    ensures r.0.history == s.history
  {
    (Reconfigured(s, Configure(EditOptionsFor(Copy(s).spec, url), s.hooks[NamedHook(s)].flags)), Some(NamedHook(s).id))
  }

  // syncWebhook: the new state, and the hook's id unless it failed.
  function CalmSync(s: State, url: string, w: Surroundings): (r: (State, Option<int>))
    requires Running(s)
    ensures r.0.history == s.history
  {
    if w.outage.Credentials? then (Unread(s, Some(404)), None) else CalmHook(s, url, w)
  }

  // syncWebhook answers an error that fails the run.
  predicate SyncFails(s: State, w: Surroundings)
    requires Running(s)
  {
    !w.outage.Credentials? && HookFails(s, w)
  }

  // ... in its part that talks to GitLab: the recorded hook is missing and
  // cannot be told to be, or the answer to an add does not come.
  predicate HookFails(s: State, w: Surroundings)
    requires Running(s)
  {
    if NamesHook(s) && NamedHook(s) in s.hooks then false
    else (NamesHook(s) && s.sentinel) || w.outage.HookAnswers?
  }

  // Its part that talks to GitLab.
  function CalmHook(s: State, url: string, w: Surroundings): (r: (State, Option<int>))
    requires Running(s)
    ensures r.0.history == s.history
  {
    if !NamesHook(s) then CalmAdding(s, url, w)
    else if NamedHook(s) in s.hooks then CalmEditing(s, url)
    else if s.sentinel then (s, None)
    else CalmAdding(FoundMissing(s), url, w)
  }

  // reconcileAdapter: the new state and the Service in use.
  function CalmAdapter(s: State): (r: (State, Service))
    requires Running(s)
    ensures Running(r.0) && r.0.history == s.history
  {
    var owned := FirstOwned(s.services);
    if owned.Some? then (Listed(s), owned.value)
    else (Created(Listed(s), ""), Service("", true, false, None))
  }

  // The attributes a source advertises.
  function AttributesOf(types: seq<string>, source: string): seq<Attribute> {
    seq(|types|, i requires 0 <= i < |types| => Attribute(types[i], source))
  }

  // Attributes with this source whose types are strictly sorted and exactly what the names are advertised as.
  ghost predicate Announces(attributes: seq<Attribute>, names: seq<string>, source: string) {
    && (forall i :: 0 <= i < |attributes| ==> attributes[i].source == source)
    && (forall i, j :: 0 <= i < j < |attributes| ==> Less(attributes[i].eventType, attributes[j].eventType))
    && (set i | 0 <= i < |attributes| :: attributes[i].eventType) == Advertised(names)
  }

  lemma ListingAnnounced(names: seq<string>, source: string)
    ensures Announces(AttributesOf(Listing(names), source), names, source)
  {
    ListingAdvertises(names);
    var types, attributes := Listing(names), AttributesOf(Listing(names), source);
    forall t | t in Elements(types) ensures t in set i | 0 <= i < |attributes| :: attributes[i].eventType {
      var i :| 0 <= i < |types| && types[i] == t;
      assert attributes[i].eventType == t;
    }
  }

  // The sequence of changes ReconcileKind makes to a status once the sink is resolved.
  function CalmDeployment(s: State, st: Status, w: Surroundings): (r: (State, Status))
    requires Running(s)
    ensures r.0.history == s.history
  {
    var (s1, adapter) := CalmAdapter(s);
    if !adapter.ready then (s1, Marked(st, Deployed, false))
    else if adapter.url.None? then (s1, Marked(st, Deployed, true))
    else CalmWebhook(s1, Marked(st, Deployed, true), adapter.url.value, w)
  }

  function CalmWebhook(s: State, st: Status, url: string, w: Surroundings): (r: (State, Status))
    requires Running(s)
    ensures r.0.history == s.history
  {
    var (t, id) := CalmSync(s, url, w);
    if id.None? then (t, Marked(st, WebhookConfigured, false))
    else (t, Marked(st.(webhookID := id), WebhookConfigured, true))
  }

  // The object's sink, in the object's namespace unless it names another.
  function SinkRef(o: Source): Option<Ref> {
    match o.spec.sinkRef
    case Some(Ref("", name)) => Some(Ref(o.namespace, name))
    case other => other
  }

  // What it resolves to.
  function SinkURI(o: Source, w: Surroundings): Option<string> {
    Resolved(w, SinkRef(o))
  }

  // ReconcileKind on a status, with the attributes it advertises.
  function CalmKind(s: State, st: Status, attributes: seq<Attribute>, w: Surroundings): (r: (State, Status))
    requires Running(s)
    ensures r.0.history == s.history
  {
    CalmDeployment(s, Sunk(st.(attributes := attributes), SinkURI(Copy(s), w)), w)
  }

  // ReconcileKind answers an error that fails the run; the adapter has to be there for that.
  predicate KindFails(s: State, w: Surroundings)
    requires Running(s)
  {
    AdapterURL(s.services).Some? && SyncFails(s, w)
  }

  // setFinalizerIfFinalizer on an object not being deleted.
  function CalmFinalizer(s: State): (t: State)
    requires Running(s)
    ensures Running(t)
  {
    if s.finalizer in Copy(s).finalizers then s
    else Patched(s, Copy(s).finalizers + [s.finalizer], true)
  }

  // updateStatus: the stored status becomes st, unless it already is, the object is gone or writes are refused.
  function CalmWrite(s: State, st: Status, w: Surroundings): State
    requires s.history != []
  {
    if s.gone || Last(s).status == st || w.outage.StatusWrites? then s else Store(s, Last(s).(status := st))
  }

  lemma CalmWriteOnce(s: State, st: Status, w: Surroundings)
    requires s.history != []
    ensures var t := CalmWrite(s, st, w); t.history != [] && CalmWrite(t, st, w) == t
  {
  }

  lemma CalmWriteGone(s: State, st: Status, w: Surroundings)
    requires s.history != []
    ensures s.gone ==> CalmWrite(s, st, w) == s
    ensures CalmWrite(s, st, w).gone == s.gone || !s.gone
  {
  }

  // The attributes a spec is advertised with.
  ghost function Advertisement(spec: Spec): seq<Attribute> {
    AttributesOf(Listing(spec.eventTypes), spec.projectURL)
  }

  // PreProcessReconcile on a status.
  function Opened(st: Status, generation: nat): Status {
    st.(conditions := PreProcess(st.conditions, st.observedGeneration, generation))
  }

  // Reconcile on an object not being deleted, up to the status it is to have.
  ghost function CalmObject(s: State, w: Surroundings): (r: (State, Status))
    requires Running(s)
    ensures r.0.history != []
  {
    var s1 := CalmFinalizer(s);
    var o := Copy(s1);
    var (t, st) := CalmKind(s1, Opened(o.status, o.generation), Advertisement(o.spec), w);
    (t, st.(observedGeneration := o.generation))
  }

  // clearFinalizer after a clean finalization of an object being deleted.
  function CalmClear(s: State): State
    requires Running(s)
  {
    if s.finalizer in Copy(s).finalizers then Patched(s, WithoutFinalizer(Copy(s).finalizers, s.finalizer), true)
    else s
  }

  // FinalizeKind: the new state, whether it ends cleanly, and the id it leaves.
  // A recorded hook that does not exist stops it; without credentials it is given up.
  function CalmFinalKind(s: State, w: Surroundings): (r: (State, bool, Option<int>))
    requires Running(s)
    ensures Running(r.0)
  {
    var id := Copy(s).status.webhookID;
    if !NamesHook(s) then (s, true, id)
    else if w.outage.Credentials? then (Ignored(Unread(s, Some(404))), true, id)
    else if NamedHook(s) !in s.hooks then (s, false, id)
    else (Deleted(s, true), true, None)
  }

  // Reconcile on an object being deleted, up to the status it is to have: the
  // object a patch of the finalizers answers still names the hook.
  function CalmFinal(s: State, w: Surroundings): (r: (State, Status))
    requires Running(s)
    ensures r.0.history != []
  {
    var st := Copy(s).status;
    var (t, clean, id) := CalmFinalKind(s, w);
    if !clean then (t, st)
    else (CalmClear(t), if s.finalizer in Copy(s).finalizers then st else st.(webhookID := id))
  }

  // FinalizeKind answers an error: the recorded hook does not exist.
  predicate FinalFails(s: State, w: Surroundings)
    requires Running(s)
  {
    NamesHook(s) && !w.outage.Credentials? && NamedHook(s) !in s.hooks
  }

  // updateStatus to the status st fails.
  predicate WriteFails(s: State, st: Status, w: Surroundings)
    requires s.history != []
  {
    s.gone || (Last(s).status != st && w.outage.StatusWrites?)
  }

  // The end of a run that is to leave the status st.
  function CalmEnd(s: State, before: Status, st: Status, w: Surroundings): State
    requires s.history != []
  {
    Finish(if st == before then s else CalmWrite(s, st, w))
  }

  // A run from the choice of method on.
  ghost function CalmWork(s: State, w: Surroundings): State
    requires Running(s)
  {
    var (t, st) := if Copy(s).deleting then CalmFinal(s, w) else CalmObject(s, w);
    CalmEnd(t, Copy(s).status, st, w)
  }

  // Whether it fails: syncWebhook or finalization stops with an error, or
  // there is a new status to write and it cannot be written.
  ghost predicate WorkFails(s: State, w: Surroundings)
    requires Running(s)
  {
    var (t, st) := if Copy(s).deleting then CalmFinal(s, w) else CalmObject(s, w);
    || (if Copy(s).deleting then FinalFails(s, w) else KindFails(CalmFinalizer(s), w))
    || (st != Copy(s).status && WriteFails(t, st, w))
  }

  // A whole run on the version the lister holds, and whether it fails.
  ghost function CalmRun(s: State, w: Surroundings): State
    requires WellFormed(s)
  {
    CalmWork(Begun(s), w)
  }

  ghost predicate CalmFails(s: State, w: Surroundings)
    requires WellFormed(s)
  {
    WorkFails(Begun(s), w)
  }
}
