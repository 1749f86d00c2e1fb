// The GitLabSource controller: its business logic and the generated
// reconciler that persists its results.
module Controllers {
  import opened Sources
  import opened ConditionSets
  import opened StatusRules
  import opened Strings
  import opened EventTypes
  import opened WebhookOptions
  import opened Protocol
  import opened Conservation
  import opened Theorems
  import Finalizers
  import SingleHook
  import opened Objects
  import opened Clusters
  import opened Calm

  // The object in memory is the run's copy, up to its status and the namespace of its sink.
  ghost predicate Mirrors(s: State, src: GitLabSource)
    requires Running(s)
    reads src, src.eventTypes
  {
    && src.meta.deleting == Copy(s).deleting
    && src.meta.finalizers == Copy(s).finalizers
    && src.spec.projectURL == Copy(s).spec.projectURL
    && src.spec.sslVerify == Copy(s).spec.sslVerify
    && SliceView(src.eventTypes) == Copy(s).spec.eventTypes
  }

  // Nothing asked of GitLab or the Services yet.
  predicate Untouched(s: State) {
    Running(s) && var r := s.run.value;
      !r.missing && !r.attempted && r.added.None? && !r.removed && !r.ignored && !r.vacant && r.adapter.None? && r.unread == {}
  }

  // The sink is still as the run's copy has it.
  predicate Addresses(s: State, src: GitLabSource)
    requires Running(s)
    reads src, src.sinkRef
  {
    src.meta.namespace == Copy(s).namespace && RefView(src.sinkRef) == Copy(s).spec.sinkRef
  }

  // The run may add or edit a hook that points to this URL.
  predicate Equipped(s: State, url: string)
    requires Running(s)
  {
    Addable(s) && s.run.value.added.None? && s.run.value.adapter == Some(url)
  }

  // From s to t the run asked GitLab and the Services for things, and nothing else.
  predicate Asked(s: State, t: State)
    requires Running(s)
  {
    Running(t) && var r := t.run.value;
      r == s.run.value.(missing := r.missing, attempted := r.attempted, added := r.added, vacant := r.vacant, adapter := r.adapter,
        unread := r.unread)
  }

  // ... of GitLab alone.
  predicate AskedGitLab(s: State, t: State)
    requires Running(s)
  {
    Running(t) && var r := t.run.value;
      r == s.run.value.(missing := r.missing, attempted := r.attempted, added := r.added, unread := r.unread)
  }

  // The id a status is to record: that of the hook this run added, or the one recorded before.
  predicate Records(s: State, id: Option<int>)
    requires Running(s)
  {
    id == if s.run.value.added.Some? then s.run.value.added else Copy(s).status.webhookID
  }

  // ---- pkg/client/gitlab: the webhook client ----

  method AddWebhook(c: Cluster, src: GitLabSource, url: string) returns (r: Result<int, GoError>)
    requires c.Valid() && Running(c.s) && AddAllowed(c.s) && Equipped(c.s, url) && Mirrors(c.s, src)
    modifies c`s, c`trace, c`script
    ensures c.Valid() && Keeps(old(c.s), c.s)
    ensures |old(c.trace)| <= |c.trace|
    ensures r.Ok? ==> r.value >= 0 && c.s.run.value == old(c.s.run.value).(attempted := true, added := Some(r.value))
    ensures r.Err? ==> c.s.run.value == old(c.s.run.value).(attempted := c.s.run.value.attempted)
    ensures r.Ok? ==>
      && var key := HookKey(Copy(c.s).spec.projectURL, r.value);
      && key in c.s.hooks
      && var (h, spec) := (c.s.hooks[key], Copy(c.s).spec);
      && h.url == url && h.sslVerify == spec.sslVerify
      && forall w: Webhook :: w != Unsupported ==>
           (Flag(h.flags, w) <==> NameOf(w) in spec.eventTypes || Flag(c.around.defaults, w))
    ensures old(c.script) == [] ==> c.script == [] && (r.Err? <==> c.around.outage.HookAnswers?)
    ensures old(c.script) == [] ==> (c.s, if r.Ok? then Some(r.value) else None) == CalmAdding(old(c.s), url, c.around)
  {
    hide Configure, Wanted, Cases, Sparse, Added, Behaviour, Flag, NameOf;
    AddedHook(Copy(c.s).spec, url, c.around.defaults);
    var o := AddOptions(SliceView(src.eventTypes), url, src.spec.sslVerify);
    r := c.AddProjectHook(src.spec.projectURL, o);
  }

  method EditWebhook(c: Cluster, src: GitLabSource, id: int, url: string) returns (e: Option<GoError>)
    requires c.Valid() && Running(c.s) && Equipped(c.s, url) && NamesHook(c.s) && id == NamedHook(c.s).id
    requires Mirrors(c.s, src)
    modifies c`s, c`trace, c`script
    ensures c.Valid() && Keeps(old(c.s), c.s) && c.s.run == old(c.s.run)
    ensures |old(c.trace)| <= |c.trace|
    ensures e.None? ==>
      && NamedHook(c.s) in c.s.hooks
      && var (h, spec) := (c.s.hooks[NamedHook(c.s)], Copy(c.s).spec);
      && h == WantedHook(spec, url) && h.url == url && h.sslVerify == spec.sslVerify
      && forall w: Webhook :: w != Unsupported ==> (Flag(h.flags, w) <==> NameOf(w) in spec.eventTypes)
    ensures old(c.script) == [] && old(NamedHook(c.s)) in old(c.s).hooks ==>
      c.script == [] && e.None? && (c.s, Some(id)) == CalmEditing(old(c.s), url)
  {
    forall prior ensures Configure(EditOptionsFor(Copy(c.s).spec, url), prior) == WantedHook(Copy(c.s).spec, url) {
      EditWanted(Copy(c.s).spec, url, prior);
    }
    EditedHook(Copy(c.s).spec, url);
    var o := EditOptions(SliceView(src.eventTypes), url, src.spec.sslVerify);
    e := c.EditProjectHook(HookKey(src.spec.projectURL, id), o);
  }

  // ---- pkg/reconciler/source ----

  // resolveSinkURL fills in the sink's namespace through the object's pointer.
  method ResolveSinkURL(c: Cluster, src: GitLabSource) returns (r: Result<Option<string>, GoError>)
    requires c.Valid() && Running(c.s)
    modifies c`s, c`trace, c`script, src.sinkRef
    ensures c.Valid() && Keeps(old(c.s), c.s) && c.s.run == old(c.s.run)
    ensures |old(c.trace)| <= |c.trace|
    ensures RefView(src.sinkRef) == match old(RefView(src.sinkRef))
      case Some(Ref("", name)) => Some(Ref(src.meta.namespace, name))
      case other => other
    ensures r.Ok? && r.value.Some? ==> r.value == Resolved(c.around, RefView(src.sinkRef))
    ensures old(c.script) == [] ==> c.script == [] && c.s == old(c.s) && r == Ok(Resolved(c.around, RefView(src.sinkRef)))
  {
    if src.sinkRef != null && src.sinkRef.namespace == "" {
      src.sinkRef.namespace := src.meta.namespace;
    }
    r := c.ResolveSink(RefView(src.sinkRef));
  }

  // The first listed Service this source controls, as it is.
  method GetOwnedKnativeService(c: Cluster) returns (r: Result<Service, GoError>)
    requires c.Valid() && Running(c.s)
    modifies c`s, c`trace, c`script
    ensures c.Valid() && Keeps(old(c.s), c.s)
    ensures |old(c.trace)| <= |c.trace|
    ensures c.s.run.value == old(c.s.run.value).(vacant := c.s.run.value.vacant, adapter := c.s.run.value.adapter)
    ensures r.Ok? ==> FirstOwned(c.s.services) == Some(r.value)
    ensures c.s.run.value.adapter ==
      if r.Ok? && r.value.ready && r.value.url.Some? then r.value.url else old(c.s.run.value.adapter)
    ensures r.Err? && r.error.KubeNotFound? ==> FirstOwned(c.s.services).None? && c.s.run.value.vacant
    ensures old(c.script) == [] ==> c.script == [] && (r.Ok? || r.error.KubeNotFound?)
    ensures old(c.script) == [] ==> c.s == Listed(old(c.s))
  {
    var list := c.ListServices();
    if list.Err? { return Err(list.error); }
    var items := list.value;
    for i := 0 to |items|
      invariant FirstOwned(items) == FirstOwned(items[i..])
    {
      if items[i].controlled { return Ok(items[i]); }
      assert items[i..][1..] == items[i + 1..];
    }
    return Err(KubeNotFound);
  }

  method ReconcileAdapter(c: Cluster) returns (r: Result<Service, GoError>)
    requires c.Valid() && Running(c.s)
    modifies c`s, c`trace, c`script
    ensures c.Valid() && Keeps(old(c.s), c.s)
    ensures |old(c.trace)| <= |c.trace|
    ensures c.s.run.value == old(c.s.run.value).(vacant := c.s.run.value.vacant, adapter := c.s.run.value.adapter)
    ensures r.Ok? ==> r.value.controlled && FirstOwned(c.s.services).Some?
    ensures r.Ok? && r.value.ready ==> FirstOwned(c.s.services) == Some(r.value)
    ensures c.s.run.value.adapter ==
      if r.Ok? && r.value.ready && r.value.url.Some? then r.value.url else old(c.s.run.value.adapter)
    ensures old(c.script) == [] ==> c.script == [] && r.Ok? && (c.s, r.value) == CalmAdapter(old(c.s))
  {
    r := GetOwnedKnativeService(c);
    if r.Err? && r.error.KubeNotFound? {
      r := c.CreateService();
    }
  }

  // CreateCloudEventAttributes fills a slice index by index.
  method CreateCloudEventAttributes(source: string, types: seq<string>) returns (r: seq<Attribute>)
    ensures |r| == |types| && forall i :: 0 <= i < |types| ==> r[i].eventType == types[i] && r[i].source == source
  {
    var a := new Attribute[|types|](_ => Attribute("", ""));
    for i := 0 to |types|
      modifies a
      invariant forall j :: 0 <= j < i ==> a[j].eventType == types[j] && a[j].source == source
    {
      a[i] := Attribute(types[i], source);
    }
    r := a[..];
  }

  // The branches of syncWebhook that add a hook.
  method SyncByAdding(c: Cluster, src: GitLabSource, url: string) returns (r: Result<int, Event>)
    requires c.Valid() && Running(c.s) && AddAllowed(c.s) && Equipped(c.s, url) && Mirrors(c.s, src)
    modifies c`s, c`trace, c`script, src`status
    ensures c.Valid() && Keeps(old(c.s), c.s)
    ensures |old(c.trace)| <= |c.trace|
    ensures r.Ok? ==> r.value >= 0 && c.s.run.value == old(c.s.run.value).(attempted := true, added := Some(r.value))
    ensures r.Err? ==> c.s.run.value == old(c.s.run.value).(attempted := c.s.run.value.attempted)
    ensures r.Err? ==> r.error == Emitted(Warning, true)
    ensures src.StatusView() == if r.Ok? then old(src.StatusView()) else Marked(old(src.StatusView()), WebhookConfigured, false)
    ensures r.Ok? ==> Configured(c.s, r.value, url, c.around.defaults)
    ensures old(c.script) == [] ==> c.script == [] && (r.Err? <==> c.around.outage.HookAnswers?)
    ensures old(c.script) == [] ==> (c.s, if r.Ok? then Some(r.value) else None) == CalmAdding(old(c.s), url, c.around)
  {
    hide CalmAdding;
    var added := AddWebhook(c, src, url);
    if added.Err? {
      src.Mark(WebhookConfigured, false);
      return Err(Emitted(Warning, true));
    }
    return Ok(added.value);
  }

  // The branch of syncWebhook that edits the recorded hook.
  method SyncByEditing(c: Cluster, src: GitLabSource, id: int, url: string) returns (r: Result<int, Event>)
    requires c.Valid() && Running(c.s) && Equipped(c.s, url) && NamesHook(c.s) && id == NamedHook(c.s).id
    requires Mirrors(c.s, src)
    modifies c`s, c`trace, c`script, src`status
    ensures c.Valid() && Keeps(old(c.s), c.s) && c.s.run == old(c.s.run)
    ensures |old(c.trace)| <= |c.trace|
    ensures r == Ok(id) || r == Err(Emitted(Warning, true))
    ensures src.StatusView() == if r.Ok? then old(src.StatusView()) else Marked(old(src.StatusView()), WebhookConfigured, false)
    ensures r.Ok? && c.s.run.value.added.None? ==> Configured(c.s, id, url, c.around.defaults)
    ensures old(c.script) == [] && old(NamedHook(c.s)) in old(c.s).hooks ==>
      c.script == [] && r.Ok? && (c.s, Some(id)) == CalmEditing(old(c.s), url)
  {
    var e := EditWebhook(c, src, id, url);
    if e.Some? {
      src.Mark(WebhookConfigured, false);
      return Err(Emitted(Warning, true));
    }
    return Ok(id);
  }

  function IdOf(r: Result<int, Event>): Option<int> {
    if r.Ok? then Some(r.value) else None
  }

  // Looks the recorded hook up; answers whether it is there, or the event syncWebhook stops with.
  method LookUp(c: Cluster, src: GitLabSource, id: int) returns (found: Result<bool, Event>)
    requires c.Valid() && Running(c.s) && Mirrors(c.s, src)
    requires NamesHook(c.s) && id == NamedHook(c.s).id
    modifies c`s, c`trace, c`script, src`status
    ensures c.Valid() && Keeps(old(c.s), c.s)
    ensures |old(c.trace)| <= |c.trace|
    ensures c.s.run.value == old(c.s.run.value).(missing := c.s.run.value.missing)
    ensures found.Ok? && !found.value ==> !c.s.sentinel && c.s.run.value.missing
    ensures found.Ok? && found.value ==> NamedHook(c.s) in c.s.hooks
    ensures found.Err? ==> found.error == Emitted(Warning, true)
    ensures src.StatusView() == if found.Ok? then old(src.StatusView()) else Marked(old(src.StatusView()), WebhookConfigured, false)
    ensures old(c.script) == [] ==> c.script == []
    ensures old(c.script) == [] ==> if old(NamedHook(c.s)) in old(c.s).hooks
      then c.s == old(c.s) && found == Ok(true)
      else if old(c.s.sentinel) then c.s == old(c.s) && found.Err?
      else c.s == FoundMissing(old(c.s)) && found == Ok(false)
  {
    var e := c.GetProjectHook(HookKey(src.spec.projectURL, id));
    if e.None? { return Ok(true); }
    if IsHookNotFound(e.value) { return Ok(false); }
    src.Mark(WebhookConfigured, false);
    return Err(Emitted(Warning, true));
  }

  // What syncWebhook does once it knows whether the recorded hook is there.
  method SyncFound(c: Cluster, src: GitLabSource, id: int, url: string, found: bool) returns (r: Result<int, Event>)
    requires c.Valid() && Running(c.s) && Equipped(c.s, url) && Mirrors(c.s, src)
    requires NamesHook(c.s) && (found || (!c.s.sentinel && c.s.run.value.missing)) && id == NamedHook(c.s).id
    modifies c`s, c`trace, c`script, src`status
    ensures c.Valid() && Keeps(old(c.s), c.s)
    ensures |old(c.trace)| <= |c.trace|
    ensures AskedGitLab(old(c.s), c.s)
    ensures r.Ok? ==> c.s.run.value.added == Some(r.value) || (c.s.run.value.added.None? && r.value == id)
    ensures r.Ok? ==> Configured(c.s, r.value, url, c.around.defaults)
    ensures r.Ok? && c.s.run.value.added.Some? ==> r.value >= 0
    ensures r.Err? ==> c.s.run.value.added.None? && r.error == Emitted(Warning, true)
    ensures src.StatusView() == if r.Ok? then old(src.StatusView()) else Marked(old(src.StatusView()), WebhookConfigured, false)
    ensures old(c.script) == [] && !found ==> (r.Err? <==> c.around.outage.HookAnswers?)
    ensures old(c.script) == [] && found && old(NamedHook(c.s)) in old(c.s).hooks ==> r.Ok?
    ensures old(c.script) == [] && !found ==>
      c.script == [] && (c.s, IdOf(r)) == CalmAdding(old(c.s), url, c.around)
    ensures old(c.script) == [] && found && old(NamedHook(c.s)) in old(c.s).hooks ==>
      c.script == [] && (c.s, IdOf(r)) == CalmEditing(old(c.s), url)
  {
    hide Configured, Marked, CalmAdding, CalmEditing;
    if found {
      r := SyncByEditing(c, src, id, url);
    } else {
      r := SyncByAdding(c, src, url);
    }
  }

  // The part of syncWebhook that starts from a recorded hook.
  method SyncRecorded(c: Cluster, src: GitLabSource, id: int, url: string) returns (r: Result<int, Event>)
    requires c.Valid() && Running(c.s) && Equipped(c.s, url) && Mirrors(c.s, src)
    requires NamesHook(c.s) && id == NamedHook(c.s).id
    modifies c`s, c`trace, c`script, src`status
    ensures c.Valid() && Keeps(old(c.s), c.s)
    ensures |old(c.trace)| <= |c.trace|
    ensures AskedGitLab(old(c.s), c.s)
    ensures r.Ok? ==> c.s.run.value.added == Some(r.value) || (c.s.run.value.added.None? && r.value == id)
    ensures r.Ok? ==> Configured(c.s, r.value, url, c.around.defaults)
    ensures r.Ok? && c.s.run.value.added.Some? ==> r.value >= 0
    ensures r.Err? ==> c.s.run.value.added.None? && r.error == Emitted(Warning, true)
    ensures src.StatusView() == if r.Ok? then old(src.StatusView()) else Marked(old(src.StatusView()), WebhookConfigured, false)
    ensures old(c.script) == [] ==> c.script == [] && (c.s, IdOf(r)) == CalmHook(old(c.s), url, c.around)
    ensures old(c.script) == [] ==> (r.Err? <==> HookFails(old(c.s), c.around))
  {
    hide Configured, Marked, CalmAdding, CalmEditing, FoundMissing, Behaviour;
    var found := LookUp(c, src, id);
    if found.Err? {
      r := Err(found.error);
    } else {
      r := SyncFound(c, src, id, url, found.value);
    }
  }

  // The client getter's part of syncWebhook. A missing Secret does not fail the run, any other error does.
  method ObtainClient(c: Cluster, src: GitLabSource) returns (stopped: Option<Event>)
    requires c.Valid() && Running(c.s)
    modifies c`s, c`trace, c`script, src`status
    ensures c.Valid() && Keeps(old(c.s), c.s) && c.s.run.value == old(c.s.run.value).(unread := c.s.run.value.unread)
    ensures |old(c.trace)| <= |c.trace|
    ensures stopped.Some? ==> stopped.value.Emitted? && stopped.value.eventType.Warning?
    ensures Answers(old(c.script)) ==> stopped == match old(c.script)[0].reply
      case Success(_) => None
      case Refused(404) => Some(Emitted(Warning, false))
      case _ => Some(Emitted(Warning, true))
    ensures src.StatusView() == if stopped.None? then old(src.StatusView()) else Marked(old(src.StatusView()), WebhookConfigured, false)
    ensures old(c.script) == [] ==>
      && c.script == []
      && c.s == (if c.around.outage.Credentials? then Unread(old(c.s), Some(404)) else old(c.s))
      && stopped == (if c.around.outage.Credentials? then Some(Emitted(Warning, false)) else None)
  {
    var e := c.ReadSecrets();
    if e.None? { return None; }
    src.Mark(WebhookConfigured, false);
    return Some(Emitted(Warning, !IsSecretNotFound(e.value)));
  }

  // The part of syncWebhook that talks to GitLab.
  method SyncHook(c: Cluster, src: GitLabSource, url: string) returns (r: Result<int, Event>)
    requires c.Valid() && Running(c.s) && Equipped(c.s, url) && Mirrors(c.s, src)
    requires IntView(src.webhookID) == Copy(c.s).status.webhookID
    modifies c`s, c`trace, c`script, src`status
    ensures c.Valid() && Keeps(old(c.s), c.s)
    ensures |old(c.trace)| <= |c.trace|
    ensures AskedGitLab(old(c.s), c.s)
    ensures r.Ok? ==> Records(c.s, Some(r.value)) && (c.s.run.value.added.Some? ==> r.value >= 0)
    ensures r.Ok? ==> Configured(c.s, r.value, url, c.around.defaults)
    ensures r.Err? ==> c.s.run.value.added.None? && r.error == Emitted(Warning, true)
    ensures src.StatusView() == if r.Ok? then old(src.StatusView()) else Marked(old(src.StatusView()), WebhookConfigured, false)
    ensures old(c.script) == [] ==> c.script == [] && (c.s, IdOf(r)) == CalmHook(old(c.s), url, c.around)
    ensures old(c.script) == [] ==> (r.Err? <==> HookFails(old(c.s), c.around))
  {
    hide Configured, Marked;
    if src.webhookID == null {
      r := SyncByAdding(c, src, url);
    } else {
      r := SyncRecorded(c, src, src.webhookID.value, url);
    }
  }

  // syncWebhook: brings the project's hook in line with the spec. The id it
  // answers is that of a hook just added, or the recorded one.
  method SyncWebhook(c: Cluster, src: GitLabSource, url: string) returns (r: Result<int, Event>)
    requires c.Valid() && Running(c.s) && Equipped(c.s, url) && Mirrors(c.s, src)
    requires IntView(src.webhookID) == Copy(c.s).status.webhookID
    modifies c`s, c`trace, c`script, src`status
    ensures c.Valid() && Keeps(old(c.s), c.s)
    ensures |old(c.trace)| <= |c.trace|
    ensures AskedGitLab(old(c.s), c.s)
    ensures r.Ok? ==> Records(c.s, Some(r.value)) && (c.s.run.value.added.Some? ==> r.value >= 0)
    ensures r.Ok? ==> Configured(c.s, r.value, url, c.around.defaults)
    ensures r.Err? ==> c.s.run.value.added.None? && r.error.Emitted? && r.error.eventType.Warning?
    ensures src.StatusView() == if r.Ok? then old(src.StatusView()) else Marked(old(src.StatusView()), WebhookConfigured, false)
    ensures Answers(old(c.script)) && !old(c.script)[0].reply.Success? ==>
      r == Err(Emitted(Warning, old(c.script)[0].reply != Refused(404)))
    ensures old(c.script) == [] ==> c.script == [] && (c.s, IdOf(r)) == CalmSync(old(c.s), url, c.around)
    ensures old(c.script) == [] ==> (r.Err? && r.error.wrapped <==> SyncFails(old(c.s), c.around))
  {
    hide Configured, Marked, CalmHook, HookFails;
    var stopped := ObtainClient(c, src);
    if stopped.Some? {
      r := Err(stopped.value);
    } else {
      r := SyncHook(c, src, url);
    }
  }

  // What Reconcile answers for an event: a failure, unless it is a bare reconciler event.
  predicate Succeeds(event: Event) {
    event.NoEvent? || (event.Emitted? && !event.wrapped)
  }

  // Whatever stops ReconcileKind shows in a condition.
  predicate Explained(r: Event, st: Status) {
    match r
    case NoEvent => true
    case Emitted(eventType, _) => eventType.Warning? && (st.conditions.sinkProvided.False? || st.conditions.webhookConfigured.False?)
    case Failed(_) => st.conditions.deployed.False?
  }

  // The last part of ReconcileKind, from syncWebhook on.
  method ReconcileWebhook(c: Cluster, src: GitLabSource, url: string) returns (r: Event)
    requires c.Valid() && Running(c.s) && Equipped(c.s, url) && Mirrors(c.s, src)
    requires Truthful(src.StatusView()) && IntView(src.webhookID) == Copy(c.s).status.webhookID
    modifies c`s, c`trace, c`script, src`status, src`webhookID
    ensures c.Valid() && Keeps(old(c.s), c.s) && AskedGitLab(old(c.s), c.s)
    ensures |old(c.trace)| <= |c.trace|
    ensures Truthful(src.StatusView()) && Records(c.s, src.StatusView().webhookID)
    ensures src.StatusView() ==
      if r.NoEvent? then Marked(old(src.StatusView()).(webhookID := src.StatusView().webhookID), WebhookConfigured, true)
      else Marked(old(src.StatusView()), WebhookConfigured, false)
    ensures r.NoEvent? ==>
      src.StatusView().webhookID.Some? && Configured(c.s, src.StatusView().webhookID.value, url, c.around.defaults)
    ensures r.NoEvent? || r.Emitted?
    ensures Explained(r, src.StatusView()) && (r.NoEvent? ==> src.StatusView().conditions.webhookConfigured.True?)
    ensures old(c.script) == [] ==> (r.Emitted? && r.wrapped <==> SyncFails(old(c.s), c.around))
    ensures old(c.script) == [] ==>
      c.script == [] && (c.s, src.StatusView()) == CalmWebhook(old(c.s), old(src.StatusView()), url, c.around)
  {
    hide Truthful, Marked, CalmSync, Configured, SyncFails;
    MarkedTruthful(src.StatusView(), WebhookConfigured, false);
    MarkedShows(src.StatusView(), WebhookConfigured, false);
    var hook := SyncWebhook(c, src, url);
    if hook.Err? {
      return hook.error;
    }
    ConfiguredTruthful(src.StatusView(), hook.value);
    MarkedShows(src.StatusView().(webhookID := Some(hook.value)), WebhookConfigured, true);
    src.webhookID := new IntCell(hook.value);
    src.Mark(WebhookConfigured, true);
    return NoEvent;
  }

  // ReconcileKind's look at the adapter: answers its URL, or the event it stops with.
  method ReconcileDeployed(c: Cluster, src: GitLabSource) returns (r: Result<string, Event>)
    requires c.Valid() && Running(c.s) && Truthful(src.StatusView())
    modifies c`s, c`trace, c`script, src`status
    ensures c.Valid() && Keeps(old(c.s), c.s)
    ensures |old(c.trace)| <= |c.trace|
    ensures c.s.run.value == old(c.s.run.value).(vacant := c.s.run.value.vacant, adapter := c.s.run.value.adapter)
    ensures Truthful(src.StatusView())
    ensures src.StatusView() == Marked(old(src.StatusView()), Deployed, src.StatusView().conditions.deployed.True?)
    ensures r.Ok? ==> src.StatusView().conditions.deployed.True?
    ensures c.s.run.value.adapter == if r.Ok? then Some(r.value) else old(c.s.run.value.adapter)
    ensures src.StatusView().conditions.deployed.True? ==> FirstOwned(c.s.services).Some? && FirstOwned(c.s.services).value.ready
    ensures r.Err? ==> Explained(r.error, src.StatusView()) && !r.error.Emitted?
    ensures r.Err? && r.error.NoEvent? ==> FirstOwned(c.s.services).Some?
    ensures old(c.script) == [] ==>
      && c.script == []
      && var (t, adapter) := CalmAdapter(old(c.s));
         && c.s == t && src.StatusView() == Marked(old(src.StatusView()), Deployed, adapter.ready)
         && r == (if adapter.ready && adapter.url.Some? then Ok(adapter.url.value) else Err(NoEvent))
    ensures old(c.script) == [] ==>
      && (src.StatusView().conditions.deployed.True? <==>
            FirstOwned(old(c.s).services).Some? && FirstOwned(old(c.s).services).value.ready)
      && r == (if AdapterURL(old(c.s).services).Some? then Ok(AdapterURL(old(c.s).services).value) else Err(NoEvent))
  {
    ghost var st := src.StatusView();
    var adapter := ReconcileAdapter(c);
    MarkedTruthful(st, Deployed, adapter.Ok? && adapter.value.ready);
    if adapter.Err? {
      src.Mark(Deployed, false);
      return Err(Failed(adapter.error));
    }
    src.Mark(Deployed, adapter.value.ready);
    if !adapter.value.ready { return Err(NoEvent); }
    if adapter.value.url.None? { return Err(NoEvent); }
    return Ok(adapter.value.url.value);
  }

  // The adapter decides how far ReconcileKind gets, and looking for it does not matter to syncWebhook.
  lemma DeploymentSteps(s: State, st: Status, w: Surroundings)
    requires Running(s)
    ensures var ((t, adapter), url) := (CalmAdapter(s), AdapterURL(s.services));
      && Running(t)
      && (url.Some? ==> adapter.ready)
      && (KindFails(s, w) <==> url.Some? && SyncFails(t, w))
      && CalmDeployment(s, st, w) ==
           if url.Some? then CalmWebhook(t, Marked(st, Deployed, true), url.value, w)
           else (t, Marked(st, Deployed, adapter.ready))
  {
    hide CalmWebhook, Marked;
  }

  // ReconcileKind from reconcileAdapter on.
  method ReconcileDeployment(c: Cluster, src: GitLabSource) returns (r: Event)
    requires c.Valid() && Running(c.s) && Willing(c.s) && c.s.run.value.added.None? && Mirrors(c.s, src)
    requires Truthful(src.StatusView()) && IntView(src.webhookID) == Copy(c.s).status.webhookID
    modifies c`s, c`trace, c`script, src`status, src`webhookID
    ensures c.Valid() && Keeps(old(c.s), c.s) && Asked(old(c.s), c.s)
    ensures |old(c.trace)| <= |c.trace|
    ensures Truthful(src.StatusView()) && Records(c.s, src.StatusView().webhookID)
    ensures Explained(r, src.StatusView())
    ensures r.NoEvent? && c.s.run.value.adapter != old(c.s.run.value.adapter) ==>
      src.StatusView().conditions.webhookConfigured.True?
    ensures r.NoEvent? && c.s.run.value.adapter.None? ==> FirstOwned(c.s.services).Some?
    ensures old(c.script) == [] ==>
      c.script == [] && (c.s, src.StatusView()) == CalmDeployment(old(c.s), old(src.StatusView()), c.around)
    ensures old(c.script) == [] ==> (Succeeds(r) <==> !KindFails(old(c.s), c.around))
  {
    hide Truthful, Marked, CalmWebhook, Behaviour, SyncFails, CalmAdapter, CalmDeployment, KindFails, AdapterURL, Explained, FirstOwned;
    DeploymentSteps(c.s, src.StatusView(), c.around);
    var url := ReconcileDeployed(c, src);
    if url.Err? {
      return url.error;
    }
    r := ReconcileWebhook(c, src, url.value);
  }

  // The first part of ReconcileKind: the attributes, and the sink. Answers an event if it stops there.
  method ReconcileSink(c: Cluster, src: GitLabSource) returns (stopped: Option<Event>)
    requires c.Valid() && Running(c.s) && Honest(src.StatusView()) && Addresses(c.s, src)
    modifies c`s, c`trace, c`script, src`status, src.sinkRef
    ensures c.Valid() && Keeps(old(c.s), c.s) && c.s.run == old(c.s.run)
    ensures |old(c.trace)| <= |c.trace|
    ensures Truthful(src.StatusView()) && src.StatusView().webhookID == old(src.StatusView()).webhookID
    ensures var st := old(src.StatusView()).(attributes :=
        AttributesOf(Listing(old(SliceView(src.eventTypes))), old(src.spec.projectURL)));
      src.StatusView() ==
        if stopped.Some? then Marked(st, SinkProvided, false) else Sunk(st, src.StatusView().sinkURI)
    ensures Announces(src.StatusView().attributes, old(SliceView(src.eventTypes)), old(src.spec.projectURL))
    ensures stopped.Some? ==> stopped.value == Emitted(Warning, false) && src.StatusView().conditions.sinkProvided.False?
    ensures src.StatusView().conditions.sinkProvided.True? ==>
      src.StatusView().sinkURI.Some? && src.StatusView().sinkURI == SinkURI(Copy(c.s), c.around)
    ensures old(c.script) == [] ==>
      c.script == [] && c.s == old(c.s) && stopped.None? && src.StatusView().sinkURI == SinkURI(Copy(c.s), c.around)
  {
    hide Announces, Listing, StrictlySorted;
    var types := EventTypes.EventTypes(SliceView(src.eventTypes));
    var attributes := CreateCloudEventAttributes(src.spec.projectURL, types);
    assert attributes == AttributesOf(types, src.spec.projectURL);
    ListingAnnounced(SliceView(src.eventTypes), src.spec.projectURL);
    src.status := src.status.(attributes := attributes);
    ghost var st := src.StatusView();
    var uri := ResolveSinkURL(c, src);
    SunkTruthful(st, if uri.Ok? then uri.value else None);
    if uri.Err? {
      src.Mark(SinkProvided, false);
      return Some(Emitted(Warning, false));
    }
    src.MarkSink(uri.value);
    return None;
  }

  // ReconcileKind. Whatever call fails, the status it leaves tells the truth
  // and names the hook this run knows of.
  method ReconcileKind(c: Cluster, src: GitLabSource) returns (r: Event)
    requires c.Valid() && Running(c.s) && Willing(c.s) && c.s.run.value.added.None? && Mirrors(c.s, src)
    requires Honest(src.StatusView()) && IntView(src.webhookID) == Copy(c.s).status.webhookID && Addresses(c.s, src)
    modifies c`s, c`trace, c`script, src`status, src`webhookID, src.sinkRef
    ensures c.Valid() && Keeps(old(c.s), c.s) && Asked(old(c.s), c.s)
    ensures |old(c.trace)| <= |c.trace|
    ensures Truthful(src.StatusView()) && Records(c.s, src.StatusView().webhookID)
    ensures Explained(r, src.StatusView())
    ensures r.NoEvent? && c.s.run.value.adapter != old(c.s.run.value.adapter) ==>
      src.StatusView().conditions.webhookConfigured.True?
    ensures r.NoEvent? && c.s.run.value.adapter.None? ==> FirstOwned(c.s.services).Some?
    ensures old(c.script) == [] ==> (Succeeds(r) <==> !KindFails(old(c.s), c.around))
    ensures old(c.script) == [] ==>
      && c.script == []
      && (c.s, src.StatusView()) == CalmKind(old(c.s), old(src.StatusView()),
           AttributesOf(Listing(old(SliceView(src.eventTypes))), old(src.spec.projectURL)), c.around)
  {
    hide Truthful, Marked, CalmDeployment, KindFails;
    var stopped := ReconcileSink(c, src);
    if stopped.Some? {
      return stopped.value;
    }
    r := ReconcileDeployment(c, src);
  }

  // FinalizeKind. It answers nil only once nothing is left to do for the
  // recorded hook, and never a Normal event.
  method FinalizeKind(c: Cluster, src: GitLabSource) returns (r: Event)
    requires c.Valid() && Running(c.s) && Copy(c.s).deleting && Mirrors(c.s, src) && Untouched(c.s)
    requires IntView(src.webhookID) == Copy(c.s).status.webhookID
    modifies c`s, c`trace, c`script, src`webhookID
    ensures c.Valid() && Keeps(old(c.s), c.s)
    ensures |old(c.trace)| <= |c.trace|
    ensures c.s.run.value == old(c.s.run.value).(
      removed := c.s.run.value.removed, ignored := c.s.run.value.ignored, unread := c.s.run.value.unread)
    ensures r.NoEvent? ==> Settled(c.s)
    ensures c.s.run.value.ignored <==> Some(404) in c.s.run.value.unread || Some(401) in c.s.run.value.unread
    ensures r.Emitted? <==> c.s.run.value.unread != {} && !c.s.run.value.ignored
    ensures r.Emitted? ==> r == Emitted(Warning, false) && c.s.run.value.removed == old(c.s.run.value.removed)
    ensures c.s.run.value.removed ==> old(NamesHook(c.s)) && old(NamedHook(c.s)) !in c.s.hooks
    ensures old(c.script) == [] && old(Current(c.s)) ==> Current(c.s)
    ensures IntView(src.webhookID) == if r.NoEvent? && c.s.run.value.removed then None else Copy(c.s).status.webhookID
    ensures old(c.script) == [] ==> c.script == []
    ensures old(c.script) == [] && old(NamesHook(c.s)) ==>
      if c.around.outage.Credentials? then r.NoEvent? && c.s == Ignored(Unread(old(c.s), Some(404)))
      else if old(NamedHook(c.s)) in old(c.s).hooks then r.NoEvent? && c.s == Deleted(old(c.s), true)
      else r == Failed(CheckResponse(c.s.sentinel, 404).value) && c.s == old(c.s)
    ensures old(c.script) == [] && !old(NamesHook(c.s)) ==> r.NoEvent? && c.s == old(c.s)
    ensures old(c.script) == [] ==>
      && (c.s, r.NoEvent?, IntView(src.webhookID)) == CalmFinalKind(old(c.s), c.around)
      && (r.NoEvent? || r.Failed?) && (r.Failed? <==> FinalFails(old(c.s), c.around))
    ensures Answers(old(c.script)) && old(NamesHook(c.s)) ==> match old(c.script)[0].reply
      case Refused(404) => r.NoEvent? && c.s == Ignored(Unread(old(c.s), Some(404)))
      case Refused(401) => r.NoEvent? && c.s == Ignored(Unread(old(c.s), Some(401)))
      case Refused(status) => r == Emitted(Warning, false) && c.s == Unread(old(c.s), Some(status))
      case Lost => r == Emitted(Warning, false) && c.s == Unread(old(c.s), None)
      case Success(_) => !r.Emitted? && !c.s.run.value.ignored
  {
    if src.webhookID == null { return NoEvent; }
    var currentHookID := src.webhookID.value;
    var e := c.ReadSecrets();
    if e.Some? {
      if IsSecretNotFound(e.value) || IsDenied(e.value) {
        c.GiveUp();
        return NoEvent;
      }
      return Emitted(Warning, false);
    }
    e := c.DeleteProjectHook(HookKey(src.spec.projectURL, currentHookID));
    if e.Some? { return Failed(e.value); }
    src.webhookID := null;
    return NoEvent;
  }

  // ---- state.go ----

  datatype Method = DoReconcileKind | DoFinalizeKind | DoObserveKind | UnknownMethod

  // A reconciler without work to do: not the leader, and not a read-only observer.
  predicate IsNotLeaderNorObserver(isLeader: bool, isROI: bool) {
    !isLeader && !isROI
  }

  function ReconcileMethodFor(deleting: bool, isLeader: bool, isROI: bool, isFinalizer: bool): Method {
    if !deleting then
      if isLeader then DoReconcileKind
      else if isROI then DoObserveKind
      else UnknownMethod
    else if isLeader && isFinalizer then DoFinalizeKind
    else UnknownMethod
  }

  // ---- The generated reconciler: finalizers ----

  // The list a removal sends, computed from the set of finalizers.
  method ListWithout(fs: seq<string>, name: string) returns (l: seq<string>)
    ensures l == WithoutFinalizer(fs, name)
  {
    var existingFinalizers := Elements(fs);
    l := SetList(existingFinalizers - {name});
    Finalizers.WithoutElements(fs, name);
    SortedUnique(l, WithoutFinalizer(fs, name));
  }

  // The desired and the existing finalizers agree on the controller's own.
  predicate NothingToDo(s: State, fs: seq<string>, desired: set<string>) {
    s.finalizer in desired <==> s.finalizer in fs
  }

  // Only the controller's own finalizer is ever changed, and only on the
  // version the resource was read at.
  method UpdateFinalizersFilteredMergePatch(c: Cluster, resource: GitLabSource, desired: set<string>)
    returns (r: Result<GitLabSource, GoError>)
    requires c.Valid() && Running(c.s) && Mirrors(c.s, resource) && resource.meta.version == c.s.run.value.version
    requires c.s.finalizer in desired && c.s.finalizer !in Copy(c.s).finalizers ==> !Copy(c.s).deleting
    requires c.s.finalizer !in desired && c.s.finalizer in Copy(c.s).finalizers ==> Copy(c.s).deleting && Settled(c.s)
    modifies c`s, c`trace, c`script
    ensures c.Valid() && Running(c.s) && c.s.finalizer == old(c.s.finalizer) && Origin(c.s) == old(Origin(c.s))
    ensures |old(c.trace)| <= |c.trace|
    ensures old(NothingToDo(c.s, resource.meta.finalizers, desired)) ==>
      c.s == old(c.s) && c.script == old(c.script) && r == Ok(resource)
    ensures r.Err? ==> Copy(c.s) == old(Copy(c.s)) && c.s.run == old(c.s.run)
    ensures !old(NothingToDo(c.s, resource.meta.finalizers, desired)) && r.Ok? ==>
      && fresh(r.value.Reach()) && r.value.View() == Copy(c.s)
      && Copy(c.s) == old(Copy(c.s)).(finalizers := Copy(c.s).finalizers, version := c.s.run.value.version)
      && c.s.run.value == old(c.s.run.value).(version := c.s.run.value.version)
      && Copy(c.s).finalizers ==
           if c.s.finalizer in desired then old(resource.meta).finalizers + [c.s.finalizer]
           else WithoutFinalizer(old(resource.meta).finalizers, c.s.finalizer)
    ensures old(c.script) == [] && old(Current(c.s)) && !old(NothingToDo(c.s, resource.meta.finalizers, desired)) ==>
      c.script == [] && r.Ok? && c.s == Patched(old(c.s), Copy(c.s).finalizers, true)
  {
    var existing := resource.DeepCopy();
    var finalizers;
    if c.s.finalizer in desired {
      if c.s.finalizer in Elements(existing.meta.finalizers) { return Ok(resource); }
      finalizers := existing.meta.finalizers + [c.s.finalizer];
    } else {
      if c.s.finalizer !in Elements(existing.meta.finalizers) { return Ok(resource); }
      finalizers := ListWithout(existing.meta.finalizers, c.s.finalizer);
    }
    r := c.PatchFinalizers(existing.meta.version, finalizers);
  }

  // No patch of the run is refused: its copy is the current version, or needs none.
  predicate Unopposed(s: State)
    requires Running(s)
  {
    Current(s) || (!Copy(s).deleting && s.finalizer in Copy(s).finalizers)
  }

  // On an object not being deleted, the controller's finalizer is in place afterwards.
  method SetFinalizerIfFinalizer(c: Cluster, resource: GitLabSource) returns (r: Result<GitLabSource, GoError>)
    requires c.Valid() && Running(c.s) && resource.View() == Copy(c.s) && resource.meta.version == c.s.run.value.version
    modifies c`s, c`trace, c`script
    ensures c.Valid() && Running(c.s) && c.s.finalizer == old(c.s.finalizer) && Origin(c.s) == old(Origin(c.s))
    ensures |old(c.trace)| <= |c.trace|
    ensures r.Ok? ==>
      && r.value.View() == Copy(c.s) == old(Copy(c.s)).(finalizers := Copy(c.s).finalizers, version := Copy(c.s).version)
      && c.s.run.value == old(c.s.run.value).(version := c.s.run.value.version)
      && (!Copy(c.s).deleting ==> c.s.finalizer in Copy(c.s).finalizers)
      && (r.value == resource || fresh(r.value.Reach()))
    ensures old(c.script) == [] && old(Unopposed(c.s)) && !resource.meta.deleting ==>
      c.script == [] && r.Ok? && c.s == CalmFinalizer(old(c.s))
  {
    hide Patched, Behaviour;
    var finalizers := Elements(resource.meta.finalizers);
    if !resource.meta.deleting {
      finalizers := finalizers + {c.s.finalizer};
    }
    r := UpdateFinalizersFilteredMergePatch(c, resource, finalizers);
  }

  // Whether a reconciler event lets the finalizer go.
  predicate Clean(e: Event) {
    e.NoEvent? || (e.Emitted? && e.eventType.Normal?)
  }

  lemma WithoutName(fs: seq<string>, name: string)
    ensures name !in WithoutFinalizer(fs, name)
  {
    Finalizers.WithoutElements(fs, name);
    assert name !in Elements(WithoutFinalizer(fs, name));
  }

  // Removes the controller's finalizer after a clean finalization of an
  // object marked for deletion, and not otherwise.
  method ClearFinalizer(c: Cluster, resource: GitLabSource, event: Event) returns (r: Result<GitLabSource, GoError>)
    requires c.Valid() && Running(c.s) && Mirrors(c.s, resource) && resource.meta.version == c.s.run.value.version
    requires Clean(event) && Copy(c.s).deleting ==> Settled(c.s)
    modifies c`s, c`trace, c`script
    ensures c.Valid() && Running(c.s) && c.s.finalizer == old(c.s.finalizer) && Origin(c.s) == old(Origin(c.s))
    ensures |old(c.trace)| <= |c.trace|
    ensures !Clean(event) || c.s.finalizer !in resource.meta.finalizers ==> c.s == old(c.s) && r == Ok(resource)
    ensures r.Ok? && r.value == resource ==>
      && Keeps(old(c.s), c.s) && c.s.run == old(c.s.run)
      && (Clean(event) && Copy(c.s).deleting && c.s.finalizer in Copy(c.s).finalizers ==> c.s.gone)
    ensures r.Ok? && r.value != resource ==>
      && fresh(r.value.Reach()) && r.value.View() == Copy(c.s)
      && Copy(c.s) == old(Copy(c.s)).(finalizers := Copy(c.s).finalizers, version := Copy(c.s).version)
      && c.s.finalizer !in Copy(c.s).finalizers
      && c.s.run.value == old(c.s.run.value).(version := c.s.run.value.version)
    ensures old(c.script) == [] && old(Current(c.s)) ==>
      && c.script == [] && r.Ok?
      && (r.value == resource <==> !Clean(event) || !resource.meta.deleting || c.s.finalizer !in resource.meta.finalizers)
      && c.s == if Clean(event) && resource.meta.deleting then CalmClear(old(c.s)) else old(c.s)
  {
    if !resource.meta.deleting { return Ok(resource); }
    var finalizers := Elements(resource.meta.finalizers);
    if Clean(event) {
      finalizers := finalizers - {c.s.finalizer};
    }
    r := UpdateFinalizersFilteredMergePatch(c, resource, finalizers);
    assert r.Ok? ==> r.value in r.value.Reach();
    WithoutName(resource.meta.finalizers, c.s.finalizer);
    if r.Err? {
      LaterSame(c.s);
      var got := c.GetSource();
      if got.Err? && got.error.KubeNotFound? {
        r := Ok(resource);
      }
    }
  }

  // ---- The generated reconciler: the status ----

  lemma AllowedLater(s: State, t: State, st: Status)
    requires Running(s) && Keeps(s, t) && t.run == s.run && (s.gone ==> t.gone)
    requires StatusAllowed(s, st)
    ensures StatusAllowed(t, st)
  {
  }

  ghost predicate StatusIs(s: State, st: Status) {
    s.history != [] && Last(s).status == st
  }

  // Submits an object as it was stored at some version, with the desired status.
  method PutStatus(c: Cluster, existing: GitLabSource, desired: GitLabSource) returns (e: Option<GoError>)
    requires existing != desired && c.Valid() && Running(c.s) && StatusAllowed(c.s, desired.StatusView())
    requires existing.meta.version < |c.s.history| && existing.View() == c.s.history[existing.meta.version]
    requires existing.StatusView() != desired.StatusView()
    modifies c`s, c`trace, c`script, existing
    ensures c.Valid() && Keeps(old(c.s), c.s) && c.s.run == old(c.s.run) && old(c.trace) <= c.trace
    ensures old(c.s.gone) ==> c.s.gone
    ensures e.None? ==> StatusIs(c.s, desired.StatusView())
    ensures old(c.script) == [] ==> c.script == []
    ensures old(c.script) == [] ==>
      c.s == if e != Some(KubeConflict) || c.s.gone then CalmWrite(old(c.s), desired.StatusView(), c.around) else old(c.s)
    ensures old(c.script) == [] && (c.s.gone || old(Latest(c.s, existing.meta.version))) ==>
      e != Some(KubeConflict) && (e.Some? <==> WriteFails(old(c.s), desired.StatusView(), c.around))
    ensures old(c.script) == [] && !(c.s.gone || old(Latest(c.s, existing.meta.version))) ==>
      e == Some(KubeConflict)
    ensures Granted(old(c.script)) && old(Latest(c.s, existing.meta.version)) ==>
      e.None? && c.script == old(c.script)[1..]
  {
    hide Store, Truthful, Behaviour;
    existing.status, existing.webhookID := desired.status, desired.webhookID;
    e := c.UpdateStatus(existing);
  }

  // The next call succeeds, and nothing moves before it.
  predicate Granted(script: seq<Move>) {
    Answers(script) && script[0].reply.Success?
  }

  predicate Latest(s: State, version: nat) {
    !s.gone && version == |s.history| - 1
  }

  // One attempt of updateStatus.
  method TryStatus(c: Cluster, existing: GitLabSource, desired: GitLabSource) returns (e: Option<GoError>)
    requires existing != desired && c.Valid() && Running(c.s) && StatusAllowed(c.s, desired.StatusView())
    requires existing.meta.version < |c.s.history| && existing.View() == c.s.history[existing.meta.version]
    modifies c`s, c`trace, c`script, existing
    ensures c.Valid() && Keeps(old(c.s), c.s) && c.s.run == old(c.s.run) && old(c.trace) <= c.trace
    ensures old(c.s.gone) ==> c.s.gone
    ensures old(existing.StatusView()) == desired.StatusView() ==> e.None? && c.s == old(c.s) && c.script == old(c.script)
    ensures old(existing.StatusView()) != desired.StatusView() && e.None? ==> StatusIs(c.s, desired.StatusView())
    ensures old(c.script) == [] && old(existing.StatusView()) != desired.StatusView() ==>
      && c.script == []
      && (c.s == if e != Some(KubeConflict) || c.s.gone then CalmWrite(old(c.s), desired.StatusView(), c.around) else old(c.s))
      && (if c.s.gone || old(Latest(c.s, existing.meta.version))
          then e != Some(KubeConflict) && (e.Some? <==> WriteFails(old(c.s), desired.StatusView(), c.around))
          else e == Some(KubeConflict))
    ensures Granted(old(c.script)) && old(Latest(c.s, existing.meta.version)) && old(existing.StatusView()) != desired.StatusView() ==>
      e.None? && c.script == old(c.script)[1..]
  {
    if existing.StatusView() == desired.StatusView() { return None; }
    e := PutStatus(c, existing, desired);
  }

  // A later attempt: the stored object is fetched first.
  method RetryStatus(c: Cluster, desired: GitLabSource) returns (e: Option<GoError>)
    requires c.Valid() && Running(c.s) && StatusAllowed(c.s, desired.StatusView())
    modifies c`s, c`trace, c`script
    ensures c.Valid() && Keeps(old(c.s), c.s) && c.s.run == old(c.s.run) && old(c.trace) <= c.trace
    ensures StatusAllowed(c.s, desired.StatusView())
    ensures e.None? ==> StatusIs(c.s, desired.StatusView())
    ensures old(c.s.gone) ==> c.s.gone
    ensures old(c.script) == [] ==> c.script == [] && c.s == CalmWrite(old(c.s), desired.StatusView(), c.around)
    ensures old(c.script) == [] ==> e != Some(KubeConflict) && (e.Some? <==> WriteFails(old(c.s), desired.StatusView(), c.around))
  {
    hide StatusAllowed, Behaviour;
    var got := c.GetSource();
    LaterCopy(old(c.s), c.s);
    AllowedLater(old(c.s), c.s, desired.StatusView());
    if got.Err? { return Some(got.error); }
    assert got.value in got.value.Reach();
    ghost var s1 := c.s;
    e := TryStatus(c, got.value, desired);
    AllowedLater(s1, c.s, desired.StatusView());
  }

  // In one of the states from a given one on, the stored status was st.
  ghost predicate HadStatus(trace: seq<State>, from: nat, st: Status) {
    exists i :: from <= i < |trace| && StatusIs(trace[i], st)
  }

  // RetryUpdateConflicts gives up after this many attempts.
  const MAX_ATTEMPTS := 5

  // Further attempts, as long as they end in conflicts.
  method KeepTrying(c: Cluster, desired: GitLabSource, first: Option<GoError>)
    returns (e: Option<GoError>, attempts: nat)
    requires c.Valid() && Running(c.s) && StatusAllowed(c.s, desired.StatusView())
    requires first.None? ==> StatusIs(c.s, desired.StatusView())
    modifies c`s, c`trace, c`script
    ensures c.Valid() && Keeps(old(c.s), c.s) && c.s.run == old(c.s.run) && old(c.trace) <= c.trace
    ensures e.None? ==> StatusIs(c.s, desired.StatusView())
    ensures old(c.s.gone) ==> c.s.gone
    ensures first != Some(KubeConflict) ==> e == first && attempts == 1 && c.s == old(c.s) && c.script == old(c.script)
    ensures 1 <= attempts <= 5 && (e == Some(KubeConflict) ==> attempts == 5)
    ensures old(c.script) == [] ==> c.script == []
    ensures old(c.script) == [] ==>
      if first == Some(KubeConflict)
      then
        && c.s == CalmWrite(old(c.s), desired.StatusView(), c.around)
        && (e.Some? <==> WriteFails(old(c.s), desired.StatusView(), c.around))
      else c.s == old(c.s) && e == first
  {
    hide StatusAllowed, CalmWrite, WriteFails, Behaviour;
    CalmWriteOnce(c.s, desired.StatusView(), c.around);
    ghost var once := CalmWrite(c.s, desired.StatusView(), c.around);
    e := first;
    attempts := 1;
    while attempts < MAX_ATTEMPTS && e == Some(KubeConflict)
      invariant c.Valid() && Keeps(old(c.s), c.s) && c.s.run == old(c.s.run) && old(c.trace) <= c.trace
      invariant StatusAllowed(c.s, desired.StatusView()) && (old(c.s.gone) ==> c.s.gone)
      invariant e.None? ==> StatusIs(c.s, desired.StatusView())
      invariant 1 <= attempts <= MAX_ATTEMPTS
      invariant attempts == 1 ==> c.s == old(c.s) && e == first && c.script == old(c.script)
      invariant attempts > 1 ==> first == Some(KubeConflict) && (old(c.script) == [] ==>
        c.script == [] && c.s == once && e != Some(KubeConflict) && (e.Some? <==> WriteFails(old(c.s), desired.StatusView(), c.around)))
    {
      e := RetryStatus(c, desired);
      attempts := attempts + 1;
    }
  }

  // updateStatus. The first attempt goes by the lister's copy, later ones
  // fetch the stored object. If it succeeds the stored status was the desired
  // one at some moment in the call.
  method UpdateStatus(c: Cluster, original: GitLabSource, desired: GitLabSource) returns (e: Option<GoError>)
    requires c.Valid() && Running(c.s) && StatusAllowed(c.s, desired.StatusView())
    requires original.View() == Origin(c.s) && original.meta.version == c.s.run.value.base
    requires original.StatusView() != desired.StatusView()
    modifies c`s, c`trace, c`script
    ensures c.Valid() && Keeps(old(c.s), c.s) && c.s.run == old(c.s.run) && old(c.trace) <= c.trace
    ensures e.None? ==> HadStatus(c.trace, |old(c.trace)| - 1, desired.StatusView())
    ensures old(c.s.gone) ==> c.s.gone
    ensures old(c.script) == [] ==> c.script == [] && c.s == CalmWrite(old(c.s), desired.StatusView(), c.around)
    ensures old(c.script) == [] ==> (e.Some? <==> WriteFails(old(c.s), desired.StatusView(), c.around))
    ensures Granted(old(c.script)) && old(Latest(c.s, c.s.run.value.base)) ==>
      e.None? && c.script == old(c.script)[1..]
  {
    hide StatusAllowed, CalmWrite, WriteFails, Behaviour, StatusIs;
    CalmWriteOnce(c.s, desired.StatusView(), c.around);
    CalmWriteGone(c.s, desired.StatusView(), c.around);
    var existing := original.DeepCopy();
    assert existing in existing.Reach();
    e := TryStatus(c, existing, desired);
    AllowedLater(old(c.s), c.s, desired.StatusView());
    var attempts;
    e, attempts := KeepTrying(c, desired, e);
    assert StatusIs(c.s, desired.StatusView()) ==> StatusIs(c.trace[|c.trace| - 1], desired.StatusView());
  }

  // ---- The generated reconciler: one run ----

  method PreProcessReconcile(src: GitLabSource)
    modifies src`status
    ensures src.StatusView() == Opened(old(src.StatusView()), src.meta.generation)
  {
    src.status := src.status.(conditions :=
      PreProcess(src.status.conditions, src.status.observedGeneration, src.meta.generation));
  }

  method PostProcessReconcile(src: GitLabSource)
    modifies src`status
    ensures src.StatusView() == old(src.StatusView()).(observedGeneration := src.meta.generation)
  {
    src.status := src.status.(observedGeneration := src.meta.generation);
  }

  lemma PostProcessTruthful(st: Status, generation: nat)
    requires Truthful(st)
    ensures Truthful(st.(observedGeneration := generation))
  {
  }

  // The part of Reconcile that runs ReconcileKind on a resource holding the finalizer.
  method ProcessKind(c: Cluster, resource: GitLabSource) returns (event: Event)
    requires c.Valid() && Running(c.s) && Willing(c.s) && c.s.run.value.added.None?
    requires resource.View() == Copy(c.s) && Truthful(Copy(c.s).status)
    modifies c`s, c`trace, c`script, resource, resource.sinkRef
    ensures c.Valid() && Keeps(old(c.s), c.s) && Asked(old(c.s), c.s)
    ensures |old(c.trace)| <= |c.trace|
    ensures Truthful(resource.StatusView()) && Records(c.s, resource.StatusView().webhookID)
    ensures Explained(event, resource.StatusView())
    ensures event.NoEvent? && c.s.run.value.adapter != old(c.s.run.value.adapter) ==>
      resource.StatusView().conditions.webhookConfigured.True?
    ensures event.NoEvent? && c.s.run.value.adapter.None? ==> FirstOwned(c.s.services).Some?
    ensures old(c.script) == [] ==> (Succeeds(event) <==> !KindFails(old(c.s), c.around))
    ensures old(c.script) == [] ==>
      && c.script == []
      && var o := old(Copy(c.s));
         var (t, st) := CalmKind(old(c.s), Opened(o.status, o.generation), Advertisement(o.spec), c.around);
         c.s == t && resource.StatusView() == st.(observedGeneration := o.generation)
  {
    PreProcessHonest(resource.StatusView(), resource.meta.generation);
    PreProcessReconcile(resource);
    event := ReconcileKind(c, resource);
    PostProcessTruthful(resource.StatusView(), resource.meta.generation);
    PostProcessReconcile(resource);
  }

  // Synchronizes the status, unless the run left it as the lister had it.
  method SyncStatus(c: Cluster, original: GitLabSource, resource: GitLabSource, isLeader: bool) returns (e: Option<GoError>)
    requires c.Valid() && Running(c.s) && StatusAllowed(c.s, resource.StatusView())
    requires original.View() == Origin(c.s) && original.meta.version == c.s.run.value.base
    modifies c`s, c`trace, c`script
    ensures c.Valid() && Keeps(old(c.s), c.s) && c.s.run == old(c.s.run) && (old(c.s.gone) ==> c.s.gone)
    ensures |old(c.trace)| <= |c.trace|
    ensures e.None? && isLeader && original.StatusView() != resource.StatusView() ==>
      HadStatus(c.trace, |old(c.trace)| - 1, resource.StatusView())
    ensures old(c.script) == [] && isLeader ==>
      && c.script == []
      && c.s == (if resource.StatusView() == original.StatusView() then old(c.s)
                 else CalmWrite(old(c.s), resource.StatusView(), c.around))
      && (e.Some? <==> resource.StatusView() != original.StatusView() && WriteFails(old(c.s), resource.StatusView(), c.around))
  {
    if original.StatusView() == resource.StatusView() { return None; }
    if !isLeader { return None; }
    e := UpdateStatus(c, original, resource);
  }

  // From s to t the run did nothing but write the status.
  predicate Prolongs(s: State, t: State)
    requires Running(s)
  {
    Keeps(s, t) && t.run == s.run && (s.gone ==> t.gone)
  }

  // What a run that does not fail has seen to: the finalizer holds an object
  // that is not being deleted, and lets go of one whose hook needs no further
  // attention, unless the token could not be read for the time being.
  predicate Accomplished(s: State)
    requires Running(s)
  {
    if !Copy(s).deleting then s.finalizer in Copy(s).finalizers
    else
      || ((!NamesHook(s) || s.run.value.removed || Hopeless(s)) && (s.finalizer !in Copy(s).finalizers || s.gone))
      || (s.run.value.unread != {} && !Hopeless(s))
  }

  // Finalization ended with this event, so that clearing the finalizer, if it is clean, is all that is left to do.
  predicate Accomplishing(s: State, event: Event)
    requires Running(s)
  {
    && Copy(s).deleting
    && if Clean(event) then Settled(s) && (s.run.value.ignored ==> Hopeless(s))
       else s.run.value.unread != {} && !Hopeless(s)
  }

  // The finalizer is cleared, or there was nothing to clear.
  predicate Cleared(s: State, t: State, event: Event)
    requires Running(s)
  {
    && Running(t) && t.finalizer == s.finalizer
    && Copy(t) == Copy(s).(finalizers := Copy(t).finalizers, version := Copy(t).version)
    && t.run.value == s.run.value.(version := t.run.value.version)
    && (Clean(event) && Copy(s).deleting ==> t.finalizer !in Copy(t).finalizers || t.gone)
  }

  lemma ClearedAccomplished(s: State, t: State, event: Event)
    requires Running(s) && Accomplishing(s, event) && Cleared(s, t, event)
    ensures Accomplished(t)
  {
  }

  // A run that ended before the last state of the trace did what it had to do
  // and left a status it may leave, which either was the lister's already or
  // was stored at some moment since `from`.
  ghost predicate Concluded(trace: seq<State>, from: nat, before: Status, left: Status) {
    && |trace| >= 2
    && var end := trace[|trace| - 2];
    && Running(end) && Accomplished(end) && StatusAllowed(end, left)
    && (left == before || HadStatus(trace, from, left))
  }

  lemma HadStatusStill(trace: seq<State>, s: State, from: nat, st: Status)
    ensures HadStatus(trace, from, st) ==> HadStatus(trace + [s], from, st)
  {
    if HadStatus(trace, from, st) {
      var i :| from <= i < |trace| && StatusIs(trace[i], st);
      assert StatusIs((trace + [s])[i], st);
    }
  }

  lemma ProlongedAccomplished(s: State, t: State, st: Status)
    requires Running(s) && Prolongs(s, t) && StatusAllowed(s, st)
    ensures StatusAllowed(t, st) && (Accomplished(s) ==> Accomplished(t))
  {
    AllowedLater(s, t, st);
  }

  lemma ConcludedSince(trace: seq<State>, from: nat, earlier: nat, before: Status, left: Status)
    requires earlier <= from
    ensures Concluded(trace, from, before, left) ==> Concluded(trace, earlier, before, left)
  {
  }

  // Writes the status back and ends the run.
  method Conclude(c: Cluster, original: GitLabSource, resource: GitLabSource, isLeader: bool) returns (e: Option<GoError>)
    requires c.Valid() && Running(c.s) && StatusAllowed(c.s, resource.StatusView())
    requires original.View() == Origin(c.s) && original.meta.version == c.s.run.value.base
    modifies c`s, c`trace, c`script
    ensures c.Valid() && c.s.run.None?
    ensures |old(c.trace)| < |c.trace|
    ensures e.None? && isLeader && old(Accomplished(c.s)) ==>
      Concluded(c.trace, |old(c.trace)| - 1, original.StatusView(), resource.StatusView())
    ensures old(c.script) == [] && isLeader ==>
      && c.script == [] && c.s == CalmEnd(old(c.s), original.StatusView(), resource.StatusView(), c.around)
      && (e.Some? <==> resource.StatusView() != original.StatusView() && WriteFails(old(c.s), resource.StatusView(), c.around))
  {
    hide StatusAllowed, CalmWrite, WriteFails, Behaviour, Accomplished, HadStatus;
    e := SyncStatus(c, original, resource, isLeader);
    ProlongedAccomplished(old(c.s), c.s, resource.StatusView());
    HadStatusStill(c.trace, Finish(c.s), |old(c.trace)| - 1, resource.StatusView());
    c.EndRun();
  }

  // The case of Reconcile for an object not being deleted.
  method DoReconcile(c: Cluster, copy: GitLabSource) returns (r: Result<GitLabSource, GoError>, event: Event)
    requires c.Valid() && Untouched(c.s) && copy.View() == Copy(c.s) && copy.meta.version == c.s.run.value.version
    requires !Copy(c.s).deleting && Truthful(Copy(c.s).status)
    modifies c`s, c`trace, c`script, copy, copy.sinkRef
    ensures c.Valid() && Running(c.s) && Origin(c.s) == old(Origin(c.s))
    ensures |old(c.trace)| <= |c.trace|
    ensures r.Ok? ==> StatusAllowed(c.s, r.value.StatusView()) && c.s.run.value.base == old(c.s.run.value.base)
    ensures r.Ok? ==> Accomplished(c.s)
    ensures old(c.script) == [] && old(Unopposed(c.s)) ==>
      && c.script == [] && r.Ok? && (c.s, r.value.StatusView()) == CalmObject(old(c.s), c.around)
      && (Succeeds(event) <==> !KindFails(CalmFinalizer(old(c.s)), c.around))
  {
    event := NoEvent;
    r := SetFinalizerIfFinalizer(c, copy);
    if r.Err? { return; }
    if r.value != copy {
      assert r.value in r.value.Reach();
      assert r.value.sinkRef != null ==> r.value.sinkRef in r.value.Reach();
      assert fresh(r.value) && (r.value.sinkRef == null || fresh(r.value.sinkRef));
    }
    event := ProcessKind(c, r.value);
  }

  // The case of Reconcile for an object being deleted.
  method DoFinalize(c: Cluster, copy: GitLabSource) returns (r: Result<GitLabSource, GoError>, event: Event)
    requires c.Valid() && Untouched(c.s) && copy.View() == Copy(c.s) && copy.meta.version == c.s.run.value.version
    requires Copy(c.s).deleting
    modifies c`s, c`trace, c`script, copy`webhookID
    ensures c.Valid() && Running(c.s) && Origin(c.s) == old(Origin(c.s))
    ensures |old(c.trace)| <= |c.trace|
    ensures r.Ok? ==> StatusAllowed(c.s, r.value.StatusView()) && c.s.run.value.base == old(c.s.run.value.base)
    ensures r.Ok? && Succeeds(event) ==> Accomplished(c.s)
    ensures old(c.script) == [] && old(Current(c.s)) ==>
      && c.script == [] && r.Ok? && (c.s, r.value.StatusView()) == CalmFinal(old(c.s), c.around)
      && (Succeeds(event) <==> !FinalFails(old(c.s), c.around))
  {
    hide Behaviour, Truthful, Patched, WithoutFinalizer, CalmFinalKind, FinalFails, Origin, Accomplished;
    event := FinalizeKind(c, copy);
    assert Succeeds(event) ==> Accomplishing(c.s, event);
    hide Accomplishing;
    ghost var s1 := c.s;
    r := ClearFinalizer(c, copy, event);
    if r.Ok? && Succeeds(event) { ClearedAccomplished(s1, c.s, event); }
  }

  // The method the run's state selects, on a deep copy of the lister's object.
  method Do(c: Cluster, method': Method, resource: GitLabSource) returns (r: Result<GitLabSource, GoError>, event: Event)
    requires c.Valid() && Untouched(c.s) && resource.View() == Copy(c.s) && resource.meta.version == c.s.run.value.version
    requires method' == if Copy(c.s).deleting then DoFinalizeKind else DoReconcileKind
    requires Copy(c.s).deleting || Truthful(Copy(c.s).status)
    modifies c`s, c`trace, c`script, resource, resource.sinkRef
    ensures c.Valid() && Running(c.s) && Origin(c.s) == old(Origin(c.s))
    ensures |old(c.trace)| <= |c.trace|
    ensures r.Ok? ==> StatusAllowed(c.s, r.value.StatusView()) && c.s.run.value.base == old(c.s.run.value.base)
    ensures r.Ok? && Succeeds(event) ==> Accomplished(c.s)
    ensures old(c.script) == [] && old(Unopposed(c.s)) ==>
      (Succeeds(event) <==>
        if method'.DoFinalizeKind? then !FinalFails(old(c.s), c.around) else !KindFails(CalmFinalizer(old(c.s)), c.around))
    ensures old(c.script) == [] && old(Unopposed(c.s)) ==>
      && c.script == [] && r.Ok?
      && (c.s, r.value.StatusView()) ==
           if method'.DoFinalizeKind? then CalmFinal(old(c.s), c.around) else CalmObject(old(c.s), c.around)
  {
    if method'.DoReconcileKind? {
      r, event := DoReconcile(c, resource);
    } else {
      r, event := DoFinalize(c, resource);
    }
  }

  // A run that began here would be unopposed.
  predicate Timely(s: State) {
    WellFormed(s) && Unopposed(Begun(s))
  }

  // Reconcile from the choice of method on.
  method Work(c: Cluster, original: GitLabSource, resource: GitLabSource, isLeader: bool)
    returns (failed: bool, ghost left: Status)
    requires isLeader && resource != original && (resource.sinkRef == null || resource.sinkRef != original.sinkRef)
    requires c.Valid() && Untouched(c.s) && resource.View() == Copy(c.s) && resource.meta.version == c.s.run.value.version
    requires original.View() == Origin(c.s) && original.meta.version == c.s.run.value.base
    requires Copy(c.s).deleting || Truthful(Copy(c.s).status)
    modifies c`s, c`trace, c`script, resource, resource.sinkRef
    ensures c.Valid() && c.s.run.None?
    ensures |old(c.trace)| < |c.trace|
    ensures !failed ==> Concluded(c.trace, |old(c.trace)| - 1, original.StatusView(), left)
    ensures old(c.script) == [] && old(Unopposed(c.s)) && Copy(old(c.s)) == Origin(old(c.s)) ==>
      c.script == [] && c.s == CalmWork(old(c.s), c.around) && (failed <==> WorkFails(old(c.s), c.around))
  {
    hide Truthful, StatusAllowed, CalmObject, CalmFinal, CalmEnd, Accomplished, Concluded;
    hide KindFails, FinalFails, WriteFails, Behaviour, Succeeds;
    left := resource.StatusView();
    var method' := ReconcileMethodFor(resource.meta.deleting, isLeader, false, true);
    var r, event := Do(c, method', resource);
    if r.Err? {
      c.EndRun();
      return true, left;
    }
    left := r.value.StatusView();
    ghost var done := |c.trace| - 1;
    var e := Conclude(c, original, r.value, isLeader);
    ConcludedSince(c.trace, done, |old(c.trace)| - 1, original.StatusView(), left);
    failed := e.Some? || !Succeeds(event);
  }

  // A run that did not fail and added a hook left a status that names it.
  lemma ConcludedRecords(trace: seq<State>, from: nat, before: Status, left: Status)
    requires Concluded(trace, from, before, left)
    ensures var end := trace[|trace| - 2];
      && (end.run.value.added.Some? ==> left.webhookID == end.run.value.added)
      && (!Copy(end).deleting ==> Truthful(left) && end.finalizer in Copy(end).finalizers)
  {
  }

  lemma BegunReady(s: State)
    requires WellFormed(s)
    ensures var t := Begun(s);
      Untouched(t) && Copy(t) == Origin(t) == s.history[s.cache] && t.run.value.base == t.run.value.version == s.cache
  {
  }

  // The leader's part of Reconcile, on a deep copy.
  method RunAsLeader(c: Cluster, original: GitLabSource) returns (failed: bool, ghost left: Status)
    requires c.Valid() && c.s.run.None?
    requires original.View() == c.s.history[c.s.cache] && original.meta.version == c.s.cache
    requires !original.meta.deleting ==> Truthful(original.StatusView())
    modifies c`s, c`trace, c`script
    ensures c.Valid() && c.s.run.None?
    ensures |old(c.trace)| <= |c.trace|
    ensures !failed ==> Concluded(c.trace, |old(c.trace)| - 1, original.StatusView(), left)
    ensures old(c.script) == [] && old(Timely(c.s)) ==>
      c.s == CalmRun(old(c.s), c.around) && c.script == [] && (failed <==> CalmFails(old(c.s), c.around))
  {
    hide Truthful, CalmWork, WorkFails, Concluded, Behaviour, Begun, Untouched, Unopposed;
    var resource := original.DeepCopy();
    BegunReady(c.s);
    c.BeginRun();
    assert resource in resource.Reach() && (resource.sinkRef != null ==> resource.sinkRef in resource.Reach());
    ghost var begun := |c.trace| - 1;
    failed, left := Work(c, original, resource, true);
    ConcludedSince(c.trace, begun, |old(c.trace)| - 1, original.StatusView(), left);
  }

  // Reconcile on the lister's object, nil if the lister has none. It works on
  // a deep copy: nothing but the cluster is modified. Unless it fails, the
  // status it left was the lister's already or was stored during the call.
  method Reconcile(c: Cluster, original: GitLabSource?, isLeader: bool) returns (failed: bool, ghost left: Status)
    requires c.Valid() && c.s.run.None?
    requires original != null ==> original.View() == c.s.history[c.s.cache] && original.meta.version == c.s.cache
    requires original != null && !original.meta.deleting ==> Truthful(original.StatusView())
    modifies c`s, c`trace, c`script
    ensures c.Valid() && c.s.run.None?
    ensures |old(c.trace)| <= |c.trace|
    ensures original == null || !isLeader ==> c.s == old(c.s) && c.trace == old(c.trace) && failed == !isLeader
    ensures original != null && isLeader && !failed ==>
      Concluded(c.trace, |old(c.trace)| - 1, original.StatusView(), left)
    ensures old(c.script) == [] && original != null && isLeader && old(Timely(c.s)) ==>
      c.s == CalmRun(old(c.s), c.around) && c.script == [] && (failed <==> CalmFails(old(c.s), c.around))
  {
    hide Truthful, CalmRun, CalmFails, Concluded, Behaviour, Timely;
    left := EMPTY_STATUS;
    if IsNotLeaderNorObserver(isLeader, false) { return true, left; }
    if original == null { return false, left; }
    failed, left := RunAsLeader(c, original);
  }

  // ---- Many runs ----

  // One call of Reconcile: from which version a restarted process's lister
  // starts, if one takes over; whether it leads; and whether its lister has the object.
  datatype Turn = Turn(restart: Option<nat>, isLeader: bool, listed: bool)

  // What the lister holds can be handed to Reconcile.
  lemma ListedOk(s: State)
    requires Reachable(s)
    ensures s.history[s.cache].version == s.cache
    ensures !s.history[s.cache].deleting ==> Truthful(s.history[s.cache].status)
  {
    InvReachable(s);
  }

  lemma ReachableWellFormed(s: State)
    requires Reachable(s)
    ensures WellFormed(s)
  {
  }

  lemma ClusterReachable(c: Cluster)
    requires c.Valid() && Initial(c.start)
    ensures Reachable(c.s)
  {
  }

  lemma FewInOrder(s: State)
    requires Reachable(s) && s.sentinel
    ensures |Live(s)| <= SingleHook.Slips(s.tally) + 1 && |Orphans(s)| <= SingleHook.Allowance(s)
  {
    hide Orphans, Live, Moves, SingleHook.Slips, SingleHook.Allowance, SingleHook.Vacant;
    SingleHook.FewHooks(s);
    SingleHook.HooksConservedTightly(s);
  }

  // What holds of every reachable state, as far as it concerns a maintainer.
  lemma InOrder(s: State)
    requires Reachable(s)
    ensures |Orphans(s)| <= Losses(s.tally) + Moves(s.history, |s.history| - 1)
    ensures s.sentinel ==> |Live(s)| <= SingleHook.Slips(s.tally) + 1
    ensures s.sentinel ==> |Orphans(s)| <= SingleHook.Allowance(s)
    ensures s.gone ==> |Live(s)| <= Losses(s.tally) + Moves(s.history, |s.history| - 1)
    ensures Owned(s.services) <= 1
    ensures !Last(s).deleting ==> Truthful(Last(s).status)
  {
    hide Reachable, Truthful, Orphans, Live, Losses, Moves, Owned, SingleHook.Slips, SingleHook.Allowance, SingleHook.Vacant;
    ReachableWellFormed(s);
    HooksConserved(s);
    OneAdapter(s);
    if s.sentinel { FewInOrder(s); }
    if s.gone { NoHookOutlivesSource(s); }
    if !Last(s).deleting { StatusesTruthful(s, |s.history| - 1); }
  }

  // A new process takes over between two calls.
  method Takeover(c: Cluster, restart: Option<nat>)
    requires c.Valid() && c.s.run.None?
    modifies c`s, c`trace, c`script
    ensures c.Valid() && c.s.run.None?
    ensures |old(c.trace)| <= |c.trace|
  {
    if restart.Some? && restart.value < |c.s.history| {
      c.Act(Restart(restart.value));
    }
  }

  // The controller at work on a new object, others moving at any time and
  // every call answered in any way: its hooks and its Services stay accounted for.
  method Serve(c: Cluster, turns: seq<Turn>)
    requires c.Valid() && Initial(c.start) && c.s.run.None?
    modifies c`s, c`trace, c`script
    ensures c.Valid() && Reachable(c.s) && c.s.run.None?
    ensures |old(c.trace)| <= |c.trace|
    ensures |Orphans(c.s)| <= Losses(c.s.tally) + Moves(c.s.history, |c.s.history| - 1)
    ensures c.s.sentinel ==> |Live(c.s)| <= SingleHook.Slips(c.s.tally) + 1
    ensures c.s.sentinel ==> |Orphans(c.s)| <= SingleHook.Allowance(c.s)
    ensures c.s.gone ==> |Live(c.s)| <= Losses(c.s.tally) + Moves(c.s.history, |c.s.history| - 1)
    ensures Owned(c.s.services) <= 1
    ensures !Last(c.s).deleting ==> Truthful(Last(c.s).status)
  {
    hide Initial, Behaviour, Reachable, Truthful;
    for i := 0 to |turns|
      invariant c.Valid() && c.s.run.None? && |old(c.trace)| <= |c.trace|
    {
      c.Interfere();
      Takeover(c, turns[i].restart);
      ClusterReachable(c);
      ListedOk(c.s);
      var original: GitLabSource? := null;
      if turns[i].listed {
        original := new GitLabSource.Decode(c.s.history[c.s.cache]);
      }
      var failed, _ := Reconcile(c, original, turns[i].isLeader);
    }
    ClusterReachable(c);
    InOrder(c.s);
  }
}
