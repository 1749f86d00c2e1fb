// What repeated runs lead to when nothing else moves and every call succeeds.
module Convergence {
  import opened Sources
  import opened ConditionSets
  import opened StatusRules
  import opened WebhookOptions
  import opened Strings
  import opened EventTypes
  import Finalizers
  import opened Protocol
  import opened Clusters
  import opened Calm

  // Nothing is in progress and the lister holds the latest version.
  predicate Rested(s: State) {
    WellFormed(s) && s.run.None? && !s.gone && s.cache == |s.history| - 1
  }

  // A source that is not being deleted, with an adapter at this URL.
  predicate Favourable(s: State, url: string) {
    && Rested(s)
    && !Last(s).deleting
    && FirstOwned(s.services).Some?
    && FirstOwned(s.services).value.ready
    && FirstOwned(s.services).value.url == Some(url)
  }

  // One run, after which the lister catches up.
  ghost function Round(s: State, w: Surroundings): (r: State)
    requires WellFormed(s)
    ensures WellFormed(r)
  {
    var t := CalmRun(s, w);
    t.(cache := |t.history| - 1)
  }

  function KeyFor(o: Source): HookKey
    requires o.status.webhookID.Some?
  {
    HookKey(o.spec.projectURL, o.status.webhookID.value)
  }

  // No hook is recorded, or the recorded one exists.
  predicate Findable(s: State)
    requires s.history != []
  {
    Last(s).status.webhookID.Some? ==> KeyFor(Last(s)) in s.hooks
  }

  // That, or a client that lets the controller recognise a missing hook.
  predicate Recoverable(s: State)
    requires s.history != []
  {
    !s.sentinel || Findable(s)
  }

  // The status of a source whose webhook is in place.
  ghost function TargetStatus(o: Source, w: Surroundings, id: int): Status {
    var sink := SinkURI(o, w);
    var c := if sink.Some? then True else False;
    Status(o.generation, Conditions(c, True, True, c), sink, Advertisement(o.spec), Some(id))
  }

  // The status of a source whose recorded hook does not exist.
  ghost function BrokenStatus(o: Source, w: Surroundings): Status {
    var sink := SinkURI(o, w);
    Status(o.generation, Conditions(if sink.Some? then True else False, True, False, False),
           sink, Advertisement(o.spec), o.status.webhookID)
  }

  // Field by field: SinkProvided and Ready say whether the sink resolves, the
  // other two are True; every attribute has the project as its source, and
  // their types are strictly sorted and exactly the advertised ones.
  lemma TargetSays(o: Source, w: Surroundings, id: int)
    ensures var st := TargetStatus(o, w, id);
      && st.observedGeneration == o.generation && st.webhookID == Some(id)
      && (st.conditions.ready.True? <==> SinkRef(o) in w.sinks) && (st.conditions.sinkProvided.True? <==> SinkRef(o) in w.sinks)
      && (SinkRef(o) in w.sinks ==> st.sinkURI == Some(w.sinks[SinkRef(o)]))
      && st.conditions.deployed.True? && st.conditions.webhookConfigured.True?
      && (forall i :: 0 <= i < |st.attributes| ==> st.attributes[i].source == o.spec.projectURL)
      && (forall i, j :: 0 <= i < j < |st.attributes| ==> Less(st.attributes[i].eventType, st.attributes[j].eventType))
      && (set i | 0 <= i < |st.attributes| :: st.attributes[i].eventType) == Advertised(o.spec.eventTypes)
  {
    ListingAnnounced(o.spec.eventTypes, o.spec.projectURL);
  }

  // The hook that is in place, field by field.
  lemma InPlaceSays(s: State, url: string)
    requires InPlace(s, url)
    ensures var (h, spec) := (s.hooks[KeyFor(Last(s))], Last(s).spec);
      && h.url == url && h.sslVerify == spec.sslVerify
      && forall w: Webhook :: w != Unsupported ==> (Flag(h.flags, w) <==> NameOf(w) in spec.eventTypes)
  {
    EditedHook(Last(s).spec, url);
  }

  // Whatever the conditions were, a run that configures the webhook ends in the target status.
  lemma TargetReached(o: Source, w: Surroundings, id: int)
    ensures var st := Sunk(Opened(o.status, o.generation).(attributes := Advertisement(o.spec)), SinkURI(o, w));
      Marked(Marked(st, Deployed, true).(webhookID := Some(id)), WebhookConfigured, true).(observedGeneration := o.generation)
        == TargetStatus(o, w, id)
  {
  }

  lemma BrokenReached(o: Source, w: Surroundings)
    ensures var st := Sunk(Opened(o.status, o.generation).(attributes := Advertisement(o.spec)), SinkURI(o, w));
      Marked(Marked(st, Deployed, true), WebhookConfigured, false).(observedGeneration := o.generation)
        == BrokenStatus(o, w)
  {
  }

  // Listing the Services tells the run something and changes nothing else.
  lemma ListedSame(s: State)
    requires Running(s)
    ensures var t := Listed(s);
      && Running(t) && Copy(t) == Copy(s) && t.history == s.history && t.gone == s.gone
      && t.hooks == s.hooks && t.services == s.services && t.issued == s.issued && t.created == s.created
      && t.finalizer == s.finalizer && t.sentinel == s.sentinel && t.tally == s.tally && t.cache == s.cache
      && t.run.value == s.run.value.(vacant := t.run.value.vacant, adapter := t.run.value.adapter)
  {
    hide FirstOwned, AdapterURL;
    if FirstOwned(s.services).None? {
      assert Listed(s) == NoneFound(s);
    } else if AdapterURL(s.services).Some? {
      assert Listed(s) == AdapterFound(s, AdapterURL(s.services).value);
    }
  }

  lemma StartedRun(s: State)
    requires Rested(s)
    ensures var t := CalmFinalizer(Begun(s));
      && Running(t) && Copy(t) == Last(t)
      && Last(t) == Last(s).(finalizers := Last(t).finalizers, version := Last(t).version)
      && s.finalizer in Last(t).finalizers
      && t.hooks == s.hooks && t.services == s.services && t.issued == s.issued && t.created == s.created
      && t.finalizer == s.finalizer && t.sentinel == s.sentinel && t.tally == s.tally && t.cache == s.cache
      && t.run.value.added.None? && t.gone == (Last(s).deleting && Last(t).finalizers == [])
  {
  }

  // The state a run works on once the finalizer is in place and the Services are listed.
  lemma Started(s: State)
    requires Rested(s)
    ensures var t := Listed(CalmFinalizer(Begun(s)));
      && Running(t) && Copy(t) == Last(t)
      && Last(t) == Last(s).(finalizers := Last(t).finalizers, version := Last(t).version)
      && s.finalizer in Last(t).finalizers
      && t.hooks == s.hooks && t.services == s.services && t.issued == s.issued && t.created == s.created
      && t.finalizer == s.finalizer && t.sentinel == s.sentinel && t.tally == s.tally && t.cache == s.cache
      && t.run.value.added.None? && t.gone == (Last(s).deleting && Last(t).finalizers == [])
  {
    hide Listed;
    StartedRun(s);
    ListedSame(CalmFinalizer(Begun(s)));
  }

  // With an adapter in place a run comes down to syncWebhook.
  lemma ObjectOutcome(s: State, url: string, w: Surroundings)
    requires Favourable(s, url)
    ensures var s1 := Listed(CalmFinalizer(Begun(s)));
      var (t, st) := CalmObject(Begun(s), w);
      var (u, id) := CalmSync(s1, url, w);
      && t == u
      && st == (if id.Some? then TargetStatus(Last(s), w, id.value) else BrokenStatus(Last(s), w))
  {
    hide CalmSync;
    StartedRun(s);
    Started(s);
    var o := Copy(CalmFinalizer(Begun(s)));
    var (u, id) := CalmSync(Listed(CalmFinalizer(Begun(s))), url, w);
    if id.Some? {
      TargetReached(o, w, id.value);
    } else {
      BrokenReached(o, w);
    }
  }

  // The end of a run that stores the status st on the version it worked on.
  lemma EndOutcome(t: State, before: Status, st: Status, w: Surroundings)
    requires w.outage.NoOutage?
    requires Running(t) && !t.gone && Last(t).status == before && !Last(t).deleting
    requires t.run.value.added.Some? ==> st.webhookID == t.run.value.added
    ensures var u := CalmEnd(t, before, st, w);
      && WellFormed(u) && u.run.None? && !u.gone
      && Last(u) == Last(t).(status := st, version := Last(u).version)
      && u.hooks == t.hooks && u.services == t.services && u.issued == t.issued && u.tally == t.tally
      && u.finalizer == t.finalizer && u.sentinel == t.sentinel && u.created == t.created
      && (st == before ==> u == t.(run := None))
  {
  }

  // The finalizer is in place, the recorded hook exists, and the status says so.
  ghost predicate Healthy(s: State, url: string, w: Surroundings) {
    && Favourable(s, url)
    && s.finalizer in Last(s).finalizers
    && Last(s).status.webhookID.Some?
    && Last(s).status == TargetStatus(Last(s), w, Last(s).status.webhookID.value)
    && KeyFor(Last(s)) in s.hooks
  }

  // From s to t the hook with this id is there, and nothing but hooks changed.
  predicate Leaves(s: State, t: State, id: Option<int>)
    requires Running(s)
  {
    && Running(t) && t.history == s.history && t.gone == s.gone && t.services == s.services
    && t.finalizer == s.finalizer && t.sentinel == s.sentinel
    && id.Some? && HookKey(Copy(s).spec.projectURL, id.value) in t.hooks && s.hooks.Keys <= t.hooks.Keys
    && (t.run.value.added.Some? ==> t.run.value.added == id)
  }

  lemma AddingLeaves(s: State, url: string, w: Surroundings)
    requires w.outage.NoOutage?
    requires Running(s)
    ensures var (t, id) := CalmAdding(s, url, w); Leaves(s, t, id)
  {
    hide Configure;
  }

  lemma EditingLeaves(s: State, url: string)
    requires Running(s) && s.run.value.added.None? && NamesHook(s) && NamedHook(s) in s.hooks
    ensures var (t, id) := CalmEditing(s, url); Leaves(s, t, id)
  {
    hide Configure;
  }

  // What syncWebhook leaves of a run that can find or replace the hook its copy names.
  lemma SyncOutcome(s: State, url: string, w: Surroundings)
    requires w.outage.NoOutage?
    requires Running(s) && s.run.value.added.None?
    requires s.sentinel && NamesHook(s) ==> NamedHook(s) in s.hooks
    ensures var (t, id) := CalmSync(s, url, w); Leaves(s, t, id)
  {
    hide CalmAdding, CalmEditing;
    if !NamesHook(s) {
      AddingLeaves(s, url, w);
    } else if NamedHook(s) in s.hooks {
      EditingLeaves(s, url);
    } else {
      AddingLeaves(FoundMissing(s), url, w);
    }
  }

  // One run puts finalizer, hook and status in place.
  lemma FirstRound(s: State, url: string, w: Surroundings)
    requires w.outage.NoOutage?
    requires Favourable(s, url) && Recoverable(s)
    ensures var r := Round(s, w);
      && Healthy(r, url, w) && Last(r).spec == Last(s).spec
      && r.finalizer == s.finalizer && r.sentinel == s.sentinel
  {
    hide CalmObject, CalmEnd, CalmSync, CalmFinalizer, Listed, FirstOwned;
    Started(s);
    SyncOutcome(Listed(CalmFinalizer(Begun(s))), url, w);
    ObjectOutcome(s, url, w);
    var (t, st) := CalmObject(Begun(s), w);
    EndOutcome(t, Last(s).status, st, w);
  }

  // From there on a run only sets the hook to what the spec asks for.
  lemma NextRound(s: State, url: string, w: Surroundings)
    requires w.outage.NoOutage?
    requires Healthy(s, url, w)
    ensures Round(s, w) == s.(hooks := s.hooks[KeyFor(Last(s)) := WantedHook(Last(s).spec, url)])
  {
    hide CalmObject, CalmEnd, TargetStatus, FirstOwned, Wanted;
    Started(s);
    ObjectOutcome(s, url, w);
    var (t, st) := CalmObject(Begun(s), w);
    OverlayFull(Wanted(Cases(Last(s).spec.eventTypes)), s.hooks[KeyFor(Last(s))].flags);
    EndOutcome(t, Last(s).status, st, w);
  }

  ghost function Rounds(s: State, n: nat, w: Surroundings): (t: State)
    requires WellFormed(s)
    ensures WellFormed(t)
  {
    if n == 0 then s else Round(Rounds(s, n - 1, w), w)
  }

  // The recorded hook is exactly what the spec asks for.
  predicate InPlace(s: State, url: string) {
    && s.history != [] && Last(s).status.webhookID.Some?
    && KeyFor(Last(s)) in s.hooks && s.hooks[KeyFor(Last(s))] == WantedHook(Last(s).spec, url)
  }

  lemma TwoRounds(s: State, url: string, w: Surroundings)
    requires w.outage.NoOutage?
    requires Favourable(s, url) && Recoverable(s)
    ensures var t := Round(Round(s, w), w);
      && Healthy(t, url, w) && InPlace(t, url) && Last(t).spec == Last(s).spec
  {
    hide Round;
    var r := Round(s, w);
    FirstRound(s, url, w);
    NextRound(r, url, w);
  }

  lemma FixedPoint(t: State, url: string, w: Surroundings)
    requires w.outage.NoOutage?
    requires Healthy(t, url, w) && InPlace(t, url)
    ensures Round(t, w) == t
  {
    NextRound(t, url, w);
    assert t.hooks[KeyFor(Last(t)) := WantedHook(Last(t).spec, url)] == t.hooks;
  }

  // After two runs the hook is what the spec asks for, and every further run
  // leaves everything as it is: it creates no Service, adds no hook, changes
  // no hook and writes nothing.
  lemma {:induction false} Converges(s: State, url: string, w: Surroundings, n: nat)
    requires w.outage.NoOutage?
    requires Favourable(s, url) && Recoverable(s) && n >= 2
    ensures var t := Rounds(s, n, w);
      && t == Rounds(s, 2, w)
      && Healthy(t, url, w) && InPlace(t, url) && Last(t).spec == Last(s).spec
      && Round(t, w) == t
  {
    hide Round, Healthy, InPlace;
    if n == 2 {
      assert Rounds(s, 1, w) == Round(Rounds(s, 0, w), w);
      TwoRounds(s, url, w);
    } else {
      Converges(s, url, w, n - 1);
    }
    FixedPoint(Rounds(s, n, w), url, w);
  }

  // A recorded hook that does not exist is never replaced: the run stops there.
  lemma BrokenRound(s: State, url: string, w: Surroundings)
    requires w.outage.NoOutage?
    requires Favourable(s, url) && !Recoverable(s)
    ensures var r := Round(s, w);
      && Favourable(r, url) && !Recoverable(r)
      && Last(r).spec == Last(s).spec && Last(r).status == BrokenStatus(Last(s), w)
      && r.hooks == s.hooks
  {
    hide CalmObject, CalmEnd;
    Started(s);
    ObjectOutcome(s, url, w);
    var (t, st) := CalmObject(Begun(s), w);
    EndOutcome(t, Last(s).status, st, w);
  }

  lemma {:induction false} StaysBroken(s: State, url: string, w: Surroundings, n: nat)
    requires w.outage.NoOutage?
    requires Favourable(s, url) && !Recoverable(s)
    ensures var t := Rounds(s, n, w);
      && Favourable(t, url) && !Recoverable(t) && t.hooks == s.hooks
      && (n > 0 ==> Last(t).status.conditions.webhookConfigured.False?)
  {
    hide Round;
    if n > 0 {
      StaysBroken(s, url, w, n - 1);
      BrokenRound(Rounds(s, n - 1, w), url, w);
    }
  }

  lemma NotInPlace(t: State, url: string)
    requires t.history != [] && !Recoverable(t)
    ensures !InPlace(t, url)
  {
  }

  // With the vendored client, whoever deletes the recorded hook stops the source for good.
  lemma DeletedHookStays(s: State, url: string, w: Surroundings, n: nat)
    requires w.outage.NoOutage?
    requires Healthy(s, url, w) && s.sentinel
    ensures var t := Apply(s, World(RemoveHook(KeyFor(Last(s)))));
      WellFormed(t) && !InPlace(Rounds(t, n, w), url)
  {
    hide Rounds, InPlace;
    var t := Apply(s, World(RemoveHook(KeyFor(Last(s)))));
    StaysBroken(t, url, w, n);
    NotInPlace(Rounds(t, n, w), url);
  }

  // The runs ever lead to the wanted hook exactly if no hook was recorded, the
  // recorded one existed, or the controller can tell that it does not.
  lemma ConvergesIff(s: State, url: string, w: Surroundings)
    requires w.outage.NoOutage?
    requires Favourable(s, url)
    ensures Recoverable(s) <==> exists n: nat :: InPlace(Rounds(s, n, w), url)
  {
    if Recoverable(s) {
      Converges(s, url, w, 2);
    } else {
      forall n: nat ensures !InPlace(Rounds(s, n, w), url) {
        StaysBroken(s, url, w, n);
      }
    }
  }

  // ---- A lister that lags behind ----

  // As favourable, but the lister may hold any version that carries the
  // finalizer and names the same project.
  predicate Lagging(s: State, url: string) {
    && WellFormed(s) && s.run.None? && !s.gone && !Last(s).deleting
    && !s.history[s.cache].deleting && s.finalizer in s.history[s.cache].finalizers
    && s.history[s.cache].spec.projectURL == Last(s).spec.projectURL
    && FirstOwned(s.services).Some? && FirstOwned(s.services).value.ready
    && FirstOwned(s.services).value.url == Some(url)
  }

  // The hook the old version names exists, or can be told to be missing.
  predicate CopyRecoverable(s: State)
    requires WellFormed(s)
  {
    s.sentinel && s.history[s.cache].status.webhookID.Some? ==> KeyFor(s.history[s.cache]) in s.hooks
  }

  lemma LaggingStarted(s: State, url: string)
    requires Lagging(s, url) && CopyRecoverable(s)
    ensures var b := Listed(Begun(s));
      && Running(Begun(s)) && CalmFinalizer(Begun(s)) == Begun(s) && Copy(Begun(s)) == s.history[s.cache]
      && Begun(s).services == s.services
      && Running(b) && b.run.value.added.None? && Copy(b) == s.history[s.cache]
      && b.history == s.history && b.hooks == s.hooks && b.services == s.services
      && b.sentinel == s.sentinel && b.finalizer == s.finalizer && b.gone == s.gone
      && (b.sentinel && NamesHook(b) ==> NamedHook(b) in b.hooks)
  {
    hide Listed;
    ListedSame(Begun(s));
  }

  // With an adapter in place the status a run leaves names the hook syncWebhook answered.
  lemma ObjectNames(b: State, url: string, w: Surroundings)
    requires Running(b) && CalmFinalizer(b) == b && FirstOwned(b.services).Some?
    requires FirstOwned(b.services).value.ready && FirstOwned(b.services).value.url == Some(url)
    requires CalmSync(Listed(b), url, w).1.Some?
    ensures var (t, st) := CalmObject(b, w);
      t == CalmSync(Listed(b), url, w).0 && st.webhookID == CalmSync(Listed(b), url, w).1
  {
    hide CalmSync;
  }

  // The end of a run that wrote from an old version.
  lemma LaggingEnd(s: State, t: State, before: Status, st: Status, url: string, w: Surroundings)
    requires w.outage.NoOutage?
    requires Lagging(s, url) && Recoverable(s)
    requires Running(t) && t.history == s.history && t.gone == s.gone && t.services == s.services
    requires t.finalizer == s.finalizer && t.sentinel == s.sentinel && s.hooks.Keys <= t.hooks.Keys
    requires st.webhookID.Some? && HookKey(Last(s).spec.projectURL, st.webhookID.value) in t.hooks
    ensures var u := CalmEnd(t, before, st, w);
      var r := u.(cache := |u.history| - 1);
      Favourable(r, url) && Recoverable(r) && Last(r).spec == Last(s).spec
  {
  }

  // One undisturbed run from such a version, after which the lister catches
  // up, leads to a state from which two more runs converge.
  lemma LaggingRound(s: State, url: string, w: Surroundings)
    requires w.outage.NoOutage?
    requires Lagging(s, url) && Recoverable(s) && CopyRecoverable(s)
    ensures var r := Round(s, w);
      Favourable(r, url) && Recoverable(r) && Last(r).spec == Last(s).spec
  {
    hide CalmObject, CalmEnd, CalmSync, Begun, CalmFinalizer, Listed;
    var b := Begun(s);
    LaggingStarted(s, url);
    SyncOutcome(Listed(b), url, w);
    ObjectNames(b, url, w);
    var (t, st) := CalmObject(b, w);
    LaggingEnd(s, t, Copy(b).status, st, url, w);
  }

  // ---- An object being deleted ----

  lemma {:induction false} EmptyElements(s: seq<string>)
    ensures s == [] <==> Elements(s) == {}
  {
    if s != [] { assert s[0] in Elements(s); }
  }

  lemma FinalizedRound(s: State, w: Surroundings)
    requires w.outage.NoOutage?
    requires Rested(s) && Last(s).deleting && s.finalizer in Last(s).finalizers
    ensures var r := Round(s, w);
      if !Findable(s) then r == s
      else
        && Last(r) == Last(s).(finalizers := WithoutFinalizer(Last(s).finalizers, s.finalizer), version := |s.history|)
        && r.gone == (Last(r).finalizers == [])
        && r.issued == s.issued && r.created == s.created
        && r.hooks == s.hooks - (if Last(s).status.webhookID.Some? then {KeyFor(Last(s))} else {})
  {
    hide CalmObject, WithoutFinalizer;
    var (t, clean, id) := CalmFinalKind(Begun(s), w);
    assert clean <==> Findable(s);
    assert clean ==> CalmClear(t) == Patched(t, WithoutFinalizer(Last(s).finalizers, s.finalizer), true);
  }

  // One undisturbed run removes the finalizer, and the object if it was the
  // last one, exactly if no hook is recorded or the recorded one exists; its
  // hook is deleted then.
  lemma Finalized(s: State, w: Surroundings)
    requires w.outage.NoOutage?
    requires Rested(s) && Last(s).deleting && s.finalizer in Last(s).finalizers
    ensures var r := Round(s, w);
      && WellFormed(r) && r.issued == s.issued && r.created == s.created
      && (Findable(s) <==> s.finalizer !in Last(r).finalizers)
      && (r.gone <==> Findable(s) && Elements(Last(s).finalizers) == {s.finalizer})
      && (Findable(s) && Last(s).status.webhookID.Some? ==> KeyFor(Last(s)) !in r.hooks)
  {
    hide Round;
    FinalizedRound(s, w);
    Finalizers.WithoutElements(Last(s).finalizers, s.finalizer);
    EmptyElements(WithoutFinalizer(Last(s).finalizers, s.finalizer));
    assert s.finalizer in Elements(Last(s).finalizers);
    assert forall f :: f in Elements(WithoutFinalizer(Last(s).finalizers, s.finalizer)) <==>
      f in WithoutFinalizer(Last(s).finalizers, s.finalizer);
  }

  // A recorded hook that does not exist keeps the object for ever: its deletion answers 404 every time.
  lemma {:induction false} NeverFinalized(s: State, w: Surroundings, n: nat)
    requires w.outage.NoOutage?
    requires Rested(s) && Last(s).deleting && s.finalizer in Last(s).finalizers && !Findable(s)
    ensures Rounds(s, n, w) == s
  {
    hide Round;
    if n > 0 {
      NeverFinalized(s, w, n - 1);
      FinalizedRound(s, w);
    }
  }
}
