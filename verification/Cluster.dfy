// The systems the controller calls: the API server, GitLab's API and the sink
// resolver, behind which other actors move between any two calls. A script
// says what they do and how each call is answered; it is arbitrary.
module Clusters {
  import opened Sources
  import opened WebhookOptions
  import opened Protocol
  import opened Objects

  datatype Reply =
    | Success(hint: nat)       // hint: where a server looks for a fresh id
    | Lost                     // the call took effect but its answer never came
    | Refused(status: nat)     // an HTTP error status

  datatype Move = Happen(step: WorldStep) | Answer(reply: Reply)

  // What goes wrong for good once the script is used up, if anything.
  datatype Outage =
    | NoOutage
    | StatusWrites  // the API server refuses every status write
    | HookAnswers   // the answer to an add never comes
    | Credentials   // the Secret with the GitLab token is gone

  // What the outside world answers with.
  datatype Surroundings = Surroundings(
    sinks: map<Option<Ref>, string>,  // what sinks resolve to
    defaults: Flags,                  // the flags GitLab enables on its own
    outage: Outage)

  function Resolved(w: Surroundings, ref: Option<Ref>): Option<string> {
    if ref in w.sinks then Some(w.sinks[ref]) else None
  }

  // ---- How errors reach the caller ----

  // The GitLab client's CheckResponse. The vendored client keeps a sentinel
  // for status 404; with any other client it is an *ErrorResponse too.
  function CheckResponse(sentinel: bool, status: nat): Option<GoError> {
    if status in {200, 201, 202, 204, 304} then None
    else if sentinel && status == 404 then Some(GitLabNotFound)
    else Some(GitLabResponse(status))
  }

  // GitLab refuses for another reason than the hook's absence.
  function GitLabError(status: nat): GoError {
    var e := CheckResponse(true, status);
    if e.Some? && status != 404 then e.value else OtherError
  }

  // The API server's refusal; NotFound is kept for what is really not there.
  function KubeError(status: nat): GoError {
    if status == 409 then KubeConflict else OtherError
  }

  // What the client getter makes of the answer to its read of the Secret.
  function ReadError(reply: Reply): Option<GoError> {
    match reply
    case Refused(status) => Some(if status == 404 then KubeNotFound else GitLabError(status))
    case Lost => Some(OtherError)
    case Success(_) => None
  }

  function Refusal(reply: Reply): Option<nat> {
    if reply.Refused? then Some(reply.status) else None
  }

  // The error tells a missing Secret and denied access from everything else.
  predicate RefusedAs(e: GoError, answer: Option<nat>) {
    (IsSecretNotFound(e) <==> answer == Some(404)) && (IsDenied(e) <==> answer == Some(401))
  }

  // The next thing a script says is how a call is answered.
  predicate Answers(script: seq<Move>) {
    script != [] && script[0].Answer?
  }

  predicate IsHookNotFound(e: GoError) {
    e == GitLabResponse(404)
  }

  predicate IsDenied(e: GoError) {
    e == GitLabResponse(401)
  }

  predicate IsSecretNotFound(e: GoError) {
    e.KubeNotFound?
  }

  // The controller's test for a missing hook recognises exactly status 404,
  // and no response at all if the client keeps that status for its sentinel.
  lemma MissingHookRecognised(sentinel: bool, status: nat)
    ensures CheckResponse(sentinel, status).Some? ==>
      (IsHookNotFound(CheckResponse(sentinel, status).value) <==> !sentinel && status == 404)
    ensures CheckResponse(sentinel, 404).Some?
  {
  }

  // ---- Ids ----

  // The first id from `from` on that was never given out in the project.
  function FreshId(issued: set<HookKey>, project: string, from: nat): (id: nat)
    ensures id >= from && HookKey(project, id) !in issued
    decreases issued
  {
    var key := HookKey(project, from);
    if key !in issued then from else FreshId(issued - {key}, project, from + 1)
  }

  // ---- What calls leave alone ----

  // Others may have moved, but the run's own view is the same.
  ghost predicate Later(s: State, t: State) {
    && WellFormed(t)
    && t.run == s.run && t.finalizer == s.finalizer && t.sentinel == s.sentinel && (s.gone ==> t.gone)
    && Extends(s.history, t.history)
  }

  ghost predicate Extends(h: seq<Source>, k: seq<Source>) {
    |h| <= |k| && forall i :: 0 <= i < |h| ==> k[i] == h[i]
  }

  lemma WorldLater(s: State, w: WorldStep)
    requires WellFormed(s) && WorldEnabled(s, w)
    ensures Later(s, WorldApply(s, w))
  {
  }

  lemma LaterCopy(s: State, t: State)
    requires Running(s) && Later(s, t)
    ensures Keeps(s, t)
  {
  }

  lemma LaterAgain(s: State, t: State, u: State)
    requires Later(s, t) && Later(t, u)
    ensures Later(s, u)
  {
  }

  lemma LaterSame(s: State)
    requires WellFormed(s)
    ensures Later(s, s)
  {
  }

  // Stored versions are numbered as they come.
  predicate Numbered(s: State)
    requires s.history != []
  {
    Last(s).version == |s.history| - 1
  }

  lemma NumberedStep(s: State, a: Action)
    requires Enabled(s, a) && Numbered(s)
    ensures Numbered(Apply(s, a))
  {
    match a
    case World(w) =>
    case Controller(c) => NumberedController(s, c);
    case _ =>
  }

  lemma NumberedController(s: State, c: ControllerStep)
    requires Running(s) && ControllerEnabled(s, c) && Numbered(s)
    ensures Numbered(ControllerApply(s, c))
  {
  }

  // ---- What a listing of Services tells a run ----

  lemma {:induction false} OwnedFront(services: seq<Service>)
    requires services != []
    ensures Owned(services) == (if services[0].controlled then 1 else 0) + Owned(services[1..])
  {
    var init := services[..|services| - 1];
    if init != [] {
      OwnedFront(init);
      assert init[1..] == services[1..][..|services| - 2];
    }
  }

  lemma {:induction false} NoneOwned(services: seq<Service>)
    ensures FirstOwned(services).None? <==> Owned(services) == 0
  {
    if services != [] {
      OwnedFront(services);
      NoneOwned(services[1..]);
    }
  }

  function Listed(s: State): State
    requires Running(s)
  {
    if FirstOwned(s.services).None? then NoneFound(s)
    else if AdapterURL(s.services).Some? then AdapterFound(s, AdapterURL(s.services).value)
    else s
  }

  // ---- What each step does to the run's view ----

  lemma PatchLater(s: State, t: State, fs: seq<string>)
    requires Running(s) && Later(s, t) && PatchAllowed(s, fs)
    ensures Running(t) && PatchAllowed(t, fs)
  {
  }

  lemma PatchedView(s: State, fs: seq<string>, replied: bool)
    requires Running(s) && Current(s) && PatchAllowed(s, fs)
    ensures var t := Patched(s, fs, replied);
      && Running(t) && Origin(t) == Origin(s)
      && (replied ==>
            && Copy(t) == Copy(s).(finalizers := fs, version := |s.history|) == Last(t)
            && t.run.value == s.run.value.(version := |s.history|))
      && (!replied ==> t.run == s.run && Copy(t) == Copy(s))
  {
  }

  lemma WriteLater(s: State, t: State, o: Source)
    requires Running(s) && Later(s, t) && WriteAllowed(s, o)
    ensures Running(t) && WriteAllowed(t, o)
  {
  }

  lemma WrittenView(s: State, o: Source)
    requires Running(s) && WriteApplies(s, o) && WriteAllowed(s, o)
    ensures var t := Store(s, o);
      && Keeps(s, t) && t.run == s.run
      && Last(t).status == o.status && Extends(s.history, t.history)
  {
  }

  lemma AddLater(s: State, t: State)
    requires Running(s) && Later(s, t) && AddAllowed(s)
    ensures Running(t) && AddAllowed(t)
  {
  }

  // The steps that leave the stored versions alone leave the copy alone.
  predicate SameView(s: State, t: State)
    requires Running(s)
  {
    t.history == s.history && Keeps(s, t)
  }

  lemma KeepsSameView(s: State, t: State, u: State)
    requires Running(s) && Keeps(s, t) && SameView(t, u)
    ensures Keeps(s, u)
  {
  }

  lemma SameViewSame(s: State)
    requires Running(s)
    ensures SameView(s, s)
  {
  }

  lemma KeepsStill(s: State, t: State)
    requires Running(s) && Keeps(s, t)
    ensures Running(t) && Copy(t) == Copy(s)
  {
  }

  lemma KeepsNamed(s: State, t: State)
    requires Running(s) && Keeps(s, t) && NamesHook(s)
    ensures Running(t) && Copy(t) == Copy(s) && NamesHook(t) && NamedHook(t) == NamedHook(s)
  {
  }

  lemma NoneFoundStep(s: State)
    requires Running(s) && Owned(s.services) == 0
    ensures ControllerEnabled(s, FindNoService) && ControllerApply(s, FindNoService) == NoneFound(s)
    ensures SameView(s, NoneFound(s))
  {
  }

  lemma AdapterFoundStep(s: State, url: string)
    requires Running(s) && AdapterURL(s.services) == Some(url)
    ensures ControllerEnabled(s, FindAdapter(url)) && ControllerApply(s, FindAdapter(url)) == AdapterFound(s, url)
    ensures SameView(s, AdapterFound(s, url))
  {
  }

  lemma CreatedStep(s: State, name: string)
    requires Running(s) && s.run.value.vacant
    ensures ControllerEnabled(s, ControllerStep.CreateService(name))
    ensures ControllerApply(s, ControllerStep.CreateService(name)) == Created(s, name)
    ensures SameView(s, Created(s, name))
    ensures Created(s, name).run.value == s.run.value.(vacant := false)
    ensures FirstOwned(Created(s, name).services).Some?
  {
    NoneOwned(Created(s, name).services);
  }

  lemma FoundMissingStep(s: State)
    requires Running(s) && !s.sentinel && NamesHook(s) && NamedHook(s) !in s.hooks
    ensures ControllerEnabled(s, FindHookMissing) && ControllerApply(s, FindHookMissing) == FoundMissing(s)
    ensures SameView(s, FoundMissing(s))
  {
  }

  lemma AddedStep(s: State, id: int, hook: Hook, replied: bool)
    requires Running(s) && AddAllowed(s) && id >= 0 && NewHook(s, id) !in s.issued
    requires s.run.value.adapter == Some(hook.url)
    ensures ControllerEnabled(s, ControllerStep.AddHook(id, hook, replied))
    ensures ControllerApply(s, ControllerStep.AddHook(id, hook, replied)) == Added(s, id, hook, replied)
    ensures SameView(s, Added(s, id, hook, replied))
  {
  }

  lemma ReconfiguredStep(s: State, hook: Hook)
    requires Running(s) && Addable(s) && NamesHook(s) && NamedHook(s) in s.hooks
    requires s.run.value.adapter == Some(hook.url)
    ensures ControllerEnabled(s, EditHook(hook)) && ControllerApply(s, EditHook(hook)) == Reconfigured(s, hook)
    ensures SameView(s, Reconfigured(s, hook))
  {
  }

  lemma DeletedStep(s: State, replied: bool)
    requires Running(s) && Copy(s).deleting && NamesHook(s) && NamedHook(s) in s.hooks
    ensures ControllerEnabled(s, DeleteHook(replied)) && ControllerApply(s, DeleteHook(replied)) == Deleted(s, replied)
    ensures SameView(s, Deleted(s, replied)) && NamedHook(s) !in Deleted(s, replied).hooks
    ensures Deleted(s, replied).run.value == s.run.value.(removed := s.run.value.removed || replied)
  {
  }

  lemma UnreadStep(s: State, answer: Option<nat>)
    requires Running(s)
    ensures ControllerEnabled(s, FailToken(answer)) && ControllerApply(s, FailToken(answer)) == Unread(s, answer)
    ensures SameView(s, Unread(s, answer))
    ensures Unread(s, answer).run.value == s.run.value.(unread := s.run.value.unread + {answer})
  {
  }

  lemma IgnoredStep(s: State)
    requires Running(s) && Copy(s).deleting && Hopeless(s)
    ensures ControllerEnabled(s, IgnoreHook) && ControllerApply(s, IgnoreHook) == Ignored(s)
    ensures SameView(s, Ignored(s))
  {
  }

  lemma PatchedStep(s: State, fs: seq<string>, replied: bool)
    requires Running(s) && Current(s) && PatchAllowed(s, fs)
    ensures ControllerEnabled(s, ControllerStep.PatchFinalizers(fs, replied))
    ensures ControllerApply(s, ControllerStep.PatchFinalizers(fs, replied)) == Patched(s, fs, replied)
  {
  }

  lemma WrittenStep(s: State, o: Source)
    requires Running(s) && WriteApplies(s, o) && WriteAllowed(s, o)
    ensures ControllerEnabled(s, WriteStatus(o)) && ControllerApply(s, WriteStatus(o)) == Store(s, o)
  {
  }

  class Cluster {
    var s: State
    var script: seq<Move>
    ghost var trace: seq<State>  // every state so far
    ghost const start: State     // the first of them
    var around: Surroundings

    ghost predicate Valid()
      reads this
    {
      trace != [] && Behaviour(trace) && trace[0] == start && trace[|trace| - 1] == s && WellFormed(s) && Numbered(s)
    }

    constructor (s: State, script: seq<Move>, around: Surroundings)
      requires WellFormed(s) && Numbered(s)
      ensures Valid() && start == this.s == s
      ensures this.script == script && this.around == around
    {
      this.s, this.script, this.around := s, script, around;
      start, trace := s, [s];
    }

    method Act(a: Action)
      requires Valid() && Enabled(s, a)
      modifies this`s, this`trace
      ensures Valid() && s == Apply(old(s), a)
      ensures trace == old(trace) + [s]
    {
      ApplyWellFormed(s, a);
      NumberedStep(s, a);
      BehaviourExtends(trace, a);
      s := Apply(s, a);
      trace := trace + [s];
    }

    // ---- The effects a call can have ----

    method Patch(fs: seq<string>, replied: bool)
      requires Valid() && Running(s) && Current(s) && PatchAllowed(s, fs)
      modifies this`s, this`trace
      ensures Valid() && s == Patched(old(s), fs, replied)
      ensures |old(trace)| <= |trace|
    {
      PatchedStep(s, fs, replied);
      Act(Controller(ControllerStep.PatchFinalizers(fs, replied)));
    }

    method Write(o: Source)
      requires Valid() && Running(s) && WriteApplies(s, o) && WriteAllowed(s, o)
      modifies this`s, this`trace
      ensures Valid() && s == Store(old(s), o) && old(trace) <= trace
    {
      WrittenStep(s, o);
      Act(Controller(WriteStatus(o)));
    }

    method NoteNoService()
      requires Valid() && Running(s) && Owned(s.services) == 0
      modifies this`s, this`trace
      ensures Valid() && s == NoneFound(old(s)) && SameView(old(s), s)
      ensures |old(trace)| <= |trace|
      ensures s.run.value == old(s.run.value).(vacant := true) && s.services == old(s.services)
    {
      NoneFoundStep(s);
      Act(Controller(FindNoService));
    }

    method NoteAdapter(url: string)
      requires Valid() && Running(s) && AdapterURL(s.services) == Some(url)
      modifies this`s, this`trace
      ensures Valid() && s == AdapterFound(old(s), url) && SameView(old(s), s)
      ensures |old(trace)| <= |trace|
      ensures s.run.value == old(s.run.value).(adapter := Some(url)) && s.services == old(s.services)
    {
      AdapterFoundStep(s, url);
      Act(Controller(FindAdapter(url)));
    }

    method Create(name: string)
      requires Valid() && Running(s) && s.run.value.vacant
      modifies this`s, this`trace
      ensures Valid() && s == Created(old(s), name) && SameView(old(s), s)
      ensures |old(trace)| <= |trace|
      ensures s.run.value == old(s.run.value).(vacant := false) && FirstOwned(s.services).Some?
    {
      CreatedStep(s, name);
      Act(Controller(ControllerStep.CreateService(name)));
    }

    method NoteMissing()
      requires Valid() && Running(s) && !s.sentinel && NamesHook(s) && NamedHook(s) !in s.hooks
      modifies this`s, this`trace
      ensures Valid() && s == FoundMissing(old(s)) && SameView(old(s), s)
      ensures |old(trace)| <= |trace|
    {
      FoundMissingStep(s);
      Act(Controller(FindHookMissing));
    }

    method Add(id: int, hook: Hook, replied: bool)
      requires Valid() && Running(s) && AddAllowed(s) && id >= 0 && NewHook(s, id) !in s.issued
      requires s.run.value.adapter == Some(hook.url)
      modifies this`s, this`trace
      ensures Valid() && s == Added(old(s), id, hook, replied) && SameView(old(s), s)
      ensures |old(trace)| <= |trace|
      ensures s.run.value == old(s.run.value).(attempted := true, added := if replied then Some(id) else None)
      ensures NewHook(old(s), id) in s.hooks && s.hooks[NewHook(old(s), id)] == hook
    {
      AddedStep(s, id, hook, replied);
      Act(Controller(ControllerStep.AddHook(id, hook, replied)));
    }

    method Edit(hook: Hook)
      requires Valid() && Running(s) && Addable(s) && NamesHook(s) && NamedHook(s) in s.hooks
      requires s.run.value.adapter == Some(hook.url)
      modifies this`s, this`trace
      ensures Valid() && s == Reconfigured(old(s), hook) && SameView(old(s), s)
      ensures |old(trace)| <= |trace|
    {
      ReconfiguredStep(s, hook);
      Act(Controller(EditHook(hook)));
    }

    method Delete(replied: bool)
      requires Valid() && Running(s) && Copy(s).deleting && NamesHook(s) && NamedHook(s) in s.hooks
      modifies this`s, this`trace
      ensures Valid() && s == Deleted(old(s), replied) && SameView(old(s), s) && NamedHook(old(s)) !in s.hooks
      ensures |old(trace)| <= |trace|
      ensures s.run.value == old(s.run.value).(removed := old(s.run.value.removed) || replied)
    {
      DeletedStep(s, replied);
      Act(Controller(DeleteHook(replied)));
    }

    // Others move until the script gives the next answer.
    method Interfere()
      requires Valid()
      modifies this`s, this`trace, this`script
      ensures Valid() && Later(old(s), s) && old(trace) <= trace
      ensures old(script) == [] || Answers(old(script)) ==> script == old(script) && s == old(s) && trace == old(trace)
    {
      LaterSame(s);
      while script != [] && script[0].Happen?
        invariant Valid() && Later(old(s), s) && old(trace) <= trace
        invariant old(script) == [] || Answers(old(script)) ==> script == old(script) && s == old(s) && trace == old(trace)
        decreases |script|
      {
        var w := script[0].step;
        script := script[1..];
        if WorldEnabled(s, w) {
          WorldLater(s, w);
          LaterAgain(old(s), s, WorldApply(s, w));
          Act(World(w));
        }
      }
    }

    // Without a script the answer is the given one.
    method NextReply(silent: Reply) returns (r: Reply)
      modifies this`script
      ensures old(script) == [] ==> script == [] && r == silent
      ensures Answers(old(script)) ==> script == old(script)[1..] && r == old(script)[0].reply
    {
      r := silent;
      if script != [] {
        if script[0].Answer? { r := script[0].reply; }
        script := script[1..];
      }
    }

    // A call reaches a server after others have moved, and is answered.
    method Await(silent: Reply) returns (r: Reply)
      requires Valid() && Running(s)
      modifies this`s, this`trace, this`script
      ensures Valid() && Later(old(s), s) && Keeps(old(s), s) && old(trace) <= trace
      ensures old(script) == [] ==> script == [] && s == old(s) && r == silent
      ensures Answers(old(script)) ==> script == old(script)[1..] && s == old(s) && r == old(script)[0].reply
    {
      Interfere();
      LaterCopy(old(s), s);
      r := NextReply(silent);
    }

    // ---- The API server ----

    // A merge patch of metadata.finalizers carrying a resource version.
    method PatchFinalizers(version: nat, finalizers: seq<string>) returns (r: Result<GitLabSource, GoError>)
      requires Valid() && Running(s) && version == s.run.value.version && PatchAllowed(s, finalizers)
      modifies this`s, this`trace, this`script
      ensures Valid() && Running(s)
      ensures |old(trace)| <= |trace|
      ensures s.finalizer == old(s.finalizer) && Origin(s) == old(Origin(s))
      ensures r.Err? ==> s.run == old(s.run) && Copy(s) == old(Copy(s))
      ensures r.Ok? ==> fresh(r.value.Reach()) && r.value.View() == Copy(s)
      ensures r.Ok? ==> Copy(s) == old(Copy(s)).(finalizers := finalizers, version := s.run.value.version)
      ensures r.Ok? ==> s.run.value == old(s.run.value).(version := s.run.value.version)
      ensures old(script) == [] && old(Current(s)) ==>
        script == [] && r.Ok? && s == Patched(old(s), finalizers, true)
    {
      hide Behaviour;
      var reply := Await(Success(0));
      PatchLater(old(s), s, finalizers);
      if s.gone { return Err(KubeNotFound); }
      if version != |s.history| - 1 { return Err(KubeConflict); }
      if reply.Refused? { return Err(KubeError(reply.status)); }
      PatchedView(s, finalizers, reply.Success?);
      Patch(finalizers, reply.Success?);
      if reply.Lost? { return Err(OtherError); }
      var o := new GitLabSource.Decode(Last(s));
      return Ok(o);
    }

    method GetSource() returns (r: Result<GitLabSource, GoError>)
      requires Valid() && Running(s)
      modifies this`s, this`trace, this`script
      ensures Valid() && Later(old(s), s) && old(trace) <= trace
      ensures r.Ok? ==> fresh(r.value.Reach()) && r.value.View() == Last(s) && r.value.meta.version == |s.history| - 1
      ensures r.Err? && r.error.KubeNotFound? ==> s.gone
      ensures old(script) == [] ==> script == [] && s == old(s) && (r.Err? <==> s.gone) && (r.Err? ==> r.error.KubeNotFound?)
    {
      var reply := Await(Success(0));
      if s.gone { return Err(KubeNotFound); }
      if reply.Refused? { return Err(KubeError(reply.status)); }
      if reply.Lost? { return Err(OtherError); }
      var o := new GitLabSource.Decode(Last(s));
      return Ok(o);
    }

    // What becomes of a status write that reaches the API server.
    method WriteNow(o: GitLabSource, reply: Reply) returns (e: Option<GoError>)
      requires Valid() && Running(s) && WriteAllowed(s, o.View())
      modifies this`s, this`trace
      ensures Valid() && Keeps(old(s), s) && s.run == old(s.run)
      ensures Extends(old(s.history), s.history) && (old(s.gone) ==> s.gone)
      ensures old(trace) <= trace
      ensures e.None? ==> Last(s).status == o.StatusView()
      ensures if old(s.gone) then e == Some(KubeNotFound) && s == old(s)
        else if !old(WriteApplies(s, o.View())) then e == Some(KubeConflict) && s == old(s)
        else if reply.Refused? then e == Some(KubeError(reply.status)) && s == old(s)
        else e == (if reply.Lost? then Some(OtherError) else None) && s == Store(old(s), o.View())
    {
      hide StatusAllowed, WriteAllowed, Behaviour, KubeError;
      if s.gone { return Some(KubeNotFound); }
      if o.meta.version != |s.history| - 1 { return Some(KubeConflict); }
      if reply.Refused? { return Some(KubeError(reply.status)); }
      WrittenView(s, o.View());
      Write(o.View());
      e := if reply.Lost? then Some(OtherError) else None;
    }

    method UpdateStatus(o: GitLabSource) returns (e: Option<GoError>)
      requires Valid() && Running(s) && WriteAllowed(s, o.View())
      modifies this`s, this`trace, this`script
      ensures Valid() && Keeps(old(s), s) && s.run == old(s.run)
      ensures Extends(old(s.history), s.history) && (old(s.gone) ==> s.gone)
      ensures old(trace) <= trace
      ensures e.None? ==> Last(s).status == o.StatusView()
      ensures old(script) == [] ==> script == []
      ensures old(script) == [] && old(WriteApplies(s, o.View())) ==>
        if around.outage.StatusWrites? then e == Some(OtherError) && s == old(s)
        else e.None? && s == Store(old(s), o.View())
      ensures Answers(old(script)) ==> script == old(script)[1..]
      ensures Answers(old(script)) && old(WriteApplies(s, o.View())) && old(script)[0].reply.Success? ==>
        e.None? && s == Store(old(s), o.View())
      ensures old(script) == [] && !old(WriteApplies(s, o.View())) ==>
        s == old(s) && e == Some(if s.gone then KubeNotFound else KubeConflict)
    {
      hide StatusAllowed, WriteAllowed, Behaviour, Store;
      var reply := Await(if around.outage.StatusWrites? then Refused(500) else Success(0));
      WriteLater(old(s), s, o.View());
      e := WriteNow(o, reply);
    }

    // ---- Knative Services ----

    method ListServices() returns (r: Result<seq<Service>, GoError>)
      requires Valid() && Running(s)
      modifies this`s, this`trace, this`script
      ensures Valid() && Keeps(old(s), s)
      ensures |old(trace)| <= |trace|
      ensures s.run.value == old(s.run.value).(vacant := s.run.value.vacant, adapter := s.run.value.adapter)
      ensures r.Ok? ==> r.value == s.services && (FirstOwned(s.services).None? ==> s.run.value.vacant)
      ensures s.run.value.adapter ==
        if r.Ok? && AdapterURL(s.services).Some? then AdapterURL(s.services) else old(s.run.value.adapter)
      ensures r.Err? ==> !r.error.KubeNotFound?
      ensures old(script) == [] ==> script == [] && r == Ok(old(s.services)) && s == Listed(old(s))
    {
      hide Behaviour, FirstOwned, NoneFound, AdapterFound, Keeps, SameView;
      var reply := Await(Success(0));
      ghost var s1 := s;
      KeepsStill(old(s), s);
      if reply.Refused? { return Err(KubeError(reply.status)); }
      if reply.Lost? { return Err(OtherError); }
      r := Ok(s.services);
      NoneOwned(s.services);
      if FirstOwned(s.services).None? {
        NoteNoService();
        KeepsSameView(old(s), s1, s);
      } else if AdapterURL(s.services).Some? {
        NoteAdapter(AdapterURL(s.services).value);
        KeepsSameView(old(s), s1, s);
      }
    }

    method CreateService() returns (r: Result<Service, GoError>)
      requires Valid() && Running(s) && s.run.value.vacant
      modifies this`s, this`trace, this`script
      ensures Valid() && Keeps(old(s), s)
      ensures |old(trace)| <= |trace|
      ensures s.run.value == old(s.run.value).(vacant := s.run.value.vacant)
      ensures r.Ok? ==> r.value == Service("", true, false, None) && FirstOwned(s.services).Some?
      ensures old(script) == [] ==> script == [] && r.Ok? && s == Created(old(s), "")
    {
      hide Behaviour, Keeps, SameView, Created;
      var reply := Await(Success(0));
      ghost var s1 := s;
      if reply.Refused? { return Err(KubeError(reply.status)); }
      Create("");
      KeepsSameView(old(s), s1, s);
      r := if reply.Lost? then Err(OtherError) else Ok(Service("", true, false, None));
    }

    // ---- The sink resolver and the secrets ----

    method ResolveSink(ref: Option<Ref>) returns (r: Result<Option<string>, GoError>)
      requires Valid() && Running(s)
      modifies this`s, this`trace, this`script
      ensures Valid() && Keeps(old(s), s) && s.run == old(s.run)
      ensures |old(trace)| <= |trace|
      ensures r.Ok? && r.value.Some? ==> r.value == Resolved(around, ref)
      ensures old(script) == [] ==> script == [] && s == old(s) && r == Ok(Resolved(around, ref))
    {
      var reply := Await(Success(0));
      match reply
      case Refused(status) => r := Err(KubeError(status));
      case Lost => r := Ok(None);
      case Success(hint) => r := Ok(Resolved(around, ref));
    }

    // What becomes of a read of the token.
    method ReadNow(reply: Reply) returns (e: Option<GoError>)
      requires Valid() && Running(s)
      modifies this`s, this`trace
      ensures Valid() && SameView(old(s), s)
      ensures |old(trace)| <= |trace|
      ensures e == ReadError(reply) && s == if e.Some? then Unread(old(s), Refusal(reply)) else old(s)
    {
      hide Behaviour, Unread, SameView;
      if reply.Success? { SameViewSame(s); return None; }
      UnreadStep(s, Refusal(reply));
      Act(Controller(FailToken(Refusal(reply))));
      return ReadError(reply);
    }

    method ReadSecrets() returns (e: Option<GoError>)
      requires Valid() && Running(s)
      modifies this`s, this`trace, this`script
      ensures Valid() && Keeps(old(s), s)
      ensures |old(trace)| <= |trace|
      ensures s.run.value == old(s.run.value).(unread := s.run.value.unread)
      ensures e.None? ==> s.run == old(s.run)
      ensures e.Some? ==> exists answer :: RefusedAs(e.value, answer) && s.run.value.unread == old(s.run.value.unread) + {answer}
      ensures Answers(old(script)) ==>
        && script == old(script)[1..] && e == ReadError(old(script)[0].reply)
        && s == if e.Some? then Unread(old(s), Refusal(old(script)[0].reply)) else old(s)
      ensures old(script) == [] ==>
        && script == []
        && if around.outage.Credentials? then e == Some(KubeNotFound) && s == Unread(old(s), Some(404)) else e.None? && s == old(s)
    {
      hide Behaviour, SameView, Keeps;
      var reply := Await(if around.outage.Credentials? then Refused(404) else Success(0));
      ghost var s1 := s;
      e := ReadNow(reply);
      KeepsSameView(old(s), s1, s);
      assert e.Some? ==> RefusedAs(e.value, Refusal(reply));
    }

    // Finalization gave up on the recorded hook.
    method GiveUp()
      requires Valid() && Running(s) && Copy(s).deleting && Hopeless(s)
      modifies this`s, this`trace
      ensures Valid() && Keeps(old(s), s)
      ensures |old(trace)| <= |trace|
      ensures s == Ignored(old(s)) && s.run.value == old(s.run.value).(ignored := true)
    {
      IgnoredStep(s);
      Act(Controller(IgnoreHook));
    }

    // ---- GitLab's hooks API ----

    method GetProjectHook(key: HookKey) returns (e: Option<GoError>)
      requires Valid() && Running(s) && NamesHook(s) && key == NamedHook(s)
      modifies this`s, this`trace, this`script
      ensures Valid() && Keeps(old(s), s)
      ensures |old(trace)| <= |trace|
      ensures s.run.value == old(s.run.value).(missing := s.run.value.missing)
      ensures e.Some? && IsHookNotFound(e.value) ==> !s.sentinel && s.run.value.missing
      ensures e.None? ==> key in s.hooks
      ensures old(script) == [] && key in old(s).hooks ==> script == [] && s == old(s) && e.None?
      ensures old(script) == [] && key !in old(s).hooks ==>
        script == [] && e == CheckResponse(s.sentinel, 404) && s == if old(s.sentinel) then old(s) else FoundMissing(old(s))
    {
      var reply := Await(Success(0));
      if reply.Refused? { return Some(GitLabError(reply.status)); }
      if reply.Lost? { return Some(OtherError); }
      if key in s.hooks { return None; }
      if !s.sentinel { NoteMissing(); }
      return CheckResponse(s.sentinel, 404);
    }

    // What becomes of an add that reaches GitLab.
    method AddNow(project: string, o: HookOptions, reply: Reply) returns (r: Result<int, GoError>)
      requires Valid() && Running(s) && AddAllowed(s) && s.run.value.added.None?
      requires project == Copy(s).spec.projectURL && s.run.value.adapter == Some(o.url)
      modifies this`s, this`trace
      ensures Valid() && SameView(old(s), s)
      ensures |old(trace)| <= |trace|
      ensures r.Ok? ==> s.run.value == old(s.run.value).(attempted := true, added := Some(r.value)) && r.value >= 0
      ensures r.Ok? ==> HookKey(project, r.value) in s.hooks && s.hooks[HookKey(project, r.value)] == Configure(o, around.defaults)
      ensures r.Err? ==> s.run.value == old(s.run.value).(attempted := s.run.value.attempted, added := None)
      ensures reply == Success(0) || reply == Lost ==>
        var id := FreshId(old(s).issued, project, 0);
        && s == Added(old(s), id, Configure(o, around.defaults), reply.Success?)
        && r == (if reply.Success? then Ok(id) else Err(OtherError))
    {
      hide Added, Behaviour, Configure, GitLabError;
      ConfiguredURL(o, around.defaults);
      if reply.Refused? { SameViewSame(s); return Err(GitLabError(reply.status)); }
      var id := FreshId(s.issued, project, if reply.Success? then reply.hint else 0);
      Add(id, Configure(o, around.defaults), reply.Success?);
      r := if reply.Lost? then Err(OtherError) else Ok(id);
    }

    method AddProjectHook(project: string, o: HookOptions) returns (r: Result<int, GoError>)
      requires Valid() && Running(s) && AddAllowed(s) && s.run.value.added.None?
      requires project == Copy(s).spec.projectURL && s.run.value.adapter == Some(o.url)
      modifies this`s, this`trace, this`script
      ensures Valid() && Keeps(old(s), s)
      ensures |old(trace)| <= |trace|
      ensures r.Ok? ==> s.run.value == old(s.run.value).(attempted := true, added := Some(r.value)) && r.value >= 0
      ensures r.Ok? ==> HookKey(project, r.value) in s.hooks && s.hooks[HookKey(project, r.value)] == Configure(o, around.defaults)
      ensures r.Err? ==> s.run.value == old(s.run.value).(attempted := s.run.value.attempted, added := None)
      ensures old(script) == [] ==>
        && script == [] && var (id, lost) := (FreshId(old(s).issued, project, 0), around.outage.HookAnswers?);
           r == (if lost then Err(OtherError) else Ok(id)) && s == Added(old(s), id, Configure(o, around.defaults), !lost)
    {
      hide Added, Behaviour, Configure, SameView, AddAllowed;
      var reply := Await(if around.outage.HookAnswers? then Lost else Success(0));
      ghost var s1 := s;
      AddLater(old(s), s);
      KeepsStill(old(s), s);
      r := AddNow(project, o, reply);
      KeepsSameView(old(s), s1, s);
    }

    method EditProjectHook(key: HookKey, o: HookOptions) returns (e: Option<GoError>)
      requires Valid() && Running(s) && Addable(s) && NamesHook(s) && key == NamedHook(s)
      requires s.run.value.adapter == Some(o.url)
      modifies this`s, this`trace, this`script
      ensures Valid() && Keeps(old(s), s) && s.run == old(s.run)
      ensures |old(trace)| <= |trace|
      ensures e.None? ==> key in s.hooks && exists prior :: s.hooks[key] == Configure(o, prior)
      ensures old(script) == [] && key in old(s).hooks ==>
        script == [] && e.None? && s == Reconfigured(old(s), Configure(o, old(s).hooks[key].flags))
    {
      var reply := Await(Success(0));
      if reply.Refused? { return Some(GitLabError(reply.status)); }
      if key !in s.hooks { return CheckResponse(s.sentinel, 404); }
      Edit(Configure(o, s.hooks[key].flags));
      e := if reply.Lost? then Some(OtherError) else None;
    }

    // What becomes of a delete that reaches GitLab.
    method DeleteNow(key: HookKey, reply: Reply) returns (e: Option<GoError>)
      requires Valid() && Running(s) && Copy(s).deleting && NamesHook(s) && key == NamedHook(s)
      modifies this`s, this`trace
      ensures Valid() && SameView(old(s), s)
      ensures |old(trace)| <= |trace|
      ensures s.run.value == old(s.run.value).(removed := s.run.value.removed)
      ensures e.None? ==> s.run.value.removed && key !in s.hooks
      ensures e.Some? ==> s.run.value.removed == old(s.run.value.removed)
      ensures reply.Success? ==> if key in old(s).hooks
        then e.None? && s == Deleted(old(s), true)
        else e == CheckResponse(s.sentinel, 404) && s == old(s)
    {
      hide Deleted, Behaviour, CheckResponse, GitLabError;
      MissingHookRecognised(s.sentinel, 404);
      if reply.Refused? { return Some(GitLabError(reply.status)); }
      if key !in s.hooks { return CheckResponse(s.sentinel, 404); }
      Delete(reply.Success?);
      e := if reply.Lost? then Some(OtherError) else None;
    }

    method DeleteProjectHook(key: HookKey) returns (e: Option<GoError>)
      requires Valid() && Running(s) && Copy(s).deleting && NamesHook(s) && key == NamedHook(s)
      modifies this`s, this`trace, this`script
      ensures Valid() && Keeps(old(s), s)
      ensures |old(trace)| <= |trace|
      ensures s.run.value == old(s.run.value).(removed := s.run.value.removed)
      ensures e.None? ==> s.run.value.removed && key !in s.hooks
      ensures e.Some? ==> s.run.value.removed == old(s.run.value.removed)
      ensures old(script) == [] ==> script == [] && if key in old(s).hooks
        then e.None? && s == Deleted(old(s), true)
        else e == CheckResponse(s.sentinel, 404) && s == old(s)
    {
      hide Deleted, Behaviour, SameView, CheckResponse;
      var reply := Await(Success(0));
      ghost var s1 := s;
      KeepsNamed(old(s), s);
      e := DeleteNow(key, reply);
      KeepsSameView(old(s), s1, s);
    }

    // ---- The beginning and the end of a run ----

    method BeginRun()
      requires Valid() && s.run.None?
      modifies this`s, this`trace
      ensures Valid() && Running(s) && s == Begun(old(s))
      ensures |old(trace)| <= |trace|
    {
      Act(Begin);
    }

    method EndRun()
      requires Valid() && Running(s)
      modifies this`s, this`trace
      ensures Valid() && s == Finish(old(s)) && trace == old(trace) + [s]
    {
      Act(End);
    }
  }
}
