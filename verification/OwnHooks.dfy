// Whose hooks the controller edits and deletes: its own, whenever the project
// URL of the run's copy is that of the run that recorded the id.
module OwnHooks {
  import opened Sources
  import opened Protocol
  import opened Conservation

  // A state and, for each stored version, the project its recorded id was
  // obtained for: that of the copy whose run stored the id.
  datatype Attributed = Attributed(s: State, homes: seq<string>)

  predicate Aligned(a: Attributed) {
    WellFormed(a.s) && |a.homes| == |a.s.history|
  }

  // The project a newly stored version's id was obtained for.
  function HomeStored(a: Attributed, act: Action): string
    requires Aligned(a) && Enabled(a.s, act)
  {
    if act.Controller? && act.step.WriteStatus? then
      if a.s.run.value.added.Some? then Copy(a.s).spec.projectURL else a.homes[a.s.run.value.version]
    else a.homes[|a.homes| - 1]
  }

  function Attribute(a: Attributed, act: Action): Attributed
    requires Aligned(a) && Enabled(a.s, act)
  {
    var t := Apply(a.s, act);
    Attributed(t, if |t.history| > |a.s.history| then a.homes + [HomeStored(a, act)] else a.homes)
  }

  ghost predicate Follows(a: Attributed, b: Attributed) {
    Aligned(a) && exists act :: Enabled(a.s, act) && b == Attribute(a, act)
  }

  ghost predicate FollowsAt(log: seq<Attributed>, i: nat)
    requires 0 < i < |log|
  {
    Follows(log[i - 1], log[i])
  }

  // A behaviour from a fresh object, with the projects.
  ghost predicate Log(log: seq<Attributed>) {
    && log != [] && Initial(log[0].s) && log[0].homes == [log[0].s.history[0].spec.projectURL]
    && forall i :: 0 < i < |log| ==> FollowsAt(log, i)
  }

  ghost predicate Logged(a: Attributed) {
    Aligned(a) && exists log: seq<Attributed> :: Log(log) && log[|log| - 1] == a
  }

  // ---- Every recorded id names a hook of ours in its project ----

  // The hook version i names is ours in the given project, which was the first
  // one if the URL had not changed by then.
  predicate OwnAt(h: seq<Source>, created: set<HookKey>, i: nat, home: string)
    requires i < |h|
  {
    && (h[i].status.webhookID.Some? ==> HookKey(home, h[i].status.webhookID.value) in created)
    && (Moves(h, i) == 0 ==> home == h[0].spec.projectURL)
  }

  predicate OwnRecords(a: Attributed) {
    && Aligned(a)
    && (forall i :: 0 <= i < |a.s.history| ==> OwnAt(a.s.history, a.s.created, i, a.homes[i]))
    && (a.s.run.Some? && a.s.run.value.added.Some? ==> NewHook(a.s, a.s.run.value.added.value) in a.s.created)
  }

  // An unchanged URL is the first one, and no earlier version had another.
  lemma Unmoved(h: seq<Source>, i: nat, j: nat)
    requires i <= j < |h| && Moves(h, j) == 0
    ensures Moves(h, i) == 0 && h[i].spec.projectURL == h[0].spec.projectURL
  {
    MovesBetween(h, i, j);
    MovesBetween(h, 0, i);
  }

  lemma OwnLater(h: seq<Source>, o: Source, created: set<HookKey>, i: nat, home: string)
    requires i < |h| && OwnAt(h, created, i, home)
    ensures OwnAt(h + [o], created, i, home)
  {
    MovesPrefix(h, o, i);
  }

  // Storing one more version, with an id obtained for the given project.
  lemma OwnStored(a: Attributed, o: Source, home: string)
    requires OwnRecords(a)
    requires OwnAt(Store(a.s, o).history, a.s.created, |a.s.history|, home)
    ensures OwnRecords(Attributed(Store(a.s, o), a.homes + [home]))
  {
    hide OwnAt;
    var n, t := |a.s.history|, Store(a.s, o);
    forall i | 0 <= i < |t.history| ensures OwnAt(t.history, t.created, i, (a.homes + [home])[i]) {
      if i < n { OwnLater(a.s.history, o.(version := n), a.s.created, i, a.homes[i]); }
    }
  }

  // The id and project of an earlier version.
  lemma OwnInherited(a: Attributed, o: Source, i: nat)
    requires OwnRecords(a) && i < |a.s.history|
    requires o.status.webhookID.None? || o.status.webhookID == a.s.history[i].status.webhookID
    ensures OwnRecords(Attributed(Store(a.s, o), a.homes + [a.homes[i]]))
  {
    var n, t := |a.s.history|, Store(a.s, o);
    if Moves(t.history, n) == 0 {
      Unmoved(t.history, i, n);
      MovesPrefix(a.s.history, o.(version := n), i);
    }
    assert OwnAt(a.s.history, a.s.created, i, a.homes[i]);
    OwnStored(a, o, a.homes[i]);
  }

  // The id of the run's own hook, in its copy's project.
  lemma OwnRecorded(a: Attributed, o: Source)
    requires OwnRecords(a) && Running(a.s) && a.s.run.value.added.Some? && o.status.webhookID == a.s.run.value.added
    ensures OwnRecords(Attributed(Store(a.s, o), a.homes + [Copy(a.s).spec.projectURL]))
  {
    var n, t := |a.s.history|, Store(a.s, o);
    if Moves(t.history, n) == 0 {
      Unmoved(t.history, a.s.run.value.version, n);
    }
    OwnStored(a, o, Copy(a.s).spec.projectURL);
  }

  lemma OwnWorld(a: Attributed, w: WorldStep)
    requires OwnRecords(a) && WorldEnabled(a.s, w)
    ensures OwnRecords(Attribute(a, World(w)))
  {
    hide OwnAt;
    if w.EditSpec? || w.MarkDeleted? || w.EditFinalizers? {
      OwnInherited(a, Edited(Last(a.s), w), |a.s.history| - 1);
    }
  }

  lemma OwnAdded(a: Attributed, id: int, hook: Hook, replied: bool)
    requires Running(a.s) && OwnRecords(a)
    ensures OwnRecords(Attributed(Added(a.s, id, hook, replied), a.homes))
  {
    var t := Added(a.s, id, hook, replied);
    forall i | 0 <= i < |t.history| ensures OwnAt(t.history, t.created, i, a.homes[i]) {
      assert OwnAt(a.s.history, a.s.created, i, a.homes[i]);
    }
  }

  lemma OwnController(a: Attributed, c: ControllerStep)
    requires Running(a.s) && OwnRecords(a) && ControllerEnabled(a.s, c)
    ensures OwnRecords(Attribute(a, Controller(c)))
  {
    hide OwnAt;
    if c.PatchFinalizers? {
      OwnInherited(a, Last(a.s).(finalizers := c.finalizers), |a.s.history| - 1);
    } else if c.AddHook? {
      OwnAdded(a, c.id, c.hook, c.replied);
    } else if c.WriteStatus? {
      if a.s.run.value.added.Some? {
        OwnRecorded(a, c.submitted);
      } else {
        OwnInherited(a, c.submitted, a.s.run.value.version);
      }
    }
  }

  lemma OwnStep(a: Attributed, act: Action)
    requires OwnRecords(a) && Enabled(a.s, act)
    ensures OwnRecords(Attribute(a, act))
  {
    hide OwnAt;
    match act
    case World(w) => OwnWorld(a, w);
    case Controller(c) => OwnController(a, c);
    case _ =>
  }

  lemma {:induction false} OwnLog(log: seq<Attributed>, i: nat)
    requires Log(log) && i < |log|
    ensures OwnRecords(log[i])
  {
    if i > 0 {
      OwnLog(log, i - 1);
      assert FollowsAt(log, i);
      var act :| Enabled(log[i - 1].s, act) && log[i] == Attribute(log[i - 1], act);
      OwnStep(log[i - 1], act);
    }
  }

  lemma OwnLogged(a: Attributed)
    requires Logged(a)
    ensures OwnRecords(a)
  {
    hide OwnRecords;
    var log :| Log(log) && log[|log| - 1] == a;
    OwnLog(log, |log| - 1);
  }

  // Whenever the URL of the run's copy is that of the project its recorded id
  // was obtained for, the hook it edits or deletes is one this controller created.
  lemma OwnHooksOnly(a: Attributed, c: ControllerStep)
    requires Logged(a) && Running(a.s) && ControllerEnabled(a.s, c) && (c.EditHook? || c.DeleteHook?)
    requires a.homes[a.s.run.value.version] == Copy(a.s).spec.projectURL
    ensures NamedHook(a.s) in a.s.created
  {
    var log: seq<Attributed> :| Log(log) && log[|log| - 1] == a;
    OwnLog(log, |log| - 1);
    assert OwnAt(a.s.history, a.s.created, a.s.run.value.version, a.homes[a.s.run.value.version]);
  }

  // Up to the first change of the URL it is.
  lemma HomeAtFirst(a: Attributed, i: nat)
    requires Logged(a) && i < |a.s.history| && Moves(a.s.history, i) == 0
    ensures |a.homes| == |a.s.history| && a.homes[i] == a.s.history[i].spec.projectURL
  {
    hide OwnRecords;
    OwnLogged(a);
    OwnAtFirst(a, i);
  }

  lemma OwnAtFirst(a: Attributed, i: nat)
    requires OwnRecords(a) && i < |a.s.history| && Moves(a.s.history, i) == 0
    ensures a.homes[i] == a.s.history[i].spec.projectURL
  {
    assert OwnAt(a.s.history, a.s.created, i, a.homes[i]);
    Unmoved(a.s.history, i, i);
  }

  lemma {:induction false} LogOf(trace: seq<State>, i: nat)
    requires Behaviour(trace) && Initial(trace[0]) && i < |trace|
    ensures exists log: seq<Attributed> :: Log(log) && log[|log| - 1].s == trace[i]
  {
    hide OwnRecords, Enabled, Apply;
    if i == 0 {
      var first := [Attributed(trace[0], [trace[0].history[0].spec.projectURL])];
      assert Log(first) && first[|first| - 1].s == trace[0];
    } else {
      LogOf(trace, i - 1);
      var log: seq<Attributed> :| Log(log) && log[|log| - 1].s == trace[i - 1];
      assert NextAt(trace, i);
      var act :| Enabled(trace[i - 1], act) && trace[i] == Apply(trace[i - 1], act);
      LogExtends(log, act);
    }
  }

  lemma LogExtends(log: seq<Attributed>, act: Action)
    requires Log(log) && Enabled(log[|log| - 1].s, act)
    ensures exists longer: seq<Attributed> :: Log(longer) && longer[|longer| - 1].s == Apply(log[|log| - 1].s, act)
  {
    hide Initial, OwnRecords, Enabled, Apply;
    OwnLog(log, |log| - 1);
    assert Aligned(log[|log| - 1]) by { OwnAligned(log[|log| - 1]); }
    var longer := log + [Attribute(log[|log| - 1], act)];
    forall i | 0 < i < |longer| ensures FollowsAt(longer, i) {
      if i < |log| { assert FollowsAt(log, i); }
    }
    assert longer[0] == log[0];
    assert Log(longer) && longer[|longer| - 1].s == Apply(log[|log| - 1].s, act);
  }

  lemma OwnAligned(a: Attributed)
    requires OwnRecords(a)
    ensures Aligned(a)
  {
  }

  // Every reachable state has such projects.
  lemma EveryStateLogged(s: State)
    requires Reachable(s)
    ensures exists a :: Logged(a) && a.s == s
  {
    hide Initial, OwnRecords;
    var trace :| Behaviour(trace) && Initial(trace[0]) && trace[|trace| - 1] == s;
    LogOf(trace, |trace| - 1);
    var log: seq<Attributed> :| Log(log) && log[|log| - 1].s == s;
    OwnLog(log, |log| - 1);
    OwnAligned(log[|log| - 1]);
    assert Logged(log[|log| - 1]);
  }
}
