// The finalizer list as the controller edits it: its own name is appended or
// taken out, and the rest is kept as a set.
module Finalizers {
  import opened Strings
  import opened Protocol

  // The list after setFinalizerIfFinalizer on an object not being deleted.
  function Set(fs: seq<string>, name: string): seq<string> {
    if name in fs then fs else fs + [name]
  }

  // The list after a clean clearFinalizer.
  function Clear(fs: seq<string>, name: string): seq<string> {
    if name in fs then WithoutFinalizer(fs, name) else fs
  }

  lemma {:induction false} OthersElements(fs: seq<string>, name: string)
    ensures Elements(Others(fs, name)) == Elements(fs) - {name}
  {
    if fs != [] {
      OthersElements(fs[1..], name);
      assert fs == [fs[0]] + fs[1..];
      assert Elements(fs) == Elements(fs[1..]) + {fs[0]};
      assert Elements([fs[0]] + Others(fs[1..], name)) == Elements(Others(fs[1..], name)) + {fs[0]};
    }
  }

  lemma WithoutElements(fs: seq<string>, name: string)
    ensures StrictlySorted(WithoutFinalizer(fs, name))
    ensures Elements(WithoutFinalizer(fs, name)) == Elements(fs) - {name}
  {
    OthersElements(fs, name);
    SortedSetCorrect(Others(fs, name));
  }

  // Each operation changes only the controller's own name.
  lemma OwnNameOnly(fs: seq<string>, name: string)
    ensures Elements(Set(fs, name)) == Elements(fs) + {name} && fs <= Set(fs, name)
    ensures Elements(Clear(fs, name)) == Elements(fs) - {name}
  {
    WithoutElements(fs, name);
    assert Elements(fs + [name]) == Elements(fs) + {name};
  }

  // Setting and then clearing preserves everybody else's finalizers, and
  // neither operation has anything to do a second time.
  lemma SetThenClear(fs: seq<string>, name: string)
    ensures Elements(Clear(Set(fs, name), name)) == Elements(fs) - {name}
    ensures Set(Set(fs, name), name) == Set(fs, name) && name in Set(fs, name)
    ensures Clear(Clear(fs, name), name) == Clear(fs, name) && name !in Clear(fs, name)
  {
    OwnNameOnly(fs, name);
    OwnNameOnly(Set(fs, name), name);
    assert name in fs ==> name !in Elements(Clear(fs, name));
  }

  // A patch that applies makes the list what one of the two operations makes it.
  lemma PatchedList(s: State, fs: seq<string>)
    requires Running(s) && Current(s) && PatchAllowed(s, fs)
    ensures fs == Set(Last(s).finalizers, s.finalizer) || fs == Clear(Last(s).finalizers, s.finalizer)
  {
  }

  // Whatever the controller does, of the stored object it changes nothing but
  // the status and its own finalizer.
  lemma OwnPartOnly(s: State, c: ControllerStep)
    requires Running(s) && ControllerEnabled(s, c)
    ensures var o, p := Last(s), Last(ControllerApply(s, c));
      && p.spec == o.spec && p.generation == o.generation && p.deleting == o.deleting && p.namespace == o.namespace
      && Elements(p.finalizers) - {s.finalizer} == Elements(o.finalizers) - {s.finalizer}
      && (!c.WriteStatus? ==> p.status == o.status)
      && (!c.PatchFinalizers? ==> p.finalizers == o.finalizers)
  {
    hide PatchAllowed, StatusAllowed;
    if c.PatchFinalizers? {
      PatchedList(s, c.finalizers);
      OwnNameOnly(Last(s).finalizers, s.finalizer);
    }
  }
}
