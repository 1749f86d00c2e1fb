// What Do and Undo make of one list of named entries, as functions on values:
// the entry a binding manages is the one with the binding's volume name.
module ManagedLists {
  datatype Named<T> = Named(name: string, value: T)

  const VOLUME_NAME := "gitlab-binding"

  predicate Managed<T>(e: Named<T>) {
    e.name == VOLUME_NAME
  }

  // Undo drops the first managed entry.
  function RemoveFirst<T>(s: seq<Named<T>>): seq<Named<T>> {
    if s == [] then []
    else if Managed(s[0]) then s[1..]
    else [s[0]] + RemoveFirst(s[1..])
  }

  // Do drops it and appends its own.
  function Bound<T>(s: seq<Named<T>>, v: Named<T>): seq<Named<T>> {
    RemoveFirst(s) + [v]
  }

  // Everybody else's entries.
  function Kept<T>(s: seq<Named<T>>): seq<Named<T>> {
    if s == [] then []
    else (if Managed(s[0]) then [] else [s[0]]) + Kept(s[1..])
  }

  function Count<T>(s: seq<Named<T>>): nat {
    if s == [] then 0
    else (if Managed(s[0]) then 1 else 0) + Count(s[1..])
  }

  function Repeat<T>(v: T, n: nat): (r: seq<T>)
    ensures |r| == n && forall i :: 0 <= i < n ==> r[i] == v
  {
    if n == 0 then [] else [v] + Repeat(v, n - 1)
  }

  function Max(a: nat, b: nat): nat {
    if a < b then b else a
  }

  // ---- Undo and Do once ----

  // At most one managed entry goes; the others keep their order and their values.
  lemma {:induction false} Removed<T>(s: seq<Named<T>>)
    ensures Kept(RemoveFirst(s)) == Kept(s)
    ensures Count(RemoveFirst(s)) == (if Count(s) > 0 then Count(s) - 1 else 0)
  {
    if s != [] && !Managed(s[0]) {
      Removed(s[1..]);
    }
  }

  lemma {:induction false} AppendedKept<T>(s: seq<Named<T>>, t: seq<Named<T>>)
    ensures Kept(s + t) == Kept(s) + Kept(t)
    ensures Count(s + t) == Count(s) + Count(t)
  {
    if s == [] {
      assert s + t == t;
    } else {
      assert (s + t)[1..] == s[1..] + t;
      AppendedKept(s[1..], t);
    }
  }

  lemma {:induction false} AppendedRemove<T>(s: seq<Named<T>>, t: seq<Named<T>>)
    ensures RemoveFirst(s + t) == if Count(s) > 0 then RemoveFirst(s) + t else s + RemoveFirst(t)
  {
    if s == [] {
      assert s + t == t;
    } else {
      assert (s + t)[1..] == s[1..] + t;
      if !Managed(s[0]) { AppendedRemove(s[1..], t); }
    }
  }

  lemma AppendedOne<T>(s: seq<Named<T>>, v: Named<T>)
    requires Managed(v)
    ensures Kept(s + [v]) == Kept(s) && Count(s + [v]) == Count(s) + 1
    ensures RemoveFirst(s + [v]) == if Count(s) > 0 then RemoveFirst(s) + [v] else s
  {
    AppendedKept(s, [v]);
    AppendedRemove(s, [v]);
    assert s + [] == s;
  }

  lemma BoundCounts<T>(s: seq<Named<T>>, v: Named<T>)
    requires Managed(v)
    ensures Kept(Bound(s, v)) == Kept(s)
    ensures Count(Bound(s, v)) == Max(Count(s), 1)
  {
    Removed(s);
    AppendedOne(RemoveFirst(s), v);
  }

  lemma {:induction false} NoneManaged<T>(s: seq<Named<T>>)
    requires Count(s) == 0
    ensures RemoveFirst(s) == s == Kept(s)
  {
    if s != [] { NoneManaged(s[1..]); }
  }

  // With at most one managed entry, Undo takes back what Do did, and what an
  // earlier Do did makes no difference to a later one.
  lemma UndoneAndRedone<T>(s: seq<Named<T>>, u: Named<T>, v: Named<T>)
    requires Managed(u) && Managed(v) && Count(s) <= 1
    ensures RemoveFirst(Bound(s, v)) == RemoveFirst(s)
    ensures Bound(Bound(s, u), v) == Bound(s, v)
  {
    Removed(s);
    AppendedOne(RemoveFirst(s), v);
    AppendedOne(RemoveFirst(s), u);
  }

  // The first managed entry is found by looking at the entries in order.
  lemma {:induction false} RemovedAt<T>(s: seq<Named<T>>, i: nat)
    requires i <= |s| && forall k :: 0 <= k < i ==> !Managed(s[k])
    requires i < |s| ==> Managed(s[i])
    ensures RemoveFirst(s) == if i < |s| then s[..i] + s[i + 1..] else s
  {
    if i > 0 {
      RemovedAt(s[1..], i - 1);
      if i < |s| {
        assert s[..i] + s[i + 1..] == [s[0]] + (s[1..][..i - 1] + s[1..][i..]);
      }
    }
  }

  // ---- Do again and again ----

  function Repeated<T>(s: seq<Named<T>>, v: Named<T>, k: nat): seq<Named<T>> {
    if k == 0 then s else Bound(Repeated(s, v, k - 1), v)
  }

  // The list without its first k managed entries.
  function Without<T>(s: seq<Named<T>>, k: nat): seq<Named<T>> {
    if k == 0 then s else RemoveFirst(Without(s, k - 1))
  }

  lemma {:induction false} WithoutCounts<T>(s: seq<Named<T>>, k: nat)
    requires k <= Count(s)
    ensures Count(Without(s, k)) == Count(s) - k && Kept(Without(s, k)) == Kept(s)
  {
    if k > 0 {
      WithoutCounts(s, k - 1);
      Removed(Without(s, k - 1));
    }
  }

  lemma {:induction false} RepeatMore<T>(v: T, n: nat)
    ensures Repeat(v, n) + [v] == Repeat(v, n + 1) == [v] + Repeat(v, n)
  {
  }

  lemma {:induction false} RepeatCounts<T>(v: Named<T>, n: nat)
    requires Managed(v)
    ensures Count(Repeat(v, n)) == n && Kept(Repeat(v, n)) == []
  {
    if n > 0 { RepeatCounts(v, n - 1); }
  }

  // Each Do moves one more managed entry to the end, as its own.
  lemma {:induction false} RepeatedForm<T>(s: seq<Named<T>>, v: Named<T>, k: nat)
    requires Managed(v) && k <= Count(s)
    ensures Repeated(s, v, k) == Without(s, k) + Repeat(v, k)
  {
    if k > 0 {
      RepeatedForm(s, v, k - 1);
      WithoutCounts(s, k - 1);
      AppendedRemove(Without(s, k - 1), Repeat(v, k - 1));
      RepeatMore(v, k - 1);
      assert RemoveFirst(Without(s, k - 1)) + Repeat(v, k - 1) + [v] == Without(s, k) + (Repeat(v, k - 1) + [v]);
    } else {
      assert s + [] == s;
    }
  }

  // A list is left alone by Do exactly if its managed entries are this
  // binding's, at least one, and all at the end.
  lemma Stable<T>(s: seq<Named<T>>, v: Named<T>, n: nat)
    requires Managed(v) && n > 0 && s == Kept(s) + Repeat(v, n)
    ensures Bound(s, v) == s
  {
    KeptUnmanaged(s);
    NoneManaged(Kept(s));
    AppendedRemove(Kept(s), Repeat(v, n));
    RepeatMore(v, n - 1);
    assert RemoveFirst(Repeat(v, n)) == Repeat(v, n - 1);
    assert Kept(s) + Repeat(v, n - 1) + [v] == Kept(s) + (Repeat(v, n - 1) + [v]);
  }

  lemma {:induction false} KeptUnmanaged<T>(s: seq<Named<T>>)
    ensures Count(Kept(s)) == 0 && Kept(Kept(s)) == Kept(s)
  {
    if s != [] {
      KeptUnmanaged(s[1..]);
      if Managed(s[0]) {
        assert Kept(s) == Kept(s[1..]);
      } else {
        assert Kept(s)[1..] == Kept(s[1..]);
      }
    }
  }

  lemma {:induction false} KeptForm<T>(s: seq<Named<T>>, v: Named<T>, n: nat)
    requires Managed(v)
    ensures Kept(Kept(s) + Repeat(v, n)) == Kept(s)
  {
    KeptUnmanaged(s);
    RepeatCounts(v, n);
    AppendedKept(Kept(s), Repeat(v, n));
  }

  // From max(n, 1) applications on the list no longer changes: everybody
  // else's entries, then this binding's entry as often as there were managed ones.
  lemma {:induction false} Stabilizes<T>(s: seq<Named<T>>, v: Named<T>, k: nat)
    requires Managed(v) && k >= Max(Count(s), 1)
    ensures Repeated(s, v, k) == Kept(s) + Repeat(v, Max(Count(s), 1))
    ensures Bound(Repeated(s, v, k), v) == Repeated(s, v, k)
  {
    var n := Max(Count(s), 1);
    KeptForm(s, v, n);
    if k > n {
      Stabilizes(s, v, k - 1);
    } else if Count(s) == 0 {
      NoneManaged(s);
      assert Repeated(s, v, 1) == Bound(Repeated(s, v, 0), v);
      RepeatMore(v, 0);
    } else {
      RepeatedForm(s, v, k);
      WithoutCounts(s, k);
      NoneManaged(Without(s, k));
    }
    Stable(Kept(s) + Repeat(v, n), v, n);
  }

  lemma {:induction false} RepeatedAdd<T>(s: seq<Named<T>>, v: Named<T>, k: nat)
    requires Bound(s, v) == s
    ensures Repeated(s, v, k) == s
  {
    if k > 0 { RepeatedAdd(s, v, k - 1); }
  }

  lemma StableIff<T>(s: seq<Named<T>>, v: Named<T>)
    requires Managed(v)
    ensures Bound(s, v) == s <==> Count(s) > 0 && s == Kept(s) + Repeat(v, Count(s))
  {
    if Bound(s, v) == s {
      BoundCounts(s, v);
      RepeatedAdd(s, v, Count(s));
      Stabilizes(s, v, Count(s));
    } else if Count(s) > 0 && s == Kept(s) + Repeat(v, Count(s)) {
      Stable(s, v, Count(s));
    }
  }

  // Undo takes back Do exactly if there was at most one managed entry, or
  // those Undo leaves are this binding's and at the end.
  lemma UndoneIff<T>(s: seq<Named<T>>, v: Named<T>)
    requires Managed(v)
    ensures RemoveFirst(Bound(s, v)) == RemoveFirst(s)
      <==> Count(s) <= 1 || RemoveFirst(s) == Kept(s) + Repeat(v, Count(s) - 1)
  {
    Removed(s);
    if Count(s) <= 1 {
      UndoneAndRedone(s, v, v);
    } else {
      AppendedOne(RemoveFirst(s), v);
      StableIff(RemoveFirst(s), v);
    }
  }
}
