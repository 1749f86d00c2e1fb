// Go slices: a window on a backing array that other slices may share.
module Slices {
  datatype Slice<T> = Slice(data: array<T>, off: nat, len: nat, cap: nat) {
    ghost predicate Valid() {
      off + cap <= data.Length && len <= cap
    }

    function Contents(): seq<T>
      requires Valid()
      reads data
    {
      data[off..off + len]
    }

    function At(i: nat): T
      requires Valid() && i < len
      reads data
    {
      data[off + i]
    }
  }

  // append(s, x): in place while there is room, else into a new array of
  // whatever capacity the runtime chooses.
  method Append<T>(s: Slice<T>, x: T) returns (r: Slice<T>)
    requires s.Valid()
    modifies s.data
    ensures r.Valid() && r.Contents() == old(s.Contents()) + [x]
    ensures r.data == s.data || fresh(r.data)
  {
    if s.len < s.cap {
      s.data[s.off + s.len] := x;
      return s.(len := s.len + 1);
    }
    var extra: int := *;
    var data := new T[s.len + 1 + if extra < 0 then 0 else extra](_ => x);
    for i := 0 to s.len
      modifies data
      invariant forall j :: 0 <= j < i ==> data[j] == s.data[s.off + j]
      invariant data[s.len] == x
    {
      data[i] := s.data[s.off + i];
    }
    return Slice(data, 0, s.len + 1, data.Length);
  }

  // append(s[:i], s[i+1:]...): the rest moves one place forward in the same array.
  method Cut<T>(s: Slice<T>, i: nat) returns (r: Slice<T>)
    requires s.Valid() && i < s.len
    modifies s.data
    ensures r == s.(len := s.len - 1)
    ensures r.Contents() == old(s.Contents()[..i] + s.Contents()[i + 1..])
  {
    for j := i to s.len - 1
      invariant forall k :: 0 <= k < s.off + j ==>
        s.data[k] == if k < s.off + i then old(s.data[k]) else old(s.data[k + 1])
      invariant forall k :: s.off + j <= k < s.data.Length ==> s.data[k] == old(s.data[k])
    {
      s.data[s.off + j] := s.data[s.off + j + 1];
    }
    return s.(len := s.len - 1);
  }
}

// GitLabBinding's Do and Undo on a pod whose lists are Go slices.
module Bindings {
  import opened ManagedLists
  import opened Slices

  // What a volume or a mount holds besides its name.
  datatype VolumeSource = VolumeSource(secretName: string, key: string, path: string)
  datatype MountPoint = MountPoint(readOnly: bool, path: string)

  type Volume = Named<VolumeSource>
  type Mount = Named<MountPoint>

  datatype Container = Container(name: string, volumeMounts: Slice<Mount>)

  datatype PodSpec = PodSpec(
    volumes: Slice<Volume>, initContainers: Slice<Container>, containers: Slice<Container>)

  datatype ContainerView = ContainerView(name: string, mounts: seq<Mount>)

  datatype PodView = PodView(
    volumes: seq<Volume>, initContainers: seq<ContainerView>, containers: seq<ContainerView>)

  // The secret key a binding refers to.
  datatype Token = Token(name: string, key: string)

  function VolumeOf(token: Token): (v: Volume)
    ensures Managed(v)
  {
    Named(VOLUME_NAME, VolumeSource(token.name, token.key, "accessToken"))
  }

  function MountEntry(): (m: Mount)
    ensures Managed(m)
  {
    Named(VOLUME_NAME, MountPoint(true, "/var/bindings/gitlab"))
  }

  // ---- On values ----

  function Unmounted(cs: seq<ContainerView>): seq<ContainerView> {
    seq(|cs|, i requires 0 <= i < |cs| => cs[i].(mounts := RemoveFirst(cs[i].mounts)))
  }

  function Mounted(cs: seq<ContainerView>, m: Mount): seq<ContainerView> {
    seq(|cs|, i requires 0 <= i < |cs| => cs[i].(mounts := cs[i].mounts + [m]))
  }

  function Undone(p: PodView): PodView {
    PodView(RemoveFirst(p.volumes), Unmounted(p.initContainers), Unmounted(p.containers))
  }

  // The binding's own entries at the end of every list.
  function WithEntries(p: PodView, token: Token): PodView {
    PodView(p.volumes + [VolumeOf(token)], Mounted(p.initContainers, MountEntry()), Mounted(p.containers, MountEntry()))
  }

  function Done(p: PodView, token: Token): PodView {
    WithEntries(Undone(p), token)
  }

  // The pod's last volume is the Secret's key, under a fixed name and path.
  predicate VolumeAdded(p: PodView, token: Token) {
    && p.volumes != []
    && var v := p.volumes[|p.volumes| - 1];
    && v.name == "gitlab-binding"
    && v.value.secretName == token.name && v.value.key == token.key && v.value.path == "accessToken"
  }

  // Every container's last mount is that volume, read-only.
  predicate MountsAdded(cs: seq<ContainerView>) {
    forall i :: 0 <= i < |cs| ==>
      && cs[i].mounts != []
      && var m := cs[i].mounts[|cs[i].mounts| - 1];
      && m.name == "gitlab-binding" && m.value.readOnly && m.value.path == "/var/bindings/gitlab"
  }

  lemma DoneEnds(p: PodView, token: Token)
    ensures var d := Done(p, token);
      VolumeAdded(d, token) && MountsAdded(d.initContainers) && MountsAdded(d.containers)
  {
  }

  // ---- On the heap ----

  ghost predicate ValidList(cs: Slice<Container>)
    reads cs.data
  {
    && cs.Valid()
    && (forall i :: 0 <= i < cs.len ==> cs.At(i).volumeMounts.Valid())
    && (forall i, j :: 0 <= i < j < cs.len ==> cs.At(i).volumeMounts.data != cs.At(j).volumeMounts.data)
  }

  // The arrays behind the mounts of the containers.
  ghost function Arrays(cs: Slice<Container>): set<array<Mount>>
    requires cs.Valid()
    reads cs.data
  {
    set i | 0 <= i < cs.len :: cs.At(i).volumeMounts.data
  }

  ghost function ListView(cs: Slice<Container>): (v: seq<ContainerView>)
    requires ValidList(cs)
    reads cs.data, Arrays(cs)
    ensures |v| == cs.len
  {
    seq(cs.len, i requires 0 <= i < cs.len && ValidList(cs) reads cs.data, Arrays(cs) =>
      assert cs.At(i).volumeMounts.data in Arrays(cs);
      ContainerView(cs.At(i).name, cs.At(i).volumeMounts.Contents()))
  }

  // The first managed entry of a list, or its length.
  method FindManaged<T>(s: Slice<Named<T>>) returns (i: nat)
    requires s.Valid()
    ensures i <= s.len
    ensures RemoveFirst(s.Contents()) == if i < s.len then s.Contents()[..i] + s.Contents()[i + 1..] else s.Contents()
  {
    i := 0;
    while i < s.len && !Managed(s.At(i))
      invariant i <= s.len
      invariant forall k :: 0 <= k < i ==> !Managed(s.Contents()[k])
    {
      i := i + 1;
    }
    RemovedAt(s.Contents(), i);
  }

  // One list of Undo: the first managed entry is cut out in place.
  method UndoList<T>(s: Slice<Named<T>>) returns (r: Slice<Named<T>>)
    requires s.Valid()
    modifies s.data
    ensures r.Valid() && r.data == s.data && r.Contents() == RemoveFirst(old(s.Contents()))
  {
    var i := FindManaged(s);
    r := s;
    if i < s.len {
      r := Cut(s, i);
    }
  }

  // One slice replaced: the container's mounts, in the array its list shares.
  method SetMounts(cs: Slice<Container>, i: nat, mounts: Slice<Mount>)
    requires cs.Valid() && i < cs.len
    modifies cs.data
    ensures cs.At(i) == old(cs.At(i)).(volumeMounts := mounts)
    ensures forall k :: 0 <= k < cs.len && k != i ==> cs.At(k) == old(cs.At(k))
  {
    cs.data[cs.off + i] := cs.At(i).(volumeMounts := mounts);
  }

  // One container of Undo; what it writes goes to the shared array.
  method UndoContainer(cs: Slice<Container>, i: nat)
    requires ValidList(cs) && i < cs.len
    modifies cs.data, cs.At(i).volumeMounts.data
    ensures ValidList(cs) && Arrays(cs) == old(Arrays(cs))
    ensures ListView(cs) == old(ListView(cs))[i := old(ListView(cs)[i]).(mounts := RemoveFirst(old(ListView(cs)[i]).mounts))]
  {
    assert (cs.data as object) != cs.At(i).volumeMounts.data;
    var mounts := UndoList(cs.At(i).volumeMounts);
    SetMounts(cs, i, mounts);
    assert forall k :: 0 <= k < cs.len ==> cs.At(k).volumeMounts.data == old(cs.At(k).volumeMounts.data);
  }

  method UndoContainers(cs: Slice<Container>)
    requires ValidList(cs)
    modifies cs.data, Arrays(cs)
    ensures ValidList(cs) && Arrays(cs) == old(Arrays(cs))
    ensures ListView(cs) == Unmounted(old(ListView(cs)))
  {
    hide ListView;
    ghost var before := ListView(cs);
    for i := 0 to cs.len
      invariant ValidList(cs) && Arrays(cs) == old(Arrays(cs))
      invariant forall k :: 0 <= k < cs.len ==> ListView(cs)[k] == if k < i then Unmounted(before)[k] else before[k]
    {
      assert cs.At(i).volumeMounts.data in Arrays(cs);
      UndoContainer(cs, i);
    }
  }

  // One container of Do.
  method DoContainer(cs: Slice<Container>, i: nat, m: Mount)
    requires ValidList(cs) && i < cs.len
    modifies cs.data, cs.At(i).volumeMounts.data
    ensures ValidList(cs) && fresh(Arrays(cs) - old(Arrays(cs)))
    ensures forall k :: i < k < cs.len ==> cs.At(k) == old(cs.At(k))
    ensures ListView(cs) == old(ListView(cs))[i := old(ListView(cs)[i]).(mounts := old(ListView(cs)[i]).mounts + [m])]
  {
    assert (cs.data as object) != cs.At(i).volumeMounts.data;
    var mounts := Append(cs.At(i).volumeMounts, m);
    SetMounts(cs, i, mounts);
  }

  method DoContainers(cs: Slice<Container>, m: Mount)
    requires ValidList(cs)
    modifies cs.data, Arrays(cs)
    ensures ValidList(cs) && fresh(Arrays(cs) - old(Arrays(cs)))
    ensures ListView(cs) == Mounted(old(ListView(cs)), m)
  {
    hide ListView;
    ghost var before := ListView(cs);
    for i := 0 to cs.len
      invariant ValidList(cs) && fresh(Arrays(cs) - old(Arrays(cs)))
      invariant forall k :: i <= k < cs.len ==> cs.At(k) == old(cs.At(k))
      invariant forall k :: 0 <= k < cs.len ==> ListView(cs)[k] == if k < i then Mounted(before, m)[k] else before[k]
    {
      assert old(cs.At(i).volumeMounts.data) in old(Arrays(cs));
      DoContainer(cs, i, m);
    }
  }

  class WithPod {
    var spec: PodSpec

    // No two lists share a backing array.
    ghost predicate Unshared()
      reads this, spec.initContainers.data, spec.containers.data
    {
      && spec.volumes.Valid() && ValidList(spec.initContainers) && ValidList(spec.containers)
      && spec.initContainers.data != spec.containers.data
      && Arrays(spec.initContainers) !! Arrays(spec.containers)
    }

    ghost function View(): PodView
      requires Unshared()
      reads this, spec.volumes.data, spec.initContainers.data, spec.containers.data
      reads Arrays(spec.initContainers), Arrays(spec.containers)
    {
      PodView(spec.volumes.Contents(), ListView(spec.initContainers), ListView(spec.containers))
    }
  }

  // The containers' part of Undo.
  method UndoPod(spec: PodSpec)
    requires ValidList(spec.initContainers) && ValidList(spec.containers)
    requires spec.initContainers.data != spec.containers.data && Arrays(spec.initContainers) !! Arrays(spec.containers)
    modifies spec.initContainers.data, spec.containers.data, Arrays(spec.initContainers), Arrays(spec.containers)
    ensures ValidList(spec.initContainers) && ValidList(spec.containers)
    ensures Arrays(spec.initContainers) == old(Arrays(spec.initContainers))
    ensures Arrays(spec.containers) == old(Arrays(spec.containers))
    ensures ListView(spec.initContainers) == Unmounted(old(ListView(spec.initContainers)))
    ensures ListView(spec.containers) == Unmounted(old(ListView(spec.containers)))
  {
    hide ListView, Unmounted;
    UndoContainers(spec.initContainers);
    UndoContainers(spec.containers);
  }

  method Undo(pod: WithPod)
    requires pod.Unshared()
    modifies pod, pod.spec.volumes.data, pod.spec.initContainers.data, pod.spec.containers.data
    modifies Arrays(pod.spec.initContainers), Arrays(pod.spec.containers)
    ensures pod.Unshared() && pod.spec == old(pod.spec).(volumes := pod.spec.volumes)
    ensures pod.spec.volumes.data == old(pod.spec.volumes.data)
    ensures Arrays(pod.spec.initContainers) == old(Arrays(pod.spec.initContainers))
    ensures Arrays(pod.spec.containers) == old(Arrays(pod.spec.containers))
    ensures pod.View() == Undone(old(pod.View()))
  {
    hide ListView, Unmounted;
    var spec := pod.spec;
    var volumes := UndoList(spec.volumes);
    pod.spec := pod.spec.(volumes := volumes);
    UndoPod(spec);
  }

  // The containers' part of Do.
  method DoPod(spec: PodSpec, m: Mount)
    requires ValidList(spec.initContainers) && ValidList(spec.containers)
    requires spec.initContainers.data != spec.containers.data && Arrays(spec.initContainers) !! Arrays(spec.containers)
    modifies spec.initContainers.data, spec.containers.data, Arrays(spec.initContainers), Arrays(spec.containers)
    ensures ValidList(spec.initContainers) && ValidList(spec.containers)
    ensures Arrays(spec.initContainers) !! Arrays(spec.containers)
    ensures fresh(Arrays(spec.initContainers) - old(Arrays(spec.initContainers)))
    ensures fresh(Arrays(spec.containers) - old(Arrays(spec.containers)))
    ensures ListView(spec.initContainers) == Mounted(old(ListView(spec.initContainers)), m)
    ensures ListView(spec.containers) == Mounted(old(ListView(spec.containers)), m)
  {
    hide ListView, Mounted;
    DoContainers(spec.initContainers, m);
    DoContainers(spec.containers, m);
  }

  // The entries Do adds once Undo has made room.
  method AddEntries(pod: WithPod, token: Token)
    requires pod.Unshared()
    modifies pod, pod.spec.volumes.data, pod.spec.initContainers.data, pod.spec.containers.data
    modifies Arrays(pod.spec.initContainers), Arrays(pod.spec.containers)
    ensures pod.Unshared() && pod.spec == old(pod.spec).(volumes := pod.spec.volumes)
    ensures pod.spec.volumes.data == old(pod.spec.volumes.data) || fresh(pod.spec.volumes.data)
    ensures fresh(Arrays(pod.spec.initContainers) - old(Arrays(pod.spec.initContainers)))
    ensures fresh(Arrays(pod.spec.containers) - old(Arrays(pod.spec.containers)))
    ensures pod.View() == WithEntries(old(pod.View()), token)
  {
    hide ListView, Mounted;
    var volumes := Append(pod.spec.volumes, VolumeOf(token));
    pod.spec := pod.spec.(volumes := volumes);
    var spec := pod.spec;
    DoPod(spec, MountEntry());
  }

  method Do(pod: WithPod, token: Token)
    requires pod.Unshared()
    modifies pod, pod.spec.volumes.data, pod.spec.initContainers.data, pod.spec.containers.data
    modifies Arrays(pod.spec.initContainers), Arrays(pod.spec.containers)
    ensures pod.Unshared() && pod.spec == old(pod.spec).(volumes := pod.spec.volumes)
    ensures pod.spec.volumes.data == old(pod.spec.volumes.data) || fresh(pod.spec.volumes.data)
    ensures fresh(Arrays(pod.spec.initContainers) - old(Arrays(pod.spec.initContainers)))
    ensures fresh(Arrays(pod.spec.containers) - old(Arrays(pod.spec.containers)))
    ensures pod.View() == Done(old(pod.View()), token)
    ensures VolumeAdded(pod.View(), token) && MountsAdded(pod.View().initContainers) && MountsAdded(pod.View().containers)
  {
    hide ListView, Unmounted, Mounted, Undone, WithEntries, VolumeAdded, MountsAdded;
    DoneEnds(pod.View(), token);
    Undo(pod);
    AddEntries(pod, token);
  }

  // ---- What Do and Undo promise ----

  predicate Single(cs: seq<ContainerView>) {
    forall i :: 0 <= i < |cs| ==> Count(cs[i].mounts) <= 1
  }

  // Each list holds at most one managed entry.
  predicate Normal(p: PodView) {
    Count(p.volumes) <= 1 && Single(p.initContainers) && Single(p.containers)
  }

  lemma MountsUndone(cs: seq<ContainerView>)
    requires Single(cs)
    ensures Unmounted(Mounted(Unmounted(cs), MountEntry())) == Unmounted(cs)
  {
    forall i | 0 <= i < |cs|
      ensures Unmounted(Mounted(Unmounted(cs), MountEntry()))[i] == Unmounted(cs)[i]
    {
      UndoneAndRedone(cs[i].mounts, MountEntry(), MountEntry());
    }
  }

  // Do then Undo is Undo, Do after Do of any binding is the later Do alone;
  // in particular Do twice is Do once.
  lemma DoUndo(p: PodView, a: Token, b: Token)
    requires Normal(p)
    ensures Undone(Done(p, a)) == Undone(p)
    ensures Done(Done(p, a), b) == Done(p, b)
  {
    UndoneAndRedone(p.volumes, VolumeOf(a), VolumeOf(b));
    UndoneAndRedone(p.volumes, VolumeOf(b), VolumeOf(a));
    MountsUndone(p.initContainers);
    MountsUndone(p.containers);
  }

  // From any number of managed entries Undo takes one and Do leaves at least one; other entries stay as they are.
  predicate Intact<T(==)>(before: seq<Named<T>>, after: seq<Named<T>>, count: nat) {
    Kept(after) == Kept(before) && Count(after) == count
  }

  predicate IntactAll(before: seq<ContainerView>, after: seq<ContainerView>, undo: bool) {
    && |after| == |before|
    && forall i :: 0 <= i < |before| ==>
         && after[i].name == before[i].name
         && Intact(before[i].mounts, after[i].mounts, Left(Count(before[i].mounts), undo))
  }

  // How many of n managed entries are left.
  function Left(n: nat, undo: bool): nat {
    if !undo then Max(n, 1) else if n > 0 then n - 1 else 0
  }

  lemma MountCounts(cs: seq<ContainerView>)
    ensures IntactAll(cs, Unmounted(cs), true)
    ensures IntactAll(cs, Mounted(Unmounted(cs), MountEntry()), false)
  {
    forall i | 0 <= i < |cs|
      ensures Intact(cs[i].mounts, Unmounted(cs)[i].mounts, Left(Count(cs[i].mounts), true))
      ensures Intact(cs[i].mounts, Mounted(Unmounted(cs), MountEntry())[i].mounts, Left(Count(cs[i].mounts), false))
    {
      Removed(cs[i].mounts);
      BoundCounts(cs[i].mounts, MountEntry());
    }
  }

  lemma PodCounts(p: PodView, token: Token)
    ensures var u := Undone(p);
      && Intact(p.volumes, u.volumes, Left(Count(p.volumes), true))
      && IntactAll(p.initContainers, u.initContainers, true) && IntactAll(p.containers, u.containers, true)
    ensures var d := Done(p, token);
      && Intact(p.volumes, d.volumes, Left(Count(p.volumes), false))
      && IntactAll(p.initContainers, d.initContainers, false) && IntactAll(p.containers, d.containers, false)
  {
    Removed(p.volumes);
    BoundCounts(p.volumes, VolumeOf(token));
    MountCounts(p.initContainers);
    MountCounts(p.containers);
  }

  // Do k times.
  function DoneTimes(p: PodView, token: Token, k: nat): PodView {
    if k == 0 then p else Done(DoneTimes(p, token, k - 1), token)
  }

  // Each list on its own.
  lemma {:induction false} TimesByList(p: PodView, token: Token, k: nat)
    ensures var q := DoneTimes(p, token, k);
      && q.volumes == Repeated(p.volumes, VolumeOf(token), k)
      && TimesOn(p.initContainers, q.initContainers, k) && TimesOn(p.containers, q.containers, k)
  {
    if k > 0 { TimesByList(p, token, k - 1); }
  }

  predicate TimesOn(cs: seq<ContainerView>, ds: seq<ContainerView>, k: nat) {
    |ds| == |cs| && forall i :: 0 <= i < |cs| ==> ds[i] == cs[i].(mounts := Repeated(cs[i].mounts, MountEntry(), k))
  }

  // No list of the pod holds more than k managed entries.
  predicate AtMost(p: PodView, k: nat) {
    && Count(p.volumes) <= k
    && (forall i :: 0 <= i < |p.initContainers| ==> Count(p.initContainers[i].mounts) <= k)
    && (forall i :: 0 <= i < |p.containers| ==> Count(p.containers[i].mounts) <= k)
  }

  lemma MountsStable(cs: seq<ContainerView>, ds: seq<ContainerView>, k: nat)
    requires TimesOn(cs, ds, k) && k > 0
    requires forall i :: 0 <= i < |cs| ==> Count(cs[i].mounts) <= k
    ensures Mounted(Unmounted(ds), MountEntry()) == ds
  {
    forall i | 0 <= i < |ds| ensures Mounted(Unmounted(ds), MountEntry())[i] == ds[i] {
      Stabilizes(cs[i].mounts, MountEntry(), k);
    }
  }

  // However many managed entries a pod starts with, as many applications of
  // Do as its fullest list holds (at least one) lead to a pod Do leaves alone.
  lemma DoSettles(p: PodView, token: Token, k: nat)
    requires AtMost(p, k) && k > 0
    ensures Done(DoneTimes(p, token, k), token) == DoneTimes(p, token, k)
  {
    var q := DoneTimes(p, token, k);
    TimesByList(p, token, k);
    Stabilizes(p.volumes, VolumeOf(token), k);
    MountsStable(p.initContainers, q.initContainers, k);
    MountsStable(p.containers, q.containers, k);
  }

  // On the heap: a pod bound by a, then by b, then unbound, is the pod unbound.
  method BindAgainAndUnbind(pod: WithPod, a: Token, b: Token)
    requires pod.Unshared() && Normal(pod.View())
    modifies pod, pod.spec.volumes.data, pod.spec.initContainers.data, pod.spec.containers.data
    modifies Arrays(pod.spec.initContainers), Arrays(pod.spec.containers)
    ensures pod.Unshared() && pod.View() == Undone(old(pod.View()))
  {
    hide Undone, Done, Normal, ListView;
    ghost var p := pod.View();
    DoUndo(p, a, b);
    DoUndo(p, b, b);
    Do(pod, a);
    Do(pod, b);
    Undo(pod);
  }
}
