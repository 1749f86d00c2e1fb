// GitLabSource as it lives in memory: a struct whose pointers the controller
// follows, and the generated deep copy that separates it from the lister's.
module Objects {
  import opened Sources
  import opened ConditionSets
  import opened StatusRules

  class KReference {
    var namespace: string
    var name: string

    constructor (namespace: string, name: string)
      ensures this.namespace == namespace && this.name == name
    {
      this.namespace := namespace;
      this.name := name;
    }
  }

  class SecretKeySelector {
    var name: string
    var key: string

    constructor (name: string, key: string)
      ensures this.name == name && this.key == key
    {
      this.name := name;
      this.key := key;
    }
  }

  class IntCell {
    var value: int

    constructor (value: int)
      ensures this.value == value
    {
      this.value := value;
    }
  }

  function RefView(r: KReference?): Option<Ref>
    reads r
  {
    if r == null then None else Some(Ref(r.namespace, r.name))
  }

  function SecretView(r: SecretKeySelector?): Option<SecretKey>
    reads r
  {
    if r == null then None else Some(SecretKey(r.name, r.key))
  }

  function IntView(c: IntCell?): Option<int>
    reads c
  {
    if c == null then None else Some(c.value)
  }

  // A nil slice reads as an empty one.
  function SliceView(a: array?<string>): seq<string>
    reads a
  {
    if a == null then [] else a[..]
  }

  datatype ObjectMeta = ObjectMeta(
    namespace: string, version: nat, generation: nat, finalizers: seq<string>, deleting: bool)

  datatype SpecFields = SpecFields(serviceAccount: string, projectURL: string, sslVerify: bool)

  datatype StatusFields = StatusFields(
    observedGeneration: nat, conditions: Conditions, sinkURI: Option<string>, attributes: seq<Attribute>)

  // The fields held by value are grouped by the struct they belong to; the
  // pointers are fields of their own.
  class GitLabSource {
    var meta: ObjectMeta
    var spec: SpecFields
    var sinkRef: KReference?
    var eventTypes: array?<string>
    var accessToken: SecretKeySelector?
    var secretToken: SecretKeySelector?
    var status: StatusFields
    var webhookID: IntCell?

    // Everything reachable from the object.
    ghost function Reach(): set<object?>
      reads this
    {
      {this, sinkRef, eventTypes, accessToken, secretToken, webhookID} - {null}
    }

    function SpecView(): Spec
      reads this, sinkRef, eventTypes, accessToken, secretToken
    {
      Spec(RefView(sinkRef), spec.serviceAccount, spec.projectURL, SliceView(eventTypes),
           SecretView(accessToken), SecretView(secretToken), spec.sslVerify)
    }

    function StatusView(): Status
      reads this, webhookID
    {
      Status(status.observedGeneration, status.conditions, status.sinkURI, status.attributes, IntView(webhookID))
    }

    function View(): Source
      reads this, sinkRef, eventTypes, accessToken, secretToken, webhookID
    {
      Source(meta.namespace, meta.version, meta.generation, meta.finalizers, meta.deleting, SpecView(), StatusView())
    }

    // An object decoded from what the API server sent.
    constructor Decode(o: Source)
      ensures View() == o && fresh(Reach())
    {
      meta := ObjectMeta(o.namespace, o.version, o.generation, o.finalizers, o.deleting);
      spec := SpecFields(o.spec.serviceAccount, o.spec.projectURL, o.spec.sslVerify);
      status := StatusFields(
        o.status.observedGeneration, o.status.conditions, o.status.sinkURI, o.status.attributes);
      var ref := NewRef(o.spec.sinkRef);
      var types := NewSlice(o.spec.eventTypes);
      var access := NewSecret(o.spec.accessToken);
      var token := NewSecret(o.spec.secretToken);
      var id := NewInt(o.status.webhookID);
      sinkRef, eventTypes, accessToken, secretToken, webhookID := ref, types, access, token, id;
    }

    constructor Zero()
      ensures Reach() == {this}
    {
      meta := ObjectMeta("", 0, 0, [], false);
      spec := SpecFields("", "", false);
      status := StatusFields(0, Conditions(Absent, Absent, Absent, Absent), None, []);
      sinkRef, eventTypes, accessToken, secretToken, webhookID := null, null, null, null, null;
    }

    // ---- The condition methods ----

    method MarkSink(uri: Option<string>)
      modifies this`status
      ensures StatusView() == Sunk(old(StatusView()), uri)
      ensures status.sinkURI == uri && status.conditions.sinkProvided == if uri.Some? then True else False
    {
      status := status.(sinkURI := uri);
      if uri.None? {
        Mark(SinkProvided, false);
        return;
      }
      Mark(SinkProvided, true);
    }

    // MarkNoSink, MarkDeployed, MarkNotDeployed, MarkWebhook and MarkNoWebhook.
    method Mark(d: Dependent, happy: bool)
      modifies this`status
      ensures StatusView() == Marked(old(StatusView()), d, happy)
      ensures Get(status.conditions, d) == if happy then True else False
    {
      status := status.(conditions := if happy then MarkTrue(status.conditions, d) else MarkFalse(status.conditions, d));
    }

    // *out = *in: every pointer is shared.
    method AssignTo(out: GitLabSource)
      modifies out
      ensures out.meta == old(meta) && out.spec == old(spec) && out.status == old(status)
      ensures out.sinkRef == old(sinkRef) && out.eventTypes == old(eventTypes)
      ensures out.accessToken == old(accessToken) && out.secretToken == old(secretToken)
      ensures out.webhookID == old(webhookID)
    {
      out.meta, out.spec, out.status := meta, spec, status;
      out.sinkRef, out.eventTypes := sinkRef, eventTypes;
      out.accessToken, out.secretToken, out.webhookID := accessToken, secretToken, webhookID;
    }

    // GitLabSourceSpec.DeepCopyInto, on an out that shares in's pointers.
    method DeepCopySpecInto(out: GitLabSource)
      requires out != this
      requires out.sinkRef == sinkRef && out.eventTypes == eventTypes
      requires out.accessToken == accessToken && out.secretToken == secretToken
      modifies out`sinkRef, out`eventTypes, out`accessToken, out`secretToken
      ensures RefView(out.sinkRef) == RefView(sinkRef) && (out.sinkRef != null ==> fresh(out.sinkRef))
      ensures SliceView(out.eventTypes) == SliceView(eventTypes) && (out.eventTypes != null ==> fresh(out.eventTypes))
      ensures SecretView(out.accessToken) == SecretView(accessToken)
      ensures SecretView(out.secretToken) == SecretView(secretToken)
      ensures (out.accessToken != null ==> fresh(out.accessToken)) && (out.secretToken != null ==> fresh(out.secretToken))
    {
      if sinkRef != null {
        out.sinkRef := new KReference(sinkRef.namespace, sinkRef.name);
      }
      if eventTypes != null {
        out.eventTypes := CopySlice(eventTypes);
      }
      out.accessToken := DeepCopySecret(accessToken);
      out.secretToken := DeepCopySecret(secretToken);
    }

    // GitLabSourceStatus.DeepCopyInto, on an out that shares in's pointers.
    method DeepCopyStatusInto(out: GitLabSource)
      requires out != this && out.webhookID == webhookID
      modifies out`webhookID
      ensures IntView(out.webhookID) == IntView(webhookID) && (out.webhookID != null ==> fresh(out.webhookID))
    {
      if webhookID != null {
        out.webhookID := new IntCell(webhookID.value);
      }
    }

    method DeepCopyInto(out: GitLabSource)
      requires out != this
      modifies out
      ensures out.View() == View() && fresh(out.Reach() - {out})
    {
      AssignTo(out);
      DeepCopySpecInto(out);
      DeepCopyStatusInto(out);
    }

    // An equal value that shares nothing with this object.
    method DeepCopy() returns (out: GitLabSource)
      ensures out.View() == View() && fresh(out.Reach())
    {
      out := new GitLabSource.Zero();
      DeepCopyInto(out);
    }
  }

  // make and copy.
  method CopySlice(a: array<string>) returns (c: array<string>)
    ensures fresh(c) && c[..] == a[..]
  {
    c := new string[a.Length](_ => "");
    for i := 0 to a.Length
      modifies c
      invariant c[..i] == a[..i]
    {
      c[i] := a[i];
    }
    assert c[..] == c[..a.Length] && a[..] == a[..a.Length];
  }

  // SecretValueFromSource.DeepCopyInto.
  method DeepCopySecret(r: SecretKeySelector?) returns (c: SecretKeySelector?)
    ensures SecretView(c) == SecretView(r) && (c != null ==> fresh(c))
  {
    c := null;
    if r != null {
      c := new SecretKeySelector(r.name, r.key);
    }
  }

  method NewRef(r: Option<Ref>) returns (p: KReference?)
    ensures RefView(p) == r && (p != null ==> fresh(p))
  {
    p := null;
    if r.Some? { p := new KReference(r.value.namespace, r.value.name); }
  }

  method NewSlice(s: seq<string>) returns (p: array?<string>)
    ensures SliceView(p) == s && (p != null ==> fresh(p))
  {
    p := new string[|s|](i requires 0 <= i < |s| => s[i]);
    assert p[..] == s;
  }

  method NewSecret(r: Option<SecretKey>) returns (p: SecretKeySelector?)
    ensures SecretView(p) == r && (p != null ==> fresh(p))
  {
    p := null;
    if r.Some? { p := new SecretKeySelector(r.value.name, r.value.key); }
  }

  method NewInt(i: Option<int>) returns (p: IntCell?)
    ensures IntView(p) == i && (p != null ==> fresh(p))
  {
    p := null;
    if i.Some? { p := new IntCell(i.value); }
  }
}
