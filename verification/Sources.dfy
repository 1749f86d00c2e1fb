// The values the controller works on: GitLabSource, its conditions, GitLab
// project hooks, Knative Services, and Go's errors and reconciler events.
module Sources {
  datatype Option<+T> = None | Some(value: T)

  datatype Result<+T, +E> = Ok(value: T) | Err(error: E)

  datatype Ref = Ref(namespace: string, name: string)

  datatype SecretKey = SecretKey(name: string, key: string)

  datatype Spec = Spec(
    sinkRef: Option<Ref>,
    serviceAccount: string,
    projectURL: string,
    eventTypes: seq<string>,
    accessToken: Option<SecretKey>,
    secretToken: Option<SecretKey>,
    sslVerify: bool)

  datatype Condition = Absent | Unknown | False | True

  datatype Conditions = Conditions(
    sinkProvided: Condition, deployed: Condition, webhookConfigured: Condition, ready: Condition)

  datatype Attribute = Attribute(eventType: string, source: string)

  datatype Status = Status(
    observedGeneration: nat,
    conditions: Conditions,
    sinkURI: Option<string>,
    attributes: seq<Attribute>,
    webhookID: Option<int>)

  // One stored version of the object. Its resource version is its position
  // in the history of stored versions.
  datatype Source = Source(
    namespace: string,
    version: nat,
    generation: nat,
    finalizers: seq<string>,
    deleting: bool,
    spec: Spec,
    status: Status)

  const EMPTY_STATUS :=
    Status(0, Conditions(Absent, Absent, Absent, Absent), None, [], None)

  // A hook lives in one project; ids are never reused within a project.
  datatype HookKey = HookKey(project: string, id: int)

  datatype Flags = Flags(
    confidentialIssues: bool, confidentialNote: bool, issues: bool, job: bool, mergeRequests: bool,
    note: bool, pipeline: bool, push: bool, tagPush: bool, wikiPage: bool)

  datatype Hook = Hook(url: string, sslVerify: bool, flags: Flags)

  // controlled: the controller reference names our source's UID.
  datatype Service = Service(name: string, controlled: bool, ready: bool, url: Option<string>)

  // Errors by what the controller can tell about them; wrapping with %w
  // changes none of these tests.
  datatype GoError =
    | KubeNotFound
    | KubeConflict
    | GitLabResponse(statusCode: nat)  // *gitlab.ErrorResponse
    | GitLabNotFound                   // the client's ErrNotFound sentinel
    | OtherError

  datatype EventType = Normal | Warning

  // What a reconciler method returns: nil, a ReconcilerEvent (possibly wrapped
  // in a plain error), or a plain error.
  datatype Event =
    | NoEvent
    | Emitted(eventType: EventType, wrapped: bool)
    | Failed(error: GoError)
}

// The condition manager of knative.dev/pkg/apis for the set
// {SinkProvided, Deployed, WebhookConfigured} with top-level condition Ready.
module ConditionSets {
  import opened Sources

  datatype Dependent = SinkProvided | Deployed | WebhookConfigured

  function Get(c: Conditions, d: Dependent): Condition {
    match d
    case SinkProvided => c.sinkProvided
    case Deployed => c.deployed
    case WebhookConfigured => c.webhookConfigured
  }

  function Set(c: Conditions, d: Dependent, v: Condition): Conditions {
    match d
    case SinkProvided => c.(sinkProvided := v)
    case Deployed => c.(deployed := v)
    case WebhookConfigured => c.(webhookConfigured := v)
  }

  predicate Any(c: Conditions, v: Condition) {
    c.sinkProvided == v || c.deployed == v || c.webhookConfigured == v
  }

  // False outranks Unknown, an unset dependent counts as Unknown.
  function Happiness(c: Conditions): Condition {
    if Any(c, False) then False
    else if Any(c, Unknown) || Any(c, Absent) then Unknown
    else True
  }

  function MarkTrue(c: Conditions, d: Dependent): Conditions {
    var c1 := Set(c, d, True);
    c1.(ready := Happiness(c1))
  }

  function MarkFalse(c: Conditions, d: Dependent): Conditions {
    Set(c, d, False).(ready := False)
  }

  function InitializeConditions(c: Conditions): Conditions {
    var ready := if c.ready.Absent? then Unknown else c.ready;
    var initial := if ready.True? then True else Unknown;
    Conditions(
      if c.sinkProvided.Absent? then initial else c.sinkProvided,
      if c.deployed.Absent? then initial else c.deployed,
      if c.webhookConfigured.Absent? then initial else c.webhookConfigured,
      ready)
  }

  // MarkUnknown on the top-level condition: a failed dependent wins.
  function MarkReadyUnknown(c: Conditions): Conditions {
    c.(ready := if Any(c, False) then False else Unknown)
  }

  // PreProcessReconcile.
  function PreProcess(c: Conditions, observed: nat, generation: nat): Conditions {
    var c1 := InitializeConditions(c);
    if observed != generation then MarkReadyUnknown(c1) else c1
  }

  // Ready is True if all three dependents are, False if one of them is, Unknown otherwise.
  predicate Summarized(c: Conditions) {
    && (c.ready.True? <==> c.sinkProvided.True? && c.deployed.True? && c.webhookConfigured.True?)
    && (c.ready.False? <==> c.sinkProvided.False? || c.deployed.False? || c.webhookConfigured.False?)
    && !c.ready.Absent?
  }

  lemma MarkSummarizes(c: Conditions, d: Dependent)
    ensures Summarized(MarkTrue(c, d)) && Summarized(MarkFalse(c, d))
    ensures Get(MarkTrue(c, d), d) == True && Get(MarkFalse(c, d), d) == False
    ensures forall e :: e != d ==> Get(MarkTrue(c, d), e) == Get(c, e) == Get(MarkFalse(c, d), e)
  {
  }

  // Pre-processing leaves no condition unset and changes no dependent that
  // was set; one that was not counts as Unknown, or True under a True Ready.
  // After a spec change Ready is not True; without one, only an unset Ready changes.
  lemma PreProcessed(c: Conditions, observed: nat, generation: nat)
    ensures var p := PreProcess(c, observed, generation);
      && (forall d :: Get(p, d) ==
            if !Get(c, d).Absent? then Get(c, d) else if c.ready.True? then True else Unknown)
      && p.ready ==
           if observed == generation then (if c.ready.Absent? then Unknown else c.ready)
           else if c.sinkProvided.False? || c.deployed.False? || c.webhookConfigured.False? then False
           else Unknown
  {
  }
}

// What a stored status promises about itself.
module StatusRules {
  import opened Sources
  import opened ConditionSets

  // What a status says of the webhook and the sink is borne out by its fields.
  predicate Honest(s: Status) {
    && (s.conditions.webhookConfigured.True? ==> s.webhookID.Some?)
    && (s.webhookID.Some? ==> s.webhookID.value >= 0)
    && (s.conditions.sinkProvided.True? ==> s.sinkURI.Some?)
  }

  // The rules every status of an object not being deleted obeys.
  predicate Truthful(s: Status) {
    && Honest(s)
    && (s.conditions.ready.True? <==>
        s.conditions.sinkProvided.True? && s.conditions.deployed.True? && s.conditions.webhookConfigured.True?)
  }

  function Marked(s: Status, d: Dependent, happy: bool): Status {
    s.(conditions := if happy then MarkTrue(s.conditions, d) else MarkFalse(s.conditions, d))
  }

  // It sets that condition and nothing else but Ready.
  lemma MarkedShows(s: Status, d: Dependent, happy: bool)
    ensures var t := Marked(s, d, happy);
      && Get(t.conditions, d) == (if happy then True else False)
      && (forall e :: e != d ==> Get(t.conditions, e) == Get(s.conditions, e))
      && Summarized(t.conditions) && t.(conditions := s.conditions) == s
  {
  }

  // MarkSink on a status.
  function Sunk(s: Status, uri: Option<string>): Status {
    Marked(s.(sinkURI := uri), SinkProvided, uri.Some?)
  }

  // Marking a condition makes an honest status truthful.
  lemma MarkedTruthful(s: Status, d: Dependent, happy: bool)
    requires Truthful(s) && d != SinkProvided
    requires happy && d == WebhookConfigured ==> s.webhookID.Some?
    ensures Truthful(Marked(s, d, happy))
  {
  }

  lemma SunkTruthful(s: Status, uri: Option<string>)
    requires Honest(s)
    ensures Truthful(Sunk(s, uri)) && Truthful(Marked(s, SinkProvided, false))
  {
  }

  lemma ConfiguredTruthful(s: Status, id: int)
    requires Truthful(s) && (id >= 0 || s.webhookID == Some(id))
    ensures Truthful(Marked(s.(webhookID := Some(id)), WebhookConfigured, true))
  {
  }

  lemma PreProcessHonest(s: Status, generation: nat)
    requires Honest(s) && (s.conditions.ready.True? ==>
        s.conditions.sinkProvided.True? && s.conditions.webhookConfigured.True?)
    ensures Honest(s.(conditions := PreProcess(s.conditions, s.observedGeneration, generation)))
  {
  }
}
