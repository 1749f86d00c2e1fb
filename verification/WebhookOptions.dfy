// The options the webhook client sends to GitLab, folded from a list of
// webhook names, and what GitLab makes of them.
module WebhookOptions {
  import opened Sources

  // The ten webhooks the client can switch on, and any other name.
  datatype Webhook =
    ConfidentialIssues | ConfidentialNote | Issues | Job | MergeRequests | Note | Pipeline | Push | TagPush | WikiPage
    | Unsupported

  function NameOf(w: Webhook): string
    requires w != Unsupported
  {
    match w
    case ConfidentialIssues => "confidential_issues_events"
    case ConfidentialNote => "confidential_note_events"
    case Issues => "issues_events"
    case Job => "job_events"
    case MergeRequests => "merge_requests_events"
    case Note => "note_events"
    case Pipeline => "pipeline_events"
    case Push => "push_events"
    case TagPush => "tag_push_events"
    case WikiPage => "wiki_page_events"
  }

  // The case a name selects in the client's switch; any other name selects none.
  function Case(name: string): Webhook {
    if name == NameOf(ConfidentialIssues) then ConfidentialIssues
    else if name == NameOf(ConfidentialNote) then ConfidentialNote
    else if name == NameOf(Issues) then Issues
    else if name == NameOf(Job) then Job
    else if name == NameOf(MergeRequests) then MergeRequests
    else if name == NameOf(Note) then Note
    else if name == NameOf(Pipeline) then Pipeline
    else if name == NameOf(Push) then Push
    else if name == NameOf(TagPush) then TagPush
    else if name == NameOf(WikiPage) then WikiPage
    else Unsupported
  }

  // One pointer per flag; None is a nil pointer, which GitLab never sees.
  datatype FlagOptions = FlagOptions(
    confidentialIssues: Option<bool>, confidentialNote: Option<bool>, issues: Option<bool>, job: Option<bool>,
    mergeRequests: Option<bool>, note: Option<bool>, pipeline: Option<bool>, push: Option<bool>,
    tagPush: Option<bool>, wikiPage: Option<bool>)

  const UNSET := FlagOptions(None, None, None, None, None, None, None, None, None, None)

  const DISABLED := FlagOptions(
    Some(false), Some(false), Some(false), Some(false), Some(false),
    Some(false), Some(false), Some(false), Some(false), Some(false))

  const NO_FLAGS := Flags(false, false, false, false, false, false, false, false, false, false)

  datatype HookOptions = HookOptions(url: string, sslVerify: bool, flags: FlagOptions)

  function Enable(o: FlagOptions, w: Webhook): FlagOptions {
    match w
    case ConfidentialIssues => o.(confidentialIssues := Some(true))
    case ConfidentialNote => o.(confidentialNote := Some(true))
    case Issues => o.(issues := Some(true))
    case Job => o.(job := Some(true))
    case MergeRequests => o.(mergeRequests := Some(true))
    case Note => o.(note := Some(true))
    case Pipeline => o.(pipeline := Some(true))
    case Push => o.(push := Some(true))
    case TagPush => o.(tagPush := Some(true))
    case WikiPage => o.(wikiPage := Some(true))
    case Unsupported => o
  }

  function Or(o: Option<bool>, given: bool): bool {
    if o.Some? then o.value else given
  }

  // GitLab keeps what it has (or its own default) where a flag is not sent.
  function Overlay(o: FlagOptions, prior: Flags): Flags {
    Flags(Or(o.confidentialIssues, prior.confidentialIssues), Or(o.confidentialNote, prior.confidentialNote),
          Or(o.issues, prior.issues), Or(o.job, prior.job), Or(o.mergeRequests, prior.mergeRequests),
          Or(o.note, prior.note), Or(o.pipeline, prior.pipeline), Or(o.push, prior.push),
          Or(o.tagPush, prior.tagPush), Or(o.wikiPage, prior.wikiPage))
  }

  function Configure(o: HookOptions, prior: Flags): Hook {
    Hook(o.url, o.sslVerify, Overlay(o.flags, prior))
  }

  lemma ConfiguredURL(o: HookOptions, prior: Flags)
    ensures Configure(o, prior).url == o.url
  {
  }

  // The flags a set of webhooks stands for.
  function Wanted(ws: set<Webhook>): Flags {
    Flags(ConfidentialIssues in ws, ConfidentialNote in ws, Issues in ws, Job in ws,
          MergeRequests in ws, Note in ws, Pipeline in ws, Push in ws,
          TagPush in ws, WikiPage in ws)
  }

  function Flag(f: Flags, w: Webhook): bool {
    match w
    case ConfidentialIssues => f.confidentialIssues
    case ConfidentialNote => f.confidentialNote
    case Issues => f.issues
    case Job => f.job
    case MergeRequests => f.mergeRequests
    case Note => f.note
    case Pipeline => f.pipeline
    case Push => f.push
    case TagPush => f.tagPush
    case WikiPage => f.wikiPage
    case Unsupported => false
  }

  // What Add sends: the wanted flags as true, nothing for the others.
  function Sparse(f: Flags): FlagOptions {
    FlagOptions(Only(f.confidentialIssues), Only(f.confidentialNote), Only(f.issues), Only(f.job),
                Only(f.mergeRequests), Only(f.note), Only(f.pipeline), Only(f.push), Only(f.tagPush), Only(f.wikiPage))
  }

  function Only(b: bool): Option<bool> {
    if b then Some(true) else None
  }

  // What Edit sends: every flag explicitly.
  function Full(f: Flags): FlagOptions {
    FlagOptions(Some(f.confidentialIssues), Some(f.confidentialNote), Some(f.issues), Some(f.job),
                Some(f.mergeRequests), Some(f.note), Some(f.pipeline), Some(f.push), Some(f.tagPush), Some(f.wikiPage))
  }

  // The cases a list of names selects.
  function Cases(eventTypes: seq<string>): set<Webhook> {
    set n | n in eventTypes :: Case(n)
  }

  lemma CasesNext(eventTypes: seq<string>, i: nat)
    requires i < |eventTypes|
    ensures Cases(eventTypes[..i + 1]) == Cases(eventTypes[..i]) + {Case(eventTypes[i])}
  {
    assert eventTypes[..i + 1] == eventTypes[..i] + [eventTypes[i]];
  }

  // Switching one flag on.
  function Raise(f: Flags, w: Webhook): Flags {
    match w
    case ConfidentialIssues => f.(confidentialIssues := true)
    case ConfidentialNote => f.(confidentialNote := true)
    case Issues => f.(issues := true)
    case Job => f.(job := true)
    case MergeRequests => f.(mergeRequests := true)
    case Note => f.(note := true)
    case Pipeline => f.(pipeline := true)
    case Push => f.(push := true)
    case TagPush => f.(tagPush := true)
    case WikiPage => f.(wikiPage := true)
    case Unsupported => f
  }

  lemma EnableSparse(f: Flags, w: Webhook)
    ensures Enable(Sparse(f), w) == Sparse(Raise(f, w))
  {
    match w
    case ConfidentialIssues =>
    case ConfidentialNote =>
    case Issues =>
    case Job =>
    case MergeRequests =>
    case Note =>
    case Pipeline =>
    case Push =>
    case TagPush =>
    case WikiPage =>
    case Unsupported =>
  }

  lemma EnableFull(f: Flags, w: Webhook)
    ensures Enable(Full(f), w) == Full(Raise(f, w))
  {
    match w
    case ConfidentialIssues =>
    case ConfidentialNote =>
    case Issues =>
    case Job =>
    case MergeRequests =>
    case Note =>
    case Pipeline =>
    case Push =>
    case TagPush =>
    case WikiPage =>
    case Unsupported =>
  }

  lemma RaiseWanted(ws: set<Webhook>, w: Webhook)
    ensures Raise(Wanted(ws), w) == Wanted(ws + {w})
  {
    match w
    case ConfidentialIssues =>
    case ConfidentialNote =>
    case Issues =>
    case Job =>
    case MergeRequests =>
    case Note =>
    case Pipeline =>
    case Push =>
    case TagPush =>
    case WikiPage =>
    case Unsupported =>
  }

  lemma FlagWanted(ws: set<Webhook>, v: Webhook)
    requires v != Unsupported
    ensures Flag(Wanted(ws), v) == (v in ws)
  {
  }

  lemma WantedSame(ws: set<Webhook>, vs: set<Webhook>)
    requires forall w: Webhook :: w != Unsupported ==> (w in ws <==> w in vs)
    ensures Wanted(ws) == Wanted(vs)
  {
  }

  // GitLab applies a full set of flags as it is ...
  lemma OverlayFull(f: Flags, prior: Flags)
    ensures Overlay(Full(f), prior) == f
  {
  }

  // ... and a sparse one on top of what it has.
  lemma OverlaySparse(f: Flags, prior: Flags, v: Webhook)
    ensures Flag(Overlay(Sparse(f), prior), v) == (Flag(f, v) || Flag(prior, v))
  {
    match v
    case ConfidentialIssues =>
    case ConfidentialNote =>
    case Issues =>
    case Job =>
    case MergeRequests =>
    case Note =>
    case Pipeline =>
    case Push =>
    case TagPush =>
    case WikiPage =>
    case Unsupported =>
  }

  // The options Add builds: a flag is sent, as true, exactly if its name is listed.
  method AddOptions(eventTypes: seq<string>, url: string, tls: bool) returns (o: HookOptions)
    ensures o == HookOptions(url, tls, Sparse(Wanted(Cases(eventTypes))))
  {
    o := HookOptions(url, tls, UNSET);
    for i := 0 to |eventTypes|
      invariant o == HookOptions(url, tls, Sparse(Wanted(Cases(eventTypes[..i]))))
    {
      var w := Case(eventTypes[i]);
      EnableSparse(Wanted(Cases(eventTypes[..i])), w);
      RaiseWanted(Cases(eventTypes[..i]), w);
      CasesNext(eventTypes, i);
      o := o.(flags := Enable(o.flags, w));
    }
    assert eventTypes[..|eventTypes|] == eventTypes;
  }

  // The options Edit builds: every flag is sent, true exactly if its name is listed.
  method EditOptions(eventTypes: seq<string>, url: string, tls: bool) returns (o: HookOptions)
    ensures o == HookOptions(url, tls, Full(Wanted(Cases(eventTypes))))
  {
    o := HookOptions(url, tls, DISABLED);
    for i := 0 to |eventTypes|
      invariant o == HookOptions(url, tls, Full(Wanted(Cases(eventTypes[..i]))))
    {
      var w := Case(eventTypes[i]);
      EnableFull(Wanted(Cases(eventTypes[..i])), w);
      RaiseWanted(Cases(eventTypes[..i]), w);
      CasesNext(eventTypes, i);
      o := o.(flags := Enable(o.flags, w));
    }
    assert eventTypes[..|eventTypes|] == eventTypes;
  }

  // No two webhooks share a name, so a name selects its own case only.
  lemma CaseOfName(w: Webhook)
    requires w != Unsupported
    ensures Case(NameOf(w)) == w
  {
  }

  lemma NameOfCase(name: string)
    ensures Case(name) != Unsupported ==> name == NameOf(Case(name))
  {
  }

  // A case is selected exactly if its own name is listed.
  lemma CaseListed(eventTypes: seq<string>, w: Webhook)
    requires w != Unsupported
    ensures w in Cases(eventTypes) <==> NameOf(w) in eventTypes
  {
    if NameOf(w) in eventTypes {
      CaseOfName(w);
    }
    if w in Cases(eventTypes) {
      var n :| n in eventTypes && Case(n) == w;
      NameOfCase(n);
    }
  }

  // Editing sets each flag true exactly when its own name occurs in the list,
  // whatever the hook's flags were.
  lemma EditByName(eventTypes: seq<string>, prior: Flags, w: Webhook)
    requires w != Unsupported
    ensures Flag(Overlay(Full(Wanted(Cases(eventTypes))), prior), w) <==> NameOf(w) in eventTypes
  {
    OverlayFull(Wanted(Cases(eventTypes)), prior);
    FlagWanted(Cases(eventTypes), w);
    CaseListed(eventTypes, w);
  }

  // Order, repetition and unknown names do not matter, and adding a hook
  // before editing it makes no difference to its flags.
  lemma EditDetermines(a: seq<string>, b: seq<string>, prior: Flags, defaults: Flags)
    requires forall w: Webhook :: w != Unsupported ==> (NameOf(w) in a <==> NameOf(w) in b)
    ensures Overlay(Full(Wanted(Cases(a))), prior) == Overlay(Full(Wanted(Cases(b))), defaults)
    ensures Overlay(Full(Wanted(Cases(a))), Overlay(Sparse(Wanted(Cases(b))), defaults))
         == Overlay(Full(Wanted(Cases(a))), prior)
  {
    forall w: Webhook | w != Unsupported ensures w in Cases(a) <==> w in Cases(b) {
      CaseListed(a, w);
      CaseListed(b, w);
    }
    WantedSame(Cases(a), Cases(b));
    OverlayFull(Wanted(Cases(a)), prior);
    OverlayFull(Wanted(Cases(a)), defaults);
    OverlayFull(Wanted(Cases(a)), Overlay(Sparse(Wanted(Cases(b))), defaults));
  }

  // A freshly added hook has a flag exactly if its name is listed or GitLab enables it by default.
  lemma AddByName(eventTypes: seq<string>, defaults: Flags, w: Webhook)
    requires w != Unsupported
    ensures Flag(Overlay(Sparse(Wanted(Cases(eventTypes))), defaults), w)
       <==> NameOf(w) in eventTypes || Flag(defaults, w)
  {
    OverlaySparse(Wanted(Cases(eventTypes)), defaults, w);
    FlagWanted(Cases(eventTypes), w);
    CaseListed(eventTypes, w);
  }
  // What Edit makes of a hook, flag by flag.
  lemma FlagsByName(eventTypes: seq<string>, prior: Flags)
    ensures Overlay(Full(Wanted(Cases(eventTypes))), prior) == Flags(
      confidentialIssues := "confidential_issues_events" in eventTypes,
      confidentialNote := "confidential_note_events" in eventTypes,
      issues := "issues_events" in eventTypes,
      job := "job_events" in eventTypes,
      mergeRequests := "merge_requests_events" in eventTypes,
      note := "note_events" in eventTypes,
      pipeline := "pipeline_events" in eventTypes,
      push := "push_events" in eventTypes,
      tagPush := "tag_push_events" in eventTypes,
      wikiPage := "wiki_page_events" in eventTypes)
  {
    hide Full, Overlay, Wanted, Cases;
    EditByName(eventTypes, prior, ConfidentialIssues);
    EditByName(eventTypes, prior, ConfidentialNote);
    EditByName(eventTypes, prior, Issues);
    EditByName(eventTypes, prior, Job);
    EditByName(eventTypes, prior, MergeRequests);
    EditByName(eventTypes, prior, Note);
    EditByName(eventTypes, prior, Pipeline);
    EditByName(eventTypes, prior, Push);
    EditByName(eventTypes, prior, TagPush);
    EditByName(eventTypes, prior, WikiPage);
  }
}
