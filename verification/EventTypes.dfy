// The event types a GitLabSource advertises.
module EventTypes {
  import opened Strings

  const PREFIX := "dev.knative.sources.gitlab."

  // The object kind each webhook emits; "" for an unknown webhook name.
  const TYPES: map<string, string> := map[
    "confidential_issues_events" := "issue",
    "confidential_note_events" := "note",
    "deployment_events" := "deployment",
    "issues_events" := "issue",
    "job_events" := "build",
    "merge_requests_events" := "merge_request",
    "note_events" := "note",
    "pipeline_events" := "pipeline",
    "push_events" := "push",
    "tag_push_events" := "tag_push",
    "wiki_page_events" := "wiki_page"]

  function EventTypeForWebhook(name: string): string {
    if name in TYPES then TYPES[name] else ""
  }

  function GitLabEventType(eventType: string): string {
    PREFIX + eventType
  }

  // The full names, one by one; unknown webhooks share the bare prefix.
  lemma AdvertisedAs(name: string)
    ensures GitLabEventType(EventTypeForWebhook(name)) == "dev.knative.sources.gitlab." + (
      if name in {"confidential_issues_events", "issues_events"} then "issue"
      else if name in {"confidential_note_events", "note_events"} then "note"
      else if name == "deployment_events" then "deployment"
      else if name == "job_events" then "build"
      else if name == "merge_requests_events" then "merge_request"
      else if name == "pipeline_events" then "pipeline"
      else if name == "push_events" then "push"
      else if name == "tag_push_events" then "tag_push"
      else if name == "wiki_page_events" then "wiki_page"
      else "")
  {
  }

  // The prefixed image of the configured webhooks.
  ghost function Advertised(names: seq<string>): set<string> {
    set n | n in names :: GitLabEventType(EventTypeForWebhook(n))
  }

  // What a list of webhook names is advertised as.
  ghost predicate Advertises(types: seq<string>, names: seq<string>) {
    StrictlySorted(types) && Elements(types) == Advertised(names)
  }

  // The one listing of what a list of webhook names is advertised as.
  ghost function Listing(names: seq<string>): seq<string> {
    if names == [] then []
    else Insert(GitLabEventType(EventTypeForWebhook(names[0])), Listing(names[1..]))
  }

  lemma {:induction false} ListingAdvertises(names: seq<string>)
    ensures Advertises(Listing(names), names)
  {
    if names != [] {
      var first := GitLabEventType(EventTypeForWebhook(names[0]));
      ListingAdvertises(names[1..]);
      InsertSorted(first, Listing(names[1..]));
      assert names == [names[0]] + names[1..];
      assert Advertised(names) == Advertised(names[1..]) + {first};
    }
  }

  lemma PrefixInjective(a: string, b: string)
    requires GitLabEventType(a) == GitLabEventType(b)
    ensures a == b
  {
    assert GitLabEventType(a)[|PREFIX|..] == a && GitLabEventType(b)[|PREFIX|..] == b;
  }

  // sort.Strings, on values that differ.
  method SortStrings(s: seq<string>) returns (r: seq<string>)
    requires Distinct(s)
    ensures StrictlySorted(r) && Elements(r) == Elements(s)
  {
    r := SortedSet(s);
    SortedSetCorrect(s);
  }

  // The set is drained in whatever order map iteration gives.
  method EventTypes(names: seq<string>) returns (types: seq<string>)
    ensures types == Listing(names) && Advertises(types, names)
  {
    var uniqueTypes: set<string> := {};
    for i := 0 to |names|
      invariant uniqueTypes == set n | n in names[..i] :: EventTypeForWebhook(n)
    {
      assert names[..i + 1] == names[..i] + [names[i]];
      uniqueTypes := uniqueTypes + {EventTypeForWebhook(names[i])};
    }
    assert names[..|names|] == names;
    types := [];
    var rest := uniqueTypes;
    while rest != {}
      invariant rest <= uniqueTypes
      invariant Elements(types) == set t | t in uniqueTypes - rest :: GitLabEventType(t)
      invariant Distinct(types)
      decreases rest
    {
      var typ :| typ in rest;
      assert Elements(types + [GitLabEventType(typ)]) == Elements(types) + {GitLabEventType(typ)};
      if GitLabEventType(typ) in types {
        assert GitLabEventType(typ) in Elements(types);
        var t :| t in uniqueTypes - rest && GitLabEventType(t) == GitLabEventType(typ);
        PrefixInjective(t, typ);
        assert false;
      }
      assert uniqueTypes - (rest - {typ}) == (uniqueTypes - rest) + {typ};
      types := types + [GitLabEventType(typ)];
      rest := rest - {typ};
    }
    assert Elements(types) == Advertised(names) by {
      assert uniqueTypes - {} == uniqueTypes;
    }
    types := SortStrings(types);
    ListingAdvertises(names);
    SortedUnique(types, Listing(names));
  }

  // Lists naming the same webhooks, in any order and with any repetition, are
  // advertised alike; nothing about map iteration shows in the result.
  lemma AdvertisedOnce(a: seq<string>, b: seq<string>, types: seq<string>, types': seq<string>)
    requires Elements(a) == Elements(b)
    requires Advertises(types, a) && Advertises(types', b)
    ensures types == types'
    ensures types == Listing(a) && Listing(a) == Listing(b)
  {
    assert forall n :: n in a <==> n in Elements(a);
    assert forall n :: n in b <==> n in Elements(b);
    assert Advertised(a) == Advertised(b);
    SortedUnique(types, types');
    ListingAdvertises(a);
    ListingAdvertises(b);
    SortedUnique(types, Listing(a));
    SortedUnique(types, Listing(b));
  }
}
