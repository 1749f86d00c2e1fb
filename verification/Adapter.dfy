// The receive adapter: from GitLab's webhook requests to CloudEvents.
module Adapter {
  import opened Sources
  import opened EventTypes
  import opened EventHeaders
  import WebhookOptions

  datatype CloudEvent = CloudEvent(eventType: string, source: string, header: string, data: string)

  datatype ParseError = BadMethod | BadToken | MissingHeader | Unreadable | Unparsable

  // What the adapter is built from. The webhook parser and the encoder of its
  // results are library code; either may refuse.
  datatype Config = Config(
    secret: string,
    source: string,
    parseWebhook: (string, string) -> Option<string>,
    encode: string -> Option<string>)

  // A request as it arrives; absent headers read as "".
  datatype Received = Received(method': string, token: string, event: string, body: Option<string>)

  // ---- What becomes of a request ----

  // unicode.IsSpace.
  predicate IsSpace(c: char) {
    c in {'\t', '\n', '\U{0B}', '\U{0C}', '\r', ' ', '\U{85}', '\U{A0}', '\U{1680}', '\U{2028}', '\U{2029}', '\U{202F}',
          '\U{205F}', '\U{3000}'}
    || '\U{2000}' <= c <= '\U{200A}'
  }

  predicate Blank(s: string) {
    forall i :: 0 <= i < |s| ==> IsSpace(s[i])
  }

  function Parsed(cfg: Config, q: Received): Result<string, ParseError> {
    if q.method' != "POST" then Err(BadMethod)
    else if cfg.secret != "" && q.token != cfg.secret then Err(BadToken)
    else if Blank(q.event) then Err(MissingHeader)
    else if q.body.None? || q.body.value == "" then Err(Unreadable)
    else
      var payload := cfg.parseWebhook(q.event, q.body.value);
      if payload.Some? then Ok(payload.value) else Err(Unparsable)
  }

  // The event a request amounts to, if any.
  function EventOf(cfg: Config, q: Received): Option<CloudEvent> {
    var payload := Parsed(cfg, q);
    if payload.Err? || TypeOfHeader(q.event) == "" then None
    else
      var data := cfg.encode(payload.value);
      if data.None? then None
      else Some(CloudEvent(GitLabEventType(TypeOfHeader(q.event)), cfg.source, q.event, data.value))
  }

  function Events(cfg: Config, qs: seq<Received>): seq<CloudEvent> {
    if qs == [] then []
    else
      var e := EventOf(cfg, qs[|qs| - 1]);
      Events(cfg, qs[..|qs| - 1]) + if e.Some? then [e.value] else []
  }

  // The answer to a request whose event, if any, is the n-th handed to the client.
  function StatusFor(cfg: Config, q: Received, acks: nat -> bool, n: nat): int {
    if Parsed(cfg, q).Err? then 400
    else if EventOf(cfg, q).Some? && acks(n) then 202
    else 500
  }

  // ---- The handler ----

  class Body {
    var unread: string
    var broken: bool
    var closed: bool

    ghost function Content(): Option<string>
      reads this
    {
      if broken then None else Some(unread)
    }

    method ReadAll() returns (data: Option<string>)
      modifies this`unread
      ensures data == old(Content()) && unread == ""
    {
      data := if broken then None else Some(unread);
      unread := "";
    }

    // What parse defers: the rest is discarded, if it can be read, and the body closed.
    method Discard()
      modifies this`unread, this`closed
      ensures closed && (!broken ==> unread == "")
    {
      if !broken { unread := ""; }
      closed := true;
    }
  }

  datatype Request = Request(method': string, token: string, event: string, body: Body) {
    ghost function View(): Received
      reads body
    {
      Received(method', token, event, body.Content())
    }
  }

  class ResponseWriter {
    var status: Option<int>
    var text: seq<string>

    // Only the first call counts.
    method WriteHeader(code: int)
      modifies this`status
      ensures status == if old(status).None? then Some(code) else old(status)
    {
      if status.None? { status := Some(code); }
    }

    method Print(s: string)
      modifies this`text
      ensures text == old(text) + [s]
    {
      text := text + [s];
    }
  }

  // The CloudEvents client; acks says which of the events handed to it are acknowledged.
  class Client {
    const acks: nat -> bool
    var sent: seq<CloudEvent>

    method Send(e: CloudEvent) returns (ack: bool)
      modifies this`sent
      ensures sent == old(sent) + [e] && ack == acks(|old(sent)|)
    {
      ack := acks(|sent|);
      sent := sent + [e];
    }
  }

  datatype Webhook = Webhook(cfg: Config, client: Client) {
    // The checks of parse, in order.
    method ParseBody(r: Request) returns (payload: Result<string, ParseError>)
      modifies r.body`unread
      ensures payload == Parsed(cfg, old(r.View())) && r.body.closed == old(r.body.closed)
    {
      if r.method' != "POST" { return Err(BadMethod); }
      if |cfg.secret| > 0 {
        var signature := r.token;
        if signature != cfg.secret { return Err(BadToken); }
      }
      if Blank(r.event) { return Err(MissingHeader); }
      var body := r.body.ReadAll();
      if body.None? || |body.value| == 0 { return Err(Unreadable); }
      var parsed := cfg.parseWebhook(r.event, body.value);
      payload := if parsed.Some? then Ok(parsed.value) else Err(Unparsable);
    }

    // parse; however it ends, the body is drained and closed.
    method Parse(r: Request) returns (payload: Result<string, ParseError>)
      modifies r.body`unread, r.body`closed
      ensures payload == Parsed(cfg, old(r.View()))
      ensures r.body.closed && (!r.body.broken ==> r.body.unread == "")
    {
      payload := ParseBody(r);
      r.body.Discard();
    }

    // handleEvent and postMessage.
    method HandleEvent(payload: string, header: string) returns (ok: bool)
      modifies client`sent
      ensures var data := cfg.encode(payload);
        if TypeOfHeader(header) == "" || data.None? then !ok && client.sent == old(client.sent)
        else
          && ok == client.acks(|old(client.sent)|)
          && client.sent == old(client.sent)
               + [CloudEvent(GitLabEventType(TypeOfHeader(header)), cfg.source, header, data.value)]
    {
      var eventType := TypeOfHeader(header);
      if eventType == "" { return false; }
      var data := cfg.encode(payload);
      if data.None? { return false; }
      ok := client.Send(CloudEvent(GitLabEventType(eventType), cfg.source, header, data.value));
    }

    method ServeHTTP(writer: ResponseWriter, request: Request)
      requires writer.status.None?
      modifies writer, request.body`unread, request.body`closed, client`sent
      ensures writer.status == Some(StatusFor(cfg, old(request.View()), client.acks, |old(client.sent)|))
      ensures client.sent == old(client.sent)
        + if EventOf(cfg, old(request.View())).Some? then [EventOf(cfg, old(request.View())).value] else []
      ensures request.body.closed && (!request.body.broken ==> request.body.unread == "")
      ensures writer.status == Some(202) <==> writer.text == old(writer.text)
    {
      var event := Parse(request);
      if event.Err? {
        writer.WriteHeader(400);
        writer.Print("could parse the webhook event");
        return;
      }
      var ok := HandleEvent(event.value, request.event);
      if !ok {
        writer.WriteHeader(500);
        writer.Print("error handling the event");
        return;
      }
      writer.WriteHeader(202);
    }
  }

  // ---- Many requests ----

  lemma EventsNext(cfg: Config, qs: seq<Received>, i: nat)
    requires i < |qs|
    ensures Events(cfg, qs[..i + 1])
         == Events(cfg, qs[..i]) + if EventOf(cfg, qs[i]).Some? then [EventOf(cfg, qs[i]).value] else []
  {
    assert qs[..i + 1][..i] == qs[..i];
  }

  lemma NoEvents(cfg: Config)
    ensures Events(cfg, []) == []
  {
  }

  // The answer to the i-th request, when the client had been handed `before` events at first.
  function StatusAt(cfg: Config, qs: seq<Received>, i: nat, acks: nat -> bool, before: nat): int
    requires i < |qs|
  {
    StatusFor(cfg, qs[i], acks, before + |Events(cfg, qs[..i])|)
  }

  // Requests served one after the other: the events handed to the client are
  // exactly those the requests amount to, in order, and a request is answered
  // 202 exactly if its own event was acknowledged.
  method ServeAll(hook: Webhook, writers: seq<ResponseWriter>, requests: seq<Request>) returns (ghost qs: seq<Received>)
    requires |writers| == |requests|
    requires forall i :: 0 <= i < |requests| ==> writers[i].status.None?
    requires forall i, j :: 0 <= i < j < |requests| ==> writers[i] != writers[j] && requests[i].body != requests[j].body
    modifies writers, set r | r in requests :: r.body, hook.client`sent
    ensures |qs| == |requests| && forall i :: 0 <= i < |qs| ==> qs[i] == old(requests[i].View())
    ensures hook.client.sent == old(hook.client.sent) + Events(hook.cfg, qs)
    ensures forall i :: 0 <= i < |qs| ==>
      writers[i].status == Some(StatusAt(hook.cfg, qs, i, hook.client.acks, |old(hook.client.sent)|))
  {
    hide Events, EventOf, StatusFor, Request.View;
    qs := seq(|requests|, i requires 0 <= i < |requests|
                            reads if 0 <= i < |requests| then {requests[i].body} else {} => requests[i].View());
    NoEvents(hook.cfg);
    for i := 0 to |requests|
      invariant forall k :: i <= k < |requests| ==> requests[k].View() == qs[k] && writers[k].status.None?
      invariant hook.client.sent == old(hook.client.sent) + Events(hook.cfg, qs[..i])
      invariant forall k :: 0 <= k < i ==>
        writers[k].status == Some(StatusAt(hook.cfg, qs, k, hook.client.acks, |old(hook.client.sent)|))
    {
      EventsNext(hook.cfg, qs, i);
      hook.ServeHTTP(writers[i], requests[i]);
    }
    assert qs[..|qs|] == qs;
  }

  // Of the ASCII characters only the blank and the five control characters from tab to carriage return are space.
  lemma BlankSays(s: string)
    requires forall i :: 0 <= i < |s| ==> s[i] < '\U{80}'
    ensures Blank(s) <==> forall i :: 0 <= i < |s| ==> s[i] == ' ' || '\t' <= s[i] <= '\r'
  {
  }

  // The checks of parse are made in this order, and the first that fails is the error.
  lemma FirstFailure(cfg: Config, q: Received)
    ensures var p := Parsed(cfg, q);
      var denied := cfg.secret != "" && q.token != cfg.secret;
      var unread := q.body.None? || q.body.value == "";
      && (p == Err(BadMethod) <==> q.method' != "POST")
      && (p == Err(BadToken) <==> q.method' == "POST" && denied)
      && (p == Err(MissingHeader) <==> q.method' == "POST" && !denied && Blank(q.event))
      && (p == Err(Unreadable) <==> q.method' == "POST" && !denied && !Blank(q.event) && unread)
      && (p == Err(Unparsable) ==> q.method' == "POST" && !denied && !Blank(q.event) && !unread)
      && (p.Ok? ==> q.body.Some? && cfg.parseWebhook(q.event, q.body.value) == Some(p.value))
  {
  }

  // 400 goes to what parse refuses, 202 to an event that was acknowledged, 500 to the rest.
  lemma StatusSays(cfg: Config, q: Received, acks: nat -> bool, n: nat)
    ensures var status := StatusFor(cfg, q, acks, n);
      && (status == 400 <==>
            || q.method' != "POST" || (cfg.secret != "" && q.token != cfg.secret) || Blank(q.event)
            || q.body.None? || q.body.value == "" || cfg.parseWebhook(q.event, q.body.value).None?)
      && (status == 202 <==> EventOf(cfg, q).Some? && acks(n))
      && status in {202, 400, 500}
  {
  }

  // A request amounts to an event exactly if it passes every check.
  lemma Accepted(cfg: Config, q: Received)
    ensures EventOf(cfg, q).Some? ==>
      var e := EventOf(cfg, q).value;
      && e.eventType == GitLabEventType(TypeOfHeader(q.event)) && e.source == cfg.source && e.header == q.event
      && Some(e.data) == cfg.encode(cfg.parseWebhook(q.event, q.body.value).value)
    ensures EventOf(cfg, q).Some? <==>
      && q.method' == "POST"
      && (cfg.secret == "" || q.token == cfg.secret)
      && !Blank(q.event)
      && q.body.Some? && q.body.value != ""
      && cfg.parseWebhook(q.event, q.body.value).Some?
      && HasSuffix(q.event, " Hook") && |q.event| > 5
      && cfg.encode(cfg.parseWebhook(q.event, q.body.value).value).Some?
  {
  }
  // ---- Against what the source advertises ----

  // The header GitLab sends with the requests of each webhook.
  const HEADERS: map<string, string> := map[
    "confidential_issues_events" := "Confidential Issue Hook",
    "confidential_note_events" := "Confidential Note Hook",
    "deployment_events" := "Deployment Hook",
    "issues_events" := "Issue Hook",
    "job_events" := "Job Hook",
    "merge_requests_events" := "Merge Request Hook",
    "note_events" := "Note Hook",
    "pipeline_events" := "Pipeline Hook",
    "push_events" := "Push Hook",
    "tag_push_events" := "Tag Push Hook",
    "wiki_page_events" := "Wiki Page Hook"]

  lemma Reads(h: string, t: string)
    requires |h| == |t| && forall i :: 0 <= i < |h| ==> t[i] == LowerChar(if h[i] == ' ' then '_' else h[i])
    ensures TypeOfHeader(h + " Hook") == t
  {
    SuffixTrimmed(h);
  }

  // The types of the events the adapter makes of them.
  lemma EmittedShort()
    ensures TypeOfHeader("Deployment Hook") == "deployment"
    ensures TypeOfHeader("Issue Hook") == "issue"
    ensures TypeOfHeader("Job Hook") == "job"
    ensures TypeOfHeader("Note Hook") == "note"
    ensures TypeOfHeader("Pipeline Hook") == "pipeline"
    ensures TypeOfHeader("Push Hook") == "push"
  {
    hide TypeOfHeader;
    Reads("Deployment", "deployment");
    Reads("Issue", "issue");
    Reads("Job", "job");
    Reads("Note", "note");
    Reads("Pipeline", "pipeline");
    Reads("Push", "push");
    assert "Deployment" + " Hook" == "Deployment Hook" && "Issue" + " Hook" == "Issue Hook";
    assert "Job" + " Hook" == "Job Hook" && "Note" + " Hook" == "Note Hook";
    assert "Pipeline" + " Hook" == "Pipeline Hook" && "Push" + " Hook" == "Push Hook";
  }

  lemma EmittedLong()
    ensures TypeOfHeader("Merge Request Hook") == "merge_request"
    ensures TypeOfHeader("Tag Push Hook") == "tag_push"
    ensures TypeOfHeader("Wiki Page Hook") == "wiki_page"
    ensures TypeOfHeader("Confidential Issue Hook") == "confidential_issue"
    ensures TypeOfHeader("Confidential Note Hook") == "confidential_note"
  {
    hide TypeOfHeader;
    Reads("Merge Request", "merge_request");
    Reads("Tag Push", "tag_push");
    Reads("Wiki Page", "wiki_page");
    Reads("Confidential Issue", "confidential_issue");
    Reads("Confidential Note", "confidential_note");
    assert "Merge Request" + " Hook" == "Merge Request Hook" && "Tag Push" + " Hook" == "Tag Push Hook";
    assert "Wiki Page" + " Hook" == "Wiki Page Hook" && "Confidential Issue" + " Hook" == "Confidential Issue Hook";
    assert "Confidential Note" + " Hook" == "Confidential Note Hook";
  }

  // A webhook's events carry the type its name is advertised as, except those
  // of the two confidential webhooks and of jobs.
  lemma EmittedAsAdvertised(name: string)
    requires name in HEADERS
    ensures TypeOfHeader(HEADERS[name]) == EventTypeForWebhook(name) <==>
      name !in {"confidential_issues_events", "confidential_note_events", "job_events"}
    ensures GitLabEventType(TypeOfHeader(HEADERS[name])) == GitLabEventType(EventTypeForWebhook(name)) <==>
      TypeOfHeader(HEADERS[name]) == EventTypeForWebhook(name)
  {
    hide TypeOfHeader;
    EmittedShort();
    EmittedLong();
    if GitLabEventType(TypeOfHeader(HEADERS[name])) == GitLabEventType(EventTypeForWebhook(name)) {
      PrefixInjective(TypeOfHeader(HEADERS[name]), EventTypeForWebhook(name));
    }
  }

  // Deployments are advertised, but no flag of a hook asks GitLab for them.
  lemma AdvertisedOnly(name: string)
    ensures name in TYPES && WebhookOptions.Case(name).Unsupported? <==> name == "deployment_events"
  {
  }
}
