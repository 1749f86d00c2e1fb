# A model of the GitLab source controller and its surroundings

A `GitLabSource` asks for one webhook on one GitLab project and one adapter
Service that turns the webhook's requests into CloudEvents. This project models
the controller that keeps the three in step, and proves what it keeps over
every run: against an API server that other actors write to at any moment, a
lister whose copy may be old, a GitLab whose hooks others delete and edit, calls
that fail or lose their answer, and process restarts. Around it stand the pod
mutation of `GitLabBinding`, the informer factory, the secret getter, the
webhook option folding, the advertised event types and the receive adapter.

`dafny verify dfyconfig.toml` checks everything.

## How the model is built

* `Protocol.dfy` is the step system. Its state is every version ever stored of
  the object, the lister's position in them, GitLab's hooks, the owned Services
  and what the run in progress has done; its actions are the effects other
  writers, the world and the controller can have. `Conservation.dfy` proves one
  invariant of it, action by action; `Theorems.dfy` reads the results off.
* `Controller.dfy` is the code: `ReconcileKind`, `FinalizeKind`, `syncWebhook`
  and the generated `Reconcile` around them, as methods on heap objects
  (`Objects.dfy`). They talk to a `Cluster` (`Cluster.dfy`), whose script says
  what others do between any two calls and how each call is answered; it is
  arbitrary. Every effect is an enabled action of the step system, so the
  theorems hold of the code: `Controllers.Serve` says so for any number of runs
  and of restarts between them. A process that dies in the middle of a run is an
  action of the step system, not a path of the code.
* With an empty script every method also equates its result with a function of
  the state it started from (`Calm.dfy`), whether nothing fails or one lasting
  outage does: status writes are refused, answers of GitLab are lost, or the
  token cannot be read. `Convergence.dfy` and `Outcomes.dfy` prove where those
  functions lead, and `Settling.dfy` carries it back to the code.
* `SingleHook.dfy` adds what holds with the vendored client, and `OwnHooks.dfy`
  whose hooks are edited and deleted.
* `Witnesses.dfy` starts from any fresh object and calls the code itself, with
  single steps of others between two calls: it shows that each failure described
  below occurs, and that the main results' conditions can be met.
* `Finalizers.dfy`, `WebhookOptions.dfy`, `EventTypes.dfy`, `ManagedLists.dfy`
  and `Binding.dfy`, `InformerFactory.dfy`, `SecretCache.dfy`,
  `EventHeaders.dfy` and `Adapter.dfy` hold one component each.

## Assumptions

One leader and one worker per key. GitLab answers 404 exactly for hooks that do
not exist and never reuses a hook id within a project; the API server checks the
resource version of every write. Other writers leave the controller's own
finalizer alone, and nobody but the controller creates Services that name the
source as their controller. Library code has the contract its callers rely on:
the condition manager as read from `vendor/knative.dev/pkg/apis/condition_set.go`,
the sink resolver, the webhook parser and the encoder as arbitrary functions.

## What the proofs found

* **A recorded hook that no longer exists is never replaced.** The GitLab client
  reports status 404 as its `ErrNotFound` value, not as an `*ErrorResponse`
  (`vendor/gitlab.com/gitlab-org/api/client-go/gitlab.go:1041-1047`), so
  `isHookNotFound` never recognises it and the branch of `syncWebhook` that adds
  a hook anew is not reached. How the client reports 404 is a constant of the
  model's state, `sentinel`; the vendored client is the case where it is true.
  There undisturbed runs converge exactly if no hook is recorded or the recorded
  one exists (`Convergence.ConvergesIff`); otherwise every run stops with
  `WebhookConfigured` False (`Convergence.StaysBroken`). `Witnesses.LoseHook`
  gets there from any fresh object: two calls record the hook, someone deletes
  it, and no number of further calls brings it back; with a client that reports
  404 like any other status two do.
* **Deletion finishes exactly if no hook is recorded or the recorded one
  exists,** with either client. `FinalizeKind` returns the error of a failed
  delete, a 404 included, and the finalizer then stays (`Convergence.Finalized`,
  `Convergence.NeverFinalized`, and from a fresh object `Witnesses.NeverDeleted`).
* **Which runs fail,** and so are tried again. An undisturbed run fails exactly if
  the recorded hook is missing and the client's 404 is not recognised
  (`Outcomes.RoundFails`), on an object being deleted exactly if it is missing
  (`Outcomes.FinalizationFails`), while status writes are refused exactly if there
  is a new status to store (`Outcomes.RefusedFails`), and while answers are lost
  exactly if it asks for a hook (`Outcomes.UnansweredFails`). A run that loses a
  hook to a stale copy, or gives one up, does not fail (`Witnesses.StaleRun`,
  `GaveUp`). Whatever happens around it, a run that does not fail has its
  finalizer in place or has dealt with it, and the status it left was the lister's
  already or was stored during the call (`Controllers.Reconcile`).
* **Finalization gives up only if** the read of the token is answered with 404 or
  401 (`Controllers.FinalizeKind`, `Theorems.GivesUpOnlyDenied`).
* **Three webhooks emit other types than they are advertised as:** the two
  confidential ones and jobs, whose headers read back as `confidential_issue`,
  `confidential_note` and `job` (`Adapter.EmittedAsAdvertised`). Deployments are
  advertised, but no flag the client sends asks for them
  (`Adapter.AdvertisedOnly`).
* **How hooks lose their record.** In five ways, each shown by calls of the code
  on a fresh object that lose a hook to it alone: a status write that fails
  after an add, an answer to an add that never arrives, a run from a stale copy,
  a change of the project URL, and a finalization that gives up
  (`Witnesses.LostWrite`, `LostReply`, `StaleRun`, `MovedAway`, `GaveUp`).
  With the vendored client no other way exists, and the last two together cost
  one hook at most: the hooks without a record are at most the failed writes,
  lost answers and stale runs, plus one if the URL changed or finalization gave
  up (`SingleHook.HooksConservedTightly`). For any client
  `Theorems.HooksConserved` also counts the URL changes a restarted lister goes
  back over. That term is needed there (`Witnesses.ForgottenNeeded`), but only
  because a missing hook can then be replaced.
* **After a change of the project URL the recorded id may be a stranger's.** The
  controller edits and deletes hooks of its own whenever the URL of the run's
  copy is that of the project the recorded id was obtained for
  (`OwnHooks.OwnHooksOnly`), which holds up to the first change of the URL
  (`OwnHooks.HomeAtFirst`). After a change nothing protects a stranger who holds
  the recorded id in the new project: one call overwrites their hook with the
  source's settings (`Outcomes.StrangersHookOverwritten`,
  `Settling.RunOverStranger`), and if the source is being deleted it deletes
  their hook (`Outcomes.StrangersHookDeleted`, `Settling.RunFinalOverStranger`).
  Both happen to a fresh object (`Witnesses.StrangersHook`,
  `Witnesses.StrangersHookGone`).
* `isDenied` in `FinalizeKind` looks at the error of the client getter, which
  makes no request to GitLab; the model lets the getter return such an error all
  the same.
* After the finalizer is gone while another finalizer holds the object, the
  status still names the deleted hook: the object returned by the finalizer
  patch replaces the one whose `WebhookID` had been cleared.

## Model

| member | source | states |
|---|---|---|
| Theorems.HooksConserved | pkg/reconciler/source/gitlabsource.go:142-204 | in every reachable state, the hooks of this source that exist, are not the recorded one and are not about to be recorded never outnumber the counted losses and project URL changes |
| Theorems.OneRecordedHook | pkg/reconciler/source/gitlabsource.go:63-102 | with nothing of the kind counted there is at most one hook between runs, and it is the recorded one |
| Theorems.NoHookOutlivesSource | pkg/reconciler/source/gitlabsource.go:104-139 | once the object is gone its remaining hooks are within the counted losses; without losses there is none |
| Theorems.AddsUnderFinalizer | pkg/client/injection/reconciler/sources/v1alpha1/gitlabsource/reconciler.go:245-258 | a run that began from the current version adds a hook only while the stored object carries the finalizer |
| Theorems.FinalizerRemoval | pkg/client/injection/reconciler/sources/v1alpha1/gitlabsource/reconciler.go:445-533 | whatever removes the finalizer is a patch by a run that was not stale, decided on the current object, marked for deletion, that had deleted the recorded hook, if any, or whose read of the token was answered 404 or 401 |
| Theorems.GivesUpOnlyDenied | pkg/reconciler/source/gitlabsource.go:112-126 | in every reachable state a finalization that gave up had its read of the token answered 404 or 401 |
| Theorems.StatusWriteKeepsTheRest | pkg/client/injection/reconciler/sources/v1alpha1/gitlabsource/reconciler.go:357-362 | a status write that applies changes the status of the current version and nothing else, though it submits the whole object as read |
| Theorems.StatusesTruthful | pkg/reconciler/source/gitlabsource.go:63-102 | every stored status of an object not being deleted: WebhookConfigured True implies a recorded non-negative id, SinkProvided True a sink URI, Ready True exactly all three True |
| Theorems.OneAdapter | pkg/reconciler/source/gitlabsource.go:218-233 | a source never controls two Services, and creates are at most one more than the Services others removed |
| SingleHook.HooksConservedTightly | pkg/reconciler/source/gitlabsource.go:142-204 | with the vendored client, the hooks without a record are at most the failed writes, lost answers and stale runs, plus one if the URL changed or finalization gave up |
| SingleHook.FewHooks | pkg/reconciler/source/gitlabsource.go:161-195 | with the vendored client, at most one hook beyond those, whatever the URL, the lister and finalization do, and none while none is recorded and one could be added |
| SingleHook.FewStep | pkg/reconciler/source/gitlabsource.go:63-204 | every enabled action of anybody keeps that account |
| OwnHooks.OwnHooksOnly | pkg/reconciler/source/gitlabsource.go:132-203 | whenever the URL of the run's copy is that of the project its recorded id was obtained for, the hook it edits or deletes is one this controller created, however the URL changed before or between |
| OwnHooks.HomeAtFirst | pkg/reconciler/source/gitlabsource.go:132-203 | up to the first change of the URL that is always so |
| OwnHooks.EveryStateLogged | pkg/reconciler/source/gitlabsource.go:63-204 | in every reachable state each stored version has such a project |
| Outcomes.StrangersHookOverwritten | pkg/reconciler/source/gitlabsource.go:197-203 | whenever the recorded id stands for a key nobody holds and a stranger is given it, one undisturbed run leaves their hook with exactly the settings this source asks for |
| Outcomes.StrangersHookDeleted | pkg/reconciler/source/gitlabsource.go:132-138 | if the source is being deleted, one undisturbed run deletes their hook |
| Outcomes.EditingRound | pkg/reconciler/source/gitlabsource.go:197-203 | one undisturbed run on a recorded hook that exists changes that hook to the wanted one, and no other |
| Outcomes.FirstRun | pkg/reconciler/source/gitlabsource.go:74-91 | the first run of a source puts the finalizer in place, creates the adapter, and asks for no hook |
| Outcomes.RecordingRun | pkg/reconciler/source/gitlabsource.go:142-204 | a run with a ready adapter and no recorded hook, or one it can tell is missing, adds exactly one hook and records its id; that hook has the spec's URL and SSL setting and exactly the listed flags besides those GitLab enables on its own |
| Outcomes.StaleRun | pkg/client/injection/reconciler/sources/v1alpha1/gitlabsource/reconciler.go:219-237 | a run from an older copy that names no hook adds one and replaces whatever was recorded |
| Outcomes.RoundFails | pkg/client/injection/reconciler/sources/v1alpha1/gitlabsource/reconciler.go:309-326 | without an outage a run fails exactly if the recorded hook is missing and cannot be told to be |
| Outcomes.FinalizationFails | pkg/client/injection/reconciler/sources/v1alpha1/gitlabsource/reconciler.go:264-271 | on an object being deleted it fails exactly if the recorded hook is missing |
| Outcomes.RefusedFails | pkg/client/injection/reconciler/sources/v1alpha1/gitlabsource/reconciler.go:293-299 | while status writes are refused, a run whose recorded hook is there, if any, fails exactly if the status is not yet the one it should be |
| Outcomes.UnansweredFails | pkg/reconciler/source/gitlabsource.go:161-188 | while the answers to adds are lost, a run fails exactly if no hook is recorded or the recorded one is missing |
| Outcomes.CredentialsPass | pkg/reconciler/source/gitlabsource.go:146-150 | a missing Secret fails no run |
| Witnesses.Deploy | pkg/reconciler/source/gitlabsource.go:63-91 | the code run once on any fresh object; once the adapter is ready the conditions of the convergence results hold |
| Witnesses.Record | pkg/reconciler/source/gitlabsource.go:63-102 | after a second call a hook exists and its id is recorded, with nothing lost |
| Witnesses.LostWrite | pkg/client/injection/reconciler/sources/v1alpha1/gitlabsource/reconciler.go:293-299 | the code, run on any fresh object while status writes fail, fails, and loses exactly the hook it adds, to that alone |
| Witnesses.LostReply | pkg/client/gitlab/webhook_client.go:110-117 | the same while answers to requests for hooks are lost; the run fails |
| Witnesses.StaleRun | pkg/client/injection/reconciler/sources/v1alpha1/gitlabsource/reconciler.go:219-237 | a further call before the lister has seen the record replaces it without failing, and only that hook is lost |
| Witnesses.MovedAway | pkg/reconciler/source/gitlabsource.go:142-204 | a change of the project URL alone leaves the old project's hook behind |
| Witnesses.GaveUp | pkg/reconciler/source/gitlabsource.go:112-126 | a call that finalizes without the token does not fail, leaves the hook behind and, with no other finalizer, lets the object go |
| Witnesses.ForgottenNeeded | pkg/reconciler/source/gitlabsource.go:177-188 | with a client whose 404 is recognised and a GitLab that has given out no id, calls around a URL change and a restart leave three hooks without a record of which the other losses account for two |
| Witnesses.StrangersHook | pkg/reconciler/source/gitlabsource.go:197-203 | calls on a fresh object in a GitLab that has given out no id, a URL change between them, after which a hook the controller never created has the settings this source asks for |
| Witnesses.StrangersHookGone | pkg/reconciler/source/gitlabsource.go:132-138 | the same with the source deleted: a hook given to somebody else is gone |
| Witnesses.LoseHook | pkg/reconciler/source/gitlabsource.go:175-195 | calls on any fresh object, whose recorded hook someone deletes: with the vendored client every further call fails and none configures the webhook, with a client whose 404 is recognised two do |
| Witnesses.NeverDeleted | pkg/reconciler/source/gitlabsource.go:132-134 | if the source is then deleted, every call fails and none lets it go |
| Conservation.InvStep | pkg/reconciler/source/gitlabsource.go:63-204 | every enabled action of anybody preserves the account of hooks, Services and statuses |
| Conservation.InvReachable | pkg/reconciler/source/gitlabsource.go:63-204 | the account holds in every reachable state |
| Finalizers.SetThenClear | pkg/client/injection/reconciler/sources/v1alpha1/gitlabsource/reconciler.go:445-533 | setting then clearing keeps every other finalizer as a set, and neither has anything to do a second time, for any list with any repeats |
| Finalizers.OwnNameOnly | pkg/client/injection/reconciler/sources/v1alpha1/gitlabsource/reconciler.go:454-469 | each operation changes only the controller's own name |
| Finalizers.OwnPartOnly | pkg/client/injection/reconciler/sources/v1alpha1/gitlabsource/reconciler.go:332-497 | no step of the controller changes the stored spec, generation, deletion mark or other finalizers, and only a status write changes the status |
| Convergence.Converges | pkg/reconciler/source/gitlabsource.go:63-102 | from any state with an adapter in place in which the recorded hook, if any, exists or is recognised as missing, two undisturbed runs bring the hook to exactly what the spec asks for, and every further run changes nothing at all |
| Convergence.InPlaceSays | pkg/reconciler/source/gitlabsource.go:197-203 | the hook that is then in place, field by field: URL, SSL setting, each flag on exactly if its name is listed |
| Convergence.TargetSays | pkg/reconciler/source/gitlabsource.go:63-102 | the status that is then stored, field by field: each condition, the resolved sink, the id, the generation, and attributes with the project as their source whose types are strictly sorted and exactly the advertised ones |
| Convergence.FirstRound | pkg/reconciler/source/gitlabsource.go:63-102 | one such run puts finalizer, hook and status in place |
| Convergence.NextRound | pkg/reconciler/source/gitlabsource.go:197-203 | from there on a run changes at most the hook, to what the spec asks for |
| Convergence.StaysBroken | pkg/reconciler/source/gitlabsource.go:175-195 | with a missing recorded hook no number of runs changes any hook, and WebhookConfigured is False |
| Convergence.ConvergesIff | pkg/reconciler/source/gitlabsource.go:142-204 | the runs ever lead to the wanted hook exactly if no hook was recorded, the recorded one existed, or the client's 404 is recognised |
| Convergence.DeletedHookStays | pkg/reconciler/source/gitlabsource.go:175-195 | with the vendored client, deleting the recorded hook stops a healthy source for good |
| Convergence.LaggingRound | pkg/client/injection/reconciler/sources/v1alpha1/gitlabsource/reconciler.go:219-300 | one undisturbed run on an older version that names the same project, whose own and whose latest recorded hooks exist, leads to a state from which two more runs converge |
| Convergence.Finalized | pkg/reconciler/source/gitlabsource.go:104-139 | one undisturbed run on an object being deleted removes the finalizer exactly if no hook is recorded or the recorded one exists, deletes the hook, and removes the object exactly if no other finalizer was left |
| Convergence.NeverFinalized | pkg/reconciler/source/gitlabsource.go:132-134 | otherwise no number of runs changes anything |
| Settling.RunRounds | pkg/client/injection/reconciler/sources/v1alpha1/gitlabsource/reconciler.go:188-330 | the code itself, run n times undisturbed, ends where the functions say: the hook in place after two runs and no call failing, or never and every call failing |
| Settling.RunOnce | pkg/client/injection/reconciler/sources/v1alpha1/gitlabsource/reconciler.go:188-330 | one undisturbed call of Reconcile by the leader, whatever the lister holds and whichever outage lasts, is the calm run and fails exactly when that does |
| Settling.RunRound | pkg/client/injection/reconciler/sources/v1alpha1/gitlabsource/reconciler.go:188-330 | one undisturbed call of Reconcile, after which the lister catches up, is one round of those functions, and fails exactly if the state was not recoverable |
| Settling.RunFinal | pkg/client/injection/reconciler/sources/v1alpha1/gitlabsource/reconciler.go:264-271 | the code itself, run once undisturbed on an object being deleted: the finalizer goes exactly if no hook is recorded or the recorded one exists, else nothing changes and the call fails |
| Settling.RunFinals | pkg/reconciler/source/gitlabsource.go:132-134 | the code itself on an object being deleted whose recorded hook is missing: any number of calls changes nothing, and each fails |
| Settling.RunLagging | pkg/client/injection/reconciler/sources/v1alpha1/gitlabsource/reconciler.go:188-330 | the code itself on an older version the lister still holds |
| Settling.RunOverStranger | pkg/reconciler/source/gitlabsource.go:197-203 | the code itself: one call overwrites a stranger's hook |
| Settling.RunFinalOverStranger | pkg/reconciler/source/gitlabsource.go:132-138 | the code itself: one call on an object being deleted deletes a stranger's hook |
| Controllers.Serve | pkg/client/injection/reconciler/sources/v1alpha1/gitlabsource/reconciler.go:188-330 | any number of calls of Reconcile, with others moving at any time and restarts between calls: the state stays reachable, the hooks stay within every bound, also once the object is gone, at most one Service is controlled, and the stored status tells the truth |
| Controllers.Reconcile | pkg/client/injection/reconciler/sources/v1alpha1/gitlabsource/reconciler.go:188-330 | modifies nothing but the cluster, hence not the lister's object; does nothing unless leader; undisturbed, on the current version or one that needs no patch, it has exactly the calm run's effect, deletion included, and fails exactly when that run does; whatever happens around it, unless it fails the finalizer was seen to and the status left was the lister's or was stored during the call |
| Controllers.ConcludedRecords | pkg/client/injection/reconciler/sources/v1alpha1/gitlabsource/reconciler.go:293-326 | a run that did not fail left a status that names the hook it added |
| Controllers.Work | pkg/client/injection/reconciler/sources/v1alpha1/gitlabsource/reconciler.go:239-300 | from the choice of method to the end of the run, on the deep copy, and its answer |
| Controllers.DoReconcile | pkg/client/injection/reconciler/sources/v1alpha1/gitlabsource/reconciler.go:245-262 | the finalizer first, then the kind; the status left is one the protocol allows to be written |
| Controllers.DoFinalize | pkg/client/injection/reconciler/sources/v1alpha1/gitlabsource/reconciler.go:264-271 | finalization and the finalizer's removal; the status left is one the protocol allows to be written |
| Controllers.SetFinalizerIfFinalizer | pkg/client/injection/reconciler/sources/v1alpha1/gitlabsource/reconciler.go:499-513 | on success the resource is the stored version the run goes on with, and it carries the finalizer unless it is being deleted |
| Controllers.ClearFinalizer | pkg/client/injection/reconciler/sources/v1alpha1/gitlabsource/reconciler.go:515-561 | an event that is not clean changes nothing; success without a patch on an object that needed one means the object is gone |
| Controllers.UpdateFinalizersFilteredMergePatch | pkg/client/injection/reconciler/sources/v1alpha1/gitlabsource/reconciler.go:445-497 | no patch if the own finalizer already is as desired, else exactly the list with it appended or taken out, on the version read |
| Controllers.ListWithout | pkg/client/injection/reconciler/sources/v1alpha1/gitlabsource/reconciler.go:466-469 | the sorted list of the other finalizers, however the set is iterated |
| Controllers.UpdateStatus | pkg/client/injection/reconciler/sources/v1alpha1/gitlabsource/reconciler.go:332-364 | if it succeeds, the stored status was the desired one at some moment in the call, for any number of conflicts; a first attempt on the current version costs one call |
| Controllers.TryStatus | pkg/client/injection/reconciler/sources/v1alpha1/gitlabsource/reconciler.go:346-362 | one attempt: nothing to write, or the desired status stored on the version it was read at |
| Controllers.RetryStatus | pkg/client/injection/reconciler/sources/v1alpha1/gitlabsource/reconciler.go:336-344 | a later attempt on the object as fetched |
| Controllers.SyncStatus | pkg/client/injection/reconciler/sources/v1alpha1/gitlabsource/reconciler.go:279-300 | no write if the run left the status as the lister had it |
| Controllers.ProcessKind | pkg/client/injection/reconciler/sources/v1alpha1/gitlabsource/reconciler.go:252-262 | the status after pre-processing, the kind and post-processing tells the truth and records the run's hook |
| Controllers.ReconcileKind | pkg/reconciler/source/gitlabsource.go:63-102 | through every early return and failure the status tells the truth and names the hook just added, or the one recorded before; an answer other than nil shows in a condition, and undisturbed it fails the run exactly if syncWebhook stops with an error |
| Controllers.ReconcileSink | pkg/reconciler/source/gitlabsource.go:64-72 | the attributes, each with the project as its source, their types strictly sorted and exactly the advertised ones; and exactly the sink condition each outcome of the resolver leads to, for the sink in the object's own namespace |
| Controllers.ReconcileDeployed | pkg/reconciler/source/gitlabsource.go:74-91 | exactly the Deployed condition each state of the adapter leads to; it goes on only with the URL of a ready one, and nil only with a Service in place |
| Controllers.ReconcileWebhook | pkg/reconciler/source/gitlabsource.go:93-102 | the id recorded and WebhookConfigured True on success, when the hook has the spec's settings, the condition False and the id kept on failure |
| Controllers.SyncWebhook | pkg/reconciler/source/gitlabsource.go:142-204 | the answer is the id of the hook this run added, or the recorded one, and at that moment that hook has the spec's URL and SSL setting and the listed flags (an added one also those GitLab enables on its own); on failure nothing was recorded as added and the condition is False; a token that cannot be read fails the run unless its Secret is missing |
| Controllers.SyncRecorded | pkg/reconciler/source/gitlabsource.go:175-204 | the part that starts from a recorded hook |
| Controllers.LookUp | pkg/reconciler/source/gitlabsource.go:175-195 | a hook counts as there only if it is, and as missing only if GitLab said so and the client's 404 is recognised; with the vendored client a missing hook is an error |
| Controllers.FinalizeKind | pkg/reconciler/source/gitlabsource.go:104-139 | nil only once nothing is left to do for the recorded hook; it gives up exactly if the read of the token was answered 404 or 401, and any other failed read is a Warning that leaves the hook; the id is cleared only after that very hook was deleted |
| Controllers.ResolveSinkURL | pkg/reconciler/source/gitlabsource.go:207-215 | fills an empty namespace in through the object's own pointer, and resolves that |
| Controllers.ReconcileAdapter | pkg/reconciler/source/gitlabsource.go:218-233 | an owned Service, created only after a listing without one |
| Controllers.GetOwnedKnativeService | pkg/reconciler/source/gitlabsource.go:293-308 | the first owned Service, unchanged; NotFound only if none was listed |
| Controllers.CreateCloudEventAttributes | pkg/reconciler/source/gitlabsource.go:312-323 | one attribute per event type, in order, with that type and the given source |
| Controllers.AddWebhook | pkg/client/gitlab/webhook_client.go:74-117 | an id only with a hook in the spec's project that has the spec's URL and SSL setting and the listed flags on top of GitLab's defaults |
| Controllers.EditWebhook | pkg/client/gitlab/webhook_client.go:120-173 | success means the recorded hook has the spec's URL and SSL setting and exactly the listed flags |
| Clusters.MissingHookRecognised | vendor/gitlab.com/gitlab-org/api/client-go/gitlab.go:1041-1047 | the controller's test for a missing hook passes for status 404 of a client without the sentinel, and for nothing the vendored client reports |
| Clusters.Cluster.PatchFinalizers | pkg/client/injection/reconciler/sources/v1alpha1/gitlabsource/reconciler.go:471-486 | a merge patch applies to the version it names or not at all |
| Clusters.Cluster.UpdateStatus | pkg/client/injection/reconciler/sources/v1alpha1/gitlabsource/reconciler.go:359-362 | a write is stored only on the version it was read at; success means it is the stored status |
| Objects.GitLabSource.DeepCopy | pkg/apis/sources/v1alpha1/zz_generated.deepcopy.go:40-47 | an equal value that reaches only fresh objects |
| Objects.GitLabSource.DeepCopyInto | pkg/apis/sources/v1alpha1/zz_generated.deepcopy.go:30-37 | the same on a given target |
| Objects.GitLabSource.DeepCopySpecInto | pkg/apis/sources/v1alpha1/zz_generated.deepcopy.go:91-102 | after a shallow copy, every pointer of the spec is replaced by a fresh equal one |
| Objects.GitLabSource.DeepCopyStatusInto | pkg/apis/sources/v1alpha1/zz_generated.deepcopy.go:115-124 | the same for the status |
| Objects.DeepCopySecret | pkg/apis/sources/v1alpha1/zz_generated.deepcopy.go:137-145 | the same for a secret reference |
| Objects.GitLabSource.MarkSink | pkg/apis/sources/v1alpha1/gitlabsource_lifecyle.go:67-75 | the URI, and the condition True exactly if there is one |
| Objects.GitLabSource.Mark | pkg/apis/sources/v1alpha1/gitlabsource_lifecyle.go:78-102 | one condition set, Ready recomputed, the rest kept |
| ConditionSets.MarkSummarizes | vendor/knative.dev/pkg/apis/condition_set.go:258-410 | after marking any condition Ready is the summary of all three |
| ConditionSets.PreProcessed | vendor/knative.dev/pkg/reconciler/reconcile_common.go:52-72 | pre-processing changes no dependent that was set, and after a spec change Ready is not True |
| StatusRules.MarkedTruthful | pkg/apis/sources/v1alpha1/gitlabsource_lifecyle.go:78-102 | marking a condition keeps a status truthful |
| StatusRules.PreProcessHonest | vendor/knative.dev/pkg/reconciler/reconcile_common.go:52-72 | pre-processing invents no webhook and no sink |
| WebhookOptions.AddOptions | pkg/client/gitlab/webhook_client.go:74-117 | a flag is sent, as true, exactly if its webhook is listed |
| WebhookOptions.EditOptions | pkg/client/gitlab/webhook_client.go:120-173 | every flag is sent, true exactly if its webhook is listed |
| WebhookOptions.EditByName | pkg/client/gitlab/webhook_client.go:120-173 | after an edit each flag is true exactly when its name occurs in the list, whatever it was before |
| WebhookOptions.FlagsByName | pkg/client/gitlab/webhook_client.go:120-173 | which name sets which flag, for all ten |
| WebhookOptions.EditDetermines | pkg/client/gitlab/webhook_client.go:74-173 | order, repeats and unknown names do not matter, and adding before editing makes no difference |
| WebhookOptions.AddByName | pkg/client/gitlab/webhook_client.go:74-117 | after an add each flag is true exactly when listed or on by GitLab's default |
| WebhookOptions.CaseOfName | pkg/client/gitlab/webhook_client.go:84-108 | no two webhooks share a name |
| EventTypes.EventTypes | pkg/apis/sources/v1alpha1/gitlabsource_lifecyle.go:146-163 | strictly increasing and exactly the prefixed image of the configured webhooks, whatever the map's iteration order |
| EventTypes.AdvertisedOnce | pkg/apis/sources/v1alpha1/gitlabsource_lifecyle.go:146-183 | permuting or repeating the configured webhooks changes nothing |
| EventTypes.ListingAdvertises | pkg/apis/sources/v1alpha1/gitlabsource_lifecyle.go:146-183 | the listing used elsewhere is that sorted image |
| EventTypes.AdvertisedAs | pkg/apis/sources/v1alpha1/gitlabsource_lifecyle.go:116-183 | the full type each webhook is advertised as |
| Slices.Append | pkg/apis/bindings/v1alpha1/gitlabbinding_lifecycle.go:93-107 | Go's append: in place while there is room, else into a fresh array |
| Slices.Cut | pkg/apis/bindings/v1alpha1/gitlabbinding_lifecycle.go:114-119 | the append that deletes: the tail moves forward in the shared array |
| Bindings.Undo | pkg/apis/bindings/v1alpha1/gitlabbinding_lifecycle.go:110-139 | on the heap, the first managed entry of every list is gone and everything else is as it was |
| Bindings.Do | pkg/apis/bindings/v1alpha1/gitlabbinding_lifecycle.go:76-108 | on the heap, the same and then the binding's own entry at the end of every list: the volume of the Secret's key as "accessToken", and its read-only mount at "/var/bindings/gitlab" under the same name |
| Bindings.BindAgainAndUnbind | pkg/apis/bindings/v1alpha1/gitlabbinding_lifecycle.go:76-139 | on the heap, Do, Do of another binding, then Undo is Undo alone |
| Bindings.DoUndo | pkg/apis/bindings/v1alpha1/gitlabbinding_lifecycle.go:76-139 | with at most one managed entry per list, Do then Undo is Undo and Do after Do is the later Do |
| Bindings.PodCounts | pkg/apis/bindings/v1alpha1/gitlabbinding_lifecycle.go:76-139 | of n managed entries Undo leaves max(n-1,0) and Do max(n,1); other entries keep order and value |
| Bindings.DoSettles | pkg/apis/bindings/v1alpha1/gitlabbinding_lifecycle.go:76-108 | after as many applications of Do as the fullest list holds, at least one, a further one changes nothing |
| ManagedLists.Stabilizes | pkg/apis/bindings/v1alpha1/gitlabbinding_lifecycle.go:76-108 | from max(n,1) applications on, a list is everybody else's entries followed by that many of the binding's |
| ManagedLists.StableIff | pkg/apis/bindings/v1alpha1/gitlabbinding_lifecycle.go:76-108 | Do leaves a list alone exactly if its managed entries are this binding's, at least one, and all at the end |
| ManagedLists.UndoneIff | pkg/apis/bindings/v1alpha1/gitlabbinding_lifecycle.go:76-139 | exactly when Undo takes back Do, for any number of managed entries |
| ManagedLists.RepeatedForm | pkg/apis/bindings/v1alpha1/gitlabbinding_lifecycle.go:76-108 | each Do moves one more managed entry to the end, as its own |
| InformerFactory.EachRunOnce | pkg/client/informers/externalversions/factory.go:125-147 | under any interleaving each informer is run at most once, the ones run are those of the started types, and started types are known |
| InformerFactory.WaitGroupCounts | pkg/client/informers/externalversions/factory.go:132-145 | the wait group counts the goroutines not yet done, and one about to be spawned |
| InformerFactory.NothingAfterShutdown | pkg/client/informers/externalversions/factory.go:149-156 | once any Shutdown has returned no informer runs and none is ever started again |
| InformerFactory.SyncedRan | pkg/client/informers/externalversions/factory.go:158-177 | WaitForCacheSync only waits for informers that were run |
| InformerFactory.SyncsStarted | pkg/client/informers/externalversions/factory.go:158-172 | and for every one of them: the informers of all types started when it held the lock |
| InformerFactory.SameInformer | pkg/client/informers/externalversions/factory.go:181-201 | a type keeps the informer it was first given |
| InformerFactory.SharedInformerFactory.Start | pkg/client/informers/externalversions/factory.go:125-147 | it waits for the lock, others moving between its steps; when it returns every informer known before is started, or shutdown has begun |
| InformerFactory.SharedInformerFactory.Shutdown | pkg/client/informers/externalversions/factory.go:149-156 | it waits for the lock and the goroutines; when it returns every goroutine is done |
| InformerFactory.SharedInformerFactory.WaitForCacheSync | pkg/client/informers/externalversions/factory.go:158-177 | it waits for the lock; one answer for each type started by then, its own informer's, which was run |
| InformerFactory.SharedInformerFactory.InformerFor | pkg/client/informers/externalversions/factory.go:181-201 | it waits for the lock; the type's informer, the same one if it was known |
| SecretCache.Get | pkg/secret/secret.go:56-88 | one fetch per distinct name in order of first mention up to the first failure, whose error is the answer; else one value per reference, all keys of a Secret from one version, "" for nil |
| SecretCache.ValuesSay | pkg/secret/secret.go:56-88 | each value is its key's in the answer to the one fetch of its Secret, "" for a missing key and for nil |
| SecretCache.RefinesDirect | pkg/secret/secret.go:56-88 | while the store does not change, exactly what direct lookup would answer |
| SecretCache.NamesMentioned | pkg/secret/secret.go:56-88 | the names fetched are those mentioned, each once |
| EventHeaders.RoundTrip | pkg/adapter/receive_adapter.go:170-181 | the type read back from the header built for "t-hook" is t with dashes replaced, for every non-empty t of lower-case letters, digits and dashes |
| EventHeaders.SplitJoined | test/e2e_test.go:240-246 | the header built by splitting, titling and joining, character by character |
| EventHeaders.HeaderOfTagPush | test/e2e_test.go:240-246 | one header, spelled out |
| Adapter.Webhook.ServeHTTP | pkg/adapter/webhook.go:61-78 | 400, 500 or 202 by the request alone and the client's acknowledgement; the event sent, if any; the body drained and closed |
| Adapter.Webhook.Parse | pkg/adapter/webhook.go:82-117 | the checks in order, and the body drained and closed however it ends |
| Adapter.Webhook.HandleEvent | pkg/adapter/receive_adapter.go:128-163 | exactly one event sent for a header with a type, none otherwise |
| Adapter.ServeAll | pkg/adapter/webhook.go:61-117 | over any sequence of requests, the events sent are exactly those the requests amount to, in order, and 202 goes exactly to those acknowledged |
| Adapter.Accepted | pkg/adapter/webhook.go:82-117 | the exact conditions under which a request amounts to an event, and that event |
| Adapter.FirstFailure | pkg/adapter/webhook.go:82-117 | the error is that of the first check that fails, in this order |
| Adapter.StatusSays | pkg/adapter/webhook.go:61-78 | 400 exactly for what parse refuses, 202 exactly for an acknowledged event, 500 for the rest |
| Adapter.EmittedAsAdvertised | pkg/adapter/receive_adapter.go:170-181 | the type emitted for a webhook's header is the advertised one except for the two confidential webhooks and jobs |
| Adapter.AdvertisedOnly | pkg/apis/sources/v1alpha1/gitlabsource_lifecyle.go:165-183 | deployments are the only webhook advertised that no flag of a hook asks for |
| Strings.SetList | pkg/client/injection/reconciler/sources/v1alpha1/gitlabsource/reconciler.go:468-468 | a set's values in increasing order |
| Strings.SortedUnique | pkg/client/injection/reconciler/sources/v1alpha1/gitlabsource/reconciler.go:468-468 | a set has exactly one such listing |
| Strings.LessAt | pkg/apis/sources/v1alpha1/gitlabsource_lifecyle.go:160-160 | the order: the first character that differs decides, a proper prefix comes first |

## Left out

- Theorems.HooksConserved: for any GitLab client, so it also counts what a restarted lister goes back over; the sharper bound for the vendored client is SingleHook.HooksConservedTightly.
- OwnHooks.OwnHooksOnly: one direction; with another URL it depends on who holds the id in that project, which Outcomes.StrangersHookOverwritten and Outcomes.StrangersHookDeleted take up.
- Controllers.FinalizeKind: which other calls fail and what then remains is stated for an undisturbed call only.
- Recreating an object under the same name: one life of one object is modelled.
- Several instances or workers on one key, and leader election itself: `isLeader` is a parameter of a run.
- Finalizers by server-side apply and the observer role: neither is used by this controller.
- Creating Services is atomic: a create whose answer is lost leaves a Service the next listing shows.
- The token, description and other settings of a hook besides URL, SSL verification and the ten flags.
- Condition reasons, messages and transition times; the Service's environment, image and labels; recorded events.
- The sink resolver, the webhook parser, the event encoder and URL parsing: arbitrary functions, or an opaque project key.
- HTTP server start and shutdown, logging, metrics, and the `main` packages.
- Generated clients, listers and scheme registration; deep copies of lists.
- Nil secret references of a `GitLabBinding`, which the source dereferences.
- A caller kept waiting for ever by a holder of the factory's lock, or a goroutine, that never moves again: the method then answers that it did not return.
- Letters beyond ASCII in event headers keep their case.
- Validation and defaulting of specs.
