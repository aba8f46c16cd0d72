# A verified model of the TFJob controller

The controller watches TFJob objects and drives pods and services in a Kubernetes cluster towards what a job asks for: a
*local* job wants one pod, a *distributed* job wants a number of workers and parameter servers (PS), each with a service
of its own, wired together by host lists passed as arguments. One sync of a job reads an expectation counter, lists and
claims the job's pods and services, decides what to create under a new runtime id, creates it while overwriting shared
templates in place, and rewrites the status of the job.

The project models that engine and proves what holds over its runs.

| file | contents |
|---|---|
| `text.dfy`, `api.dfy` | decimal numerals, comma lists, dash-separated keys; labels, owners, pods, TFJobs |
| `ref.dfy` | claiming: `canAdopt`, `claimObject`, adopt and release patches, `ClaimServices`, and the API server they talk to |
| `patches.dfy` | what a claim sends and reports, and what comes of it on a server that loses nothing |
| `refproperties.dfy`, `claimpasses.dfy` | ownership over all runs; what one claim returns; claims that follow one another |
| `tensorflow.dfy`, `plan.dfy` | `DistributedJob`, `LocalJob`, the cluster specification; what a list of events creates |
| `updater.dfy` | status: histograms, the replica status list, the job phase |
| `controller.dfy` | `syncHandler` and `manageTFJob` with all their loops, and the two functions they are proved equal to |
| `wiring.dfy` | how the pods and services of one sync fit together |
| `distributedrun.dfy`, `localrun.dfy` | state machines over whole runs |
| `witnesses.dfy` | concrete runs of a distributed job in which the code does not do what one might expect |

Code that changes state is modelled by classes and methods with the loops of the source (`RefManager`, `DistributedJob`,
`LocalJob`, the updaters, `Controller`). Each such method is proved equal to a function of the state it found, and the
properties are lemmas about those functions: `SyncDistributed` is proved to do what `Sync` says, `SyncLocal` what
`LocalSync` says, and the state machines step by these.

## Premises of the runs

Distributed runs (`DistributedRun.Enabled`, `DistributedRun.Initial`):

- A sync that composes a runtime id draws one never composed before. The numbers of replicas do not change, there is one
  worker spec and one PS spec, and their templates are different objects.
- Only the controller creates pods labelled with the job's name. Before the first sync, and in every version the cached
  job may fall back to, the PS template is not labelled as a worker.
- A sync is one step. Its listings may miss any pod, show any phase, owner and deletion mark, and the answers to its
  patches are arbitrary, so the interleaving inside a sync is not lost. Between syncs the counter may be set to anything
  (early, late or lost deliveries, expiry), and the cached job may be replaced by any version.

Local runs (`LocalRun.Enabled`, `LocalRun.Initial`):

- The sync is split where others can interfere: read the expectation, list, patch owners one at a time, decide, set the
  expectation, create. In between, pods change phase, are deleted, are delivered to the cache and to the add handler,
  the add handler runs for pods that the job does not control, and the cached job falls back. `updatePod` and the
  periodic resync only put a key into the queue; since a sync may start at any time they need no step. The queue runs one sync of a key at a time (pkg/controller/controller.go:55-59).
- A runtime id that is composed was never composed before; the run starts without pods and without an expectation; a
  create error means that no pod was created; expectations do not expire; the job stays listed; terminal phases and
  deletion marks are final; nobody else patches the owners of the pods, creates pods labelled with the job's name or
  makes the job the controller of a pod.

Server: it keys owner references by uid, applies a patch only if the uid in it is the object's, and rejects a second
controller. Requests and answers may be lost. A sync needs templates whose label map exists where it writes an index
into it: writing to a nil map panics in the source, which `ManageDistributed` and `SyncDistributed` have as a precondition.

## Where the code does not do what one might expect

- pkg/controller/controller.go:259-262 says a sync is deferred until created pods have been seen. Setting an expectation
  overwrites the counter, so a distributed sync that creates workers and PS pods without a failure waits for the PS pods
  only. `ExpectationsCoverIff` says for every sync that wants pods, failing creates included, when the counter covers the
  pods it created and when it equals their number; in the job of `TwoCreatedOneExpected` it covers one of two. A sync
  that wants no pod but registers a service leaves an expectation that this service does not lower when it is seen:
  `ServicesAloneBlockIff`, `LostServiceBlocks`. For local jobs the counter is exact (`LocalRunsAreSafe`).
- README.md:23 of the repository says the controller moves to the desired state. A sync that composes a new runtime id
  abandons the pods of the old one and creates at most the missing number: `RecreationCompleteIff` says, failing creates
  included, how many workers carry the new id and when that is all of them; `LostWorkerIsNotMadeUp` is a run from an
  empty cluster that ends with one worker of two.
- The host lists are built from the services registered in the same sync. A sync that creates pods although a service of
  a wanted type was claimed, or a worker has succeeded, gives each of them the empty address ":2222":
  `WiringCompleteIff` gives the exact condition; the pod created in `LostWorkerIsNotMadeUp` is such a pod.
- With no replicas of a type, cutting the last character of the host list flag removes its equals sign: `FlagRoundTrip`.
- If the cached runtime id falls back, a local job can have two active pods: `RollbackAllowsTwoActive` is such a run.
  `SecondActiveIff` says exactly when: a sync makes a second pod active if it runs beside an active one and nothing it
  takes from its listing is active or succeeded. A fall-back that leaves the cached id with a pod at work is harmless
  (`AtMostOneActive`).
- The comment at pkg/controller/controller.go:203-208 says a failed item is put back on the queue; the code returns the
  error without doing so. No property here depends on a retry.
- Services are created without an owner reference (pkg/controller/control/service.go:63-81 does not use it), so
  `addService` never counts one: services are adopted by a later claim.
- A status counts pods under the names of pod phases, which are not all declared replica states.

## Model

| member | source | states |
|---|---|---|
| Text.DecimalInjective | pkg/tensorflow/distributed.go:162 | Two indices that print alike are equal. |
| Text.SplitJoin | examples/workdir/mnist_replica.py:107-108 | Splitting a comma-joined list of comma-free hosts gives the list back. |
| TensorFlow.HostsFlag | pkg/tensorflow/distributed.go:133-137 | The loop that appends a comma after every host, then cuts the last character, yields the joined list after the flag, or for no host the flag without its last character. |
| TensorFlow.DistributedJob.HostList | pkg/tensorflow/distributed.go:128-132 | One address per replica in index order, for any number of replicas. |
| TensorFlow.DistributedJob.GenerateTFClusterSpec | pkg/tensorflow/distributed.go:127-159 | The four arguments, from the names registered so far; what a consumer reads from them under the literal flag names is stated by `HandedPodReads` and `PodsKnowTheirServices`. |
| TensorFlow.DistributedJob.GetSpec | pkg/tensorflow/distributed.go:117-125 | Overwrites the index label and the arguments of the shared template and nothing else. |
| TensorFlow.DistributedJob.GetService | pkg/tensorflow/distributed.go:165-188 | Registers the generated name under the service key; labels and selector carry job name, runtime id, type and index, so that `SelectedAcrossSyncs` and `ClaimedByOwnPassOnly` hold. |
| TensorFlow.DistributedJob.Compose | pkg/tensorflow/distributed.go:210-219 | A new runtime id, and both templates' labels replaced. |
| TensorFlow.DistributedJob.Action | pkg/tensorflow/distributed.go:56-115 | The events, and a new runtime id exactly if workers are missing. |
| TensorFlow.LocalJob.constructor | pkg/tensorflow/local.go:34-48 | More than one active pod counts as none. |
| TensorFlow.LocalJob.Action | pkg/tensorflow/local.go:50-81 | A pod is planned exactly if none has succeeded and not exactly one is active, and then under a new runtime id. |
| TensorFlow.NameGenerator.GenerateName | vendor/k8s.io/kubernetes/pkg/api/v1/generate.go:60-65 | The base cut to 58 characters and the next random suffix. |
| Plan.EventsInOrder | pkg/controller/controller.go:369-425 | Carrying out the events one by one is: all services, then workers, then PS pods if no worker creation failed. |
| Controller.Controller.CreateServices | pkg/controller/controller.go:374-395 | The service loop: all services are attempted, each failure lowers the counter by one. |
| Controller.Controller.CreatePods | pkg/controller/controller.go:396-421 | The pod loop: each pod is a copy of the template as it is then; the loop ends at the first failure. |
| Controller.Controller.CarryOutAll | pkg/controller/controller.go:369-426 | The loop over the events, ended by a failed pod creation. |
| Controller.Controller.ManageDistributed | pkg/controller/controller.go:364-427 | `manageTFJob` of a distributed job changes the system as `Manage` says and keeps the status. |
| Controller.Controller.ManageLocal | pkg/controller/controller.go:351-363 | `manageTFJob` of a local job: compose, expect one, create, take the expectation back on failure. |
| Controller.LocalSyncMakesOne | pkg/controller/controller.go:351-363 | What a local sync makes, in full: one pod with a new id, the arguments of its template and the job as its controller, and one creation expected unless the call fails; or nothing. |
| Controller.Controller.GetForTFJob | pkg/controller/helper.go:110-179 | Claims with the selector of job name, runtime id and type, for the job's uid. |
| Controller.Controller.SyncDistributed | pkg/controller/controller.go:248-341 | A whole sync of a distributed job, each of its four passes with a deletion check of its own and none after one that failed, has the effect of `Sync` on what the servers answered and leaves the servers as `Answers` says; for a job marked as deleted it sends and creates nothing; without an update to write, the status is unchanged. |
| Controller.StatusFollowsPods | pkg/controller/controller.go:320-330 | After a sync without error there is a worker entry exactly if it is the histogram of the claimed workers (the old one if none was claimed), a PS entry likewise, no other, and the phase is Succeeded if the succeeded claimed workers are the replicas and Running otherwise; after one with an error the status is as before. |
| Controller.ClosedGateMakesNothing | pkg/controller/controller.go:259-318 | A sync whose claims fail, or that waits for its expectation, or whose job is marked as deleted, creates, composes and expects nothing. |
| Controller.SyncSends | pkg/controller/controller.go:283-303 | The two servers receive, in order, exactly the patches that the worker pass and then the PS pass call for, and nothing after a pass that failed. |
| Controller.Controller.SyncLocal | pkg/controller/controller.go:248-341 | A whole sync of a local job has the effect of `LocalSync` on what the server answered; for a job marked as deleted it sends and creates nothing. |
| Controller.Cluster.CreatePod | pkg/controller/helper.go:90-107 | A copy of the template is handed over with the job as its controller, and created if the call succeeds. |
| Controller.Expectations.ExpectCreations | vendor/k8s.io/kubernetes/pkg/controller/controller_utils.go:216-218 | Setting an expectation overwrites the counter. |
| Controller.Expectations.CreationObserved | vendor/k8s.io/kubernetes/pkg/controller/controller_utils.go:225-241 | Lowers the counter, if there is one. |
| Controller.Controller.ResolveControllerRef | pkg/controller/controller.go:592-612 | A reference resolves exactly to the listed job of its name, if kind and uid agree. |
| Controller.Controller.AddPod | pkg/controller/controller.go:430-455 | A new pod lowers the expectation of a job exactly if its controller resolves to that job. |
| Wirings.ServiceKeyInjective | pkg/tensorflow/distributed.go:161-163 | A service key determines job name, type and index, across all jobs and whatever dashes their names contain. |
| Wirings.NameOf | pkg/tensorflow/distributed.go:165-171 | After the services of a sync a key is registered exactly if a service for it was attempted in that sync, under that service's name. |
| Wirings.NamesFit | vendor/k8s.io/kubernetes/pkg/api/v1/generate.go:53-65 | The name of a registered service begins with its key, cut to 58 characters, and has at most 63. |
| Wirings.AddressOf | pkg/tensorflow/distributed.go:131 | The address given for a service names the port it listens on, 2222. |
| Wirings.ManageFollowsPlan | pkg/controller/controller.go:364-427 | The services and pods handed over are, in order, those of a plan fixed before the first create call, whose lengths depend on the counts only; the accepted pods are a prefix and at most one more was tried. |
| Wirings.SelectorsMatchSlots | pkg/tensorflow/distributed.go:117-228 | In every sync that composes a runtime id, despite the shared templates, the selector of a service registered in it matches a pod handed over exactly if type and index agree. |
| Wirings.SelectorMeans | pkg/controller/helper.go:110-119 | A claim's selector asks of labels exactly the mark of the system, the type, the runtime id and the job name. |
| Wirings.SelectedAcrossSyncs | pkg/tensorflow/distributed.go:165-188 | For any two jobs and syncs, the selector of a service registered in one matches a pod handed over in the other, if that composes an id, exactly if job name, runtime id, type and index agree. |
| Wirings.ClaimedByOwnPassOnly | pkg/controller/helper.go:110-179 | A claim pass selects a registered service, or a pod of a composing sync, exactly if job name, runtime id and type are its own; every pod handed over has the job as its controller. |
| Wirings.SelectorsAreABijection | pkg/tensorflow/distributed.go:117-228 | From scratch the selector of the a-th service matches the b-th pod exactly if a = b. |
| Wirings.PodArguments | pkg/tensorflow/distributed.go:127-159 | All pods of a sync get the same two host lists, under "--worker_hosts=" and "--ps_hosts=", and their own type and index. |
| Wirings.HandedPodReads | examples/workdir/mnist_replica.py:107-108 | A consumer that looks a flag up by its literal name finds in every pod handed over the worker list, the PS list, the type and the index of that pod, and no list where there is no replica. |
| Wirings.PodsKnowTheirServices | pkg/tensorflow/distributed.go:127-188 | From scratch, with or without PS, both host lists of every pod handed over read back as the addresses of the services of this sync, and the address at its task index is that of the service that selects it. |
| Wirings.FlagRoundTrip | pkg/tensorflow/distributed.go:128-148 | Dropping the flag and splitting at commas gives one host per replica in index order; the flag is intact exactly if there is a replica. |
| Wirings.WiringCompleteIff | pkg/tensorflow/distributed.go:131-148 | For all counts and failing creates: every address read by a pod handed over belongs to a service of the same sync exactly if no pod is missing, or no service of a wanted type was claimed and no worker has succeeded; otherwise every pod handed over reads ":2222". |
| Ref.RefManager.CanAdopt | pkg/controller/ref/base.go:35-42 | The check runs at the first call only; later calls return its result. `CheckAnswer` says from the fields what that is. |
| Ref.RefManager.AdoptService | pkg/controller/ref/service.go:123-134 | No patch if the check fails, and then a wrapped error; otherwise one add-owner patch. |
| Ref.RefManager.ReleaseService | pkg/controller/ref/service.go:138-161 | One drop-owner patch with the uid of the object; 404 and 422 are not errors. What it does to an object is stated by `OneReleaseSucceeds`. |
| Ref.RefManager.ClaimObject | pkg/controller/ref/base.go:59-112 | Every branch of keeping, adopting, releasing and ignoring, with the errors that are swallowed. |
| Ref.RefManager.ClaimServices | pkg/controller/ref/service.go:84-119 | The loop: patches left to right, the claimed objects and the errors in order. |
| RefProperties.ClaimsRefineFilter | pkg/controller/ref/service.go:62-83 | The result is, in order, exactly the objects that match and are already owned, or are live orphans of a live job whose adoption succeeded. |
| RefProperties.NoErrorIffAllForgiven | pkg/controller/ref/base.go:49-56 | The error is nil exactly if no reconciliation that was due failed with an error that counts. |
| RefProperties.HandleChange | pkg/controller/ref/service.go:127-133 | An adoption patch for the right uid succeeds exactly if nobody else is in control; no patch changes more than the sender's ownership. |
| RefProperties.ReconcileChangesOwnOnly | pkg/controller/ref/base.go:59-112 | Acting on an arbitrarily stale object changes control only from nobody to the manager or from the manager to nobody. |
| RefProperties.NeverTwoControllers | pkg/controller/ref/service.go:123-161 | Over every run of any number of managers with stale views and a faulty network no object has two controllers. |
| RefProperties.CheckedOnDemand | pkg/controller/ref/base.go:35-42 | A claim runs the deletion check exactly if some object is an adoptable orphan and it has not run before. |
| RefProperties.AtMostOneCheck | pkg/controller/ref/base.go:35-42 | Over any sequence of claims a manager runs the check at most once, and only if an adoption was due. |
| RefProperties.AnswerIsRemembered | pkg/controller/ref/base.go:35-42 | Asking the deletion check gives the remembered error or else the answer of one read, and the next time the same. |
| RefProperties.FailedCheckAdoptsNothing | pkg/controller/ref/service.go:123-126 | If the check answers with an error, read now or remembered, no adoption patch is sent, and every adoptable orphan reports the wrapped error, even for a 404. |
| Patches.SentExactly | pkg/controller/ref/service.go:84-161 | A claim sends exactly the due patches, in order: an adoption, with name, uid and controller, for each live orphan that matches if the check passed; a release, with name and uids, for each object of ours that does not match, unless the job is being deleted. |
| Patches.DeletedSendsNothing | pkg/controller/ref/base.go:73-95 | The manager of a job marked as deleted sends nothing and reports no error. |
| Patches.ErrorsAreFailedReplies | pkg/controller/ref/service.go:108-118 | The error list holds one error for each failed reconciliation, in order, each the answer it received. |
| Patches.OneReleaseSucceeds | pkg/controller/ref/service.go:138-161 | Without faults a release of an object we control succeeds, leaves it without a controller, and removes no other owner. |
| Patches.QuietPassOutcome | pkg/controller/ref/base.go:59-112 | What a pass without faults does to every object, however old the snapshot: who controls it afterwards, and that nothing else changes. |
| Patches.QuietPassSucceeds | pkg/controller/ref/base.go:59-112 | From an up-to-date snapshot, with a passed check, no patch of a pass without faults fails. |
| ClaimPasses.ClaimSettles | pkg/controller/ref/base.go:59-112 | After successful patches every object of the list is kept if it was claimed, else ignored. |
| ClaimPasses.ClaimFixpoint | pkg/controller/ref/service.go:84-119 | Claiming again from a refreshed snapshot sends no patch, runs no check, reports no error and returns the same objects. |
| ClaimPasses.PassesSplit | pkg/controller/controller.go:288-303 | The worker and the PS pass over one snapshot return disjoint lists, together exactly our or orphan objects that match either selector. |
| ClaimPasses.OwnAdoptionsSucceed | pkg/controller/ref/service.go:123-134 | Without network faults all adoptions of a pass succeed, so both passes meet the premise of the split. |
| ClaimPasses.FlappingNeverMatters | pkg/controller/helper.go:112-142 | After any number of rounds of both passes, on any snapshot in which ownership has flapped, each pass claims the same objects. |
| Updater.FilterPods | pkg/controller/util.go:34-42 | The number of pods in a phase. |
| Updater.GetStatus | pkg/controller/util.go:27-31 | The numbers of succeeded and failed pods. |
| Updater.UpdateTFReplicaStatuses | pkg/controller/updater/util.go:25-58 | The entry of the type becomes the exact histogram, in place or appended; nothing happens without pods or on a conflict. |
| Updater.DistributedUpdater.ShouldUpdate | pkg/controller/updater/distributed.go:41-66 | Phase and both entries, by the step that `StatusIsLatest` is about; false means nothing changed, and for a list of at most two entries when it is true is stated exactly. |
| Updater.LocalUpdater.ShouldUpdate | pkg/controller/updater/local.go:50-78 | Phase and the single entry; false means nothing changed, and when it is true is stated exactly. |
| Updater.NewLocal | pkg/controller/updater/local.go:33-47 | No updater exactly if more than one pod was claimed. |
| Updater.HistogramTotal | pkg/controller/updater/util.go:40-46 | A histogram agrees with `filterPods` in every phase, holds no zero entry, and sums to the number of pods. |
| Updater.StatusIsLatest | pkg/controller/updater/util.go:25-86 | Over any sequence of updates from an empty status: one entry per type and at most two, so the conflict branch is never taken; each is the histogram last reported; the phase is Succeeded exactly if the succeeded workers of the last call are the replicas. |
| Updater.SucceededMatchesEntry | pkg/controller/updater/distributed.go:41-66 | With workers present the phase is Succeeded exactly if the worker entry counts all replicas as succeeded. |
| DistributedRun.WorkersPerIdBounded | pkg/tensorflow/distributed.go:91-99 | In every run the worker pods of any one runtime id have distinct indices and number at most Replicas. |
| DistributedRun.NeverTooManyWorkers | pkg/tensorflow/distributed.go:60-104 | In every sync of every run active plus succeeded claimed workers are at most Replicas, so the unhandled case is unreachable. |
| DistributedRun.ManageCounts | pkg/controller/controller.go:369-426 | For all counts and failing creates: the pods created are those before the first failing call, and which number is expected afterwards. |
| DistributedRun.FirstSyncDeploysIff | pkg/controller/controller.go:313-318 | A first sync on an empty cluster creates all workers and all PS pods under the current id exactly if none of its create calls fails. |
| DistributedRun.SeenMeans | pkg/controller/controller.go:306-318 | What the plan is made from: the numbers of claimed workers and PS pods that have neither ended nor are being deleted, of claimed workers that have succeeded, and of claimed services, by the filter of the claims. |
| DistributedRun.HealthySync | pkg/controller/controller.go:306-330 | A sync of a deployed, undisturbed job, with or without PS, creates nothing and changes at most the status and, for a type without replicas, the counter; the phase is Succeeded exactly if it saw all workers succeeded. |
| DistributedRun.HealthyStepMakesNothing | pkg/controller/controller.go:306-330 | The same for any step of an undisturbed run: a healthy sync, a change of the expectation counter, another version of the job with the same id. |
| DistributedRun.HealthyRun | pkg/controller/updater/distributed.go:41-66 | The same for any run of such steps, so that any of its syncs may pass the expectation and reach `manageTFJob`: nothing is created, attempted or composed, and each sync leaves the phase Succeeded exactly if it saw all workers succeeded. |
| DistributedRun.EmptyToFinished | pkg/controller/controller.go:248-341 | From an empty cluster, if no create call of the first sync fails, to the end of any undisturbed run, with the counter changing at will: the pods stay those of the first sync, and each sync leaves the phase Succeeded exactly if it saw all workers succeeded. |
| DistributedRun.RecreationCompleteIff | pkg/tensorflow/distributed.go:91-99 | After composing a new id, whatever creates fail, the id is carried by those of the missing workers that were created; all workers are there again exactly if none of the old ones was active or succeeded and no create call for a worker fails. |
| DistributedRun.ExpectationsCoverIff | pkg/controller/controller.go:396-416 | For every sync that wants w workers and p PS pods, failing creates included: the counter is at least the number of pods created exactly if w or p is 0 or one of the first max(w, p) create calls fails; it equals that number exactly if w or p is 0 and nothing fails, or the w-th call, or the p-th if p > w, is the first to fail. |
| DistributedRun.ServicesAloneBlockIff | pkg/controller/controller.go:374-395 | A sync that wants services but no pods keeps the next one waiting exactly if a create call for a service of the type it expected last succeeds. |
| Witnesses.LostServiceBlocks | pkg/controller/controller.go:374-384 | With all pods there and the worker service not listed, a sync creates no pod and leaves an expectation. |
| Witnesses.TwoCreatedOneExpected | pkg/controller/controller.go:396-416 | The first sync of a job with one worker and one PS creates two pods and leaves the counter at one. |
| Witnesses.LostWorkerIsNotMadeUp | pkg/tensorflow/distributed.go:91-99 | Two workers are deployed from an empty cluster and one fails: the next sync that manages the job leaves one pod under the new id, which reads ":2222". |
| LocalRun.StepKeepsInv | pkg/controller/controller.go:259-283 | Each step keeps: the counter is the number of unobserved pods (at most one), a listing after a satisfied expectation misses no existing pod, a claim returns at most one. |
| LocalRun.LocalRunsAreSafe | pkg/controller/controller.go:248-363 | The same over every run, with failing creates, any interleaving and rolled-back runtime ids. |
| LocalRun.OneClaimPerId | pkg/controller/updater/local.go:33-41 | A claim returns at most one pod, so the branches for more than one in `NewLocal` and `NewLocalJob` are never taken. |
| LocalRun.CreatesIff | pkg/tensorflow/local.go:50-73 | For every listing and all answers, a live job's sync decides to create exactly if nothing it takes from the listing is active or succeeded. |
| LocalRun.SecondActiveIff | pkg/controller/controller.go:352-363 | Rollbacks or not, a sync makes a second pod active exactly if one is active, no claim fails and nothing it takes works; if no pod of the cached id was released, exactly if the cache shows no pod of that id as active or succeeded. |
| LocalRun.AtMostOneActive | pkg/tensorflow/local.go:50-73 | Over every run, with rollbacks, in which that condition fails at each listing made beside an active pod: at most one pod of the job is active. |
| LocalRun.WithoutRollbackGuarded | pkg/tensorflow/local.go:50-73 | A run without a rollback is such a run. |
| LocalRun.ClaimedSuccessIsDone | pkg/controller/controller.go:306-307 | A claimed, succeeded pod that still exists makes the job done in the sense of the next row. |
| LocalRun.SuccessIsFinal | pkg/tensorflow/local.go:50-56 | After a succeeded pod was claimed no pod is created again, as long as that pod exists and the id does not fall back. |
| LocalRun.ObserveKeepsInv | pkg/controller/controller.go:430-455 | The step of the add handler keeps the counter exact: it is lowered once for each created pod, whatever happened to the pod before. |
| LocalRun.OtherPodsDoNotCount | pkg/controller/controller.go:441-455 | A pod that is not controlled by the job leaves its expectation alone, whatever its labels. |
| Controller.LocalStatusFollowsPod | pkg/controller/updater/local.go:50-78 | After a local sync without error the phase is Succeeded exactly if a succeeded pod was claimed, and the only entry counts the claimed pod; no more than one was claimed. |
| LocalRun.UninterruptedSyncIsLocalSync | pkg/controller/controller.go:248-363 | Without interference the steps of the machine do what `LocalSync` says about id, counter and created pods with their labels and owner, also when a claim fails or the create call does. |
| LocalRun.RollbackAllowsTwoActive | pkg/controller/controller.go:352-363 | A concrete run with one rollback that ends with two active pods; `SecondActiveIff` gives the exact condition. |

## Left out

- Clients, informers, the work queue, rate limiting, event recording and logging: caches are listings with delivery
  steps, and creates and patches are answered by arbitrary oracles.
- Splitting of the job key, the job-not-found branch with `DeleteExpectations`, and the result of `updateTFJob`.
- The two pod counts that `manageTFJob` returns: its only caller drops them.
- Expiry of expectations in local runs, restarts with pod caches that are not synced, and `deletePod` and
  `deleteService`, which are not implemented in the source.
- pkg/controller/control other than the fact that services get no owner reference; the JSON text of the patches, which
  are add-owner and drop-owner operations carrying uids.
- cmd/controller, pkg/util/signals, version, and the training code of the examples beyond the splitting of host lists.
- Bounds on PS pods and services for one runtime id, and convergence after a worker failure: the code has neither.
- ClaimPods: the library original of `ClaimServices` has the same algorithm and is not written out a second time; pods
  and services are both `Object`.
- Ref.RefManager.ClaimServices: does not take the optional filters, because no caller passes any.
- TensorFlow.DistributedJob.Action: does not model 32-bit wrap-around of Replicas minus succeeded pods, because it
  cannot occur for the non-negative counts the API allows.
- TensorFlow.DistributedJob.GetSpec: of a pod template only the labels and the arguments of the first container are modelled.
- Api.TFJob.TemplateIndex: a distributed job must have a worker and a PS spec; the source panics without.
- Uids are numbers, label keys a datatype with one constructor for each key the code writes, pod phases the five declared ones.
