/** Runs of the controller on one distributed job: any number of syncs on arbitrarily stale listings, with failing
    creates, an expectation counter that anything may change, and a cached job that may fall back to an older version. */
module DistributedRun {
  import opened Text
  import opened Api
  import opened Ref
  import opened RefProperties
  import opened ClaimPasses
  import opened TensorFlow
  import opened Plan
  import opened Updater
  import opened Controller
  import opened Wirings

  /** The controller's state and every runtime id composed so far. The k-th created pod has uid k. */
  datatype State = State(s: System, ids: set<string>)

  datatype Step =
    | SyncStep(inputs: Inputs)
    | SetCounter(counter: Option<int>)   // deliveries, lost or premature observations, expiry
    | Rollback(job: JobState)            // the cache holds another version of the TFJob

  // ---- Premises --------------------------------------------------------------

  /** A listing shows each pod at most once, created pods with their labels, and no other pod labelled for the job. Phases,
      owners and deletion marks may be out of date, and pods may be missing. */
  ghost predicate Listing(job: string, created: seq<PodSpec>, objs: seq<Object>) {
    && DistinctUids(objs)
    && forall o | o in objs && (LabelledFor(job, o.labels) || o.uid < |created|) ::
         o.uid < |created| && o.labels == created[o.uid].labels
  }

  /** No version of the job has a PS template labelled as a worker. */
  ghost predicate NotWorker(labels: Labels) {
    JobType in labels ==> labels[JobType] != TypeName(Worker)
  }

  function FreshId(c: Config, s: System): string {
    GeneratedName("", c.draws(s.drawn))
  }

  /** The sync composes a new runtime id. */
  ghost predicate Composing(c: Config, s: System, i: Inputs)
    requires Answered(i)
  {
    ClaimsOk(c, s, i) && Satisfied(s.counter) && !i.deleting && Composes(c.workers, SeenIn(c, s, i))
  }

  ghost predicate Enabled(c: Config, w: State, step: Step) {
    match step
    case SyncStep(i) =>
      && Answered(i)
      && Listing(c.name, w.s.created, i.workerPods) && Listing(c.name, w.s.created, i.psPods)
      && (Composing(c, w.s, i) ==> FreshId(c, w.s) !in w.ids)
    case SetCounter(_) => true
    case Rollback(job) => NotWorker(LabelsOf(job.ps))
  }

  ghost function Next(c: Config, w: State, step: Step): State
    requires Enabled(c, w, step)
  {
    match step
    case SyncStep(i) => State(Sync(c, w.s, i).0, w.ids + if Composing(c, w.s, i) then {FreshId(c, w.s)} else {})
    case SetCounter(counter) => w.(s := w.s.(counter := counter))
    case Rollback(job) => w.(s := w.s.(job := job))
  }

  ghost predicate Allowed(c: Config, w: State, steps: seq<Step>)
    decreases |steps|
  {
    steps == [] || (Enabled(c, w, steps[0]) && Allowed(c, Next(c, w, steps[0]), steps[1..]))
  }

  ghost function Run(c: Config, w: State, steps: seq<Step>): State
    requires Allowed(c, w, steps)
    decreases |steps|
  {
    if steps == [] then w else Run(c, Next(c, w, steps[0]), steps[1..])
  }

  ghost predicate Initial(c: Config, w: State) {
    w.s.created == [] && NotWorker(LabelsOf(w.s.job.ps))
  }

  // ---- At most `workers` worker pods per runtime id --------------------------

  /** The created pods that a selector for one type under one runtime id matches. */
  function Holders(c: Config, created: seq<PodSpec>, typ: ReplicaType, rid: string): set<nat> {
    set k | 0 <= k < |created| && Matches(ReplicaLabels(c.name, rid, typ), created[k].labels)
  }

  ghost predicate DistinctIndices(created: seq<PodSpec>, pods: set<nat>) {
    && (forall k | k in pods :: k < |created| && Index in created[k].labels)
    && forall k, l | k in pods && l in pods && k != l :: created[k].labels[Index] != created[l].labels[Index]
  }

  ghost predicate Inv(c: Config, w: State) {
    && NotWorker(LabelsOf(w.s.job.ps))
    && (forall rid :: |Holders(c, w.s.created, Worker, rid)| <= Nat(c.workers))
    && (forall rid :: DistinctIndices(w.s.created, Holders(c, w.s.created, Worker, rid)))
    && forall rid :: Holders(c, w.s.created, Worker, rid) != {} ==> rid in w.ids
  }

  /** A batch of pods as one sync adds it: the first `n` are workers 0, 1, ... under one id, the rest no workers. */
  ghost predicate Batch(c: Config, batch: seq<PodSpec>, n: nat, rid: string) {
    forall k | 0 <= k < |batch| ::
      if k < n then batch[k].labels == ReplicaLabels(c.name, rid, Worker)[Index := Decimal(k)]
      else NotWorker(batch[k].labels)
  }

  lemma NotWorkerUnmatched(c: Config, rid: string, labels: Labels)
    requires NotWorker(labels)
    ensures !Matches(ReplicaLabels(c.name, rid, Worker), labels)
  {
    assert JobType in ReplicaLabels(c.name, rid, Worker);
  }

  lemma WorkerMatchesOwn(c: Config, rid: string, rid': string, k: nat)
    ensures Matches(ReplicaLabels(c.name, rid', Worker), ReplicaLabels(c.name, rid, Worker)[Index := Decimal(k)])
       <==> rid == rid'
  {
    assert RuntimeId in ReplicaLabels(c.name, rid', Worker);
  }

  /** The `n` uids from `from` on. */
  function Range(from: nat, n: nat): (r: set<nat>)
    ensures forall k :: (k in r <==> from <= k < from + n)
    ensures |r| == n
  {
    if n == 0 then {} else Range(from, n - 1) + {from + n - 1}
  }

  lemma BatchHolderAt(c: Config, created: seq<PodSpec>, batch: seq<PodSpec>, n: nat, rid: string, rid': string, k: nat)
    requires Batch(c, batch, n, rid) && k < |created| + |batch|
    ensures Matches(ReplicaLabels(c.name, rid', Worker), (created + batch)[k].labels) <==>
            if k < |created| then Matches(ReplicaLabels(c.name, rid', Worker), created[k].labels)
            else rid' == rid && k - |created| < n
  {
    hide ReplicaLabels, Matches, Decimal;
    if k >= |created| {
      assert (created + batch)[k] == batch[k - |created|];
      if k - |created| < n {
        WorkerMatchesOwn(c, rid, rid', k - |created|);
      } else {
        NotWorkerUnmatched(c, rid', batch[k - |created|].labels);
      }
    }
  }

  /** Adding a batch under an id gives that id its workers and leaves every other id alone. */
  lemma BatchHolders(c: Config, created: seq<PodSpec>, batch: seq<PodSpec>, n: nat, rid: string, rid': string)
    requires Batch(c, batch, n, rid)
    ensures Holders(c, created + batch, Worker, rid') ==
            Holders(c, created, Worker, rid')
            + if rid' == rid then Range(|created|, if n < |batch| then n else |batch|) else {}
  {
    hide ReplicaLabels, Matches, Batch;
    var added := if rid' == rid then Range(|created|, if n < |batch| then n else |batch|) else {};
    forall k: nat ensures k in Holders(c, created + batch, Worker, rid') <==> k in Holders(c, created, Worker, rid') + added {
      if k < |created| + |batch| {
        BatchHolderAt(c, created, batch, n, rid, rid', k);
      }
    }
  }

  lemma BatchIndices(c: Config, created: seq<PodSpec>, batch: seq<PodSpec>, n: nat, rid: string, pods: set<nat>)
    requires Batch(c, batch, n, rid)
    requires forall k | k in pods :: |created| <= k < |created| + |batch| && k < |created| + n
    ensures DistinctIndices(created + batch, pods)
  {
    hide Decimal;
    forall k, l | k in pods && l in pods && k != l
      ensures (created + batch)[k].labels[Index] != (created + batch)[l].labels[Index]
    {
      if Decimal(k - |created|) == Decimal(l - |created|) {
        DecimalInjective(k - |created|, l - |created|);
      }
    }
  }

  /** What a sync adds is a batch under the fresh id, or one without workers; the PS template stays one of no worker. */
  lemma SyncAddsBatch(c: Config, s: System, i: Inputs)
    requires Answered(i) && NotWorker(LabelsOf(s.job.ps))
    ensures var s' := Sync(c, s, i).0;
            && s.created <= s'.created
            && NotWorker(LabelsOf(s'.job.ps))
            && exists n: nat ::
                 n <= Nat(c.workers) && Batch(c, s'.created[|s.created|..], n, FreshId(c, s)) && (n > 0 ==> Composing(c, s, i))
  {
    hide SeenIn, ClaimsOk, WorkersOf, PSPodsOf, Manage, Updater.Upsert;
    var s' := Sync(c, s, i).0;
    var seen := SeenIn(c, s, i);
    if ClaimsOk(c, s, i) && Satisfied(s.counter) && !i.deleting {
      ManageFollowsPlan(c, s, seen);
      PlanIsBatch(c, s, seen);
      assert s'.created == Manage(c, s, seen).0.created;
      assert s'.job.ps == Manage(c, s, seen).0.job.ps;
      var batch := s'.created[|s.created|..];
      assert batch <= PlannedPods(c, s, seen);
      assert Batch(c, batch, WorkerPodCount(c, seen), FreshId(c, s)) by {
        hide PlannedPods;
        assert forall k | 0 <= k < |batch| :: batch[k] == PlannedPods(c, s, seen)[k];
      }
      KeepsNotWorker(Prepared(c, s, seen).0.ps, s'.job.ps);
    } else {
      assert s'.created[|s.created|..] == [];
      assert Batch(c, [], 0, FreshId(c, s));
    }
  }

  lemma KeepsNotWorker(a: Template, b: Template)
    requires SameButIndex(a, b) && NotWorker(LabelsOf(a))
    ensures NotWorker(LabelsOf(b))
  {
    assert JobType in LabelsOf(b) ==>
             JobType in LabelsOf(b)[Index := ""] && LabelsOf(b)[JobType] == LabelsOf(b)[Index := ""][JobType];
    assert JobType in LabelsOf(b) ==> JobType in LabelsOf(a)[Index := ""];
  }

  lemma PlanIsBatch(c: Config, s: System, seen: Seen)
    requires NotWorker(LabelsOf(s.job.ps))
    ensures Batch(c, PlannedPods(c, s, seen), WorkerPodCount(c, seen), FreshId(c, s))
    ensures NotWorker(LabelsOf(Prepared(c, s, seen).0.ps))
    ensures WorkerPodCount(c, seen) <= Nat(c.workers)
  {
    hide ClusterArgs, Decimal, PlannedNames;
    assert NotWorker(ReplicaLabels(c.name, FreshId(c, s), PS)) by {
      assert |TypeName(PS)| == 2 && |TypeName(Worker)| == 6;
    }
  }

  lemma SyncKeepsInv(c: Config, w: State, i: Inputs)
    requires Inv(c, w) && Enabled(c, w, SyncStep(i))
    ensures Inv(c, Next(c, w, SyncStep(i)))
  {
    hide Sync, Holders, Batch, DistinctIndices, NotWorker, Composing, Listing;
    SyncAddsBatch(c, w.s, i);
    var w' := Next(c, w, SyncStep(i));
    var rid := FreshId(c, w.s);
    var batch := w'.s.created[|w.s.created|..];
    var n: nat :| n <= Nat(c.workers) && Batch(c, batch, n, rid) && (n > 0 ==> Composing(c, w.s, i));
    assert w'.s.created == w.s.created + batch;
    forall rid' {
      BatchKeepsHolders(c, w, w'.s.created, w'.ids, batch, n, rid, rid');
    }
  }

  lemma BatchKeepsHolders(c: Config, w: State, created: seq<PodSpec>, ids: set<string>,
                          batch: seq<PodSpec>, n: nat, rid: string, rid': string)
    requires Inv(c, w) && Batch(c, batch, n, rid) && n <= Nat(c.workers) && created == w.s.created + batch
    requires w.ids <= ids && (n > 0 ==> rid in ids && rid !in w.ids)
    ensures |Holders(c, created, Worker, rid')| <= Nat(c.workers)
    ensures DistinctIndices(created, Holders(c, created, Worker, rid'))
    ensures Holders(c, created, Worker, rid') != {} ==> rid' in ids
  {
    hide Holders, Batch, DistinctIndices, NotWorker;
    BatchHolders(c, w.s.created, batch, n, rid, rid');
    if rid' == rid && n > 0 {
      assert Holders(c, w.s.created, Worker, rid) == {};
      BatchIndices(c, w.s.created, batch, n, rid, Holders(c, created, Worker, rid'));
    } else {
      OldIndices(w.s.created, batch, Holders(c, w.s.created, Worker, rid'));
    }
  }

  lemma OldIndices(created: seq<PodSpec>, batch: seq<PodSpec>, pods: set<nat>)
    requires DistinctIndices(created, pods)
    ensures DistinctIndices(created + batch, pods)
  {
  }

  /** Over every run: the worker pods of any one runtime id have distinct index labels and are at most `workers` many. */
  lemma {:induction false} WorkersPerIdBounded(c: Config, w: State, steps: seq<Step>)
    requires Inv(c, w) && Allowed(c, w, steps)
    ensures Inv(c, Run(c, w, steps))
    decreases |steps|
  {
    if steps != [] {
      if steps[0].SyncStep? {
        SyncKeepsInv(c, w, steps[0].inputs);
      }
      WorkersPerIdBounded(c, Next(c, w, steps[0]), steps[1..]);
    }
  }

  lemma InitialInv(c: Config, w: State)
    requires Initial(c, w)
    ensures Inv(c, w)
  {
    forall rid ensures Holders(c, w.s.created, Worker, rid) == {} {
    }
  }

  // ---- No sync ever sees too many workers ------------------------------------

  /** Every claimed pod of a type is one of the created pods that the selector matches. */
  lemma ClaimsAreHolders(c: Config, s: System, typ: ReplicaType, deleting: bool, objs: seq<Object>, replies: seq<Option<Error>>)
    requires |objs| == |replies| && Listing(c.name, s.created, objs)
    ensures var claims := ClaimsFor(c, s, typ, deleting, objs, replies);
            && Uids(claims) <= Holders(c, s.created, typ, s.job.rid)
            && |Uids(claims)| == |claims|
  {
    var claims := ClaimsFor(c, s, typ, deleting, objs, replies);
    ClaimsAreDistinct(ManagerFor(c.name, c.uid, s.job.rid, typ, deleting, None), objs, replies);
    DistinctSize(claims);
    ClaimedExactly(ManagerFor(c.name, c.uid, s.job.rid, typ, deleting, None), objs, replies);
    forall o | o in claims ensures o.uid in Holders(c, s.created, typ, s.job.rid) {
      assert TFJobName in ReplicaLabels(c.name, s.job.rid, typ);
    }
  }

  lemma SubsetSize(a: set<nat>, b: set<nat>)
    requires a <= b
    ensures |a| <= |b|
    ensures |a| == |b| ==> a == b
  {
    assert |b - a| == |b| - |a|;
  }

  /** In every sync of every run, active and succeeded claimed workers together never exceed the wanted number:
      so the missing number is never negative and more active workers than expected never occur. */
  lemma NeverTooManyWorkers(c: Config, w: State, steps: seq<Step>, i: Inputs)
    requires c.workers >= 0 && Initial(c, w) && Allowed(c, w, steps)
    requires Enabled(c, Run(c, w, steps), SyncStep(i))
    ensures var seen := SeenIn(c, Run(c, w, steps).s, i);
            && seen.workers + seen.succeeded <= c.workers
            && 0 <= seen.workers <= c.workers - seen.succeeded
  {
    InitialInv(c, w);
    WorkersPerIdBounded(c, w, steps);
    var s := Run(c, w, steps).s;
    ClaimsAreHolders(c, s, Worker, i.deleting, i.workerPods, i.workerReplies);
    SubsetSize(Uids(WorkersOf(c, s, i)), Holders(c, s.created, Worker, s.job.rid));
    ActivePlusSucceeded(WorkersOf(c, s, i));
  }

  // ---- Creates that fail -----------------------------------------------------

  /** Of the create calls that follow the `from` first ones, exactly the first `k` succeed: all `n` wanted, or all
      before the first that fails. */
  ghost predicate CreatesFirst(podOk: nat -> bool, from: nat, k: nat, n: nat) {
    k <= n && (forall j | from <= j < from + k :: podOk(j)) && (k < n ==> !podOk(from + k))
  }

  /** The next `n` create calls succeed. */
  ghost predicate AllCreate(c: Config, s: System, n: nat) {
    forall j | |s.attempted| <= j < |s.attempted| + n :: c.podOk(j)
  }

  /** How many pods one pod event creates, how many it tries, and what is expected after it. */
  lemma AddPodsCounts(e: Env, p: Progress, typ: ReplicaType, number: nat)
    ensures var q := AddPods(e, p, typ, number);
            && |p.created| <= |q.created| <= |p.created| + number
            && var k := |q.created| - |p.created|;
               && CreatesFirst(e.podOk, |p.attempted|, k, number)
               && |q.attempted| == |p.attempted| + (if k < number then k + 1 else k)
               && q.failed == (k < number) && q.counter == Some(if k < number then number - 1 else number)
  {
    hide ClusterArgs, Decimal, LabelsOf, Successes, PodPlan;
  }

  /** The counter after `k` of `w` workers and then `p` PS pods were created, and before that it was `counter`. */
  function CounterAfter(counter: Option<int>, k: nat, w: nat, p: nat): Option<int> {
    if w + p == 0 then counter
    else if k == w + p then Some(if p > 0 then p else w)
    else Some((if k < w then w else p) - 1)
  }

  lemma PodsCounts(e: Env, q: Progress, seen: Seen)
    requires !q.failed
    ensures var w, p, r := Nat(e.workers - seen.succeeded - seen.workers), Nat(e.ps - seen.ps), Pods(e, q, seen);
            && |r.created| >= |q.created|
            && var k := |r.created| - |q.created|;
               && CreatesFirst(e.podOk, |q.attempted|, k, w + p)
               && k <= w + p && r.failed == (k < w + p) && r.counter == CounterAfter(q.counter, k, w, p)
  {
    hide AddPods, CreatesFirst;
    var w, p := Nat(e.workers - seen.succeeded - seen.workers), Nat(e.ps - seen.ps);
    var q1 := if w > 0 then AddPods(e, q, Worker, w) else q;
    NothingToCreate(e.podOk, |q.attempted|);
    AddPodsCounts(e, q, Worker, w);
    AddPodsCounts(e, q1, PS, p);
    if q1.failed {
      FailedInFirst(e.podOk, |q.attempted|, |q1.created| - |q.created|, w, p);
    } else if p > 0 {
      FirstInTwo(e.podOk, |q.attempted|, w, |Pods(e, q, seen).created| - |q1.created|, p);
    }
  }

  lemma NothingToCreate(podOk: nat -> bool, from: nat)
    ensures CreatesFirst(podOk, from, 0, 0)
  {
  }

  lemma FailedInFirst(podOk: nat -> bool, from: nat, k: nat, a: nat, b: nat)
    requires CreatesFirst(podOk, from, k, a) && k < a
    ensures CreatesFirst(podOk, from, k, a + b)
  {
  }

  /** When the first `a` calls succeed and then `k` of `b`, the first `a + k` of `a + b` do. */
  lemma FirstInTwo(podOk: nat -> bool, from: nat, a: nat, k: nat, b: nat)
    requires CreatesFirst(podOk, from, a, a) && CreatesFirst(podOk, from + a, k, b)
    ensures CreatesFirst(podOk, from, a + k, a + b)
  {
  }

  /** The counter left by the services of a sync. */
  function ServiceCounter(c: Config, s: System, seen: Seen): Option<int> {
    if seen.psServices == 0 then
      Some(c.ps - Failures(c.serviceOk, |s.services| + WorkerServiceCount(c, seen), Nat(c.ps)))
    else if seen.workerServices == 0 then
      Some(c.workers - seen.succeeded - Failures(c.serviceOk, |s.services|, Nat(c.workers - seen.succeeded)))
    else s.counter
  }

  /** What a sync creates and expects, for all counts and failing creates. */
  lemma ManageCounts(c: Config, s: System, seen: Seen)
    ensures var (s', ok), w, p := Manage(c, s, seen), WorkerPodCount(c, seen), PSPodCount(c, seen);
            && |s'.created| >= |s.created|
            && var k := |s'.created| - |s.created|;
               && CreatesFirst(c.podOk, |s.attempted|, k, w + p)
               && ok == (k == w + p) && s'.counter == CounterAfter(ServiceCounter(c, s, seen), k, w, p)
  {
    hide Pods, ServicePlan, Registered, Composed, CounterAfter, CreatesFirst, Failures;
    var (job, drawn) := Prepared(c, s, seen);
    var e := EnvOf(c, job.rid);
    var p := Progress(map[], drawn, s.services, s.attempted, s.created, job.worker, job.ps, s.counter, false);
    ServicesInTurn(e, p, c, seen);
    ServicesLeave(c, s, seen, e, p);
    hide Services, ServiceCounter;
    var q := Services(e, p, seen);
    PodsCounts(e, q, seen);
  }

  lemma ServicesLeave(c: Config, s: System, seen: Seen, e: Env, p: Progress)
    requires e.workers == c.workers && e.ps == c.ps && e.serviceOk == c.serviceOk
    requires p.services == s.services && p.counter == s.counter
    ensures Services(e, p, seen).counter == ServiceCounter(c, s, seen)
  {
    hide Registered, Failures, ServiceFor;
  }

  // ---- From an empty cluster to a finished job -------------------------------

  /** All workers and all PS pods of the current runtime id have been created. */
  ghost predicate Deployed(c: Config, s: System) {
    && |Holders(c, s.created, Worker, s.job.rid)| == c.workers
    && |Holders(c, s.created, PS, s.job.rid)| == c.ps
  }

  /** The listing shows every pod of a set, ours or nobody's, live, and claiming it causes no error. */
  ghost predicate Delivered(c: Config, s: System, typ: ReplicaType, objs: seq<Object>, replies: seq<Option<Error>>)
    requires |objs| == |replies|
  {
    var m := ManagerFor(c.name, c.uid, s.job.rid, typ, false, None);
    && Listing(c.name, s.created, objs)
    && Holders(c, s.created, typ, s.job.rid) <= Uids(objs)
    && (forall o | o in objs && Matches(m.selector, o.labels) :: OursOrOrphan(m, o) && !o.deleting)
    && AdoptionsSucceed(m, objs, replies)
    && Errors(m, objs, replies) == []
  }

  /** What a sync of a deployed job reads while nothing goes wrong: all pods delivered, workers active or succeeded,
      PS pods active, some service of each type that has replicas, and all claims succeed. */
  ghost predicate Healthy(c: Config, s: System, i: Inputs) {
    && Answered(i) && !i.deleting
    && Delivered(c, s, Worker, i.workerPods, i.workerReplies)
    && Delivered(c, s, PS, i.psPods, i.psReplies)
    && ClaimOk(c, s, Worker, false, i.workerServices, i.workerServiceReplies)
    && ClaimOk(c, s, PS, false, i.psServices, i.psServiceReplies)
    && (c.workers > 0 ==> ClaimsFor(c, s, Worker, false, i.workerServices, i.workerServiceReplies) != [])
    && (c.ps > 0 ==> ClaimsFor(c, s, PS, false, i.psServices, i.psServiceReplies) != [])
    && (forall o | o in i.workerPods && Matches(ReplicaLabels(c.name, s.job.rid, Worker), o.labels) ::
          Active(o) || o.phase == Succeeded)
    && (forall o | o in i.psPods && Matches(ReplicaLabels(c.name, s.job.rid, PS), o.labels) :: Active(o))
  }

  /** The sync sees every worker of a runtime id succeeded. */
  ghost predicate AllSucceeded(c: Config, rid: string, i: Inputs) {
    forall o | o in i.workerPods && Matches(ReplicaLabels(c.name, rid, Worker), o.labels) :: o.phase == Succeeded
  }

  /** Delivered pods are claimed, all of them. */
  lemma DeliveredClaims(c: Config, s: System, typ: ReplicaType, objs: seq<Object>, replies: seq<Option<Error>>)
    requires |objs| == |replies| && Delivered(c, s, typ, objs, replies)
    ensures var claims := ClaimsFor(c, s, typ, false, objs, replies);
            && |claims| == |Holders(c, s.created, typ, s.job.rid)|
            && forall o :: o in claims <==> o in objs && Matches(ReplicaLabels(c.name, s.job.rid, typ), o.labels)
  {
    var m := ManagerFor(c.name, c.uid, s.job.rid, typ, false, None);
    var claims, holders := ClaimsFor(c, s, typ, false, objs, replies), Holders(c, s.created, typ, s.job.rid);
    ClaimsAreHolders(c, s, typ, false, objs, replies);
    ClaimedExactly(m, objs, replies);
    forall o | o in objs && Matches(m.selector, o.labels) ensures o in claims {
      var k :| 0 <= k < |objs| && objs[k] == o;
      assert Claimed(m, objs[k], replies[k]);
    }
    forall k | k in holders ensures k in Uids(claims) {
      var o :| o in objs && o.uid == k;
      assert o.labels == s.created[k].labels;
    }
    SubsetSize(holders, Uids(claims));
    SubsetSize(Uids(claims), holders);
  }

  /** Same pods, services, templates and runtime id; at most phase, replica statuses and the counter differ. */
  ghost predicate OnlyStatusChanged(s: System, s': System) {
    s' == s.(job := s.job.(phase := s'.job.phase, statuses := s'.job.statuses), counter := s'.counter)
  }

  /** What a sync counts, from the listings and the answers: the claimed workers and PS pods that have not ended and are
      not being deleted, the claimed workers that have succeeded, and the claimed services, each under its own selector. */
  lemma SeenMeans(c: Config, s: System, i: Inputs)
    requires Answered(i)
    ensures var seen := SeenIn(c, s, i);
            var worker := ManagerFor(c.name, c.uid, s.job.rid, Worker, i.deleting, None);
            var ps := ManagerFor(c.name, c.uid, s.job.rid, PS, i.deleting, None);
            && seen.workers == |ActiveAt(Filtered(worker, i.workerPods, i.workerReplies))|
            && seen.succeeded == |InPhase(Filtered(worker, i.workerPods, i.workerReplies), Succeeded)|
            && seen.ps == |ActiveAt(Filtered(ps, i.psPods, i.psReplies))|
            && seen.workerServices == |Filtered(worker, i.workerServices, i.workerServiceReplies)|
            && seen.psServices == |Filtered(ps, i.psServices, i.psServiceReplies)|
  {
    hide Filtered, Claims, ManagerFor, FilterActive, ActiveAt, InPhase, Count;
    var worker := ManagerFor(c.name, c.uid, s.job.rid, Worker, i.deleting, None);
    var ps := ManagerFor(c.name, c.uid, s.job.rid, PS, i.deleting, None);
    ClaimsRefineFilter(worker, i.workerPods, i.workerReplies);
    ClaimsRefineFilter(ps, i.psPods, i.psReplies);
    ClaimsRefineFilter(worker, i.workerServices, i.workerServiceReplies);
    ClaimsRefineFilter(ps, i.psServices, i.psServiceReplies);
    CountsActive(WorkersOf(c, s, i));
    CountsActive(PSPodsOf(c, s, i));
    CountsInPhase(WorkersOf(c, s, i), Succeeded);
  }

  /** A healthy sync of a deployed job creates nothing and composes nothing. It claims all workers, and the job is
      Succeeded afterwards exactly if it saw all of them succeeded. The counter stays, unless the sync manages a job
      that wants no replica of a type and so no service: then nothing is expected. */
  lemma HealthySync(c: Config, s: System, i: Inputs)
    requires Deployed(c, s) && Healthy(c, s, i)
    ensures !Composing(c, s, i)
    ensures var (s', ok) := Sync(c, s, i);
            && ok && Deployed(c, s')
            && OnlyStatusChanged(s, s')
            && s'.counter == (if Satisfied(s.counter) && !AllServed(SeenIn(c, s, i)) then Some(0) else s.counter)
            && (AllServed(SeenIn(c, s, i)) || c.workers == 0 || c.ps == 0)
            && (s'.job.phase == JobSucceeded <==> AllSucceeded(c, s.job.rid, i))
  {
    hide Healthy, SeenIn, Deployed, AllSucceeded, ClaimsOk, Manage, Updated, Holders;
    HealthySees(c, s, i);
    NothingToManage(c, s, SeenIn(c, s, i));
    StatusAsSeen(c, s, i);
    DeployedAnyway(c, s, Sync(c, s, i).0);
  }

  /** What a healthy sync of a deployed job counts. */
  lemma HealthySees(c: Config, s: System, i: Inputs)
    requires Deployed(c, s) && Healthy(c, s, i)
    ensures Answered(i) && !i.deleting && ClaimsOk(c, s, i)
    ensures var seen := SeenIn(c, s, i);
            && seen.workers + seen.succeeded == c.workers && seen.ps == c.ps
            && (c.workers > 0 ==> seen.workerServices > 0) && (c.ps > 0 ==> seen.psServices > 0)
            && (seen.succeeded == c.workers <==> AllSucceeded(c, s.job.rid, i))
  {
    DeliveredClaims(c, s, Worker, i.workerPods, i.workerReplies);
    DeliveredClaims(c, s, PS, i.psPods, i.psReplies);
    var workers, ps := WorkersOf(c, s, i), PSPodsOf(c, s, i);
    ActivePlusSucceeded(workers);
    ActivePlusSucceeded(ps);
    assert ClaimsOk(c, s, i);
    hide ClaimsFor, ClaimsOk, Matches, Delivered, Holders;
    AllActive(ps);
    CountsAll(workers);
  }

  lemma StatusAsSeen(c: Config, s: System, i: Inputs)
    requires Answered(i)
    ensures WithStatus(c, s.job, WorkersOf(c, s, i), PSPodsOf(c, s, i)).phase == JobSucceeded
       <==> SeenIn(c, s, i).succeeded == c.workers
  {
    hide ClaimsFor, Upsert;
  }

  lemma DeployedAnyway(c: Config, s: System, s': System)
    requires Deployed(c, s) && s'.created == s.created && s'.job.rid == s.job.rid
    ensures Deployed(c, s')
  {
    hide Holders;
  }

  lemma {:induction false} AllActive(pods: seq<Object>)
    requires forall o | o in pods :: Active(o)
    ensures |FilterActive(pods)| == |pods|
  {
    if pods != [] {
      AllActive(pods[..|pods| - 1]);
      assert pods[|pods| - 1] in pods;
    }
  }

  lemma {:induction false} CountsAll(pods: seq<Object>)
    ensures Count(pods, Succeeded) == |pods| <==> forall o | o in pods :: o.phase == Succeeded
  {
    if pods != [] {
      CountsAll(pods[..|pods| - 1]);
      assert pods[|pods| - 1] in pods;
      assert forall o | o in pods[..|pods| - 1] :: o in pods;
    }
  }

  lemma NothingToManage(c: Config, s: System, seen: Seen)
    requires seen.workers + seen.succeeded == c.workers && seen.ps == c.ps
    requires (c.workers > 0 ==> seen.workerServices > 0) && (c.ps > 0 ==> seen.psServices > 0)
    ensures Manage(c, s, seen) == (s.(counter := if AllServed(seen) then s.counter else Some(0)), true)
    ensures !Composes(c.workers, seen)
  {
    hide Composed, ServiceFor, AddServices;
    var e := EnvOf(c, s.job.rid);
    var p := Progress(map[], s.drawn, s.services, s.attempted, s.created, s.job.worker, s.job.ps, s.counter, false);
    AddNoService(e, p, Worker);
    AddNoService(e, if seen.workerServices == 0 then AddServices(e, p, Worker, 0) else p, PS);
  }

  lemma AddNoService(e: Env, p: Progress, typ: ReplicaType)
    ensures AddServices(e, p, typ, 0) == p.(counter := Some(0))
  {
    hide ServiceFor;
  }

  /** Services of both types were claimed. */
  predicate AllServed(seen: Seen) {
    seen.workerServices > 0 && seen.psServices > 0
  }

  /** A step of an undisturbed run: a healthy sync; any change of the expectation counter, so that later syncs may or
      may not reach `manageTFJob`; or another version of the job with the same runtime id. */
  ghost predicate HealthyStep(c: Config, w: State, step: Step) {
    match step
    case SyncStep(i) => Healthy(c, w.s, i)
    case SetCounter(_) => true
    case Rollback(job) => job.rid == w.s.job.rid && NotWorker(LabelsOf(job.ps))
  }

  ghost predicate HealthySteps(c: Config, w: State, steps: seq<Step>)
    decreases |steps|
  {
    steps == [] ||
    (HealthyStep(c, w, steps[0]) && Enabled(c, w, steps[0]) && HealthySteps(c, Next(c, w, steps[0]), steps[1..]))
  }

  /** Nothing was created or attempted, and no runtime id composed. */
  ghost predicate NothingMade(w: State, w': State) {
    && w'.s.created == w.s.created && w'.s.attempted == w.s.attempted && w'.s.services == w.s.services
    && w'.s.drawn == w.s.drawn && w'.s.job.rid == w.s.job.rid && w'.ids == w.ids
  }

  /** A sync leaves the job Succeeded exactly if it saw all workers of the runtime id succeeded. */
  ghost predicate PhaseFollows(c: Config, rid: string, step: Step, phase: JobPhase) {
    step.SyncStep? ==> (phase == JobSucceeded <==> AllSucceeded(c, rid, step.inputs))
  }

  lemma NothingMadeTwice(a: State, b: State, d: State)
    requires NothingMade(a, b) && NothingMade(b, d)
    ensures NothingMade(a, d) && b.s.job.rid == a.s.job.rid
  {
  }

  lemma HealthyIsListed(c: Config, s: System, i: Inputs)
    requires Healthy(c, s, i)
    ensures Answered(i) && Listing(c.name, s.created, i.workerPods) && Listing(c.name, s.created, i.psPods)
  {
    hide Listing, Holders, AdoptionsSucceed, ClaimOk, ClaimsFor, Matches;
  }

  /** A healthy step of a deployed job is enabled, and makes nothing. */
  lemma HealthyStepMakesNothing(c: Config, w: State, step: Step)
    requires Deployed(c, w.s) && HealthyStep(c, w, step)
    ensures Enabled(c, w, step)
    ensures var w' := Next(c, w, step);
            && NothingMade(w, w') && Deployed(c, w'.s)
            && PhaseFollows(c, w.s.job.rid, step, w'.s.job.phase)
  {
    hide Healthy, Holders, Sync, Composing, AllSucceeded, SeenIn;
    if step.SyncStep? {
      HealthySync(c, w.s, step.inputs);
      HealthyIsListed(c, w.s, step.inputs);
      hide Listing;
    }
  }

  /** Whole-run completion: from a deployed job, any run of healthy syncs, in which the expectation counter changes at
      will in between, creates nothing and keeps the runtime id; and a sync leaves the job Succeeded exactly if it saw
      all workers succeeded. */
  lemma {:induction false} HealthyRun(c: Config, w: State, steps: seq<Step>)
    requires Deployed(c, w.s) && HealthySteps(c, w, steps)
    ensures Allowed(c, w, steps)
    ensures var w' := Run(c, w, steps);
            && NothingMade(w, w') && Deployed(c, w'.s)
            && (steps != [] ==> PhaseFollows(c, w.s.job.rid, steps[|steps| - 1], w'.s.job.phase))
    decreases |steps|
  {
    hide *;
    if steps == [] {
      RunOfNothing(c, w, steps);
    } else {
      FirstHealthyStep(c, w, steps);
      HealthyStepMakesNothing(c, w, steps[0]);
      var w1 := Next(c, w, steps[0]);
      HealthyRun(c, w1, steps[1..]);
      RunFromFirst(c, w, steps);
      NothingMadeTwice(w, w1, Run(c, w1, steps[1..]));
      if |steps| == 1 {
        RunOfNothing(c, w1, steps[1..]);
      } else {
        assert steps[1..][|steps[1..]| - 1] == steps[|steps| - 1];
      }
    }
  }

  lemma RunOfNothing(c: Config, w: State, steps: seq<Step>)
    requires steps == []
    ensures Allowed(c, w, steps) && Run(c, w, steps) == w && NothingMade(w, w)
  {
  }

  lemma FirstHealthyStep(c: Config, w: State, steps: seq<Step>)
    requires steps != [] && HealthySteps(c, w, steps)
    ensures HealthyStep(c, w, steps[0]) && Enabled(c, w, steps[0]) && HealthySteps(c, Next(c, w, steps[0]), steps[1..])
  {
    hide HealthyStep, Enabled, Next;
  }

  lemma RunFromFirst(c: Config, w: State, steps: seq<Step>)
    requires steps != [] && Enabled(c, w, steps[0]) && Allowed(c, Next(c, w, steps[0]), steps[1..])
    ensures Allowed(c, w, steps) && Run(c, w, steps) == Run(c, Next(c, w, steps[0]), steps[1..])
  {
    hide Enabled, Next;
  }

  /** A first sync on an empty cluster deploys the job exactly if none of its create calls fails. */
  lemma FirstSyncDeploysIff(c: Config, s: System, i: Inputs)
    requires c.ps >= 0 && s.created == []
    requires Answered(i) && !i.deleting && ClaimsOk(c, s, i) && Satisfied(s.counter)
    requires FromScratch(c, SeenIn(c, s, i))
    ensures Sync(c, s, i).1 <==> AllCreate(c, s, c.workers + c.ps)
    ensures Deployed(c, Sync(c, s, i).0) <==> AllCreate(c, s, c.workers + c.ps)
  {
    var seen, s' := SeenIn(c, s, i), Sync(c, s, i).0;
    PlannedFromScratch(c, s, seen);
    ManageCounts(c, s, seen);
    SyncCreatesPrefix(c, s, i);
    hide SeenIn, Sync, PlannedPods, Holders, Manage, ClaimsOk;
    if AllCreate(c, s, c.workers + c.ps) {
      assert s'.created == PlannedPods(c, s, seen);
      PlannedHolders(c, s, seen, Worker);
      PlannedHolders(c, s, seen, PS);
    } else {
      HoldersAreApart(c, s'.created, s'.job.rid);
    }
  }

  /** No pod counts as a worker and as a PS. */
  lemma HoldersAreApart(c: Config, created: seq<PodSpec>, rid: string)
    ensures |Holders(c, created, Worker, rid)| + |Holders(c, created, PS, rid)| <= |created|
  {
    var workers, ps := Holders(c, created, Worker, rid), Holders(c, created, PS, rid);
    assert JobType in ReplicaLabels(c.name, rid, Worker) && JobType in ReplicaLabels(c.name, rid, PS);
    assert |TypeName(Worker)| == 6 && |TypeName(PS)| == 2;
    assert workers * ps == {};
    assert |workers + ps| == |workers| + |ps|;
    SubsetSize(workers + ps, Range(0, |created|));
  }

  /** What a first sync finds: an initial state, a live job, and nothing of it claimed. */
  ghost predicate FirstSync(c: Config, w: State, first: Inputs) {
    && Initial(c, w) && w.s.counter == None && w.ids == {}
    && Answered(first) && !first.deleting && ClaimsOk(c, w.s, first)
    && Listing(c.name, [], first.workerPods) && Listing(c.name, [], first.psPods)
    && FromScratch(c, SeenIn(c, w.s, first))
  }

  /** A whole life: a first sync on an empty cluster none of whose create calls fails, then any undisturbed run. The pods are
      those of the first sync throughout, and a sync leaves the job Succeeded exactly if it saw all workers done. */
  lemma EmptyToFinished(c: Config, w: State, first: Inputs, steps: seq<Step>)
    requires c.ps >= 0 && FirstSync(c, w, first) && AllCreate(c, w.s, c.workers + c.ps)
    ensures Enabled(c, w, SyncStep(first))
    ensures var w1 := Next(c, w, SyncStep(first));
            HealthySteps(c, w1, steps) ==>
              && Allowed(c, w1, steps)
              && var w' := Run(c, w1, steps);
                 && w'.s.created == PlannedPods(c, w.s, SeenIn(c, w.s, first)) && |w'.s.created| == c.workers + c.ps
                 && w'.s.attempted == w1.s.attempted && w'.s.services == w1.s.services
                 && w'.s.job.rid == FreshId(c, w.s) && w'.ids == {FreshId(c, w.s)}
                 && (steps != [] ==> PhaseFollows(c, FreshId(c, w.s), steps[|steps| - 1], w'.s.job.phase))
  {
    FirstStep(c, w, first);
    var w1 := Next(c, w, SyncStep(first));
    hide FirstSync, Next, HealthySteps, Allowed, Run, PlannedPods, Deployed, SeenIn, Enabled, PhaseFollows;
    if HealthySteps(c, w1, steps) {
      HealthyRun(c, w1, steps);
    }
  }

  /** The state after a successful first sync. */
  lemma FirstStep(c: Config, w: State, first: Inputs)
    requires c.ps >= 0 && FirstSync(c, w, first) && AllCreate(c, w.s, c.workers + c.ps)
    ensures Enabled(c, w, SyncStep(first))
    ensures var w1, seen := Next(c, w, SyncStep(first)), SeenIn(c, w.s, first);
            && Deployed(c, w1.s)
            && w1.s.created == PlannedPods(c, w.s, seen) && |w1.s.created| == c.workers + c.ps
            && w1.s.job.rid == FreshId(c, w.s) && w1.ids == {FreshId(c, w.s)}
  {
    var seen := SeenIn(c, w.s, first);
    PlannedFromScratch(c, w.s, seen);
    hide SeenIn, PlannedPods, ClaimsOk, Listing;
    assert Composing(c, w.s, first);
    FirstSyncDeploysIff(c, w.s, first);
    SyncCreatesPlan(c, w.s, first);
    hide Sync, Deployed;
  }

  lemma PlannedHolders(c: Config, s: System, seen: Seen, typ: ReplicaType)
    requires FromScratch(c, seen) && typ != Local
    ensures Holders(c, PlannedPods(c, s, seen), typ, Prepared(c, s, seen).0.rid)
         == if typ == Worker then Range(0, c.workers) else Range(c.workers, Nat(c.ps))
  {
    hide PlannedPods, Matches;
    PlannedFromScratch(c, s, seen);
    var rid := Prepared(c, s, seen).0.rid;
    forall k | 0 <= k < |PlannedPods(c, s, seen)|
      ensures Matches(ReplicaLabels(c.name, rid, typ), PlannedPods(c, s, seen)[k].labels) <==> SlotAt(c.workers, k).0 == typ
    {
      PlannedPodAt(c, s, seen, k);
      TypeDecides(c.name, rid, typ, SlotAt(c.workers, k).0, Decimal(SlotAt(c.workers, k).1));
    }
  }

  lemma TypeDecides(name: string, rid: string, typ: ReplicaType, typ': ReplicaType, index: string)
    ensures Matches(ReplicaLabels(name, rid, typ), ReplicaLabels(name, rid, typ')[Index := index]) <==> typ == typ'
  {
    assert JobType in ReplicaLabels(name, rid, typ);
    if TypeName(typ) == TypeName(typ') {
      TypeNamesDiffer(typ, typ');
    }
  }

  // ---- What does not converge ------------------------------------------------

  /** A sync that composes a new runtime id abandons the pods of the old one. Whatever creates fail, the new id is
      carried by those of the missing workers that were created. So the job has all its workers again exactly if none
      of the old ones was active or succeeded and no worker's create call failed. */
  lemma RecreationCompleteIff(c: Config, w: State, i: Inputs)
    requires Inv(c, w) && Enabled(c, w, SyncStep(i)) && Composing(c, w.s, i)
    ensures var s', seen := Sync(c, w.s, i).0, SeenIn(c, w.s, i);
            var carriers, missing := Holders(c, s'.created, Worker, s'.job.rid), WorkerPodCount(c, seen);
            && |s'.created| >= |w.s.created|
            && var k := |s'.created| - |w.s.created|;
               && s'.job.rid == FreshId(c, w.s)
               && CreatesFirst(c.podOk, |w.s.attempted|, k, missing + PSPodCount(c, seen))
               && |carriers| == (if k < missing then k else missing)
               && (|carriers| == c.workers <==>
                     && seen.workers == 0 && seen.succeeded == 0
                     && AllCreate(c, w.s, c.workers))
  {
    hide SeenIn, Composing, Sync, Inv, Manage, PlannedPods, Holders, CreatesFirst, AllCreate, Listing, FreshId;
    var seen, s' := SeenIn(c, w.s, i), Sync(c, w.s, i).0;
    ComposesIsMissing(c, w.s, i);
    ManageCounts(c, w.s, seen);
    SyncCreatesPrefix(c, w.s, i);
    CarriersOfNewId(c, w, i);
    CreatesFirstReaches(c, w.s, |s'.created| - |w.s.created|, WorkerPodCount(c, seen) + PSPodCount(c, seen), c.workers);
  }

  lemma ComposesIsMissing(c: Config, s: System, i: Inputs)
    requires Answered(i) && Composing(c, s, i)
    ensures var seen := SeenIn(c, s, i);
            WorkerPodCount(c, seen) == c.workers - seen.succeeded - seen.workers > 0
  {
    hide SeenIn, ClaimsOk;
  }

  lemma CreatesFirstReaches(c: Config, s: System, k: nat, n: nat, m: nat)
    requires CreatesFirst(c.podOk, |s.attempted|, k, n)
    ensures m <= n ==> (k >= m <==> AllCreate(c, s, m))
  {
  }

  /** Those of the missing workers that a sync created are the ones that carry its new id. */
  lemma CarriersOfNewId(c: Config, w: State, i: Inputs)
    requires Inv(c, w) && Enabled(c, w, SyncStep(i)) && Composing(c, w.s, i)
    ensures var s', missing := Sync(c, w.s, i).0, WorkerPodCount(c, SeenIn(c, w.s, i));
            && |s'.created| >= |w.s.created|
            && var k := |s'.created| - |w.s.created|;
               |Holders(c, s'.created, Worker, s'.job.rid)| == if k < missing then k else missing
  {
    hide SeenIn, Composing, Sync, Manage, PlannedPods, Holders, Batch, NotWorker, Listing, DistinctIndices;
    var seen, rid := SeenIn(c, w.s, i), FreshId(c, w.s);
    assert Holders(c, w.s.created, Worker, rid) == {} && NotWorker(LabelsOf(w.s.job.ps));
    hide Inv;
    SyncCreatesPrefix(c, w.s, i);
    PlanIsBatch(c, w.s, seen);
    var s' := Sync(c, w.s, i).0;
    var batch := s'.created[|w.s.created|..];
    PrefixIsBatch(c, PlannedPods(c, w.s, seen), batch, WorkerPodCount(c, seen), rid);
    BatchHolders(c, w.s.created, batch, WorkerPodCount(c, seen), rid, rid);
    assert s'.created == w.s.created + batch;
  }

  lemma PrefixIsBatch(c: Config, plan: seq<PodSpec>, batch: seq<PodSpec>, n: nat, rid: string)
    requires Batch(c, plan, n, rid) && batch <= plan
    ensures Batch(c, batch, n, rid)
  {
    hide NotWorker, ReplicaLabels, Decimal;
    assert forall k | 0 <= k < |batch| :: batch[k] == plan[k];
  }

  /** A composing sync creates a prefix of its plan under the new id. */
  lemma SyncCreatesPrefix(c: Config, s: System, i: Inputs)
    requires Answered(i) && Composing(c, s, i)
    ensures var s', seen := Sync(c, s, i).0, SeenIn(c, s, i);
            && s'.created == Manage(c, s, seen).0.created && s'.job.rid == FreshId(c, s)
            && s.created <= s'.created && s'.created[|s.created|..] <= PlannedPods(c, s, seen)
  {
    hide SeenIn, ClaimsOk, WorkersOf, PSPodsOf, Manage, Updated, PlannedPods;
    ManageFollowsPlan(c, s, SeenIn(c, s, i));
  }

  /** A composing sync without failure creates exactly its plan. */
  lemma SyncCreatesPlan(c: Config, s: System, i: Inputs)
    requires Answered(i) && Composing(c, s, i) && Sync(c, s, i).1
    ensures var s' := Sync(c, s, i).0;
            && s'.created == s.created + PlannedPods(c, s, SeenIn(c, s, i))
            && s'.job.rid == FreshId(c, s)
  {
    hide SeenIn, ClaimsOk, WorkersOf, PSPodsOf, Manage, Updater.Upsert, PlannedPods;
    var s' := Sync(c, s, i).0;
    ManageFollowsPlan(c, s, SeenIn(c, s, i));
    assert s'.created[|s.created|..] == PlannedPods(c, s, SeenIn(c, s, i));
  }

  /** For a sync that wants pods, whatever it has seen and whatever creates fail, with `w` workers and `p` PS missing:
      the counter it leaves is at least the number of pods it created, and so keeps the next sync waiting for all of
      them, exactly if pods of one type only are missing or one of the first `max(w, p)` create calls fails. The two
      are equal, so that the next sync waits for nothing else, exactly if pods of one type only are missing and nothing
      fails, or the first call to fail is the last for a worker or, with more PS missing, the p-th. */
  lemma ExpectationsCoverIff(c: Config, s: System, seen: Seen)
    ensures var s', w, p := Manage(c, s, seen).0, WorkerPodCount(c, seen), PSPodCount(c, seen);
            && |s'.created| >= |s.created|
            && var k := |s'.created| - |s.created|;
               && (w + p > 0 ==> s'.counter.Some? && s'.counter.value >= 0)
               && (w + p > 0 ==>
                     (s'.counter.value >= k <==>
                        w == 0 || p == 0 || !AllCreate(c, s, Max(w, p))))
               && (w + p > 0 ==>
                     (s'.counter.value == k <==>
                        || (AllCreate(c, s, w + p) && (w == 0 || p == 0))
                        || (w > 0 && FirstToFail(c, s, w - 1))
                        || (p > w && FirstToFail(c, s, p - 1))))
               && (w + p == 0 ==> k == 0 && s'.counter == ServiceCounter(c, s, seen))
  {
    ManageCounts(c, s, seen);
    hide Manage, ServiceCounter;
  }

  function Max(a: nat, b: nat): nat {
    if a > b then a else b
  }

  /** Of the next create calls the n-th is the first to fail. */
  ghost predicate FirstToFail(c: Config, s: System, n: nat) {
    AllCreate(c, s, n) && !c.podOk(|s.attempted| + n)
  }

  /** A sync that registers services and creates no pods because none is missing keeps the next one waiting exactly if
      one of the services it expected last was created. These services do not lower the expectation when they are seen,
      because they have no owner then. */
  lemma ServicesAloneBlockIff(c: Config, s: System, seen: Seen)
    requires WorkerPodCount(c, seen) == 0 && PSPodCount(c, seen) == 0 && !AllServed(seen)
    ensures var s' := Manage(c, s, seen).0;
            var before := |s.services| + (if seen.psServices == 0 then WorkerServiceCount(c, seen) else 0);
            var number := if seen.psServices == 0 then c.ps else c.workers - seen.succeeded;
            && s'.created == s.created
            && (!Satisfied(s'.counter) <==> exists j :: before <= j < before + number && c.serviceOk(j))
  {
    ManageCounts(c, s, seen);
    ManageFollowsPlan(c, s, seen);
    hide Manage;
    if seen.psServices == 0 {
      FailuresBelowIff(c.serviceOk, |s.services| + WorkerServiceCount(c, seen), Nat(c.ps));
    } else {
      FailuresBelowIff(c.serviceOk, |s.services|, Nat(c.workers - seen.succeeded));
    }
  }

  lemma {:induction false} FailuresBelowIff(ok: nat -> bool, from: nat, n: nat)
    ensures Failures(ok, from, n) <= n
    ensures Failures(ok, from, n) < n <==> exists j :: from <= j < from + n && ok(j)
  {
    if n > 0 {
      FailuresBelowIff(ok, from, n - 1);
      if j :| from <= j < from + n && ok(j) {
        assert j < from + n - 1 || ok(from + n - 1);
      }
    }
  }

  lemma CreatedAll(c: Config, s: System, seen: Seen)
    requires Manage(c, s, seen).1
    ensures |Manage(c, s, seen).0.created| == |s.created| + |PlannedPods(c, s, seen)|
  {
    hide Manage, PlannedPods;
    ManageFollowsPlan(c, s, seen);
  }
}
