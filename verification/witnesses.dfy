/** Concrete runs of a distributed job in which the code does not do what one might expect of it. */
module Witnesses {
  import opened Text
  import opened Api
  import opened Ref
  import opened RefProperties
  import opened TensorFlow
  import opened Plan
  import opened Controller
  import opened Wirings
  import opened DistributedRun

  // ---- A job with one PS on an empty cluster ---------------------------------

  /** No create call fails. The first suffix drawn, which becomes the first runtime id, is not drawn again. */
  function JobWith(workers: nat): Config {
    Config("job", 7, workers, 1, n => if n == 0 then "aaaaa" else "bbbbb", _ => true, _ => true)
  }

  function EmptyCluster(): State {
    State(System(JobState("", Template(None, []), Template(None, []), NoPhase, []), 0, [], [], [], None), {})
  }

  function NothingListed(): Inputs {
    Inputs(false, [], [], [], [], [], [], [], [])
  }

  lemma AllCreatesSucceed(c: Config, s: System, seen: Seen)
    requires forall n :: c.podOk(n)
    ensures Manage(c, s, seen).1
  {
    hide ServicePlan, Registered, Composed, PodPlan, Failures;
  }

  lemma DrawsGoOn(c: Config, s: System, seen: Seen)
    requires Composes(c.workers, seen)
    ensures Manage(c, s, seen).0.drawn > s.drawn
  {
    hide ServicePlan, Registered, Composed, PodPlan, Failures, Successes;
  }

  lemma NothingSeen(c: Config, s: System)
    ensures SeenIn(c, s, NothingListed()) == Seen(0, 0, 0, 0, 0) && ClaimsOk(c, s, NothingListed())
  {
  }

  lemma FirstSyncSucceeds(workers: nat)
    requires workers >= 1
    ensures FirstSync(JobWith(workers), EmptyCluster(), NothingListed())
    ensures SeenIn(JobWith(workers), EmptyCluster().s, NothingListed()) == Seen(0, 0, 0, 0, 0)
    ensures Sync(JobWith(workers), EmptyCluster().s, NothingListed()).1
  {
    hide Manage, SeenIn, ClaimsOk;
    var c, s := JobWith(workers), EmptyCluster().s;
    NothingSeen(c, s);
    AllCreatesSucceed(c, s, Seen(0, 0, 0, 0, 0));
  }

  // ---- Waiting for one pod of two --------------------------------------------

  /** The first sync of a job with one worker and one PS creates two pods and expects one. */
  lemma TwoCreatedOneExpected()
    ensures FirstSync(JobWith(1), EmptyCluster(), NothingListed())
    ensures var s' := Sync(JobWith(1), EmptyCluster().s, NothingListed()).0;
            |s'.created| == 2 && s'.counter == Some(1)
  {
    var c, s, i := JobWith(1), EmptyCluster().s, NothingListed();
    FirstSyncSucceeds(1);
    PlannedFromScratch(c, s, SeenIn(c, s, i));
    hide Manage, FirstSync, PlannedPods;
    assert Manage(c, s, SeenIn(c, s, i)).1;
    ExpectationsCoverIff(c, s, SeenIn(c, s, i));
    CreatedAll(c, s, SeenIn(c, s, i));
  }

  /** When all pods are there but the worker service was not listed, the next sync registers it again, creates no pod,
      and leaves an expectation that keeps the following syncs waiting. */
  lemma LostServiceBlocks(s: System)
    ensures var s' := Manage(JobWith(1), s, Seen(1, 0, 1, 1, 0)).0;
            s'.created == s.created && !Satisfied(s'.counter)
  {
    ServicesAloneBlockIff(JobWith(1), s, Seen(1, 0, 1, 1, 0));
    hide Manage;
    assert JobWith(1).serviceOk(|s.services|);
  }

  // ---- Making up for a lost worker -------------------------------------------

  /** A pod or service as a cache shows it. */
  function Shown(uid: nat, labels: Labels, phase: PodPhase): Object {
    Object("", uid, labels, [ControllerRefFor("job", 7)], false, phase)
  }

  /** The three pods created first, of which the second has failed, and their services. */
  function OneFailed(s: System): (i: Inputs)
    requires |s.created| == |s.services| == 3
    ensures Answered(i) && !i.deleting
  {
    var pods := [Shown(0, s.created[0].labels, Running), Shown(1, s.created[1].labels, Failed),
                 Shown(2, s.created[2].labels, Running)];
    var services := [Shown(0, s.services[0].labels, Unknown), Shown(1, s.services[1].labels, Unknown),
                     Shown(2, s.services[2].labels, Unknown)];
    var replies := [None, None, None];
    Inputs(false, pods, replies, pods, replies, services, replies, services, replies)
  }

  /** Two objects of the job labelled as workers and one labelled as a PS, and a pass for one of the types. */
  lemma ClaimsByType(m: Manager, typ: ReplicaType, name: string, rid: string, objs: seq<Object>)
    requires typ != Local && |objs| == 3 && m.selector == ReplicaLabels(name, rid, typ)
    requires forall k | 0 <= k < 3 :: OwnedBy(m, objs[k])
    requires forall k | 0 <= k < 3 ::
               objs[k].labels == ReplicaLabels(name, rid, SlotAt(2, k).0)[Index := Decimal(SlotAt(2, k).1)]
    ensures Claims(m, objs, [None, None, None]) == if typ == Worker then [objs[0], objs[1]] else [objs[2]]
    ensures Errors(m, objs, [None, None, None]) == []
  {
    var none: Option<Error> := None;
    var replies := [none, none, none];
    NoErrorIffAllForgiven(m, objs, replies);
    ClaimsRefineFilter(m, objs, replies);
    forall k | 0 <= k < 3 ensures Selected(m, objs[k]) <==> SlotAt(2, k).0 == typ {
      TypeDecides(name, rid, typ, SlotAt(2, k).0, Decimal(SlotAt(2, k).1));
    }
    hide Claims, Errors, OwnedBy, Selected, LiveOrphan, ReplicaLabels, Decimal;
    assert objs[1..][1..] == objs[2..] && objs[2..][1..] == [];
    assert replies[1..][1..] == replies[2..] && replies[2..][1..] == [];
    assert Filtered(m, objs[2..], replies[2..]) == if typ == Worker then [] else [objs[2]];
    assert Filtered(m, objs[1..], replies[1..]) == if typ == Worker then [objs[1]] else [objs[2]];
  }

  /** The labels of the three pods and services of a first sync for two workers and a PS. */
  ghost predicate ThreeMade(s: System) {
    && |s.created| == |s.services| == 3
    && forall k | 0 <= k < 3 ::
         && s.created[k].labels == ReplicaLabels("job", s.job.rid, SlotAt(2, k).0)[Index := Decimal(SlotAt(2, k).1)]
         && s.services[k].labels == s.created[k].labels
  }

  lemma ListsOneFailed(s: System)
    requires |s.created| == |s.services| == 3
    ensures Listing("job", s.created, OneFailed(s).workerPods) && Listing("job", s.created, OneFailed(s).psPods)
  {
  }

  lemma ClaimsOneFailed(c: Config, s: System)
    requires c.name == "job" && c.uid == 7 && ThreeMade(s)
    ensures var i := OneFailed(s);
            && ClaimsOk(c, s, i)
            && WorkersOf(c, s, i) == i.workerPods[..2] && PSPodsOf(c, s, i) == i.psPods[2..]
            && |ClaimsFor(c, s, Worker, i.deleting, i.workerServices, i.workerServiceReplies)| == 2
            && |ClaimsFor(c, s, PS, i.deleting, i.psServices, i.psServiceReplies)| == 1
  {
    hide Decimal, ReplicaLabels, Claims, Errors;
    var i := OneFailed(s);
    var worker := ManagerFor(c.name, c.uid, s.job.rid, Worker, false, None);
    var ps := ManagerFor(c.name, c.uid, s.job.rid, PS, false, None);
    ClaimsByType(worker, Worker, "job", s.job.rid, i.workerPods);
    ClaimsByType(ps, PS, "job", s.job.rid, i.psPods);
    ClaimsByType(worker, Worker, "job", s.job.rid, i.workerServices);
    ClaimsByType(ps, PS, "job", s.job.rid, i.psServices);
  }

  /** What a sync sees of them. */
  lemma SeesOneFailed(c: Config, s: System)
    requires c.name == "job" && c.uid == 7 && ThreeMade(s)
    ensures ClaimsOk(c, s, OneFailed(s)) && SeenIn(c, s, OneFailed(s)) == Seen(1, 2, 1, 1, 0)
  {
    ClaimsOneFailed(c, s);
    hide ClaimsFor, ClaimOk, ThreeMade;
    var i := OneFailed(s);
    assert i.workerPods[..2] == [i.workerPods[0], i.workerPods[1]] && i.psPods[2..] == [i.psPods[2]];
    CountsOfOneFailed(i.workerPods[0], i.workerPods[1], i.psPods[2]);
  }

  lemma CountsOfOneFailed(a: Object, b: Object, p: Object)
    requires Active(a) && a.phase == Running && b.phase == Failed && Active(p)
    ensures |FilterActive([a, b])| == 1 && Count([a, b], Succeeded) == 0 && |FilterActive([p])| == 1
  {
    assert [a, b][..1] == [a] && [a][..0] == [] && [p][..0] == [];
  }

  /** What the sync after the failure makes of a deployed job: only one pod of the two wanted carries the new runtime
      id, and it is given an empty address. */
  ghost predicate HalfMadeUp(c: Config, w: State) {
    && |w.s.created| == |w.s.services| == 3
    && Enabled(c, w, SyncStep(OneFailed(w.s)))
    && var s' := DistributedRun.Next(c, w, SyncStep(OneFailed(w.s))).s;
       && |s'.created| == 4 && s'.job.rid != w.s.job.rid
       && |Holders(c, s'.created, Worker, s'.job.rid)| == 1
       && ":2222" in HostsRead(s'.created[3])
  }

  /** The pods and services of a successful first sync, and the suffixes drawn. */
  lemma AfterFirstSync(c: Config, w: State, first: Inputs)
    requires c.ps >= 0 && FirstSync(c, w, first) && Sync(c, w.s, first).1 && w.s.services == []
    ensures var s' := Sync(c, w.s, first).0;
            && s'.job.rid == FreshId(c, w.s) && s'.drawn > w.s.drawn
            && |s'.created| == |s'.services| == c.workers + c.ps
            && forall k | 0 <= k < c.workers + c.ps ::
                 && s'.created[k].labels ==
                    ReplicaLabels(c.name, s'.job.rid, SlotAt(c.workers, k).0)[Index := Decimal(SlotAt(c.workers, k).1)]
                 && s'.services[k].labels == s'.created[k].labels
  {
    var s', seen := Sync(c, w.s, first).0, SeenIn(c, w.s, first);
    hide Decimal, ReplicaLabels, SeenIn, PlannedPods, PlannedServices, Manage, ClaimsOk, ClusterArgs, Listing;
    assert Composing(c, w.s, first);
    PlannedFromScratch(c, w.s, seen);
    SyncCreatesPlan(c, w.s, first);
    ManageFollowsPlan(c, w.s, seen);
    DrawsGoOn(c, w.s, seen);
    assert s'.services == Manage(c, w.s, seen).0.services == PlannedServices(c, w.s, seen);
    hide Sync, Handed;
    forall k | 0 <= k < c.workers + c.ps
      ensures s'.created[k].labels ==
              ReplicaLabels(c.name, s'.job.rid, SlotAt(c.workers, k).0)[Index := Decimal(SlotAt(c.workers, k).1)]
      ensures s'.services[k].labels == s'.created[k].labels
    {
      PlannedPodAt(c, w.s, seen, k);
      PlannedServiceAt(c, w.s, seen, k);
    }
  }

  lemma DeployedByFirstSync(c: Config, w: State) returns (w1: State)
    requires c == JobWith(2) && w == EmptyCluster()
    ensures FirstSync(c, w, NothingListed()) && StepsTo(c, w, SyncStep(NothingListed()), w1)
    ensures Deployed(c, w1.s) && Inv(c, w1) && ThreeMade(w1.s)
    ensures w1.s.drawn > 0 && w1.s.job.rid == "aaaaa" && w1.ids == {"aaaaa"}
  {
    hide Inv, Deployed, Sync, SeenIn, PlannedPods, Decimal, ReplicaLabels, Composing;
    FirstSyncSucceeds(2);
    InitialInv(c, w);
    assert FreshId(c, w.s) == "" + "aaaaa" == "aaaaa";
    hide FreshId;
    FirstStep(c, w, NothingListed());
    AfterFirstSync(c, w, NothingListed());
    SyncKeepsInv(c, w, NothingListed());
    w1 := DistributedRun.Next(c, w, SyncStep(NothingListed()));
    hide FirstSync, Enabled;
  }

  /** The one pod that is created after the failure. */
  lemma OnePodWithoutAddress(c: Config, s: System, seen: Seen)
    requires c == JobWith(2) && seen == Seen(1, 2, 1, 1, 0)
    ensures var plan := PlannedPods(c, s, seen);
            |plan| == 1 && ":2222" in HostsRead(plan[0])
  {
    hide Manage, PlannedServices, HostsRead, PodPlan, WellWired;
    AllCreatesSucceed(c, s, seen);
    ManageFollowsPlan(c, s, seen);
    WiringCompleteIff(c, s, seen);
    var plan := PlannedPods(c, s, seen);
    hide PlannedPods;
    var pods := Manage(c, s, seen).0.attempted[|s.attempted|..];
    assert pods == plan && plan[0] in pods;
  }

  lemma SecondSyncComposes(c: Config, w: State)
    requires c == JobWith(2) && w.s.counter == Some(0)
    requires w.s.drawn > 0 && w.ids == {"aaaaa"} && ThreeMade(w.s)
    ensures var i := OneFailed(w.s);
            && SeenIn(c, w.s, i) == Seen(1, 2, 1, 1, 0)
            && Enabled(c, w, SyncStep(i)) && Composing(c, w.s, i) && Sync(c, w.s, i).1 && FreshId(c, w.s) == "bbbbb"
  {
    hide SeenIn, ClaimsOk, Listing, Manage, OneFailed, ReplicaLabels, Decimal, WorkersOf, PSPodsOf;
    var i := OneFailed(w.s);
    SeesOneFailed(c, w.s);
    ListsOneFailed(w.s);
    AllCreatesSucceed(c, w.s, Seen(1, 2, 1, 1, 0));
    assert "" + "bbbbb" == "bbbbb";
  }

  lemma SecondSync(c: Config, w: State)
    requires c == JobWith(2) && Inv(c, w) && w.s.counter == Some(0)
    requires w.s.drawn > 0 && w.s.job.rid == "aaaaa" && w.ids == {"aaaaa"} && ThreeMade(w.s)
    ensures HalfMadeUp(c, w)
  {
    hide SeenIn, Sync, Composing, Inv, Holders, Manage, PlannedPods, HostsRead, OneFailed, Listing, FreshId;
    hide Decimal, ReplicaLabels;
    var i := OneFailed(w.s);
    SecondSyncComposes(c, w);
    RecreationCompleteIff(c, w, i);
    SyncCreatesPlan(c, w.s, i);
    OnePodWithoutAddress(c, w.s, Seen(1, 2, 1, 1, 0));
  }

  /** A job with two workers and a PS is deployed by its first sync. Then one worker fails, and the next sync that
      reaches `manageTFJob` does not make up for it. */
  lemma LostWorkerIsNotMadeUp() returns (w1: State, w2: State)
    ensures var c, w := JobWith(2), EmptyCluster();
            FirstSync(c, w, NothingListed()) && StepsTo(c, w, SyncStep(NothingListed()), w1)
    ensures Deployed(JobWith(2), w1.s) && StepsTo(JobWith(2), w1, SetCounter(Some(0)), w2) && HalfMadeUp(JobWith(2), w2)
  {
    var c, w := JobWith(2), EmptyCluster();
    hide *;
    w1 := DeployedByFirstSync(c, w);
    w2 := w1.(s := w1.s.(counter := Some(0)));
    CounterKeepsMade(c, w1);
    SecondSync(c, w2);
  }

  /** One enabled step. */
  ghost predicate StepsTo(c: Config, w: State, step: Step, w': State) {
    Enabled(c, w, step) && DistributedRun.Next(c, w, step) == w'
  }

  lemma CounterKeepsMade(c: Config, w: State)
    requires Inv(c, w) && ThreeMade(w.s)
    ensures var w' := w.(s := w.s.(counter := Some(0)));
            StepsTo(c, w, SetCounter(Some(0)), w') && Inv(c, w') && ThreeMade(w'.s)
  {
    hide Holders, DistinctIndices, NotWorker, Decimal, ReplicaLabels;
  }
}
