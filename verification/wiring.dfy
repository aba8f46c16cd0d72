/** How the pods and services that one sync creates fit together: which service selects which pod, and which
    addresses the pods are given. */
module Wirings {
  import opened Text
  import opened Api
  import opened TensorFlow
  import opened Plan
  import opened Controller

  // ---- Service keys ----------------------------------------------------------

  lemma LowerNames()
    ensures ToLower(TypeName(Worker)) == "worker" && ToLower(TypeName(PS)) == "ps" && ToLower(TypeName(Local)) == "local"
  {
  }

  /** A service key determines the job, the type and the index, whatever dashes the job name contains. */
  lemma ServiceKeyInjective(job: string, typ: ReplicaType, i: nat, job': string, typ': ReplicaType, i': nat)
    requires ServiceKey(job, typ, i) == ServiceKey(job', typ', i')
    ensures job == job' && typ == typ' && i == i'
  {
    LowerNames();
    var t, t' := ToLower(TypeName(typ)), ToLower(TypeName(typ'));
    assert ServiceKey(job, typ, i) == (job + "-" + t) + "-" + Decimal(i);
    assert ServiceKey(job', typ', i') == (job' + "-" + t') + "-" + Decimal(i');
    assert '-' !in Decimal(i) && '-' !in Decimal(i');
    LastDash(job + "-" + t, Decimal(i), job' + "-" + t', Decimal(i'));
    DecimalInjective(i, i');
    assert '-' !in t && '-' !in t';
    LastDash(job, t, job', t');
    assert |"worker"| == 6 && |"ps"| == 2 && |"local"| == 5;
  }

  /** What a key is registered as after the services of one type. */
  lemma {:induction false} RegisteredAt(names: map<string, string>, e: Env, typ: ReplicaType, n: nat, drawn: nat,
                                        typ': ReplicaType, i: nat)
    ensures var r, key := Registered(names, e, typ, n, drawn), ServiceKey(e.job, typ', i);
            if typ' == typ && i < n
            then key in r && r[key] == ServiceFor(e.job, e.rid, typ, i, e.draws(drawn + i)).name
            else (key in r <==> key in names) && (key in r ==> r[key] == names[key])
  {
    hide ServiceKey, ServiceFor;
    if n > 0 {
      RegisteredAt(names, e, typ, n - 1, drawn, typ', i);
      if ServiceKey(e.job, typ, n - 1) == ServiceKey(e.job, typ', i) {
        ServiceKeyInjective(e.job, typ, n - 1, e.job, typ', i);
      }
    }
  }

  // ---- What one sync creates -------------------------------------------------

  /** The job as the events of a sync find it, and the suffixes drawn by then. */
  function Prepared(c: Config, s: System, seen: Seen): (JobState, nat) {
    if Composes(c.workers, seen)
    then (Composed(c.name, s.job, GeneratedName("", c.draws(s.drawn))), s.drawn + 1)
    else (s.job, s.drawn)
  }

  function WorkerServiceCount(c: Config, seen: Seen): nat {
    if seen.workerServices == 0 then Nat(c.workers - seen.succeeded) else 0
  }

  function PSServiceCount(c: Config, seen: Seen): nat {
    if seen.psServices == 0 then Nat(c.ps) else 0
  }

  function WorkerPodCount(c: Config, seen: Seen): nat {
    Nat(c.workers - seen.succeeded - seen.workers)
  }

  function PSPodCount(c: Config, seen: Seen): nat {
    Nat(c.ps - seen.ps)
  }

  function PlannedServices(c: Config, s: System, seen: Seen): seq<Service> {
    var (job, drawn) := Prepared(c, s, seen);
    var e := EnvOf(c, job.rid);
    ServicePlan(e, Worker, WorkerServiceCount(c, seen), drawn)
    + ServicePlan(e, PS, PSServiceCount(c, seen), drawn + WorkerServiceCount(c, seen))
  }

  function PlannedNames(c: Config, s: System, seen: Seen): map<string, string> {
    var (job, drawn) := Prepared(c, s, seen);
    var e := EnvOf(c, job.rid);
    Registered(Registered(map[], e, Worker, WorkerServiceCount(c, seen), drawn),
               e, PS, PSServiceCount(c, seen), drawn + WorkerServiceCount(c, seen))
  }

  /** All pods the sync would create, workers first. */
  function PlannedPods(c: Config, s: System, seen: Seen): (r: seq<PodSpec>)
    ensures |r| == WorkerPodCount(c, seen) + PSPodCount(c, seen)
  {
    var job := Prepared(c, s, seen).0;
    var e := EnvOf(c, job.rid);
    PodPlan(e, LabelsOf(job.worker), PlannedNames(c, s, seen), Worker, WorkerPodCount(c, seen))
    + PodPlan(e, LabelsOf(job.ps), PlannedNames(c, s, seen), PS, PSPodCount(c, seen))
  }

  lemma ServicesInTurn(e: Env, p: Progress, c: Config, seen: Seen)
    requires e.workers == c.workers && e.ps == c.ps
    ensures Services(e, p, seen).names ==
            Registered(Registered(p.names, e, Worker, WorkerServiceCount(c, seen), p.drawn),
                       e, PS, PSServiceCount(c, seen), p.drawn + WorkerServiceCount(c, seen))
    ensures Services(e, p, seen).services ==
            p.services + (ServicePlan(e, Worker, WorkerServiceCount(c, seen), p.drawn)
                          + ServicePlan(e, PS, PSServiceCount(c, seen), p.drawn + WorkerServiceCount(c, seen)))
    ensures var q := Services(e, p, seen);
            && q.attempted == p.attempted && q.created == p.created && q.worker == p.worker && q.ps == p.ps
            && (!p.failed ==> !q.failed)
  {
    hide ServicePlan, Registered, AddServices;
    var missing := e.workers - seen.succeeded;
    var p1 := if seen.workerServices == 0 then AddServices(e, p, Worker, missing) else p;
    OptionalServices(e, p, seen.workerServices == 0, Worker, missing);
    OptionalServices(e, p1, seen.psServices == 0, PS, e.ps);
  }

  /** One of the two service events, which may be absent. */
  lemma OptionalServices(e: Env, p: Progress, present: bool, typ: ReplicaType, number: int)
    ensures var q, n := if present then AddServices(e, p, typ, number) else p, if present then Nat(number) else 0;
            && q.names == Registered(p.names, e, typ, n, p.drawn)
            && q.services == p.services + ServicePlan(e, typ, n, p.drawn) && q.drawn == p.drawn + n
            && q.attempted == p.attempted && q.created == p.created && q.worker == p.worker && q.ps == p.ps
            && q.failed == p.failed
  {
    hide Failures, ServiceKey, ServiceFor;
  }

  /** Pods are handed over in plan order, the accepted ones are a prefix of the plan, and at most one more was tried. */
  ghost predicate Handed(attempted: seq<PodSpec>, created: seq<PodSpec>, plan: seq<PodSpec>, ok: bool) {
    && created <= plan && attempted <= plan && |created| <= |attempted| <= |created| + 1
    && (ok <==> |created| == |plan|)
    && (!ok ==> |attempted| == |created| + 1)
  }

  lemma AddPodsHands(e: Env, p: Progress, typ: ReplicaType, number: int)
    ensures var q, plan := AddPods(e, p, typ, number), PodPlan(e, LabelsOf(TemplateOf(p, typ)), p.names, typ, Nat(number));
            && p.attempted <= q.attempted && p.created <= q.created
            && Handed(q.attempted[|p.attempted|..], q.created[|p.created|..], plan, !q.failed)
            && q.names == p.names && q.services == p.services && q.drawn == p.drawn
            && (typ == Worker ==> q.ps == p.ps) && (typ != Worker ==> q.worker == p.worker)
  {
    hide ClusterArgs, Decimal, Successes, LabelsOf, PodPlan;
  }

  lemma SameAsItself(t: Template)
    ensures SameButIndex(t, t)
  {
  }

  lemma AddPodsKeepsLabels(e: Env, p: Progress, typ: ReplicaType, number: int)
    ensures SameButIndex(TemplateOf(p, typ), TemplateOf(AddPods(e, p, typ, number), typ))
  {
    hide ClusterArgs, Decimal, Successes;
  }

  /** The labels of two templates agree except for the index. */
  ghost predicate SameButIndex(a: Template, b: Template) {
    LabelsOf(a)[Index := ""] == LabelsOf(b)[Index := ""]
  }

  lemma PodsInTurn(e: Env, q: Progress, c: Config, seen: Seen)
    requires e.workers == c.workers && e.ps == c.ps && !q.failed
    ensures var q2 := Pods(e, q, seen);
            var plan := PodPlan(e, LabelsOf(q.worker), q.names, Worker, WorkerPodCount(c, seen))
                        + PodPlan(e, LabelsOf(q.ps), q.names, PS, PSPodCount(c, seen));
            && q.attempted <= q2.attempted && q.created <= q2.created
            && Handed(q2.attempted[|q.attempted|..], q2.created[|q.created|..], plan, !q2.failed)
            && q2.services == q.services && q2.drawn == q.drawn
            && SameButIndex(q.ps, q2.ps)
  {
    hide AddPods, PodPlan, SameButIndex, Handed;
    var workers := c.workers - seen.succeeded - seen.workers;
    var q1 := if Composes(c.workers, seen) then AddPods(e, q, Worker, workers) else q;
    var q2 := Pods(e, q, seen);
    var wp := PodPlan(e, LabelsOf(q.worker), q.names, Worker, WorkerPodCount(c, seen));
    var pp := PodPlan(e, LabelsOf(q.ps), q.names, PS, PSPodCount(c, seen));
    AddPodsHands(e, q, Worker, workers);
    AddPodsHands(e, q1, PS, c.ps - seen.ps);
    AddPodsKeepsLabels(e, q1, PS, c.ps - seen.ps);
    SameAsItself(q.ps);
    NoPlan(e, LabelsOf(q.worker), q.names, Worker);
    NoPlan(e, LabelsOf(q.ps), q.names, PS);
    HandedNothing();
    var a1, c1 := q1.attempted[|q.attempted|..], q1.created[|q.created|..];
    assert Handed(a1, c1, wp, !q1.failed);
    if !q1.failed && seen.ps < c.ps {
      HandedThen(a1, c1, wp, q2.attempted[|q1.attempted|..], q2.created[|q1.created|..], pp, !q2.failed);
      TailInTwo(q.attempted, q1.attempted, q2.attempted);
      TailInTwo(q.created, q1.created, q2.created);
    } else if q1.failed {
      HandedPart(a1, c1, wp, pp);
    } else {
      assert wp + pp == wp;
    }
  }

  lemma TailInTwo(a: seq<PodSpec>, b: seq<PodSpec>, c: seq<PodSpec>)
    requires a <= b <= c
    ensures a <= c && c[|a|..] == b[|a|..] + c[|b|..]
  {
  }

  lemma HandedNothing()
    ensures Handed([], [], [], true)
  {
  }

  /** Failing in a part of a plan is failing in the plan. */
  lemma HandedPart(a: seq<PodSpec>, c: seq<PodSpec>, p1: seq<PodSpec>, p2: seq<PodSpec>)
    requires Handed(a, c, p1, false)
    ensures Handed(a, c, p1 + p2, false)
  {
  }

  /** What one `manageTFJob` call does, in terms of its plan. */
  lemma ManageFollowsPlan(c: Config, s: System, seen: Seen)
    ensures var (s', ok) := Manage(c, s, seen);
            && s'.services == s.services + PlannedServices(c, s, seen)
            && s.attempted <= s'.attempted && s.created <= s'.created
            && Handed(s'.attempted[|s.attempted|..], s'.created[|s.created|..], PlannedPods(c, s, seen), ok)
            && s'.job == Prepared(c, s, seen).0.(worker := s'.job.worker, ps := s'.job.ps)
            && SameButIndex(Prepared(c, s, seen).0.ps, s'.job.ps)
  {
    hide Pods, ServicePlan, Services, PodPlan, Registered, Handed, Composed, SameButIndex;
    var (job, drawn) := Prepared(c, s, seen);
    var e := EnvOf(c, job.rid);
    var p := Progress(map[], drawn, s.services, s.attempted, s.created, job.worker, job.ps, s.counter, false);
    ServicesInTurn(e, p, c, seen);
    PodsInTurn(e, Services(e, p, seen), c, seen);
  }

  lemma NoPlan(e: Env, labels: Labels, names: map<string, string>, typ: ReplicaType)
    ensures PodPlan(e, labels, names, typ, 0) == []
  {
  }

  lemma HandedThen(a1: seq<PodSpec>, c1: seq<PodSpec>, p1: seq<PodSpec>,
                   a2: seq<PodSpec>, c2: seq<PodSpec>, p2: seq<PodSpec>, ok: bool)
    requires Handed(a1, c1, p1, true) && Handed(a2, c2, p2, ok)
    ensures Handed(a1 + a2, c1 + c2, p1 + p2, ok)
  {
    assert a1 == p1 && c1 == p1;
  }

  // ---- Selection is a bijection ----------------------------------------------

  /** What the selector of a claim, or of a service without its index, asks of labels. */
  lemma SelectorMeans(name: string, rid: string, typ: ReplicaType, labels: Labels)
    ensures Matches(ReplicaLabels(name, rid, typ), labels) <==>
              && KubeFlow in labels && labels[KubeFlow] == "true"
              && JobType in labels && labels[JobType] == (match typ case PS => "PS" case Worker => "Worker" case Local => "Local")
              && RuntimeId in labels && labels[RuntimeId] == rid
              && TFJobName in labels && labels[TFJobName] == name
  {
    var selector := ReplicaLabels(name, rid, typ);
    assert KubeFlow in selector && JobType in selector && RuntimeId in selector && TFJobName in selector;
  }

  lemma LabelsMatchIff(name: string, rid: string, typ: ReplicaType, i: nat,
                       name': string, rid': string, typ': ReplicaType, i': nat)
    ensures Matches(ReplicaLabels(name, rid, typ)[Index := Decimal(i)], ReplicaLabels(name', rid', typ')[Index := Decimal(i')])
       <==> name == name' && rid == rid' && typ == typ' && i == i'
  {
    hide Decimal, TypeName;
    var selector := ReplicaLabels(name, rid, typ)[Index := Decimal(i)];
    var labels := ReplicaLabels(name', rid', typ')[Index := Decimal(i')];
    if Matches(selector, labels) {
      assert JobType in selector && Index in selector && RuntimeId in selector && TFJobName in selector;
      TypeNamesDiffer(typ, typ');
      DecimalInjective(i, i');
    }
  }

  lemma ClaimMatchesIff(name: string, rid: string, typ: ReplicaType,
                        name': string, rid': string, typ': ReplicaType, index: string)
    ensures Matches(ReplicaLabels(name, rid, typ), ReplicaLabels(name', rid', typ')[Index := index])
       <==> name == name' && rid == rid' && typ == typ'
  {
    hide TypeName;
    var selector := ReplicaLabels(name, rid, typ);
    if Matches(selector, ReplicaLabels(name', rid', typ')[Index := index]) {
      assert JobType in selector && RuntimeId in selector && TFJobName in selector;
      TypeNamesDiffer(typ, typ');
    }
  }

  /** Nothing of the job exists yet, and it wants at least one worker. */
  predicate FromScratch(c: Config, seen: Seen) {
    seen == Seen(0, 0, 0, 0, 0) && c.workers >= 1
  }

  /** Which replica the k-th element is for in a list of `n` workers followed by PS. */
  function SlotAt(n: nat, k: nat): (ReplicaType, nat) {
    if k < n then (Worker, k) else (PS, k - n)
  }

  lemma PlannedFromScratch(c: Config, s: System, seen: Seen)
    requires FromScratch(c, seen)
    ensures |PlannedServices(c, s, seen)| == |PlannedPods(c, s, seen)| == c.workers + Nat(c.ps)
    ensures WorkerServiceCount(c, seen) == WorkerPodCount(c, seen) == c.workers && Composes(c.workers, seen)
  {
    hide ServiceFor, ClusterArgs, Decimal;
  }

  lemma PlannedServiceAt(c: Config, s: System, seen: Seen, k: nat)
    requires k < |PlannedServices(c, s, seen)|
    ensures var (typ, i) := SlotAt(WorkerServiceCount(c, seen), k);
            var (job, drawn) := Prepared(c, s, seen);
            PlannedServices(c, s, seen)[k] == ServiceFor(c.name, job.rid, typ, i, c.draws(drawn + k))
  {
    hide ServiceFor, Composed;
    var (job, drawn) := Prepared(c, s, seen);
    var e, n := EnvOf(c, job.rid), WorkerServiceCount(c, seen);
    var workers, ps := ServicePlan(e, Worker, n, drawn), ServicePlan(e, PS, PSServiceCount(c, seen), drawn + n);
    assert PlannedServices(c, s, seen) == workers + ps;
    if k >= n {
      assert (workers + ps)[k] == ps[k - n];
      assert drawn + n + (k - n) == drawn + k;
    }
  }

  lemma PlannedPodAt(c: Config, s: System, seen: Seen, k: nat)
    requires Composes(c.workers, seen) && k < |PlannedPods(c, s, seen)|
    ensures var rid, (typ, i) := Prepared(c, s, seen).0.rid, SlotAt(WorkerPodCount(c, seen), k);
            PlannedPods(c, s, seen)[k] ==
            PodSpec(ReplicaLabels(c.name, rid, typ)[Index := Decimal(i)],
                    ClusterArgs(WiringOf(EnvOf(c, rid), PlannedNames(c, s, seen)), typ, i), ControllerRefFor(c.name, c.uid))
  {
    hide ClusterArgs, Decimal, PlannedNames;
  }

  /** The services and the prefix of the pods that a sync passes on, and its runtime id. */
  lemma PlanAndRid(c: Config, s: System, seen: Seen)
    ensures var s' := Manage(c, s, seen).0;
            && |s'.services| >= |s.services| && s'.services[|s.services|..] == PlannedServices(c, s, seen)
            && |s'.attempted| >= |s.attempted| && s'.attempted[|s.attempted|..] <= PlannedPods(c, s, seen)
            && s'.job.rid == Prepared(c, s, seen).0.rid
  {
    hide Manage, PlannedServices, PlannedPods, Prepared, SameButIndex;
    ManageFollowsPlan(c, s, seen);
  }

  /** The services that `manageTFJob` registers and the pods it hands over. */
  ghost function NewServices(c: Config, s: System, seen: Seen): (r: seq<Service>)
    ensures r == PlannedServices(c, s, seen)
  {
    PlanAndRid(c, s, seen);
    Manage(c, s, seen).0.services[|s.services|..]
  }

  ghost function NewPods(c: Config, s: System, seen: Seen): (r: seq<PodSpec>)
    ensures r <= PlannedPods(c, s, seen)
  {
    PlanAndRid(c, s, seen);
    Manage(c, s, seen).0.attempted[|s.attempted|..]
  }

  /** Across jobs and syncs: the selector of a service registered in any sync of one job matches a pod handed over in a
      sync of any job that composes a runtime id exactly if job name, runtime id, type and index agree. So a service
      leaves the pods of other jobs and of other runtime ids alone. */
  lemma SelectedAcrossSyncs(c: Config, s: System, seen: Seen, c': Config, t: System, seen': Seen)
    requires Composes(c'.workers, seen')
    ensures var s', t' := Manage(c, s, seen).0, Manage(c', t, seen').0;
            var services, pods := NewServices(c, s, seen), NewPods(c', t, seen');
            && |services| == WorkerServiceCount(c, seen) + PSServiceCount(c, seen)
            && |pods| <= WorkerPodCount(c', seen') + PSPodCount(c', seen')
            && forall a, b | 0 <= a < |services| && 0 <= b < |pods| ::
                 Matches(services[a].selector, pods[b].labels)
                 <==> && c.name == c'.name && s'.job.rid == t'.job.rid
                      && SlotAt(WorkerServiceCount(c, seen), a) == SlotAt(WorkerPodCount(c', seen'), b)
  {
    hide *;
    PlanAndRid(c, s, seen);
    PlanAndRid(c', t, seen');
    PlannedServicesSize(c, s, seen);
    var s', t' := Manage(c, s, seen).0, Manage(c', t, seen').0;
    var services, pods := NewServices(c, s, seen), NewPods(c', t, seen');
    forall a, b | 0 <= a < |services| && 0 <= b < |pods|
      ensures Matches(services[a].selector, pods[b].labels)
         <==> && c.name == c'.name && s'.job.rid == t'.job.rid
              && SlotAt(WorkerServiceCount(c, seen), a) == SlotAt(WorkerPodCount(c', seen'), b)
    {
      PlannedMatchIff(c, s, seen, a, c', t, seen', b);
    }
  }

  lemma PlannedMatchIff(c: Config, s: System, seen: Seen, a: nat, c': Config, t: System, seen': Seen, b: nat)
    requires a < |PlannedServices(c, s, seen)| && Composes(c'.workers, seen') && b < |PlannedPods(c', t, seen')|
    ensures Matches(PlannedServices(c, s, seen)[a].selector, PlannedPods(c', t, seen')[b].labels)
       <==> && c.name == c'.name && Prepared(c, s, seen).0.rid == Prepared(c', t, seen').0.rid
            && SlotAt(WorkerServiceCount(c, seen), a) == SlotAt(WorkerPodCount(c', seen'), b)
  {
    hide Matches, ClusterArgs, PlannedServices, PlannedPods, SlotAt, Prepared, WorkerServiceCount, WorkerPodCount, Decimal;
    PlannedServiceAt(c, s, seen, a);
    PlannedPodAt(c', t, seen', b);
    var (typ, i) := SlotAt(WorkerServiceCount(c, seen), a);
    var (typ', i') := SlotAt(WorkerPodCount(c', seen'), b);
    LabelsMatchIff(c.name, Prepared(c, s, seen).0.rid, typ, i, c'.name, Prepared(c', t, seen').0.rid, typ', i');
  }

  /** In every sync that composes a new runtime id, whatever it has seen, the selector of a service registered in the
      sync matches exactly the pod of the same type and index, if the sync hands one over. */
  lemma SelectorsMatchSlots(c: Config, s: System, seen: Seen)
    requires Composes(c.workers, seen)
    ensures var s' := Manage(c, s, seen).0;
            var services, pods := s'.services[|s.services|..], s'.attempted[|s.attempted|..];
            && |services| == WorkerServiceCount(c, seen) + PSServiceCount(c, seen)
            && |pods| <= WorkerPodCount(c, seen) + PSPodCount(c, seen)
            && forall a, b | 0 <= a < |services| && 0 <= b < |pods| ::
                 Matches(services[a].selector, pods[b].labels)
                 <==> SlotAt(WorkerServiceCount(c, seen), a) == SlotAt(WorkerPodCount(c, seen), b)
  {
    PlanAndRid(c, s, seen);
    hide Manage, Matches, Prepared;
    assert NewServices(c, s, seen) == Manage(c, s, seen).0.services[|s.services|..];
    assert NewPods(c, s, seen) == Manage(c, s, seen).0.attempted[|s.attempted|..];
    SelectedAcrossSyncs(c, s, seen, c, s, seen);
  }

  /** Which claim pass selects what a sync made: a service registered in any sync, or a pod handed over in one that
      composes a runtime id, exactly if job name, runtime id and type are its own; and such a pod has the job as its
      controller, so that the add handler counts it for this job. */
  lemma ClaimedByOwnPassOnly(c: Config, s: System, seen: Seen, name: string, rid: string, typ: ReplicaType)
    ensures var s' := Manage(c, s, seen).0;
            var services, pods := NewServices(c, s, seen), NewPods(c, s, seen);
            && |services| == WorkerServiceCount(c, seen) + PSServiceCount(c, seen)
            && (forall a | 0 <= a < |services| ::
                  Matches(ReplicaLabels(name, rid, typ), services[a].labels)
                  <==> name == c.name && rid == s'.job.rid && typ == SlotAt(WorkerServiceCount(c, seen), a).0)
            && (forall b | 0 <= b < |pods| ::
                  CountsFor(c.name, c.uid, [pods[b].owner]) && pods[b].owner == OwnerRef("TFJob", c.name, c.uid, true))
            && (Composes(c.workers, seen) ==> forall b | 0 <= b < |pods| ::
                  Matches(ReplicaLabels(name, rid, typ), pods[b].labels)
                  <==> name == c.name && rid == s'.job.rid && typ == SlotAt(WorkerPodCount(c, seen), b).0)
  {
    hide Manage, Matches, ClusterArgs, PlannedServices, PlannedPods, SlotAt, Prepared, CountsFor;
    PlanAndRid(c, s, seen);
    PlannedServicesSize(c, s, seen);
    var s' := Manage(c, s, seen).0;
    var services, pods := NewServices(c, s, seen), NewPods(c, s, seen);
    forall a | 0 <= a < |services|
      ensures Matches(ReplicaLabels(name, rid, typ), services[a].labels)
         <==> name == c.name && rid == s'.job.rid && typ == SlotAt(WorkerServiceCount(c, seen), a).0
    {
      PlannedServiceAt(c, s, seen, a);
      var (typ', i) := SlotAt(WorkerServiceCount(c, seen), a);
      ClaimMatchesIff(name, rid, typ, c.name, s'.job.rid, typ', Decimal(i));
    }
    forall b | 0 <= b < |pods|
      ensures CountsFor(c.name, c.uid, [pods[b].owner]) && pods[b].owner == OwnerRef("TFJob", c.name, c.uid, true)
    {
      PlannedOwner(c, s, seen, b);
    }
    if Composes(c.workers, seen) {
      forall b | 0 <= b < |pods|
        ensures Matches(ReplicaLabels(name, rid, typ), pods[b].labels)
           <==> name == c.name && rid == s'.job.rid && typ == SlotAt(WorkerPodCount(c, seen), b).0
      {
        PlannedPodAt(c, s, seen, b);
        var (typ', i) := SlotAt(WorkerPodCount(c, seen), b);
        ClaimMatchesIff(name, rid, typ, c.name, s'.job.rid, typ', Decimal(i));
      }
    }
  }

  lemma PlannedOwner(c: Config, s: System, seen: Seen, k: nat)
    requires k < |PlannedPods(c, s, seen)|
    ensures CountsFor(c.name, c.uid, [PlannedPods(c, s, seen)[k].owner])
    ensures PlannedPods(c, s, seen)[k].owner == OwnerRef("TFJob", c.name, c.uid, true)
  {
    hide ClusterArgs, Decimal, PlannedNames;
  }

  lemma PlannedServicesSize(c: Config, s: System, seen: Seen)
    ensures |PlannedServices(c, s, seen)| == WorkerServiceCount(c, seen) + PSServiceCount(c, seen)
  {
    hide ServiceFor, Composed;
  }

  /** In a sync that starts from scratch, the pods handed over and the services registered are in one-to-one
      correspondence: the selector of the a-th service matches the b-th pod exactly when a == b. */
  lemma SelectorsAreABijection(c: Config, s: System, seen: Seen)
    requires FromScratch(c, seen)
    ensures var s' := Manage(c, s, seen).0;
            var services, pods := s'.services[|s.services|..], s'.attempted[|s.attempted|..];
            && |services| == c.workers + Nat(c.ps) && |pods| <= |services|
            && forall a, b | 0 <= a < |services| && 0 <= b < |pods| ::
                 Matches(services[a].selector, pods[b].labels) <==> a == b
  {
    hide Manage, Matches;
    SelectorsMatchSlots(c, s, seen);
  }

  // ---- Addresses -------------------------------------------------------------

  function Address(s: Service): string {
    s.name + ":" + Decimal(s.port)
  }

  lemma PortDigits()
    ensures Decimal(2222) == "2222"
  {
    assert Decimal(2) == "2" && Decimal(22) == Decimal(2) + "2" && Decimal(222) == Decimal(22) + "2";
  }

  /** Every registered service listens on the port that the addresses name. */
  lemma AddressOf(c: Config, s: System, seen: Seen, k: nat)
    requires k < |PlannedServices(c, s, seen)|
    ensures Address(PlannedServices(c, s, seen)[k]) == PlannedServices(c, s, seen)[k].name + ":2222"
  {
    hide PlannedServices, Decimal;
    PlannedServiceAt(c, s, seen, k);
    PortDigits();
  }

  /** The name of a registered service begins with its key and a dash, as far as 58 characters go, and fits into the 63
      characters that a name may have. */
  lemma NamesFit(c: Config, s: System, seen: Seen, k: nat)
    requires k < |PlannedServices(c, s, seen)| && ProperSuffixes(c.draws)
    ensures var (typ, i) := SlotAt(WorkerServiceCount(c, seen), k);
            var base, name := ServiceKey(c.name, typ, i) + "-", PlannedServices(c, s, seen)[k].name;
            && |name| <= 63
            && (if |base| <= 58 then base <= name && |name| == |base| + 5 else base[..58] <= name && |name| == 63)
  {
    hide PlannedServices, ServiceKey;
    PlannedServiceAt(c, s, seen, k);
  }

  function Addresses(services: seq<Service>): (r: seq<string>)
    ensures |r| == |services| && forall i | 0 <= i < |r| :: r[i] == Address(services[i])
  {
    seq(|services|, i requires 0 <= i < |services| => Address(services[i]))
  }

  /** Every suffix the generator draws is five characters without a comma. */
  ghost predicate ProperSuffixes(draws: nat -> string) {
    forall n :: |draws(n)| == 5 && CommaFree(draws(n))
  }

  ghost predicate AllCommaFree(names: map<string, string>) {
    forall k | k in names :: CommaFree(names[k])
  }

  /** A host list flag: for at least one replica, dropping the flag and splitting at commas gives back the host
      list, one host per replica in index order; for none, the flag has lost its equals sign. */
  lemma FlagRoundTrip(w: Wiring, flag: string, typ: ReplicaType, replicas: int)
    requires flag != ""
    requires AllCommaFree(w.names)
    ensures var hosts := Hosts(w.names, w.job, typ, replicas);
            && (flag <= ListFlag(flag, hosts) <==> replicas >= 1)
            && (replicas >= 1 ==> |hosts| == replicas && Split(ListFlag(flag, hosts)[|flag|..]) == hosts)
  {
    var hosts := Hosts(w.names, w.job, typ, replicas);
    if hosts != [] {
      HostsCommaFree(w.names, w.job, typ, replicas);
      SplitJoin(hosts);
      assert (flag + Join(hosts))[|flag|..] == Join(hosts);
    }
  }

  /** The names registered by a sync are those of the services it passes on; nothing else is registered. */
  lemma NameOf(c: Config, s: System, seen: Seen, typ: ReplicaType, i: nat)
    requires typ != Local
    ensures var names, key := PlannedNames(c, s, seen), ServiceKey(c.name, typ, i);
            var services := PlannedServices(c, s, seen);
            var count := if typ == Worker then WorkerServiceCount(c, seen) else PSServiceCount(c, seen);
            && |services| == WorkerServiceCount(c, seen) + PSServiceCount(c, seen)
            && (key in names <==> i < count)
            && (i < count ==> names[key] == services[if typ == Worker then i else WorkerServiceCount(c, seen) + i].name)
  {
    hide ServiceKey, ServiceFor;
    var (job, drawn) := Prepared(c, s, seen);
    var e, n := EnvOf(c, job.rid), WorkerServiceCount(c, seen);
    RegisteredAt(map[], e, Worker, n, drawn, typ, i);
    RegisteredAt(Registered(map[], e, Worker, n, drawn), e, PS, PSServiceCount(c, seen), drawn + n, typ, i);
  }

  /** An address is one of the services the sync passes on. */
  ghost predicate Resolves(host: string, services: seq<Service>) {
    exists k :: 0 <= k < |services| && host == Address(services[k])
  }

  /** The addresses the pods of one sync are given. */
  function WorkerHosts(c: Config, s: System, seen: Seen): seq<string> {
    Hosts(PlannedNames(c, s, seen), c.name, Worker, c.workers)
  }

  function PSHosts(c: Config, s: System, seen: Seen): seq<string> {
    Hosts(PlannedNames(c, s, seen), c.name, PS, c.ps)
  }

  /** The value of a flag among arguments: what follows its literal name and the equals sign in the first argument that
      begins with them. */
  function FlagValue(args: seq<string>, flag: string): Option<string> {
    if args == [] then None
    else if flag <= args[0] then Some(args[0][|flag|..])
    else FlagValue(args[1..], flag)
  }

  /** What a consumer of a host list flag reads: nothing, if the flag is not there intact. */
  function HostsIn(flag: string, args: seq<string>): seq<string> {
    var value := FlagValue(args, flag);
    if value.Some? then Split(value.value) else []
  }

  /** Every planned pod gets the same two lists, its own type and its own index. */
  lemma PodArguments(c: Config, s: System, seen: Seen, k: nat)
    requires k < |PlannedPods(c, s, seen)|
    ensures var n := WorkerPodCount(c, seen);
            PlannedPods(c, s, seen)[k].args ==
            [ListFlag("--worker_hosts=", WorkerHosts(c, s, seen)), ListFlag("--ps_hosts=", PSHosts(c, s, seen)),
             "--job_name=" + if k < n then "worker" else "ps",
             "--task_index=" + Decimal(if k < n then k else k - n)]
  {
    hide PlannedNames, ListFlag, Hosts, Decimal;
    LowerNames();
  }

  /** Each of the four flags is found in its own argument, and a host list flag without hosts is not found. */
  lemma FlagsFound(workers: seq<string>, ps: seq<string>, job: string, index: string)
    ensures var args := [ListFlag("--worker_hosts=", workers), ListFlag("--ps_hosts=", ps),
                         "--job_name=" + job, "--task_index=" + index];
            && FlagValue(args, "--worker_hosts=") == (if workers == [] then None else Some(Join(workers)))
            && FlagValue(args, "--ps_hosts=") == (if ps == [] then None else Some(Join(ps)))
            && FlagValue(args, "--job_name=") == Some(job) && FlagValue(args, "--task_index=") == Some(index)
  {
    hide Join;
    var a, b := ListFlag("--worker_hosts=", workers), ListFlag("--ps_hosts=", ps);
    var c, d := "--job_name=" + job, "--task_index=" + index;
    var args := [a, b, c, d];
    assert a[2] == 'w' && b[2] == 'p' && c[2] == 'j' && d[2] == 't';
    assert args[1..] == [b, c, d] && args[2..] == [c, d] && args[3..] == [d];
    OnlyOwnFlag(args, 0, "--worker_hosts=");
    OnlyOwnFlag(args, 1, "--ps_hosts=");
    OnlyOwnFlag(args, 2, "--job_name=");
    OnlyOwnFlag(args, 3, "--task_index=");
    hide FlagValue;
  }

  /** A flag that only one argument can begin with, because of its third character. */
  lemma {:induction false} OnlyOwnFlag(args: seq<string>, k: nat, flag: string)
    requires k < |args| && |flag| > 2
    requires forall i | 0 <= i < |args| && i != k :: |args[i]| > 2 && args[i][2] != flag[2]
    ensures FlagValue(args, flag) == if flag <= args[k] then Some(args[k][|flag|..]) else None
  {
    if k > 0 {
      OnlyOwnFlag(args[1..], k - 1, flag);
    } else {
      NoFlag(args[1..], flag);
    }
  }

  lemma {:induction false} NoFlag(args: seq<string>, flag: string)
    requires |flag| > 2 && forall i | 0 <= i < |args| :: |args[i]| > 2 && args[i][2] != flag[2]
    ensures FlagValue(args, flag) == None
  {
    if args != [] {
      NoFlag(args[1..], flag);
    }
  }

  lemma SuffixedName(base: string, suffix: string)
    requires |suffix| == 5
    ensures |GeneratedName(base, suffix)| >= 5
    ensures CommaFree(base) && CommaFree(suffix) ==> CommaFree(GeneratedName(base, suffix))
  {
  }

  /** A pod that a sync hands over reads the two lists of that sync. */
  lemma HandedPodReads(c: Config, s: System, seen: Seen, k: nat)
    requires ProperSuffixes(c.draws) && CommaFree(c.name)
    requires k < |Manage(c, s, seen).0.attempted| - |s.attempted|
    ensures k < |PlannedPods(c, s, seen)|
    ensures var pod := Manage(c, s, seen).0.attempted[|s.attempted| + k];
            && pod == PlannedPods(c, s, seen)[k] && |pod.args| == 4
            && HostsIn("--worker_hosts=", pod.args) == WorkerHosts(c, s, seen)
            && HostsIn("--ps_hosts=", pod.args) == PSHosts(c, s, seen)
            && var n := WorkerPodCount(c, seen);
               && FlagValue(pod.args, "--job_name=") == Some(if k < n then "worker" else "ps")
               && FlagValue(pod.args, "--task_index=") == Some(Decimal(if k < n then k else k - n))
  {
    hide Manage, PlannedPods, PlannedNames, ListFlag, Decimal, FlagValue, Join, Split, Hosts;
    ManageFollowsPlan(c, s, seen);
    var s' := Manage(c, s, seen).0;
    assert s'.attempted[|s.attempted|..][k] == s'.attempted[|s.attempted| + k] == PlannedPods(c, s, seen)[k];
    PodArguments(c, s, seen, k);
    NamesCommaFree(c, s, seen);
    var n := WorkerPodCount(c, seen);
    var job, index := if k < n then "worker" else "ps", Decimal(if k < n then k else k - n);
    FlagsFound(WorkerHosts(c, s, seen), PSHosts(c, s, seen), job, index);
    HostsSplit(c, PlannedNames(c, s, seen), Worker, c.workers);
    HostsSplit(c, PlannedNames(c, s, seen), PS, c.ps);
  }

  lemma HostsSplit(c: Config, names: map<string, string>, typ: ReplicaType, replicas: int)
    requires AllCommaFree(names)
    ensures var hosts := Hosts(names, c.name, typ, replicas); hosts != [] ==> Split(Join(hosts)) == hosts
  {
    var hosts := Hosts(names, c.name, typ, replicas);
    if hosts != [] {
      HostsCommaFree(names, c.name, typ, replicas);
      SplitJoin(hosts);
    }
  }

  lemma HostsCommaFree(names: map<string, string>, job: string, typ: ReplicaType, replicas: int)
    requires AllCommaFree(names)
    ensures forall h | h in Hosts(names, job, typ, replicas) :: CommaFree(h)
  {
    hide Decimal, ServiceKey;
    var hosts := Hosts(names, job, typ, replicas);
    forall h | h in hosts ensures CommaFree(h) {
      var i :| 0 <= i < |hosts| && hosts[i] == h;
      assert CommaFree(Decimal(WORKER_PORT));
    }
  }

  /** In a sync that starts from scratch, every pod handed over reads back the same lists: the addresses of the
      services registered in this sync, workers and PS, in index order; its task index is in range for its own
      list, and the address there is the one of the service that selects it. */
  lemma PodsKnowTheirServices(c: Config, s: System, seen: Seen, k: nat)
    requires FromScratch(c, seen)
    requires ProperSuffixes(c.draws) && CommaFree(c.name)
    requires k < |Manage(c, s, seen).0.attempted| - |s.attempted|
    ensures var s' := Manage(c, s, seen).0;
            var services, pod := s'.services[|s.services|..], s'.attempted[|s.attempted| + k];
            var n := c.workers;
            && |services| == n + Nat(c.ps) && k < |services|
            && HostsIn("--worker_hosts=", pod.args) == Addresses(services[..n])
            && HostsIn("--ps_hosts=", pod.args) == Addresses(services[n..])
            && (if k < n
                then FlagValue(pod.args, "--job_name=") == Some("worker")
                     && FlagValue(pod.args, "--task_index=") == Some(Decimal(k))
                     && Addresses(services[..n])[k] == Address(services[k])
                else FlagValue(pod.args, "--job_name=") == Some("ps")
                     && FlagValue(pod.args, "--task_index=") == Some(Decimal(k - n))
                     && Addresses(services[n..])[k - n] == Address(services[k]))
            && Matches(services[k].selector, pod.labels)
  {
    hide Manage, PlannedPods, PlannedServices, PlannedNames, ListFlag, Decimal, Matches, HostsIn, FlagValue;
    ManageFollowsPlan(c, s, seen);
    PlannedFromScratch(c, s, seen);
    SelectorsAreABijection(c, s, seen);
    HandedPodReads(c, s, seen, k);
    HostsAreAddresses(c, s, seen);
    var s' := Manage(c, s, seen).0;
    var services, pods := s'.services[|s.services|..], s'.attempted[|s.attempted|..];
    assert services == PlannedServices(c, s, seen);
    assert pods[k] == s'.attempted[|s.attempted| + k];
    assert Matches(services[k].selector, pods[k].labels);
  }

  lemma {:induction false} RegisteredCommaFree(names: map<string, string>, e: Env, typ: ReplicaType, n: nat, drawn: nat)
    requires AllCommaFree(names)
    requires ProperSuffixes(e.draws) && CommaFree(e.job)
    ensures AllCommaFree(Registered(names, e, typ, n, drawn))
  {
    if n > 0 {
      RegisteredCommaFree(names, e, typ, n - 1, drawn);
      LowerNames();
      assert CommaFree(Decimal(n - 1));
      assert CommaFree(ServiceKey(e.job, typ, n - 1) + "-");
      SuffixedName(ServiceKey(e.job, typ, n - 1) + "-", e.draws(drawn + n - 1));
    }
  }

  lemma NamesCommaFree(c: Config, s: System, seen: Seen)
    requires ProperSuffixes(c.draws) && CommaFree(c.name)
    ensures AllCommaFree(PlannedNames(c, s, seen))
  {
    var (job, drawn) := Prepared(c, s, seen);
    var e, n := EnvOf(c, job.rid), WorkerServiceCount(c, seen);
    RegisteredCommaFree(map[], e, Worker, n, drawn);
    RegisteredCommaFree(Registered(map[], e, Worker, n, drawn), e, PS, PSServiceCount(c, seen), drawn + n);
  }

  lemma HostsAreAddresses(c: Config, s: System, seen: Seen)
    requires FromScratch(c, seen)
    ensures var services := PlannedServices(c, s, seen);
            && |services| == c.workers + Nat(c.ps)
            && WorkerHosts(c, s, seen) == Addresses(services[..c.workers])
            && PSHosts(c, s, seen) == Addresses(services[c.workers..])
  {
    hide PlannedNames, PlannedServices, ServiceKey, Decimal, Address;
    PortDigits();
    PlannedFromScratch(c, s, seen);
    forall i | 0 <= i < c.workers ensures WorkerHosts(c, s, seen)[i] == Address(PlannedServices(c, s, seen)[i]) {
      NameOf(c, s, seen, Worker, i);
      AddressOf(c, s, seen, i);
    }
    forall i | 0 <= i < c.ps ensures PSHosts(c, s, seen)[i] == Address(PlannedServices(c, s, seen)[c.workers + i]) {
      NameOf(c, s, seen, PS, i);
      AddressOf(c, s, seen, c.workers + i);
    }
  }

  /** Every wanted replica has its service registered in this sync: no service of a wanted type was claimed, and no
      worker has succeeded. */
  predicate AllRegistered(c: Config, seen: Seen) {
    && (c.workers >= 1 ==> seen.workerServices == 0 && seen.succeeded == 0)
    && (c.ps >= 1 ==> seen.psServices == 0)
  }

  lemma AddressResolves(services: seq<Service>, k: nat)
    requires k < |services|
    ensures Resolves(Address(services[k]), services)
  {
  }

  /** The address given for a replica: that of its service, if one was registered in this sync. */
  lemma HostWhen(c: Config, s: System, seen: Seen, typ: ReplicaType, i: nat)
    requires typ != Local
    ensures var count := if typ == Worker then WorkerServiceCount(c, seen) else PSServiceCount(c, seen);
            var k := if typ == Worker then i else WorkerServiceCount(c, seen) + i;
            && |PlannedServices(c, s, seen)| == WorkerServiceCount(c, seen) + PSServiceCount(c, seen)
            && HostFor(PlannedNames(c, s, seen), c.name, typ, i)
            == if i < count then Address(PlannedServices(c, s, seen)[k]) else ":2222"
  {
    hide PlannedNames, PlannedServices, ServiceKey, Decimal, Address;
    PortDigits();
    NameOf(c, s, seen, typ, i);
    var count := if typ == Worker then WorkerServiceCount(c, seen) else PSServiceCount(c, seen);
    if i < count {
      AddressOf(c, s, seen, if typ == Worker then i else WorkerServiceCount(c, seen) + i);
    }
  }

  /** The lists of a sync consist of addresses of its own services exactly if every wanted replica is registered. */
  lemma ListsResolveIff(c: Config, s: System, seen: Seen)
    requires ProperSuffixes(c.draws)
    ensures (forall host | host in WorkerHosts(c, s, seen) + PSHosts(c, s, seen) :: Resolves(host, PlannedServices(c, s, seen)))
       <==> AllRegistered(c, seen)
    ensures !AllRegistered(c, seen) ==> ":2222" in WorkerHosts(c, s, seen) + PSHosts(c, s, seen)
  {
    hide PlannedNames, PlannedServices, HostFor, Address, Resolves;
    PlannedServicesSize(c, s, seen);
    var services, n := PlannedServices(c, s, seen), Nat(c.workers);
    var all := WorkerHosts(c, s, seen) + PSHosts(c, s, seen);
    if AllRegistered(c, seen) {
      forall host | host in all ensures Resolves(host, services) {
        var k :| 0 <= k < |all| && all[k] == host;
        HostWhen(c, s, seen, SlotAt(n, k).0, SlotAt(n, k).1);
        assert Resolves(host, services) by {
          assert host == Address(services[k]);
          AddressResolves(services, k);
        }
      }
    } else {
      var k := if c.workers >= 1 && (seen.workerServices != 0 || seen.succeeded != 0) then c.workers - 1 else n;
      HostWhen(c, s, seen, SlotAt(n, k).0, SlotAt(n, k).1);
      assert all[k] == ":2222";
      EmptyAddress(c, s, seen);
    }
  }

  /** Every address that a pod reads belongs to one of the services. */
  ghost predicate WellWired(pod: PodSpec, services: seq<Service>) {
    forall host | host in HostsRead(pod) :: Resolves(host, services)
  }

  function HostsRead(pod: PodSpec): seq<string> {
    HostsIn("--worker_hosts=", pod.args) + HostsIn("--ps_hosts=", pod.args)
  }

  /** When is the wiring of a sync right? For any counts a sync may see and any failing creates: every address that a
      pod handed over reads belongs to a service of the same sync exactly if no pod is missing, or no service of a
      wanted type was claimed and no worker has succeeded. Otherwise every pod handed over reads an empty address. */
  lemma WiringCompleteIff(c: Config, s: System, seen: Seen)
    requires ProperSuffixes(c.draws) && CommaFree(c.name)
    ensures var s' := Manage(c, s, seen).0;
            var services, pods := s'.services[|s.services|..], s'.attempted[|s.attempted|..];
            && ((forall pod | pod in pods :: WellWired(pod, services))
                <==> (seen.workers + seen.succeeded >= c.workers && seen.ps >= c.ps) || AllRegistered(c, seen))
            && (!AllRegistered(c, seen) ==> forall pod | pod in pods :: ":2222" in HostsRead(pod))
  {
    hide Manage, PlannedPods, PlannedServices, WorkerHosts, PSHosts, HostsIn, AllRegistered, Resolves;
    ManageFollowsPlan(c, s, seen);
    ListsResolveIff(c, s, seen);
    var s' := Manage(c, s, seen).0;
    var services, pods := s'.services[|s.services|..], s'.attempted[|s.attempted|..];
    assert services == PlannedServices(c, s, seen);
    assert pods == [] <==> seen.workers + seen.succeeded >= c.workers && seen.ps >= c.ps;
    forall k | 0 <= k < |pods|
      ensures HostsRead(pods[k]) == WorkerHosts(c, s, seen) + PSHosts(c, s, seen)
    {
      HandedPodReads(c, s, seen, k);
      assert pods[k] == s'.attempted[|s.attempted| + k];
    }
    assert pods != [] ==> pods[0] in pods;
  }

  lemma EmptyAddress(c: Config, s: System, seen: Seen)
    requires ProperSuffixes(c.draws)
    ensures !Resolves(":2222", PlannedServices(c, s, seen))
  {
    hide ServiceKey;
    forall k | 0 <= k < |PlannedServices(c, s, seen)| ensures Address(PlannedServices(c, s, seen)[k]) != ":2222" {
      var (job, drawn) := Prepared(c, s, seen);
      var e, n := EnvOf(c, job.rid), WorkerServiceCount(c, seen);
      var typ, i := if k < n then Worker else PS, if k < n then k else k - n;
      SuffixedName(ServiceKey(c.name, typ, i) + "-", c.draws(drawn + k));
      AddressOf(c, s, seen, k);
      assert |PlannedServices(c, s, seen)[k].name| >= 5;
    }
  }
}
