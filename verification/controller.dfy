/** The controller: one sync of a distributed or a local TFJob. */
module Controller {
  import opened Api
  import opened Ref
  import opened TensorFlow
  import opened Plan
  import opened Updater
  import Patches

  // ---- Whose pod it is -------------------------------------------------------

  /** `resolveControllerRef` when the job is listed: kind, name and uid must agree. */
  predicate ResolvesTo(name: string, uid: Uid, r: OwnerRef) {
    r.kind == TFJOB_KIND && r.name == name && r.uid == uid
  }

  /** `addPod` counts a creation for a job if the pod's controller resolves to it. */
  predicate CountsFor(name: string, uid: Uid, owners: seq<OwnerRef>) {
    var r := ControllerOf(owners);
    r.Some? && ResolvesTo(name, uid, r.value)
  }

  // ---- What a sync of a distributed job does ---------------------------------

  /** A distributed job and the outside world's answers: random suffixes, and which create calls succeed. */
  datatype Config = Config(name: string, uid: Uid, workers: int, ps: int,
                           draws: nat -> string, serviceOk: nat -> bool, podOk: nat -> bool)

  /** The cached job, what was created so far, and the expectation counter of the job. */
  datatype System = System(job: JobState, drawn: nat, services: seq<Service>,
                           attempted: seq<PodSpec>, created: seq<PodSpec>, counter: Option<int>)

  /** What a sync reads: the deletion mark of the job, the four listings, and the answers to its claims. */
  datatype Inputs = Inputs(
    deleting: bool,
    workerPods: seq<Object>, workerReplies: seq<Option<Error>>,
    psPods: seq<Object>, psReplies: seq<Option<Error>>,
    workerServices: seq<Object>, workerServiceReplies: seq<Option<Error>>,
    psServices: seq<Object>, psServiceReplies: seq<Option<Error>>)

  ghost predicate Answered(i: Inputs) {
    |i.workerPods| == |i.workerReplies| && |i.psPods| == |i.psReplies|
    && |i.workerServices| == |i.workerServiceReplies| && |i.psServices| == |i.psServiceReplies|
  }

  /** The listings of one sync as the caches return them. */
  datatype Listings = Listings(workerPods: seq<Object>, psPods: seq<Object>,
                               workerServices: seq<Object>, psServices: seq<Object>)

  /** The deletion checks of the four passes of one sync: every manager reads the job anew. */
  datatype Checks = Checks(workerPods: Option<nat -> Option<Error>>, psPods: Option<nat -> Option<Error>>,
                           workerServices: Option<nat -> Option<Error>>, psServices: Option<nat -> Option<Error>>)

  /** A new manager for one type of one job. */
  function ManagerFor(name: string, uid: Uid, rid: string, typ: ReplicaType, deleting: bool,
                      check: Option<nat -> Option<Error>>): Manager {
    Manager(ControllerRefFor(name, uid), deleting, ReplicaLabels(name, rid, typ), check, None, false, 0)
  }

  function EnvOf(c: Config, rid: string): Env {
    Env(c.name, ControllerRefFor(c.name, c.uid), rid, c.workers, c.ps, c.draws, c.serviceOk, c.podOk)
  }

  /** `SatisfiedExpectations`: never set, or fulfilled. */
  predicate Satisfied(counter: Option<int>) {
    counter.None? || counter.value <= 0
  }

  /** `manageTFJob` of a distributed job: compose if workers are missing, then carry out the events. */
  function Manage(c: Config, s: System, seen: Seen): (System, bool) {
    var composes := Composes(c.workers, seen);
    var job := if composes then Composed(c.name, s.job, GeneratedName("", c.draws(s.drawn))) else s.job;
    var drawn := if composes then s.drawn + 1 else s.drawn;
    var e := EnvOf(c, job.rid);
    var p := Progress(map[], drawn, s.services, s.attempted, s.created, job.worker, job.ps, s.counter, false);
    var q := Pods(e, Services(e, p, seen), seen);
    (System(job.(worker := q.worker, ps := q.ps), q.drawn, q.services, q.attempted, q.created, q.counter), !q.failed)
  }

  /** The pods or services claimed for one type. */
  function ClaimsFor(c: Config, s: System, typ: ReplicaType, deleting: bool,
                     objs: seq<Object>, replies: seq<Option<Error>>): seq<Object>
    requires |objs| == |replies|
  {
    Claims(ManagerFor(c.name, c.uid, s.job.rid, typ, deleting, None), objs, replies)
  }

  ghost predicate ClaimOk(c: Config, s: System, typ: ReplicaType, deleting: bool,
                          objs: seq<Object>, replies: seq<Option<Error>>)
    requires |objs| == |replies|
  {
    Errors(ManagerFor(c.name, c.uid, s.job.rid, typ, deleting, None), objs, replies) == []
  }

  ghost predicate ClaimsOk(c: Config, s: System, i: Inputs)
    requires Answered(i)
  {
    && ClaimOk(c, s, Worker, i.deleting, i.workerPods, i.workerReplies)
    && ClaimOk(c, s, PS, i.deleting, i.psPods, i.psReplies)
    && ClaimOk(c, s, Worker, i.deleting, i.workerServices, i.workerServiceReplies)
    && ClaimOk(c, s, PS, i.deleting, i.psServices, i.psServiceReplies)
  }

  function WorkersOf(c: Config, s: System, i: Inputs): seq<Object>
    requires Answered(i)
  {
    ClaimsFor(c, s, Worker, i.deleting, i.workerPods, i.workerReplies)
  }

  function PSPodsOf(c: Config, s: System, i: Inputs): seq<Object>
    requires Answered(i)
  {
    ClaimsFor(c, s, PS, i.deleting, i.psPods, i.psReplies)
  }

  function SeenIn(c: Config, s: System, i: Inputs): Seen
    requires Answered(i)
  {
    Seen(|FilterActive(WorkersOf(c, s, i))|,
         |ClaimsFor(c, s, Worker, i.deleting, i.workerServices, i.workerServiceReplies)|,
         |FilterActive(PSPodsOf(c, s, i))|,
         |ClaimsFor(c, s, PS, i.deleting, i.psServices, i.psServiceReplies)|,
         Count(WorkersOf(c, s, i), Succeeded))
  }

  /** `ShouldUpdate` of a distributed job. */
  function WithStatus(c: Config, j: JobState, workers: seq<Object>, ps: seq<Object>): JobState {
    var (phase, statuses) := Updated(c.workers, Count(workers, Succeeded), j.statuses, workers, ps);
    j.(phase := phase, statuses := statuses)
  }

  /** One sync; false when it ended with an error before the status was computed. */
  ghost function Sync(c: Config, s: System, i: Inputs): (System, bool)
    requires Answered(i)
  {
    if !ClaimsOk(c, s, i) then (s, false)
    else
      var (s', ok) := if Satisfied(s.counter) && !i.deleting then Manage(c, s, SeenIn(c, s, i)) else (s, true);
      if ok then (s'.(job := WithStatus(c, s'.job, WorkersOf(c, s, i), PSPodsOf(c, s, i))), true) else (s', false)
  }

  /** The inputs of a sync whose claims are answered by the two servers, and the servers afterwards: the worker pass, then
      the PS pass on what it left behind, first for pods and then for services. The first pass that fails is the last;
      what later ones would have been answered does not matter. */
  function Answers(name: string, uid: Uid, rid: string, deleting: bool, l: Listings, pods: Server, services: Server,
                   checks: Checks): (r: (Inputs, Server, Server))
    ensures Answered(r.0) && r.0.deleting == deleting
  {
    var m1 := ManagerFor(name, uid, rid, Worker, deleting, checks.workerPods);
    var m2 := ManagerFor(name, uid, rid, PS, deleting, checks.psPods);
    var m3 := ManagerFor(name, uid, rid, Worker, deleting, checks.workerServices);
    var m4 := ManagerFor(name, uid, rid, PS, deleting, checks.psServices);
    var (w1, r1) := ActAll(World(m1, pods), l.workerPods);
    var (w2, r2) := ActAll(World(m2, w1.server), l.psPods);
    var (w3, r3) := ActAll(World(m3, services), l.workerServices);
    var (w4, r4) := ActAll(World(m4, w3.server), l.psServices);
    var i := Inputs(deleting, l.workerPods, r1, l.psPods, r2, l.workerServices, r3, l.psServices, r4);
    if Errors(m1, l.workerPods, r1) != [] then (i, w1.server, services)
    else if Errors(m2, l.psPods, r2) != [] then (i, w2.server, services)
    else if Errors(m3, l.workerServices, r3) != [] then (i, w2.server, w3.server)
    else (i, w2.server, w4.server)
  }

  // ---- What a sync of a local job does ---------------------------------------

  datatype LocalConfig = LocalConfig(name: string, uid: Uid, draws: nat -> string, podOk: nat -> bool)

  datatype LocalSystem = LocalSystem(rid: string, template: Template, phase: JobPhase, statuses: seq<ReplicaStatus>, drawn: nat,
                                     attempted: seq<PodSpec>, created: seq<PodSpec>, counter: Option<int>)

  function LocalManager(name: string, uid: Uid, rid: string, deleting: bool): Manager {
    ManagerFor(name, uid, rid, Local, deleting, None)
  }

  /** `LocalJob.Action` that decides to create, and the expectation set for it. */
  function LocalComposed(c: LocalConfig, s: LocalSystem): LocalSystem {
    var rid := GeneratedName("", c.draws(s.drawn));
    s.(rid := rid, template := s.template.(labels := Some(ReplicaLabels(c.name, rid, Local))),
       drawn := s.drawn + 1, counter := Some(1))
  }

  /** The create call that follows; a failure takes the expectation back. */
  function LocalCreated(c: LocalConfig, s: LocalSystem): (LocalSystem, bool) {
    var ok, pod := c.podOk(|s.attempted|), Snapshot(s.template, ControllerRefFor(c.name, c.uid));
    (s.(attempted := s.attempted + [pod],
        created := if ok then s.created + [pod] else s.created,
        counter := if ok then s.counter else Observed(s.counter)), ok)
  }

  /** Does a sync that claimed these pods create one? `NewLocalJob` takes several active pods for none. */
  predicate CreatesLocal(claims: seq<Object>) {
    NeedsLocalPod(|FilterActive(claims)|, Count(claims, Succeeded))
  }

  function LocalManaged(c: LocalConfig, s: LocalSystem, claims: seq<Object>): (LocalSystem, bool) {
    if CreatesLocal(claims) then LocalCreated(c, LocalComposed(c, s)) else (s, true)
  }

  /** `ShouldUpdate` of a local job. */
  function LocalStatus(s: LocalSystem, claims: seq<Object>): LocalSystem {
    s.(phase := if Count(claims, Succeeded) == 1 then JobSucceeded else JobRunning,
       statuses := if |claims| == 1 then [ReplicaStatus(Local, Histogram(claims))] else s.statuses)
  }

  /** One sync; false when it ended with an error, also when more than one pod was claimed. */
  ghost function LocalSync(c: LocalConfig, s: LocalSystem, deleting: bool,
                           pods: seq<Object>, replies: seq<Option<Error>>): (LocalSystem, bool)
    requires |pods| == |replies|
  {
    var m := LocalManager(c.name, c.uid, s.rid, deleting);
    var claims := Claims(m, pods, replies);
    if Errors(m, pods, replies) != [] then (s, false)
    else
      var (s', ok) := if Satisfied(s.counter) && !deleting then LocalManaged(c, s, claims) else (s, true);
      if !ok || |claims| > 1 then (s', false) else (LocalStatus(s', claims), true)
  }

  // ---- The code --------------------------------------------------------------

  /** The expectation counter of one job key. Setting overwrites. */
  class Expectations {
    var counter: Option<int>

    constructor ()
      ensures counter == None
    {
      counter := None;
    }

    method ExpectCreations(adds: int)
      modifies this
      ensures counter == Some(adds)
    {
      counter := Some(adds);
    }

    method CreationObserved()
      modifies this
      ensures counter == if old(counter).Some? then Some(old(counter).value - 1) else None
    {
      if counter.Some? {
        counter := Some(counter.value - 1);
      }
    }
  }

  /** The create calls of the helper. */
  class Cluster {
    const serviceOk: nat -> bool
    const podOk: nat -> bool
    var services: seq<Service>
    var attempted: seq<PodSpec>
    var created: seq<PodSpec>

    constructor (serviceOk: nat -> bool, podOk: nat -> bool)
      ensures this.serviceOk == serviceOk && this.podOk == podOk
      ensures services == [] && attempted == [] && created == []
    {
      this.serviceOk, this.podOk := serviceOk, podOk;
      services, attempted, created := [], [], [];
    }

    method CreateService(service: Service) returns (ok: bool)
      modifies this`services
      ensures services == old(services) + [service] && ok == serviceOk(|old(services)|)
    {
      ok := serviceOk(|services|);
      services := services + [service];
    }

    /** Takes a copy of the template as it is now, with the job as its controller. */
    method CreatePod(tfJob: TFJob, template: PodTemplate) returns (ok: bool)
      modifies this`attempted, this`created
      ensures var pod := Snapshot(template.state, ControllerRefFor(tfJob.name, tfJob.uid));
              && attempted == old(attempted) + [pod] && ok == podOk(|old(attempted)|)
              && created == if ok then old(created) + [pod] else old(created)
    {
      var pod := Snapshot(template.state, ControllerRefFor(tfJob.name, tfJob.uid));
      ok := podOk(|attempted|);
      attempted := attempted + [pod];
      if ok {
        created := created + [pod];
      }
    }
  }

  class Controller {
    const gen: NameGenerator
    const cluster: Cluster
    const expectations: Expectations

    constructor (gen: NameGenerator, cluster: Cluster, expectations: Expectations)
      ensures this.gen == gen && this.cluster == cluster && this.expectations == expectations
    {
      this.gen, this.cluster, this.expectations := gen, cluster, expectations;
    }

    method ResolveControllerRef(jobs: map<string, TFJob>, r: OwnerRef) returns (job: Option<TFJob>)
      ensures job.Some? <==> r.kind == TFJOB_KIND && r.name in jobs && jobs[r.name].uid == r.uid
      ensures job.Some? ==> job.value == jobs[r.name]
    {
      if r.kind != TFJOB_KIND {
        return None;
      }
      if r.name !in jobs {
        return None;
      }
      if jobs[r.name].uid != r.uid {
        return None;
      }
      return Some(jobs[r.name]);
    }

    /** `addPod`, as far as the expectation of one of the listed jobs is concerned. */
    method AddPod(pod: Object, jobs: map<string, TFJob>, tfJob: TFJob)
      requires tfJob.name in jobs && jobs[tfJob.name] == tfJob && forall n | n in jobs :: jobs[n].name == n
      modifies expectations
      ensures expectations.counter ==
              if CountsFor(tfJob.name, tfJob.uid, pod.owners)
              then Observed(old(expectations.counter)) else old(expectations.counter)
    {
      var controllerRef := ControllerOf(pod.owners);
      if controllerRef.Some? {
        var job := ResolveControllerRef(jobs, controllerRef.value);
        if job.None? {
          return;
        }
        if job.value == tfJob {
          expectations.CreationObserved();
        }
      }
    }

    ghost function ConfigOf(tfJob: TFJob): Config
    {
      Config(tfJob.name, tfJob.uid, tfJob.worker.replicas, tfJob.ps.replicas,
             gen.draws, cluster.serviceOk, cluster.podOk)
    }

    ghost function SystemOf(tfJob: TFJob): System
      reads tfJob, tfJob.worker.template, tfJob.ps.template, gen, cluster, expectations
    {
      System(tfJob.DistributedState(), gen.drawn, cluster.services, cluster.attempted, cluster.created, expectations.counter)
    }

    /** The progress of a sync that is carrying out its events. */
    ghost function Now(dj: DistributedJob, failed: bool): Progress
      reads dj, dj.tfJob.worker.template, dj.tfJob.ps.template, gen, cluster, expectations
    {
      Progress(dj.serviceNames, gen.drawn, cluster.services, cluster.attempted, cluster.created,
               dj.tfJob.worker.template.state, dj.tfJob.ps.template.state, expectations.counter, failed)
    }

    ghost function EnvNow(dj: DistributedJob): Env
      reads dj.tfJob
    {
      EnvOf(ConfigOf(dj.tfJob), dj.tfJob.runtimeID)
    }

    method CreateOneService(dj: DistributedJob, typ: ReplicaType, index: nat)
      requires dj.tfJob.Distributed()
      modifies dj, gen, cluster`services, expectations
      ensures Now(dj, false) == OneService(EnvNow(dj), old(Now(dj, false)), typ, index)
    {
      var service := dj.GetService(typ, index, gen);
      var ok := cluster.CreateService(service);
      if !ok {
        expectations.CreationObserved();
      }
    }

    /** The loop of the two service events. */
    method CreateServices(dj: DistributedJob, typ: ReplicaType, number: int)
      requires dj.tfJob.Distributed()
      modifies dj, gen, cluster`services, expectations
      ensures Now(dj, false) == AddServices(EnvNow(dj), old(Now(dj, false)), typ, number)
    {
      ghost var e, p := EnvNow(dj), Now(dj, false);
      expectations.ExpectCreations(number);
      var i := 0;
      while i < number
        invariant 0 <= i <= Nat(number)
        invariant Now(dj, false) == ServicesUpTo(e, p, typ, number, i)
      {
        OneMoreService(e, p, typ, number, i);
        CreateOneService(dj, typ, i);
        i := i + 1;
      }
    }

    method CreateOnePod(dj: DistributedJob, typ: ReplicaType, index: nat) returns (ok: bool)
      requires dj.tfJob.Distributed() && typ != Local
      requires dj.tfJob.Named(typ).template.state.labels.Some?
      modifies dj.tfJob.Named(typ).template, cluster`attempted, cluster`created, expectations
      ensures Now(dj, !ok) == OnePod(EnvNow(dj), old(Now(dj, false)), typ, index)
    {
      hide ClusterArgs;
      var spec := dj.GetSpec(typ, index);
      ok := cluster.CreatePod(dj.tfJob, spec.template);
      if !ok {
        expectations.CreationObserved();
      }
    }

    /** The loop of the two pod events; it stops at the first failure. */
    method CreatePods(dj: DistributedJob, typ: ReplicaType, number: int) returns (ok: bool)
      requires dj.tfJob.Distributed() && typ != Local
      requires number > 0 ==> dj.tfJob.Named(typ).template.state.labels.Some?
      modifies dj.tfJob.Named(typ).template, cluster`attempted, cluster`created, expectations
      ensures Now(dj, !ok) == AddPods(EnvNow(dj), old(Now(dj, false)), typ, number)
    {
      hide PodsUpTo, OnePod, AddPods;
      ghost var e, p := EnvNow(dj), Now(dj, false);
      expectations.ExpectCreations(number);
      NoPodYet(e, p, typ, number);
      var i := 0;
      while i < number
        invariant 0 <= i <= Nat(number)
        invariant Now(dj, false) == PodsUpTo(e, p, typ, number, i, i)
        invariant forall j | |p.attempted| <= j < |p.attempted| + i :: e.podOk(j)
        invariant number > 0 ==> dj.tfJob.Named(typ).template.state.labels.Some?
      {
        OneMorePod(e, p, typ, number, i);
        ok := CreateOnePod(dj, typ, i);
        if !ok {
          StoppedAt(e, p, typ, number, i);
          return;
        }
        i := i + 1;
      }
      ok := true;
      AllSucceed(e, p, typ, number);
    }

    /** One pass through the loop over the events. */
    method CarryOut(dj: DistributedJob, event: Event) returns (ok: bool)
      requires dj.tfJob.Distributed()
      requires event.action == ShouldAddWorker ==> dj.tfJob.worker.template.state.labels.Some?
      requires event.action == ShouldAddPS ==> dj.tfJob.ps.template.state.labels.Some?
      modifies dj, dj.tfJob.worker.template, dj.tfJob.ps.template, gen, cluster, expectations
      ensures Now(dj, !ok) == Exec(EnvNow(dj), old(Now(dj, false)), event)
    {
      hide AddPods, AddServices;
      ok := true;
      match event.action {
        case ShouldAddWorkerService => CreateServices(dj, Worker, event.number);
        case ShouldAddPSService => CreateServices(dj, PS, event.number);
        case ShouldAddWorker => ok := CreatePods(dj, Worker, event.number);
        case ShouldAddPS => ok := CreatePods(dj, PS, event.number);
        case Nothing =>
      }
    }

    /** The loop over the events; a failed pod creation ends it. */
    method CarryOutAll(dj: DistributedJob, events: seq<Event>) returns (ok: bool)
      requires dj.tfJob.Distributed()
      requires forall event | event in events :: event.action == ShouldAddWorker ==> dj.tfJob.worker.template.state.labels.Some?
      requires forall event | event in events :: event.action == ShouldAddPS ==> dj.tfJob.ps.template.state.labels.Some?
      modifies dj, dj.tfJob.worker.template, dj.tfJob.ps.template, gen, cluster, expectations
      ensures Now(dj, !ok) == ExecAll(EnvNow(dj), old(Now(dj, false)), events)
    {
      hide Exec;
      ghost var e, p := EnvNow(dj), Now(dj, false);
      for k := 0 to |events|
        invariant Now(dj, false) == ExecAll(e, p, events[..k])
        invariant p.worker.labels.Some? ==> dj.tfJob.worker.template.state.labels.Some?
        invariant p.ps.labels.Some? ==> dj.tfJob.ps.template.state.labels.Some?
      {
        assert events[..k + 1][..k] == events[..k];
        ExecKeepsLabels(e, Now(dj, false), events[k]);
        assert events[k] in events;
        ok := CarryOut(dj, events[k]);
        if !ok {
          FailureSticks(e, p, events, k + 1);
          return;
        }
      }
      assert events[..|events|] == events;
      ok := true;
    }

    method ManageDistributed(tfJob: TFJob, activeWorkerPods: seq<Object>, activePSPods: seq<Object>,
                             workerServices: seq<Object>, psServices: seq<Object>, succeeded: nat) returns (ok: bool)
      requires tfJob.Distributed()
      requires var seen := Seen(|activeWorkerPods|, |workerServices|, |activePSPods|, |psServices|, succeeded);
               Composes(tfJob.worker.replicas, seen) || seen.ps >= tfJob.ps.replicas || tfJob.ps.template.state.labels.Some?
      modifies tfJob, tfJob.worker.template, tfJob.ps.template, gen, cluster, expectations
      ensures tfJob.deleting == old(tfJob.deleting) && tfJob.phase == old(tfJob.phase) && tfJob.statuses == old(tfJob.statuses)
      ensures (SystemOf(tfJob), ok) == Manage(ConfigOf(tfJob), old(SystemOf(tfJob)),
                Seen(|activeWorkerPods|, |workerServices|, |activePSPods|, |psServices|, succeeded))
    {
      hide ExecAll, Services, Pods, Composed;
      var dj := new DistributedJob(tfJob, activeWorkerPods, activePSPods, workerServices, psServices, succeeded);
      var events := dj.Action(gen);
      EventsInOrder(EnvNow(dj), Now(dj, false), dj.Counts());
      LabelsComposed(tfJob.name, old(tfJob.DistributedState()), GeneratedName("", gen.draws(old(gen.drawn))));
      ok := CarryOutAll(dj, events);
    }

    /** `GetPodsForTFJob` and `GetServicesForTFJob`: claim the listed objects of one type. */
    method GetForTFJob(tfJob: TFJob, typ: ReplicaType, objs: seq<Object>, server: ApiServer,
                       check: Option<nat -> Option<Error>>) returns (claimed: seq<Object>, ok: bool)
      modifies server
      ensures var m := ManagerFor(tfJob.name, tfJob.uid, tfJob.runtimeID, typ, tfJob.deleting, check);
              var (w, replies) := ActAll(World(m, old(server.state)), objs);
              && server.state == w.server
              && claimed == Claims(m, objs, replies)
              && (ok <==> Errors(m, objs, replies) == [])
      ensures tfJob.deleting ==> ok && server.state == old(server.state)
    {
      var selector := ReplicaLabels(tfJob.name, tfJob.runtimeID, typ);
      var manager := new RefManager(ControllerRefFor(tfJob.name, tfJob.uid), tfJob.deleting, selector, check, server);
      if tfJob.deleting {
        Patches.DeletedSendsNothing(World(manager.View(), server.state), objs);
      }
      var errlist;
      claimed, errlist := manager.ClaimServices(objs);
      ok := errlist == [];
    }

    /** The four claims of a sync of a distributed job; the first that fails is the last. */
    method GetAll(tfJob: TFJob, l: Listings, pods: ApiServer, services: ApiServer, checks: Checks)
      returns (workerPods: seq<Object>, psPods: seq<Object>, workerServices: seq<Object>, psServices: seq<Object>, ok: bool)
      requires tfJob.Distributed() && pods != services
      modifies pods, services
      ensures var (i, pods', services') := Answers(tfJob.name, tfJob.uid, tfJob.runtimeID, tfJob.deleting, l,
                                                   old(pods.state), old(services.state), checks);
              var c, s := ConfigOf(tfJob), SystemOf(tfJob);
              && (ok <==> ClaimsOk(c, s, i))
              && pods.state == pods' && services.state == services'
              && (ok ==>
                    && workerPods == WorkersOf(c, s, i) && psPods == PSPodsOf(c, s, i)
                    && workerServices == ClaimsFor(c, s, Worker, i.deleting, i.workerServices, i.workerServiceReplies)
                    && psServices == ClaimsFor(c, s, PS, i.deleting, i.psServices, i.psServiceReplies))
      ensures tfJob.deleting ==> ok && pods.state == old(pods.state) && services.state == old(services.state)
    {
      hide ActAll, Claims, Errors;
      ghost var c, s := ConfigOf(tfJob), SystemOf(tfJob);
      ghost var i := Answers(tfJob.name, tfJob.uid, tfJob.runtimeID, tfJob.deleting, l, pods.state, services.state, checks).0;
      ClaimsIgnoreCheck(c, s, i, checks);
      psPods, workerServices, psServices := [], [], [];
      workerPods, ok := GetForTFJob(tfJob, Worker, l.workerPods, pods, checks.workerPods);
      if !ok { return; }
      psPods, ok := GetForTFJob(tfJob, PS, l.psPods, pods, checks.psPods);
      if !ok { return; }
      workerServices, ok := GetForTFJob(tfJob, Worker, l.workerServices, services, checks.workerServices);
      if !ok { return; }
      psServices, ok := GetForTFJob(tfJob, PS, l.psServices, services, checks.psServices);
    }

    /** `syncHandler` for a distributed job; `update` says whether the job is written back.
        Its effect is `Sync` on what the servers answer to the claims. */
    method SyncDistributed(tfJob: TFJob, l: Listings, pods: ApiServer, services: ApiServer,
                           checks: Checks) returns (ok: bool, update: bool)
      requires tfJob.Distributed() && pods != services
      requires var i := Answers(tfJob.name, tfJob.uid, tfJob.runtimeID, tfJob.deleting, l, pods.state, services.state, checks).0;
               var seen := SeenIn(ConfigOf(tfJob), SystemOf(tfJob), i);
               tfJob.ps.template.state.labels.Some? || Composes(tfJob.worker.replicas, seen) || seen.ps >= tfJob.ps.replicas
      modifies tfJob, tfJob.worker.template, tfJob.ps.template, gen, cluster, expectations, pods, services
      ensures var (i, pods', services') := old(Answers(tfJob.name, tfJob.uid, tfJob.runtimeID, tfJob.deleting, l,
                                                       pods.state, services.state, checks));
              && (SystemOf(tfJob), ok) == Sync(ConfigOf(tfJob), old(SystemOf(tfJob)), i)
              && pods.state == pods' && services.state == services'
      ensures old(tfJob.deleting) ==>
                && ok && pods.state == old(pods.state) && services.state == old(services.state)
                && unchanged(cluster) && unchanged(expectations)
      ensures ok && !update ==> tfJob.phase == old(tfJob.phase) && tfJob.statuses == old(tfJob.statuses)
    {
      update := false;
      hide Answers, ClaimsFor, ClaimOk, Manage, Updated;
      var jobNeedsSync := expectations.counter.None? || expectations.counter.value <= 0;
      var workerPods, psPods, workerServices, psServices;
      workerPods, psPods, workerServices, psServices, ok := GetAll(tfJob, l, pods, services, checks);
      if !ok { return; }
      var activeWorkerPods := FilterActive(workerPods);
      var succeeded, _ := GetStatus(workerPods);
      var activePSPods := FilterActive(psPods);
      if jobNeedsSync && !tfJob.deleting {
        ok := ManageDistributed(tfJob, activeWorkerPods, activePSPods, workerServices, psServices, succeeded);
        if !ok { return; }
      }
      var updater := new DistributedUpdater(tfJob, succeeded, workerPods, psPods);
      update := updater.ShouldUpdate();
    }

    ghost function LocalConfigOf(tfJob: TFJob): LocalConfig {
      LocalConfig(tfJob.name, tfJob.uid, gen.draws, cluster.podOk)
    }

    ghost function LocalSystemOf(tfJob: TFJob): LocalSystem
      requires |tfJob.specs| > 0
      reads tfJob, tfJob.specs[0].template, gen, cluster, expectations
    {
      LocalSystem(tfJob.runtimeID, tfJob.specs[0].template.state, tfJob.phase, tfJob.statuses, gen.drawn,
                  cluster.attempted, cluster.created, expectations.counter)
    }

    /** The local branch of `manageTFJob`. */
    method ManageLocal(tfJob: TFJob, activePods: seq<Object>, succeeded: nat) returns (ok: bool)
      requires |tfJob.specs| > 0 && tfJob.specs[0].typ == Local
      modifies tfJob, tfJob.specs[0].template, gen, cluster, expectations
      ensures tfJob.deleting == old(tfJob.deleting) && tfJob.phase == old(tfJob.phase) && tfJob.statuses == old(tfJob.statuses)
      ensures (LocalSystemOf(tfJob), ok) ==
              if NeedsLocalPod(|activePods|, succeeded)
              then LocalCreated(LocalConfigOf(tfJob), LocalComposed(LocalConfigOf(tfJob), old(LocalSystemOf(tfJob))))
              else (old(LocalSystemOf(tfJob)), true)
    {
      ok := true;
      var localJob := new LocalJob(tfJob, activePods, succeeded);
      var event := localJob.Action(gen);
      match event.action {
        case ShouldAddWorker =>
          expectations.ExpectCreations(event.number);
          ok := cluster.CreatePod(tfJob, tfJob.specs[0].template);
          if !ok {
            expectations.CreationObserved();
            return;
          }
        case _ =>
      }
    }

    /** `syncHandler` for a local job. Its effect is `LocalSync` on what the server answers to the claims. */
    method SyncLocal(tfJob: TFJob, listing: seq<Object>, pods: ApiServer, check: Option<nat -> Option<Error>>)
      returns (ok: bool, update: bool)
      requires |tfJob.specs| > 0 && tfJob.specs[0].typ == Local
      modifies tfJob, tfJob.specs[0].template, gen, cluster, expectations, pods
      ensures var m := ManagerFor(tfJob.name, tfJob.uid, old(tfJob.runtimeID), Local, old(tfJob.deleting), check);
              var (w, replies) := ActAll(World(m, old(pods.state)), listing);
              && pods.state == w.server
              && (LocalSystemOf(tfJob), ok) ==
                 LocalSync(LocalConfigOf(tfJob), old(LocalSystemOf(tfJob)), old(tfJob.deleting), listing, replies)
      ensures old(tfJob.deleting) ==>
                pods.state == old(pods.state) && unchanged(cluster) && unchanged(expectations)
      ensures ok && !update ==> tfJob.phase == old(tfJob.phase) && tfJob.statuses == old(tfJob.statuses)
    {
      update := false;
      hide ActAll, Claims, Errors, Histogram, LocalCreated, LocalComposed, Upsert;
      ghost var m := ManagerFor(tfJob.name, tfJob.uid, tfJob.runtimeID, Local, tfJob.deleting, check);
      SameOutcome(m, LocalManager(tfJob.name, tfJob.uid, tfJob.runtimeID, tfJob.deleting),
                  listing, ActAll(World(m, pods.state), listing).1);
      var jobNeedsSync := expectations.counter.None? || expectations.counter.value <= 0;
      var workerPods;
      workerPods, ok := GetForTFJob(tfJob, Local, listing, pods, check);
      if !ok { return; }
      var activeWorkerPods := FilterActive(workerPods);
      var succeeded, _ := GetStatus(workerPods);
      if jobNeedsSync && !tfJob.deleting {
        ok := ManageLocal(tfJob, activeWorkerPods, succeeded);
        if !ok { return; }
      }
      var updater := NewLocal(tfJob, succeeded, workerPods);
      if updater.None? {
        ok := false;
        return;
      }
      assert |workerPods| == 1 ==> workerPods == [workerPods[0]];
      update := updater.value.ShouldUpdate();
    }
  }

  /** What is claimed does not depend on the deletion check, only on the answers. */
  lemma ClaimsIgnoreCheck(c: Config, s: System, i: Inputs, checks: Checks)
    requires Answered(i)
    ensures SameClaim(c, s, Worker, i.deleting, i.workerPods, i.workerReplies, checks.workerPods)
    ensures SameClaim(c, s, PS, i.deleting, i.psPods, i.psReplies, checks.psPods)
    ensures SameClaim(c, s, Worker, i.deleting, i.workerServices, i.workerServiceReplies, checks.workerServices)
    ensures SameClaim(c, s, PS, i.deleting, i.psServices, i.psServiceReplies, checks.psServices)
  {
    hide SameClaim;
    PassIgnoresCheck(c, s, Worker, i.deleting, i.workerPods, i.workerReplies, checks.workerPods);
    PassIgnoresCheck(c, s, PS, i.deleting, i.psPods, i.psReplies, checks.psPods);
    PassIgnoresCheck(c, s, Worker, i.deleting, i.workerServices, i.workerServiceReplies, checks.workerServices);
    PassIgnoresCheck(c, s, PS, i.deleting, i.psServices, i.psServiceReplies, checks.psServices);
  }

  ghost predicate SameClaim(c: Config, s: System, typ: ReplicaType, deleting: bool, objs: seq<Object>,
                            replies: seq<Option<Error>>, check: Option<nat -> Option<Error>>)
    requires |objs| == |replies|
  {
    var m := ManagerFor(c.name, c.uid, s.job.rid, typ, deleting, check);
    && Claims(m, objs, replies) == ClaimsFor(c, s, typ, deleting, objs, replies)
    && (Errors(m, objs, replies) == [] <==> ClaimOk(c, s, typ, deleting, objs, replies))
  }

  lemma PassIgnoresCheck(c: Config, s: System, typ: ReplicaType, deleting: bool, objs: seq<Object>,
                         replies: seq<Option<Error>>, check: Option<nat -> Option<Error>>)
    requires |objs| == |replies|
    ensures SameClaim(c, s, typ, deleting, objs, replies, check)
  {
    hide Claims, Errors;
    SameOutcome(ManagerFor(c.name, c.uid, s.job.rid, typ, deleting, check),
                ManagerFor(c.name, c.uid, s.job.rid, typ, deleting, None), objs, replies);
  }

  /** What a sync leaves in the status. Without error: an entry for workers exactly if it is the histogram of the claimed
      workers, or the old entry if none was claimed; the same for PS; no other entry; and the phase by the number of
      claimed workers that succeeded. With an error: what was there. */
  lemma StatusFollowsPods(c: Config, s: System, i: Inputs)
    requires Answered(i) && Tidy(s.job.statuses)
    ensures var (s', ok) := Sync(c, s, i);
            var workers, ps := WorkersOf(c, s, i), PSPodsOf(c, s, i);
            && Tidy(s'.job.statuses)
            && (ok ==>
                  && (forall t: ReplicaStatus | t.typ == Worker ::
                        t in s'.job.statuses <==>
                        if workers == [] then t in s.job.statuses else t.states == Histogram(workers))
                  && (forall t: ReplicaStatus | t.typ == PS ::
                        t in s'.job.statuses <==> if ps == [] then t in s.job.statuses else t.states == Histogram(ps))
                  && s'.job.phase == if Count(workers, Succeeded) == c.workers then JobSucceeded else JobRunning)
            && (!ok ==> s'.job.phase == s.job.phase && s'.job.statuses == s.job.statuses)
  {
    hide WorkersOf, PSPodsOf, Upsert, Tidy, Histogram;
    var workers, ps := WorkersOf(c, s, i), PSPodsOf(c, s, i);
    UpsertTidy(s.job.statuses, workers, Worker);
    UpsertTidy(Upsert(s.job.statuses, workers, Worker), ps, PS);
    StatusOfSync(c, s, i);
    hide Sync;
  }

  /** A sync whose claims fail, or that waits for its expectation, or whose job is marked as deleted, makes nothing. */
  lemma ClosedGateMakesNothing(c: Config, s: System, i: Inputs)
    requires Answered(i) && (!ClaimsOk(c, s, i) || i.deleting || !Satisfied(s.counter))
    ensures var (s', ok) := Sync(c, s, i);
            && s' == s.(job := s.job.(phase := s'.job.phase, statuses := s'.job.statuses))
            && (ok <==> ClaimsOk(c, s, i))
  {
    hide ClaimsOk, WorkersOf, PSPodsOf, SeenIn, Updated;
  }

  /** What a local sync makes. If its claims succeed, its expectation is satisfied, the job is live and what it claimed
      calls for it: one pod, labelled with a new runtime id, with the arguments of its template and the job as its
      controller, and one creation expected unless the call fails. Otherwise nothing. */
  lemma LocalSyncMakesOne(c: LocalConfig, s: LocalSystem, deleting: bool, pods: seq<Object>, replies: seq<Option<Error>>)
    requires |pods| == |replies|
    ensures var s' := LocalSync(c, s, deleting, pods, replies).0;
            var m := LocalManager(c.name, c.uid, s.rid, deleting);
            var rid := GeneratedName("", c.draws(s.drawn));
            var pod := PodSpec(ReplicaLabels(c.name, rid, Local), s.template.args, ControllerRefFor(c.name, c.uid));
            var ok := c.podOk(|s.attempted|);
            if Errors(m, pods, replies) == [] && Satisfied(s.counter) && !deleting && CreatesLocal(Claims(m, pods, replies))
            then && s'.rid == rid && s'.drawn == s.drawn + 1 && s'.attempted == s.attempted + [pod]
                 && s'.created == (if ok then s.created + [pod] else s.created) && s'.counter == Some(if ok then 1 else 0)
            else && s'.rid == s.rid && s'.template == s.template && s'.drawn == s.drawn
                 && s'.attempted == s.attempted && s'.created == s.created && s'.counter == s.counter
  {
    hide Claims, Errors, CreatesLocal, Histogram;
  }

  lemma StatusOfSync(c: Config, s: System, i: Inputs)
    requires Answered(i)
    ensures var (s', ok) := Sync(c, s, i);
            var workers, ps := WorkersOf(c, s, i), PSPodsOf(c, s, i);
            && (ok ==>
                  && s'.job.statuses == Upsert(Upsert(s.job.statuses, workers, Worker), ps, PS)
                  && s'.job.phase == if Count(workers, Succeeded) == c.workers then JobSucceeded else JobRunning)
            && (!ok ==> s'.job.phase == s.job.phase && s'.job.statuses == s.job.statuses)
  {
    hide ClaimsOk, WorkersOf, PSPodsOf, SeenIn, Upsert, Pods, Services;
  }

  /** What a sync sends, from the fields of the job and the listings: the patches that the pods call for, of the worker
      pass and then of the PS pass, and then the same for services; nothing after a pass that failed. */
  lemma SyncSends(name: string, uid: Uid, rid: string, deleting: bool, l: Listings, pods: Server, services: Server,
                  checks: Checks)
    ensures var (i, pods', services') := Answers(name, uid, rid, deleting, l, pods, services, checks);
            var workerPods := ManagerFor(name, uid, rid, Worker, deleting, checks.workerPods);
            var psPods := ManagerFor(name, uid, rid, PS, deleting, checks.psPods);
            var workerServices := ManagerFor(name, uid, rid, Worker, deleting, checks.workerServices);
            var psServices := ManagerFor(name, uid, rid, PS, deleting, checks.psServices);
            var workersFail := Patches.FailedReplies(workerPods, l.workerPods, i.workerReplies) != [];
            var podsFail := workersFail || Patches.FailedReplies(psPods, l.psPods, i.psReplies) != [];
            var servicesFail := podsFail || Patches.FailedReplies(workerServices, l.workerServices, i.workerServiceReplies) != [];
            && Sent(pods, pods', Patches.DuePatches(workerPods, l.workerPods)
                                 + if workersFail then [] else Patches.DuePatches(psPods, l.psPods))
            && Sent(services, services', (if podsFail then [] else Patches.DuePatches(workerServices, l.workerServices))
                                         + if servicesFail then [] else Patches.DuePatches(psServices, l.psServices))
  {
    var workerPods := ManagerFor(name, uid, rid, Worker, deleting, checks.workerPods);
    var psPods := ManagerFor(name, uid, rid, PS, deleting, checks.psPods);
    var workerServices := ManagerFor(name, uid, rid, Worker, deleting, checks.workerServices);
    var psServices := ManagerFor(name, uid, rid, PS, deleting, checks.psServices);
    hide ManagerFor, Sent, ActAll, Errors, Patches.FailedReplies, Patches.DuePatches;
    var i := Answers(name, uid, rid, deleting, l, pods, services, checks).0;
    Patches.ErrorsAreFailedReplies(workerPods, l.workerPods, i.workerReplies);
    Patches.ErrorsAreFailedReplies(psPods, l.psPods, i.psReplies);
    Patches.ErrorsAreFailedReplies(workerServices, l.workerServices, i.workerServiceReplies);
    PassSends(World(workerPods, pods), l.workerPods, psPods, l.psPods);
    PassSends(World(workerServices, services), l.workerServices, psServices, l.psServices);
    SentNothing(services);
  }

  /** The log of a server has grown by some patches, in order. */
  ghost predicate Sent(before: Server, after: Server, patches: seq<Patch>) {
    before.sent <= after.sent && Patches.PatchesOf(after.sent[|before.sent|..]) == patches
  }

  lemma SentNothing(s: Server)
    ensures Sent(s, s, [] + [])
  {
  }

  lemma PassSends(w: World, objs: seq<Object>, m: Manager, others: seq<Object>)
    ensures var w1 := ActAll(w, objs).0;
            var first, second := Patches.DuePatches(w.manager, objs), Patches.DuePatches(m, others);
            && Sent(w.server, w1.server, first + [])
            && Sent(w.server, ActAll(World(m, w1.server), others).0.server, first + second)
  {
    hide ActAll, Patches.DuePatches;
    var w1 := ActAll(w, objs).0;
    var w2 := ActAll(World(m, w1.server), others).0;
    Patches.SentExactly(w, objs);
    Patches.SentExactly(World(m, w1.server), others);
    Patches.LogInTwo(w.server.sent, w1.server.sent, w2.server.sent);
  }

  /** A local sync without error leaves the job Succeeded if it claimed a succeeded pod and Running if not, and a claimed
      pod is the only one counted; without a claimed pod the replica statuses stay. */
  lemma LocalStatusFollowsPod(c: LocalConfig, s: LocalSystem, deleting: bool, pods: seq<Object>, replies: seq<Option<Error>>)
    requires |pods| == |replies| && LocalSync(c, s, deleting, pods, replies).1
    ensures var claims := Claims(LocalManager(c.name, c.uid, s.rid, deleting), pods, replies);
            var s' := LocalSync(c, s, deleting, pods, replies).0;
            && |claims| <= 1
            && (s'.phase == JobSucceeded <==> exists o :: o in claims && o.phase == Succeeded)
            && (s'.phase == JobRunning <==> forall o | o in claims :: o.phase != Succeeded)
            && (if claims == [] then s'.statuses == s.statuses
                else s'.statuses == [ReplicaStatus(Local, map[claims[0].phase := 1])])
  {
    hide Claims, Errors;
    var claims := Claims(LocalManager(c.name, c.uid, s.rid, deleting), pods, replies);
    if |claims| == 1 {
      assert claims == [] + [claims[0]] == [claims[0]] && claims[..0] == [];
      HistogramSnoc([], claims[0]);
    }
  }

  lemma LabelsComposed(name: string, j: JobState, rid: string)
    ensures Composed(name, j, rid).worker.labels.Some? && Composed(name, j, rid).ps.labels.Some?
    ensures Composed(name, j, rid).rid == rid
    ensures Composed(name, j, rid).phase == j.phase && Composed(name, j, rid).statuses == j.statuses
  {
  }
}
