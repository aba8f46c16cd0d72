/** Planning: which pods and services a job still needs, and the templates they are made from. */
module TensorFlow {
  import opened Text
  import opened Api

  const WORKER_PORT := 2222
  const EXPECTED_LOCAL_WORKERS := 1
  const MAX_GENERATED_BASE := 58

  datatype ActionType = ShouldAddPS | ShouldAddPSService | ShouldAddWorker | ShouldAddWorkerService | Nothing
  datatype Event = Event(action: ActionType, number: int)

  datatype Service = Service(name: string, labels: Labels, selector: Labels, port: nat)

  // ---- Names -----------------------------------------------------------------

  /** `SimpleNameGenerator.GenerateName` with the random suffix it drew. */
  function GeneratedName(base: string, suffix: string): string {
    (if |base| > MAX_GENERATED_BASE then base[..MAX_GENERATED_BASE] else base) + suffix
  }

  /** `getServiceName`: the key of a service in `serviceNames`. */
  function ServiceKey(job: string, typ: ReplicaType, index: nat): string {
    job + "-" + ToLower(TypeName(typ)) + "-" + Decimal(index)
  }

  class NameGenerator {
    const draws: nat -> string
    var drawn: nat

    constructor (draws: nat -> string)
      ensures this.draws == draws && drawn == 0
    {
      this.draws, drawn := draws, 0;
    }

    method GenerateName(base: string) returns (name: string)
      modifies this
      ensures name == GeneratedName(base, draws(old(drawn))) && drawn == old(drawn) + 1
    {
      name := GeneratedName(base, draws(drawn));
      drawn := drawn + 1;
    }
  }

  // ---- What a distributed job needs ------------------------------------------

  /** The counts a plan is made from. */
  datatype Seen = Seen(workers: nat, workerServices: nat, ps: nat, psServices: nat, succeeded: nat)

  /** A new runtime id is composed exactly when workers are missing. */
  predicate Composes(workers: int, seen: Seen) {
    seen.workers < workers - seen.succeeded
  }

  function AddWorkerServiceEvents(workers: int, seen: Seen): seq<Event> {
    if seen.workerServices == 0 then [Event(ShouldAddWorkerService, workers - seen.succeeded)] else []
  }

  function AddPSServiceEvents(ps: int, seen: Seen): seq<Event> {
    if seen.psServices == 0 then [Event(ShouldAddPSService, ps)] else []
  }

  function AddWorkerEvents(workers: int, seen: Seen): seq<Event> {
    if Composes(workers, seen) then [Event(ShouldAddWorker, workers - seen.succeeded - seen.workers)]
    else if seen.workers == workers - seen.succeeded then [Event(Nothing, 0)]
    else []
  }

  function AddPSEvents(ps: int, seen: Seen): seq<Event> {
    if seen.ps < ps then [Event(ShouldAddPS, ps - seen.ps)] else []
  }

  function Events(workers: int, ps: int, seen: Seen): seq<Event> {
    AddWorkerServiceEvents(workers, seen) + AddPSServiceEvents(ps, seen)
    + AddWorkerEvents(workers, seen) + AddPSEvents(ps, seen)
  }

  /** A job right after `compose`. */
  function Composed(name: string, j: JobState, rid: string): JobState {
    j.(rid := rid,
       worker := j.worker.(labels := Some(ReplicaLabels(name, rid, Worker))),
       ps := j.ps.(labels := Some(ReplicaLabels(name, rid, PS))))
  }

  function ServiceFor(job: string, rid: string, typ: ReplicaType, index: nat, suffix: string): Service {
    var labels := ReplicaLabels(job, rid, typ)[Index := Decimal(index)];
    Service(GeneratedName(ServiceKey(job, typ, index) + "-", suffix), labels, labels, WORKER_PORT)
  }

  // ---- The cluster specification ---------------------------------------------

  /** The address of one replica; empty before the colon when its service is not registered. */
  function HostFor(names: map<string, string>, job: string, typ: ReplicaType, index: nat): string {
    var key := ServiceKey(job, typ, index);
    (if key in names then names[key] else "") + ":" + Decimal(WORKER_PORT)
  }

  function Hosts(names: map<string, string>, job: string, typ: ReplicaType, replicas: int): (r: seq<string>)
    ensures |r| == if replicas > 0 then replicas else 0
    ensures forall i | 0 <= i < |r| :: r[i] == HostFor(names, job, typ, i)
  {
    seq(if replicas > 0 then replicas else 0, i requires i >= 0 => HostFor(names, job, typ, i))
  }

  const WORKER_HOSTS := "--worker_hosts="
  const PS_HOSTS := "--ps_hosts="

  /** A list flag: the hosts joined by commas, or the flag without its equals sign when there is no host. */
  function ListFlag(flag: string, hosts: seq<string>): string
    requires flag != ""
  {
    if hosts == [] then flag[..|flag| - 1] else flag + Join(hosts)
  }

  /** The numbers of workers and PS replicas and the registered service names pods are wired with. */
  datatype Wiring = Wiring(job: string, workers: int, ps: int, names: map<string, string>)

  function ClusterArgs(w: Wiring, typ: ReplicaType, index: nat): seq<string> {
    [ListFlag(WORKER_HOSTS, Hosts(w.names, w.job, Worker, w.workers)),
     ListFlag(PS_HOSTS, Hosts(w.names, w.job, PS, w.ps)),
     "--job_name=" + ToLower(TypeName(typ)),
     "--task_index=" + Decimal(index)]
  }

  // ---- The code: distributed jobs --------------------------------------------

  class DistributedJob {
    const tfJob: TFJob
    const activeWorkerPods: seq<Object>
    const activePSPods: seq<Object>
    const workerServices: seq<Object>
    const psServices: seq<Object>
    const succeededWorkerPods: nat
    var serviceNames: map<string, string>

    constructor (tfJob: TFJob, activeWorkerPods: seq<Object>, activePSPods: seq<Object>,
                 workerServices: seq<Object>, psServices: seq<Object>, succeededWorkerPods: nat)
      ensures this.tfJob == tfJob && serviceNames == map[]
      ensures Counts() == Seen(|activeWorkerPods|, |workerServices|, |activePSPods|, |psServices|, succeededWorkerPods)
    {
      this.tfJob, this.activeWorkerPods, this.activePSPods := tfJob, activeWorkerPods, activePSPods;
      this.workerServices, this.psServices := workerServices, psServices;
      this.succeededWorkerPods, serviceNames := succeededWorkerPods, map[];
    }

    function Counts(): Seen {
      Seen(|activeWorkerPods|, |workerServices|, |activePSPods|, |psServices|, succeededWorkerPods)
    }

    ghost function CurrentWiring(): Wiring
      reads this
    {
      Wiring(tfJob.name, tfJob.worker.replicas, tfJob.ps.replicas, serviceNames)
    }

    method Action(gen: NameGenerator) returns (events: seq<Event>)
      requires tfJob.Distributed()
      modifies tfJob, tfJob.worker.template, tfJob.ps.template, gen
      ensures var workers := tfJob.worker.replicas;
              && events == Events(workers, tfJob.ps.replicas, Counts())
              && tfJob.deleting == old(tfJob.deleting)
              && tfJob.DistributedState() ==
                 (if Composes(workers, Counts())
                  then Composed(tfJob.name, old(tfJob.DistributedState()), GeneratedName("", gen.draws(old(gen.drawn))))
                  else old(tfJob.DistributedState()))
              && gen.drawn == old(gen.drawn) + if Composes(workers, Counts()) then 1 else 0
    {
      events := [];
      var expectedWorker := tfJob.Spec(Worker).replicas - succeededWorkerPods;
      var expectedPS := tfJob.Spec(PS).replicas;
      if |workerServices| == 0 {
        events := events + [Event(ShouldAddWorkerService, expectedWorker - |workerServices|)];
      }
      if |psServices| == 0 {
        events := events + [Event(ShouldAddPSService, expectedPS - |psServices|)];
      }
      if |activeWorkerPods| < expectedWorker {
        Compose(gen);
        events := events + [Event(ShouldAddWorker, expectedWorker - |activeWorkerPods|)];
      } else if |activeWorkerPods| == expectedWorker {
        events := events + [Event(Nothing, 0)];
      }
      if |activePSPods| < expectedPS {
        events := events + [Event(ShouldAddPS, expectedPS - |activePSPods|)];
      }
    }

    method Compose(gen: NameGenerator)
      requires tfJob.Distributed()
      modifies tfJob, tfJob.worker.template, tfJob.ps.template, gen
      ensures tfJob.deleting == old(tfJob.deleting)
      ensures gen.drawn == old(gen.drawn) + 1
      ensures tfJob.DistributedState() ==
              Composed(tfJob.name, old(tfJob.DistributedState()), GeneratedName("", gen.draws(old(gen.drawn))))
    {
      var workerPodSpec, psPodSpec := tfJob.Spec(Worker), tfJob.Spec(PS);
      tfJob.runtimeID := gen.GenerateName("");
      workerPodSpec.template.state := workerPodSpec.template.state.(labels := Some(GetLabels(Worker)));
      psPodSpec.template.state := psPodSpec.template.state.(labels := Some(GetLabels(PS)));
    }

    function GetLabels(typ: ReplicaType): Labels
      reads tfJob
    {
      ReplicaLabels(tfJob.name, tfJob.runtimeID, typ)
    }

    /** Registers a generated name for a service and builds the service. */
    method GetService(typ: ReplicaType, index: nat, gen: NameGenerator) returns (service: Service)
      modifies this, gen
      ensures service == ServiceFor(tfJob.name, tfJob.runtimeID, typ, index, gen.draws(old(gen.drawn)))
      ensures serviceNames == old(serviceNames)[ServiceKey(tfJob.name, typ, index) := service.name]
      ensures gen.drawn == old(gen.drawn) + 1
    {
      var labels := GetLabels(typ);
      labels := labels[Index := Decimal(index)];
      var name := ServiceKey(tfJob.name, typ, index);
      var generateName := gen.GenerateName(name + "-");
      serviceNames := serviceNames[name := generateName];
      service := Service(generateName, labels, labels, WORKER_PORT);
    }

    /** Overwrites the shared template of a type for one replica. Its labels must not be a nil map. */
    method GetSpec(typ: ReplicaType, index: nat) returns (spec: ReplicaSpec)
      requires tfJob.Distributed() && typ != Local
      requires tfJob.Named(typ).template.state.labels.Some?
      modifies tfJob.Named(typ).template
      ensures spec == tfJob.Named(typ)
      ensures spec.template.state == Template(Some(old(spec.template.state.labels.value)[Index := Decimal(index)]),
                                              ClusterArgs(CurrentWiring(), typ, index))
    {
      var template := tfJob.Spec(typ).template;
      template.state := template.state.(labels := Some(template.state.labels.value[Index := Decimal(index)]));
      var args := GenerateTFClusterSpec(typ, index);
      template.state := template.state.(args := args);
      spec := tfJob.Spec(typ);
    }

    method GenerateTFClusterSpec(typ: ReplicaType, index: nat) returns (args: seq<string>)
      requires tfJob.Distributed()
      ensures args == ClusterArgs(CurrentWiring(), typ, index)
    {
      var workerHosts := HostList(Worker);
      var workerHostsStr := HostsFlag(WORKER_HOSTS, workerHosts);
      var psHosts := HostList(PS);
      var psHostsStr := HostsFlag(PS_HOSTS, psHosts);
      var jobName := "--job_name=" + ToLower(TypeName(typ));
      var taskIndex := "--task_index=" + Decimal(index);
      args := [workerHostsStr, psHostsStr, jobName, taskIndex];
    }

    method HostList(typ: ReplicaType) returns (hosts: seq<string>)
      requires tfJob.Distributed() && typ != Local
      ensures hosts == Hosts(serviceNames, tfJob.name, typ, tfJob.Named(typ).replicas)
    {
      var replicas := tfJob.Spec(typ).replicas;
      hosts := [];
      var i := 0;
      while i < replicas
        invariant 0 <= i && (replicas >= 0 ==> i <= replicas) && (replicas < 0 ==> i == 0)
        invariant hosts == Hosts(serviceNames, tfJob.name, typ, i)
      {
        hosts := hosts + [HostFor(serviceNames, tfJob.name, typ, i)];
        i := i + 1;
      }
    }
  }

  /** One host list flag: every host with a trailing comma, and the last character cut off. */
  method HostsFlag(flag: string, hosts: seq<string>) returns (s: string)
    requires flag != ""
    ensures s == ListFlag(flag, hosts)
  {
    s := flag;
    for k := 0 to |hosts|
      invariant s == flag + Terminated(hosts[..k])
    {
      assert hosts[..k + 1][..k] == hosts[..k];
      s := s + hosts[k] + ",";
    }
    assert hosts[..|hosts|] == hosts;
    if hosts != [] {
      TerminatedIsJoin(hosts);
      assert s == (flag + Join(hosts)) + ",";
    }
    s := s[..|s| - 1];
  }

  // ---- The code: local jobs --------------------------------------------------

  /** A local job needs a pod unless one is active or one has succeeded. */
  predicate NeedsLocalPod(active: nat, succeeded: nat) {
    succeeded == 0 && active != 1
  }

  class LocalJob {
    const tfJob: TFJob
    const pod: Option<Object>
    const succeeded: nat

    /** `NewLocalJob`: more than one active pod is treated like none. */
    constructor (tfJob: TFJob, activePods: seq<Object>, succeeded: nat)
      ensures this.tfJob == tfJob && this.succeeded == succeeded
      ensures pod == if |activePods| == 1 then Some(activePods[0]) else None
    {
      this.tfJob, this.succeeded := tfJob, succeeded;
      if |activePods| == 0 {
        pod := None;
      } else if |activePods| == 1 {
        pod := Some(activePods[0]);
      } else {
        pod := None;
      }
    }

    method Action(gen: NameGenerator) returns (event: Event)
      requires |tfJob.specs| > 0
      modifies tfJob, tfJob.specs[0].template, gen
      ensures tfJob.deleting == old(tfJob.deleting)
      ensures tfJob.phase == old(tfJob.phase) && tfJob.statuses == old(tfJob.statuses)
      ensures NeedsLocalPod(if pod.Some? then 1 else 0, succeeded) ==>
                && event == Event(ShouldAddWorker, 1)
                && tfJob.runtimeID == GeneratedName("", gen.draws(old(gen.drawn)))
                && tfJob.specs[0].template.state == old(tfJob.specs[0].template.state).(
                     labels := Some(ReplicaLabels(tfJob.name, tfJob.runtimeID, tfJob.specs[0].typ)))
                && gen.drawn == old(gen.drawn) + 1
      ensures !NeedsLocalPod(if pod.Some? then 1 else 0, succeeded) ==>
                && event == Event(Nothing, 0)
                && tfJob.runtimeID == old(tfJob.runtimeID)
                && tfJob.specs[0].template.state == old(tfJob.specs[0].template.state)
                && gen.drawn == old(gen.drawn)
    {
      if succeeded > 0 {
        return Event(Nothing, 0);
      }
      var active := 0;
      if pod.Some? {
        active := 1;
      }
      if active < EXPECTED_LOCAL_WORKERS {
        tfJob.runtimeID := gen.GenerateName("");
        var template := tfJob.specs[0].template;
        template.state := template.state.(labels := Some(ReplicaLabels(tfJob.name, tfJob.runtimeID, tfJob.specs[0].typ)));
        return Event(ShouldAddWorker, EXPECTED_LOCAL_WORKERS - active);
      }
      return Event(Nothing, 0);
    }
  }
}
