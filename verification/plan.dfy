/** What one sync of a distributed job creates, as a function of what it saw. */
module Plan {
  import opened Text
  import opened Api
  import opened TensorFlow

  /** A pod as it is handed to the API server: a copy of the template's labels and arguments. */
  datatype PodSpec = PodSpec(labels: Labels, args: seq<string>, owner: OwnerRef)

  function LabelsOf(t: Template): Labels {
    if t.labels.Some? then t.labels.value else map[]
  }

  function Snapshot(t: Template, owner: OwnerRef): PodSpec {
    PodSpec(LabelsOf(t), t.args, owner)
  }

  /** What is fixed while the events of one sync are carried out: the job, the runtime id the services and pods
      are labelled with, the random suffixes, and which create calls succeed (by their number). */
  datatype Env = Env(job: string, owner: OwnerRef, rid: string, workers: int, ps: int,
                     draws: nat -> string, serviceOk: nat -> bool, podOk: nat -> bool)

  /** What changes: registered service names, suffixes drawn, services and pods passed to the API server, pods it
      accepted, the two shared templates, the expectation counter, and whether a pod creation has failed. */
  datatype Progress = Progress(
    names: map<string, string>, drawn: nat, services: seq<Service>,
    attempted: seq<PodSpec>, created: seq<PodSpec>,
    worker: Template, ps: Template, counter: Option<int>, failed: bool)

  function Nat(n: int): nat {
    if n > 0 then n else 0
  }

  // ---- Services --------------------------------------------------------------

  function ServicePlan(e: Env, typ: ReplicaType, n: nat, drawn: nat): (r: seq<Service>)
    ensures |r| == n && forall i | 0 <= i < n :: r[i] == ServiceFor(e.job, e.rid, typ, i, e.draws(drawn + i))
  {
    seq(n, i requires i >= 0 => ServiceFor(e.job, e.rid, typ, i, e.draws(drawn + i)))
  }

  /** The registered names after the first `n` services of a type. */
  function Registered(names: map<string, string>, e: Env, typ: ReplicaType, n: nat, drawn: nat): map<string, string> {
    if n == 0 then names
    else Registered(names, e, typ, n - 1, drawn)
         [ServiceKey(e.job, typ, n - 1) := ServiceFor(e.job, e.rid, typ, n - 1, e.draws(drawn + n - 1)).name]
  }

  /** How many of `n` calls fail, counted from the `from`-th call. */
  function Failures(ok: nat -> bool, from: nat, n: nat): nat {
    if n == 0 then 0 else Failures(ok, from, n - 1) + if ok(from + n - 1) then 0 else 1
  }

  /** After `n` services of an event that asked for `number`. */
  function ServicesUpTo(e: Env, p: Progress, typ: ReplicaType, number: int, n: nat): Progress {
    p.(names := Registered(p.names, e, typ, n, p.drawn),
       drawn := p.drawn + n,
       services := p.services + ServicePlan(e, typ, n, p.drawn),
       counter := Some(number - Failures(e.serviceOk, |p.services|, n)))
  }

  function AddServices(e: Env, p: Progress, typ: ReplicaType, number: int): Progress {
    ServicesUpTo(e, p, typ, number, Nat(number))
  }

  /** One pass through the loop of a service event. */
  function OneService(e: Env, p: Progress, typ: ReplicaType, index: nat): Progress {
    var service := ServiceFor(e.job, e.rid, typ, index, e.draws(p.drawn));
    p.(names := p.names[ServiceKey(e.job, typ, index) := service.name],
       drawn := p.drawn + 1,
       services := p.services + [service],
       counter := if e.serviceOk(|p.services|) then p.counter else Observed(p.counter))
  }

  /** The counter after one observed creation. */
  function Observed(counter: Option<int>): Option<int> {
    if counter.Some? then Some(counter.value - 1) else None
  }

  lemma OneMoreService(e: Env, p: Progress, typ: ReplicaType, number: int, i: nat)
    ensures OneService(e, ServicesUpTo(e, p, typ, number, i), typ, i) == ServicesUpTo(e, p, typ, number, i + 1)
  {
    hide ServiceKey, ServiceFor;
    assert ServicePlan(e, typ, i + 1, p.drawn)
        == ServicePlan(e, typ, i, p.drawn) + [ServiceFor(e.job, e.rid, typ, i, e.draws(p.drawn + i))];
  }

  // ---- Pods ------------------------------------------------------------------

  function WiringOf(e: Env, names: map<string, string>): Wiring {
    Wiring(e.job, e.workers, e.ps, names)
  }

  function PodPlan(e: Env, labels: Labels, names: map<string, string>, typ: ReplicaType, n: nat): (r: seq<PodSpec>)
    ensures |r| == n
    ensures forall i | 0 <= i < n ::
              r[i] == PodSpec(labels[Index := Decimal(i)], ClusterArgs(WiringOf(e, names), typ, i), e.owner)
  {
    seq(n, i requires i >= 0 => PodSpec(labels[Index := Decimal(i)], ClusterArgs(WiringOf(e, names), typ, i), e.owner))
  }

  /** How many of `n` calls succeed before the first failure, counted from the `from`-th call. */
  function Successes(ok: nat -> bool, from: nat, n: nat): (k: nat)
    ensures k <= n
    ensures forall j | from <= j < from + k :: ok(j)
    ensures k < n ==> !ok(from + k)
    decreases n
  {
    if n == 0 || !ok(from) then 0 else 1 + Successes(ok, from + 1, n - 1)
  }

  function TemplateOf(p: Progress, typ: ReplicaType): Template {
    if typ == Worker then p.worker else p.ps
  }

  function WithTemplate(p: Progress, typ: ReplicaType, t: Template): Progress {
    if typ == Worker then p.(worker := t) else p.(ps := t)
  }

  /** After `tried` pods were handed over and `done` of them accepted, for an event that asked for `number`. */
  function PodsUpTo(e: Env, p: Progress, typ: ReplicaType, number: int, done: nat, tried: nat): Progress
    requires done <= tried <= Nat(number)
  {
    var plan := PodPlan(e, LabelsOf(TemplateOf(p, typ)), p.names, typ, Nat(number));
    var q := if tried == 0 then p else WithTemplate(p, typ, Template(Some(plan[tried - 1].labels), plan[tried - 1].args));
    q.(attempted := p.attempted + plan[..tried],
       created := p.created + plan[..done],
       counter := Some(number - (tried - done)),
       failed := done < tried)
  }

  /** Creating `number` pods of a type, stopping at the first failure. */
  function AddPods(e: Env, p: Progress, typ: ReplicaType, number: int): Progress {
    var k := Successes(e.podOk, |p.attempted|, Nat(number));
    PodsUpTo(e, p, typ, number, k, if k < Nat(number) then k + 1 else k)
  }

  /** One pass through the loop of a pod event: overwrite the shared template, hand over a copy. */
  function OnePod(e: Env, p: Progress, typ: ReplicaType, index: nat): Progress {
    var pod := PodSpec(LabelsOf(TemplateOf(p, typ))[Index := Decimal(index)],
                       ClusterArgs(WiringOf(e, p.names), typ, index), e.owner);
    var ok := e.podOk(|p.attempted|);
    WithTemplate(p, typ, Template(Some(pod.labels), pod.args)).(
      attempted := p.attempted + [pod],
      created := if ok then p.created + [pod] else p.created,
      counter := if ok then p.counter else Observed(p.counter),
      failed := !ok)
  }

  lemma IndexOverwritten(labels: Labels, a: string, b: string)
    ensures labels[Index := a][Index := b] == labels[Index := b]
  {
  }

  lemma LabelsSoFar(e: Env, p: Progress, typ: ReplicaType, number: int, i: nat)
    requires i < number
    ensures var labels := LabelsOf(TemplateOf(p, typ));
            LabelsOf(TemplateOf(PodsUpTo(e, p, typ, number, i, i), typ))
            == if i == 0 then labels else labels[Index := Decimal(i - 1)]
  {
    hide ClusterArgs, Decimal;
  }

  /** The index label of the previous replica does not survive in the next pod. */
  lemma NextPod(e: Env, p: Progress, typ: ReplicaType, number: int, i: nat)
    requires i < number
    ensures var labels, q := LabelsOf(TemplateOf(p, typ)), PodsUpTo(e, p, typ, number, i, i);
            LabelsOf(TemplateOf(q, typ))[Index := Decimal(i)] == labels[Index := Decimal(i)]
  {
    hide PodsUpTo, LabelsOf, TemplateOf, Decimal;
    LabelsSoFar(e, p, typ, number, i);
    if i > 0 {
      IndexOverwritten(LabelsOf(TemplateOf(p, typ)), Decimal(i - 1), Decimal(i));
    }
  }

  lemma NoPodYet(e: Env, p: Progress, typ: ReplicaType, number: int)
    ensures PodsUpTo(e, p, typ, number, 0, 0) == p.(counter := Some(number), failed := false)
  {
  }

  lemma OneMorePod(e: Env, p: Progress, typ: ReplicaType, number: int, i: nat)
    requires i < number
    ensures OnePod(e, PodsUpTo(e, p, typ, number, i, i), typ, i)
         == PodsUpTo(e, p, typ, number, if e.podOk(|p.attempted| + i) then i + 1 else i, i + 1)
    ensures OnePod(e, PodsUpTo(e, p, typ, number, i, i), typ, i).failed == !e.podOk(|p.attempted| + i)
    ensures TemplateOf(PodsUpTo(e, p, typ, number, i + 1, i + 1), typ).labels.Some?
  {
    hide ClusterArgs, Decimal;
    NextPod(e, p, typ, number, i);
    var plan := PodPlan(e, LabelsOf(TemplateOf(p, typ)), p.names, typ, number);
    assert plan[..i + 1] == plan[..i] + [plan[i]];
    match typ
    case Worker =>
    case PS =>
    case Local =>
  }

  /** `Successes` is determined by its contract. */
  lemma SuccessesIs(ok: nat -> bool, from: nat, n: nat, k: nat)
    requires k <= n && forall j | from <= j < from + k :: ok(j)
    requires k < n ==> !ok(from + k)
    ensures Successes(ok, from, n) == k
  {
  }

  lemma StoppedAt(e: Env, p: Progress, typ: ReplicaType, number: int, i: nat)
    requires i < number && (forall j | |p.attempted| <= j < |p.attempted| + i :: e.podOk(j)) && !e.podOk(|p.attempted| + i)
    ensures AddPods(e, p, typ, number) == PodsUpTo(e, p, typ, number, i, i + 1)
  {
    hide PodsUpTo;
    SuccessesIs(e.podOk, |p.attempted|, Nat(number), i);
  }

  lemma AllSucceed(e: Env, p: Progress, typ: ReplicaType, number: int)
    requires forall j | |p.attempted| <= j < |p.attempted| + Nat(number) :: e.podOk(j)
    ensures AddPods(e, p, typ, number) == PodsUpTo(e, p, typ, number, Nat(number), Nat(number))
  {
    hide PodsUpTo;
    SuccessesIs(e.podOk, |p.attempted|, Nat(number), Nat(number));
  }

  // ---- Events ----------------------------------------------------------------

  function Exec(e: Env, p: Progress, event: Event): Progress {
    if p.failed then p
    else
      match event.action
      case ShouldAddWorkerService => AddServices(e, p, Worker, event.number)
      case ShouldAddPSService => AddServices(e, p, PS, event.number)
      case ShouldAddWorker => AddPods(e, p, Worker, event.number)
      case ShouldAddPS => AddPods(e, p, PS, event.number)
      case Nothing => p
  }

  function ExecAll(e: Env, p: Progress, events: seq<Event>): Progress {
    if events == [] then p else Exec(e, ExecAll(e, p, events[..|events| - 1]), events[|events| - 1])
  }

  lemma {:induction false} ExecAppend(e: Env, p: Progress, a: seq<Event>, b: seq<Event>)
    ensures ExecAll(e, p, a + b) == ExecAll(e, ExecAll(e, p, a), b)
  {
    if b == [] {
      assert a + b == a;
    } else {
      assert (a + b)[..|a + b| - 1] == a + b[..|b| - 1];
      ExecAppend(e, p, a, b[..|b| - 1]);
    }
  }

  lemma ExecOptional(e: Env, p: Progress, present: bool, event: Event)
    ensures ExecAll(e, p, if present then [event] else []) == if present then Exec(e, p, event) else p
  {
    assert [event][..0] == [];
  }

  /** The services a sync registers, then the pods it creates: the order of the events does not interleave them. */
  function Services(e: Env, p: Progress, seen: Seen): Progress {
    var p1 := if seen.workerServices == 0 then AddServices(e, p, Worker, e.workers - seen.succeeded) else p;
    if seen.psServices == 0 then AddServices(e, p1, PS, e.ps) else p1
  }

  function Pods(e: Env, p: Progress, seen: Seen): Progress {
    var p1 := if Composes(e.workers, seen) then AddPods(e, p, Worker, e.workers - seen.succeeded - seen.workers) else p;
    if seen.ps < e.ps && !p1.failed then AddPods(e, p1, PS, e.ps - seen.ps) else p1
  }

  lemma ExecInTurn(e: Env, p: Progress, a: seq<Event>, b: seq<Event>, c: seq<Event>, d: seq<Event>)
    ensures ExecAll(e, p, a + b + c + d) == ExecAll(e, ExecAll(e, ExecAll(e, ExecAll(e, p, a), b), c), d)
  {
    ExecAppend(e, p, a + b + c, d);
    ExecAppend(e, p, a + b, c);
    ExecAppend(e, p, a, b);
  }

  lemma ServiceEvents(e: Env, p: Progress, seen: Seen)
    requires !p.failed
    ensures ExecAll(e, ExecAll(e, p, AddWorkerServiceEvents(e.workers, seen)), AddPSServiceEvents(e.ps, seen))
         == Services(e, p, seen)
    ensures !Services(e, p, seen).failed
  {
    ExecOptional(e, p, seen.workerServices == 0, Event(ShouldAddWorkerService, e.workers - seen.succeeded));
    var p1 := ExecAll(e, p, AddWorkerServiceEvents(e.workers, seen));
    ExecOptional(e, p1, seen.psServices == 0, Event(ShouldAddPSService, e.ps));
  }

  lemma PodEvents(e: Env, p: Progress, seen: Seen)
    requires !p.failed
    ensures ExecAll(e, ExecAll(e, p, AddWorkerEvents(e.workers, seen)), AddPSEvents(e.ps, seen)) == Pods(e, p, seen)
  {
    hide AddPods, AddServices;
    if Composes(e.workers, seen) {
      ExecOptional(e, p, true, Event(ShouldAddWorker, e.workers - seen.succeeded - seen.workers));
    } else {
      ExecOptional(e, p, seen.workers == e.workers - seen.succeeded, Event(Nothing, 0));
    }
    var p1 := ExecAll(e, p, AddWorkerEvents(e.workers, seen));
    ExecOptional(e, p1, seen.ps < e.ps, Event(ShouldAddPS, e.ps - seen.ps));
  }

  /** Carrying out the planned events is: all services, then workers, then PS pods. */
  lemma EventsInOrder(e: Env, p: Progress, seen: Seen)
    requires !p.failed
    ensures ExecAll(e, p, Events(e.workers, e.ps, seen)) == Pods(e, Services(e, p, seen), seen)
  {
    ExecInTurn(e, p, AddWorkerServiceEvents(e.workers, seen), AddPSServiceEvents(e.ps, seen),
               AddWorkerEvents(e.workers, seen), AddPSEvents(e.ps, seen));
    ServiceEvents(e, p, seen);
    PodEvents(e, Services(e, p, seen), seen);
  }

  /** A template with labels keeps having labels. */
  lemma ExecKeepsLabels(e: Env, p: Progress, event: Event)
    ensures p.worker.labels.Some? ==> Exec(e, p, event).worker.labels.Some?
    ensures p.ps.labels.Some? ==> Exec(e, p, event).ps.labels.Some?
  {
  }

  /** Nothing happens after a failed event. */
  lemma {:induction false} FailureSticks(e: Env, p: Progress, events: seq<Event>, k: nat)
    requires k <= |events| && ExecAll(e, p, events[..k]).failed
    ensures ExecAll(e, p, events) == ExecAll(e, p, events[..k])
    decreases |events| - k
  {
    if k < |events| {
      assert events[..k + 1][..k] == events[..k];
      FailureSticks(e, p, events, k + 1);
    } else {
      assert events[..k] == events;
    }
  }
}
