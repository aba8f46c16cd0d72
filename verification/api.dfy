/** The Kubernetes and TFJob API objects the controller reads and writes. */
module Api {

  datatype Option<+T> = None | Some(value: T)

  /** Object identities assigned by the API server. */
  type Uid = nat

  datatype ReplicaType = PS | Worker | Local

  function TypeName(t: ReplicaType): string {
    match t
    case PS => "PS"
    case Worker => "Worker"
    case Local => "Local"
  }

  lemma TypeNamesDiffer(a: ReplicaType, b: ReplicaType)
    requires TypeName(a) == TypeName(b)
    ensures a == b
  {
  }

  datatype PodPhase = Pending | Running | Succeeded | Failed | Unknown

  // ---- Labels and selectors --------------------------------------------------

  /** The label keys the controller writes; any other key is `Custom`. */
  datatype LabelKey = KubeFlow | JobType | RuntimeId | TFJobName | Index | Custom(key: string)

  type Labels = map<LabelKey, string>

  /** `labels.Selector.Matches` for a conjunction of equalities. */
  predicate Matches(selector: Labels, labels: Labels) {
    forall k | k in selector :: k in labels && labels[k] == selector[k]
  }

  /** The labels of one replica type of one job under one runtime id. */
  function ReplicaLabels(name: string, rid: string, typ: ReplicaType): Labels {
    map[KubeFlow := "true", JobType := TypeName(typ), RuntimeId := rid, TFJobName := name]
  }

  // ---- Owned objects ---------------------------------------------------------

  datatype OwnerRef = OwnerRef(kind: string, name: string, uid: Uid, controller: bool)

  /** A pod or a service as a cache or the server holds it; only pods have a meaningful `phase`. */
  datatype Object = Object(name: string, uid: Uid, labels: Labels, owners: seq<OwnerRef>, deleting: bool, phase: PodPhase)

  /** `metav1.GetControllerOf`: the first owner marked as controller. */
  function ControllerOf(owners: seq<OwnerRef>): (r: Option<OwnerRef>)
    ensures r.Some? ==> r.value in owners && r.value.controller
    ensures r.None? <==> forall o | o in owners :: !o.controller
  {
    if owners == [] then None
    else if owners[0].controller then Some(owners[0])
    else ControllerOf(owners[1..])
  }

  /** Of several controllers it is the first. */
  lemma {:induction false} ControllerIsFirst(owners: seq<OwnerRef>, k: nat)
    requires k < |owners| && owners[k].controller && forall j | 0 <= j < k :: !owners[j].controller
    ensures ControllerOf(owners) == Some(owners[k])
  {
    if k > 0 {
      ControllerIsFirst(owners[1..], k - 1);
    }
  }

  const TFJOB_KIND := "TFJob"

  /** `newControllerRef`. */
  function ControllerRefFor(name: string, uid: Uid): OwnerRef {
    OwnerRef(TFJOB_KIND, name, uid, true)
  }

  /** `controller.IsPodActive`. */
  predicate Active(pod: Object) {
    pod.phase != Succeeded && pod.phase != Failed && !pod.deleting
  }

  /** `controller.FilterActivePods`. */
  function FilterActive(pods: seq<Object>): (r: seq<Object>)
    ensures |r| <= |pods|
  {
    if pods == [] then []
    else
      var front := FilterActive(pods[..|pods| - 1]);
      if Active(pods[|pods| - 1]) then front + [pods[|pods| - 1]] else front
  }

  /** How many pods are in a phase. */
  function Count(pods: seq<Object>, phase: PodPhase): (n: nat)
    ensures n <= |pods|
  {
    if pods == [] then 0
    else Count(pods[..|pods| - 1], phase) + if pods[|pods| - 1].phase == phase then 1 else 0
  }

  /** No pod is both active and succeeded. */
  lemma {:induction false} ActivePlusSucceeded(pods: seq<Object>)
    ensures |FilterActive(pods)| + Count(pods, Succeeded) <= |pods|
    ensures (forall p | p in pods :: Active(p) || p.phase == Succeeded)
        ==> |FilterActive(pods)| + Count(pods, Succeeded) == |pods|
  {
    if pods != [] {
      ActivePlusSucceeded(pods[..|pods| - 1]);
    }
  }

  /** The pods that have not ended and are not being deleted, and those in a phase. */
  function ActiveAt(pods: seq<Object>): set<nat> {
    set k | 0 <= k < |pods| && pods[k].phase in {Pending, Running, Unknown} && !pods[k].deleting
  }

  function InPhase(pods: seq<Object>, phase: PodPhase): set<nat> {
    set k | 0 <= k < |pods| && pods[k].phase == phase
  }

  lemma {:induction false} CountsInPhase(pods: seq<Object>, phase: PodPhase)
    ensures Count(pods, phase) == |InPhase(pods, phase)|
  {
    if pods == [] {
      assert InPhase(pods, phase) == {};
    } else {
      var k := |pods| - 1;
      CountsInPhase(pods[..k], phase);
      InPhaseSnoc(pods, phase);
      hide InPhase;
    }
  }

  lemma InPhaseSnoc(pods: seq<Object>, phase: PodPhase)
    requires pods != []
    ensures var k := |pods| - 1;
            && k !in InPhase(pods[..k], phase)
            && InPhase(pods, phase) == InPhase(pods[..k], phase) + if pods[k].phase == phase then {k} else {}
  {
  }

  lemma {:induction false} CountsActive(pods: seq<Object>)
    ensures |FilterActive(pods)| == |ActiveAt(pods)|
  {
    if pods == [] {
      assert ActiveAt(pods) == {};
    } else {
      var k := |pods| - 1;
      CountsActive(pods[..k]);
      ActiveAtSnoc(pods);
      hide ActiveAt;
    }
  }

  lemma ActiveAtSnoc(pods: seq<Object>)
    requires pods != []
    ensures var k := |pods| - 1;
            && k !in ActiveAt(pods[..k])
            && ActiveAt(pods) == ActiveAt(pods[..k]) + if Active(pods[k]) then {k} else {}
  {
  }

  // ---- Jobs ------------------------------------------------------------------

  datatype JobPhase = NoPhase | JobUnknown | JobPending | JobRunning | JobSucceeded | JobFailed

  /** How many replicas of one type are in each phase; phases nobody is in have no entry. */
  datatype ReplicaStatus = ReplicaStatus(typ: ReplicaType, states: map<PodPhase, int>)

  /** The part of a pod template the controller writes: its labels (nil until composed or given) and the
      arguments of the first container. */
  datatype Template = Template(labels: Option<Labels>, args: seq<string>)

  class PodTemplate {
    var state: Template

    constructor (state: Template)
      ensures this.state == state
    {
      this.state := state;
    }
  }

  datatype ReplicaSpec = ReplicaSpec(replicas: int, typ: ReplicaType, template: PodTemplate)

  class TFJob {
    const name: string
    const uid: Uid
    const specs: seq<ReplicaSpec>
    var deleting: bool
    var runtimeID: string
    var phase: JobPhase
    var statuses: seq<ReplicaStatus>

    // Names for the two specs of a distributed job; `Distributed` ties them to `specs`.
    ghost const worker: ReplicaSpec
    ghost const ps: ReplicaSpec

    constructor (name: string, uid: Uid, specs: seq<ReplicaSpec>, runtimeID: string)
      requires |specs| > 0
      ensures this.name == name && this.uid == uid && this.specs == specs && this.runtimeID == runtimeID
      ensures !deleting && phase == NoPhase && statuses == []
      ensures (|specs| >= 2 && TemplateIndex(Worker) >= 0 && TemplateIndex(PS) >= 0
               && specs[0].template != specs[1].template) ==> Distributed()
    {
      this.name, this.uid, this.specs, this.runtimeID := name, uid, specs, runtimeID;
      deleting, phase, statuses := false, NoPhase, [];
      var ordered := |specs| >= 2 && specs[0].typ != Worker;
      this.worker := if ordered then specs[1] else specs[0];
      this.ps := if |specs| >= 2 && specs[0].typ != PS then specs[1] else specs[0];
    }

    /** `getTemplateIndex`: where the spec of a type is, or -1. */
    function TemplateIndex(typ: ReplicaType): (i: int)
      requires |specs| >= 2
      ensures i >= 0 ==> i < |specs| && specs[i].typ == typ
    {
      if specs[0].typ == typ then 0 else if specs[1].typ == typ then 1 else -1
    }

    /** One worker spec and one PS spec, with templates of their own. */
    ghost predicate Distributed() {
      && |specs| >= 2 && TemplateIndex(Worker) >= 0 && TemplateIndex(PS) >= 0
      && specs[TemplateIndex(Worker)] == worker && specs[TemplateIndex(PS)] == ps
      && worker.template != ps.template
    }

    function Spec(typ: ReplicaType): (spec: ReplicaSpec)
      requires Distributed() && typ != Local
      ensures spec == Named(typ)
    {
      specs[TemplateIndex(typ)]
    }

    ghost function Named(typ: ReplicaType): ReplicaSpec {
      if typ == Worker then worker else ps
    }

    ghost function DistributedState(): JobState
      reads this, worker.template, ps.template
    {
      JobState(runtimeID, worker.template.state, ps.template.state, phase, statuses)
    }
  }

  /** What a sync may change of a cached distributed TFJob. */
  datatype JobState = JobState(rid: string, worker: Template, ps: Template, phase: JobPhase, statuses: seq<ReplicaStatus>)
}
