/** The status of a TFJob: phase and per-type histograms, rewritten by every sync. */
module Updater {
  import opened Api

  /** `filterPods`: how many pods are in a phase. */
  method FilterPods(pods: seq<Object>, phase: PodPhase) returns (result: int)
    ensures result == Count(pods, phase)
  {
    result := 0;
    for i := 0 to |pods|
      invariant result == Count(pods[..i], phase)
    {
      assert pods[..i + 1][..i] == pods[..i];
      if phase == pods[i].phase {
        result := result + 1;
      }
    }
    assert pods[..|pods|] == pods;
  }

  /** `getStatus`. */
  method GetStatus(pods: seq<Object>) returns (succeeded: int, failed: int)
    ensures succeeded == Count(pods, Succeeded) && failed == Count(pods, Failed)
  {
    succeeded := FilterPods(pods, Succeeded);
    failed := FilterPods(pods, Failed);
  }

  // ---- Specification ---------------------------------------------------------

  /** The phases that occur, each with its number of pods. */
  function Histogram(pods: seq<Object>): map<PodPhase, int> {
    map phase | phase in {Pending, Running, Succeeded, Failed, Unknown} && Count(pods, phase) > 0 :: Count(pods, phase)
  }

  function At(states: map<PodPhase, int>, phase: PodPhase): int {
    if phase in states then states[phase] else 0
  }

  /** `getReplicaStatusesIndex`, for a list of at most two entries. */
  function StatusIndex(statuses: seq<ReplicaStatus>, typ: ReplicaType): (i: int)
    ensures -1 <= i < |statuses| && (i >= 0 ==> statuses[i].typ == typ)
  {
    if |statuses| == 0 then -1
    else if statuses[0].typ == typ then 0
    else if |statuses| > 1 && statuses[1].typ == typ then 1
    else -1
  }

  /** The status list after one update for a type: nothing happens without pods or with more than two entries. */
  function Upsert(statuses: seq<ReplicaStatus>, pods: seq<Object>, typ: ReplicaType): seq<ReplicaStatus> {
    if pods == [] || |statuses| > 2 then statuses
    else
      var status, i := ReplicaStatus(typ, Histogram(pods)), StatusIndex(statuses, typ);
      if i >= 0 then statuses[i := status] else statuses + [status]
  }

  /** Phase and status list of a distributed job after one update: the old phase does not matter. */
  function Updated(replicas: int, succeeded: int, statuses: seq<ReplicaStatus>, workers: seq<Object>, ps: seq<Object>)
    : (JobPhase, seq<ReplicaStatus>)
  {
    (if succeeded == replicas then JobSucceeded else JobRunning, Upsert(Upsert(statuses, workers, Worker), ps, PS))
  }

  // ---- The code --------------------------------------------------------------

  method UpdateTFReplicaStatuses(tfJob: TFJob, pods: seq<Object>, typ: ReplicaType) returns (updated: bool)
    modifies tfJob`statuses
    ensures tfJob.statuses == Upsert(old(tfJob.statuses), pods, typ)
    ensures updated <==> pods != [] && old(|tfJob.statuses|) <= 2
  {
    if |pods| != 0 {
      if |tfJob.statuses| > 2 {
        return false;
      }
      var index := StatusIndex(tfJob.statuses, typ);
      var states: map<PodPhase, int> := map[];
      for i := 0 to |pods|
        invariant states == Histogram(pods[..i])
        invariant tfJob.statuses == old(tfJob.statuses)
      {
        assert pods[..i + 1] == pods[..i] + [pods[i]];
        HistogramSnoc(pods[..i], pods[i]);
        var phase := pods[i].phase;
        if phase in states {
          states := states[phase := states[phase] + 1];
        } else {
          states := states[phase := 1];
        }
      }
      assert pods[..|pods|] == pods;
      if index != -1 {
        tfJob.statuses := tfJob.statuses[index := ReplicaStatus(typ, states)];
      } else {
        tfJob.statuses := tfJob.statuses + [ReplicaStatus(typ, states)];
      }
      return true;
    }
    return false;
  }

  class DistributedUpdater {
    const tfJob: TFJob
    const succeededWorkerPods: int
    const workerPods: seq<Object>
    const psPods: seq<Object>

    constructor (tfJob: TFJob, succeededWorkerPods: int, workerPods: seq<Object>, psPods: seq<Object>)
      ensures this.tfJob == tfJob && this.succeededWorkerPods == succeededWorkerPods
      ensures this.workerPods == workerPods && this.psPods == psPods
    {
      this.tfJob, this.succeededWorkerPods, this.workerPods, this.psPods := tfJob, succeededWorkerPods, workerPods, psPods;
    }

    method ShouldUpdate() returns (updated: bool)
      requires |tfJob.specs| >= 2 && tfJob.TemplateIndex(Worker) >= 0
      modifies tfJob`phase, tfJob`statuses
      ensures (tfJob.phase, tfJob.statuses) == Updated(tfJob.specs[tfJob.TemplateIndex(Worker)].replicas,
                                                       succeededWorkerPods, old(tfJob.statuses), workerPods, psPods)
      ensures !updated ==> tfJob.phase == old(tfJob.phase) && tfJob.statuses == old(tfJob.statuses)
      ensures old(|tfJob.statuses|) <= 2 ==>
                (updated <==> || succeededWorkerPods == tfJob.specs[tfJob.TemplateIndex(Worker)].replicas
                              || old(tfJob.phase) != JobRunning || workerPods != [] || psPods != [])
    {
      updated := false;
      var expected := tfJob.specs[tfJob.TemplateIndex(Worker)].replicas;
      if succeededWorkerPods == expected {
        tfJob.phase := JobSucceeded;
        updated := true;
      } else if tfJob.phase != JobRunning {
        tfJob.phase := JobRunning;
        updated := true;
      }
      var shouldUpdateWorkerStatus := UpdateTFReplicaStatuses(tfJob, workerPods, Worker);
      var shouldUpdatePSStatus := UpdateTFReplicaStatuses(tfJob, psPods, PS);
      if shouldUpdatePSStatus || shouldUpdateWorkerStatus {
        updated := true;
      }
    }
  }

  class LocalUpdater {
    const tfJob: TFJob
    const succeededWorkerPods: int
    const workerPod: Option<Object>

    constructor (tfJob: TFJob, succeededWorkerPods: int, workerPod: Option<Object>)
      ensures this.tfJob == tfJob && this.succeededWorkerPods == succeededWorkerPods && this.workerPod == workerPod
    {
      this.tfJob, this.succeededWorkerPods, this.workerPod := tfJob, succeededWorkerPods, workerPod;
    }

    method ShouldUpdate() returns (updated: bool)
      modifies tfJob`phase, tfJob`statuses
      ensures tfJob.phase == if succeededWorkerPods == 1 then JobSucceeded else JobRunning
      ensures tfJob.statuses ==
              if workerPod.Some? then [ReplicaStatus(Local, Histogram([workerPod.value]))] else old(tfJob.statuses)
      ensures !updated ==> tfJob.phase == old(tfJob.phase) && tfJob.statuses == old(tfJob.statuses)
      ensures updated <==> succeededWorkerPods == 1 || old(tfJob.phase) != JobRunning || workerPod.Some?
    {
      updated := false;
      if succeededWorkerPods == 1 {
        tfJob.phase := JobSucceeded;
        updated := true;
      } else if tfJob.phase != JobRunning {
        tfJob.phase := JobRunning;
        updated := true;
      }
      if workerPod.Some? {
        var states := map[workerPod.value.phase := 1];
        HistogramSnoc([], workerPod.value);
        assert [] + [workerPod.value] == [workerPod.value];
        tfJob.statuses := [ReplicaStatus(Local, states)];
        updated := true;
      }
    }
  }

  /** `NewLocal`: no updater for more than one pod. */
  method NewLocal(tfJob: TFJob, succeededWorkerPods: int, workerPods: seq<Object>) returns (updater: Option<LocalUpdater>)
    ensures updater.None? <==> |workerPods| > 1
    ensures updater.Some? ==>
              && fresh(updater.value)
              && updater.value.tfJob == tfJob && updater.value.succeededWorkerPods == succeededWorkerPods
              && updater.value.workerPod == if |workerPods| == 1 then Some(workerPods[0]) else None
  {
    var workerPod := None;
    if |workerPods| == 1 {
      workerPod := Some(workerPods[0]);
    } else if |workerPods| > 1 {
      return None;
    }
    var u := new LocalUpdater(tfJob, succeededWorkerPods, workerPod);
    return Some(u);
  }

  /** Counting one more pod raises one entry. */
  lemma HistogramSnoc(pods: seq<Object>, pod: Object)
    ensures Histogram(pods + [pod]) == Histogram(pods)[pod.phase := At(Histogram(pods), pod.phase) + 1]
  {
    assert (pods + [pod])[..|pods|] == pods;
    match pod.phase
    case Pending =>
    case Running =>
    case Succeeded =>
    case Failed =>
    case Unknown =>
  }

  // ---- Properties ------------------------------------------------------------

  /** Every pod is counted once, whatever its phase. */
  lemma {:induction false} HistogramTotal(pods: seq<Object>)
    ensures var h := Histogram(pods);
            && (forall phase :: At(h, phase) == Count(pods, phase))
            && (forall phase :: phase in h ==> h[phase] > 0)
            && At(h, Pending) + At(h, Running) + At(h, Succeeded) + At(h, Failed) + At(h, Unknown) == |pods|
  {
    if pods != [] {
      HistogramTotal(pods[..|pods| - 1]);
    }
  }

  /** One `ShouldUpdate` call of a distributed job. */
  datatype Call = Call(workers: seq<Object>, ps: seq<Object>)

  /** Phase and status list after a sequence of calls on an empty status, for a job with `replicas` workers. */
  function Status(replicas: int, calls: seq<Call>): (JobPhase, seq<ReplicaStatus>) {
    if calls == [] then (NoPhase, [])
    else
      var before, c := Status(replicas, calls[..|calls| - 1]).1, calls[|calls| - 1];
      Updated(replicas, Count(c.workers, Succeeded), before, c.workers, c.ps)
  }

  /** The last non-empty list of pods of a type that was reported. */
  function Latest(calls: seq<Call>, typ: ReplicaType): seq<Object> {
    if calls == [] then []
    else
      var c := calls[|calls| - 1];
      var pods := if typ == Worker then c.workers else if typ == PS then c.ps else [];
      if pods != [] then pods else Latest(calls[..|calls| - 1], typ)
  }

  /** At most one entry per type, and never one for the local type. */
  ghost predicate Tidy(statuses: seq<ReplicaStatus>) {
    && |statuses| <= 2
    && (forall i | 0 <= i < |statuses| :: statuses[i].typ != Local)
    && forall i, j | 0 <= i < j < |statuses| :: statuses[i].typ != statuses[j].typ
  }

  lemma UpsertTidy(statuses: seq<ReplicaStatus>, pods: seq<Object>, typ: ReplicaType)
    requires Tidy(statuses) && typ != Local
    ensures var after := Upsert(statuses, pods, typ);
            && Tidy(after)
            && (forall s: ReplicaStatus | s.typ != typ :: s in after <==> s in statuses)
            && (forall s: ReplicaStatus | s.typ == typ ::
                  s in after <==> if pods == [] then s in statuses else s.states == Histogram(pods))
  {
    var after := Upsert(statuses, pods, typ);
    if pods != [] {
      var i := StatusIndex(statuses, typ);
      var k := if i >= 0 then i else |statuses|;
      assert after[k] == ReplicaStatus(typ, Histogram(pods));
      forall s: ReplicaStatus | s.typ != typ && s in statuses ensures s in after {
        var j :| 0 <= j < |statuses| && statuses[j] == s;
        assert after[j] == s;
      }
    }
  }

  /** Over any sequence of calls: the list stays within two entries, so the conflict branch is never taken;
      an entry is the exact histogram of the pods last reported for its type; and the phase follows the workers. */
  lemma {:induction false} StatusIsLatest(replicas: int, calls: seq<Call>)
    ensures var (phase, statuses) := Status(replicas, calls);
            && Tidy(statuses)
            && (forall s: ReplicaStatus :: s in statuses <==>
                  s.typ != Local && Latest(calls, s.typ) != [] && s.states == Histogram(Latest(calls, s.typ)))
            && (calls != [] ==>
                  (phase == JobSucceeded <==> Count(calls[|calls| - 1].workers, Succeeded) == replicas))
  {
    if calls != [] {
      var front, c := calls[..|calls| - 1], calls[|calls| - 1];
      StatusIsLatest(replicas, front);
      var before := Status(replicas, front).1;
      UpsertTidy(before, c.workers, Worker);
      UpsertTidy(Upsert(before, c.workers, Worker), c.ps, PS);
    }
  }

  /** With workers present, the job is Succeeded exactly when the worker entry counts `replicas` succeeded ones. */
  lemma SucceededMatchesEntry(replicas: int, calls: seq<Call>, s: ReplicaStatus)
    requires calls != [] && calls[|calls| - 1].workers != []
    requires s in Status(replicas, calls).1 && s.typ == Worker
    ensures Status(replicas, calls).0 == JobSucceeded <==> At(s.states, Succeeded) == replicas
  {
    StatusIsLatest(replicas, calls);
    HistogramTotal(calls[|calls| - 1].workers);
  }
}
