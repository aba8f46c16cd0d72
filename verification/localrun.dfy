/** Runs of the controller on one local job, with a sync split at its real interleaving points: reading the
    expectation, listing, patching owners one by one, deciding, setting the expectation, creating. Between any two of
    these, pods make progress, are patched, removed and delivered, and the cached job may fall back to an older version. */
module LocalRun {
  import opened Api
  import opened Ref
  import opened RefProperties
  import opened ClaimPasses
  import opened TensorFlow
  import opened Plan
  import opened Controller

  datatype Job = Job(name: string, uid: Uid)

  /** A pod the controller created: all versions the server stored, how many of them the pod cache has received, the
      version it received first, whether the add handler has run, and whether it left the server and the cache. */
  datatype Pod = Pod(rid: string, versions: seq<Object>, seen: nat, first: nat, observed: bool, gone: bool, dropped: bool)

  /** Where the one sync of this job is. */
  datatype Place =
    | Idle
    | Checked(needs: bool)
    | Listed(needs: bool, deleting: bool, rid: string, listing: seq<Object>)
    | Decided(needs: bool, deleting: bool, claims: seq<Object>)
    | Creating(newRid: string)

  /** The cached runtime id, the expectation counter, the ids composed so far, the pods (pod i has uid i). */
  datatype State = State(rid: string, counter: Option<int>, ids: set<string>, pods: seq<Pod>, place: Place)

  datatype Step =
    | ReadExpectation
    | List(deleting: bool, listing: seq<Object>)
    | PatchOwner(k: nat)
    | Decide(replies: seq<Option<Error>>)
    | Compose(newId: string)
    | CreatePod(ok: bool)
    | Advance(i: nat, phase: PodPhase, deleting: bool)
    | Deliver(i: nat, version: nat)
    | Observe(i: nat)
    | ObserveOther(pod: Object)
    | Vanish(i: nat)
    | Drop(i: nat)
    | Rollback(rid: string)

  function Owner(j: Job): OwnerRef {
    ControllerRefFor(j.name, j.uid)
  }

  /** `addPod` counts a creation if the pod's controller resolves to the job. */
  predicate CountedFor(j: Job, pod: Object) {
    CountsFor(j.name, j.uid, pod.owners)
  }

  function NewPod(j: Job, rid: string, i: nat): Pod {
    Pod(rid, [Object("", i, ReplicaLabels(j.name, rid, Local), [Owner(j)], false, Pending)], 0, 0, false, false, false)
  }

  function Last(p: Pod): Object
    requires p.versions != []
  {
    p.versions[|p.versions| - 1]
  }

  /** Terminal phases and deletion marks are final. */
  predicate Leads(a: Object, b: Object) {
    ((a.phase == Succeeded || a.phase == Failed) ==> b.phase == a.phase) && (a.deleting ==> b.deleting)
  }

  predicate Cached(p: Pod) {
    0 < p.seen <= |p.versions| && !p.dropped
  }

  /** A listing holds every cached pod in its cached version, once, and no other pod labelled for the job. */
  ghost predicate IsListing(j: Job, pods: seq<Pod>, listing: seq<Object>) {
    && DistinctUids(listing)
    && (forall o | o in listing && (LabelledFor(j.name, o.labels) || o.uid < |pods|) ::
          o.uid < |pods| && Cached(pods[o.uid]) && o == pods[o.uid].versions[pods[o.uid].seen - 1])
    && forall i | 0 <= i < |pods| && Cached(pods[i]) :: Lists(listing, i)
  }

  ghost predicate Lists(listing: seq<Object>, i: nat) {
    exists o :: o in listing && o.uid == i
  }

  function ManagerIn(j: Job, place: Place): Manager
    requires place.Listed?
  {
    LocalManager(j.name, j.uid, place.rid, place.deleting)
  }

  function Patched(j: Job, a: Action, o: Object): Object {
    match a
    case Adopt => if OneController(MergeOwner(o.owners, Owner(j))) then o.(owners := MergeOwner(o.owners, Owner(j))) else o
    case Release => o.(owners := Without(o.owners, j.uid))
    case _ => o
  }

  /** The premises of each step. A create error means no pod; fresh ids were never composed before. */
  ghost predicate Enabled(j: Job, s: State, step: Step) {
    match step
    case ReadExpectation => s.place.Idle?
    case List(_, listing) => s.place.Checked? && IsListing(j, s.pods, listing)
    case PatchOwner(k) =>
      && s.place.Listed? && k < |s.place.listing|
      && var o := s.place.listing[k];
         && o.uid < |s.pods| && !s.pods[o.uid].gone && s.pods[o.uid].versions != []
         && (ActionFor(ManagerIn(j, s.place), o).Adopt? || ActionFor(ManagerIn(j, s.place), o).Release?)
    case Decide(replies) => s.place.Listed? && |replies| == |s.place.listing|
    case Compose(newId) => s.place.Decided? && newId !in s.ids
    case CreatePod(_) => s.place.Creating?
    case Advance(i, phase, deleting) =>
      && i < |s.pods| && !s.pods[i].gone && s.pods[i].versions != []
      && Leads(Last(s.pods[i]), Last(s.pods[i]).(phase := phase, deleting := deleting))
    case Deliver(i, v) => i < |s.pods| && !s.pods[i].dropped && s.pods[i].seen < v <= |s.pods[i].versions|
    case Observe(i) => i < |s.pods| && 0 < s.pods[i].first <= |s.pods[i].versions| && !s.pods[i].observed
    case ObserveOther(pod) => OwnerUid(pod.owners) != Some(j.uid)
    case Vanish(i) => i < |s.pods|
    case Drop(i) => i < |s.pods| && s.pods[i].gone && s.pods[i].seen > 0
    case Rollback(_) => true
  }

  /** The sync is about to create a pod. */
  ghost predicate WillCreate(s: State) {
    s.place.Decided? && s.place.needs && !s.place.deleting && CreatesLocal(s.place.claims)
  }

  ghost function Next(j: Job, s: State, step: Step): State
    requires Enabled(j, s, step)
  {
    match step
    case ReadExpectation => s.(place := Checked(Satisfied(s.counter)))
    case List(deleting, listing) => s.(place := Listed(s.place.needs, deleting, s.rid, listing))
    case PatchOwner(k) =>
      var o := s.place.listing[k];
      var p := s.pods[o.uid];
      s.(pods := s.pods[o.uid := p.(versions := p.versions + [Patched(j, ActionFor(ManagerIn(j, s.place), o), Last(p))])])
    case Decide(replies) =>
      var m := ManagerIn(j, s.place);
      if Errors(m, s.place.listing, replies) != [] then s.(place := Idle)
      else s.(place := Decided(s.place.needs, s.place.deleting, Claims(m, s.place.listing, replies)))
    case Compose(newId) =>
      if WillCreate(s) then s.(rid := newId, counter := Some(1), ids := s.ids + {newId}, place := Creating(newId))
      else s.(place := Idle)
    case CreatePod(ok) =>
      if ok then s.(pods := s.pods + [NewPod(j, s.place.newRid, |s.pods|)], place := Idle)
      else s.(counter := Observed(s.counter), place := Idle)
    case Advance(i, phase, deleting) =>
      var p := s.pods[i];
      s.(pods := s.pods[i := p.(versions := p.versions + [Last(p).(phase := phase, deleting := deleting)])])
    case Deliver(i, v) =>
      var p := s.pods[i];
      s.(pods := s.pods[i := p.(seen := v, first := if p.seen == 0 then v else p.first)])
    case Observe(i) =>
      var p := s.pods[i];
      s.(pods := s.pods[i := p.(observed := true)],
         counter := if CountedFor(j, p.versions[p.first - 1]) then Observed(s.counter) else s.counter)
    case ObserveOther(pod) => s.(counter := if CountedFor(j, pod) then Observed(s.counter) else s.counter)
    case Vanish(i) => s.(pods := s.pods[i := s.pods[i].(gone := true)])
    case Drop(i) => s.(pods := s.pods[i := s.pods[i].(dropped := true)])
    case Rollback(rid) => s.(rid := rid)
  }

  ghost predicate Initial(s: State) {
    s.pods == [] && s.counter == None && s.place == Idle
  }

  ghost predicate Allowed(j: Job, s: State, steps: seq<Step>)
    decreases |steps|
  {
    steps == [] || (Enabled(j, s, steps[0]) && Allowed(j, Next(j, s, steps[0]), steps[1..]))
  }

  ghost function Run(j: Job, s: State, steps: seq<Step>): State
    requires Allowed(j, s, steps)
    decreases |steps|
  {
    if steps == [] then s else Run(j, Next(j, s, steps[0]), steps[1..])
  }

  // ---- Invariant: pods and their histories -----------------------------------

  ghost predicate PodOk(j: Job, i: nat, p: Pod) {
    && p.versions != [] && p.first <= p.seen <= |p.versions|
    && (p.seen > 0 <==> p.first > 0) && (p.observed ==> p.seen > 0) && (p.dropped ==> p.gone)
    && (forall a | 0 <= a < |p.versions| ::
          p.versions[a].uid == i && p.versions[a].labels == ReplicaLabels(j.name, p.rid, Local))
    && (forall a, b | 0 <= a <= b < |p.versions| :: Leads(p.versions[a], p.versions[b]))
    && (p.seen == 0 ==> forall a | 0 <= a < |p.versions| :: p.versions[a].owners == [Owner(j)])
    && (p.first > 0 ==> p.versions[p.first - 1].owners == [Owner(j)])
  }

  /** Every pod has a history of its own runtime id. */
  ghost predicate PodsOk(j: Job, s: State) {
    && (forall i | 0 <= i < |s.pods| :: PodOk(j, i, s.pods[i]) && s.pods[i].rid in s.ids)
    && (forall i, k | 0 <= i < k < |s.pods| :: s.pods[i].rid != s.pods[k].rid)
    && (s.place.Creating? ==> s.place.newRid in s.ids && forall i | 0 <= i < |s.pods| :: s.pods[i].rid != s.place.newRid)
  }

  /** A version the cache has received. */
  ghost predicate ReceivedBy(p: Pod, o: Object) {
    p.seen <= |p.versions| && o in p.versions[..p.seen]
  }

  /** A remembered listing shows versions the cache had received. */
  ghost predicate ListingOk(j: Job, s: State) {
    s.place.Listed? ==>
      && DistinctUids(s.place.listing)
      && forall o | o in s.place.listing && (LabelledFor(j.name, o.labels) || o.uid < |s.pods|) ::
           o.uid < |s.pods| && ReceivedBy(s.pods[o.uid], o)
  }

  // ---- Invariant: the expectation counter ------------------------------------

  /** How many created pods the add handler has not run for. */
  function Unobserved(s: State): nat {
    if s.pods != [] && !s.pods[|s.pods| - 1].observed then 1 else 0
  }

  /** The counter is exactly the number of unobserved pods, which is at most one; while a create call is under way it
      announces the pod to come; and a sync that found the expectation satisfied leaves no pod unobserved. */
  ghost predicate CounterOk(s: State) {
    && (forall i | 0 <= i < |s.pods| - 1 :: s.pods[i].observed)
    && (s.counter.None? ==> s.pods == [])
    && (if s.place.Creating? then s.counter == Some(1) && Unobserved(s) == 0
        else s.counter.Some? ==> s.counter.value == Unobserved(s))
    && ((s.place.Checked? || s.place.Listed? || s.place.Decided?) && s.place.needs ==> Unobserved(s) == 0)
  }

  /** A listing made after the expectation was found satisfied shows every pod that still exists. */
  ghost predicate ListingComplete(s: State) {
    s.place.Listed? && s.place.needs ==> forall i | 0 <= i < |s.pods| && !s.pods[i].gone :: Lists(s.place.listing, i)
  }

  ghost predicate OneClaim(s: State) {
    s.place.Decided? ==> |s.place.claims| <= 1
  }

  ghost predicate Inv(j: Job, s: State) {
    PodsOk(j, s) && ListingOk(j, s) && CounterOk(s) && ListingComplete(s) && OneClaim(s)
  }

  // ---- Preservation ----------------------------------------------------------

  /** Appending a version that the last one leads to keeps a pod's history. */
  lemma AppendKeepsPodOk(j: Job, i: nat, p: Pod, o: Object)
    requires PodOk(j, i, p) && Leads(Last(p), o) && o.uid == i && o.labels == Last(p).labels
    requires p.seen == 0 ==> o.owners == [Owner(j)]
    ensures PodOk(j, i, p.(versions := p.versions + [o]))
  {
    var q := p.(versions := p.versions + [o]);
    forall a, b | 0 <= a <= b < |q.versions| ensures Leads(q.versions[a], q.versions[b]) {
      if b == |p.versions| && a < b {
        assert Leads(p.versions[a], Last(p));
      }
    }
  }

  /** A claim returns at most one pod: each id is carried by one pod, and a listing shows a pod once. */
  lemma OneClaimPerId(j: Job, s: State, replies: seq<Option<Error>>)
    requires PodsOk(j, s) && ListingOk(j, s) && s.place.Listed? && |replies| == |s.place.listing|
    ensures |Claims(ManagerIn(j, s.place), s.place.listing, replies)| <= 1
  {
    var m := ManagerIn(j, s.place);
    var claims := Claims(m, s.place.listing, replies);
    ClaimsAreDistinct(m, s.place.listing, replies);
    ClaimedExactly(m, s.place.listing, replies);
    if claims != [] {
      assert claims[0] in claims;
      ClaimHasId(j, s, claims[0]);
      forall o | o in claims ensures o.uid == claims[0].uid {
        ClaimHasId(j, s, o);
      }
      assert Uids(claims) == {claims[0].uid};
      DistinctSize(claims);
    }
  }

  /** A listed object that the selector matches is a pod of exactly the listed runtime id. */
  lemma ClaimHasId(j: Job, s: State, o: Object)
    requires PodsOk(j, s) && ListingOk(j, s) && s.place.Listed?
    requires o in s.place.listing && Matches(ManagerIn(j, s.place).selector, o.labels)
    ensures o.uid < |s.pods| && s.pods[o.uid].rid == s.place.rid
    ensures exists a :: 0 <= a < |s.pods[o.uid].versions| && s.pods[o.uid].versions[a] == o
  {
    var selector := ManagerIn(j, s.place).selector;
    assert TFJobName in selector && RuntimeId in selector;
    assert o.labels[TFJobName] == j.name && o.labels[RuntimeId] == s.place.rid;
    var p := s.pods[o.uid];
    assert PodOk(j, o.uid, p);
    var a :| 0 <= a < |p.versions[..p.seen]| && p.versions[..p.seen][a] == o;
    assert p.versions[a] == o;
  }

  lemma PodStepKeepsPodsOk(j: Job, s: State, i: nat, q: Pod)
    requires PodsOk(j, s) && i < |s.pods| && PodOk(j, i, q) && q.rid == s.pods[i].rid
    ensures PodsOk(j, s.(pods := s.pods[i := q]))
  {
  }

  /** Changing one pod keeps a listing's meaning when no received version is lost. */
  lemma PodStepKeepsListing(j: Job, s: State, i: nat, q: Pod)
    requires ListingOk(j, s) && ListingComplete(s) && i < |s.pods|
    requires s.pods[i].versions <= q.versions && s.pods[i].seen <= q.seen <= |q.versions|
    requires s.pods[i].gone ==> q.gone
    ensures ListingOk(j, s.(pods := s.pods[i := q])) && ListingComplete(s.(pods := s.pods[i := q]))
  {
    var p := s.pods[i];
    assert p.seen <= |p.versions| ==> forall o | o in p.versions[..p.seen] :: o in q.versions[..q.seen] by {
      if p.seen <= |p.versions| {
        assert p.versions[..p.seen] == q.versions[..q.seen][..p.seen];
      }
    }
  }

  lemma PodStepKeepsCounter(s: State, i: nat, q: Pod)
    requires CounterOk(s) && i < |s.pods| && q.observed == s.pods[i].observed
    ensures CounterOk(s.(pods := s.pods[i := q]))
  {
  }

  /** Storing a new version of a pod keeps everything. */
  lemma VersionKeepsInv(j: Job, s: State, i: nat, o: Object)
    requires Inv(j, s) && i < |s.pods| && s.pods[i].versions != []
    requires Leads(Last(s.pods[i]), o) && o.uid == i && o.labels == Last(s.pods[i]).labels
    requires s.pods[i].seen == 0 ==> o.owners == [Owner(j)]
    ensures Inv(j, s.(pods := s.pods[i := s.pods[i].(versions := s.pods[i].versions + [o])]))
  {
    AppendKeepsPodOk(j, i, s.pods[i], o);
    hide Inv, PodOk;
    PodStepKeepsInv(j, s, i, s.pods[i].(versions := s.pods[i].versions + [o]));
  }

  lemma PatchKeepsInv(j: Job, s: State, k: nat)
    requires Inv(j, s) && Enabled(j, s, PatchOwner(k))
    ensures Inv(j, Next(j, s, PatchOwner(k)))
  {
    var o := s.place.listing[k];
    var p := s.pods[o.uid];
    assert o in s.place.listing && o in p.versions[..p.seen];
    assert PodOk(j, o.uid, p);
    var v := Patched(j, ActionFor(ManagerIn(j, s.place), o), Last(p));
    assert Leads(Last(p), v) && v.uid == o.uid && v.labels == Last(p).labels;
    assert p.seen > 0;
    hide Inv, Patched, PodOk, ActionFor;
    VersionKeepsInv(j, s, o.uid, v);
  }

  lemma ProgressKeepsInv(j: Job, s: State, i: nat, phase: PodPhase, deleting: bool)
    requires Inv(j, s) && Enabled(j, s, Advance(i, phase, deleting))
    ensures Inv(j, Next(j, s, Advance(i, phase, deleting)))
  {
    assert PodOk(j, i, s.pods[i]);
    VersionKeepsInv(j, s, i, Last(s.pods[i]).(phase := phase, deleting := deleting));
  }

  /** Changing one pod without touching its history or its observation. */
  lemma PodStepKeepsInv(j: Job, s: State, i: nat, q: Pod)
    requires Inv(j, s) && i < |s.pods| && PodOk(j, i, q) && q.rid == s.pods[i].rid
    requires s.pods[i].versions <= q.versions && s.pods[i].seen <= q.seen && (s.pods[i].gone ==> q.gone)
    requires q.observed == s.pods[i].observed
    ensures Inv(j, s.(pods := s.pods[i := q]))
  {
    assert q.seen <= |q.versions|;
    hide PodOk;
    PodStepKeepsPodsOk(j, s, i, q);
    PodStepKeepsListing(j, s, i, q);
    PodStepKeepsCounter(s, i, q);
    hide PodsOk, ListingOk, ListingComplete, CounterOk;
  }

  lemma CacheStepKeepsPodOk(j: Job, s: State, step: Step)
    requires Enabled(j, s, step) && (step.Deliver? || step.Vanish? || step.Drop?)
    requires PodOk(j, step.i, s.pods[step.i])
    ensures PodOk(j, step.i, Next(j, s, step).pods[step.i])
  {
    hide IsListing, Leads;
  }

  lemma CacheStepKeepsInv(j: Job, s: State, step: Step)
    requires Inv(j, s) && Enabled(j, s, step) && (step.Deliver? || step.Vanish? || step.Drop?)
    ensures Inv(j, Next(j, s, step))
  {
    assert PodOk(j, step.i, s.pods[step.i]);
    hide Inv, IsListing;
    var q := Next(j, s, step).pods[step.i];
    CacheStepKeepsPodOk(j, s, step);
    hide PodOk;
    PodStepKeepsInv(j, s, step.i, q);
  }

  lemma ObserveKeepsInv(j: Job, s: State, i: nat)
    requires Inv(j, s) && Enabled(j, s, Observe(i))
    ensures Inv(j, Next(j, s, Observe(i)))
  {
    var p := s.pods[i];
    assert PodOk(j, i, p);
    assert CountedFor(j, p.versions[p.first - 1]);
    hide CountedFor, Patched, IsListing, LabelledFor, CreatesLocal, Lists;
    PodStepKeepsPodsOk(j, s, i, p.(observed := true));
    PodStepKeepsListing(j, s, i, p.(observed := true));
    hide PodOk, PodsOk, ListingOk, ListingComplete;
  }

  /** Pods that another controller, or nobody, controls do not count, whatever their labels. */
  lemma OtherPodsDoNotCount(j: Job, s: State, pod: Object)
    requires Enabled(j, s, ObserveOther(pod))
    ensures Next(j, s, ObserveOther(pod)) == s
  {
  }

  /** What a cache shows are versions it has received. */
  lemma ListingShowsReceived(j: Job, pods: seq<Pod>, listing: seq<Object>, o: Object)
    requires IsListing(j, pods, listing) && o in listing && (LabelledFor(j.name, o.labels) || o.uid < |pods|)
    ensures o.uid < |pods| && ReceivedBy(pods[o.uid], o)
  {
    var p := pods[o.uid];
    assert p.versions[..p.seen][p.seen - 1] == o;
  }

  /** Once every pod is observed, every pod that still exists is cached, and so listed. */
  lemma ObservedIsListed(j: Job, s: State, listing: seq<Object>, i: nat)
    requires PodsOk(j, s) && CounterOk(s) && Unobserved(s) == 0 && IsListing(j, s.pods, listing)
    requires i < |s.pods| && !s.pods[i].gone
    ensures Lists(listing, i)
  {
    hide Lists;
    assert PodOk(j, i, s.pods[i]) && s.pods[i].observed;
    assert Cached(s.pods[i]);
  }

  lemma ListKeepsInv(j: Job, s: State, deleting: bool, listing: seq<Object>)
    requires Inv(j, s) && Enabled(j, s, List(deleting, listing))
    ensures Inv(j, Next(j, s, List(deleting, listing)))
  {
    hide PodOk, Lists, LabelledFor;
    forall o | o in listing && (LabelledFor(j.name, o.labels) || o.uid < |s.pods|)
      ensures o.uid < |s.pods| && ReceivedBy(s.pods[o.uid], o)
    {
      ListingShowsReceived(j, s.pods, listing, o);
    }
    forall i | s.place.needs && 0 <= i < |s.pods| && !s.pods[i].gone ensures Lists(listing, i) {
      ObservedIsListed(j, s, listing, i);
    }
    assert DistinctUids(listing);
    hide IsListing, DistinctUids;
  }

  lemma CreateKeepsInv(j: Job, s: State, ok: bool)
    requires Inv(j, s) && Enabled(j, s, CreatePod(ok))
    ensures Inv(j, Next(j, s, CreatePod(ok)))
  {
    var p := NewPod(j, s.place.newRid, |s.pods|);
    assert PodOk(j, |s.pods|, p);
  }

  /** A step that changes neither pods nor counter, and after which nothing is remembered that was not before. */
  lemma PlaceStepKeepsInv(j: Job, s: State, place: Place)
    requires Inv(j, s) && !s.place.Creating?
    requires place.Idle? || (place.Checked? && place.needs == Satisfied(s.counter))
             || (place.Decided? && s.place.Listed? && place.needs == s.place.needs && |place.claims| <= 1)
    ensures Inv(j, s.(place := place))
  {
    hide PodOk, Lists, LabelledFor, DistinctUids;
  }

  lemma DecideKeepsInv(j: Job, s: State, replies: seq<Option<Error>>)
    requires Inv(j, s) && Enabled(j, s, Decide(replies))
    ensures Inv(j, Next(j, s, Decide(replies)))
  {
    OneClaimPerId(j, s, replies);
    hide Inv, Claims, Errors, ManagerIn;
    PlaceStepKeepsInv(j, s, Next(j, s, Decide(replies)).place);
  }

  lemma ComposeKeepsInv(j: Job, s: State, newId: string)
    requires Inv(j, s) && Enabled(j, s, Compose(newId))
    ensures Inv(j, Next(j, s, Compose(newId)))
  {
    hide PodOk, CreatesLocal, Lists, LabelledFor, DistinctUids;
    if !WillCreate(s) {
      PlaceStepKeepsInv(j, s, Idle);
    }
  }

  lemma RollbackKeepsInv(j: Job, s: State, rid: string)
    requires Inv(j, s) && Enabled(j, s, Rollback(rid))
    ensures Inv(j, Next(j, s, Rollback(rid)))
  {
    hide PodOk, Lists, LabelledFor, DistinctUids;
  }

  lemma CheckKeepsInv(j: Job, s: State)
    requires Inv(j, s) && Enabled(j, s, ReadExpectation)
    ensures Inv(j, Next(j, s, ReadExpectation))
  {
    hide Inv;
    PlaceStepKeepsInv(j, s, Checked(Satisfied(s.counter)));
  }

  lemma StepKeepsInv(j: Job, s: State, step: Step)
    requires Inv(j, s) && Enabled(j, s, step)
    ensures Inv(j, Next(j, s, step))
  {
    hide Inv, Enabled, Next;
    match step
    case List(deleting, listing) => ListKeepsInv(j, s, deleting, listing);
    case PatchOwner(k) => PatchKeepsInv(j, s, k);
    case CreatePod(ok) => CreateKeepsInv(j, s, ok);
    case Advance(i, phase, deleting) => ProgressKeepsInv(j, s, i, phase, deleting);
    case Observe(i) => ObserveKeepsInv(j, s, i);
    case ObserveOther(pod) => OtherPodsDoNotCount(j, s, pod);
    case Decide(replies) => DecideKeepsInv(j, s, replies);
    case Compose(newId) => ComposeKeepsInv(j, s, newId);
    case ReadExpectation => CheckKeepsInv(j, s);
    case Rollback(rid) => RollbackKeepsInv(j, s, rid);
    case _ => CacheStepKeepsInv(j, s, step);
  }

  /** Over every run, with failing creates, interleaved deliveries and rolled-back runtime ids: the counter is exact,
      a listing after a satisfied expectation misses no existing pod, and no claim returns more than one pod, so the
      branches of `NewLocalJob` and `NewLocal` for more than one pod are never taken. */
  lemma {:induction false} LocalRunsAreSafe(j: Job, s: State, steps: seq<Step>)
    requires Inv(j, s) && Allowed(j, s, steps)
    ensures Inv(j, Run(j, s, steps))
    decreases |steps|
  {
    if steps != [] {
      hide Inv, Enabled, Next;
      StepKeepsInv(j, s, steps[0]);
      LocalRunsAreSafe(j, Next(j, s, steps[0]), steps[1..]);
    }
  }

  // ---- Without rollback: the current pod -------------------------------------

  ghost predicate Alive(p: Pod) {
    !p.gone && p.versions != [] && Active(Last(p))
  }

  ghost predicate ClaimsActive(s: State)
    requires s.place.Decided?
  {
    exists o :: o in s.place.claims && Active(o)
  }

  /** Only the newest pod can be active, and it carries the current runtime id; pods of that id were never released;
      and a sync that may create has claimed the active pod, if there is one. */
  ghost predicate Current(j: Job, s: State) {
    && (forall i | 0 <= i < |s.pods| && Alive(s.pods[i]) :: i == |s.pods| - 1 && s.pods[i].rid == s.rid && !s.place.Creating?)
    && (forall i | 0 <= i < |s.pods| && s.pods[i].rid == s.rid :: NeverReleased(j, s.pods[i]))
    && (s.place.Listed? ==> s.place.rid == s.rid)
    && (s.place.Creating? ==> s.place.newRid == s.rid)
    && (s.place.Decided? && s.place.needs ==> (forall i | 0 <= i < |s.pods| && Alive(s.pods[i]) :: ClaimsActive(s)))
  }

  ghost predicate NeverReleased(j: Job, p: Pod) {
    forall a | 0 <= a < |p.versions| :: p.versions[a].owners == [Owner(j)]
  }

  /** A listed version of a pod of the current id is kept: it counts as claimed and is never patched. */
  lemma CurrentIsKept(j: Job, s: State, o: Object)
    requires Inv(j, s) && Current(j, s) && s.place.Listed? && o in s.place.listing
    requires o.uid < |s.pods| && s.pods[o.uid].rid == s.rid
    ensures ActionFor(ManagerIn(j, s.place), o) == Keep
    ensures exists a :: 0 <= a < s.pods[o.uid].seen <= |s.pods[o.uid].versions| && s.pods[o.uid].versions[a] == o
  {
    var p := s.pods[o.uid];
    assert PodOk(j, o.uid, p);
    var a :| 0 <= a < |p.versions[..p.seen]| && p.versions[..p.seen][a] == o;
    assert p.versions[a] == o;
    assert o.labels == ReplicaLabels(j.name, s.rid, Local) && o.owners == [Owner(j)];
    assert ControllerOf([Owner(j)]) == Some(Owner(j));
  }

  /** A complete listing shows the active pod as active. */
  lemma ActiveIsListed(j: Job, s: State, i: nat) returns (o: Object)
    requires Inv(j, s) && Current(j, s) && s.place.Listed? && s.place.needs
    requires i < |s.pods| && Alive(s.pods[i])
    ensures o in s.place.listing && Active(o) && ActionFor(ManagerIn(j, s.place), o) == Keep
  {
    hide ActionFor;
    assert Lists(s.place.listing, i);
    o :| o in s.place.listing && o.uid == i;
    CurrentIsKept(j, s, o);
    var p := s.pods[i];
    var a :| 0 <= a < p.seen && p.versions[a] == o;
    assert PodOk(j, i, p);
    assert Leads(p.versions[a], p.versions[|p.versions| - 1]);
  }

  /** A sync that found its expectation satisfied claims the active pod. */
  lemma ActiveIsClaimed(j: Job, s: State, i: nat, replies: seq<Option<Error>>)
    requires Inv(j, s) && Current(j, s) && s.place.Listed? && s.place.needs && |replies| == |s.place.listing|
    requires i < |s.pods| && Alive(s.pods[i])
    ensures exists o :: o in Claims(ManagerIn(j, s.place), s.place.listing, replies) && Active(o)
  {
    var o := ActiveIsListed(j, s, i);
    hide Inv, Current, Alive, ActionFor, Claims;
    KeptIsClaimed(ManagerIn(j, s.place), s.place.listing, replies, o);
  }

  lemma KeptIsClaimed(m: Manager, listing: seq<Object>, replies: seq<Option<Error>>, o: Object)
    requires |replies| == |listing| && o in listing && ActionFor(m, o) == Keep
    ensures o in Claims(m, listing, replies)
  {
    ClaimedExactly(m, listing, replies);
    var k :| 0 <= k < |listing| && listing[k] == o;
    assert Claimed(m, listing[k], replies[k]);
  }

  lemma OneActiveCounts(claims: seq<Object>, o: Object)
    requires o in claims && |claims| <= 1
    ensures Active(o) ==> |FilterActive(claims)| == 1
    ensures o.phase == Succeeded ==> Count(claims, Succeeded) == 1
  {
    assert claims == [o] && claims[..0] == [];
  }

  /** Changing one pod without reviving or releasing it. */
  lemma PodStepKeepsCurrent(j: Job, s: State, i: nat, q: Pod, counter: Option<int>)
    requires Current(j, s) && i < |s.pods| && q.rid == s.pods[i].rid && (Alive(q) ==> Alive(s.pods[i]))
    requires q.rid == s.rid ==> NeverReleased(j, q)
    ensures Current(j, s.(pods := s.pods[i := q], counter := counter))
  {
    hide Alive, NeverReleased;
  }

  lemma PatchKeepsCurrent(j: Job, s: State, k: nat)
    requires Inv(j, s) && Current(j, s) && Enabled(j, s, PatchOwner(k))
    ensures Current(j, Next(j, s, PatchOwner(k)))
  {
    var o := s.place.listing[k];
    assert o in s.place.listing;
    if s.pods[o.uid].rid == s.rid {
      CurrentIsKept(j, s, o);
    }
    hide Inv, ActionFor, Current;
    PodStepKeepsCurrent(j, s, o.uid, Next(j, s, PatchOwner(k)).pods[o.uid], s.counter);
  }

  lemma DecideKeepsCurrent(j: Job, s: State, replies: seq<Option<Error>>)
    requires Inv(j, s) && Current(j, s) && Enabled(j, s, Decide(replies))
    ensures Current(j, Next(j, s, Decide(replies)))
  {
    hide Inv, Alive, Claims, Errors, NeverReleased, ManagerIn;
    forall i | s.place.needs && 0 <= i < |s.pods| && Alive(s.pods[i])
      ensures exists o :: o in Claims(ManagerIn(j, s.place), s.place.listing, replies) && Active(o)
    {
      ActiveIsClaimed(j, s, i, replies);
    }
  }

  /** A sync composes a new id only when no pod is active. */
  lemma ComposeKeepsCurrent(j: Job, s: State, newId: string)
    requires Inv(j, s) && Current(j, s) && Enabled(j, s, Compose(newId))
    ensures Current(j, Next(j, s, Compose(newId)))
  {
    assert WillCreate(s) ==> !ClaimsActive(s) by {
      if o :| WillCreate(s) && o in s.place.claims && Active(o) {
        OneActiveCounts(s.place.claims, o);
      }
    }
    hide Alive, NeverReleased, CreatesLocal, ClaimsActive;
  }

  lemma AdvanceKeepsCurrent(j: Job, s: State, step: Step)
    requires Inv(j, s) && Current(j, s) && Enabled(j, s, step)
    requires step.Advance? || step.Deliver? || step.Observe? || step.Vanish? || step.Drop?
    ensures Current(j, Next(j, s, step))
  {
    hide Inv, IsListing;
    var s' := Next(j, s, step);
    assert s.pods[step.i].rid == s.rid ==> NeverReleased(j, s.pods[step.i]);
    hide Current;
    PodStepKeepsCurrent(j, s, step.i, s'.pods[step.i], s'.counter);
  }

  /** Every step but a rollback keeps this. */
  lemma StepKeepsCurrent(j: Job, s: State, step: Step)
    requires Inv(j, s) && Current(j, s) && Enabled(j, s, step) && !step.Rollback?
    ensures Current(j, Next(j, s, step))
  {
    match step
    case PatchOwner(k) => PatchKeepsCurrent(j, s, k);
    case Decide(replies) => DecideKeepsCurrent(j, s, replies);
    case Compose(newId) => ComposeKeepsCurrent(j, s, newId);
    case CreatePod(ok) =>
    case ReadExpectation =>
    case List(_, _) =>
    case ObserveOther(pod) => OtherPodsDoNotCount(j, s, pod);
    case _ => AdvanceKeepsCurrent(j, s, step);
  }

  ghost predicate NoRollback(steps: seq<Step>) {
    forall step | step in steps :: !step.Rollback?
  }

  // ---- When a second pod becomes active --------------------------------------

  /** Not failed, and not on its way out unless it has succeeded. */
  predicate Working(o: Object) {
    o.phase == Succeeded || (o.phase in {Pending, Running, Unknown} && !o.deleting)
  }

  /** Pod k carries the cached runtime id, and the cache shows it as the job's, and as active or succeeded. */
  ghost predicate ShowsWork(j: Job, s: State, k: nat) {
    && k < |s.pods| && s.pods[k].rid == s.rid && Cached(s.pods[k])
    && var o := s.pods[k].versions[s.pods[k].seen - 1];
       OwnerUid(o.owners) == Some(j.uid) && Working(o)
  }

  ghost predicate HasWork(j: Job, s: State) {
    exists k: nat :: ShowsWork(j, s, k)
  }

  /** The cache shows no pod of the cached runtime id as released. */
  ghost predicate NoneReleased(j: Job, s: State) {
    forall k | 0 <= k < |s.pods| && s.pods[k].rid == s.rid && Cached(s.pods[k]) ::
      OwnerUid(s.pods[k].versions[s.pods[k].seen - 1].owners) == Some(j.uid)
  }

  ghost predicate SomeAlive(s: State) {
    exists i :: 0 <= i < |s.pods| && Alive(s.pods[i])
  }

  ghost predicate TwoAlive(s: State) {
    exists i, k :: 0 <= i < k < |s.pods| && Alive(s.pods[i]) && Alive(s.pods[k])
  }

  /** What a live job's sync makes of one listed object: it is taken if it is selected and ours, or adopted. */
  predicate Taken(m: Manager, o: Object, reply: Option<Error>) {
    Selected(m, o) && (OwnedBy(m, o) || (LiveOrphan(m, o) && reply == None))
  }

  /** A pod shown working is listed, and kept by the selector of the cached id. */
  lemma WorkIsListed(j: Job, s: State, deleting: bool, listing: seq<Object>, k: nat)
    requires PodsOk(j, s) && IsListing(j, s.pods, listing) && ShowsWork(j, s, k)
    ensures exists o :: o in listing && ActionFor(LocalManager(j.name, j.uid, s.rid, deleting), o) == Keep && Working(o)
  {
    assert Lists(listing, k);
    var o :| o in listing && o.uid == k;
    assert PodOk(j, k, s.pods[k]);
    assert o.labels == ReplicaLabels(j.name, s.rid, Local);
  }

  lemma WorkIsKept(j: Job, s: State, deleting: bool, listing: seq<Object>)
    requires Inv(j, s) && IsListing(j, s.pods, listing) && HasWork(j, s)
    ensures exists o :: o in listing && ActionFor(LocalManager(j.name, j.uid, s.rid, deleting), o) == Keep && Working(o)
  {
    hide IsListing, ActionFor, Working, ShowsWork, PodsOk, ListingOk, CounterOk, ListingComplete, OneClaim;
    var k: nat :| ShowsWork(j, s, k);
    WorkIsListed(j, s, deleting, listing, k);
  }

  /** A taken object is a cached pod of the cached id. */
  lemma TakenIsCached(j: Job, s: State, listing: seq<Object>, o: Object, reply: Option<Error>)
    requires PodsOk(j, s) && IsListing(j, s.pods, listing) && o in listing
    requires Taken(LocalManager(j.name, j.uid, s.rid, false), o, reply)
    ensures o.uid < |s.pods| && s.pods[o.uid].rid == s.rid && Cached(s.pods[o.uid])
    ensures o == s.pods[o.uid].versions[s.pods[o.uid].seen - 1]
  {
    var selector := ReplicaLabels(j.name, s.rid, Local);
    assert TFJobName in selector && RuntimeId in selector;
    assert PodOk(j, o.uid, s.pods[o.uid]);
  }

  lemma WorkingDecides(claims: seq<Object>)
    requires |claims| <= 1
    ensures CreatesLocal(claims) <==> forall o | o in claims :: !Working(o)
  {
    if claims != [] {
      var o := claims[0];
      assert claims == [o] && claims[..0] == [] && o in claims;
      assert CreatesLocal(claims) <==> !Working(o);
    }
  }

  /** Nothing that a live job's sync takes from a listing is active or succeeded. */
  ghost predicate TakesNoWork(j: Job, s: State, listing: seq<Object>, replies: seq<Option<Error>>)
    requires |replies| == |listing|
  {
    var m := LocalManager(j.name, j.uid, s.rid, false);
    forall i | 0 <= i < |listing| && Taken(m, listing[i], replies[i]) :: !Working(listing[i])
  }

  /** Whether a live job's sync creates a pod, for every listing and all answers: exactly if it takes no object that
      works. */
  lemma CreatesIff(j: Job, s: State, listing: seq<Object>, replies: seq<Option<Error>>)
    requires Inv(j, s) && s.place.Checked? && IsListing(j, s.pods, listing) && |replies| == |listing|
    ensures var m := LocalManager(j.name, j.uid, s.rid, false);
            CreatesLocal(Claims(m, listing, replies)) <==> TakesNoWork(j, s, listing, replies)
  {
    var m := LocalManager(j.name, j.uid, s.rid, false);
    ListKeepsInv(j, s, false, listing);
    OneClaimPerId(j, s.(place := Listed(s.place.needs, false, s.rid, listing)), replies);
    ClaimedExactly(m, listing, replies);
    WorkingDecides(Claims(m, listing, replies));
    forall i | 0 <= i < |listing| ensures Claimed(m, listing[i], replies[i]) <==> Taken(m, listing[i], replies[i]) {
      ClaimedIffTaken(m, listing[i], replies[i]);
    }
    hide Inv, IsListing, Claims, CreatesLocal, Claimed, Taken, Working, LocalManager;
  }

  lemma ClaimedIffTaken(m: Manager, o: Object, reply: Option<Error>)
    requires !m.deleting
    ensures Claimed(m, o, reply) <==> Taken(m, o, reply)
  {
  }

  lemma WorkIsTaken(j: Job, s: State, listing: seq<Object>, replies: seq<Option<Error>>)
    requires Inv(j, s) && IsListing(j, s.pods, listing) && |replies| == |listing| && HasWork(j, s)
    ensures !TakesNoWork(j, s, listing, replies)
  {
    WorkIsKept(j, s, false, listing);
    hide Inv, IsListing, HasWork, Working, LocalManager;
    var m := LocalManager(j.name, j.uid, s.rid, false);
    var o :| o in listing && ActionFor(m, o) == Keep && Working(o);
    var i :| 0 <= i < |listing| && listing[i] == o;
    assert Taken(m, listing[i], replies[i]);
    hide Taken, ActionFor;
  }

  lemma TakenWorkIsShown(j: Job, s: State, listing: seq<Object>, replies: seq<Option<Error>>)
    requires Inv(j, s) && NoneReleased(j, s)
    requires IsListing(j, s.pods, listing) && |replies| == |listing| && !TakesNoWork(j, s, listing, replies)
    ensures HasWork(j, s)
  {
    hide IsListing, Working, LocalManager, Taken, ListingOk, CounterOk, ListingComplete, OneClaim, PodsOk;
    var m := LocalManager(j.name, j.uid, s.rid, false);
    var i :| 0 <= i < |listing| && Taken(m, listing[i], replies[i]) && Working(listing[i]);
    TakenIsCached(j, s, listing, listing[i], replies[i]);
    assert ShowsWork(j, s, listing[i].uid);
  }

  /** The rest of a sync that has read its expectation, without interference. */
  ghost function RestOfSync(j: Job, s: State, deleting: bool, listing: seq<Object>, replies: seq<Option<Error>>,
                            newId: string, ok: bool): State
    requires s.place.Checked? && IsListing(j, s.pods, listing) && |replies| == |listing| && newId !in s.ids
  {
    var b := Next(j, s, List(deleting, listing));
    var c := Next(j, b, Decide(replies));
    if c.place.Idle? then c
    else
      var d := Next(j, c, Compose(newId));
      if d.place.Idle? then d else Next(j, d, CreatePod(ok))
  }

  lemma RestOfSyncCreates(j: Job, s: State, listing: seq<Object>, replies: seq<Option<Error>>, newId: string)
    requires s.place == Checked(true) && IsListing(j, s.pods, listing) && |replies| == |listing| && newId !in s.ids
    ensures var m := LocalManager(j.name, j.uid, s.rid, false);
            RestOfSync(j, s, false, listing, replies, newId, true).pods ==
            if Errors(m, listing, replies) == [] && CreatesLocal(Claims(m, listing, replies))
            then s.pods + [NewPod(j, newId, |s.pods|)] else s.pods
  {
    hide IsListing, Claims, Errors, CreatesLocal, NewPod;
  }

  /** Exactly when a sync makes a second pod active, rollbacks before it or not: when it runs beside an active pod, no
      claim fails, and nothing it takes is active or succeeded. If no pod of the cached runtime id was released, the
      last condition can be read off before the sync: the cache shows no pod of that id as active or succeeded. */
  lemma SecondActiveIff(j: Job, s: State, listing: seq<Object>, replies: seq<Option<Error>>, newId: string)
    requires Inv(j, s) && s.place == Checked(true)
    requires IsListing(j, s.pods, listing) && |replies| == |listing| && newId !in s.ids
    ensures TwoAlive(RestOfSync(j, s, false, listing, replies, newId, true)) <==>
              || TwoAlive(s)
              || (&& SomeAlive(s) && TakesNoWork(j, s, listing, replies)
                  && Errors(LocalManager(j.name, j.uid, s.rid, false), listing, replies) == [])
    ensures NoneReleased(j, s) ==> (TakesNoWork(j, s, listing, replies) <==> !HasWork(j, s))
  {
    CreatesIff(j, s, listing, replies);
    hide Inv, IsListing, Claims, Errors, CreatesLocal, RestOfSync, HasWork, NoneReleased, TakesNoWork, Alive, NewPod;
    if HasWork(j, s) {
      WorkIsTaken(j, s, listing, replies);
    } else if NoneReleased(j, s) && !TakesNoWork(j, s, listing, replies) {
      TakenWorkIsShown(j, s, listing, replies);
    }
    RestOfSyncCreates(j, s, listing, replies, newId);
    OneMoreAlive(j, s, RestOfSync(j, s, false, listing, replies, newId, true), newId);
    if TwoAlive(s) {
      StillTwo(s, RestOfSync(j, s, false, listing, replies, newId, true));
    }
  }

  lemma StillTwo(s: State, s': State)
    requires TwoAlive(s) && s.pods <= s'.pods
    ensures TwoAlive(s')
  {
    hide Alive;
    var i, k :| 0 <= i < k < |s.pods| && Alive(s.pods[i]) && Alive(s.pods[k]);
    assert s'.pods[i] == s.pods[i] && s'.pods[k] == s.pods[k];
  }

  lemma OneMoreAlive(j: Job, s: State, s': State, newId: string)
    ensures s'.pods == s.pods ==> (TwoAlive(s') <==> TwoAlive(s))
    ensures s'.pods == s.pods + [NewPod(j, newId, |s.pods|)] ==> (TwoAlive(s') <==> SomeAlive(s))
  {
    hide Alive;
    if s'.pods == s.pods + [NewPod(j, newId, |s.pods|)] {
      NewPodIsAlive(j, newId, |s.pods|);
      if i :| 0 <= i < |s.pods| && Alive(s.pods[i]) {
        assert Alive(s'.pods[i]) && Alive(s'.pods[|s.pods|]);
      }
      if i, k :| 0 <= i < k < |s'.pods| && Alive(s'.pods[i]) && Alive(s'.pods[k]) {
        assert s'.pods[i] == s.pods[i];
      }
    }
  }

  lemma NewPodIsAlive(j: Job, newId: string, i: nat)
    ensures Alive(NewPod(j, newId, i))
  {
  }

  // ---- Runs with rollbacks, and at most one active pod -----------------------

  /** At most one pod is active, and a sync under way that may still create has seen work or started when none was. */
  ghost predicate Single(j: Job, s: State) {
    && !TwoAlive(s)
    && (s.place.Creating? ==> !SomeAlive(s))
    && (s.place.Listed? && s.place.needs && !s.place.deleting && SomeAlive(s) ==> KeepsWork(j, s.place))
    && (s.place.Decided? && s.place.needs && !s.place.deleting && SomeAlive(s) ==> ClaimsWork(s.place))
  }

  ghost predicate KeepsWork(j: Job, place: Place)
    requires place.Listed?
  {
    exists o :: o in place.listing && ActionFor(ManagerIn(j, place), o) == Keep && Working(o)
  }

  ghost predicate ClaimsWork(place: Place)
    requires place.Decided?
  {
    exists o :: o in place.claims && Working(o)
  }

  /** The guard at a listing of a live job's sync that may create: beside an active pod the cache shows work. */
  ghost predicate Guarded(j: Job, s: State, step: Step)
    requires Enabled(j, s, step)
  {
    step.List? && s.place.needs && !step.deleting && SomeAlive(s) ==> HasWork(j, s)
  }

  ghost predicate GuardedRun(j: Job, s: State, steps: seq<Step>)
    requires Allowed(j, s, steps)
    decreases |steps|
  {
    steps == [] || (Guarded(j, s, steps[0]) && GuardedRun(j, Next(j, s, steps[0]), steps[1..]))
  }

  /** Changing one pod without reviving it. */
  lemma PodStepKeepsSingle(j: Job, s: State, i: nat, q: Pod, counter: Option<int>)
    requires Single(j, s) && i < |s.pods| && (Alive(q) ==> Alive(s.pods[i]))
    ensures Single(j, s.(pods := s.pods[i := q], counter := counter))
  {
    hide Alive, KeepsWork, ClaimsWork;
    var s' := s.(pods := s.pods[i := q], counter := counter);
    assert forall k | 0 <= k < |s.pods| && Alive(s'.pods[k]) :: Alive(s.pods[k]);
  }

  lemma PatchKeepsSingle(j: Job, s: State, k: nat)
    requires Single(j, s) && Enabled(j, s, PatchOwner(k))
    ensures Single(j, Next(j, s, PatchOwner(k)))
  {
    hide Single, ActionFor;
    var o := s.place.listing[k];
    PodStepKeepsSingle(j, s, o.uid, Next(j, s, PatchOwner(k)).pods[o.uid], s.counter);
  }

  lemma CacheStepKeepsSingle(j: Job, s: State, step: Step)
    requires Single(j, s) && Enabled(j, s, step)
    requires step.Advance? || step.Deliver? || step.Observe? || step.Vanish? || step.Drop?
    ensures Single(j, Next(j, s, step))
  {
    hide Single, IsListing, CountedFor;
    var s' := Next(j, s, step);
    PodStepKeepsSingle(j, s, step.i, s'.pods[step.i], s'.counter);
  }

  lemma ListKeepsSingle(j: Job, s: State, deleting: bool, listing: seq<Object>)
    requires Inv(j, s) && Single(j, s) && Enabled(j, s, List(deleting, listing)) && Guarded(j, s, List(deleting, listing))
    ensures Single(j, Next(j, s, List(deleting, listing)))
  {
    hide Inv, IsListing, Alive, Working, ActionFor, HasWork;
    if s.place.needs && !deleting && SomeAlive(s) {
      WorkIsKept(j, s, deleting, listing);
    }
  }

  lemma DecideKeepsSingle(j: Job, s: State, replies: seq<Option<Error>>)
    requires Single(j, s) && Enabled(j, s, Decide(replies))
    ensures Single(j, Next(j, s, Decide(replies)))
  {
    hide Alive, Working, Claims, Errors, ManagerIn, ActionFor;
    if s.place.needs && !s.place.deleting && SomeAlive(s) {
      var o :| o in s.place.listing && ActionFor(ManagerIn(j, s.place), o) == Keep && Working(o);
      KeptIsClaimed(ManagerIn(j, s.place), s.place.listing, replies, o);
    }
  }

  lemma ComposeKeepsSingle(j: Job, s: State, newId: string)
    requires OneClaim(s) && Single(j, s) && Enabled(j, s, Compose(newId))
    ensures Single(j, Next(j, s, Compose(newId)))
  {
    hide Alive, Working, CreatesLocal;
    WorkingDecides(s.place.claims);
  }

  lemma CreateKeepsSingle(j: Job, s: State, ok: bool)
    requires Single(j, s) && Enabled(j, s, CreatePod(ok))
    ensures Single(j, Next(j, s, CreatePod(ok)))
  {
    hide Alive, NewPod;
    OneMoreAlive(j, s, Next(j, s, CreatePod(ok)), s.place.newRid);
  }

  lemma StepKeepsSingle(j: Job, s: State, step: Step)
    requires Inv(j, s) && Single(j, s) && Enabled(j, s, step) && Guarded(j, s, step)
    ensures Single(j, Next(j, s, step))
  {
    match step
    case ReadExpectation => hide Inv, Alive, KeepsWork, ClaimsWork;
    case Rollback(_) => hide Inv, Alive, KeepsWork, ClaimsWork;
    case List(deleting, listing) => ListKeepsSingle(j, s, deleting, listing);
    case PatchOwner(k) => PatchKeepsSingle(j, s, k);
    case Decide(replies) => DecideKeepsSingle(j, s, replies);
    case Compose(newId) => ComposeKeepsSingle(j, s, newId);
    case CreatePod(ok) => CreateKeepsSingle(j, s, ok);
    case ObserveOther(pod) => OtherPodsDoNotCount(j, s, pod);
    case _ => CacheStepKeepsSingle(j, s, step);
  }

  /** Over every run, rolled-back runtime ids included, in which the cache shows work of the cached id whenever a sync
      that may create lists beside an active pod: at most one pod of the job is active. As long as no pod of that id was
      released no weaker guard would do, by `SecondActiveIff`. */
  lemma {:induction false} AtMostOneActive(j: Job, s: State, steps: seq<Step>)
    requires Inv(j, s) && Single(j, s) && Allowed(j, s, steps) && GuardedRun(j, s, steps)
    ensures var s' := Run(j, s, steps); Inv(j, s') && Single(j, s') && !TwoAlive(s')
    decreases |steps|
  {
    if steps != [] {
      hide Inv, Enabled, Next, Single, Guarded;
      StepKeepsInv(j, s, steps[0]);
      StepKeepsSingle(j, s, steps[0]);
      AtMostOneActive(j, Next(j, s, steps[0]), steps[1..]);
    } else {
      hide Inv, SomeAlive, TwoAlive;
    }
  }

  /** The guard holds at every listing if the cached id never fell back to an older one. */
  lemma CurrentIsGuarded(j: Job, s: State, step: Step)
    requires Inv(j, s) && Current(j, s) && Enabled(j, s, step)
    ensures Guarded(j, s, step)
  {
    if step.List? && s.place.needs && SomeAlive(s) {
      var i :| 0 <= i < |s.pods| && Alive(s.pods[i]);
      AliveShowsWork(j, s, i);
    }
  }

  lemma AliveShowsWork(j: Job, s: State, i: nat)
    requires Inv(j, s) && Current(j, s) && s.place.Checked? && s.place.needs && i < |s.pods| && Alive(s.pods[i])
    ensures ShowsWork(j, s, i)
  {
    var p := s.pods[i];
    assert PodOk(j, i, p) && p.observed;
    assert NeverReleased(j, p);
    var o := p.versions[p.seen - 1];
    assert Leads(o, p.versions[|p.versions| - 1]);
    assert o.owners == [Owner(j)] && ControllerOf([Owner(j)]) == Some(Owner(j));
  }

  lemma {:induction false} WithoutRollbackGuarded(j: Job, s: State, steps: seq<Step>)
    requires Inv(j, s) && Current(j, s) && Allowed(j, s, steps) && NoRollback(steps)
    ensures GuardedRun(j, s, steps)
    decreases |steps|
  {
    if steps != [] {
      assert steps[0] in steps && forall step | step in steps[1..] :: step in steps;
      hide Inv, Enabled, Next, Current, Guarded;
      CurrentIsGuarded(j, s, steps[0]);
      StepKeepsInv(j, s, steps[0]);
      StepKeepsCurrent(j, s, steps[0]);
      WithoutRollbackGuarded(j, Next(j, s, steps[0]), steps[1..]);
    }
  }

  lemma InitialIsSafe(j: Job, s: State)
    requires Initial(s)
    ensures Inv(j, s) && Current(j, s) && Single(j, s)
  {
  }

  // ---- Without rollback: success is final ------------------------------------

  ghost predicate ShowsSuccess(objs: seq<Object>, i: nat) {
    exists o :: o in objs && o.uid == i && o.phase == Succeeded
  }

  /** Pod i has succeeded, the cache knows, and no sync under way believes otherwise. */
  ghost predicate Done(s: State, i: nat) {
    && i < |s.pods| && s.pods[i].rid == s.rid && !s.pods[i].gone
    && 0 < s.pods[i].seen <= |s.pods[i].versions| && s.pods[i].versions[s.pods[i].seen - 1].phase == Succeeded
    && !s.place.Creating?
    && (s.place.Listed? ==> ShowsSuccess(s.place.listing, i))
    && (s.place.Decided? ==> ShowsSuccess(s.place.claims, i))
  }

  lemma DecideClaims(j: Job, s: State, replies: seq<Option<Error>>)
    requires Enabled(j, s, Decide(replies)) && Errors(ManagerIn(j, s.place), s.place.listing, replies) == []
    ensures Next(j, s, Decide(replies)) ==
            s.(place := Decided(s.place.needs, s.place.deleting, Claims(ManagerIn(j, s.place), s.place.listing, replies)))
  {
    hide Claims, Errors, ManagerIn;
  }

  /** A claimed succeeded pod that still exists is done. */
  lemma ClaimedSuccessIsDone(j: Job, s: State, replies: seq<Option<Error>>, o: Object)
    requires Inv(j, s) && Current(j, s) && Enabled(j, s, Decide(replies))
    requires var m := ManagerIn(j, s.place);
             && Errors(m, s.place.listing, replies) == []
             && o in Claims(m, s.place.listing, replies)
    requires o.phase == Succeeded && (o.uid < |s.pods| ==> !s.pods[o.uid].gone)
    ensures Done(Next(j, s, Decide(replies)), o.uid)
  {
    hide Inv, Current, Claims, Errors, ManagerIn, Matches, Next;
    DecideClaims(j, s, replies);
    hide Enabled;
    ClaimIsListed(ManagerIn(j, s.place), s.place.listing, replies, o);
    ClaimedHasId(j, s, o);
    ReceivedSuccess(j, s, o);
  }

  lemma ClaimedHasId(j: Job, s: State, o: Object)
    requires Inv(j, s) && s.place.Listed?
    requires o in s.place.listing && Matches(ManagerIn(j, s.place).selector, o.labels)
    ensures o.uid < |s.pods| && s.pods[o.uid].rid == s.place.rid
  {
    ClaimHasId(j, s, o);
  }

  lemma ClaimIsListed(m: Manager, listing: seq<Object>, replies: seq<Option<Error>>, o: Object)
    requires |replies| == |listing| && o in Claims(m, listing, replies)
    ensures o in listing && Matches(m.selector, o.labels)
  {
    ClaimedExactly(m, listing, replies);
  }

  /** When a listing showed success, so does the cached version. */
  lemma ReceivedSuccess(j: Job, s: State, o: Object)
    requires Inv(j, s) && Current(j, s) && s.place.Listed? && o in s.place.listing && o.phase == Succeeded
    requires o.uid < |s.pods| && s.pods[o.uid].rid == s.place.rid
    ensures var p := s.pods[o.uid];
            p.rid == s.rid && 0 < p.seen <= |p.versions| && p.versions[p.seen - 1].phase == Succeeded
  {
    CurrentIsKept(j, s, o);
    var p := s.pods[o.uid];
    var a :| 0 <= a < p.seen && p.versions[a] == o;
    SuccessLasts(j, o.uid, p, a, p.seen - 1);
  }

  lemma SuccessLasts(j: Job, i: nat, p: Pod, a: nat, b: nat)
    requires PodOk(j, i, p) && a <= b < |p.versions| && p.versions[a].phase == Succeeded
    ensures p.versions[b].phase == Succeeded
  {
    assert Leads(p.versions[a], p.versions[b]);
  }

  lemma CacheKeepsDone(j: Job, s: State, step: Step, i: nat)
    requires Inv(j, s) && Done(s, i) && Enabled(j, s, step) && step != Vanish(i)
    requires step.PatchOwner? || step.Advance? || step.Deliver? || step.Observe? || step.Vanish? || step.Drop?
    ensures Done(Next(j, s, step), i) && |Next(j, s, step).pods| == |s.pods|
  {
    hide Patched, IsListing, ActionFor, Leads, ShowsSuccess, ListingOk, CounterOk, ListingComplete, OneClaim;
    var p := s.pods[i];
    assert PodOk(j, i, p);
    hide Inv;
    var q := Next(j, s, step).pods[i];
    assert p.versions <= q.versions && p.seen <= q.seen <= |q.versions| && q.rid == p.rid;
    if step.Deliver? && step.i == i {
      SuccessLasts(j, i, p, p.seen - 1, q.seen - 1);
    }
    hide PodOk;
  }

  lemma DecideKeepsDone(j: Job, s: State, replies: seq<Option<Error>>, i: nat)
    requires Inv(j, s) && Current(j, s) && Done(s, i) && Enabled(j, s, Decide(replies))
    ensures Done(Next(j, s, Decide(replies)), i)
  {
    hide Inv, Current, Claims, Errors, ActionFor, ManagerIn, Patched, IsListing, CreatesLocal, Leads;
    var o :| o in s.place.listing && o.uid == i && o.phase == Succeeded;
    CurrentIsKept(j, s, o);
    KeptIsClaimed(ManagerIn(j, s.place), s.place.listing, replies, o);
  }

  lemma CachedSuccessIsListed(j: Job, pods: seq<Pod>, listing: seq<Object>, i: nat)
    requires IsListing(j, pods, listing) && i < |pods| && Cached(pods[i])
    requires pods[i].versions[pods[i].seen - 1].phase == Succeeded
    ensures ShowsSuccess(listing, i)
  {
    assert Lists(listing, i);
    var o :| o in listing && o.uid == i;
    assert o == pods[i].versions[pods[i].seen - 1];
  }

  lemma ListKeepsDone(j: Job, s: State, deleting: bool, listing: seq<Object>, i: nat)
    requires Inv(j, s) && Done(s, i) && Enabled(j, s, List(deleting, listing))
    ensures Done(Next(j, s, List(deleting, listing)), i)
  {
    assert PodOk(j, i, s.pods[i]);
    hide Inv, PodOk;
    CachedSuccessIsListed(j, s.pods, listing, i);
    hide IsListing, ShowsSuccess;
  }

  lemma StepKeepsDone(j: Job, s: State, step: Step, i: nat)
    requires Inv(j, s) && Current(j, s) && Done(s, i) && Enabled(j, s, step) && !step.Rollback? && step != Vanish(i)
    ensures Done(Next(j, s, step), i) && |Next(j, s, step).pods| == |s.pods|
  {
    match step
    case ReadExpectation =>
    case List(deleting, listing) => ListKeepsDone(j, s, deleting, listing, i);
    case Decide(replies) => DecideKeepsDone(j, s, replies, i);
    case Compose(_) =>
      var o :| o in s.place.claims && o.uid == i && o.phase == Succeeded;
      OneActiveCounts(s.place.claims, o);
    case CreatePod(_) =>
    case ObserveOther(pod) => OtherPodsDoNotCount(j, s, pod);
    case _ => CacheKeepsDone(j, s, step, i);
  }

  /** Once a succeeded pod has been claimed, no pod is ever created again, as long as that pod is not removed
      and the runtime id does not fall back. */
  lemma {:induction false} SuccessIsFinal(j: Job, s: State, steps: seq<Step>, i: nat)
    requires Inv(j, s) && Current(j, s) && Done(s, i)
    requires Allowed(j, s, steps) && NoRollback(steps) && Vanish(i) !in steps
    ensures Done(Run(j, s, steps), i) && |Run(j, s, steps).pods| == |s.pods|
    decreases |steps|
  {
    if steps != [] {
      assert steps[0] in steps && forall step | step in steps[1..] :: step in steps;
      hide Inv, Current, Done, Enabled, Next;
      StepKeepsInv(j, s, steps[0]);
      StepKeepsCurrent(j, s, steps[0]);
      StepKeepsDone(j, s, steps[0], i);
      SuccessIsFinal(j, Next(j, s, steps[0]), steps[1..], i);
    }
  }

  // ---- The steps are those of the code ---------------------------------------

  /** What a whole sync did to a state of the machine is what it did to the system: runtime id, counter, created pods. */
  ghost predicate SameEffect(s: State, s': State, l: LocalSystem, l': LocalSystem) {
    && s'.place.Idle? && s'.rid == l'.rid && s'.counter == l'.counter
    && s.pods <= s'.pods && l.created <= l'.created
    && |s'.pods| - |s.pods| == |l'.created| - |l.created| <= 1
    && (|s'.pods| > |s.pods| ==>
          && s'.pods[|s.pods|].versions != []
          && s'.pods[|s.pods|].versions[0].labels == l'.created[|l.created|].labels
          && s'.pods[|s.pods|].versions[0].owners == [l'.created[|l.created|].owner])
  }

  /** Run without interference, the steps of a sync do what `LocalSync`, the specification of the code, says, whatever
      its claims report: the machine only adds the points where others may interfere. */
  lemma UninterruptedSyncIsLocalSync(c: LocalConfig, l: LocalSystem, s: State, deleting: bool, listing: seq<Object>,
                                     replies: seq<Option<Error>>)
    requires s.place.Idle? && s.rid == l.rid && s.counter == l.counter && |replies| == |listing|
    requires IsListing(Job(c.name, c.uid), s.pods, listing)
    requires GeneratedName("", c.draws(l.drawn)) !in s.ids
    ensures var j, newId := Job(c.name, c.uid), GeneratedName("", c.draws(l.drawn));
            && Enabled(j, s, ReadExpectation)
            && var s' := RestOfSync(j, Next(j, s, ReadExpectation), deleting, listing, replies, newId, c.podOk(|l.attempted|));
               SameEffect(s, s', l, LocalSync(c, l, deleting, listing, replies).0)
  {
    hide IsListing, Claims, Errors, Matches;
  }

  // ---- With rollback it can go wrong -----------------------------------------

  /** One enabled step. */
  ghost predicate StepsTo(j: Job, s: State, step: Step, t: State) {
    Enabled(j, s, step) && Next(j, s, step) == t
  }

  lemma DecideOnNothing(j: Job, b: State, replies: seq<Option<Error>>)
    requires b.place.Listed? && |replies| == |b.place.listing|
    requires Claims(ManagerIn(j, b.place), b.place.listing, replies) == []
    requires Errors(ManagerIn(j, b.place), b.place.listing, replies) == []
    ensures StepsTo(j, b, Decide(replies), b.(place := Decided(b.place.needs, b.place.deleting, [])))
  {
    hide Claims, Errors, ManagerIn;
  }

  lemma CreateOutOfNothing(j: Job, c: State, newId: string)
    requires c.place == Decided(true, false, []) && newId !in c.ids
    ensures var d := c.(rid := newId, counter := Some(1), ids := c.ids + {newId}, place := Creating(newId));
            && StepsTo(j, c, Compose(newId), d)
            && StepsTo(j, d, CreatePod(true), d.(pods := c.pods + [NewPod(j, newId, |c.pods|)], place := Idle))
  {
    hide NewPod;
    assert FilterActive([]) == [] && Count([], Succeeded) == 0;
  }

  /** A state after a sync of an idle state `s` that claimed nothing and created a pod under a new id. */
  function WithNewPod(j: Job, s: State, newId: string): State {
    s.(rid := newId, counter := Some(1), ids := s.ids + {newId}, pods := s.pods + [NewPod(j, newId, |s.pods|)])
  }

  /** The five steps of a sync of a live job that claims nothing of what it lists. */
  ghost predicate CreatingSync(j: Job, s: State, listing: seq<Object>, replies: seq<Option<Error>>, newId: string) {
    var a := s.(place := Checked(true));
    var b := s.(place := Listed(true, false, s.rid, listing));
    var c := s.(place := Decided(true, false, []));
    var d := s.(rid := newId, counter := Some(1), ids := s.ids + {newId}, place := Creating(newId));
    && StepsTo(j, s, ReadExpectation, a) && StepsTo(j, a, List(false, listing), b) && StepsTo(j, b, Decide(replies), c)
    && StepsTo(j, c, Compose(newId), d) && StepsTo(j, d, CreatePod(true), WithNewPod(j, s, newId))
  }

  lemma CreatingSyncIsPossible(j: Job, s: State, listing: seq<Object>, replies: seq<Option<Error>>, newId: string)
    requires s.place == Idle && Satisfied(s.counter) && newId !in s.ids
    requires IsListing(j, s.pods, listing) && |replies| == |listing|
    requires Claims(LocalManager(j.name, j.uid, s.rid, false), listing, replies) == []
    requires Errors(LocalManager(j.name, j.uid, s.rid, false), listing, replies) == []
    ensures CreatingSync(j, s, listing, replies, newId)
  {
    hide IsListing, Claims, Errors, NewPod, LocalManager;
    var a := s.(place := Checked(true));
    var b := s.(place := Listed(true, false, s.rid, listing));
    var c := s.(place := Decided(true, false, []));
    assert StepsTo(j, s, ReadExpectation, a) && StepsTo(j, a, List(false, listing), b);
    DecideOnNothing(j, b, replies);
    CreateOutOfNothing(j, c, newId);
    hide StepsTo;
  }

  /** The guard of `AtMostOneActive` is needed. From nothing, a first sync creates a pod, which is delivered and
      observed; then the cached runtime id falls back once; and the next sync, which no longer claims the active pod,
      creates a second active one. */
  lemma RollbackAllowsTwoActive(j: Job) returns (s0: State, s1: State, s2: State, s3: State, s4: State, s5: State)
    ensures Initial(s0)
    ensures CreatingSync(j, s0, [], [], "a") && s1 == WithNewPod(j, s0, "a")
    ensures StepsTo(j, s1, Deliver(0, 1), s2) && StepsTo(j, s2, Observe(0), s3) && StepsTo(j, s3, Rollback(""), s4)
    ensures |s4.pods| == 1 && CreatingSync(j, s4, s4.pods[0].versions, [None], "b") && s5 == WithNewPod(j, s4, "b")
    ensures |s5.pods| == 2 && Alive(s5.pods[0]) && Alive(s5.pods[1])
  {
    NothingToClaim(World(LocalManager(j.name, j.uid, "", false), Server(map[], [], _ => Delivered)),
                   LocalManager(j.name, j.uid, "", false));
    hide Claims, Errors, CreatingSync, StepsTo, ReplicaLabels, ActAll;
    s0 := State("", None, {""}, [], Idle);
    CreatingSyncIsPossible(j, s0, [], [], "a");
    s1 := WithNewPod(j, s0, "a");
    s2, s3, s4 := ObservedThenRolledBack(j, s1);
    var shown := NewPod(j, "a", 0).versions[0];
    ForeignIsReleased(j, shown);
    assert s4.pods[0].versions == [shown];
    assert Lists([shown], 0);
    CreatingSyncIsPossible(j, s4, [shown], [None], "b");
    s5 := WithNewPod(j, s4, "b");
  }

  /** A created pod is delivered and observed, and then the cached runtime id falls back. */
  lemma ObservedThenRolledBack(j: Job, s1: State) returns (s2: State, s3: State, s4: State)
    requires s1.pods == [NewPod(j, "a", 0)] && s1.counter == Some(1) && s1.place == Idle
    ensures StepsTo(j, s1, Deliver(0, 1), s2) && StepsTo(j, s2, Observe(0), s3) && StepsTo(j, s3, Rollback(""), s4)
    ensures s4.pods == [NewPod(j, "a", 0).(seen := 1, first := 1, observed := true)]
    ensures s4 == s1.(rid := "", counter := Some(0), pods := s4.pods)
  {
    s2 := Next(j, s1, Deliver(0, 1));
    s3 := Next(j, s2, Observe(0));
    s4 := Next(j, s3, Rollback(""));
  }

  lemma ForeignIsReleased(j: Job, shown: Object)
    requires shown == NewPod(j, "a", 0).versions[0]
    ensures var m := LocalManager(j.name, j.uid, "", false);
            Claims(m, [shown], [None]) == [] && Errors(m, [shown], [None]) == []
  {
    var m := LocalManager(j.name, j.uid, "", false);
    assert RuntimeId in m.selector && !Matches(m.selector, shown.labels);
    assert [shown][..0] == [];
  }
}
