/** Claims that follow one another: the second claim of one selector finds nothing to do, and the worker and
    PS passes over one snapshot split it although each pass releases what the other one wants. */
module ClaimPasses {
  import opened Api
  import opened Ref
  import opened RefProperties

  // ---- A claim that succeeded is stable --------------------------------------

  ghost predicate Named(objects: map<string, Object>, objs: seq<Object>) {
    && (forall i | 0 <= i < |objs| :: objs[i].name in objects)
    && forall i, j | 0 <= i < j < |objs| :: objs[i].name != objs[j].name
  }

  /** The list as the server holds it now. */
  ghost function Refreshed(objects: map<string, Object>, objs: seq<Object>): (r: seq<Object>)
    requires forall i | 0 <= i < |objs| :: objs[i].name in objects
    ensures |r| == |objs|
  {
    seq(|objs|, i requires 0 <= i < |objs| => objects[objs[i].name])
  }

  function NoReplies(n: nat): (r: seq<Option<Error>>)
    ensures |r| == n && forall i | 0 <= i < n :: r[i] == None
  {
    seq(n, _ => None)
  }

  /** One successful action on an object as the server holds it leaves that object kept or ignored, and all others alone. */
  lemma ActSettles(w: World, o: Object)
    requires AllWellOwned(w.server.objects) && w.manager.controller.controller
    requires o.name in w.server.objects && w.server.objects[o.name] == o
    requires Act(w, o).1 == None
    ensures var after := Act(w, o).0.server.objects;
            && AllWellOwned(after) && after.Keys == w.server.objects.Keys
            && (forall n | n in after && n != o.name :: after[n] == w.server.objects[n])
            && after[o.name] == o.(owners := after[o.name].owners)
            && ActionFor(w.manager, after[o.name]) == if Claimed(w.manager, o, None) then Keep else Ignore
  {
    match ActionFor(w.manager, o)
    case Adopt => HandleChange(w.server.objects, AddOwner(o.name, o.uid, w.manager.controller));
    case Release => HandleChange(w.server.objects, DropOwner(o.name, o.uid, w.manager.controller.uid));
    case _ =>
  }

  /** An object before and after a successful claim. */
  ghost predicate Settled(m: Manager, before: Object, after: Object) {
    && after == before.(owners := after.owners)
    && ActionFor(m, after) == if Claimed(m, before, None) then Keep else Ignore
  }

  /** The state of a listing after its first `n` objects were claimed with success. */
  ghost predicate SettledUpTo(m: Manager, objs: seq<Object>, n: nat, before: map<string, Object>, after: map<string, Object>)
    requires n <= |objs|
  {
    && AllWellOwned(after) && after.Keys == before.Keys
    && (forall i | 0 <= i < |objs| :: objs[i].name in after)
    && (forall i | 0 <= i < n :: Settled(m, objs[i], after[objs[i].name]))
    && (forall i | n <= i < |objs| :: after[objs[i].name] == objs[i])
  }

  lemma SettleNext(m: Manager, objs: seq<Object>, k: nat, before: map<string, Object>, w: World)
    requires k < |objs| && Named(before, objs) && SettledUpTo(m, objs, k, before, w.server.objects)
    requires DecideAlike(m, w.manager) && w.manager.controller.controller && Act(w, objs[k]).1 == None
    ensures SettledUpTo(m, objs, k + 1, before, Act(w, objs[k]).0.server.objects)
  {
    ActSettles(w, objs[k]);
    var after := Act(w, objs[k]).0.server.objects;
    hide Act, AllWellOwned, ActionFor;
    assert Settled(m, objs[k], after[objs[k].name]) by {
      IdentityDecides(m, w.manager, objs[k]);
      IdentityDecides(m, w.manager, after[objs[k].name]);
    }
  }

  /** After claiming the first `n` objects with success, those are kept (if claimed) or ignored; the rest is untouched. */
  lemma {:induction false} ClaimSettles(w: World, objs: seq<Object>, n: nat)
    requires AllWellOwned(w.server.objects) && w.manager.controller.controller
    requires Named(w.server.objects, objs) && Refreshed(w.server.objects, objs) == objs
    requires n <= |objs| && forall i | 0 <= i < n :: ActAll(w, objs[..n]).1[i] == None
    ensures SettledUpTo(w.manager, objs, n, w.server.objects, ActAll(w, objs[..n]).0.server.objects)
  {
    if n == 0 {
      assert forall i | 0 <= i < |objs| :: Refreshed(w.server.objects, objs)[i] == objs[i];
    } else {
      hide AllWellOwned, Settled, SettledUpTo, Named, Refreshed, Act;
      var k := n - 1;
      var (w', replies) := ActAll(w, objs[..k]);
      assert objs[..n] == objs[..k] + [objs[k]];
      ActAllSnoc(w, objs[..k], objs[k]);
      hide ActAll;
      assert forall i | 0 <= i < k :: replies[i] == ActAll(w, objs[..n]).1[i];
      ClaimSettles(w, objs, k);
      assert ActAll(w, objs[..n]).1[k] == None;
      SettleNext(w.manager, objs, k, w.server.objects, w');
    }
  }

  /** A claim that finds only kept and ignored objects does nothing at all. */
  lemma {:induction false} QuietClaim(w: World, objs: seq<Object>)
    requires forall o | o in objs :: ActionFor(w.manager, o).Keep? || ActionFor(w.manager, o).Ignore?
    ensures ActAll(w, objs) == (w, NoReplies(|objs|))
  {
    if objs != [] {
      QuietClaim(w, objs[..|objs| - 1]);
      assert NoReplies(|objs|) == NoReplies(|objs| - 1) + [None];
    }
  }

  /** The claimed objects when every patch succeeds. */
  function Undisturbed(m: Manager, objs: seq<Object>): seq<Object> {
    Claims(m, objs, NoReplies(|objs|))
  }

  lemma UndisturbedSnoc(m: Manager, objs: seq<Object>, o: Object)
    ensures Undisturbed(m, objs + [o]) == Undisturbed(m, objs) + if Claimed(m, o, None) then [o] else []
  {
    assert (objs + [o])[..|objs|] == objs;
    assert NoReplies(|objs| + 1)[..|objs|] == NoReplies(|objs|);
  }

  lemma RefreshedSnoc(objects: map<string, Object>, objs: seq<Object>, o: Object)
    requires o.name in objects && forall i | 0 <= i < |objs| :: objs[i].name in objects
    ensures Refreshed(objects, objs + [o]) == Refreshed(objects, objs) + [objects[o.name]]
  {
  }

  /** The claimed objects are the same ones when the decisions are. */
  lemma {:induction false} SameClaims(m: Manager, objs: seq<Object>, objects: map<string, Object>)
    requires forall i | 0 <= i < |objs| :: objs[i].name in objects
    requires forall i | 0 <= i < |objs| :: Claimed(m, objs[i], None) == Claimed(m, objects[objs[i].name], None)
    ensures forall i | 0 <= i < |Undisturbed(m, objs)| :: Undisturbed(m, objs)[i].name in objects
    ensures Undisturbed(m, Refreshed(objects, objs)) == Refreshed(objects, Undisturbed(m, objs))
  {
    if objs != [] {
      var front, last := objs[..|objs| - 1], objs[|objs| - 1];
      assert objs == front + [last];
      SameClaims(m, front, objects);
      UndisturbedSnoc(m, front, last);
      RefreshedSnoc(objects, front, last);
      RefreshedSnoc(objects, Undisturbed(m, front), last);
      UndisturbedSnoc(m, Refreshed(objects, front), objects[last.name]);
    }
  }

  /** The fixpoint: claiming again with the same selector from a refreshed snapshot, by the same or by a new manager,
      sends no patch, makes no deletion check, reports no error, and returns the same objects. */
  lemma ClaimFixpoint(w: World, objs: seq<Object>, again: Manager)
    requires AllWellOwned(w.server.objects) && w.manager.controller.controller
    requires Named(w.server.objects, objs) && Refreshed(w.server.objects, objs) == objs
    requires ActAll(w, objs).1 == NoReplies(|objs|)
    requires SameIdentity(again, w.manager)
    ensures var after := ActAll(w, objs).0.server;
            var claims := Undisturbed(w.manager, objs);
            && Named(after.objects, objs)
            && (forall i | 0 <= i < |claims| :: claims[i].name in after.objects)
            && ActAll(World(again, after), Refreshed(after.objects, objs)) == (World(again, after), NoReplies(|objs|))
            && Undisturbed(again, Refreshed(after.objects, objs)) == Refreshed(after.objects, claims)
            && Errors(again, Refreshed(after.objects, objs), NoReplies(|objs|)) == []
  {
    hide ActAll, Refreshed, AllWellOwned, Claims, Errors;
    var after := ActAll(w, objs).0.server;
    assert objs[..|objs|] == objs;
    ClaimSettles(w, objs, |objs|);
    SettledDecisions(w.manager, again, objs, w.server.objects, after.objects);
    hide Named, SettledUpTo, Claimed, Settled;
    var refreshed := Refreshed(after.objects, objs);
    QuietClaim(World(again, after), refreshed);
    SameClaims(w.manager, objs, after.objects);
    SameOutcome(again, w.manager, refreshed, NoReplies(|objs|));
    QuietReports(again, refreshed);
  }

  lemma SettledDecisions(m: Manager, again: Manager, objs: seq<Object>, before: map<string, Object>, after: map<string, Object>)
    requires SettledUpTo(m, objs, |objs|, before, after) && Named(before, objs) && DecideAlike(again, m)
    ensures Named(after, objs)
    ensures forall i | 0 <= i < |objs| :: Claimed(m, objs[i], None) == Claimed(m, after[objs[i].name], None)
    ensures forall o | o in Refreshed(after, objs) :: ActionFor(again, o).Keep? || ActionFor(again, o).Ignore?
  {
    forall i | 0 <= i < |objs|
      ensures Claimed(m, objs[i], None) == Claimed(m, after[objs[i].name], None)
      ensures ActionFor(again, after[objs[i].name]).Keep? || ActionFor(again, after[objs[i].name]).Ignore?
    {
      assert Settled(m, objs[i], after[objs[i].name]);
      IdentityDecides(again, m, after[objs[i].name]);
    }
  }

  lemma QuietReports(m: Manager, objs: seq<Object>)
    requires forall o | o in objs :: ActionFor(m, o).Keep? || ActionFor(m, o).Ignore?
    ensures Errors(m, objs, NoReplies(|objs|)) == []
  {
    NoErrorIffAllForgiven(m, objs, NoReplies(|objs|));
  }

  // ---- Two passes over one snapshot ------------------------------------------

  /** Ours or nobody's. */
  predicate OursOrOrphan(m: Manager, o: Object) {
    var c := ControllerOf(o.owners);
    c.None? || c.value.uid == m.controller.uid
  }

  /** What a pass wants: ours or nobody's, and selected. */
  predicate Wanted(m: Manager, o: Object) {
    OursOrOrphan(m, o) && Matches(m.selector, o.labels)
  }

  function Select(m: Manager, objs: seq<Object>): seq<Object> {
    if objs == [] then []
    else Select(m, objs[..|objs| - 1]) + if Wanted(m, objs[|objs| - 1]) then [objs[|objs| - 1]] else []
  }

  ghost predicate AdoptionsSucceed(m: Manager, objs: seq<Object>, replies: seq<Option<Error>>)
    requires |objs| == |replies|
  {
    forall i | 0 <= i < |objs| && AdoptableOrphan(m, objs[i]) :: replies[i] == None
  }

  ghost predicate Live(objs: seq<Object>) {
    forall o | o in objs :: !o.deleting
  }

  /** A pass of a live job over live objects whose adoptions succeed claims what it wants. */
  lemma {:induction false} PassSelects(m: Manager, objs: seq<Object>, replies: seq<Option<Error>>)
    requires |objs| == |replies| && !m.deleting && Live(objs) && AdoptionsSucceed(m, objs, replies)
    ensures Claims(m, objs, replies) == Select(m, objs)
  {
    if objs != [] {
      PassSelects(m, objs[..|objs| - 1], replies[..|objs| - 1]);
      assert objs[|objs| - 1] in objs;
    }
  }

  lemma {:induction false} SelectMembers(m: Manager, objs: seq<Object>)
    ensures forall o :: o in Select(m, objs) <==> o in objs && Wanted(m, o)
  {
    if objs != [] {
      SelectMembers(m, objs[..|objs| - 1]);
    }
  }

  /** The worker and the PS pass over one snapshot return disjoint lists, together exactly the objects
      that are ours or nobody's and match either selector. */
  lemma PassesSplit(name: string, rid: string, worker: Manager, ps: Manager, objs: seq<Object>,
                    workerReplies: seq<Option<Error>>, psReplies: seq<Option<Error>>)
    requires worker.selector == ReplicaLabels(name, rid, Worker) && ps.selector == ReplicaLabels(name, rid, PS)
    requires worker.controller == ps.controller && !worker.deleting && !ps.deleting && Live(objs)
    requires |objs| == |workerReplies| == |psReplies|
    requires AdoptionsSucceed(worker, objs, workerReplies) && AdoptionsSucceed(ps, objs, psReplies)
    ensures var workers, pss := Claims(worker, objs, workerReplies), Claims(ps, objs, psReplies);
            && (forall o :: !(o in workers && o in pss))
            && forall o :: o in workers || o in pss <==>
                 && o in objs && OursOrOrphan(worker, o)
                 && (Matches(worker.selector, o.labels) || Matches(ps.selector, o.labels))
  {
    PassSelects(worker, objs, workerReplies);
    PassSelects(ps, objs, psReplies);
    SelectMembers(worker, objs);
    SelectMembers(ps, objs);
    forall o: Object ensures !(Matches(worker.selector, o.labels) && Matches(ps.selector, o.labels)) {
      assert JobType in worker.selector && JobType in ps.selector;
      assert worker.selector[JobType] == TypeName(Worker) && ps.selector[JobType] == TypeName(PS);
      if Matches(worker.selector, o.labels) && Matches(ps.selector, o.labels) {
        TypeNamesDiffer(Worker, PS);
        assert false;
      }
    }
  }

  /** Two views of the same objects that differ only in an ownership flapping between us and nobody. */
  ghost predicate Flapped(m: Manager, a: seq<Object>, b: seq<Object>) {
    |a| == |b| && forall i | 0 <= i < |a| ::
      a[i] == b[i].(owners := a[i].owners) && OursOrOrphan(m, a[i]) == OursOrOrphan(m, b[i])
  }

  /** What a pass selects does not depend on the flapping the passes cause. */
  lemma {:induction false} FlappingInvisible(m: Manager, a: seq<Object>, b: seq<Object>)
    requires Flapped(m, a, b)
    ensures Flapped(m, Select(m, a), Select(m, b))
  {
    if a != [] {
      FlappingInvisible(m, a[..|a| - 1], b[..|b| - 1]);
    }
  }

  // ---- Flapping never makes an adoption fail ---------------------------------

  /** The snapshot's objects that are ours or nobody's still exist and still are. */
  ghost predicate Ours(objects: map<string, Object>, objs: seq<Object>, m: Manager) {
    forall i | 0 <= i < |objs| && OursOrOrphan(m, objs[i]) ::
      objs[i].name in objects && objects[objs[i].name].uid == objs[i].uid && OursOrOrphan(m, objects[objs[i].name])
  }

  ghost predicate Quiet(s: Server) {
    forall n :: s.faults(n) == Delivered
  }

  lemma ActKeepsOurs(w: World, o: Object, objs: seq<Object>)
    requires AllWellOwned(w.server.objects) && w.manager.controller.controller
    requires Ours(w.server.objects, objs, w.manager)
    ensures AllWellOwned(Act(w, o).0.server.objects)
    ensures Ours(Act(w, o).0.server.objects, objs, w.manager)
  {
    var next := Next(w.server, Reconcile(w.manager, o)).objects;
    ReconcileChangesOwnOnly(w.server, w.manager, o);
    forall i | 0 <= i < |objs| && OursOrOrphan(w.manager, objs[i])
      ensures objs[i].name in next && next[objs[i].name].uid == objs[i].uid && OursOrOrphan(w.manager, next[objs[i].name])
    {
      var before, after := w.server.objects[objs[i].name].owners, next[objs[i].name].owners;
      assert OwnChange(OwnerUid(before), OwnerUid(after), w.manager.controller.uid);
    }
  }

  lemma {:induction false} ActAllKeepsOurs(w: World, objs: seq<Object>, others: seq<Object>)
    requires AllWellOwned(w.server.objects) && w.manager.controller.controller
    requires Ours(w.server.objects, others, w.manager) && Quiet(w.server)
    ensures var w' := ActAll(w, objs).0;
            AllWellOwned(w'.server.objects) && Ours(w'.server.objects, others, w'.manager) && Quiet(w'.server)
  {
    if objs != [] {
      var front, last := objs[..|objs| - 1], objs[|objs| - 1];
      ActAllKeepsOurs(w, front, others);
      var w' := ActAll(w, front).0;
      ActKeepsOurs(w', last, others);
      hide AllWellOwned, Ours, OursOrOrphan;
      OursIsIdentity(Act(w', last).0.server.objects, others, w'.manager, Act(w', last).0.manager);
    }
  }

  lemma OursIsIdentity(objects: map<string, Object>, objs: seq<Object>, a: Manager, b: Manager)
    requires a.controller == b.controller && Ours(objects, objs, a)
    ensures Ours(objects, objs, b)
  {
  }

  lemma OneAdoptionSucceeds(w: World, o: Object)
    requires AllWellOwned(w.server.objects) && w.manager.controller.controller && Quiet(w.server)
    requires o.name in w.server.objects && w.server.objects[o.name].uid == o.uid
    requires OursOrOrphan(w.manager, w.server.objects[o.name])
    requires CheckAnswer(w.manager) == None && ActionFor(w.manager, o) == Adopt
    ensures Act(w, o).1 == None
  {
    HandleChange(w.server.objects, AddOwner(o.name, o.uid, w.manager.controller));
    assert w.server.faults(|w.server.sent|) == Delivered;
  }

  /** Without network faults, a passed deletion check makes every adoption of an object that is ours or
      nobody's succeed: so the premise of `PassesSplit` holds for both passes of a sync, whatever they release. */
  lemma {:induction false} OwnAdoptionsSucceed(w: World, objs: seq<Object>)
    requires AllWellOwned(w.server.objects) && w.manager.controller.controller
    requires Ours(w.server.objects, objs, w.manager)
    requires Quiet(w.server) && CheckAnswer(w.manager) == None
    ensures AdoptionsSucceed(w.manager, objs, ActAll(w, objs).1)
  {
    if objs != [] {
      var k := |objs| - 1;
      var front, last := objs[..k], objs[k];
      assert objs == front + [last];
      assert Ours(w.server.objects, front, w.manager);
      OwnAdoptionsSucceed(w, front);
      CheckedOnDemand(w, front);
      ActAllKeepsOurs(w, front, objs);
      ActAllSnoc(w, front, last);
      var (w', replies) := ActAll(w, front);
      hide ActAll, Act, AllWellOwned, AnyAdoptable;
      IdentityDecides(w.manager, w'.manager, last);
      if ActionFor(w.manager, last) == Adopt {
        OneAdoptionSucceeds(w', last);
      }
      hide ActionFor;
    }
  }

  /** The server after rounds of a worker pass and a PS pass, each round over a snapshot of its own. */
  function AfterRounds(worker: Manager, ps: Manager, server: Server, rounds: seq<seq<Object>>): Server {
    if rounds == [] then server
    else
      var before, shown := AfterRounds(worker, ps, server, rounds[..|rounds| - 1]), rounds[|rounds| - 1];
      ActAll(World(ps, ActAll(World(worker, before), shown).0.server), shown).0.server
  }

  /** Two managers of one live job, whose deletion checks pass. */
  ghost predicate Twins(worker: Manager, ps: Manager) {
    && worker.controller == ps.controller && worker.controller.controller && !worker.deleting && !ps.deleting
    && CheckAnswer(worker) == None && CheckAnswer(ps) == None
  }

  ghost predicate Undisputed(s: Server, objs: seq<Object>, m: Manager) {
    AllWellOwned(s.objects) && Ours(s.objects, objs, m) && Quiet(s)
  }

  lemma PassKeepsUndisputed(m: Manager, s: Server, shown: seq<Object>, objs: seq<Object>, other: Manager)
    requires m.controller.controller && other.controller == m.controller && Undisputed(s, objs, m)
    ensures Undisputed(ActAll(World(m, s), shown).0.server, objs, other)
  {
    ActAllKeepsOurs(World(m, s), shown, objs);
    hide ActAll, AllWellOwned, Ours, Quiet;
    var w := ActAll(World(m, s), shown).0;
    OursIsIdentity(w.server.objects, objs, w.manager, other);
  }

  lemma {:induction false} RoundsKeepUndisputed(worker: Manager, ps: Manager, s: Server,
                                                rounds: seq<seq<Object>>, objs: seq<Object>)
    requires Twins(worker, ps) && Undisputed(s, objs, worker)
    ensures Undisputed(AfterRounds(worker, ps, s, rounds), objs, worker)
  {
    if rounds != [] {
      var front, shown := rounds[..|rounds| - 1], rounds[|rounds| - 1];
      RoundsKeepUndisputed(worker, ps, s, front, objs);
      hide Undisputed, ActAll;
      var s0 := AfterRounds(worker, ps, s, front);
      PassKeepsUndisputed(worker, s0, shown, objs, ps);
      PassKeepsUndisputed(ps, ActAll(World(worker, s0), shown).0.server, shown, objs, worker);
    }
  }

  /** One pass over a snapshot that differs from `objs` in flapping only. */
  lemma PassSelectsFlapped(m: Manager, s: Server, shown: seq<Object>, objs: seq<Object>)
    requires m.controller.controller && !m.deleting && CheckAnswer(m) == None
    requires Undisputed(s, objs, m) && Live(objs) && Flapped(m, shown, objs)
    ensures Flapped(m, Claims(m, shown, ActAll(World(m, s), shown).1), Select(m, objs))
  {
    assert Ours(s.objects, shown, m);
    assert Live(shown) by {
      forall o | o in shown ensures !o.deleting {
        var i :| 0 <= i < |shown| && shown[i] == o;
        assert objs[i] in objs;
      }
    }
    OwnAdoptionsSucceed(World(m, s), shown);
    hide ActAll, Undisputed, Live, Flapped;
    PassSelects(m, shown, ActAll(World(m, s), shown).1);
    FlappingInvisible(m, shown, objs);
  }

  lemma FlappedForBoth(a: Manager, b: Manager, shown: seq<Object>, objs: seq<Object>)
    requires a.controller == b.controller && Flapped(a, shown, objs)
    ensures Flapped(b, shown, objs)
  {
  }

  /** After any number of rounds on whatever snapshots, and on any snapshot of the objects in which ownership has
      flapped between us and nobody, the worker pass claims the same workers and the PS pass the same PS objects. */
  lemma FlappingNeverMatters(worker: Manager, ps: Manager, s: Server, rounds: seq<seq<Object>>,
                             shown: seq<Object>, objs: seq<Object>)
    requires Twins(worker, ps) && Undisputed(s, objs, worker) && Live(objs) && Flapped(worker, shown, objs)
    ensures var before := AfterRounds(worker, ps, s, rounds);
            var (w, replies) := ActAll(World(worker, before), shown);
            && Flapped(worker, Claims(worker, shown, replies), Select(worker, objs))
            && Flapped(ps, Claims(ps, shown, ActAll(World(ps, w.server), shown).1), Select(ps, objs))
  {
    hide AfterRounds, ActAll, Undisputed, Claims, Select, Flapped, CheckAnswer, Live;
    RoundsKeepUndisputed(worker, ps, s, rounds, objs);
    var before := AfterRounds(worker, ps, s, rounds);
    PassSelectsFlapped(worker, before, shown, objs);
    PassKeepsUndisputed(worker, before, shown, objs, ps);
    FlappedForBoth(worker, ps, shown, objs);
    PassSelectsFlapped(ps, ActAll(World(worker, before), shown).0.server, shown, objs);
  }

  // ---- Listings --------------------------------------------------------------

  predicate LabelledFor(job: string, labels: Labels) {
    TFJobName in labels && labels[TFJobName] == job
  }

  ghost predicate DistinctUids(objs: seq<Object>) {
    forall i, j | 0 <= i < j < |objs| :: objs[i].uid != objs[j].uid
  }

  function Uids(objs: seq<Object>): set<Uid> {
    set o | o in objs :: o.uid
  }

  /** No object is claimed twice. */
  lemma {:induction false} ClaimsAreDistinct(m: Manager, objs: seq<Object>, replies: seq<Option<Error>>)
    requires |objs| == |replies| && DistinctUids(objs)
    ensures DistinctUids(Claims(m, objs, replies))
  {
    if objs != [] {
      var k := |objs| - 1;
      var front := Claims(m, objs[..k], replies[..k]);
      ClaimsAreDistinct(m, objs[..k], replies[..k]);
      ClaimedExactly(m, objs[..k], replies[..k]);
      hide Claimed;
      forall j | 0 <= j < |front| ensures front[j].uid != objs[k].uid {
        assert front[j] in front;
        var i :| 0 <= i < k && objs[..k][i] == front[j];
        assert objs[i].uid != objs[k].uid;
      }
    }
  }

  lemma {:induction false} DistinctSize(objs: seq<Object>)
    requires DistinctUids(objs)
    ensures |Uids(objs)| == |objs|
  {
    if objs != [] {
      var front, last := objs[..|objs| - 1], objs[|objs| - 1];
      DistinctSize(front);
      assert objs == front + [last];
      assert Uids(objs) == Uids(front) + {last.uid};
    }
  }
}
