/** What the claim protocol guarantees: over all runs for the ownership of objects, and per claim for
    the returned list, the errors, the number of deletion checks and the stability of the outcome. */
module RefProperties {
  import opened Api
  import opened Ref

  // ---- What one claim returns ------------------------------------------------

  /** Membership in the result, both ways, and the order: claiming more objects only appends. */
  lemma {:induction false} ClaimedExactly(m: Manager, objs: seq<Object>, replies: seq<Option<Error>>)
    requires |objs| == |replies|
    ensures forall o :: o in Claims(m, objs, replies)
                <==> exists i :: 0 <= i < |objs| && objs[i] == o && Claimed(m, objs[i], replies[i])
    ensures forall n | 0 <= n <= |objs| :: Claims(m, objs[..n], replies[..n]) <= Claims(m, objs, replies)
  {
    hide Claimed;
    if objs != [] {
      var k := |objs| - 1;
      ClaimedExactly(m, objs[..k], replies[..k]);
      forall n | 0 <= n <= |objs| ensures Claims(m, objs[..n], replies[..n]) <= Claims(m, objs, replies) {
        if n == |objs| {
          assert objs[..n] == objs && replies[..n] == replies;
        } else {
          assert objs[..k][..n] == objs[..n] && replies[..k][..n] == replies[..n];
        }
      }
    }
  }

  /** Whose an object is, and whether the job may take it: the wording of the protocol's documentation. */
  predicate OwnedBy(m: Manager, o: Object) {
    OwnerUid(o.owners) == Some(m.controller.uid)
  }

  predicate LiveOrphan(m: Manager, o: Object) {
    OwnerUid(o.owners) == None && !o.deleting && !m.deleting
  }

  predicate Selected(m: Manager, o: Object) {
    Matches(m.selector, o.labels)
  }

  predicate AdoptableOrphan(m: Manager, o: Object) {
    Selected(m, o) && LiveOrphan(m, o)
  }

  /** The objects that match and are already owned, or are live orphans whose adoption succeeded. */
  function Filtered(m: Manager, objs: seq<Object>, replies: seq<Option<Error>>): seq<Object>
    requires |objs| == |replies|
  {
    if objs == [] then []
    else
      var mine := OwnedBy(m, objs[0]) || (LiveOrphan(m, objs[0]) && replies[0] == None);
      (if Selected(m, objs[0]) && mine then [objs[0]] else []) + Filtered(m, objs[1..], replies[1..])
  }

  /** A reconciliation was due and failed: an adoption other than with 404, or a release other than with 404 or 422. */
  predicate Fails(m: Manager, o: Object, reply: Option<Error>) {
    && reply.Some? && reply != Some(NotFound)
    && (if Selected(m, o) then LiveOrphan(m, o) else OwnedBy(m, o) && !m.deleting && reply != Some(Invalid))
  }

  lemma {:induction false} FilteredSnoc(m: Manager, objs: seq<Object>, replies: seq<Option<Error>>,
                                        o: Object, reply: Option<Error>)
    requires |objs| == |replies|
    ensures Filtered(m, objs + [o], replies + [reply]) == Filtered(m, objs, replies) + Filtered(m, [o], [reply])
  {
    if objs == [] {
      assert [] + [o] == [o] && [] + [reply] == [reply];
    } else {
      hide Selected, OwnedBy, LiveOrphan;
      assert (objs + [o])[1..] == objs[1..] + [o] && (replies + [reply])[1..] == replies[1..] + [reply];
      FilteredSnoc(m, objs[1..], replies[1..], o, reply);
    }
  }

  lemma FilteredOne(m: Manager, o: Object, reply: Option<Error>)
    ensures Filtered(m, [o], [reply]) == if Claimed(m, o, reply) then [o] else []
  {
    assert Filtered(m, [], []) == [];
  }

  /** `ClaimServices` refines the filter: the same objects in the same order. */
  lemma {:induction false} ClaimsRefineFilter(m: Manager, objs: seq<Object>, replies: seq<Option<Error>>)
    requires |objs| == |replies|
    ensures Claims(m, objs, replies) == Filtered(m, objs, replies)
  {
    if objs != [] {
      hide Claimed, Filtered;
      var k := |objs| - 1;
      ClaimsRefineFilter(m, objs[..k], replies[..k]);
      assert objs == objs[..k] + [objs[k]] && replies == replies[..k] + [replies[k]];
      FilteredSnoc(m, objs[..k], replies[..k], objs[k], replies[k]);
      FilteredOne(m, objs[k], replies[k]);
    } else {
      assert Filtered(m, objs, replies) == [];
    }
  }

  ghost predicate NoFailure(m: Manager, objs: seq<Object>, replies: seq<Option<Error>>)
    requires |objs| == |replies|
  {
    forall i | 0 <= i < |objs| :: !Fails(m, objs[i], replies[i])
  }

  lemma NoFailureSnoc(m: Manager, objs: seq<Object>, replies: seq<Option<Error>>)
    requires |objs| == |replies| > 0
    ensures var k := |objs| - 1;
            NoFailure(m, objs, replies) <==> NoFailure(m, objs[..k], replies[..k]) && !Fails(m, objs[k], replies[k])
  {
    hide Fails;
    var k := |objs| - 1;
    assert forall i | 0 <= i < k :: objs[..k][i] == objs[i] && replies[..k][i] == replies[i];
  }

  lemma ReportedIffFailed(m: Manager, o: Object, reply: Option<Error>)
    ensures Reported(m, o, reply).Some? <==> Fails(m, o, reply)
  {
  }

  /** The aggregate error is nil exactly when no reconciliation failed with an error that counts. */
  lemma {:induction false} NoErrorIffAllForgiven(m: Manager, objs: seq<Object>, replies: seq<Option<Error>>)
    requires |objs| == |replies|
    ensures Errors(m, objs, replies) == [] <==> NoFailure(m, objs, replies)
  {
    if objs != [] {
      hide Reported, Fails, NoFailure;
      var k := |objs| - 1;
      NoErrorIffAllForgiven(m, objs[..k], replies[..k]);
      ReportedIffFailed(m, objs[k], replies[k]);
      NoFailureSnoc(m, objs, replies);
    }
  }

  // ---- Ownership over all runs -----------------------------------------------

  function OwnerUid(owners: seq<OwnerRef>): Option<Uid> {
    var r := ControllerOf(owners);
    if r.Some? then Some(r.value.uid) else None
  }

  /** At most one controller, and no uid listed twice. */
  ghost predicate WellOwned(owners: seq<OwnerRef>) {
    OneController(owners) && forall i, j | 0 <= i < j < |owners| :: owners[i].uid != owners[j].uid
  }

  ghost predicate AllWellOwned(objects: map<string, Object>) {
    forall n | n in objects :: WellOwned(objects[n].owners)
  }

  /** Any manager reconciles any object as it remembers it, or the environment creates, edits or removes one. */
  datatype Event =
    | Reconcile(m: Manager, seen: Object)
    | Create(object: Object)
    | Edit(name: string, labels: Labels, deleting: bool, phase: PodPhase)
    | Remove(name: string)

  ghost predicate Legal(e: Event) {
    match e
    case Reconcile(m, _) => m.controller.controller
    case Create(o) => WellOwned(o.owners)
    case _ => true
  }

  function Next(s: Server, e: Event): Server {
    match e
    case Reconcile(m, seen) => Act(World(m, s), seen).0.server
    case Create(o) => if o.name in s.objects then s else s.(objects := s.objects[o.name := o])
    case Edit(n, labels, deleting, phase) =>
      if n !in s.objects then s
      else s.(objects := s.objects[n := s.objects[n].(labels := labels, deleting := deleting, phase := phase)])
    case Remove(n) => s.(objects := s.objects - {n})
  }

  function Run(s: Server, events: seq<Event>): Server {
    if events == [] then s else Next(Run(s, events[..|events| - 1]), events[|events| - 1])
  }

  lemma {:induction false} MergeOwnerMembers(owners: seq<OwnerRef>, r: OwnerRef)
    ensures r in MergeOwner(owners, r)
    ensures forall x | x in owners && x.uid != r.uid :: x in MergeOwner(owners, r)
    ensures forall x | x in MergeOwner(owners, r) :: x == r || x in owners
  {
    if owners != [] {
      MergeOwnerMembers(owners[1..], r);
    }
  }

  lemma {:induction false} WithoutMembers(owners: seq<OwnerRef>, uid: Uid)
    ensures forall x :: x in Without(owners, uid) <==> x in owners && x.uid != uid
  {
    if owners != [] {
      WithoutMembers(owners[1..], uid);
    }
  }

  /** A list is well owned when its head clashes with nothing in a well-owned tail. */
  lemma WellOwnedCons(o: OwnerRef, rest: seq<OwnerRef>)
    ensures WellOwned([o] + rest) <==>
              WellOwned(rest) && forall x | x in rest :: x.uid != o.uid && !(x.controller && o.controller)
  {
    var all := [o] + rest;
    assert forall i | 0 <= i < |rest| :: all[i + 1] == rest[i];
    if WellOwned(all) {
      assert forall i, j | 0 <= i < j < |rest| :: all[i + 1] == rest[i] && all[j + 1] == rest[j];
      forall x | x in rest ensures x.uid != o.uid && !(x.controller && o.controller) {
        var j :| 0 <= j < |rest| && rest[j] == x;
        assert all[0] == o && all[j + 1] == x;
      }
    }
  }

  lemma {:induction false} WithoutWellOwned(owners: seq<OwnerRef>, uid: Uid)
    requires WellOwned(owners)
    ensures WellOwned(Without(owners, uid))
  {
    if owners != [] {
      assert owners == [owners[0]] + owners[1..];
      WellOwnedCons(owners[0], owners[1..]);
      WithoutWellOwned(owners[1..], uid);
      WithoutMembers(owners[1..], uid);
      WellOwnedCons(owners[0], Without(owners[1..], uid));
    }
  }

  /** Adding a controller keeps a list well owned exactly when nobody else controls the object. */
  lemma {:induction false} MergeOwnerWellOwned(owners: seq<OwnerRef>, r: OwnerRef)
    requires WellOwned(owners) && r.controller
    ensures OneController(MergeOwner(owners, r)) ==> WellOwned(MergeOwner(owners, r))
    ensures OneController(MergeOwner(owners, r)) <==> forall x | x in owners && x.controller :: x.uid == r.uid
  {
    MergeOwnerMembers(owners, r);
    if owners == [] {
    } else if owners[0].uid == r.uid {
      assert owners == [owners[0]] + owners[1..];
      WellOwnedCons(owners[0], owners[1..]);
      WellOwnedCons(r, owners[1..]);
      if x :| x in owners[1..] && x.controller {
        TwoControllers(MergeOwner(owners, r), r, x);
      }
    } else {
      assert owners == [owners[0]] + owners[1..];
      WellOwnedCons(owners[0], owners[1..]);
      MergeOwnerWellOwned(owners[1..], r);
      MergeOwnerMembers(owners[1..], r);
      WellOwnedCons(owners[0], MergeOwner(owners[1..], r));
      if x :| x in owners && x.controller && x.uid != r.uid {
        TwoControllers(MergeOwner(owners, r), r, x);
      }
    }
  }

  lemma TwoControllers(owners: seq<OwnerRef>, a: OwnerRef, b: OwnerRef)
    requires a in owners && b in owners && a != b && a.controller && b.controller
    ensures !OneController(owners)
  {
    var i :| 0 <= i < |owners| && owners[i] == a;
    var j :| 0 <= j < |owners| && owners[j] == b;
    assert i < j || j < i;
  }

  lemma OnlyOneController(owners: seq<OwnerRef>, a: OwnerRef, b: OwnerRef)
    requires OneController(owners) && a in owners && b in owners && a.controller && b.controller
    ensures a == b
  {
    var i :| 0 <= i < |owners| && owners[i] == a;
    var j :| 0 <= j < |owners| && owners[j] == b;
    assert !(i < j) && !(j < i);
  }

  /** What a manager may do to the controller of an object: take it from nobody, or give up its own. */
  ghost predicate OwnChange(before: Option<Uid>, after: Option<Uid>, me: Uid) {
    before == after || (before == None && after == Some(me)) || (before == Some(me) && after == None)
  }

  /** One patch of a controller, handled by the server. An adoption succeeds iff nobody else is in control. */
  lemma HandleChange(objects: map<string, Object>, p: Patch)
    requires AllWellOwned(objects)
    requires p.AddOwner? ==> p.owner.controller
    ensures var (after, reply) := Handle(objects, p);
            var me := if p.AddOwner? then p.owner.uid else p.ownerUid;
            && AllWellOwned(after) && after.Keys == objects.Keys
            && (forall k | k in objects && k != p.name :: after[k] == objects[k])
            && (p.name in objects ==>
                  && after[p.name] == objects[p.name].(owners := after[p.name].owners)
                  && OwnChange(OwnerUid(objects[p.name].owners), OwnerUid(after[p.name].owners), me)
                  && (reply == None ==> OwnerUid(after[p.name].owners) !=
                                        if p.AddOwner? then None else Some(me)))
    ensures p.AddOwner? && p.name in objects && objects[p.name].uid == p.objUid ==>
              var before, (after, reply) := OwnerUid(objects[p.name].owners), Handle(objects, p);
              && (reply == None <==> before == None || before == Some(p.owner.uid))
              && (reply == None ==> OwnerUid(after[p.name].owners) == Some(p.owner.uid))
  {
    if p.name in objects {
      var owners := objects[p.name].owners;
      match p
      case AddOwner(_, _, r) =>
        MergeOwnerWellOwned(owners, r);
        MergeOwnerMembers(owners, r);
        if OneController(MergeOwner(owners, r)) {
          OnlyOneController(MergeOwner(owners, r), r, ControllerOf(MergeOwner(owners, r)).value);
        }
        if x :| x in owners && x.controller && x.uid != r.uid {
          OnlyOneController(owners, x, ControllerOf(owners).value);
        }
      case DropOwner(_, _, uid) =>
        WithoutWellOwned(owners, uid);
        WithoutMembers(owners, uid);
        var c := ControllerOf(owners);
        var d := ControllerOf(Without(owners, uid));
        if d.Some? {
          OnlyOneController(owners, c.value, d.value);
        }
    }
  }

  /** The objects of two server states differ at most in who controls them, and there only by `me`'s doing. */
  ghost predicate OnlyOwnChanges(before: map<string, Object>, after: map<string, Object>, me: Uid) {
    && before.Keys == after.Keys
    && forall n | n in after ::
         && after[n] == before[n].(owners := after[n].owners)
         && OwnChange(OwnerUid(before[n].owners), OwnerUid(after[n].owners), me)
  }

  lemma SendChange(s: Server, p: Patch, me: Uid)
    requires AllWellOwned(s.objects)
    requires match p case AddOwner(_, _, r) => r.controller && me == r.uid case DropOwner(_, _, u) => me == u
    ensures AllWellOwned(Send(s, p).0.objects)
    ensures OnlyOwnChanges(s.objects, Send(s, p).0.objects, me)
  {
    HandleChange(s.objects, p);
    var after := Handle(s.objects, p).0;
    assert Send(s, p).0.objects == s.objects || Send(s, p).0.objects == after;
    assert forall n | n in after && n != p.name :: after[n] == s.objects[n];
  }

  /** Ownership safety of one step: whatever a manager remembers, its reconciliation keeps every object with
      at most one controller and changes control only from nobody to itself or from itself to nobody. */
  lemma ReconcileChangesOwnOnly(s: Server, m: Manager, seen: Object)
    requires AllWellOwned(s.objects) && m.controller.controller
    ensures AllWellOwned(Next(s, Reconcile(m, seen)).objects)
    ensures OnlyOwnChanges(s.objects, Next(s, Reconcile(m, seen)).objects, m.controller.uid)
  {
    match ActionFor(m, seen)
    case Adopt => SendChange(s, AddOwner(seen.name, seen.uid, m.controller), m.controller.uid);
    case Release => SendChange(s, DropOwner(seen.name, seen.uid, m.controller.uid), m.controller.uid);
    case _ =>
  }

  /** Over every run of any number of managers with arbitrarily stale views, no object has two controllers. */
  lemma {:induction false} NeverTwoControllers(s: Server, events: seq<Event>)
    requires AllWellOwned(s.objects)
    requires forall e | e in events :: Legal(e)
    ensures AllWellOwned(Run(s, events).objects)
  {
    if events != [] {
      var front, last := events[..|events| - 1], events[|events| - 1];
      assert forall e | e in front :: e in events;
      NeverTwoControllers(s, front);
      assert last in events;
      if last.Reconcile? {
        ReconcileChangesOwnOnly(Run(s, front), last.m, last.seen);
      }
    }
  }

  // ---- The deletion check ----------------------------------------------------

  /** What the deletion check says the next time an adoption asks: the error it has remembered, or else the answer of
      one uncached read. */
  function CheckAnswer(m: Manager): Option<Error> {
    if m.once || m.canAdoptFunc.None? then m.canAdoptErr else m.canAdoptFunc.value(m.checks)
  }

  /** Asking makes the manager remember the answer, so that it never changes. */
  lemma AnswerIsRemembered(m: Manager)
    ensures Checked(m).once && Checked(m).canAdoptErr == CheckAnswer(m) == CheckAnswer(Checked(m))
  {
  }

  /** Some object of the list is a live orphan that the selector matches. */
  ghost predicate AnyAdoptable(m: Manager, objs: seq<Object>) {
    exists i :: 0 <= i < |objs| && AdoptableOrphan(m, objs[i])
  }

  /** `canAdopt` is evaluated when the first adoption is attempted, and never again. */
  lemma {:induction false} CheckedOnDemand(w: World, objs: seq<Object>)
    ensures var m := ActAll(w, objs).0.manager;
            m == if AnyAdoptable(w.manager, objs) then Checked(w.manager) else w.manager
  {
    if objs != [] {
      var front, last := objs[..|objs| - 1], objs[|objs| - 1];
      CheckedOnDemand(w, front);
      IdentityDecides(w.manager, ActAll(w, front).0.manager, last);
      assert AnyAdoptable(w.manager, objs) <==> AnyAdoptable(w.manager, front) || AdoptableOrphan(w.manager, last) by {
        if AnyAdoptable(w.manager, front) {
          var i :| 0 <= i < |front| && AdoptableOrphan(w.manager, front[i]);
          assert objs[i] == front[i];
        }
        if AdoptableOrphan(w.manager, last) {
          assert objs[|objs| - 1] == last;
        }
      }
    }
  }

  /** One manager claiming several lists. */
  function ActLists(w: World, lists: seq<seq<Object>>): World {
    if lists == [] then w else ActAll(ActLists(w, lists[..|lists| - 1]), lists[|lists| - 1]).0
  }

  /** Over any sequence of claims a fresh manager calls `canAdoptFunc` at most once,
      and exactly once iff some object had to be adopted. */
  lemma {:induction false} AtMostOneCheck(w: World, lists: seq<seq<Object>>)
    requires !w.manager.once
    ensures var m := ActLists(w, lists).manager;
            && SameIdentity(m, w.manager)
            && m.once == (exists k :: 0 <= k < |lists| && AnyAdoptable(w.manager, lists[k]))
            && m.checks == w.manager.checks + if m.once && m.canAdoptFunc.Some? then 1 else 0
  {
    if lists != [] {
      var front, last := lists[..|lists| - 1], lists[|lists| - 1];
      AtMostOneCheck(w, front);
      CheckedOnDemand(ActLists(w, front), last);
      assert AnyAdoptable(w.manager, last) <==> AnyAdoptable(ActLists(w, front).manager, last);
      assert forall k | 0 <= k < |front| :: lists[k] == front[k];
    }
  }

  lemma FailedCheckSendsNoAdoption(w: World, o: Object, e: Error)
    requires CheckAnswer(w.manager) == Some(e)
    ensures var (w', reply) := Act(w, o);
            && (w'.server.sent == w.server.sent
                || exists r :: w'.server.sent == w.server.sent + [r] && r.0.DropOwner?)
            && (ActionFor(w.manager, o) == Adopt ==> reply == Some(CantAdopt(e)))
  {
    hide ActionFor, Handle;
    var s := Act(w, o).0.server.sent;
    if ActionFor(w.manager, o) == Release {
      assert s == w.server.sent + [s[|w.server.sent|]];
    }
  }

  /** When the deletion check fails, no adoption patch is sent and every adoptable orphan
      contributes the wrapped error, even if the check failed with 404. */
  lemma {:induction false} FailedCheckAdoptsNothing(w: World, objs: seq<Object>, e: Error)
    requires CheckAnswer(w.manager) == Some(e)
    ensures var (w', replies) := ActAll(w, objs);
            && w.server.sent <= w'.server.sent
            && (forall k | |w.server.sent| <= k < |w'.server.sent| :: w'.server.sent[k].0.DropOwner?)
            && forall i | 0 <= i < |objs| && AdoptableOrphan(w.manager, objs[i]) ::
                 Reported(w.manager, objs[i], replies[i]) == Some(CantAdopt(e))
  {
    if objs != [] {
      var front, last := objs[..|objs| - 1], objs[|objs| - 1];
      FailedCheckAdoptsNothing(w, front, e);
      CheckedOnDemand(w, front);
      var w' := ActAll(w, front).0;
      hide AnyAdoptable;
      IdentityDecides(w.manager, w'.manager, last);
      FailedCheckSendsNoAdoption(w', last, e);
      hide Act, ActionFor, Checked;
    }
  }
}
