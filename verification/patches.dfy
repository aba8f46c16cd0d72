/** What a claim sends, what it reports, and what comes of it on a server that loses nothing. Everything is stated from
    the fields of the manager, of the objects and of the server. */
module Patches {
  import opened Api
  import opened Ref
  import opened RefProperties
  import opened ClaimPasses

  // ---- What is sent ----------------------------------------------------------

  predicate Releasable(m: Manager, o: Object) {
    OwnedBy(m, o) && !Selected(m, o) && !m.deleting
  }

  /** The patch one object calls for: to adopt a live orphan that the selector matches, unless the deletion check says
      no; to release an object that is ours and that the selector does not match. Both name the object and its uid. */
  function DuePatch(m: Manager, o: Object): seq<Patch> {
    if AdoptableOrphan(m, o) && CheckAnswer(m) == None then [AddOwner(o.name, o.uid, m.controller)]
    else if Releasable(m, o) then [DropOwner(o.name, o.uid, m.controller.uid)]
    else []
  }

  function DuePatches(m: Manager, objs: seq<Object>): seq<Patch> {
    if objs == [] then [] else DuePatch(m, objs[0]) + DuePatches(m, objs[1..])
  }

  /** The patches of a log of requests and answers. */
  function PatchesOf(log: seq<(Patch, Option<Error>)>): (r: seq<Patch>)
    ensures |r| == |log| && forall k | 0 <= k < |r| :: r[k] == log[k].0
  {
    seq(|log|, k requires 0 <= k < |log| => log[k].0)
  }

  lemma {:induction false} DuePatchesSnoc(m: Manager, objs: seq<Object>, o: Object)
    ensures DuePatches(m, objs + [o]) == DuePatches(m, objs) + DuePatch(m, o)
  {
    hide DuePatch;
    if objs == [] {
      assert [] + [o] == [o] && [o][1..] == [];
    } else {
      assert (objs + [o])[1..] == objs[1..] + [o];
      DuePatchesSnoc(m, objs[1..], o);
    }
  }

  lemma ActSends(w: World, o: Object)
    ensures var before, after := w.server.sent, Act(w, o).0.server.sent;
            before <= after && PatchesOf(after[|before|..]) == DuePatch(w.manager, o)
  {
    hide Handle, Matches;
  }

  lemma SameDuePatch(a: Manager, b: Manager, o: Object)
    requires DecideAlike(a, b) && CheckAnswer(a) == CheckAnswer(b)
    ensures DuePatch(a, o) == DuePatch(b, o)
  {
  }

  /** A claim sends exactly the patches its objects call for, in order, each once. */
  lemma {:induction false} SentExactly(w: World, objs: seq<Object>)
    ensures var before, after := w.server.sent, ActAll(w, objs).0.server.sent;
            before <= after && PatchesOf(after[|before|..]) == DuePatches(w.manager, objs)
  {
    if objs != [] {
      var front, last := objs[..|objs| - 1], objs[|objs| - 1];
      assert objs == front + [last];
      SentExactly(w, front);
      CheckedOnDemand(w, front);
      AnswerIsRemembered(w.manager);
      var w' := ActAll(w, front).0;
      ActAllSnoc(w, front, last);
      hide Act, ActAll, DuePatch, CheckAnswer, Checked, AnyAdoptable;
      ActSends(w', last);
      SameDuePatch(w.manager, w'.manager, last);
      DuePatchesSnoc(w.manager, front, last);
      LogInTwo(w.server.sent, w'.server.sent, Act(w', last).0.server.sent);
    }
  }

  lemma LogInTwo(a: seq<(Patch, Option<Error>)>, b: seq<(Patch, Option<Error>)>, c: seq<(Patch, Option<Error>)>)
    requires a <= b <= c
    ensures a <= c && PatchesOf(c[|a|..]) == PatchesOf(b[|a|..]) + PatchesOf(c[|b|..])
  {
  }

  /** The manager of a job that is marked as deleted sends nothing, whatever it is shown. */
  lemma {:induction false} DeletedSendsNothing(w: World, objs: seq<Object>)
    requires w.manager.deleting
    ensures ActAll(w, objs) == (w, NoReplies(|objs|))
    ensures Errors(w.manager, objs, NoReplies(|objs|)) == []
  {
    forall o | o in objs ensures ActionFor(w.manager, o).Keep? || ActionFor(w.manager, o).Ignore? {
    }
    QuietClaim(w, objs);
    QuietReports(w.manager, objs);
  }

  // ---- What is reported ------------------------------------------------------

  /** One error for each reconciliation that failed with one that counts, in order: the answer it received. */
  function FailedReplies(m: Manager, objs: seq<Object>, replies: seq<Option<Error>>): seq<Error>
    requires |objs| == |replies|
  {
    if objs == [] then []
    else (if Fails(m, objs[0], replies[0]) then [replies[0].value] else []) + FailedReplies(m, objs[1..], replies[1..])
  }

  lemma {:induction false} FailedRepliesSnoc(m: Manager, objs: seq<Object>, replies: seq<Option<Error>>,
                                             o: Object, reply: Option<Error>)
    requires |objs| == |replies|
    ensures FailedReplies(m, objs + [o], replies + [reply])
         == FailedReplies(m, objs, replies) + if Fails(m, o, reply) then [reply.value] else []
  {
    if objs == [] {
      assert [] + [o] == [o] && [] + [reply] == [reply] && [o][1..] == [] && [reply][1..] == [];
    } else {
      assert (objs + [o])[1..] == objs[1..] + [o] && (replies + [reply])[1..] == replies[1..] + [reply];
      FailedRepliesSnoc(m, objs[1..], replies[1..], o, reply);
    }
  }

  lemma ReportedIsReply(m: Manager, o: Object, reply: Option<Error>)
    ensures Reported(m, o, reply) == if Fails(m, o, reply) then reply else None
  {
  }

  /** The error list of a claim holds exactly these errors. */
  lemma {:induction false} ErrorsAreFailedReplies(m: Manager, objs: seq<Object>, replies: seq<Option<Error>>)
    requires |objs| == |replies|
    ensures Errors(m, objs, replies) == FailedReplies(m, objs, replies)
  {
    if objs != [] {
      hide Fails, Reported;
      var k := |objs| - 1;
      ErrorsAreFailedReplies(m, objs[..k], replies[..k]);
      assert objs == objs[..k] + [objs[k]] && replies == replies[..k] + [replies[k]];
      FailedRepliesSnoc(m, objs[..k], replies[..k], objs[k], replies[k]);
      ReportedIsReply(m, objs[k], replies[k]);
      FailedHasReply(m, objs[k], replies[k]);
    }
  }

  lemma FailedHasReply(m: Manager, o: Object, reply: Option<Error>)
    ensures Fails(m, o, reply) ==> reply.Some?
  {
  }

  // ---- What comes of it ------------------------------------------------------

  /** Releasing an object that we control succeeds: afterwards nobody controls it, and of its owners only ours is gone. */
  lemma OneReleaseSucceeds(w: World, o: Object)
    requires AllWellOwned(w.server.objects) && w.manager.controller.controller && Quiet(w.server)
    requires o.name in w.server.objects && w.server.objects[o.name].uid == o.uid
    requires OwnerUid(w.server.objects[o.name].owners) == Some(w.manager.controller.uid) && Releasable(w.manager, o)
    ensures Act(w, o).1 == None
    ensures var before, after := w.server.objects, Act(w, o).0.server.objects;
            && after.Keys == before.Keys && (forall n | n in after && n != o.name :: after[n] == before[n])
            && after[o.name] == before[o.name].(owners := after[o.name].owners)
            && OwnerUid(after[o.name].owners) == None
            && forall r :: r in after[o.name].owners <==> r in before[o.name].owners && r.uid != w.manager.controller.uid
  {
    HandleChange(w.server.objects, DropOwner(o.name, o.uid, w.manager.controller.uid));
    WithoutMembers(w.server.objects[o.name].owners, w.manager.controller.uid);
    assert w.server.faults(|w.server.sent|) == Delivered;
  }

  /** Who controls an object after a pass was shown `o` and the server had `before` in control. */
  function ControlAfter(m: Manager, o: Object, before: Option<Uid>): Option<Uid> {
    if AdoptableOrphan(m, o) && CheckAnswer(m) == None && before == None then Some(m.controller.uid)
    else if Releasable(m, o) && before == Some(m.controller.uid) then None
    else before
  }

  /** The objects of a list exist under their names and uids, and no name is listed twice. */
  ghost predicate Present(objects: map<string, Object>, objs: seq<Object>) {
    && (forall i | 0 <= i < |objs| :: objs[i].name in objects && objects[objs[i].name].uid == objs[i].uid)
    && forall i, j | 0 <= i < j < |objs| :: objs[i].name != objs[j].name
  }

  lemma QuietStep(w: World, o: Object)
    requires AllWellOwned(w.server.objects) && w.manager.controller.controller && Quiet(w.server)
    requires o.name in w.server.objects && w.server.objects[o.name].uid == o.uid
    ensures var before, after := w.server.objects, Act(w, o).0.server.objects;
            && AllWellOwned(after) && after.Keys == before.Keys && Quiet(Act(w, o).0.server)
            && (forall n | n in after && n != o.name :: after[n] == before[n])
            && after[o.name] == before[o.name].(owners := after[o.name].owners)
            && OwnerUid(after[o.name].owners) == ControlAfter(w.manager, o, OwnerUid(before[o.name].owners))
  {
    assert w.server.faults(|w.server.sent|) == Delivered;
    if AdoptableOrphan(w.manager, o) {
      hide Handle, AllWellOwned, OwnerUid;
      QuietAdoption(w, o);
    } else if Releasable(w.manager, o) {
      hide Handle, AllWellOwned;
      HandleChange(w.server.objects, DropOwner(o.name, o.uid, w.manager.controller.uid));
    }
  }

  lemma QuietAdoption(w: World, o: Object)
    requires AllWellOwned(w.server.objects) && w.manager.controller.controller && Quiet(w.server)
    requires o.name in w.server.objects && w.server.objects[o.name].uid == o.uid && AdoptableOrphan(w.manager, o)
    ensures var before, after := w.server.objects, Act(w, o).0.server.objects;
            && AllWellOwned(after) && after.Keys == before.Keys && Quiet(Act(w, o).0.server)
            && (forall n | n in after && n != o.name :: after[n] == before[n])
            && after[o.name] == before[o.name].(owners := after[o.name].owners)
            && OwnerUid(after[o.name].owners) ==
               if CheckAnswer(w.manager) == None && OwnerUid(before[o.name].owners) == None then Some(w.manager.controller.uid)
               else OwnerUid(before[o.name].owners)
  {
    assert w.server.faults(|w.server.sent|) == Delivered;
    assert ActionFor(w.manager, o) == Adopt;
    HandleChange(w.server.objects, AddOwner(o.name, o.uid, w.manager.controller));
    RefusedChangesNothing(w.server.objects, AddOwner(o.name, o.uid, w.manager.controller));
    hide Handle, AllWellOwned, OwnerUid, Matches;
  }

  lemma RefusedChangesNothing(objects: map<string, Object>, p: Patch)
    ensures Handle(objects, p).1.Some? ==> Handle(objects, p).0 == objects
  {
  }

  /** The server after the first `n` objects of a list were acted on. */
  ghost predicate Reached(m: Manager, objs: seq<Object>, n: nat, before: map<string, Object>, after: map<string, Object>)
    requires n <= |objs| && Present(before, objs)
  {
    && after.Keys == before.Keys
    && (forall k | k in after :: after[k] == before[k].(owners := after[k].owners))
    && (forall k | k in after && (forall i | 0 <= i < n :: objs[i].name != k) :: after[k] == before[k])
    && forall i | 0 <= i < n :: OwnerUid(after[objs[i].name].owners)
                             == ControlAfter(m, objs[i], OwnerUid(before[objs[i].name].owners))
  }

  lemma ReachNext(m: Manager, objs: seq<Object>, k: nat, before: map<string, Object>, w: World)
    requires k < |objs| && Present(before, objs) && Reached(m, objs, k, before, w.server.objects)
    requires AllWellOwned(w.server.objects) && w.manager.controller.controller && Quiet(w.server)
    requires DecideAlike(m, w.manager) && CheckAnswer(m) == CheckAnswer(w.manager)
    ensures Reached(m, objs, k + 1, before, Act(w, objs[k]).0.server.objects)
    ensures AllWellOwned(Act(w, objs[k]).0.server.objects) && Quiet(Act(w, objs[k]).0.server)
  {
    hide Act, AllWellOwned, Quiet, ControlAfter, OwnerUid, CheckAnswer, DecideAlike;
    assert w.server.objects[objs[k].name] == before[objs[k].name];
    QuietStep(w, objs[k]);
    SameControlAfter(m, w.manager, objs[k], OwnerUid(before[objs[k].name].owners));
    ReachOneMore(m, objs, k, before, w.server.objects, Act(w, objs[k]).0.server.objects);
  }

  lemma ReachOneMore(m: Manager, objs: seq<Object>, k: nat, before: map<string, Object>,
                     here: map<string, Object>, after: map<string, Object>)
    requires k < |objs| && Present(before, objs) && Reached(m, objs, k, before, here)
    requires after.Keys == here.Keys && forall n | n in after && n != objs[k].name :: after[n] == here[n]
    requires after[objs[k].name] == before[objs[k].name].(owners := after[objs[k].name].owners)
    requires OwnerUid(after[objs[k].name].owners) == ControlAfter(m, objs[k], OwnerUid(before[objs[k].name].owners))
    ensures Reached(m, objs, k + 1, before, after)
  {
    hide ControlAfter, OwnerUid;
    assert forall i | 0 <= i < k :: objs[i].name != objs[k].name;
  }

  lemma SameControlAfter(a: Manager, b: Manager, o: Object, before: Option<Uid>)
    requires DecideAlike(a, b) && CheckAnswer(a) == CheckAnswer(b)
    ensures ControlAfter(a, o, before) == ControlAfter(b, o, before)
  {
  }

  lemma {:induction false} PassReaches(w: World, objs: seq<Object>, n: nat)
    requires AllWellOwned(w.server.objects) && w.manager.controller.controller && Quiet(w.server)
    requires Present(w.server.objects, objs) && n <= |objs|
    ensures var after := ActAll(w, objs[..n]).0.server;
            Reached(w.manager, objs, n, w.server.objects, after.objects) && AllWellOwned(after.objects) && Quiet(after)
  {
    if n > 0 {
      var k := n - 1;
      PassReaches(w, objs, k);
      assert objs[..n] == objs[..k] + [objs[k]];
      ActAllSnoc(w, objs[..k], objs[k]);
      CheckedOnDemand(w, objs[..k]);
      AnswerIsRemembered(w.manager);
      hide ActAll, Act, Reached, Present, AllWellOwned, Quiet, CheckAnswer, Checked, AnyAdoptable;
      ReachNext(w.manager, objs, k, w.server.objects, ActAll(w, objs[..k]).0);
    }
  }

  /** What a pass does to a server that loses nothing, however old the owners in its snapshot: the live orphans that the
      selector matches are ours if nobody had taken them and the deletion check passed, the objects of ours that it does
      not match are nobody's, and everything else is as it was. */
  lemma QuietPassOutcome(w: World, objs: seq<Object>)
    requires AllWellOwned(w.server.objects) && w.manager.controller.controller && Quiet(w.server)
    requires Present(w.server.objects, objs)
    ensures var before, after := w.server.objects, ActAll(w, objs).0.server.objects;
            && after.Keys == before.Keys
            && (forall k | k in after :: after[k] == before[k].(owners := after[k].owners))
            && (forall k | k in after && (forall o | o in objs :: o.name != k) :: after[k] == before[k])
            && forall i | 0 <= i < |objs| :: OwnerUid(after[objs[i].name].owners)
                                          == ControlAfter(w.manager, objs[i], OwnerUid(before[objs[i].name].owners))
  {
    PassReaches(w, objs, |objs|);
    assert objs[..|objs|] == objs;
    hide ActAll, ControlAfter, OwnerUid, Quiet, AllWellOwned;
  }

  /** From an up-to-date snapshot, with a passed deletion check, no patch of a pass fails: so the premises of
      `ClaimSettles` and `ClaimFixpoint` can be met. */
  lemma {:induction false} QuietPassSucceeds(w: World, objs: seq<Object>, n: nat)
    requires AllWellOwned(w.server.objects) && w.manager.controller.controller && Quiet(w.server)
    requires Named(w.server.objects, objs) && Refreshed(w.server.objects, objs) == objs && n <= |objs|
    requires CheckAnswer(w.manager) == None
    ensures ActAll(w, objs[..n]).1 == NoReplies(n)
  {
    if n > 0 {
      var k := n - 1;
      QuietPassSucceeds(w, objs, k);
      assert objs[..n] == objs[..k] + [objs[k]];
      ActAllSnoc(w, objs[..k], objs[k]);
      hide ActAll, Act, AllWellOwned, Quiet, CheckAnswer, Refreshed, Named;
      StillUpToDate(w, objs, k);
      UpToDateSucceeds(ActAll(w, objs[..k]).0, objs[k]);
      assert NoReplies(n) == NoReplies(k) + [None];
    }
  }

  lemma StillUpToDate(w: World, objs: seq<Object>, k: nat)
    requires AllWellOwned(w.server.objects) && w.manager.controller.controller && Quiet(w.server)
    requires Named(w.server.objects, objs) && Refreshed(w.server.objects, objs) == objs && k < |objs|
    ensures var w' := ActAll(w, objs[..k]).0;
            && AllWellOwned(w'.server.objects) && w'.manager.controller.controller && Quiet(w'.server)
            && objs[k].name in w'.server.objects && w'.server.objects[objs[k].name] == objs[k]
            && CheckAnswer(w'.manager) == CheckAnswer(w.manager)
  {
    UpToDateIsPresent(w.server.objects, objs);
    PassReaches(w, objs, k);
    CheckedOnDemand(w, objs[..k]);
    AnswerIsRemembered(w.manager);
    hide ActAll, AllWellOwned, Quiet, CheckAnswer, Checked, AnyAdoptable, Refreshed, ControlAfter, OwnerUid;
  }

  lemma UpToDateIsPresent(objects: map<string, Object>, objs: seq<Object>)
    requires Named(objects, objs) && Refreshed(objects, objs) == objs
    ensures Present(objects, objs) && forall i | 0 <= i < |objs| :: objects[objs[i].name] == objs[i]
  {
    assert forall i | 0 <= i < |objs| :: Refreshed(objects, objs)[i] == objs[i];
  }

  lemma UpToDateSucceeds(w: World, o: Object)
    requires AllWellOwned(w.server.objects) && w.manager.controller.controller && Quiet(w.server)
    requires o.name in w.server.objects && w.server.objects[o.name] == o && CheckAnswer(w.manager) == None
    ensures Act(w, o).1 == None
  {
    if AdoptableOrphan(w.manager, o) {
      OneAdoptionSucceeds(w, o);
    } else if Releasable(w.manager, o) {
      OneReleaseSucceeds(w, o);
    }
  }
}
