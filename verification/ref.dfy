/** Claiming objects for a controller: `claimObject`, `canAdopt`, `AdoptService`, `ReleaseService`
    and `ClaimServices`, against an API server that checks owner references. */
module Ref {
  import opened Api

  datatype Error =
    | NotFound                  // 404
    | Invalid                   // 422
    | Other(reason: string)     // anything else: a conflict, a timeout, a lost connection
    | CantAdopt(cause: Error)   // the error of canAdopt, wrapped by fmt.Errorf

  // ---- The API server --------------------------------------------------------

  datatype Patch =
    | AddOwner(name: string, objUid: Uid, owner: OwnerRef)
    | DropOwner(name: string, objUid: Uid, ownerUid: Uid)

  /** What the network does to one request: deliver it, lose it, or lose only the answer. */
  datatype Fault = Delivered | Dropped(error: Error) | ReplyLost(error: Error)

  /** The stored objects by name and the patches received so far with the answers the sender saw. */
  datatype Server = Server(objects: map<string, Object>, sent: seq<(Patch, Option<Error>)>, faults: nat -> Fault)

  /** A strategic merge of one owner reference; references are keyed by uid. */
  function MergeOwner(owners: seq<OwnerRef>, r: OwnerRef): seq<OwnerRef> {
    if owners == [] then [r]
    else if owners[0].uid == r.uid then [r] + owners[1..]
    else [owners[0]] + MergeOwner(owners[1..], r)
  }

  function Without(owners: seq<OwnerRef>, uid: Uid): seq<OwnerRef> {
    if owners == [] then []
    else if owners[0].uid == uid then Without(owners[1..], uid)
    else [owners[0]] + Without(owners[1..], uid)
  }

  /** `ValidateOwnerReferences`: at most one reference is a controller. */
  predicate OneController(owners: seq<OwnerRef>) {
    forall i, j | 0 <= i < j < |owners| :: !(owners[i].controller && owners[j].controller)
  }

  /** The server's own handling of a patch that reaches it. */
  function Handle(objects: map<string, Object>, p: Patch): (r: (map<string, Object>, Option<Error>))
  {
    if p.name !in objects then (objects, Some(NotFound))
    else if objects[p.name].uid != p.objUid then (objects, Some(Invalid))
    else
      var o := objects[p.name];
      match p
      case AddOwner(_, _, owner) =>
        var owners := MergeOwner(o.owners, owner);
        if OneController(owners) then (objects[p.name := o.(owners := owners)], None) else (objects, Some(Invalid))
      case DropOwner(_, _, uid) =>
        if o.owners == [] then (objects, Some(Invalid))
        else (objects[p.name := o.(owners := Without(o.owners, uid))], None)
  }

  function Send(s: Server, p: Patch): (Server, Option<Error>) {
    var (objects, reply) := Handle(s.objects, p);
    match s.faults(|s.sent|)
    case Delivered => (s.(objects := objects, sent := s.sent + [(p, reply)]), reply)
    case Dropped(e) => (s.(sent := s.sent + [(p, Some(e))]), Some(e))
    case ReplyLost(e) => (s.(objects := objects, sent := s.sent + [(p, Some(e))]), Some(e))
  }

  // ---- A manager -------------------------------------------------------------

  /** One ref manager: the controller it works for, its selector, and the memo of `canAdopt`.
      `checks` counts the uncached reads made through `canAdoptFunc`; `canAdoptFunc` answers the n-th of them. */
  datatype Manager = Manager(
    controller: OwnerRef, deleting: bool, selector: Labels,
    canAdoptFunc: Option<nat -> Option<Error>>, canAdoptErr: Option<Error>, once: bool, checks: nat)

  ghost predicate SameIdentity(a: Manager, b: Manager) {
    a.controller == b.controller && a.deleting == b.deleting && a.selector == b.selector && a.canAdoptFunc == b.canAdoptFunc
  }

  /** The manager after a call of `canAdopt`, whose result is then `canAdoptErr`. */
  function Checked(m: Manager): Manager {
    if m.once then m
    else if m.canAdoptFunc.None? then m.(once := true)
    else m.(once := true, canAdoptErr := m.canAdoptFunc.value(m.checks), checks := m.checks + 1)
  }

  datatype World = World(manager: Manager, server: Server)

  /** What reconciling one object calls for. */
  datatype Action = Keep | Adopt | Release | Ignore

  function ActionFor(m: Manager, o: Object): Action {
    var owner, selected := ControllerOf(o.owners), Matches(m.selector, o.labels);
    if owner.Some? && owner.value.uid == m.controller.uid then
      if selected then Keep else if m.deleting then Ignore else Release
    else if owner.None? && selected && !m.deleting && !o.deleting then Adopt
    else Ignore
  }

  /** Sends the adoption patch, unless `canAdopt` fails. */
  function TryAdopt(w: World, o: Object): (World, Option<Error>) {
    var m := Checked(w.manager);
    if m.canAdoptErr.Some? then (w.(manager := m), Some(CantAdopt(m.canAdoptErr.value)))
    else
      var (s, reply) := Send(w.server, AddOwner(o.name, o.uid, w.manager.controller));
      (World(m, s), reply)
  }

  /** Sends the release patch. */
  function TryRelease(w: World, o: Object): (World, Option<Error>) {
    var (s, reply) := Send(w.server, DropOwner(o.name, o.uid, w.manager.controller.uid));
    (w.(server := s), reply)
  }

  /** A release that fails with 404 or 422 counts as done. */
  function Forgiven(reply: Option<Error>): Option<Error> {
    if reply == Some(NotFound) || reply == Some(Invalid) then None else reply
  }

  /** The world after acting on one object, and the answer to the patch that took. */
  function Act(w: World, o: Object): (World, Option<Error>) {
    match ActionFor(w.manager, o)
    case Adopt => TryAdopt(w, o)
    case Release => TryRelease(w, o)
    case _ => (w, None)
  }

  /** Acting on a whole list, left to right, with all the answers. */
  function ActAll(w: World, objs: seq<Object>): (r: (World, seq<Option<Error>>))
    ensures |r.1| == |objs|
    ensures SameIdentity(r.0.manager, w.manager)
  {
    if objs == [] then (w, [])
    else
      var (w', replies) := ActAll(w, objs[..|objs| - 1]);
      var (w'', reply) := Act(w', objs[|objs| - 1]);
      (w'', replies + [reply])
  }

  /** Does an object count as claimed, given the answer to its reconciliation? */
  predicate Claimed(m: Manager, o: Object, reply: Option<Error>) {
    var a := ActionFor(m, o);
    a == Keep || (a == Adopt && reply.None?)
  }

  /** The error a reconciliation reports: 404 is never one, and a release also forgives 422. */
  function Reported(m: Manager, o: Object, reply: Option<Error>): Option<Error> {
    match ActionFor(m, o)
    case Adopt => if reply == Some(NotFound) then None else reply
    case Release => Forgiven(reply)
    case _ => None
  }

  /** The claimed objects of a list, in order. */
  function Claims(m: Manager, objs: seq<Object>, replies: seq<Option<Error>>): (r: seq<Object>)
    requires |objs| == |replies|
    ensures |r| <= |objs|
  {
    if objs == [] then []
    else
      var n := |objs| - 1;
      Claims(m, objs[..n], replies[..n]) + if Claimed(m, objs[n], replies[n]) then [objs[n]] else []
  }

  /** The reported errors of a list, in order. */
  function Errors(m: Manager, objs: seq<Object>, replies: seq<Option<Error>>): seq<Error>
    requires |objs| == |replies|
  {
    if objs == [] then []
    else
      var n := |objs| - 1;
      var e := Reported(m, objs[n], replies[n]);
      Errors(m, objs[..n], replies[..n]) + if e.Some? then [e.value] else []
  }

  lemma ActAllSnoc(w: World, objs: seq<Object>, o: Object)
    ensures var (w', replies) := ActAll(w, objs);
            ActAll(w, objs + [o]) == (Act(w', o).0, replies + [Act(w', o).1])
  {
    hide Act;
    assert (objs + [o])[..|objs|] == objs;
  }

  lemma OutcomeSnoc(m: Manager, objs: seq<Object>, replies: seq<Option<Error>>, o: Object, reply: Option<Error>)
    requires |objs| == |replies|
    ensures Claims(m, objs + [o], replies + [reply]) == Claims(m, objs, replies) + if Claimed(m, o, reply) then [o] else []
    ensures Errors(m, objs + [o], replies + [reply]) ==
            Errors(m, objs, replies) + if Reported(m, o, reply).Some? then [Reported(m, o, reply).value] else []
  {
    hide Claimed, Reported;
    assert (objs + [o])[..|objs|] == objs && (replies + [reply])[..|objs|] == replies;
  }

  // ---- The code --------------------------------------------------------------

  class ApiServer {
    var state: Server

    constructor (objects: map<string, Object>, faults: nat -> Fault)
      ensures state == Server(objects, [], faults)
    {
      state := Server(objects, [], faults);
    }

    /** `PatchService`. */
    method Patch(p: Patch) returns (err: Option<Error>)
      modifies this
      ensures (state, err) == Send(old(state), p)
    {
      var (s, reply) := Send(state, p);
      state := s;
      err := reply;
    }
  }

  class RefManager {
    const controller: OwnerRef
    const deleting: bool
    const selector: Labels
    const canAdoptFunc: Option<nat -> Option<Error>>
    const server: ApiServer
    var canAdoptErr: Option<Error>
    var once: bool
    var checks: nat

    constructor (controller: OwnerRef, deleting: bool, selector: Labels,
                 canAdoptFunc: Option<nat -> Option<Error>>, server: ApiServer)
      ensures View() == Manager(controller, deleting, selector, canAdoptFunc, None, false, 0)
      ensures this.server == server
    {
      this.controller, this.deleting, this.selector := controller, deleting, selector;
      this.canAdoptFunc, this.server := canAdoptFunc, server;
      canAdoptErr, once, checks := None, false, 0;
    }

    ghost function View(): Manager
      reads this
    {
      Manager(controller, deleting, selector, canAdoptFunc, canAdoptErr, once, checks)
    }

    ghost function Both(): World
      reads this, server
    {
      World(View(), server.state)
    }

    method CanAdopt() returns (err: Option<Error>)
      modifies this
      ensures View() == Checked(old(View())) && err == View().canAdoptErr
    {
      if !once {
        once := true;
        if canAdoptFunc.Some? {
          canAdoptErr := canAdoptFunc.value(checks);
          checks := checks + 1;
        }
      }
      err := canAdoptErr;
    }

    method AdoptService(o: Object) returns (err: Option<Error>)
      modifies this, server
      ensures (Both(), err) == TryAdopt(old(Both()), o)
    {
      var e := CanAdopt();
      if e.Some? {
        return Some(CantAdopt(e.value));
      }
      err := server.Patch(AddOwner(o.name, o.uid, controller));
    }

    method ReleaseService(o: Object) returns (err: Option<Error>)
      modifies this, server
      ensures var (w, reply) := TryRelease(old(Both()), o);
              Both() == w && err == Forgiven(reply)
    {
      err := server.Patch(DropOwner(o.name, o.uid, controller.uid));
      if err.Some? {
        if err.value.NotFound? {
          return None;
        }
        if err.value.Invalid? {
          return None;
        }
      }
    }

    method ClaimObject(o: Object) returns (ok: bool, err: Option<Error>)
      modifies this, server
      ensures var (w, reply) := Act(old(Both()), o);
              && Both() == w
              && ok == Claimed(old(View()), o, reply)
              && err == Reported(old(View()), o, reply)
    {
      var controllerRef := ControllerOf(o.owners);
      if controllerRef.Some? {
        if controllerRef.value.uid != controller.uid {
          return false, None;
        }
        if Matches(selector, o.labels) {
          return true, None;
        }
        if deleting {
          return false, None;
        }
        err := ReleaseService(o);
        if err.Some? {
          if err.value.NotFound? {
            return false, None;
          }
          return false, err;
        }
        return false, None;
      }
      if deleting || !Matches(selector, o.labels) {
        return false, None;
      }
      if o.deleting {
        return false, None;
      }
      err := AdoptService(o);
      if err.Some? {
        if err.value.NotFound? {
          return false, None;
        }
        return false, err;
      }
      return true, None;
    }

    /** `ClaimServices` (and the pod version it was copied from). The result is in order exactly the objects
        that match and are owned or could be adopted; the error list is empty iff nothing unforgiven happened. */
    method ClaimServices(objs: seq<Object>) returns (claimed: seq<Object>, errlist: seq<Error>)
      modifies this, server
      ensures var (w, replies) := ActAll(old(Both()), objs);
              && Both() == w
              && claimed == Claims(old(View()), objs, replies)
              && errlist == Errors(old(View()), objs, replies)
    {
      hide ActAll, Act, Claims, Errors, Claimed, Reported;
      ghost var w0, m := Both(), View();
      claimed, errlist := [], [];
      NothingToClaim(w0, m);
      for i := 0 to |objs|
        invariant Both() == ActAll(w0, objs[..i]).0
        invariant claimed == Claims(m, objs[..i], ActAll(w0, objs[..i]).1)
        invariant errlist == Errors(m, objs[..i], ActAll(w0, objs[..i]).1)
      {
        assert objs[..i + 1] == objs[..i] + [objs[i]];
        ActAllSnoc(w0, objs[..i], objs[i]);
        OutcomeSnoc(m, objs[..i], ActAll(w0, objs[..i]).1, objs[i], Act(Both(), objs[i]).1);
        SameDecision(m, View(), objs[i], Act(Both(), objs[i]).1);
        var ok, err := ClaimObject(objs[i]);
        if err.Some? {
          errlist := errlist + [err.value];
          ClaimedOrReported(m, objs[i], Act(ActAll(w0, objs[..i]).0, objs[i]).1);
          continue;
        }
        if ok {
          claimed := claimed + [objs[i]];
        }
      }
      assert objs[..|objs|] == objs;
    }
  }

  lemma NothingToClaim(w: World, m: Manager)
    ensures ActAll(w, []) == (w, []) && Claims(m, [], []) == [] && Errors(m, [], []) == []
  {
  }

  /** An object whose reconciliation reports an error is not claimed. */
  lemma ClaimedOrReported(m: Manager, o: Object, reply: Option<Error>)
    ensures !(Claimed(m, o, reply) && Reported(m, o, reply).Some?)
  {
  }

  lemma SameDecision(a: Manager, b: Manager, o: Object, reply: Option<Error>)
    requires DecideAlike(a, b)
    ensures Claimed(a, o, reply) == Claimed(b, o, reply) && Reported(a, o, reply) == Reported(b, o, reply)
  {
  }

  /** Which action an object calls for depends on the controller, its deletion mark and the selector only. */
  ghost predicate DecideAlike(a: Manager, b: Manager) {
    a.controller == b.controller && a.deleting == b.deleting && a.selector == b.selector
  }

  lemma IdentityDecides(a: Manager, b: Manager, o: Object)
    requires DecideAlike(a, b)
    ensures ActionFor(a, o) == ActionFor(b, o)
  {
  }

  lemma {:induction false} SameOutcome(a: Manager, b: Manager, objs: seq<Object>, replies: seq<Option<Error>>)
    requires DecideAlike(a, b) && |objs| == |replies|
    ensures Claims(a, objs, replies) == Claims(b, objs, replies)
    ensures Errors(a, objs, replies) == Errors(b, objs, replies)
  {
    if objs != [] {
      SameOutcome(a, b, objs[..|objs| - 1], replies[..|objs| - 1]);
      IdentityDecides(a, b, objs[|objs| - 1]);
    }
  }
}
