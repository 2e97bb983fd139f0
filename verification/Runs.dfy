/** Runs of the relay serving requests atomically, from any state; what holds in all of them. */
module Runs {
  import opened Results
  import opened Tables
  import opened StoreSpec
  import opened Integrity
  import opened Handlers

  datatype Event = Event(now: Nanos, req: Request)

  ghost predicate Monotone(evs: seq<Event>) {
    forall i, j :: 0 <= i < j < |evs| ==> evs[i].now <= evs[j].now
  }

  /** The relay after a run. */
  function State(start: Relay, evs: seq<Event>): Relay {
    if evs == [] then start
    else
      var e := evs[|evs| - 1];
      Serve(State(start, evs[..|evs| - 1]), e.now, e.req).0
  }

  /** The answer to the i-th request of a run. */
  function AnswerTo(start: Relay, evs: seq<Event>, i: nat): Response
    requires i < |evs|
  {
    Serve(State(start, evs[..i]), evs[i].now, evs[i].req).1
  }

  lemma StateSnoc(start: Relay, evs: seq<Event>, e: Event)
    ensures State(start, evs + [e]) == Serve(State(start, evs), e.now, e.req).0
  {
    hide Serve;
    assert (evs + [e])[..|evs|] == evs;
  }

  lemma {:induction false} StateSplit(start: Relay, evs: seq<Event>, i: nat)
    requires i <= |evs|
    ensures State(start, evs) == State(State(start, evs[..i]), evs[i..])
    decreases |evs|
  {
    hide Serve;
    if i < |evs| {
      var n := |evs| - 1;
      StateSplit(start, evs[..n], i);
      assert evs[..n][..i] == evs[..i];
      assert evs[i..][..n - i] == evs[..n][i..];
    } else {
      assert evs[..i] == evs;
    }
  }

  /** The store steps a request's verdict grants. */
  function Granted(v: Verdict): seq<Op> {
    match v
    case Refuse(_) => []
    case Proceed(ops, _) => ops
  }

  function VerdictOn(r: Relay, now: Nanos, req: Request): Verdict {
    Authorise(r.db, r.seen, now, req, Lookup(r.db, req)).1
  }

  // ---- the store steps of one request, unrolled

  lemma NoStep(db: Db, now: Nanos, req: Request, snap: Snapshot, last: Option<Response>, reply: Reply)
    ensures Execute(db, now, req, snap, [], last, reply) == (db, Finish(req, snap, last, reply))
  {
  }

  lemma FirstStep(db: Db, now: Nanos, req: Request, snap: Snapshot, op: Op, rest: seq<Op>, last: Option<Response>)
    ensures Execute(db, now, req, snap, [op] + rest, last, Done) ==
      var r := Apply(db, now, op);
      if Stop(op, r.1).Some? then (r.0, Stop(op, r.1).value) else Execute(r.0, now, req, snap, rest, last, r.1)
  {
    hide Apply, Stop;
    assert ([op] + rest)[1..] == rest;
  }

  lemma OneStep(db: Db, now: Nanos, req: Request, snap: Snapshot, op: Op, reply: Reply := Done)
    ensures Execute(db, now, req, snap, [op], None, reply) ==
      var r := Apply(db, now, op);
      (r.0, if Stop(op, r.1).Some? then Stop(op, r.1).value else Success(req, snap, r.1))
  {
    hide Apply, Success, Stop;
    assert [op][1..] == [];
  }

  lemma RefusedOutright(r: Relay, now: Nanos, req: Request)
    requires VerdictOn(r, now, req).Refuse?
    ensures Serve(r, now, req).0.db == r.db && Serve(r, now, req).1 == VerdictOn(r, now, req).response
  {
    hide Lookup, Authorise;
  }

  /** The answer to a request of one store step. */
  function OneAnswer(req: Request, snap: Snapshot, op: Op, reply: Reply): Response {
    if Stop(op, reply).Some? then Stop(op, reply).value else Success(req, snap, reply)
  }

  lemma ServedByOneStep(r: Relay, now: Nanos, req: Request, op: Op)
    requires VerdictOn(r, now, req) == Perform(op)
    ensures Serve(r, now, req).0.db == After(r.db, now, op)
    ensures Serve(r, now, req).1 == OneAnswer(req, Lookup(r.db, req), op, Apply(r.db, now, op).1)
  {
    hide Lookup, Authorise, Execute, Apply, Stop, Success;
    OneStep(r.db, now, req, Lookup(r.db, req), op);
  }

  // ---- validity and ageing, lifted to runs

  lemma {:induction false} ExecuteKeepsValid(
      db: Db, now: Nanos, req: Request, snap: Snapshot, ops: seq<Op>, last: Option<Response>, reply: Reply)
    requires Valid(db)
    ensures Valid(Execute(db, now, req, snap, ops, last, reply).0)
    decreases |ops|
  {
    hide Valid, Apply;
    if ops != [] {
      var r := Apply(db, now, ops[0]);
      StepKeepsValid(db, now, ops[0]);
      if Stop(ops[0], r.1).None? {
        ExecuteKeepsValid(r.0, now, req, snap, ops[1..], last, r.1);
      }
    }
  }

  lemma {:induction false} ExecuteAges(
      db: Db, now: Nanos, req: Request, snap: Snapshot, ops: seq<Op>, last: Option<Response>, reply: Reply)
    requires Valid(db)
    ensures Ages(db, Execute(db, now, req, snap, ops, last, reply).0)
    decreases |ops|
  {
    hide Valid, Ages, Apply;
    SameAges(db);
    if ops != [] {
      var r := Apply(db, now, ops[0]);
      StepAges(db, now, ops[0]);
      if Stop(ops[0], r.1).None? {
        StepKeepsValid(db, now, ops[0]);
        ExecuteAges(r.0, now, req, snap, ops[1..], last, r.1);
        AgesTransitive(db, r.0, Execute(r.0, now, req, snap, ops[1..], last, r.1).0);
      }
    }
  }

  lemma ServeKeepsValid(r: Relay, now: Nanos, req: Request)
    requires Valid(r.db)
    ensures Valid(Serve(r, now, req).0.db)
    ensures Ages(r.db, Serve(r, now, req).0.db)
  {
    hide Valid, Ages, Authorise, Execute;
    match VerdictOn(r, now, req)
    case Refuse(_) => SameAges(r.db);
    case Proceed(ops, last) =>
      ExecuteKeepsValid(r.db, now, req, Lookup(r.db, req), ops, last, Done);
      ExecuteAges(r.db, now, req, Lookup(r.db, req), ops, last, Done);
  }

  /** From a valid state every run stays valid, and nothing that is for ever is ever undone. */
  lemma {:induction false} RunKeepsValid(start: Relay, evs: seq<Event>)
    requires Valid(start.db)
    ensures Valid(State(start, evs).db)
    ensures Ages(start.db, State(start, evs).db)
  {
    hide Valid, Ages, Serve;
    SameAges(start.db);
    if evs != [] {
      var n := |evs| - 1;
      RunKeepsValid(start, evs[..n]);
      var mid := State(start, evs[..n]);
      ServeKeepsValid(mid, evs[n].now, evs[n].req);
      AgesTransitive(start.db, mid.db, State(start, evs).db);
    }
  }

  // ---- what an atomic authorisation has established when its steps run

  predicate Live(db: Db, id: Id) {
    id in db.devices && !db.devices[id].revoked
  }

  predicate Guarded(db: Db, op: Op) {
    match op
    case OnMessages(OpAppend(rid, _, _, _)) => rid in db.queues && !db.queues[rid].retired
    case OnDevices(OpUpdatePush(id, _)) => Live(db, id)
    case OnDevices(OpSetBundle(id, _)) => Live(db, id)
    case OnQueues(OpCreateQueue(owner, _, _, _)) => Live(db, owner)
    case Retiring(OpRevoke(caller, id)) =>
      && Live(db, caller)
      && (caller != id ==>
            && id in db.devices
            && db.devices[id].account == db.devices[caller].account
            && db.devices[caller].role == Admin)
    case _ => true
  }

  /** Each step is guarded in the state it is taken in. */
  predicate GuardedSteps(db: Db, now: Nanos, ops: seq<Op>)
    decreases |ops|
  {
    ops != [] ==> Guarded(db, ops[0]) && GuardedSteps(After(db, now, ops[0]), now, ops[1..])
  }

  lemma OneGuarded(db: Db, now: Nanos, op: Op)
    requires Guarded(db, op)
    ensures GuardedSteps(db, now, [op])
  {
    hide Apply;
    assert [op][1..] == [];
  }

  lemma TwoGuarded(db: Db, now: Nanos, op: Op, next: Op)
    requires Guarded(db, op) && Guarded(After(db, now, op), next)
    ensures GuardedSteps(db, now, [op, next])
  {
    hide Apply;
    assert [op, next][1..] == [next];
    OneGuarded(After(db, now, op), now, next);
  }

  lemma DeviceStepsGuarded(db: Db, now: Nanos, id: Id, call: Call)
    requires Live(db, id)
    ensures GuardedSteps(db, now, Granted(DeviceVerdict(db, id, db.devices[id], call)))
  {
    hide Apply;
    var v := DeviceVerdict(db, id, db.devices[id], call);
    if v.Proceed? {
      assert |v.ops| == 1 && v.ops == [v.ops[0]];
      OneGuarded(db, now, v.ops[0]);
    }
  }

  lemma SendStepsGuarded(
      db: Db, now: Nanos, sender: Id, rid: Id, key: Key, binding: bool, body: Option<SendBody>, newId: Id)
    requires rid in db.queues && !db.queues[rid].retired
    ensures GuardedSteps(db, now, Granted(SendOps(sender, rid, key, binding, body, newId)))
  {
    var ops := Granted(SendOps(sender, rid, key, binding, body, newId));
    if |ops| == 1 {
      assert ops == [ops[0]];
      OneGuarded(db, now, ops[0]);
    } else if |ops| == 2 {
      assert ops == [ops[0], ops[1]];
      TwoGuarded(db, now, ops[0], ops[1]);
    }
  }

  predicate NeedsNoGuard(op: Op) {
    match op
    case OnMessages(OpAppend(_, _, _, _)) => false
    case OnDevices(OpUpdatePush(_, _)) => false
    case OnDevices(OpSetBundle(_, _)) => false
    case OnQueues(OpCreateQueue(_, _, _, _)) => false
    case Retiring(OpRevoke(_, _)) => false
    case _ => true
  }

  lemma {:induction false} NoGuardNeeded(db: Db, now: Nanos, ops: seq<Op>)
    requires forall i :: 0 <= i < |ops| ==> NeedsNoGuard(ops[i])
    ensures GuardedSteps(db, now, ops)
    decreases |ops|
  {
    hide Apply;
    if ops != [] {
      NoGuardNeeded(After(db, now, ops[0]), now, ops[1..]);
    }
  }

  /** In an atomically served request every store step meets its guard when it is taken. */
  lemma ServeIsGuarded(r: Relay, now: Nanos, req: Request)
    requires Valid(r.db)
    ensures GuardedSteps(r.db, now, Granted(VerdictOn(r, now, req)))
  {
    hide Apply, Authenticate;
    var ops := Granted(VerdictOn(r, now, req));
    match req
    case Manage(id, env, call) =>
      if ops != [] { DeviceStepsGuarded(r.db, now, id, call); }
    case Send(sender, env, header, body, newId) =>
      if ops != [] {
        var rid := r.db.senders[sender];
        var resolved := ResolveSenderKey(r.db.queues[rid], header).value;
        SendStepsGuarded(r.db, now, sender, rid, resolved.0, resolved.1, body, newId);
      }
    case Operate(act) => NoGuardNeeded(r.db, now, ops);
    case Sweep => NoGuardNeeded(r.db, now, ops);
    case Register(token, pub, push, newId) => NoGuardNeeded(r.db, now, ops);
    case Receive(recipient, env, call) => NoGuardNeeded(r.db, now, ops);
  }
}
