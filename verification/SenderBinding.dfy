/**
  First-send key binding under any interleaving: at most one bind of a queue ever succeeds, the
  bound key never changes, and every stored message was verified under exactly that key.
  */
module SenderBinding {
  import opened Results
  import opened Tables
  import opened StoreSpec
  import opened Integrity
  import opened Nonces
  import opened Handlers
  import opened Runs
  import opened Interleaving

  // ---- what a thread can rely on

  /** The snapshot is an earlier version of the row the request names. */
  ghost predicate Stale(db: Db, req: Request, snap: Snapshot) {
    match snap
    case NoRow => true
    case DeviceRow(d) => req.Manage? && req.device in db.devices && DeviceAges(d, db.devices[req.device])
    case QueueRow(rid, q) =>
      && rid in db.queues && QueueAges(q, db.queues[rid])
      && (req.Send? ==> req.sender in db.senders && db.senders[req.sender] == rid)
      && (req.Receive? ==> req.recipient == rid)
  }

  predicate IsAppend(op: Op) {
    op.OnMessages? && op.message.OpAppend?
  }

  predicate IsBind(op: Op) {
    op.OnQueues? && op.queue.OpBind?
  }

  ghost predicate Bound(db: Db, rid: Id, key: Key) {
    rid in db.queues && db.queues[rid].senderKey == Some(key)
  }

  /** A send's remaining steps: bind then append, or the end of that. */
  predicate SendTail(sender: Id, rid: Id, key: Key, ops: seq<Op>) {
    && |ops| <= 2
    && (forall i :: 0 <= i < |ops| ==>
          ops[i] == OnQueues(OpBind(sender, key)) || (IsAppend(ops[i]) && ops[i].message.rid == rid))
    && (|ops| == 2 ==> IsBind(ops[0]) && IsAppend(ops[1]))
  }

  /** A running send was verified under the key it resolved, and appends only once that key is bound. */
  ghost predicate Earned(db: Db, req: Request, snap: Snapshot, ops: seq<Op>)
    requires req.Send?
  {
    && snap.QueueRow? && !snap.queue.retired
    && ResolveSenderKey(snap.queue, req.header).Some?
    && (var key := ResolveSenderKey(snap.queue, req.header).value.0;
        && key in req.env.signers
        && SendTail(req.sender, snap.rid, key, ops)
        && (ops != [] && IsAppend(ops[0]) ==> Bound(db, snap.rid, key)))
  }

  /** The key a running send was verified under. */
  function VerifiedKey(th: Thread): Option<Key> {
    if th.Running? && th.req.Send? && th.snap.QueueRow? && ResolveSenderKey(th.snap.queue, th.req.header).Some?
    then Some(ResolveSenderKey(th.snap.queue, th.req.header).value.0)
    else None
  }

  predicate NoSend(ops: seq<Op>) {
    forall i :: 0 <= i < |ops| ==> !IsAppend(ops[i]) && !IsBind(ops[i])
  }

  ghost predicate Honest(db: Db, th: Thread) {
    match th
    case Start(_) => true
    case Looked(req, snap) => Stale(db, req, snap)
    case Running(req, snap, ops, _, _) =>
      Stale(db, req, snap) && if req.Send? then Earned(db, req, snap, ops) else NoSend(ops)
    case Finished(_, _) => true
  }

  ghost predicate AllHonest(s: Sys) {
    forall t :: 0 <= t < |s.threads| ==> Honest(s.db, s.threads[t])
  }

  lemma LookupIsCurrent(db: Db, req: Request)
    requires Valid(db)
    ensures Stale(db, req, Lookup(db, req))
  {
    hide Linked;
  }

  lemma StaleAges(db: Db, next: Db, req: Request, snap: Snapshot)
    requires Stale(db, req, snap) && Ages(db, next)
    ensures Stale(next, req, snap)
  {
    match snap
    case NoRow =>
    case DeviceRow(d) => assert DeviceAges(db.devices[req.device], next.devices[req.device]);
    case QueueRow(rid, q) => assert QueueAges(db.queues[rid], next.queues[rid]);
  }

  /** What one thread relies on, no other can take away. */
  lemma HonestAges(db: Db, next: Db, th: Thread)
    requires Honest(db, th) && Ages(db, next)
    ensures Honest(next, th)
  {
    match th
    case Start(_) =>
    case Looked(req, snap) => StaleAges(db, next, req, snap);
    case Running(req, snap, ops, last, reply) =>
      StaleAges(db, next, req, snap);
      hide Stale, SendTail;
      if req.Send? && ops != [] && IsAppend(ops[0]) {
        assert QueueAges(db.queues[snap.rid], next.queues[snap.rid]);
      }
    case Finished(_, _) =>
  }

  lemma SendStarts(db: Db, seen: Seen, now: Nanos, req: Request, snap: Snapshot)
    requires req.Send? && Stale(db, req, snap)
    requires Authorise(db, seen, now, req, snap).1.Proceed?
    ensures Earned(db, req, snap, Authorise(db, seen, now, req, snap).1.ops)
  {
    hide QueueVerdict, DeviceVerdict, OperatorVerdict, Admit;
    var key := ResolveSenderKey(snap.queue, req.header).value.0;
    assert key in req.env.signers;
  }

  lemma OthersNeitherBindNorAppend(db: Db, seen: Seen, now: Nanos, req: Request, snap: Snapshot)
    requires !req.Send? && Authorise(db, seen, now, req, snap).1.Proceed?
    ensures NoSend(Authorise(db, seen, now, req, snap).1.ops)
  {
    hide Authenticate, ResolveSenderKey, SendOps;
  }

  lemma BindEarns(db: Db, now: Nanos, th: Thread)
    requires Valid(db) && Honest(db, th) && th.Running? && th.req.Send? && th.ops != [] && IsBind(th.ops[0])
    requires Stepped(th, Apply(db, now, th.ops[0]).1).Running?
    ensures Earned(After(db, now, th.ops[0]), th.req, th.snap, th.ops[1..])
  {
    hide Valid;
    var key := ResolveSenderKey(th.snap.queue, th.req.header).value.0;
    assert Apply(db, now, th.ops[0]).1 == Flag(true);
    assert Bound(After(db, now, th.ops[0]), th.snap.rid, key);
  }

  lemma OwnStepHonest(db: Db, now: Nanos, th: Thread)
    requires Valid(db) && Honest(db, th) && th.Running? && th.ops != []
    ensures Honest(After(db, now, th.ops[0]), Stepped(th, Apply(db, now, th.ops[0]).1))
  {
    StepAges(db, now, th.ops[0]);
    StaleAges(db, After(db, now, th.ops[0]), th.req, th.snap);
    if Stepped(th, Apply(db, now, th.ops[0]).1).Running? && th.req.Send? && IsBind(th.ops[0]) {
      BindEarns(db, now, th);
    }
    hide Valid, Stale, Ages, Apply, Stop, Bound;
  }

  lemma AdvancedHonest(s: Sys, now: Nanos, t: nat)
    requires Valid(s.db) && t < |s.threads| && Honest(s.db, s.threads[t])
    ensures Honest(Advanced(s, now, t).db, Advanced(s, now, t).threads[t])
  {
    hide Valid, Stale, Apply, Authorise, Lookup, Finish, Earned, NoSend, Stepped;
    match s.threads[t]
    case Start(req) => LookupIsCurrent(s.db, req);
    case Looked(req, snap) =>
      if Authorise(s.db, s.seen, now, req, snap).1.Proceed? {
        if req.Send? { SendStarts(s.db, s.seen, now, req, snap); }
        else { OthersNeitherBindNorAppend(s.db, s.seen, now, req, snap); }
      }
    case Running(req, snap, ops, last, reply) =>
      if ops != [] { OwnStepHonest(s.db, now, s.threads[t]); }
    case Finished(_, _) =>
  }

  lemma TurnKeepsHonest(s: Sys, turn: Turn)
    requires Valid(s.db) && AllHonest(s)
    ensures AllHonest(Take(s, turn))
  {
    hide Valid, Honest, Ages, Take;
    var next := Take(s, turn);
    TurnKeepsValid(s, turn);
    ThreadsGrow(s, turn);
    forall t | 0 <= t < |next.threads| ensures Honest(next.db, next.threads[t]) {
      if t < |s.threads| {
        if turn.move == Advance(t) {
          ThisThread(s, turn, t);
        } else {
          TurnIsOneThread(s, turn, t);
          HonestAges(s.db, next.db, s.threads[t]);
        }
      } else {
        NewThread(next.db, turn.move.req);
      }
    }
  }

  lemma ThisThread(s: Sys, turn: Turn, t: nat)
    requires Valid(s.db) && t < |s.threads| && Honest(s.db, s.threads[t]) && turn.move == Advance(t)
    ensures t < |Take(s, turn).threads| && Honest(Take(s, turn).db, Take(s, turn).threads[t])
  {
    hide Valid, Honest, Advanced;
    ThreadsGrow(s, turn);
    AdvancedHonest(s, turn.now, t);
  }

  lemma NewThread(db: Db, req: Request)
    ensures Honest(db, Start(req))
  {
  }

  /** So no schedule ever misleads a thread. */
  lemma {:induction false} ScheduleHonest(turns: seq<Turn>)
    ensures Valid(Play(EmptySys, turns).db) && AllHonest(Play(EmptySys, turns))
  {
    hide Valid, AllHonest, Take;
    if turns == [] {
      EmptyIsValid();
      NobodyMisled();
    } else {
      var init := turns[..|turns| - 1];
      ScheduleHonest(init);
      TurnKeepsValid(Play(EmptySys, init), turns[|turns| - 1]);
      TurnKeepsHonest(Play(EmptySys, init), turns[|turns| - 1]);
    }
  }

  lemma NobodyMisled()
    ensures AllHonest(EmptySys)
  {
  }

  // ---- the theorems

  /** The turn stores a message on the queue. */
  predicate Stores(s: Sys, turn: Turn, q: Id) {
    var op := StepOf(s, turn);
    op.Some? && IsAppend(op.value) && op.value.message.rid == q && Appends(s.db, turn.now, op.value)
  }

  /** The turn binds the queue to the key. */
  predicate Binds(s: Sys, turn: Turn, q: Id, key: Key) {
    && StepOf(s, turn).Some? && IsBind(StepOf(s, turn).value)
    && (var op := StepOf(s, turn).value.queue;
        op.key == key && |key| == KEY_SIZE && Bindable(s.db, op.sid) && s.db.senders[op.sid] == q)
  }

  lemma BindingBinds(s: Sys, turn: Turn, q: Id, key: Key)
    requires Binds(s, turn, q, key)
    ensures q in s.db.queues && s.db.queues[q].senderKey == None
    ensures Bound(Take(s, turn).db, q, key)
  {
    hide Take, Stop;
    TurnIsOneStep(s, turn);
  }

  /** A bound key never changes. */
  lemma KeyIsForEver(start: Sys, turns: seq<Turn>, q: Id, key: Key)
    requires Valid(start.db) && Bound(start.db, q, key)
    ensures Bound(Play(start, turns).db, q, key)
  {
    hide Valid, Play;
    ScheduleKeepsValid(start, turns);
    assert QueueAges(start.db.queues[q], Play(start, turns).db.queues[q]);
  }

  lemma BoundAfter(turns: seq<Turn>, i: nat, j: nat, q: Id, key: Key)
    requires i < j <= |turns| && Binds(Play(EmptySys, turns[..i]), turns[i], q, key)
    ensures Bound(Play(EmptySys, turns[..j]).db, q, key)
  {
    hide Valid, Take, Binds, Bound;
    ScheduleHonest(turns[..i + 1]);
    assert turns[..i + 1][..i] == turns[..i];
    BindingBinds(Play(EmptySys, turns[..i]), turns[i], q, key);
    PlaySplit(EmptySys, turns[..j], i + 1);
    assert turns[..j][..i + 1] == turns[..i + 1];
    KeyIsForEver(Play(EmptySys, turns[..i + 1]), turns[..j][i + 1..], q, key);
  }

  /** At most one bind of a queue succeeds in any schedule. */
  lemma OneBind(turns: seq<Turn>, i: nat, j: nat, q: Id, key: Key, other: Key)
    requires i < |turns| && j < |turns|
    requires Binds(Play(EmptySys, turns[..i]), turns[i], q, key)
    requires Binds(Play(EmptySys, turns[..j]), turns[j], q, other)
    ensures i == j && key == other
  {
    hide Take, Binds;
    BindingBinds(Play(EmptySys, turns[..i]), turns[i], q, key);
    BindingBinds(Play(EmptySys, turns[..j]), turns[j], q, other);
    if i < j { BoundAfter(turns, i, j, q, key); }
    if j < i { BoundAfter(turns, j, i, q, other); }
    if i == j { OneKey(Play(EmptySys, turns[..i]), turns[i], q, key, other); }
  }

  lemma OneKey(s: Sys, turn: Turn, q: Id, key: Key, other: Key)
    requires Binds(s, turn, q, key) && Binds(s, turn, q, other)
    ensures key == other
  {
  }

  /** A turn that stores a message on a queue stores it for a send verified under the bound key. */
  lemma StoredUnderBoundKey(s: Sys, turn: Turn, q: Id)
    requires Valid(s.db) && AllHonest(s) && Stores(s, turn, q)
    ensures
      var th := s.threads[turn.move.t];
      && th.Running? && th.req.Send? && VerifiedKey(th).Some?
      && VerifiedKey(th).value in th.req.env.signers
      && Bound(s.db, q, VerifiedKey(th).value)
  {
    hide Valid, Appends, Stale;
    assert Honest(s.db, s.threads[turn.move.t]);
  }

  /** A turn that binds a queue binds it to the key its send was verified under. */
  lemma BoundToVerifiedKey(s: Sys, turn: Turn, q: Id, key: Key)
    requires AllHonest(s) && Binds(s, turn, q, key)
    ensures
      var th := s.threads[turn.move.t];
      th.Running? && th.req.Send? && VerifiedKey(th) == Some(key) && key in th.req.env.signers
  {
    hide Stale, Bindable;
    assert Honest(s.db, s.threads[turn.move.t]);
  }

  /** Under any interleaving, every message ever stored on a queue was verified under exactly the
      key the queue is bound to, then and ever after. */
  lemma SenderBinding(turns: seq<Turn>, i: nat, q: Id)
    requires i < |turns| && Stores(Play(EmptySys, turns[..i]), turns[i], q)
    ensures
      var th := Play(EmptySys, turns[..i]).threads[turns[i].move.t];
      && VerifiedKey(th).Some?
      && VerifiedKey(th).value in th.req.env.signers
      && Bound(Play(EmptySys, turns).db, q, VerifiedKey(th).value)
  {
    hide Valid, Take, AllHonest, Stores, Bound;
    var s := Play(EmptySys, turns[..i]);
    StoresAdvances(s, turns[i], q);
    ScheduleHonest(turns[..i]);
    StoredUnderBoundKey(s, turns[i], q);
    PlaySplit(EmptySys, turns, i);
    KeyIsForEver(s, turns[i..], q, VerifiedKey(s.threads[turns[i].move.t]).value);
  }

  lemma StoresAdvances(s: Sys, turn: Turn, q: Id)
    requires Stores(s, turn, q)
    ensures turn.move.Advance? && turn.move.t < |s.threads|
  {
    hide Appends;
  }

  // ---- and a bound queue was bound by one of the sends

  lemma StepBinds(s: Sys, turn: Turn, q: Id, key: Key)
    requires Valid(s.db) && !Bound(s.db, q, key) && Bound(Take(s, turn).db, q, key)
    ensures Binds(s, turn, q, key)
  {
    hide Take, ApplyAccountOp, ApplyDeviceOp, ApplyQueueOp, ApplyRetireOp, ApplyMessageOp, Valid;
    TurnIsOneStep(s, turn);
    match StepOf(s, turn).value
    case OnAccounts(o) => AccountOpFrame(s.db, turn.now, o);
    case OnDevices(o) => DeviceOpFrame(s.db, turn.now, o);
    case OnQueues(o) => QueueOpBinds(s.db, o, q, key);
    case Retiring(o) => RetireOpBindsNothing(s.db, o, q, key);
    case OnMessages(o) => MessageOpFrame(s.db, turn.now, o);
  }

  lemma QueueOpBinds(db: Db, op: QueueOp, q: Id, key: Key)
    requires !Bound(db, q, key) && Bound(ApplyQueueOp(db, op).0, q, key)
    ensures op.OpBind? && op.key == key && |key| == KEY_SIZE && Bindable(db, op.sid) && db.senders[op.sid] == q
  {
    match op
    case OpCreateQueue(owner, k, rid, sid) =>
      if CreateQueue(db, owner, k, rid, sid).Ok? {}
    case OpBind(sid, k) =>
      if Bindable(db, sid) {}
    case OpSetQueueQuota(rid, bytes) =>
      if SetQueueQuota(db, rid, bytes).Ok? {}
  }

  lemma RetireOpBindsNothing(db: Db, op: RetireOp, q: Id, key: Key)
    ensures Bound(ApplyRetireOp(db, op).0, q, key) ==> Bound(db, q, key)
  {
    hide Remaining, StripsLastAdmin;
    match op
    case OpRevoke(caller, device) =>
      if RevokeDevice(db, caller, device).Ok? {}
    case OpRetire(rid) =>
      if rid in db.queues {}
  }

  /** A queue is bound to a key after a schedule exactly if one of its turns bound it. */
  lemma {:induction false} BoundIffBoundOnce(turns: seq<Turn>, q: Id, key: Key)
    ensures Bound(Play(EmptySys, turns).db, q, key) <==>
      exists i :: 0 <= i < |turns| && Binds(Play(EmptySys, turns[..i]), turns[i], q, key)
  {
    hide Take, Binds, Bound, Valid;
    if turns == [] {
      NothingBound(q, key);
    } else {
      var n := |turns| - 1;
      var init := turns[..n];
      BoundIffBoundOnce(init, q, key);
      ScheduleHonest(init);
      if Bound(Play(EmptySys, turns).db, q, key) {
        if Bound(Play(EmptySys, init).db, q, key) {
          var i :| 0 <= i < n && Binds(Play(EmptySys, init[..i]), init[i], q, key);
          assert init[..i] == turns[..i] && init[i] == turns[i];
        } else {
          StepBinds(Play(EmptySys, init), turns[n], q, key);
        }
      }
      if i :| 0 <= i < |turns| && Binds(Play(EmptySys, turns[..i]), turns[i], q, key) {
        BoundAfter(turns, i, |turns|, q, key);
        assert turns[..|turns|] == turns;
      }
    }
  }

  lemma NothingBound(q: Id, key: Key)
    ensures !Bound(EmptyDb, q, key)
  {
  }
}
