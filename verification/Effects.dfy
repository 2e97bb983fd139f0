/** What serving a request does to the messages table, read off the request and its answer. */
module Effects {
  import opened Results
  import opened Tables
  import opened StoreSpec
  import opened RowFacts
  import opened Integrity
  import opened Ttl
  import opened Handlers
  import opened Runs
  import opened Quotas
  import opened Expiry

  datatype Effect = Nothing | Added(m: Message) | Removed(w: Where)

  function Touched(db: Db, e: Effect): seq<Message> {
    match e
    case Nothing => db.messages
    case Added(m) => db.messages + [m]
    case Removed(w) => Remaining(db.messages, db.queues, db.devices, w)
  }

  /** Read off a request and its answer. */
  function EffectOf(db: Db, now: Nanos, req: Request, answer: Response): Effect {
    match req
    case Send(sender, _, _, body, newId) =>
      if answer.Sent? && body.Some? && sender in db.senders
      then Added(Message(db.lastSeq + 1, newId, db.senders[sender], body.value.payload,
                         Seconds(now), Seconds(now + ClampMessageTtl(body.value.ttl))))
      else Nothing
    case Receive(q, _, call) =>
      (match call
       case Recv => if answer.Delivered? then Removed(ExpiredIn(q, Seconds(now))) else Nothing
       case Ack(ids) => if answer.Deleted? && ids.Some? then Removed(Named(q, ids.value)) else Nothing
       case Retire => if answer == Acknowledged then Removed(InQueue(q)) else Nothing
       case SetQuota(_) => Nothing)
    case Manage(_, _, AskRevoke(d)) => if answer == Acknowledged then Removed(OwnedBy(d)) else Nothing
    case Sweep => Removed(Expired(Seconds(now)))
    case _ => Nothing
  }

  lemma TwoSteps(db: Db, now: Nanos, req: Request, snap: Snapshot, op: Op, next: Op)
    ensures Execute(db, now, req, snap, [op, next], None, Done) ==
      var r := Apply(db, now, op);
      if Stop(op, r.1).Some? then (r.0, Stop(op, r.1).value)
      else
        var s := Apply(r.0, now, next);
        (s.0, if Stop(next, s.1).Some? then Stop(next, s.1).value else Success(req, snap, s.1))
  {
    hide Apply, Success, Stop;
    var r := Apply(db, now, op);
    assert [op, next] == [op] + [next];
    FirstStep(db, now, req, snap, op, [next], None);
    OneStep(r.0, now, req, snap, next, r.1);
  }

  /** Steps on accounts, devices and queues, and queries, leave the messages alone. */
  lemma {:induction false} QuietSteps(
      db: Db, now: Nanos, req: Request, snap: Snapshot, ops: seq<Op>, last: Option<Response>, reply: Reply)
    requires forall i :: 0 <= i < |ops| ==> !ops[i].Retiring? && !ops[i].OnMessages?
    ensures Execute(db, now, req, snap, ops, last, reply).0.messages == db.messages
    ensures Execute(db, now, req, snap, ops, last, reply).0.lastSeq == db.lastSeq
    decreases |ops|
  {
    hide Apply, Finish, Stop;
    if ops != [] {
      var r := Apply(db, now, ops[0]);
      QuietOp(db, now, ops[0]);
      if Stop(ops[0], r.1).None? { QuietSteps(r.0, now, req, snap, ops[1..], last, r.1); }
    }
  }

  lemma QuietOp(db: Db, now: Nanos, op: Op)
    requires !op.Retiring? && !op.OnMessages?
    ensures After(db, now, op).messages == db.messages && After(db, now, op).lastSeq == db.lastSeq
  {
    hide ApplyAccountOp, ApplyDeviceOp, ApplyQueueOp;
    match op
    case OnAccounts(o) => AccountOpFrame(db, now, o);
    case OnDevices(o) => DeviceOpFrame(db, now, o);
    case OnQueues(o) => QueueOpFrame(db, o);
    case Reading(_) =>
  }

  lemma AppendEffect(db: Db, now: Nanos, req: Request, snap: Snapshot, op: Op)
    requires req.Send? && op.OnMessages? && op.message.OpAppend? && op.message.id == req.newId
    ensures var done := Execute(db, now, req, snap, [op], None, Done);
      && (done.1.Sent? <==> Appends(db, now, op))
      && done.0.messages == if done.1.Sent? then db.messages + [Message(db.lastSeq + 1, op.message.id, op.message.rid,
           op.message.payload, Seconds(now), Seconds(now + op.message.ttl))] else db.messages
  {
    hide AppendMessage;
    OneStep(db, now, req, snap, op);
    var o := op.message;
    AppendOutcome(db, now, o.rid, o.payload, o.ttl, o.id);
  }

  lemma AppendOutcome(db: Db, now: Nanos, rid: Id, payload: Bytes, ttl: Nanos, id: Id)
    ensures var r := AppendMessage(db, now, rid, payload, ttl, id);
      r.Ok? ==>
        r.value.messages == db.messages + [Message(db.lastSeq + 1, id, rid, payload, Seconds(now), Seconds(now + ttl))]
  {
    hide HasRoom;
  }

  lemma SendEffect(db: Db, now: Nanos, req: Request, snap: Snapshot, rid: Id, key: Key, binding: bool)
    requires req.Send? && req.sender in db.senders && db.senders[req.sender] == rid
    ensures
      var v := SendOps(req.sender, rid, key, binding, req.body, req.newId);
      var done := Execute(db, now, req, snap, v.ops, v.last, Done);
      done.0.messages == Touched(db, EffectOf(db, now, req, done.1))
  {
    hide AppendMessage, ApplyQueueOp, HasRoom;
    var v := SendOps(req.sender, rid, key, binding, req.body, req.newId);
    var bind := OnQueues(OpBind(req.sender, key));
    if v.last.Some? {
      QuietSteps(db, now, req, snap, v.ops, v.last, Done);
      RefusedSend(db, now, req, snap, v.ops, v.last.value);
    } else {
      var append := OnMessages(OpAppend(rid, req.body.value.payload, ClampMessageTtl(req.body.value.ttl), req.newId));
      if binding {
        assert v.ops == [bind, append];
        TwoSteps(db, now, req, snap, bind, append);
        QueueOpFrame(db, OpBind(req.sender, key));
        var r := Apply(db, now, bind);
        if Stop(bind, r.1).None? {
          OneStep(r.0, now, req, snap, append);
          AppendEffect(r.0, now, req, snap, append);
        } else {
          BindStops(r.1, req.sender, key);
        }
      } else {
        assert v.ops == [append];
        AppendEffect(db, now, req, snap, append);
      }
    }
  }

  lemma BindStops(reply: Reply, sender: Id, key: Key)
    requires Stop(OnQueues(OpBind(sender, key)), reply).Some?
    ensures !Stop(OnQueues(OpBind(sender, key)), reply).value.Sent?
  {
  }

  /** A send whose body is refused may bind the key, but is not answered as sent. */
  lemma {:induction false} RefusedSend(
      db: Db, now: Nanos, req: Request, snap: Snapshot, ops: seq<Op>, last: Response)
    requires !last.Sent? && |ops| <= 1
    ensures !Execute(db, now, req, snap, ops, Some(last), Done).1.Sent?
  {
    hide Apply, Success;
    if |ops| == 1 {
      var r := Apply(db, now, ops[0]);
      assert ops[1..] == [];
      assert Execute(r.0, now, req, snap, [], Some(last), r.1).1 == last;
      if Stop(ops[0], r.1).Some? { assert !Stop(ops[0], r.1).value.Sent?; }
    }
  }

  lemma DrainEffect(db: Db, now: Nanos, req: Request, snap: Snapshot, q: Id)
    requires req.Receive? && req.recipient == q && req.queueCall == Recv
    ensures
      var ops := [OnMessages(OpPurgeQueue(q)), Reading(OpSelectQueue(q))];
      var done := Execute(db, now, req, snap, ops, None, Done);
      && done.0.messages == Touched(db, Removed(ExpiredIn(q, Seconds(now))))
      && done.1 == Delivered(SelectQueue(Without(db, ExpiredIn(q, Seconds(now))), q))
  {
    hide SelectQueue, Remaining;
    DrainRuns(db, now, req, snap, q);
  }

  lemma ReceiveEffect(db: Db, now: Nanos, req: Request, snap: Snapshot, q: Id, env: Envelope, call: QueueCall)
    requires req == Receive(q, env, call) && QueueVerdict(q, call).Proceed?
    ensures
      var v := QueueVerdict(q, call);
      var done := Execute(db, now, req, snap, v.ops, v.last, Done);
      done.0.messages == Touched(db, EffectOf(db, now, req, done.1))
  {
    hide Remaining, Selected, SelectQueue, ApplyQueueOp;
    match call
    case Recv => DrainEffect(db, now, req, snap, q);
    case Ack(ids) => OneStep(db, now, req, snap, OnMessages(OpDelete(q, ids.value)));
    case Retire => OneStep(db, now, req, snap, Retiring(OpRetire(q)));
    case SetQuota(bytes) =>
      OneStep(db, now, req, snap, OnQueues(OpSetQueueQuota(q, bytes)));
      QueueOpFrame(db, OpSetQueueQuota(q, bytes));
  }

  lemma RevokeEffect(db: Db, now: Nanos, req: Request, snap: Snapshot, caller: Id, target: Id, env: Envelope)
    requires req == Manage(caller, env, AskRevoke(target))
    ensures
      var done := Execute(db, now, req, snap, [Retiring(OpRevoke(caller, target))], None, Done);
      done.0.messages == Touched(db, EffectOf(db, now, req, done.1))
  {
    hide StripsLastAdmin, Remaining;
    OneStep(db, now, req, snap, Retiring(OpRevoke(caller, target)));
    if RevokeDevice(db, caller, target).Ok? {}
  }

  /** Serving any request has the effect its answer tells of, and no other. */
  lemma ServeEffect(r: Relay, now: Nanos, req: Request)
    ensures Serve(r, now, req).0.db.messages == Touched(r.db, EffectOf(r.db, now, req, Serve(r, now, req).1))
  {
    hide Authenticate, Execute, Remaining, ResolveSenderKey, SendOps, DeviceVerdict, QueueVerdict, OperatorVerdict;
    var snap := Lookup(r.db, req);
    match VerdictOn(r, now, req)
    case Refuse(a) => RefusalsTouchNothing(r, now, req);
    case Proceed(ops, last) =>
      match req {
        case Send(sender, env, header, body, newId) =>
          var resolved := ResolveSenderKey(snap.queue, header).value;
          SendEffect(r.db, now, req, snap, snap.rid, resolved.0, resolved.1);
        case Receive(q, env, call) => ReceiveEffect(r.db, now, req, snap, q, env, call);
        case Sweep => SweepRuns(r, now);
        case Manage(id, env, call) => ManageEffect(r.db, now, req, snap, id, snap.device, env, call);
        case Operate(act) =>
          OperatorStepsQuiet(r.db, act);
          assert ops == Granted(OperatorVerdict(r.db, act));
          QuietSteps(r.db, now, req, snap, ops, last, Done);
        case Register(token, pub, push, newId) => QuietSteps(r.db, now, req, snap, ops, last, Done);
      }
  }

  lemma OperatorStepsQuiet(db: Db, act: OperatorAct)
    ensures forall i :: 0 <= i < |Granted(OperatorVerdict(db, act))| ==>
      var op := Granted(OperatorVerdict(db, act))[i]; !op.Retiring? && !op.OnMessages?
  {
  }

  lemma ManageEffect(db: Db, now: Nanos, req: Request, snap: Snapshot, id: Id, dev: Device, env: Envelope, call: Call)
    requires req == Manage(id, env, call) && DeviceVerdict(db, id, dev, call).Proceed?
    ensures
      var v := DeviceVerdict(db, id, dev, call);
      var done := Execute(db, now, req, snap, v.ops, v.last, Done);
      done.0.messages == Touched(db, EffectOf(db, now, req, done.1))
  {
    hide Execute, Remaining;
    var v := DeviceVerdict(db, id, dev, call);
    if call.AskRevoke? {
      RevokeEffect(db, now, req, snap, id, call.target, env);
    } else {
      QuietSteps(db, now, req, snap, v.ops, v.last, Done);
    }
  }

  lemma RefusalsTouchNothing(r: Relay, now: Nanos, req: Request)
    requires VerdictOn(r, now, req).Refuse?
    ensures EffectOf(r.db, now, req, VerdictOn(r, now, req).response) == Nothing
  {
    hide Authenticate;
  }
}
