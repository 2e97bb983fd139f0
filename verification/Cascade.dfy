/**
  Revocation and retirement: in every state an atomically served relay reaches, a revoked device
  has nothing left and a retired queue is empty, and neither flag ever clears.
  */
module Cascade {
  import opened Results
  import opened Tables
  import opened StoreSpec
  import opened RowFacts
  import opened Integrity
  import opened Handlers
  import opened Runs

  ghost predicate Bare(db: Db, d: Id)
    requires d in db.devices
  {
    && db.devices[d].push == ""
    && d !in db.bundles
    && forall r :: r in db.queues && db.queues[r].owner == d ==> db.queues[r].retired
  }

  ghost predicate RevokedAreBare(db: Db) {
    forall d :: d in db.devices && db.devices[d].revoked ==> Bare(db, d)
  }

  ghost predicate RetiredAreEmpty(db: Db) {
    forall m :: m in db.messages && m.queue in db.queues ==> !db.queues[m.queue].retired
  }

  ghost predicate Cascaded(db: Db) {
    RevokedAreBare(db) && RetiredAreEmpty(db)
  }

  lemma AccountOpCascades(db: Db, now: Nanos, op: AccountOp)
    requires Cascaded(db)
    ensures Cascaded(ApplyAccountOp(db, now, op).0)
  {
    var next := ApplyAccountOp(db, now, op).0;
    assert next.devices == db.devices && next.bundles == db.bundles;
    assert next.queues == db.queues && next.messages == db.messages;
    forall d | d in db.devices && db.devices[d].revoked ensures Bare(next, d) {
      assert Bare(db, d);
    }
  }

  /** A live device may be edited freely; a revoked one only in its role and ceiling. */
  lemma DeviceEditCascades(db: Db, id: Id, d: Device)
    requires Valid(db) && Cascaded(db)
    requires d.revoked ==> id in db.devices && db.devices[id].revoked && d.push == ""
    ensures Cascaded(db.(devices := db.devices[id := d]))
  {
    var next := db.(devices := db.devices[id := d]);
    forall e | e in next.devices && next.devices[e].revoked ensures Bare(next, e) {
      assert Bare(db, e);
    }
  }

  lemma DeviceOpCascades(db: Db, now: Nanos, op: DeviceOp)
    requires Valid(db) && Cascaded(db) && Guarded(db, OnDevices(op))
    ensures Cascaded(ApplyDeviceOp(db, now, op).0)
  {
    hide Valid, Cascaded;
    match op
    case OpRegister(token, device, pub, push) =>
      var r := RegisterDevice(db, now, token, device, pub, push);
      if r.Ok? {
        DeviceEditCascades(db, device, r.value.devices[device]);
        InvitationsAside(db.(devices := r.value.devices), r.value.invitations);
      }
    case OpSetRole(account, device, role) =>
      var r := SetDeviceRole(db, account, device, role);
      if r.Ok? { DeviceEditCascades(db, device, r.value.devices[device]); }
    case OpPromote(device) =>
      var r := PromoteDevice(db, device);
      if r.Ok? { DeviceEditCascades(db, device, r.value.devices[device]); }
    case OpUpdatePush(device, push) =>
      DeviceEditCascades(db, device, db.devices[device].(push := push));
    case OpSetBundle(device, blob) =>
      BundleCascades(db, device, blob);
    case OpSetDeviceQuota(device, bytes) =>
      var r := SetDeviceQuota(db, device, bytes);
      if r.Ok? { DeviceEditCascades(db, device, r.value.devices[device]); }
  }

  lemma InvitationsAside(db: Db, invitations: Invitations)
    requires Cascaded(db)
    ensures Cascaded(db.(invitations := invitations))
  {
    forall d | d in db.devices && db.devices[d].revoked ensures Bare(db.(invitations := invitations), d) {
      assert Bare(db, d);
    }
  }

  lemma BundleCascades(db: Db, id: Id, blob: Bytes)
    requires Cascaded(db) && Live(db, id)
    ensures Cascaded(SetBundle(db, id, blob).value)
  {
    var next := SetBundle(db, id, blob).value;
    forall d | d in next.devices && next.devices[d].revoked ensures Bare(next, d) {
      assert Bare(db, d);
    }
  }

  /** A queue row may be added for a live owner, or edited without reviving it. */
  lemma QueueEditCascades(db: Db, rid: Id, q: Queue)
    requires Valid(db) && Cascaded(db)
    requires rid in db.queues ==> q.owner == db.queues[rid].owner && q.retired == db.queues[rid].retired
    requires rid !in db.queues ==> Live(db, q.owner) && !q.retired
    ensures RevokedAreBare(db.(queues := db.queues[rid := q]))
    ensures RetiredAreEmpty(db.(queues := db.queues[rid := q]))
  {
    var next := db.(queues := db.queues[rid := q]);
    forall d | d in next.devices && next.devices[d].revoked ensures Bare(next, d) {
      assert Bare(db, d);
    }
  }

  lemma SendersAside(db: Db, senders: map<Id, Id>)
    requires Cascaded(db)
    ensures Cascaded(db.(senders := senders))
  {
    forall d | d in db.devices && db.devices[d].revoked ensures Bare(db.(senders := senders), d) {
      assert Bare(db, d);
    }
  }

  lemma QueueOpCascades(db: Db, op: QueueOp)
    requires Valid(db) && Cascaded(db) && Guarded(db, OnQueues(op))
    ensures Cascaded(ApplyQueueOp(db, op).0)
  {
    hide Valid, RevokedAreBare, RetiredAreEmpty;
    match op
    case OpCreateQueue(owner, key, rid, sid) =>
      var r := CreateQueue(db, owner, key, rid, sid);
      if r.Ok? {
        QueueEditCascades(db, rid, r.value.queues[rid]);
        SendersAside(db.(queues := r.value.queues), r.value.senders);
      }
    case OpSetQueueQuota(rid, bytes) =>
      if rid in db.queues { QueueEditCascades(db, rid, db.queues[rid].(quotaBytes := bytes)); }
    case OpBind(sid, key) =>
      if Bindable(db, sid) {
        var rid := db.senders[sid];
        QueueEditCascades(db, rid, db.queues[rid].(senderKey := Some(key)));
      }
  }

  /** Disabling a device takes everything the invariant asks for, in one step. */
  lemma DisableCascades(db: Db, id: Id)
    requires Valid(db) && Cascaded(db)
    ensures Cascaded(Disable(db, id))
    ensures id in db.devices ==> Bare(Disable(db, id), id)
  {
    var next := Disable(db, id);
    SelectedIff(db.messages, db.queues, db.devices, OwnedBy(id));
    forall d | d in next.devices && (next.devices[d].revoked || d == id) ensures Bare(next, d) {
      if d != id { assert Bare(db, d); }
    }
    forall m | m in next.messages && m.queue in next.queues ensures !next.queues[m.queue].retired {
      assert m in db.messages && !Selects(db.queues, db.devices, OwnedBy(id), m);
    }
  }

  lemma DeletionCascades(db: Db, w: Where)
    requires Cascaded(db)
    ensures Cascaded(Without(db, w))
  {
    SelectedIff(db.messages, db.queues, db.devices, w);
    forall d | d in db.devices && db.devices[d].revoked ensures Bare(Without(db, w), d) {
      assert Bare(db, d);
    }
  }

  lemma RetireCascades(db: Db, rid: Id)
    requires Valid(db) && Cascaded(db)
    ensures Cascaded(RetireQueue(db, rid))
  {
    var kept := Without(db, InQueue(rid));
    DeletionCascades(db, InQueue(rid));
    if rid in db.queues {
      var next := RetireQueue(db, rid);
      SelectedIff(db.messages, db.queues, db.devices, InQueue(rid));
      forall d | d in next.devices && next.devices[d].revoked ensures Bare(next, d) {
        assert Bare(kept, d);
      }
      forall m | m in next.messages && m.queue in next.queues ensures !next.queues[m.queue].retired {
        assert m in db.messages && m.queue != rid;
      }
    }
  }

  lemma AppendCascades(db: Db, now: Nanos, rid: Id, payload: Bytes, ttl: Nanos, id: Id)
    requires Cascaded(db) && rid in db.queues && !db.queues[rid].retired
    requires AppendMessage(db, now, rid, payload, ttl, id).Ok?
    ensures Cascaded(AppendMessage(db, now, rid, payload, ttl, id).value)
  {
    var next := AppendMessage(db, now, rid, payload, ttl, id).value;
    forall d | d in next.devices && next.devices[d].revoked ensures Bare(next, d) {
      assert Bare(db, d);
    }
  }

  lemma MessageOpCascades(db: Db, now: Nanos, op: MessageOp)
    requires Cascaded(db) && Guarded(db, OnMessages(op))
    ensures Cascaded(ApplyMessageOp(db, now, op).0)
  {
    hide Cascaded;
    match op
    case OpAppend(rid, payload, ttl, id) =>
      if AppendMessage(db, now, rid, payload, ttl, id).Ok? { AppendCascades(db, now, rid, payload, ttl, id); }
    case OpPurgeQueue(rid) => DeletionCascades(db, ExpiredIn(rid, Seconds(now)));
    case OpDelete(rid, ids) => DeletionCascades(db, Named(rid, ids));
    case OpPurge => DeletionCascades(db, Expired(Seconds(now)));
  }

  /** Every guarded step keeps the cascade. */
  lemma StepCascades(db: Db, now: Nanos, op: Op)
    requires Valid(db) && Cascaded(db) && Guarded(db, op)
    ensures Cascaded(After(db, now, op))
  {
    hide Valid, Cascaded, Guarded, ApplyAccountOp, ApplyDeviceOp, ApplyQueueOp, ApplyRetireOp, ApplyMessageOp;
    match op
    case OnAccounts(o) => AccountOpCascades(db, now, o);
    case OnDevices(o) => DeviceOpCascades(db, now, o);
    case OnQueues(o) => QueueOpCascades(db, o);
    case Retiring(o) => RetireOpCascades(db, o);
    case OnMessages(o) => MessageOpCascades(db, now, o);
    case Reading(query) =>
  }

  lemma RetireOpCascades(db: Db, op: RetireOp)
    requires Valid(db) && Cascaded(db)
    ensures Cascaded(ApplyRetireOp(db, op).0)
  {
    hide Valid, Cascaded;
    match op
    case OpRevoke(caller, device) => DisableCascades(db, device);
    case OpRetire(rid) => RetireCascades(db, rid);
  }

  lemma {:induction false} ExecuteCascades(
      db: Db, now: Nanos, req: Request, snap: Snapshot, ops: seq<Op>, last: Option<Response>, reply: Reply)
    requires Valid(db) && Cascaded(db) && GuardedSteps(db, now, ops)
    ensures Cascaded(Execute(db, now, req, snap, ops, last, reply).0)
    decreases |ops|
  {
    hide Valid, Cascaded, Apply, Guarded;
    if ops != [] {
      var r := Apply(db, now, ops[0]);
      StepKeepsValid(db, now, ops[0]);
      StepCascades(db, now, ops[0]);
      if Stop(ops[0], r.1).None? {
        ExecuteCascades(r.0, now, req, snap, ops[1..], last, r.1);
      }
    }
  }

  lemma ServeCascades(r: Relay, now: Nanos, req: Request)
    requires Valid(r.db) && Cascaded(r.db)
    ensures Cascaded(Serve(r, now, req).0.db)
  {
    hide Valid, Cascaded, Authorise, Execute;
    ServeIsGuarded(r, now, req);
    match VerdictOn(r, now, req)
    case Refuse(_) =>
    case Proceed(ops, last) => ExecuteCascades(r.db, now, req, Lookup(r.db, req), ops, last, Done);
  }

  /** In every state the relay reaches from an empty database, each revoked device has no push
      endpoint, no bundle and only retired queues, and each retired queue is empty. */
  lemma {:induction false} RevocationCascade(evs: seq<Event>)
    ensures Valid(State(EmptyRelay, evs).db)
    ensures Cascaded(State(EmptyRelay, evs).db)
  {
    hide Valid, Serve;
    if evs == [] {
      EmptyIsValid();
    } else {
      var n := |evs| - 1;
      RevocationCascade(evs[..n]);
      ServeKeepsValid(State(EmptyRelay, evs[..n]), evs[n].now, evs[n].req);
      ServeCascades(State(EmptyRelay, evs[..n]), evs[n].now, evs[n].req);
    }
  }

  /** Neither flag ever clears, and an identity once revoked answers no signed request again. */
  lemma RevokedForEver(start: Relay, evs: seq<Event>, id: Id, now: Nanos, env: Envelope, call: Call)
    requires Valid(start.db) && id in start.db.devices && start.db.devices[id].revoked
    ensures Serve(State(start, evs), now, Manage(id, env, call)).1 == Unauthorized
    ensures Serve(State(start, evs), now, Manage(id, env, call)).0 == State(start, evs)
  {
    hide Authenticate, DeviceVerdict, Execute;
    RunKeepsValid(start, evs);
  }

  /** A retired queue answers nothing again, to its owner or to its sender, and changes nothing. */
  lemma RetiredToItsOwner(start: Relay, evs: seq<Event>, rid: Id, now: Nanos, env: Envelope, call: QueueCall)
    requires Valid(start.db) && rid in start.db.queues && start.db.queues[rid].retired
    ensures Serve(State(start, evs), now, Receive(rid, env, call)) == (State(start, evs), NotFound)
  {
    hide Valid, Authenticate, QueueVerdict, Execute;
    RunKeepsValid(start, evs);
  }

  lemma RetiredToItsSender(start: Relay, evs: seq<Event>, rid: Id, now: Nanos, env: Envelope,
      header: Option<Key>, body: Option<SendBody>, newId: Id)
    requires Valid(start.db) && rid in start.db.queues && start.db.queues[rid].retired
    ensures var sid := start.db.queues[rid].senderId;
      Serve(State(start, evs), now, Send(sid, env, header, body, newId)) == (State(start, evs), NotFound)
  {
    hide Linked, Authenticate, ResolveSenderKey, SendOps, Execute;
    RunKeepsValid(start, evs);
    assert Ages(start.db, State(start, evs).db);
    assert QueueAges(start.db.queues[rid], State(start, evs).db.queues[rid]);
  }
}
