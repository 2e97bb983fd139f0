/**
  Lazy expiry refines eager expiry: a relay that still holds expired rows answers as one from
  which sweeps have removed them, wherever in the run they were made.  Only the count an
  acknowledgement reports may be larger.
  */
module Expiry {
  import opened Results
  import opened Tables
  import opened StoreSpec
  import opened RowFacts
  import opened Integrity
  import opened Handlers
  import opened Runs
  import opened Quotas

  /** `lean` is `full` with some rows dropped that had expired at `at`. */
  ghost predicate Thinned(full: seq<Message>, lean: seq<Message>, at: Stamp)
    decreases |full|
  {
    if full == [] then lean == []
    else
      var init, last := full[..|full| - 1], full[|full| - 1];
      || (lean != [] && lean[|lean| - 1] == last && Thinned(init, lean[..|lean| - 1], at))
      || (last.expires <= at && Thinned(init, lean, at))
  }

  lemma {:induction false} ThinnedSelf(ms: seq<Message>, at: Stamp)
    ensures Thinned(ms, ms, at)
  {
    if ms != [] { ThinnedSelf(ms[..|ms| - 1], at); }
  }

  lemma {:induction false} ThinnedLater(full: seq<Message>, lean: seq<Message>, at: Stamp, later: Stamp)
    requires Thinned(full, lean, at) && at <= later
    ensures Thinned(full, lean, later)
    decreases |full|
  {
    if full != [] {
      var init, last := full[..|full| - 1], full[|full| - 1];
      if last.expires <= at && Thinned(init, lean, at) {
        ThinnedLater(init, lean, at, later);
      } else {
        ThinnedLater(init, lean[..|lean| - 1], at, later);
      }
    }
  }

  lemma ThinnedSnoc(full: seq<Message>, lean: seq<Message>, m: Message, at: Stamp)
    requires Thinned(full, lean, at)
    ensures Thinned(full + [m], lean + [m], at)
  {
    assert (full + [m])[..|full|] == full && (lean + [m])[..|lean|] == lean;
  }

  lemma ThinnedDrop(full: seq<Message>, lean: seq<Message>, m: Message, at: Stamp)
    requires Thinned(full, lean, at) && m.expires <= at
    ensures Thinned(full + [m], lean, at)
  {
    assert (full + [m])[..|full|] == full;
  }

  /** Expired rows weigh nothing. */
  lemma {:induction false} ThinnedWeighs(
      full: seq<Message>, lean: seq<Message>, at: Stamp, queues: Queues, devices: Devices, w: Where)
    requires Thinned(full, lean, at)
    ensures LiveBytes(full, queues, devices, w, at) == LiveBytes(lean, queues, devices, w, at)
    decreases |full|
  {
    if full != [] {
      var init, last := full[..|full| - 1], full[|full| - 1];
      if last.expires <= at && Thinned(init, lean, at) {
        ThinnedWeighs(init, lean, at, queues, devices, w);
      } else {
        ThinnedWeighs(init, lean[..|lean| - 1], at, queues, devices, w);
      }
    }
  }

  /** A deletion deletes at most as many rows of the lean table, and leaves it lean. */
  lemma {:induction false} ThinnedDeletion(
      full: seq<Message>, lean: seq<Message>, at: Stamp, queues: Queues, devices: Devices, w: Where)
    requires Thinned(full, lean, at)
    ensures Thinned(Remaining(full, queues, devices, w), Remaining(lean, queues, devices, w), at)
    ensures |Selected(lean, queues, devices, w)| <= |Selected(full, queues, devices, w)|
    decreases |full|
  {
    hide Selects;
    if full != [] {
      var init, last := full[..|full| - 1], full[|full| - 1];
      var kept := Remaining(init, queues, devices, w);
      if last.expires <= at && Thinned(init, lean, at) {
        ThinnedDeletion(init, lean, at, queues, devices, w);
        ThinnedDrop(kept, Remaining(lean, queues, devices, w), last, at);
      } else {
        var shorter := lean[..|lean| - 1];
        ThinnedDeletion(init, shorter, at, queues, devices, w);
        ThinnedSnoc(kept, Remaining(shorter, queues, devices, w), last, at);
      }
    }
  }

  /** A sweep of the lean table alone keeps it lean. */
  lemma {:induction false} ThinnedSweep(full: seq<Message>, lean: seq<Message>, at: Stamp, queues: Queues,
      devices: Devices)
    requires Thinned(full, lean, at)
    ensures Thinned(full, Remaining(lean, queues, devices, Expired(at)), at)
    decreases |full|
  {
    hide Remaining, Selected;
    if full == [] {
      NothingSelected([], queues, devices, Expired(at));
    } else {
      var init, last := full[..|full| - 1], full[|full| - 1];
      assert full == init + [last];
      if last.expires <= at && Thinned(init, lean, at) {
        ThinnedSweep(init, lean, at, queues, devices);
        ThinnedDrop(init, Remaining(lean, queues, devices, Expired(at)), last, at);
      } else {
        var shorter := lean[..|lean| - 1];
        assert lean == shorter + [last];
        ThinnedSweep(init, shorter, at, queues, devices);
        RemainingSnoc(shorter, last, queues, devices, Expired(at));
        var swept := Remaining(shorter, queues, devices, Expired(at));
        assert swept + [] == swept;
        SweepSnoc(init, swept, last, at);
      }
    }
  }

  lemma SweepSnoc(full: seq<Message>, lean: seq<Message>, m: Message, at: Stamp)
    requires Thinned(full, lean, at)
    ensures m.expires <= at ==> Thinned(full + [m], lean, at)
    ensures Thinned(full + [m], lean + [m], at)
  {
    ThinnedSnoc(full, lean, m, at);
    if m.expires <= at { ThinnedDrop(full, lean, m, at); }
  }

  /** The rows of a queue once its expired ones are gone. */
  function LiveIn(ms: seq<Message>, at: Stamp, queues: Queues, devices: Devices, q: Id): seq<Message> {
    Selected(Remaining(ms, queues, devices, ExpiredIn(q, at)), queues, devices, InQueue(q))
  }

  lemma LiveInSnoc(ms: seq<Message>, m: Message, at: Stamp, queues: Queues, devices: Devices, q: Id)
    ensures LiveIn(ms + [m], at, queues, devices, q)
         == LiveIn(ms, at, queues, devices, q) + if m.queue == q && m.expires > at then [m] else []
  {
    hide Remaining, Selected;
    var kept := Remaining(ms, queues, devices, ExpiredIn(q, at));
    RemainingSnoc(ms, m, queues, devices, ExpiredIn(q, at));
    RemainingSnoc(kept, m, queues, devices, InQueue(q));
    assert kept + [] == kept;
    var live := Selected(kept, queues, devices, InQueue(q));
    assert live + [] == live;
  }

  /** Once a queue's expired rows are gone, it reads the same in both tables. */
  lemma {:induction false} ThinnedReads(full: seq<Message>, lean: seq<Message>, at: Stamp, queues: Queues,
      devices: Devices, q: Id)
    requires Thinned(full, lean, at)
    ensures LiveIn(full, at, queues, devices, q) == LiveIn(lean, at, queues, devices, q)
    decreases |full|
  {
    hide Thinned, LiveIn;
    if full == [] {
      ThinnedCases(full, lean, at);
    } else {
      var init, last := full[..|full| - 1], full[|full| - 1];
      assert full == init + [last];
      ThinnedCases(full, lean, at);
      if last.expires <= at && Thinned(init, lean, at) {
        ThinnedReads(init, lean, at, queues, devices, q);
        LiveInSnoc(init, last, at, queues, devices, q);
      } else {
        var shorter := lean[..|lean| - 1];
        assert lean == shorter + [last];
        ThinnedReads(init, shorter, at, queues, devices, q);
        LiveInSnoc(init, last, at, queues, devices, q);
        LiveInSnoc(shorter, last, at, queues, devices, q);
      }
    }
  }

  lemma ThinnedCases(full: seq<Message>, lean: seq<Message>, at: Stamp)
    requires Thinned(full, lean, at)
    ensures full == [] ==> lean == []
    ensures full != [] ==>
      var init, last := full[..|full| - 1], full[|full| - 1];
      || (lean != [] && lean[|lean| - 1] == last && Thinned(init, lean[..|lean| - 1], at))
      || (last.expires <= at && Thinned(init, lean, at))
  {
  }

  lemma {:induction false} ThinnedIds(full: seq<Message>, lean: seq<Message>, at: Stamp, id: Id)
    requires Thinned(full, lean, at) && !IdTaken(full, id)
    ensures !IdTaken(lean, id)
    decreases |full|
  {
    if full != [] {
      var init, last := full[..|full| - 1], full[|full| - 1];
      assert forall i :: 0 <= i < |init| ==> init[i] == full[i];
      assert full[|full| - 1].id != id;
      if last.expires <= at && Thinned(init, lean, at) {
        ThinnedIds(init, lean, at, id);
      } else {
        var shorter := lean[..|lean| - 1];
        ThinnedIds(init, shorter, at, id);
        assert forall i :: 0 <= i < |shorter| ==> shorter[i] == lean[i];
      }
    }
  }

  // ---- two databases, one step

  /** `lean` is `full` but for expired rows. */
  ghost predicate Lags(full: Db, lean: Db, at: Stamp) {
    lean == full.(messages := lean.messages) && Thinned(full.messages, lean.messages, at)
  }

  ghost predicate SameReply(full: Reply, lean: Reply) {
    full == lean || (full.Count? && lean.Count? && lean.n <= full.n)
  }

  /** The id of a message, when the step stores one, is new. */
  predicate FreshMessage(db: Db, op: Op) {
    op.OnMessages? && op.message.OpAppend? ==> !IdTaken(db.messages, op.message.id)
  }

  lemma StoredAgrees(full: Db, lean: Db, at: Stamp, w: Where)
    requires Lags(full, lean, at)
    ensures Stored(full, w, at) == Stored(lean, w, at)
  {
    ThinnedWeighs(full.messages, lean.messages, at, full.queues, full.devices, w);
  }

  lemma DeletionLags(full: Db, lean: Db, at: Stamp, w: Where)
    requires Lags(full, lean, at)
    ensures Lags(Without(full, w), Without(lean, w), at)
    ensures |Selected(lean.messages, lean.queues, lean.devices, w)|
         <= |Selected(full.messages, full.queues, full.devices, w)|
  {
    ThinnedDeletion(full.messages, lean.messages, at, full.queues, full.devices, w);
  }

  lemma RoomAgrees(full: Db, lean: Db, at: Stamp, rid: Id, size: nat)
    requires Lags(full, lean, at) && Resolves(full, rid)
    ensures HasRoom(full, rid, at, size) <==> HasRoom(lean, rid, at, size)
  {
    hide Stored, Thinned;
    var q := full.queues[rid];
    StoredAgrees(full, lean, at, InQueue(rid));
    StoredAgrees(full, lean, at, OwnedBy(q.owner));
    StoredAgrees(full, lean, at, InAccount(full.devices[q.owner].account));
  }

  lemma AppendLags(full: Db, lean: Db, now: Nanos, rid: Id, payload: Bytes, ttl: Nanos, id: Id)
    requires Lags(full, lean, Seconds(now)) && !IdTaken(full.messages, id)
    ensures
      var f, l := AppendMessage(full, now, rid, payload, ttl, id), AppendMessage(lean, now, rid, payload, ttl, id);
      && (f.Ok? <==> l.Ok?)
      && (f.Err? ==> f == l)
      && (f.Ok? ==> Lags(f.value, l.value, Seconds(now)))
  {
    hide HasRoom, Thinned, IdTaken;
    ThinnedIds(full.messages, lean.messages, Seconds(now), id);
    if Resolves(full, rid) {
      RoomAgrees(full, lean, Seconds(now), rid, |payload|);
      var m := Message(full.lastSeq + 1, id, rid, payload, Seconds(now), Seconds(now + ttl));
      ThinnedSnoc(full.messages, lean.messages, m, Seconds(now));
    }
  }

  lemma MessageOpLags(full: Db, lean: Db, now: Nanos, op: MessageOp)
    requires Lags(full, lean, Seconds(now)) && FreshMessage(full, OnMessages(op))
    ensures var f, l := ApplyMessageOp(full, now, op), ApplyMessageOp(lean, now, op);
      Lags(f.0, l.0, Seconds(now)) && SameReply(f.1, l.1)
  {
    hide Lags, AppendMessage;
    match op
    case OpAppend(rid, payload, ttl, id) => AppendLags(full, lean, now, rid, payload, ttl, id);
    case OpPurgeQueue(rid) => DeletionLags(full, lean, Seconds(now), ExpiredIn(rid, Seconds(now)));
    case OpDelete(rid, ids) => DeletionLags(full, lean, Seconds(now), Named(rid, ids));
    case OpPurge => DeletionLags(full, lean, Seconds(now), Expired(Seconds(now)));
  }

  lemma RetireOpLags(full: Db, lean: Db, at: Stamp, op: RetireOp)
    requires Lags(full, lean, at)
    ensures var f, l := ApplyRetireOp(full, op), ApplyRetireOp(lean, op);
      Lags(f.0, l.0, at) && f.1 == l.1
  {
    match op
    case OpRevoke(caller, device) =>
      ThinnedDeletion(full.messages, lean.messages, at, full.queues, full.devices, OwnedBy(device));
      assert Lags(Disable(full, device), Disable(lean, device), at);
      if RevokeDevice(full, caller, device).Ok? {}
    case OpRetire(rid) =>
      ThinnedDeletion(full.messages, lean.messages, at, full.queues, full.devices, InQueue(rid));
      if rid in full.queues {}
  }

  lemma RevokeInvitationBlind(db: Db, ms: seq<Message>, account: Id, id: Id)
    ensures var f, l := RevokeInvitation(db, account, id), RevokeInvitation(db.(messages := ms), account, id);
      l.0 == f.0.(messages := ms) && f.0.messages == db.messages && l.1 == f.1
  {
    hide Revocable;
    assert RevocableTokens(db, account, id) == RevocableTokens(db.(messages := ms), account, id);
  }

  /** Everything but the messages is decided without looking at them. */
  lemma AccountOpBlind(db: Db, ms: seq<Message>, now: Nanos, op: AccountOp)
    ensures var f, l := ApplyAccountOp(db, now, op), ApplyAccountOp(db.(messages := ms), now, op);
      l.0 == f.0.(messages := ms) && f.0.messages == db.messages && l.1 == f.1
  {
    hide RevokeInvitation, AppendToLog, MaxSeqno, ParseMode, ParseRole, ClassCeiling;
    RevokeInvitationBlind(db, ms, op.account, if op.OpRevokeInvitation? then op.invitation else "");
    match op
    case OpCreateAccount(account, quotaClass, bytes, mode) =>
      if CreateAccount(db, account, quotaClass, bytes, mode).Ok? {}
    case OpCreateInvitation(account, token, invitation, ttl, role) =>
      if CreateInvitation(db, now, account, token, invitation, ttl, role).Ok? {}
    case OpRevokeInvitation(account, invitation) =>
    case OpAppendStatement(account, blob) =>
      if AppendStatement(db, account, blob).Ok? {}
  }

  lemma RegisterBlind(db: Db, ms: seq<Message>, now: Nanos, token: Id, id: Id, pub: Key, push: string)
    ensures
      var f := RegisterDevice(db, now, token, id, pub, push);
      var l := RegisterDevice(db.(messages := ms), now, token, id, pub, push);
      && (f.Ok? <==> l.Ok?)
      && (f.Err? ==> f == l)
      && (f.Ok? ==> l.value == f.value.(messages := ms) && f.value.messages == db.messages)
  {
    hide DevicesOf;
  }

  lemma SetRoleBlind(db: Db, ms: seq<Message>, account: Id, id: Id, role: string)
    ensures var f, l := SetDeviceRole(db, account, id, role), SetDeviceRole(db.(messages := ms), account, id, role);
      && (f.Ok? <==> l.Ok?)
      && (f.Err? ==> f == l)
      && (f.Ok? ==> l.value == f.value.(messages := ms) && f.value.messages == db.messages)
  {
    hide StripsLastAdmin, ParseRole;
  }

  lemma PromoteBlind(db: Db, ms: seq<Message>, id: Id)
    ensures var f, l := PromoteDevice(db, id), PromoteDevice(db.(messages := ms), id);
      && (f.Ok? <==> l.Ok?)
      && (f.Err? ==> f == l)
      && (f.Ok? ==> l.value == f.value.(messages := ms) && f.value.messages == db.messages)
  {
  }

  lemma DeviceOpBlind(db: Db, ms: seq<Message>, now: Nanos, op: DeviceOp)
    ensures var f, l := ApplyDeviceOp(db, now, op), ApplyDeviceOp(db.(messages := ms), now, op);
      l.0 == f.0.(messages := ms) && f.0.messages == db.messages && l.1 == f.1
  {
    hide RegisterDevice, SetDeviceRole, PromoteDevice;
    match op
    case OpRegister(token, device, pub, push) => RegisterBlind(db, ms, now, token, device, pub, push);
    case OpSetRole(account, device, role) => SetRoleBlind(db, ms, account, device, role);
    case OpPromote(device) => PromoteBlind(db, ms, device);
    case OpUpdatePush(device, push) =>
      if device in db.devices {}
    case OpSetBundle(device, blob) =>
      if SetBundle(db, device, blob).Ok? {}
    case OpSetDeviceQuota(device, bytes) =>
      if SetDeviceQuota(db, device, bytes).Ok? {}
  }

  lemma BindBlind(db: Db, ms: seq<Message>, sid: Id, key: Key)
    ensures var f, l := BindSenderKey(db, sid, key), BindSenderKey(db.(messages := ms), sid, key);
      && (f.Ok? <==> l.Ok?)
      && (f.Err? ==> f.error == l.error)
      && (f.Ok? ==> l.value == (f.value.0.(messages := ms), f.value.1) && f.value.0.messages == db.messages)
  {
    if Bindable(db, sid) {}
  }

  lemma QueueOpBlind(db: Db, ms: seq<Message>, op: QueueOp)
    ensures var f, l := ApplyQueueOp(db, op), ApplyQueueOp(db.(messages := ms), op);
      l.0 == f.0.(messages := ms) && f.0.messages == db.messages && l.1 == f.1
  {
    hide BindSenderKey;
    match op
    case OpCreateQueue(owner, key, rid, sid) =>
      if CreateQueue(db, owner, key, rid, sid).Ok? {}
    case OpBind(sid, key) => BindBlind(db, ms, sid, key);
    case OpSetQueueQuota(rid, bytes) =>
      if SetQueueQuota(db, rid, bytes).Ok? {}
  }

  lemma QueryLags(full: Db, lean: Db, now: Nanos, query: Query)
    requires Lags(full, lean, Seconds(now)) && !query.OpSelectQueue?
    ensures Answer(full, now, query) == Answer(lean, now, query)
  {
    hide Stored;
    if query.OpReadQuota? { StoredAgrees(full, lean, Seconds(now), OwnedBy(query.device)); }
  }

  /** One step on both: the same reply but for counts, and the one still only lags behind. */
  lemma StepLags(full: Db, lean: Db, now: Nanos, op: Op)
    requires Lags(full, lean, Seconds(now)) && FreshMessage(full, op)
    requires !(op.Reading? && op.query.OpSelectQueue?)
    ensures Lags(After(full, now, op), After(lean, now, op), Seconds(now))
    ensures SameReply(Apply(full, now, op).1, Apply(lean, now, op).1)
  {
    hide ApplyAccountOp, ApplyDeviceOp, ApplyQueueOp, ApplyRetireOp, ApplyMessageOp, Answer, Thinned;
    match op
    case OnAccounts(o) => AccountOpBlind(full, lean.messages, now, o);
    case OnDevices(o) => DeviceOpBlind(full, lean.messages, now, o);
    case OnQueues(o) => QueueOpBlind(full, lean.messages, o);
    case Retiring(o) => RetireOpLags(full, lean, Seconds(now), o);
    case OnMessages(o) => MessageOpLags(full, lean, now, o);
    case Reading(query) => QueryLags(full, lean, now, query);
  }

  // ---- requests

  ghost predicate SameAnswer(full: Response, lean: Response) {
    full == lean || (full.Deleted? && lean.Deleted? && lean.n <= full.n)
  }

  lemma SameReplySameStop(op: Op, full: Reply, lean: Reply)
    requires SameReply(full, lean)
    ensures Stop(op, full) == Stop(op, lean)
  {
  }

  lemma SameReplySameFinish(req: Request, snap: Snapshot, last: Option<Response>, full: Reply, lean: Reply)
    requires SameReply(full, lean)
    ensures SameAnswer(Finish(req, snap, last, full), Finish(req, snap, last, lean))
  {
  }

  lemma {:induction false} ExecuteLags(
      full: Db, lean: Db, now: Nanos, req: Request, snap: Snapshot, ops: seq<Op>, last: Option<Response>, r1: Reply,
      r2: Reply)
    requires Lags(full, lean, Seconds(now)) && SameReply(r1, r2)
    requires forall i :: 0 <= i < |ops| ==> !(ops[i].Reading? && ops[i].query.OpSelectQueue?)
    requires forall i :: 0 <= i < |ops| ==> FreshMessage(full, ops[i])
    requires forall i :: 0 <= i < |ops| - 1 ==> !ops[i].OnMessages?
    ensures var f, l := Execute(full, now, req, snap, ops, last, r1), Execute(lean, now, req, snap, ops, last, r2);
      Lags(f.0, l.0, Seconds(now)) && SameAnswer(f.1, l.1)
    decreases |ops|
  {
    hide Lags, Apply, SameReply, SameAnswer, Finish, Stop;
    if ops == [] {
      SameReplySameFinish(req, snap, last, r1, r2);
    } else {
      var f, l := Apply(full, now, ops[0]), Apply(lean, now, ops[0]);
      StepLags(full, lean, now, ops[0]);
      SameReplySameStop(ops[0], f.1, l.1);
      if Stop(ops[0], f.1).None? {
        if |ops| > 1 { OnlyMessageOpsAddIds(full, now, ops[0], ops[1..]); }
        ExecuteLags(f.0, l.0, now, req, snap, ops[1..], last, f.1, l.1);
      } else {
        assert SameAnswer(Stop(ops[0], f.1).value, Stop(ops[0], l.1).value) by {
          AnswersItself(Stop(ops[0], f.1).value);
        }
      }
    }
  }

  lemma AnswersItself(r: Response)
    ensures SameAnswer(r, r)
  {
  }

  lemma OnlyMessageOpsAddIds(db: Db, now: Nanos, op: Op, ops: seq<Op>)
    requires !op.OnMessages? && forall i :: 0 <= i < |ops| ==> FreshMessage(db, ops[i])
    ensures forall i :: 0 <= i < |ops| ==> FreshMessage(After(db, now, op), ops[i])
  {
    hide Apply, IdTaken;
    MessagesAfter(db, now, op);
    forall i | 0 <= i < |ops| ensures FreshMessage(After(db, now, op), ops[i]) {
      assert FreshMessage(db, ops[i]);
      if ops[i].OnMessages? && ops[i].message.OpAppend? {
        match Deletion(db, now, op)
        case None =>
        case Some(w) => DeletionAddsNoId(db.messages, db.queues, db.devices, w, ops[i].message.id);
      }
    }
  }

  lemma DeletionAddsNoId(ms: seq<Message>, queues: Queues, devices: Devices, w: Where, id: Id)
    requires !IdTaken(ms, id)
    ensures !IdTaken(Remaining(ms, queues, devices, w), id)
  {
    var kept := Remaining(ms, queues, devices, w);
    SelectedIff(ms, queues, devices, w);
    forall i | 0 <= i < |kept| ensures kept[i].id != id {
      assert kept[i] in ms;
    }
  }

  /** A drain: two statements, one answer. */
  lemma DrainLags(full: Db, lean: Db, now: Nanos, req: Request, snap: Snapshot, rid: Id)
    requires Lags(full, lean, Seconds(now))
    ensures
      var ops := [OnMessages(OpPurgeQueue(rid)), Reading(OpSelectQueue(rid))];
      var f, l := Execute(full, now, req, snap, ops, None, Done), Execute(lean, now, req, snap, ops, None, Done);
      Lags(f.0, l.0, Seconds(now)) && f.1 == l.1
  {
    hide Success;
    var purge, select := OnMessages(OpPurgeQueue(rid)), Reading(OpSelectQueue(rid));
    assert [purge, select][1..] == [select] && [select][1..] == [];
    var w := ExpiredIn(rid, Seconds(now));
    DeletionLags(full, lean, Seconds(now), w);
    ThinnedReads(full.messages, lean.messages, Seconds(now), full.queues, full.devices, rid);
    DrainRuns(full, now, req, snap, rid);
    DrainRuns(lean, now, req, snap, rid);
  }

  lemma DrainRuns(db: Db, now: Nanos, req: Request, snap: Snapshot, rid: Id)
    ensures
      var ops := [OnMessages(OpPurgeQueue(rid)), Reading(OpSelectQueue(rid))];
      var swept := Without(db, ExpiredIn(rid, Seconds(now)));
      Execute(db, now, req, snap, ops, None, Done) == (swept, Success(req, snap, Drained(SelectQueue(swept, rid))))
  {
    hide Success, SelectQueue, Remaining;
    var purge, select := OnMessages(OpPurgeQueue(rid)), Reading(OpSelectQueue(rid));
    assert [purge, select] == [purge] + [select];
    FirstStep(db, now, req, snap, purge, [select], None);
    OneStep(Without(db, ExpiredIn(rid, Seconds(now))), now, req, snap, select);
  }

  /** Lookup and authorisation never look at messages. */
  lemma AuthoriseBlind(db: Db, ms: seq<Message>, seen: Nonces.Seen, now: Nanos, req: Request)
    ensures Lookup(db, req) == Lookup(db.(messages := ms), req)
    ensures Authorise(db, seen, now, req, Lookup(db, req)) ==
      Authorise(db.(messages := ms), seen, now, req, Lookup(db, req))
  {
    hide Authenticate;
  }

  lemma StepsOfARequest(r: Relay, now: Nanos, req: Request)
    ensures var ops := Granted(VerdictOn(r, now, req));
      && (forall i :: 0 <= i < |ops| - 1 && ops[i].OnMessages? ==> req.Receive? && req.queueCall == Recv)
      && (forall i :: 0 <= i < |ops| && ops[i].Reading? && ops[i].query.OpSelectQueue? ==>
            req.Receive? && req.queueCall == Recv)
      && (forall i :: 0 <= i < |ops| && ops[i].OnMessages? && ops[i].message.OpAppend? ==>
            req.Send? && ops[i].message.id == req.newId)
  {
    hide Authenticate;
  }

  lemma RecvVerdict(r: Relay, now: Nanos, req: Request)
    requires req.Receive? && req.queueCall == Recv && VerdictOn(r, now, req).Proceed?
    ensures VerdictOn(r, now, req)
         == Proceed([OnMessages(OpPurgeQueue(req.recipient)), Reading(OpSelectQueue(req.recipient))], None)
  {
    hide Authenticate;
  }

  predicate FreshSend(db: Db, req: Request) {
    req.Send? ==> !IdTaken(db.messages, req.newId)
  }

  /** One request served by both relays. */
  lemma ServeLags(full: Relay, lean: Relay, now: Nanos, req: Request)
    requires Lags(full.db, lean.db, Seconds(now)) && full.seen == lean.seen && FreshSend(full.db, req)
    ensures var f, l := Serve(full, now, req), Serve(lean, now, req);
      Lags(f.0.db, l.0.db, Seconds(now)) && f.0.seen == l.0.seen && SameAnswer(f.1, l.1)
  {
    hide Authorise, Execute, Thinned;
    AuthoriseBlind(full.db, lean.db.messages, full.seen, now, req);
    assert lean.db == full.db.(messages := lean.db.messages);
    match VerdictOn(full, now, req)
    case Refuse(_) =>
    case Proceed(ops, last) =>
      var snap := Lookup(full.db, req);
      if req.Receive? && req.queueCall == Recv {
        RecvVerdict(full, now, req);
        DrainLags(full.db, lean.db, now, req, snap, req.recipient);
      } else {
        assert ops == Granted(VerdictOn(full, now, req));
        StepsOfARequest(full, now, req);
        ExecuteLags(full.db, lean.db, now, req, snap, ops, last, Done, Done);
      }
  }

  // ---- runs

  /** The run with its sweeps left out. */
  function NoSweeps(evs: seq<Event>): seq<Event> {
    if evs == [] then []
    else
      var rest := NoSweeps(evs[..|evs| - 1]);
      if evs[|evs| - 1].req.Sweep? then rest else rest + [evs[|evs| - 1]]
  }

  ghost predicate FreshSends(start: Relay, evs: seq<Event>) {
    forall i :: 0 <= i < |evs| ==> FreshSend(State(start, evs[..i]).db, evs[i].req)
  }

  lemma FreshSendsPrefix(start: Relay, evs: seq<Event>, e: Event)
    requires FreshSends(start, evs + [e])
    ensures FreshSends(start, evs) && FreshSend(State(start, evs).db, e.req)
  {
    hide Serve, FreshSend;
    forall i | 0 <= i < |evs| ensures FreshSend(State(start, evs[..i]).db, evs[i].req) {
      assert (evs + [e])[..i] == evs[..i] && (evs + [e])[i] == evs[i];
    }
    assert (evs + [e])[..|evs|] == evs && (evs + [e])[|evs|] == e;
  }

  /** A sweep only thins. */
  lemma SweepLags(full: Relay, lean: Relay, now: Nanos)
    requires Lags(full.db, lean.db, Seconds(now)) && full.seen == lean.seen
    ensures var l := Serve(lean, now, Sweep).0;
      Lags(full.db, l.db, Seconds(now)) && full.seen == l.seen
    ensures forall m :: m in Serve(lean, now, Sweep).0.db.messages ==> m.expires > Seconds(now)
  {
    var at := Seconds(now);
    ThinnedSweep(full.db.messages, lean.db.messages, at, lean.db.queues, lean.db.devices);
    SweepRuns(lean, now);
    SelectedIff(lean.db.messages, lean.db.queues, lean.db.devices, Expired(at));
  }

  lemma SweepRuns(r: Relay, now: Nanos)
    ensures Serve(r, now, Sweep).0 == Relay(Without(r.db, Expired(Seconds(now))), r.seen)
  {
    hide Remaining, Success;
    var op := OnMessages(OpPurge);
    assert [op][1..] == [];
    assert Apply(r.db, now, op).0 == Without(r.db, Expired(Seconds(now)));
  }

  /** The two runs end in databases that differ by expired rows only. */
  lemma {:induction false} SweepsThin(start: Relay, evs: seq<Event>, at: Stamp)
    requires Runs.Monotone(evs) && FreshSends(start, NoSweeps(evs))
    requires evs != [] ==> at >= Seconds(evs[|evs| - 1].now)
    ensures Lags(State(start, NoSweeps(evs)).db, State(start, evs).db, at)
    ensures State(start, NoSweeps(evs)).seen == State(start, evs).seen
    decreases |evs|
  {
    hide Serve, Thinned, FreshSends, FreshSend;
    if evs == [] {
      ThinnedSelf(start.db.messages, at);
    } else {
      var n := |evs| - 1;
      var e, init := evs[n], evs[..n];
      var full, lean := State(start, NoSweeps(init)), State(start, init);
      if n > 0 { SecondsMonotone(evs[n - 1].now, e.now); }
      if e.req.Sweep? {
        SweepsThin(start, init, Seconds(e.now));
        SweepLags(full, lean, e.now);
      } else {
        FreshSendsPrefix(start, NoSweeps(init), e);
        SweepsThin(start, init, Seconds(e.now));
        ServeLags(full, lean, e.now, e.req);
        StateSnoc(start, NoSweeps(init), e);
      }
      ThinnedLater(State(start, NoSweeps(evs)).db.messages, State(start, evs).db.messages, Seconds(e.now), at);
    }
  }

  /** Lazy expiry refines eager expiry: leave every sweep out of a run, and each other request is
      answered the same, down to drains, quota decisions and stored-bytes reads; only the number
      of rows an acknowledgement deletes may be larger. */
  lemma LazyExpiry(start: Relay, evs: seq<Event>, i: nat)
    requires Runs.Monotone(evs) && FreshSends(start, NoSweeps(evs))
    requires i < |evs| && !evs[i].req.Sweep?
    ensures |NoSweeps(evs[..i])| < |NoSweeps(evs)| && NoSweeps(evs)[|NoSweeps(evs[..i])|] == evs[i]
    ensures SameAnswer(AnswerTo(start, NoSweeps(evs), |NoSweeps(evs[..i])|), AnswerTo(start, evs, i))
  {
    hide Serve, Thinned, Lags, SameAnswer;
    var k := |NoSweeps(evs[..i])|;
    NoSweepsUpTo(evs, i);
    FreshSendsCut(start, NoSweeps(evs), k);
    if i > 0 { SecondsMonotone(evs[i - 1].now, evs[i].now); }
    SweepsThin(start, evs[..i], Seconds(evs[i].now));
    ServeLags(State(start, NoSweeps(evs[..i])), State(start, evs[..i]), evs[i].now, evs[i].req);
  }

  lemma FreshSendsCut(start: Relay, evs: seq<Event>, k: nat)
    requires FreshSends(start, evs) && k < |evs|
    ensures FreshSends(start, evs[..k]) && FreshSend(State(start, evs[..k]).db, evs[k].req)
  {
    hide Serve, FreshSend;
    forall i | 0 <= i < k ensures FreshSend(State(start, evs[..k][..i]).db, evs[..k][i].req) {
      assert evs[..k][..i] == evs[..i] && evs[..k][i] == evs[i];
    }
  }

  lemma {:induction false} NoSweepsUpTo(evs: seq<Event>, i: nat)
    requires i < |evs| && !evs[i].req.Sweep?
    ensures |NoSweeps(evs[..i])| < |NoSweeps(evs)|
    ensures NoSweeps(evs)[|NoSweeps(evs[..i])|] == evs[i]
    ensures NoSweeps(evs)[..|NoSweeps(evs[..i])|] == NoSweeps(evs[..i])
    decreases |evs|
  {
    var n := |evs| - 1;
    if i < n {
      NoSweepsUpTo(evs[..n], i);
      assert evs[..n][..i] == evs[..i];
    }
  }
}
