/**
  The race between a revocation and the device's own requests.  None of the store steps that give a
  device a queue, a bundle or an endpoint looks at the revoked flag, so a request authorised before
  the revocation can still leave the revoked device with one.  Exactly those requests can.
  */
module CascadeRace {
  import opened Results
  import opened Tables
  import opened StoreSpec
  import opened Integrity
  import opened Nonces
  import opened Handlers
  import opened Runs
  import opened Cascade
  import opened Interleaving
  import opened RetireRace

  ghost predicate Revoked(db: Db, d: Id) {
    d in db.devices && db.devices[d].revoked
  }

  // ---- what can give a revoked device something again

  /** The device a step gives a queue, a bundle or an endpoint. */
  function Receiver(op: Op): Option<Id> {
    match op
    case OnDevices(OpUpdatePush(id, push)) => if push != "" then Some(id) else None
    case OnDevices(OpSetBundle(id, _)) => Some(id)
    case OnQueues(OpCreateQueue(owner, _, _, _)) => Some(owner)
    case _ => None
  }

  /** And the step succeeds. */
  predicate Gives(db: Db, now: Nanos, op: Op, d: Id) {
    Receiver(op) == Some(d) && !Apply(db, now, op).1.Failed?
  }

  lemma SameDevice(db: Db, next: Db, d: Id)
    requires d in db.devices && Bare(db, d)
    requires next.devices == db.devices && next.bundles == db.bundles && next.queues == db.queues
    ensures Bare(next, d)
  {
  }

  lemma EditKeepsBare(db: Db, id: Id, dev: Device, d: Id)
    requires d in db.devices && Bare(db, d) && (id == d ==> dev.push == "")
    ensures Bare(db.(devices := db.devices[id := dev]), d)
  {
  }

  lemma DeviceOpKeepsBare(db: Db, now: Nanos, op: DeviceOp, d: Id)
    requires Revoked(db, d) && Bare(db, d) && !Gives(db, now, OnDevices(op), d)
    ensures var next := ApplyDeviceOp(db, now, op).0; d in next.devices && Bare(next, d)
  {
    assert db.devices[d].push == "";
    hide Bare, Redeemable, EnrolledRole, StripsLastAdmin;
    match op
    case OpRegister(token, device, pub, push) =>
      var r := RegisterDevice(db, now, token, device, pub, push);
      if r.Ok? {
        EditKeepsBare(db, device, r.value.devices[device], d);
        SameDevice(db.(devices := r.value.devices), r.value, d);
      }
    case OpSetRole(account, device, role) =>
      var r := SetDeviceRole(db, account, device, role);
      if r.Ok? { EditKeepsBare(db, device, r.value.devices[device], d); }
    case OpPromote(device) =>
      var r := PromoteDevice(db, device);
      if r.Ok? { EditKeepsBare(db, device, r.value.devices[device], d); }
    case OpUpdatePush(device, push) =>
      if device in db.devices { EditKeepsBare(db, device, db.devices[device].(push := push), d); }
    case OpSetBundle(device, blob) =>
      if device in db.devices { OtherBundle(db, device, blob, d); }
    case OpSetDeviceQuota(device, bytes) =>
      var r := SetDeviceQuota(db, device, bytes);
      if r.Ok? { EditKeepsBare(db, device, r.value.devices[device], d); }
  }

  lemma OtherBundle(db: Db, id: Id, blob: Bytes, d: Id)
    requires d in db.devices && Bare(db, d) && id != d
    ensures Bare(db.(bundles := db.bundles[id := blob]), d)
  {
  }

  /** No queue of the device is added or revived. */
  lemma QueuesKeepBare(db: Db, next: Db, d: Id)
    requires d in db.devices && Bare(db, d) && next.devices == db.devices && next.bundles == db.bundles
    requires forall r :: r in next.queues && next.queues[r].owner == d ==>
      r in db.queues && db.queues[r].owner == d && (db.queues[r].retired ==> next.queues[r].retired)
    ensures Bare(next, d)
  {
  }

  lemma QueueOpKeepsBare(db: Db, now: Nanos, op: QueueOp, d: Id)
    requires Revoked(db, d) && Bare(db, d) && !Gives(db, now, OnQueues(op), d)
    ensures var next := ApplyQueueOp(db, op).0; d in next.devices && Bare(next, d)
  {
    var next := ApplyQueueOp(db, op).0;
    hide Bare;
    match op
    case OpCreateQueue(owner, key, rid, sid) =>
      if CreateQueue(db, owner, key, rid, sid).Ok? { QueuesKeepBare(db, next, d); }
    case OpBind(sid, key) =>
      if Bindable(db, sid) { QueuesKeepBare(db, next, d); }
    case OpSetQueueQuota(rid, bytes) =>
      if SetQueueQuota(db, rid, bytes).Ok? { QueuesKeepBare(db, next, d); }
  }

  lemma DisableBares(db: Db, id: Id, d: Id)
    requires d in db.devices && (d == id || Bare(db, d))
    ensures Bare(Disable(db, id), d)
  {
    hide Remaining;
  }

  lemma RetireKeepsBare(db: Db, rid: Id, d: Id)
    requires d in db.devices && Bare(db, d)
    ensures Bare(RetireQueue(db, rid), d)
  {
    hide Remaining;
  }

  lemma RetireOpKeepsBare(db: Db, op: RetireOp, d: Id)
    requires d in db.devices && Bare(db, d)
    ensures var next := ApplyRetireOp(db, op).0; d in next.devices && Bare(next, d)
  {
    hide Remaining, RetireOwned, StripsLastAdmin, Bare;
    match op
    case OpRevoke(caller, device) => DisableBares(db, device, d);
    case OpRetire(rid) => RetireKeepsBare(db, rid, d);
  }

  /** A revoked device that has nothing gets something only from a step that gives it. */
  lemma StepKeepsBare(db: Db, now: Nanos, op: Op, d: Id)
    requires Revoked(db, d) && Bare(db, d) && !Gives(db, now, op, d)
    ensures var next := After(db, now, op); d in next.devices && Bare(next, d)
  {
    hide Bare, Gives, ApplyAccountOp, ApplyDeviceOp, ApplyQueueOp, ApplyRetireOp, ApplyMessageOp;
    match op
    case OnAccounts(o) =>
      AccountOpFrame(db, now, o);
      SameDevice(db, After(db, now, op), d);
    case OnDevices(o) => DeviceOpKeepsBare(db, now, o, d);
    case OnQueues(o) => QueueOpKeepsBare(db, now, o, d);
    case Retiring(o) => RetireOpKeepsBare(db, o, d);
    case OnMessages(o) =>
      MessageOpFrame(db, now, o);
      SameDevice(db, After(db, now, op), d);
    case Reading(query) =>
  }

  /** And such a step does leave it with something. */
  lemma GivingFills(db: Db, now: Nanos, op: Op, d: Id)
    requires d in db.devices && Gives(db, now, op, d)
    ensures var next := After(db, now, op); d in next.devices ==> !Bare(next, d)
  {
    match op
    case OnDevices(OpUpdatePush(_, _)) =>
    case OnDevices(OpSetBundle(_, _)) =>
    case OnQueues(OpCreateQueue(owner, key, rid, sid)) =>
      if CreateQueue(db, owner, key, rid, sid).Ok? { assert rid in After(db, now, op).queues; }
  }

  /** The revocation itself takes everything. */
  lemma RevokingBares(db: Db, now: Nanos, op: Op, d: Id)
    requires !Revoked(db, d) && Revoked(After(db, now, op), d)
    ensures Bare(After(db, now, op), d)
  {
    hide Bare, ApplyAccountOp, ApplyDeviceOp, ApplyQueueOp, ApplyRetireOp, ApplyMessageOp;
    match op
    case OnAccounts(o) => AccountOpFrame(db, now, o);
    case OnDevices(o) => DeviceOpRevokesNothing(db, now, o, d);
    case OnQueues(o) => QueueOpFrame(db, o);
    case Retiring(o) => RetireOpBares(db, o, d);
    case OnMessages(o) => MessageOpFrame(db, now, o);
    case Reading(query) =>
  }

  lemma DeviceOpRevokesNothing(db: Db, now: Nanos, op: DeviceOp, d: Id)
    ensures Revoked(ApplyDeviceOp(db, now, op).0, d) ==> Revoked(db, d)
  {
    match op
    case OpRegister(token, device, pub, push) =>
      if RegisterDevice(db, now, token, device, pub, push).Ok? {}
    case OpSetRole(account, device, role) =>
      if SetDeviceRole(db, account, device, role).Ok? {}
    case OpPromote(device) =>
      if PromoteDevice(db, device).Ok? {}
    case OpUpdatePush(device, push) =>
    case OpSetBundle(device, blob) =>
    case OpSetDeviceQuota(device, bytes) =>
      if SetDeviceQuota(db, device, bytes).Ok? {}
  }

  lemma RetireOpBares(db: Db, op: RetireOp, d: Id)
    requires !Revoked(db, d) && Revoked(ApplyRetireOp(db, op).0, d)
    ensures Bare(ApplyRetireOp(db, op).0, d)
  {
    hide Remaining, RetireOwned, StripsLastAdmin, Bare;
    match op
    case OpRevoke(caller, device) =>
      if d in db.devices && d == device { DisableBares(db, device, d); }
    case OpRetire(rid) =>
  }

  // ---- whose requests these are

  /** A request of the device's own that found it live and has not been answered. */
  predicate Trusted(th: Thread, d: Id) {
    && (th.Looked? || th.Running?)
    && th.req.Manage? && th.req.device == d
    && th.snap.DeviceRow? && !th.snap.device.revoked
  }

  /** A thread gives only to its own device. */
  predicate OwnGifts(th: Thread) {
    th.Running? ==> forall i :: 0 <= i < |th.ops| && Receiver(th.ops[i]).Some? ==>
      Trusted(th, Receiver(th.ops[i]).value)
  }

  lemma AuthorisedOwnGifts(db: Db, seen: Seen, now: Nanos, req: Request, snap: Snapshot)
    ensures OwnGifts(Authorised(Authorise(db, seen, now, req, snap), req, snap))
  {
    hide Authenticate, ResolveSenderKey;
  }

  lemma TurnOwnGifts(s: Sys, turn: Turn, t: nat)
    requires t < |Take(s, turn).threads| && (t < |s.threads| ==> OwnGifts(s.threads[t]))
    ensures OwnGifts(Take(s, turn).threads[t])
  {
    hide Apply, Authorise, Lookup, Finish, Stop, Receiver;
    ThreadsGrow(s, turn);
    if turn.move == Advance(t) {
      match s.threads[t]
      case Looked(req, snap) => AuthorisedOwnGifts(s.db, s.seen, turn.now, req, snap);
      case _ =>
    } else if t < |s.threads| {
      TurnIsOneThread(s, turn, t);
    }
  }

  lemma {:induction false} AllOwnGifts(turns: seq<Turn>, t: nat)
    requires t < |Play(EmptySys, turns).threads|
    ensures OwnGifts(Play(EmptySys, turns).threads[t])
  {
    hide Take, OwnGifts;
    if turns != [] {
      var init := turns[..|turns| - 1];
      if t < |Play(EmptySys, init).threads| { AllOwnGifts(init, t); }
      TurnOwnGifts(Play(EmptySys, init), turns[|turns| - 1], t);
    }
  }

  /** Thread t looked the device up in one of the first n turns, and found it live. */
  ghost predicate FoundLive(turns: seq<Turn>, n: nat, t: nat, d: Id)
    requires n <= |turns|
  {
    exists i :: 0 <= i < n && Looks(turns, i, t) && Live(Play(EmptySys, turns[..i]).db, d)
  }

  lemma FoundLiveEarlier(turns: seq<Turn>, k: nat, n: nat, t: nat, d: Id)
    requires n <= k <= |turns|
    ensures FoundLive(turns[..k], n, t, d) == FoundLive(turns, n, t, d)
  {
    hide Take;
    forall i | 0 <= i < n
      ensures Looks(turns[..k], i, t) == Looks(turns, i, t) && turns[..k][..i] == turns[..i]
    {
      assert turns[..k][..i] == turns[..i];
    }
  }

  lemma {:induction false} TrustedFoundLive(turns: seq<Turn>, t: nat, d: Id)
    requires t < |Play(EmptySys, turns).threads| && Trusted(Play(EmptySys, turns).threads[t], d)
    ensures FoundLive(turns, |turns|, t, d)
  {
    hide Take, Trusted, Looks, Live;
    if turns != [] {
      var n := |turns| - 1;
      var s := Play(EmptySys, turns[..n]);
      ThreadsGrow(s, turns[n]);
      if t < |s.threads| && Trusted(s.threads[t], d) {
        TrustedFoundLive(turns[..n], t, d);
        FoundLiveEarlier(turns, n, n, t, d);
      } else {
        JustFoundLive(turns, t, d);
      }
    }
  }

  lemma JustFoundLive(turns: seq<Turn>, t: nat, d: Id)
    requires turns != []
    requires t < |Play(EmptySys, turns).threads| && Trusted(Play(EmptySys, turns).threads[t], d)
    requires var s := Play(EmptySys, turns[..|turns| - 1]); !(t < |s.threads| && Trusted(s.threads[t], d))
    ensures FoundLive(turns, |turns|, t, d)
  {
    hide Apply, Authorise, Finish, Stop;
    var n := |turns| - 1;
    var s, turn := Play(EmptySys, turns[..n]), turns[n];
    ThreadsGrow(s, turn);
    if turn.move == Advance(t) {
      match s.threads[t]
      case Start(req) =>
        assert Take(s, turn).threads[t] == Looked(req, Lookup(s.db, req));
        assert Looks(turns, n, t);
      case _ =>
    } else if t < |s.threads| {
      TurnIsOneThread(s, turn, t);
    }
  }

  // ---- exactly when a revoked device is left with something

  /** Turn j gives to the device after its revocation, for a request of its own that had found it live. */
  ghost predicate LateGift(turns: seq<Turn>, j: nat, d: Id)
    requires j < |turns|
  {
    var s, turn := Play(EmptySys, turns[..j]), turns[j];
    && Revoked(s.db, d)
    && StepOf(s, turn).Some? && Gives(s.db, turn.now, StepOf(s, turn).value, d)
    && FoundLive(turns, j, turn.move.t, d)
  }

  lemma LateGiftEarlier(turns: seq<Turn>, k: nat, j: nat, d: Id)
    requires j < k <= |turns|
    ensures LateGift(turns[..k], j, d) == LateGift(turns, j, d)
  {
    hide Take, Gives, FoundLive;
    assert turns[..k][..j] == turns[..j] && turns[..k][j] == turns[j];
    if StepOf(Play(EmptySys, turns[..j]), turns[j]).Some? { FoundLiveEarlier(turns, k, j, turns[j].move.t, d); }
  }

  lemma GivenByTrusted(turns: seq<Turn>, d: Id)
    requires turns != []
    requires
      var s, turn := Play(EmptySys, turns[..|turns| - 1]), turns[|turns| - 1];
      StepOf(s, turn).Some? && Gives(s.db, turn.now, StepOf(s, turn).value, d)
    ensures FoundLive(turns, |turns| - 1, turns[|turns| - 1].move.t, d)
  {
    hide Take, Apply, Receiver, FoundLive;
    var n := |turns| - 1;
    var t := turns[n].move.t;
    AllOwnGifts(turns[..n], t);
    TrustedFoundLive(turns[..n], t, d);
    FoundLiveEarlier(turns, n, n, t, d);
  }

  lemma {:induction false} LeftWithIsLate(turns: seq<Turn>, d: Id)
    requires Revoked(Play(EmptySys, turns).db, d) && !Bare(Play(EmptySys, turns).db, d)
    ensures exists j :: 0 <= j < |turns| && LateGift(turns, j, d)
  {
    hide Take, Gives, Bare, FoundLive, LateGift;
    if turns != [] {
      var n := |turns| - 1;
      var s, turn := Play(EmptySys, turns[..n]), turns[n];
      TurnIsOneStep(s, turn);
      if Revoked(s.db, d) && !Bare(s.db, d) {
        LeftWithIsLate(turns[..n], d);
        var j :| 0 <= j < n && LateGift(turns[..n], j, d);
        LateGiftEarlier(turns, n, j, d);
      } else {
        var op := StepOf(s, turn).value;
        if !Revoked(s.db, d) {
          RevokingBares(s.db, turn.now, op, d);
        } else {
          if !Gives(s.db, turn.now, op, d) { StepKeepsBare(s.db, turn.now, op, d); }
          GivenByTrusted(turns, d);
          LastIsLate(turns, d);
        }
      }
    }
  }

  lemma LastIsLate(turns: seq<Turn>, d: Id)
    requires turns != []
    requires
      var s, turn := Play(EmptySys, turns[..|turns| - 1]), turns[|turns| - 1];
      && Revoked(s.db, d) && StepOf(s, turn).Some? && Gives(s.db, turn.now, StepOf(s, turn).value, d)
      && FoundLive(turns, |turns| - 1, turn.move.t, d)
    ensures LateGift(turns, |turns| - 1, d)
  {
    hide Take, Gives, FoundLive;
  }

  /** After k turns the device is revoked, and has an endpoint, a bundle or a live queue. */
  ghost predicate LeftWith(turns: seq<Turn>, k: nat, d: Id)
    requires k <= |turns|
  {
    Revoked(Play(EmptySys, turns[..k]).db, d) && !Bare(Play(EmptySys, turns[..k]).db, d)
  }

  /** A revoked device is left with something at some point of a schedule exactly if one of its turns
      gives it something for a request of its own that had found the device live before its
      revocation. */
  lemma RevokedHasIffLateGift(turns: seq<Turn>, d: Id)
    ensures (exists k :: 0 <= k <= |turns| && LeftWith(turns, k, d))
       <==> (exists j :: 0 <= j < |turns| && LateGift(turns, j, d))
  {
    hide Take, LateGift, Revoked, Bare;
    if k :| 0 <= k <= |turns| && LeftWith(turns, k, d) {
      LeftWithIsLate(turns[..k], d);
      var j :| 0 <= j < k && LateGift(turns[..k], j, d);
      LateGiftEarlier(turns, k, j, d);
    }
    if j :| 0 <= j < |turns| && LateGift(turns, j, d) { LateGiftLeaves(turns, j, d); }
  }

  lemma LateGiftLeaves(turns: seq<Turn>, j: nat, d: Id)
    requires j < |turns| && LateGift(turns, j, d)
    ensures LeftWith(turns, j + 1, d)
  {
    hide Take, Gives, FoundLive, Valid, Bare, Ages;
    var s := Play(EmptySys, turns[..j]);
    assert turns[..j + 1][..j] == turns[..j] && turns[..j + 1][j] == turns[j];
    EmptyIsValid();
    ScheduleKeepsValid(EmptySys, turns[..j]);
    RevokedStays(s, turns[j], d);
    TurnIsOneStep(s, turns[j]);
    GivingFills(s.db, turns[j].now, StepOf(s, turns[j]).value, d);
  }

  lemma RevokedStays(s: Sys, turn: Turn, d: Id)
    requires Valid(s.db) && Revoked(s.db, d)
    ensures Revoked(Take(s, turn).db, d)
  {
    hide Valid, Take;
    TurnKeepsValid(s, turn);
    assert DeviceAges(s.db.devices[d], Take(s, turn).db.devices[d]);
  }

  // ---- once the device's requests are all answered

  /** The device is revoked, and none of its requests that had found it live is left unanswered. */
  ghost predicate Landed(s: Sys, d: Id) {
    && Revoked(s.db, d)
    && forall t :: 0 <= t < |s.threads| ==> OwnGifts(s.threads[t]) && !Trusted(s.threads[t], d)
  }

  lemma LandedTurn(s: Sys, turn: Turn, d: Id)
    requires Valid(s.db) && Landed(s, d)
    ensures Landed(Take(s, turn), d)
  {
    hide Valid, Take, Trusted, OwnGifts;
    RevokedStays(s, turn, d);
    forall t | 0 <= t < |Take(s, turn).threads|
      ensures OwnGifts(Take(s, turn).threads[t]) && !Trusted(Take(s, turn).threads[t], d)
    {
      TurnOwnGifts(s, turn, t);
      NoneNewlyTrusted(s, turn, t, d);
    }
  }

  lemma NoneNewlyTrusted(s: Sys, turn: Turn, t: nat, d: Id)
    requires Revoked(s.db, d) && t < |Take(s, turn).threads| && (t < |s.threads| ==> !Trusted(s.threads[t], d))
    ensures !Trusted(Take(s, turn).threads[t], d)
  {
    hide Apply, Authorise, Finish, Stop;
    ThreadsGrow(s, turn);
    if turn.move == Advance(t) {
    } else if t < |s.threads| {
      TurnIsOneThread(s, turn, t);
    }
  }

  lemma LandedKeepsBare(s: Sys, turn: Turn, d: Id)
    requires Landed(s, d) && Bare(s.db, d)
    ensures d in Take(s, turn).db.devices && Bare(Take(s, turn).db, d)
  {
    hide Take, Apply, Bare, Trusted, Receiver;
    TurnIsOneStep(s, turn);
    match StepOf(s, turn)
    case None =>
    case Some(op) => StepKeepsBare(s.db, turn.now, op, d);
  }

  lemma {:induction false} LandedForEver(start: Sys, turns: seq<Turn>, d: Id)
    requires Valid(start.db) && Landed(start, d)
    ensures Valid(Play(start, turns).db) && Landed(Play(start, turns), d)
  {
    hide Valid, Take, Landed;
    if turns != [] {
      var init := turns[..|turns| - 1];
      LandedForEver(start, init, d);
      TurnKeepsValid(Play(start, init), turns[|turns| - 1]);
      LandedTurn(Play(start, init), turns[|turns| - 1], d);
    }
  }

  /** From then on a device that has nothing is never given anything. */
  lemma {:induction false} BareForEver(start: Sys, turns: seq<Turn>, d: Id)
    requires Valid(start.db) && Landed(start, d) && Bare(start.db, d)
    ensures Landed(Play(start, turns), d) && Bare(Play(start, turns).db, d)
  {
    hide Valid, Take, Trusted, OwnGifts, Bare;
    LandedForEver(start, turns, d);
    if turns != [] {
      var init := turns[..|turns| - 1];
      BareForEver(start, init, d);
      LandedKeepsBare(Play(start, init), turns[|turns| - 1], d);
    }
  }

  /** The turn revokes the device, perhaps once more, with success. */
  predicate Revokes(s: Sys, turn: Turn, d: Id) {
    && StepOf(s, turn).Some? && StepOf(s, turn).value.Retiring? && StepOf(s, turn).value.retire.OpRevoke?
    && (var op := StepOf(s, turn).value.retire; op.device == d && RevokeDevice(s.db, op.caller, d).Ok?)
  }

  /** And whatever a late request left it with, one more revocation takes for good. */
  lemma RevokedAgainForGood(start: Sys, turns: seq<Turn>, i: nat, d: Id)
    requires Valid(start.db) && Landed(start, d)
    requires i < |turns| && Revokes(Play(start, turns[..i]), turns[i], d)
    ensures Landed(Play(start, turns), d) && Bare(Play(start, turns).db, d)
  {
    hide Valid, Take, Trusted, OwnGifts, Bare, Revokes;
    var before, after := Play(start, turns[..i]), Play(start, turns[..i + 1]);
    assert turns[..i + 1][..i] == turns[..i];
    LandedForEver(start, turns[..i], d);
    LandedForEver(start, turns[..i + 1], d);
    RevokesBares(before, turns[i], d);
    PlaySplit(start, turns, i + 1);
    BareForEver(after, turns[i + 1..], d);
  }

  lemma RevokesBares(s: Sys, turn: Turn, d: Id)
    requires d in s.db.devices && Revokes(s, turn, d)
    ensures d in Take(s, turn).db.devices && Bare(Take(s, turn).db, d)
  {
    hide Take, Bare, Disable, StripsLastAdmin;
    TurnIsOneStep(s, turn);
    DisableBares(s.db, d, d);
    DisableKeepsDevices(s.db, d);
  }

  lemma DisableKeepsDevices(db: Db, id: Id)
    ensures Disable(db, id).devices.Keys == db.devices.Keys
  {
    hide Remaining;
  }

  // ---- and it does happen

  /** A device opens a queue while a caller, perhaps itself, revokes it. */
  datatype Opening = Opening(device: Id, env: Envelope, key: Key, rid: Id, sid: Id, caller: Id, callerEnv: Envelope)

  function Creation(o: Opening): Request {
    Manage(o.device, o.env, AskCreateQueue(o.key, o.rid, o.sid))
  }

  function Revocation(o: Opening): Request {
    Manage(o.caller, o.callerEnv, AskRevoke(o.device))
  }

  /** Both are live devices of one account, the revocation is the caller's to make and is not
      refused for the last admin's sake, and the queue's ids are free. */
  predicate CanOpen(db: Db, o: Opening) {
    && Live(db, o.device) && Live(db, o.caller)
    && db.devices[o.device].account == db.devices[o.caller].account
    && (o.caller == o.device || db.devices[o.caller].role == Admin)
    && RevokeDevice(db, o.caller, o.device).Ok?
    && |o.key| == KEY_SIZE && o.rid !in db.queues && o.sid !in db.senders
  }

  /** The two signed requests authenticate one after the other. */
  predicate BothAuthentic(db: Db, seen: Seen, now: Nanos, o: Opening)
    requires Live(db, o.device) && Live(db, o.caller)
  {
    var first := Authenticate(seen, now, o.env, o.device, db.devices[o.device].publicKey);
    first.1 && Authenticate(first.0, now, o.callerEnv, o.caller, db.devices[o.caller].publicKey).1
  }

  function Opens(o: Opening): Op {
    OnQueues(OpCreateQueue(o.device, o.key, o.rid, o.sid))
  }

  lemma OpeningAuthorised(s: Sys, now: Nanos, t: nat, u: nat, o: Opening)
    requires t < u < |s.threads| && CanOpen(s.db, o) && BothAuthentic(s.db, s.seen, now, o)
    requires s.threads[t] == Looked(Creation(o), DeviceRow(s.db.devices[o.device]))
    requires s.threads[u] == Looked(Revocation(o), DeviceRow(s.db.devices[o.caller]))
    ensures
      var next := Both(s, now, t, u);
      && next.db == s.db && |next.threads| == |s.threads|
      && next.threads[t] == Running(Creation(o), DeviceRow(s.db.devices[o.device]), [Opens(o)], None, Done)
      && next.threads[u] == Running(Revocation(o), DeviceRow(s.db.devices[o.caller]),
                                    [Retiring(OpRevoke(o.caller, o.device))], None, Done)
  {
    hide Authenticate, RevokeDevice;
  }

  /** Disabled, the device can still be given the queue. */
  lemma DisabledCanOpen(db: Db, o: Opening)
    requires CanOpen(db, o)
    ensures var r := CreateQueue(Disable(db, o.device), o.device, o.key, o.rid, o.sid);
      && r.Ok? && Revoked(r.value, o.device)
      && o.rid in r.value.queues && r.value.queues[o.rid].owner == o.device && !r.value.queues[o.rid].retired
      && o.sid in r.value.senders && r.value.senders[o.sid] == o.rid
  {
    hide Remaining, StripsLastAdmin;
  }

  lemma OpeningActs(s: Sys, now: Nanos, t: nat, u: nat, o: Opening, mine: Snapshot, theirs: Snapshot)
    requires t < u < |s.threads| && CanOpen(s.db, o)
    requires s.threads[t] == Running(Creation(o), mine, [Opens(o)], None, Done)
    requires s.threads[u] == Running(Revocation(o), theirs, [Retiring(OpRevoke(o.caller, o.device))], None, Done)
    ensures
      var next := Both(s, now, u, t);
      && |next.threads| == |s.threads|
      && next.threads[t] == Running(Creation(o), mine, [], None, Done)
      && next.threads[u] == Running(Revocation(o), theirs, [], None, Done)
      && Ok(next.db) == CreateQueue(Disable(s.db, o.device), o.device, o.key, o.rid, o.sid)
  {
    DisabledCanOpen(s.db, o);
    assert [Opens(o)][1..] == [] && [Retiring(OpRevoke(o.caller, o.device))][1..] == [];
    hide Disable, StripsLastAdmin, CreateQueue;
  }

  lemma OpeningFinishes(s: Sys, now: Nanos, t: nat, u: nat, o: Opening, mine: Snapshot, theirs: Snapshot)
    requires t < u < |s.threads|
    requires s.threads[t] == Running(Creation(o), mine, [], None, Done)
    requires s.threads[u] == Running(Revocation(o), theirs, [], None, Done)
    ensures
      var next := Both(s, now, t, u);
      && next.db == s.db && |next.threads| == |s.threads|
      && next.threads[t] == Finished(Creation(o), Acknowledged)
      && next.threads[u] == Finished(Revocation(o), Acknowledged)
  {
  }

  /** The race from its requests: they arrive, look up, are authorised, act and are answered. */
  function OpeningEnd(s: Sys, now: Nanos, o: Opening): Sys {
    var t, u := |s.threads|, |s.threads| + 1;
    var ready := Both(Both(Arrived(s, now, Creation(o), Revocation(o)), now, t, u), now, t, u);
    Both(Both(ready, now, u, t), now, t, u)
  }

  /** From any database: a device opens a queue while it is being revoked, both requests look up and
      are authorised, the revocation acts first, and both are acknowledged: the revoked device owns a
      live queue that its sender id leads to. */
  lemma RevokedCanOwn(s: Sys, now: Nanos, o: Opening)
    requires CanOpen(s.db, o) && BothAuthentic(s.db, s.seen, now, o)
    ensures
      var t, u, end := |s.threads|, |s.threads| + 1, OpeningEnd(s, now, o);
      && u < |end.threads|
      && end.threads[t] == Finished(Creation(o), Acknowledged)
      && end.threads[u] == Finished(Revocation(o), Acknowledged)
      && Revoked(end.db, o.device)
      && o.rid in end.db.queues && end.db.queues[o.rid].owner == o.device && !end.db.queues[o.rid].retired
      && o.sid in end.db.senders && end.db.senders[o.sid] == o.rid
  {
    hide Authenticate, Both, RevokeDevice;
    var t, u := |s.threads|, |s.threads| + 1;
    var s0 := Arrived(s, now, Creation(o), Revocation(o));
    assert s0 == s.(threads := s.threads + [Start(Creation(o))] + [Start(Revocation(o))]);
    var s1 := Both(s0, now, t, u);
    BothLookUp(s0, now, t, u, Creation(o), Revocation(o));
    var mine, theirs := DeviceRow(s.db.devices[o.device]), DeviceRow(s.db.devices[o.caller]);
    assert s1.threads[t] == Looked(Creation(o), mine) && s1.threads[u] == Looked(Revocation(o), theirs);
    assert CanOpen(s1.db, o) && BothAuthentic(s1.db, s1.seen, now, o);
    hide Arrived, CanOpen, CreateQueue, Disable;
    var s2 := Both(s1, now, t, u);
    OpeningAuthorised(s1, now, t, u, o);
    var s3 := Both(s2, now, u, t);
    OpeningActs(s2, now, t, u, o, mine, theirs);
    DisabledCanOpen(s.db, o);
    OpeningFinishes(s3, now, t, u, o, mine, theirs);
  }
}
