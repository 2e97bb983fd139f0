/** Who administers an account: the last-admin rule, and where it holds. */
module Admins {
  import opened Results
  import opened Tables
  import opened StoreSpec
  import opened Integrity
  import opened Handlers
  import opened Runs

  ghost predicate HasAdmin(db: Db, account: Id) {
    LiveAdmins(db.devices, account) != {}
  }

  /** An admin other than the device an act is aimed at outlives the act. */
  lemma OtherAdminStays(before: Devices, after: Devices, account: Id, target: Id)
    requires LiveAdmins(before, account) - {target} != {}
    requires forall d :: d in before && d != target ==> d in after && after[d] == before[d]
    ensures LiveAdmins(after, account) != {}
  {
    var d :| d in LiveAdmins(before, account) - {target};
    assert d in LiveAdmins(after, account);
  }

  lemma DisablesOnlyTarget(db: Db, id: Id)
    ensures forall d :: d in db.devices && d != id ==>
      d in Disable(db, id).devices && Disable(db, id).devices[d] == db.devices[d]
  {
  }

  /** A role change, promotion or enrolment never costs an account its last admin. */
  lemma DeviceOpKeepsAdmin(db: Db, now: Nanos, op: DeviceOp, account: Id)
    requires HasAdmin(db, account)
    ensures HasAdmin(ApplyDeviceOp(db, now, op).0, account)
  {
    var next := ApplyDeviceOp(db, now, op).0;
    var d :| d in LiveAdmins(db.devices, account);
    match op
    case OpRegister(token, device, pub, push) =>
      if RegisterDevice(db, now, token, device, pub, push).Ok? { assert d in LiveAdmins(next.devices, account); }
    case OpSetRole(acc, device, role) =>
      if SetDeviceRole(db, acc, device, role).Ok? {
        if d != device || next.devices[device].role == Admin {
          assert d in LiveAdmins(next.devices, account);
        } else {
          OtherAdminStays(db.devices, next.devices, account, device);
        }
      }
    case OpPromote(device) => assert d in LiveAdmins(next.devices, account);
    case OpUpdatePush(device, push) => assert d in LiveAdmins(next.devices, account);
    case OpSetBundle(device, blob) => assert d in LiveAdmins(next.devices, account);
    case OpSetDeviceQuota(device, bytes) => assert d in LiveAdmins(next.devices, account);
  }

  lemma OnlyDeviceStepsTouchDevices(db: Db, now: Nanos, op: Op)
    requires !op.OnDevices? && !op.Retiring?
    ensures After(db, now, op).devices == db.devices
  {
    hide ApplyAccountOp, ApplyQueueOp, ApplyMessageOp;
    match op
    case OnAccounts(o) => AccountOpFrame(db, now, o);
    case OnQueues(o) => QueueOpFrame(db, o);
    case OnMessages(o) => MessageOpFrame(db, now, o);
    case Reading(query) =>
  }

  lemma RetireTouchesNoDevice(db: Db, rid: Id)
    ensures ApplyRetireOp(db, OpRetire(rid)).0.devices == db.devices
  {
  }

  /** Whatever the caller once was authorised for: a revocation that costs the account its last
      admin is a self-revocation, or leaves no live device behind. */
  lemma RevocationRule(db: Db, caller: Id, id: Id, account: Id)
    requires HasAdmin(db, account)
    requires !HasAdmin(ApplyRetireOp(db, OpRevoke(caller, id)).0, account)
    ensures LiveAdmins(db.devices, account) == {id}
    ensures caller == id || LiveDevices(ApplyRetireOp(db, OpRevoke(caller, id)).0.devices, account) == {}
  {
    var next := ApplyRetireOp(db, OpRevoke(caller, id)).0;
    if RevokeDevice(db, caller, id).Ok? {
      DisablesOnlyTarget(db, id);
      if LiveAdmins(db.devices, account) - {id} != {} {
        OtherAdminStays(db.devices, next.devices, account, id);
      }
      assert id in LiveAdmins(db.devices, account) by {
        var d :| d in LiveAdmins(db.devices, account);
        assert d in LiveAdmins(db.devices, account) - {id} || d == id;
      }
      if caller != id {
        assert LiveDevices(db.devices, account) - {id} == {};
        assert LiveDevices(next.devices, account) <= LiveDevices(db.devices, account) - {id};
      }
    }
  }

  /** The last-admin rule, for any step of the store in any state, and so for every interleaving:
      a step after which an account that had a live admin has none is a device's own revocation,
      or a revocation after which the account has no live device at all. */
  lemma LastAdminRule(db: Db, now: Nanos, op: Op, account: Id)
    requires HasAdmin(db, account) && !HasAdmin(After(db, now, op), account)
    ensures op.Retiring? && op.retire.OpRevoke?
    ensures op.retire.caller == op.retire.device || LiveDevices(After(db, now, op).devices, account) == {}
    ensures LiveAdmins(db.devices, account) == {op.retire.device}
  {
    hide ApplyDeviceOp, ApplyRetireOp, ApplyAccountOp, ApplyQueueOp, ApplyMessageOp;
    match op
    case OnDevices(o) => DeviceOpKeepsAdmin(db, now, o, account);
    case Retiring(o) =>
      match o {
        case OpRevoke(caller, id) => RevocationRule(db, caller, id, account);
        case OpRetire(rid) => RetireTouchesNoDevice(db, rid);
      }
    case _ => OnlyDeviceStepsTouchDevices(db, now, op);
  }

  /** Two admins of an account revoking each other: the first act succeeds, and the second is
      refused exactly when it would strand a live device without an admin.  Alone in the account,
      both succeed and it is left empty. */
  lemma MutualRevocation(db: Db, a: Id, b: Id, account: Id)
    requires a != b && a in LiveAdmins(db.devices, account) && b in LiveAdmins(db.devices, account)
    ensures RevokeDevice(db, a, b).Ok?
    ensures
      var second := RevokeDevice(RevokeDevice(db, a, b).value, b, a);
      && (second.Ok? <==>
            LiveAdmins(db.devices, account) - {a, b} != {} || LiveDevices(db.devices, account) - {a, b} == {})
      && (second.Ok? && LiveAdmins(db.devices, account) == {a, b} ==>
            LiveDevices(second.value.devices, account) == {})
  {
    assert a in LiveAdmins(db.devices, account) - {b};
    var first := RevokeDevice(db, a, b).value;
    assert first.devices == db.devices[b := db.devices[b].(revoked := true, push := "")];
    assert LiveAdmins(first.devices, account) == LiveAdmins(db.devices, account) - {b};
    assert LiveDevices(first.devices, account) == LiveDevices(db.devices, account) - {b};
    assert LiveAdmins(db.devices, account) - {b} - {a} == LiveAdmins(db.devices, account) - {a, b};
    assert LiveDevices(db.devices, account) - {b} - {a} == LiveDevices(db.devices, account) - {a, b};
    var second := RevokeDevice(first, b, a);
    if second.Ok? && LiveAdmins(db.devices, account) == {a, b} {
      assert LiveAdmins(db.devices, account) - {a, b} == {};
      assert LiveDevices(second.value.devices, account) == LiveDevices(first.devices, account) - {a};
    }
  }

  /** An enrolment leaves the account with an admin exactly if it had one or the role is admin:
      into a managed account all of whose devices are revoked, a member token enrols a member
      and nobody administers the account. */
  lemma EnrolmentAdmin(db: Db, now: Nanos, token: Id, id: Id, pub: Key, push: string)
    requires Valid(db) && RegisterDevice(db, now, token, id, pub, push).Ok?
    ensures
      var inv := db.invitations[token];
      var next := RegisterDevice(db, now, token, id, pub, push).value;
      HasAdmin(next, inv.account) <==>
        || HasAdmin(db, inv.account)
        || db.accounts[inv.account].mode == Flat
        || inv.grants == Admin
        || DevicesOf(db.devices, inv.account) == {}
  {
    var account := db.invitations[token].account;
    var next := RegisterDevice(db, now, token, id, pub, push).value;
    assert next.devices == db.devices[id := next.devices[id]];
    if next.devices[id].role == Admin {
      assert id in LiveAdmins(next.devices, account);
    } else {
      assert LiveAdmins(next.devices, account) == LiveAdmins(db.devices, account);
    }
  }

  // ---- atomic service: an account that has ever enrolled keeps an admin

  /** An account with devices has a live admin. */
  ghost predicate Administered(db: Db, account: Id) {
    DevicesOf(db.devices, account) != {} ==> HasAdmin(db, account)
  }

  predicate IsSelfRevocation(op: Op) {
    op.Retiring? && op.retire.OpRevoke? && op.retire.caller == op.retire.device
  }

  predicate SelfRevokes(db: Db, op: Op, account: Id) {
    IsSelfRevocation(op) && op.retire.device in DevicesOf(db.devices, account)
  }

  lemma EnrolmentAdministers(db: Db, now: Nanos, op: DeviceOp, account: Id)
    requires Valid(db) && Administered(db, account)
    ensures Administered(ApplyDeviceOp(db, now, op).0, account)
  {
    var next := ApplyDeviceOp(db, now, op).0;
    if HasAdmin(db, account) {
      DeviceOpKeepsAdmin(db, now, op, account);
    } else if op.OpRegister? && RegisterDevice(db, now, op.token, op.device, op.pub, op.push).Ok? {
      EnrolmentAdmin(db, now, op.token, op.device, op.pub, op.push);
      if db.invitations[op.token].account != account {
        assert DevicesOf(next.devices, account) == DevicesOf(db.devices, account);
      }
    } else {
      DevicesAgeFrame(db, now, op, account);
    }
  }

  /** No device changes account, and only an enrolment adds one. */
  lemma DevicesAgeFrame(db: Db, now: Nanos, op: DeviceOp, account: Id)
    requires op.OpRegister? ==> RegisterDevice(db, now, op.token, op.device, op.pub, op.push).Err?
    ensures DevicesOf(ApplyDeviceOp(db, now, op).0.devices, account) == DevicesOf(db.devices, account)
  {
    var next := ApplyDeviceOp(db, now, op).0;
    assert forall d :: d in next.devices <==> d in db.devices;
    assert forall d :: d in db.devices ==> next.devices[d].account == db.devices[d].account;
  }

  /** The caller of an authorised revocation of another device is an admin that stays. */
  lemma RevocationAdministers(db: Db, caller: Id, id: Id, account: Id)
    requires Administered(db, account) && Guarded(db, Retiring(OpRevoke(caller, id)))
    requires !SelfRevokes(db, Retiring(OpRevoke(caller, id)), account)
    ensures Administered(ApplyRetireOp(db, OpRevoke(caller, id)).0, account)
  {
    var next := ApplyRetireOp(db, OpRevoke(caller, id)).0;
    DisablesOnlyTarget(db, id);
    assert next == db || next == Disable(db, id);
    if next == db {
    } else if id in DevicesOf(db.devices, account) {
      assert caller in LiveAdmins(db.devices, account) - {id};
      OtherAdminStays(db.devices, next.devices, account, id);
    } else {
      assert LiveAdmins(next.devices, account) == LiveAdmins(db.devices, account);
      assert DevicesOf(next.devices, account) == DevicesOf(db.devices, account);
    }
  }

  lemma StepAdministers(db: Db, now: Nanos, op: Op, account: Id)
    requires Valid(db) && Administered(db, account) && Guarded(db, op) && !SelfRevokes(db, op, account)
    ensures Administered(After(db, now, op), account)
  {
    hide Valid, ApplyDeviceOp, ApplyRetireOp, ApplyAccountOp, ApplyQueueOp, ApplyMessageOp;
    match op
    case OnDevices(o) => EnrolmentAdministers(db, now, o, account);
    case Retiring(o) =>
      match o {
        case OpRevoke(caller, id) => RevocationAdministers(db, caller, id, account);
        case OpRetire(rid) => RetireTouchesNoDevice(db, rid);
      }
    case _ => OnlyDeviceStepsTouchDevices(db, now, op);
  }

  predicate AsksOwnRevocation(req: Request) {
    req.Manage? && req.call == AskRevoke(req.device)
  }

  /** The i-th request of a run is a device's own revocation, and it is granted. */
  predicate RevokesItself(evs: seq<Event>, i: nat)
    requires i < |evs|
  {
    AsksOwnRevocation(evs[i].req) && AnswerTo(EmptyRelay, evs, i) == Acknowledged
  }

  ghost predicate NoSelfRevocation(evs: seq<Event>, account: Id) {
    forall i :: 0 <= i < |evs| && RevokesItself(evs, i) ==>
      evs[i].req.device !in DevicesOf(State(EmptyRelay, evs[..i]).db.devices, account)
  }

  /** A self-revocation that is not acknowledged revoked nothing. */
  lemma RefusedSelfRevocation(r: Relay, now: Nanos, req: Request)
    requires AsksOwnRevocation(req) && Serve(r, now, req).1 != Acknowledged
    ensures Serve(r, now, req).0.db == r.db
  {
    hide Authenticate, Disable;
    match VerdictOn(r, now, req)
    case Refuse(_) =>
    case Proceed(ops, last) =>
      OneStep(r.db, now, req, Lookup(r.db, req), Retiring(OpRevoke(req.device, req.device)));
  }

  /** Only a self-revocation request takes a self-revocation step, and it takes no other. */
  lemma SelfRevocationsAsked(r: Relay, now: Nanos, req: Request, i: nat)
    requires i < |Granted(VerdictOn(r, now, req))|
    requires IsSelfRevocation(Granted(VerdictOn(r, now, req))[i])
    ensures i == 0 && |Granted(VerdictOn(r, now, req))| == 1
    ensures req.Manage? && req.call == AskRevoke(req.device)
    ensures Granted(VerdictOn(r, now, req))[i].retire.device == req.device
  {
    hide Authenticate;
  }

  lemma {:induction false} ExecuteAdministers(
      db: Db, now: Nanos, req: Request, snap: Snapshot, ops: seq<Op>, last: Option<Response>, reply: Reply, account: Id)
    requires Valid(db) && Administered(db, account) && GuardedSteps(db, now, ops)
    requires forall i :: 0 <= i < |ops| && IsSelfRevocation(ops[i]) ==> |ops| == 1 && !SelfRevokes(db, ops[0], account)
    ensures Administered(Execute(db, now, req, snap, ops, last, reply).0, account)
    decreases |ops|
  {
    hide Valid, Administered, Apply, Guarded;
    if ops != [] {
      var r := Apply(db, now, ops[0]);
      StepKeepsValid(db, now, ops[0]);
      StepAdministers(db, now, ops[0], account);
      if Stop(ops[0], r.1).None? {
        ExecuteAdministers(r.0, now, req, snap, ops[1..], last, r.1, account);
      }
    }
  }

  lemma ServeAdministers(r: Relay, now: Nanos, req: Request, account: Id)
    requires Valid(r.db) && Administered(r.db, account)
    requires AsksOwnRevocation(req) ==> req.device !in DevicesOf(r.db.devices, account)
    ensures Administered(Serve(r, now, req).0.db, account)
  {
    hide Valid, Administered, Authorise, Execute, DevicesOf;
    ServeIsGuarded(r, now, req);
    match VerdictOn(r, now, req)
    case Refuse(_) =>
    case Proceed(ops, last) =>
      forall i | 0 <= i < |ops| && IsSelfRevocation(ops[i])
        ensures |ops| == 1 && !SelfRevokes(r.db, ops[0], account)
      {
        SelfRevocationsAsked(r, now, req, i);
      }
      ExecuteAdministers(r.db, now, req, Lookup(r.db, req), ops, last, Done, account);
  }

  /** If no device of an account revokes itself, the account has a live admin in every state
      after its first enrolment, whatever refused attempts there are. */
  lemma {:induction false} AdminExists(evs: seq<Event>, account: Id)
    requires NoSelfRevocation(evs, account)
    ensures Valid(State(EmptyRelay, evs).db)
    ensures Administered(State(EmptyRelay, evs).db, account)
  {
    hide Valid, Serve, Administered, AsksOwnRevocation, DevicesOf;
    if evs == [] {
      EmptyIsValid();
      NobodyToAdminister(account);
    } else {
      var n := |evs| - 1;
      var r, e := State(EmptyRelay, evs[..n]), evs[n];
      EarlierSelfRevocations(evs, n, account);
      AdminExists(evs[..n], account);
      ServeKeepsValid(r, e.now, e.req);
      if AsksOwnRevocation(e.req) && Serve(r, e.now, e.req).1 != Acknowledged {
        RefusedSelfRevocation(r, e.now, e.req);
        SameDevices(r.db, State(EmptyRelay, evs).db, account);
      } else {
        assert AsksOwnRevocation(e.req) ==> RevokesItself(evs, n);
        ServeAdministers(r, e.now, e.req, account);
      }
    }
  }

  lemma NobodyToAdminister(account: Id)
    ensures Administered(EmptyDb, account)
  {
  }

  lemma SameDevices(db: Db, next: Db, account: Id)
    requires next.devices == db.devices && Administered(db, account)
    ensures Administered(next, account)
  {
  }

  lemma EarlierSelfRevocations(evs: seq<Event>, n: nat, account: Id)
    requires n <= |evs| && NoSelfRevocation(evs, account)
    ensures NoSelfRevocation(evs[..n], account)
  {
    hide Serve, DevicesOf;
    forall i | 0 <= i < n && RevokesItself(evs[..n], i)
      ensures evs[i].req.device !in DevicesOf(State(EmptyRelay, evs[..n][..i]).db.devices, account)
    {
      assert evs[..n][..i] == evs[..i];
      assert RevokesItself(evs, i);
    }
  }

  // ---- flat accounts

  predicate IsFlat(db: Db, account: Id) {
    account in db.accounts && db.accounts[account].mode == Flat
  }

  /** In a flat account every device ever enrolled is an admin, revoked or not, and every
      invitation grants admin. */
  ghost predicate FlatIsFlat(db: Db) {
    && (forall d :: d in db.devices && IsFlat(db, db.devices[d].account) ==> db.devices[d].role == Admin)
    && (forall t :: t in db.invitations && IsFlat(db, db.invitations[t].account) ==> db.invitations[t].grants == Admin)
  }

  lemma DeviceEditStaysFlat(db: Db, id: Id, d: Device)
    requires FlatIsFlat(db)
    requires IsFlat(db, d.account) ==> d.role == Admin
    ensures FlatIsFlat(db.(devices := db.devices[id := d]))
  {
  }

  lemma InvitationEditStaysFlat(db: Db, token: Id, inv: Invitation)
    requires FlatIsFlat(db)
    requires IsFlat(db, inv.account) ==> inv.grants == Admin
    ensures FlatIsFlat(db.(invitations := db.invitations[token := inv]))
  {
  }

  lemma NewAccountStaysFlat(db: Db, id: Id, a: Account)
    requires Valid(db) && FlatIsFlat(db) && id !in db.accounts
    ensures FlatIsFlat(db.(accounts := db.accounts[id := a]))
  {
    hide Indexed;
  }

  lemma RevokedInvitationsStayFlat(db: Db, account: Id, id: Id)
    requires FlatIsFlat(db)
    ensures FlatIsFlat(RevokeInvitation(db, account, id).0)
  {
  }

  lemma AccountOpStaysFlat(db: Db, now: Nanos, op: AccountOp)
    requires Valid(db) && FlatIsFlat(db)
    ensures FlatIsFlat(ApplyAccountOp(db, now, op).0)
  {
    hide Valid, FlatIsFlat, RevokeInvitation, AppendToLog, ParseMode, ParseRole;
    match op
    case OpCreateAccount(account, quotaClass, bytes, mode) =>
      var r := CreateAccount(db, account, quotaClass, bytes, mode);
      if r.Ok? { NewAccountStaysFlat(db, account, r.value.accounts[account]); }
    case OpCreateInvitation(account, token, invitation, ttl, role) =>
      var r := CreateInvitation(db, now, account, token, invitation, ttl, role);
      if r.Ok? { InvitationEditStaysFlat(db, token, r.value.invitations[token]); }
    case OpRevokeInvitation(account, invitation) => RevokedInvitationsStayFlat(db, account, invitation);
    case OpAppendStatement(account, blob) =>
      var r := AppendStatement(db, account, blob);
      if r.Ok? { RowsAsideStayFlat(db, r.value); }
  }

  lemma RowsAsideStayFlat(db: Db, next: Db)
    requires FlatIsFlat(db)
    requires next.accounts == db.accounts && next.devices == db.devices && next.invitations == db.invitations
    ensures FlatIsFlat(next)
  {
  }

  /** Also across enrolments, and whoever asks: no step changes an account's mode or, in a flat
      account, a role. */
  lemma StaysFlat(db: Db, now: Nanos, op: Op)
    requires Valid(db) && FlatIsFlat(db)
    ensures FlatIsFlat(After(db, now, op))
  {
    hide ApplyAccountOp, ApplyQueueOp, ApplyMessageOp, FlatIsFlat, Valid;
    match op
    case OnAccounts(o) => AccountOpStaysFlat(db, now, o);
    case OnDevices(o) => DeviceOpStaysFlat(db, now, o);
    case Retiring(o) => RetireOpStaysFlat(db, o);
    case OnQueues(o) => OthersStayFlat(db, now, op);
    case OnMessages(o) => OthersStayFlat(db, now, op);
    case Reading(query) =>
  }

  lemma OthersStayFlat(db: Db, now: Nanos, op: Op)
    requires FlatIsFlat(db) && (op.OnQueues? || op.OnMessages?)
    ensures FlatIsFlat(After(db, now, op))
  {
    hide ApplyQueueOp, ApplyMessageOp;
    match op
    case OnQueues(o) => QueueOpFrame(db, o);
    case OnMessages(o) => MessageOpFrame(db, now, o);
  }

  lemma FlatRows(db: Db, id: Id)
    requires FlatIsFlat(db) && id in db.devices && IsFlat(db, db.devices[id].account)
    ensures db.devices[id].role == Admin
  {
  }

  lemma RegisterStaysFlat(db: Db, now: Nanos, token: Id, id: Id, pub: Key, push: string)
    requires FlatIsFlat(db) && RegisterDevice(db, now, token, id, pub, push).Ok?
    ensures FlatIsFlat(RegisterDevice(db, now, token, id, pub, push).value)
  {
    var next := RegisterDevice(db, now, token, id, pub, push).value;
    var inv := db.invitations[token];
    assert IsFlat(db, inv.account) ==> inv.grants == Admin;
    hide FlatIsFlat, DevicesOf;
    InvitationEditStaysFlat(db, token, next.invitations[token]);
    DeviceEditStaysFlat(db.(invitations := next.invitations), id, next.devices[id]);
  }

  lemma DeviceOpStaysFlat(db: Db, now: Nanos, op: DeviceOp)
    requires FlatIsFlat(db)
    ensures FlatIsFlat(ApplyDeviceOp(db, now, op).0)
  {
    hide FlatIsFlat, RegisterDevice, StripsLastAdmin, ParseRole;
    match op
    case OpRegister(token, device, pub, push) =>
      if RegisterDevice(db, now, token, device, pub, push).Ok? { RegisterStaysFlat(db, now, token, device, pub, push); }
    case OpSetRole(account, device, role) =>
      var r := SetDeviceRole(db, account, device, role);
      if r.Ok? { DeviceEditStaysFlat(db, device, r.value.devices[device]); }
    case OpPromote(device) =>
      var r := PromoteDevice(db, device);
      if r.Ok? { DeviceEditStaysFlat(db, device, r.value.devices[device]); }
    case OpUpdatePush(device, push) => SameRoleStaysFlat(db, device, push);
    case OpSetBundle(device, blob) =>
      if device in db.devices { RowsAsideStayFlat(db, SetBundle(db, device, blob).value); }
    case OpSetDeviceQuota(device, bytes) =>
      var r := SetDeviceQuota(db, device, bytes);
      if r.Ok? {
        if IsFlat(db, db.devices[device].account) { FlatRows(db, device); }
        DeviceEditStaysFlat(db, device, r.value.devices[device]);
      }
  }

  lemma SameRoleStaysFlat(db: Db, id: Id, push: string)
    requires FlatIsFlat(db)
    ensures FlatIsFlat(UpdatePushEndpoint(db, id, push))
  {
  }

  lemma RetireOpStaysFlat(db: Db, op: RetireOp)
    requires FlatIsFlat(db)
    ensures FlatIsFlat(ApplyRetireOp(db, op).0)
  {
    hide FlatIsFlat, StripsLastAdmin, Remaining, RetireOwned;
    match op
    case OpRevoke(caller, device) =>
      DisableStaysFlat(db, device);
      if RevokeDevice(db, caller, device).Ok? {}
    case OpRetire(rid) => RowsAsideStayFlat(db, RetireQueue(db, rid));
  }

  lemma DisableStaysFlat(db: Db, id: Id)
    requires FlatIsFlat(db)
    ensures FlatIsFlat(Disable(db, id))
  {
    hide FlatIsFlat, Remaining, RetireOwned;
    if id in db.devices {
      var d := db.devices[id];
      if IsFlat(db, d.account) { FlatRows(db, id); }
      DeviceEditStaysFlat(db, id, d.(revoked := true, push := ""));
      RowsAsideStayFlat(db.(devices := Disable(db, id).devices), Disable(db, id));
    } else {
      RowsAsideStayFlat(db, Disable(db, id));
    }
  }

  lemma {:induction false} ExecuteStaysFlat(
      db: Db, now: Nanos, req: Request, snap: Snapshot, ops: seq<Op>, last: Option<Response>, reply: Reply)
    requires Valid(db) && FlatIsFlat(db)
    ensures FlatIsFlat(Execute(db, now, req, snap, ops, last, reply).0)
    decreases |ops|
  {
    hide Valid, FlatIsFlat, Apply;
    if ops != [] {
      var r := Apply(db, now, ops[0]);
      StepKeepsValid(db, now, ops[0]);
      StaysFlat(db, now, ops[0]);
      if Stop(ops[0], r.1).None? {
        ExecuteStaysFlat(r.0, now, req, snap, ops[1..], last, r.1);
      }
    }
  }

  lemma {:induction false} FlatForEver(evs: seq<Event>)
    ensures Valid(State(EmptyRelay, evs).db)
    ensures FlatIsFlat(State(EmptyRelay, evs).db)
  {
    hide Valid, FlatIsFlat, Authorise, Execute;
    if evs == [] {
      EmptyIsValid();
      EmptyIsFlat();
    } else {
      var n := |evs| - 1;
      FlatForEver(evs[..n]);
      var r := State(EmptyRelay, evs[..n]);
      ServeKeepsValid(r, evs[n].now, evs[n].req);
      match VerdictOn(r, evs[n].now, evs[n].req)
      case Refuse(_) =>
      case Proceed(ops, last) =>
        ExecuteStaysFlat(r.db, evs[n].now, evs[n].req, Lookup(r.db, evs[n].req), ops, last, Done);
    }
  }

  lemma EmptyIsFlat()
    ensures FlatIsFlat(EmptyDb)
  {
  }
}
