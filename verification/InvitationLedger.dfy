/**
  Invitations and devices: over any run every device came in on one invitation of its own, and
  every consumed invitation let one device in.
  */
module InvitationLedger {
  import opened Results
  import opened Tables
  import opened StoreSpec
  import opened Integrity
  import opened Handlers
  import opened Runs
  import opened Effects
  import opened Admins

  /** Which invitation each device came in on. */
  type Ledger = map<Id, Id>

  ghost predicate ListsDevices(db: Db, ledger: Ledger) {
    && ledger.Keys == db.devices.Keys
    && (forall d :: d in ledger ==> ledger[d] in db.invitations)
    && (forall d :: d in ledger ==> db.invitations[ledger[d]].account == db.devices[d].account)
  }

  ghost predicate OneEach(ledger: Ledger) {
    forall d, e :: d in ledger && e in ledger && ledger[d] == ledger[e] ==> d == e
  }

  /** Consumed are exactly the listed invitations, and they are not revoked. */
  ghost predicate ListsConsumed(db: Db, ledger: Ledger) {
    && (forall t :: t in db.invitations ==> (db.invitations[t].consumed <==> t in ledger.Values))
    && (forall t :: t in db.invitations && db.invitations[t].consumed ==> !db.invitations[t].revoked)
  }

  /** The ledger is a one-to-one correspondence of devices and consumed invitations, account by account. */
  ghost predicate Balanced(db: Db, ledger: Ledger) {
    ListsDevices(db, ledger) && OneEach(ledger) && ListsConsumed(db, ledger)
  }

  // ---- steps

  lemma InvitationEditBalances(db: Db, ledger: Ledger, token: Id, inv: Invitation)
    requires Balanced(db, ledger)
    requires token in db.invitations ==>
      inv.account == db.invitations[token].account && inv.consumed == db.invitations[token].consumed
    requires token !in db.invitations ==> !inv.consumed
    requires inv.consumed ==> !inv.revoked
    ensures Balanced(db.(invitations := db.invitations[token := inv]), ledger)
  {
    if token !in db.invitations {
      assert token !in ledger.Values;
    }
  }

  lemma RevocationBalances(db: Db, ledger: Ledger, account: Id, id: Id)
    requires Balanced(db, ledger)
    ensures Balanced(RevokeInvitation(db, account, id).0, ledger)
  {
    var next := RevokeInvitation(db, account, id).0;
    assert forall t :: t in next.invitations <==> t in db.invitations;
    assert forall t :: t in db.invitations ==>
      next.invitations[t] == db.invitations[t].(revoked := next.invitations[t].revoked);
    assert forall t :: t in db.invitations && db.invitations[t].consumed ==> next.invitations[t] == db.invitations[t];
  }

  lemma AsideBalances(db: Db, next: Db, ledger: Ledger)
    requires Balanced(db, ledger) && next.invitations == db.invitations
    requires next.devices.Keys == db.devices.Keys
    requires forall d :: d in db.devices ==> next.devices[d].account == db.devices[d].account
    ensures Balanced(next, ledger)
  {
    hide ListsConsumed, OneEach;
    assert ListsConsumed(next, ledger) by { ConsumedFrame(db, next, ledger); }
  }

  lemma ConsumedFrame(db: Db, next: Db, ledger: Ledger)
    requires ListsConsumed(db, ledger) && next.invitations == db.invitations
    ensures ListsConsumed(next, ledger)
  {
  }

  lemma AccountOpBalances(db: Db, now: Nanos, op: AccountOp, ledger: Ledger)
    requires Balanced(db, ledger)
    ensures Balanced(ApplyAccountOp(db, now, op).0, ledger)
  {
    hide Balanced, RevokeInvitation, AppendToLog, ParseMode, ParseRole;
    match op
    case OpCreateAccount(account, quotaClass, bytes, mode) =>
      var r := CreateAccount(db, account, quotaClass, bytes, mode);
      if r.Ok? { AsideBalances(db, r.value, ledger); }
    case OpCreateInvitation(account, token, invitation, ttl, role) =>
      var r := CreateInvitation(db, now, account, token, invitation, ttl, role);
      if r.Ok? { InvitationEditBalances(db, ledger, token, r.value.invitations[token]); }
    case OpRevokeInvitation(account, invitation) => RevocationBalances(db, ledger, account, invitation);
    case OpAppendStatement(account, blob) =>
      var r := AppendStatement(db, account, blob);
      if r.Ok? { AsideBalances(db, r.value, ledger); }
  }

  lemma DeviceEditBalances(db: Db, ledger: Ledger, id: Id, d: Device)
    requires Balanced(db, ledger) && id in db.devices && d.account == db.devices[id].account
    ensures Balanced(db.(devices := db.devices[id := d]), ledger)
  {
    hide Balanced;
    AsideBalances(db, db.(devices := db.devices[id := d]), ledger);
  }

  lemma DeviceOpBalances(db: Db, now: Nanos, op: DeviceOp, ledger: Ledger)
    requires Balanced(db, ledger) && !op.OpRegister?
    ensures Balanced(ApplyDeviceOp(db, now, op).0, ledger)
  {
    hide Balanced, StripsLastAdmin, ParseRole;
    match op
    case OpSetRole(account, device, role) =>
      var r := SetDeviceRole(db, account, device, role);
      if r.Ok? { DeviceEditBalances(db, ledger, device, r.value.devices[device]); }
    case OpPromote(device) =>
      var r := PromoteDevice(db, device);
      if r.Ok? { DeviceEditBalances(db, ledger, device, r.value.devices[device]); }
    case OpUpdatePush(device, push) =>
      if device in db.devices { DeviceEditBalances(db, ledger, device, db.devices[device].(push := push)); }
    case OpSetBundle(device, blob) =>
      var r := SetBundle(db, device, blob);
      if r.Ok? { AsideBalances(db, r.value, ledger); }
    case OpSetDeviceQuota(device, bytes) =>
      var r := SetDeviceQuota(db, device, bytes);
      if r.Ok? { DeviceEditBalances(db, ledger, device, r.value.devices[device]); }
  }

  lemma DisableBalances(db: Db, id: Id, ledger: Ledger)
    requires Balanced(db, ledger)
    ensures Balanced(Disable(db, id), ledger)
  {
    hide Balanced, Remaining, RetireOwned;
    if id in db.devices {}
    AsideBalances(db, Disable(db, id), ledger);
  }

  lemma RetireOpBalances(db: Db, op: RetireOp, ledger: Ledger)
    requires Balanced(db, ledger)
    ensures Balanced(ApplyRetireOp(db, op).0, ledger)
  {
    hide Balanced, StripsLastAdmin, Remaining, Disable;
    match op
    case OpRevoke(caller, device) =>
      DisableBalances(db, device, ledger);
      if RevokeDevice(db, caller, device).Ok? {}
    case OpRetire(rid) =>
      if rid in db.queues {}
      AsideBalances(db, RetireQueue(db, rid), ledger);
  }

  /** Any step but an enrolment leaves the books balanced as they are. */
  lemma StepBalances(db: Db, now: Nanos, op: Op, ledger: Ledger)
    requires Balanced(db, ledger) && !(op.OnDevices? && op.device.OpRegister?)
    ensures Balanced(After(db, now, op), ledger)
  {
    hide Balanced, ApplyAccountOp, ApplyDeviceOp, ApplyQueueOp, ApplyRetireOp, ApplyMessageOp;
    match op
    case OnAccounts(o) => AccountOpBalances(db, now, o, ledger);
    case OnDevices(o) => DeviceOpBalances(db, now, o, ledger);
    case OnQueues(o) =>
      QueueOpFrame(db, o);
      AsideBalances(db, After(db, now, op), ledger);
    case Retiring(o) => RetireOpBalances(db, o, ledger);
    case OnMessages(o) =>
      MessageOpFrame(db, now, o);
      AsideBalances(db, After(db, now, op), ledger);
    case Reading(query) =>
  }

  lemma EntryIsOneToOne(ledger: Ledger, id: Id, token: Id)
    requires OneEach(ledger) && token !in ledger.Values && id !in ledger
    ensures OneEach(ledger[id := token])
    ensures ledger[id := token].Values == ledger.Values + {token}
  {
    var entered := ledger[id := token];
    assert entered[id] == token;
    forall t | t in ledger.Values ensures t in entered.Values {
      var d :| d in ledger && ledger[d] == t;
      assert entered[d] == t;
    }
    forall d, e | d in entered && e in entered && entered[d] == entered[e] ensures d == e {
      if d != id { assert entered[d] in ledger.Values; }
      if e != id { assert entered[e] in ledger.Values; }
    }
  }

  lemma EntryListsDevices(db: Db, ledger: Ledger, token: Id, inv: Invitation, id: Id, d: Device)
    requires ListsDevices(db, ledger) && id !in db.devices
    requires token in db.invitations && inv.account == db.invitations[token].account == d.account
    ensures ListsDevices(db.(invitations := db.invitations[token := inv], devices := db.devices[id := d]),
                         ledger[id := token])
  {
  }

  /** An enrolment enters the device with the invitation it consumed, which no device had. */
  lemma EnrolmentBalances(db: Db, now: Nanos, token: Id, id: Id, pub: Key, push: string, ledger: Ledger)
    requires Balanced(db, ledger) && RegisterDevice(db, now, token, id, pub, push).Ok?
    ensures Balanced(RegisterDevice(db, now, token, id, pub, push).value, ledger[id := token])
  {
    hide EnrolledRole, Seconds, ListsDevices, OneEach;
    var next := RegisterDevice(db, now, token, id, pub, push).value;
    assert !db.invitations[token].consumed && token !in ledger.Values;
    assert id !in ledger by { Unlisted(db, ledger, id); }
    EntryIsOneToOne(ledger, id, token);
    EntryListsDevices(db, ledger, token, next.invitations[token], id, next.devices[id]);
  }

  lemma Unlisted(db: Db, ledger: Ledger, id: Id)
    requires ListsDevices(db, ledger) && id !in db.devices
    ensures id !in ledger
  {
  }

  // ---- requests

  predicate Enrols(r: Relay, now: Nanos, req: Request) {
    req.Register? && Serve(r, now, req).1.Registered?
  }

  lemma {:induction false} QuietBalances(
      db: Db, now: Nanos, req: Request, snap: Snapshot, ops: seq<Op>, last: Option<Response>, reply: Reply,
      ledger: Ledger)
    requires Balanced(db, ledger)
    requires forall i :: 0 <= i < |ops| ==> !(ops[i].OnDevices? && ops[i].device.OpRegister?)
    ensures Balanced(Execute(db, now, req, snap, ops, last, reply).0, ledger)
    decreases |ops|
  {
    hide Balanced, Apply, Stop, Finish;
    if ops != [] {
      var r := Apply(db, now, ops[0]);
      StepBalances(db, now, ops[0], ledger);
      if Stop(ops[0], r.1).None? { QuietBalances(r.0, now, req, snap, ops[1..], last, r.1, ledger); }
    }
  }

  lemma OnlyAskedEnrols(r: Relay, now: Nanos, req: Request)
    requires !req.Register?
    ensures forall i :: 0 <= i < |Granted(VerdictOn(r, now, req))| ==>
      var op := Granted(VerdictOn(r, now, req))[i]; !(op.OnDevices? && op.device.OpRegister?)
  {
    hide Authenticate, ResolveSenderKey;
  }

  /** A registration is answered with the new device and its account exactly if it enrolled it. */
  lemma ServeRegisters(r: Relay, now: Nanos, req: Request)
    requires req.Register?
    ensures
      var done := RegisterDevice(r.db, now, req.token, req.newId, req.pub, req.push);
      && (Enrols(r, now, req) <==> done.Ok?)
      && Serve(r, now, req).0.db == (if done.Ok? then done.value else r.db)
      && (done.Ok? ==> Serve(r, now, req).1 == Registered(req.newId, r.db.invitations[req.token].account))
      && (done.Err? && |req.pub| == KEY_SIZE ==>
            Serve(r, now, req).1 == if done.error == InvalidInvitation then Unauthorized else Internal)
  {
    hide EnrolledRole, Redeemable;
    var op := OnDevices(OpRegister(req.token, req.newId, req.pub, req.push));
    OneStep(r.db, now, req, NoRow, op);
  }

  lemma ServeBalances(r: Relay, now: Nanos, req: Request, ledger: Ledger)
    requires Balanced(r.db, ledger)
    ensures Balanced(Serve(r, now, req).0.db, if Enrols(r, now, req) then ledger[req.newId := req.token] else ledger)
  {
    hide Balanced, Execute, Authorise, RegisterDevice;
    if req.Register? {
      ServeRegisters(r, now, req);
      if Enrols(r, now, req) { EnrolmentBalances(r.db, now, req.token, req.newId, req.pub, req.push, ledger); }
    } else {
      match VerdictOn(r, now, req)
      case Refuse(_) =>
      case Proceed(ops, last) =>
        OnlyAskedEnrols(r, now, req);
        assert ops == Granted(VerdictOn(r, now, req));
        QuietBalances(r.db, now, req, Lookup(r.db, req), ops, last, Done, ledger);
    }
  }

  // ---- runs

  /** The enrolments of a run, read off its requests and answers. */
  function Enrolments(evs: seq<Event>): Ledger {
    if evs == [] then map[]
    else
      var e := evs[|evs| - 1];
      var rest := Enrolments(evs[..|evs| - 1]);
      if Enrols(State(EmptyRelay, evs[..|evs| - 1]), e.now, e.req) then rest[e.req.newId := e.req.token] else rest
  }

  lemma NothingBalances()
    ensures Balanced(EmptyDb, map[])
  {
  }

  /** After any run, the enrolments answered are a one-to-one correspondence between the devices
      and the consumed invitations, within each account, and none of those is revoked. */
  lemma {:induction false} InvitationConservation(evs: seq<Event>)
    ensures Balanced(State(EmptyRelay, evs).db, Enrolments(evs))
  {
    hide Balanced, Serve, Enrols;
    if evs == [] {
      NothingBalances();
    } else {
      var init, e := evs[..|evs| - 1], evs[|evs| - 1];
      InvitationConservation(init);
      ServeBalances(State(EmptyRelay, init), e.now, e.req, Enrolments(init));
      EnrolsAsks(State(EmptyRelay, init), e.now, e.req);
    }
  }

  lemma EnrolsAsks(r: Relay, now: Nanos, req: Request)
    ensures Enrols(r, now, req) ==> req.Register?
  {
    hide Serve;
  }

  ghost function ConsumedOf(db: Db, account: Id): set<Id> {
    set t | t in db.invitations && db.invitations[t].account == account && db.invitations[t].consumed
  }

  lemma {:induction false} ImageSize(ds: set<Id>, ledger: Ledger)
    requires ds <= ledger.Keys && OneEach(ledger)
    ensures |set d | d in ds :: ledger[d]| == |ds|
  {
    if ds != {} {
      var d :| d in ds;
      var rest := ds - {d};
      ImageSize(rest, ledger);
      var image := set e | e in rest :: ledger[e];
      assert ledger[d] !in image;
      assert (set e | e in ds :: ledger[e]) == image + {ledger[d]};
    }
  }

  /** So an account has as many devices, revoked ones included, as consumed invitations. */
  lemma AsManyDevices(evs: seq<Event>, account: Id)
    ensures var db := State(EmptyRelay, evs).db; |DevicesOf(db.devices, account)| == |ConsumedOf(db, account)|
  {
    hide Serve;
    InvitationConservation(evs);
    var db, ledger := State(EmptyRelay, evs).db, Enrolments(evs);
    ImageSize(DevicesOf(db.devices, account), ledger);
    DevicesConsume(db, ledger, account);
  }

  lemma DevicesConsume(db: Db, ledger: Ledger, account: Id)
    requires Balanced(db, ledger)
    ensures (set d | d in DevicesOf(db.devices, account) :: ledger[d]) == ConsumedOf(db, account)
  {
    forall t | t in ConsumedOf(db, account) ensures t in (set d | d in DevicesOf(db.devices, account) :: ledger[d]) {
      assert t in ledger.Values;
      var d :| d in ledger && ledger[d] == t;
      assert d in DevicesOf(db.devices, account);
    }
  }

  /** In any run, an enrolling device gets the role its invitation grants; only the first device
      an account ever has is an admin whatever the grant. */
  lemma EnrolledAsGranted(evs: seq<Event>, now: Nanos, req: Request)
    requires Enrols(State(EmptyRelay, evs), now, req)
    ensures
      var db := State(EmptyRelay, evs).db;
      var next := Serve(State(EmptyRelay, evs), now, req).0.db;
      && req.newId !in db.devices && req.newId in next.devices && req.token in db.invitations
      && next.devices[req.newId].role ==
           if DevicesOf(db.devices, db.invitations[req.token].account) == {} then Admin
           else db.invitations[req.token].grants
  {
    FlatForEver(evs);
    var r := State(EmptyRelay, evs);
    ServeRegisters(r, now, req);
    GrantApplies(r.db, now, req.token, req.newId, req.pub, req.push);
  }

  lemma GrantApplies(db: Db, now: Nanos, token: Id, id: Id, pub: Key, push: string)
    requires FlatIsFlat(db) && RegisterDevice(db, now, token, id, pub, push).Ok?
    ensures
      var next := RegisterDevice(db, now, token, id, pub, push).value;
      && id !in db.devices && id in next.devices && token in db.invitations
      && next.devices[id].role ==
           if DevicesOf(db.devices, db.invitations[token].account) == {} then Admin else db.invitations[token].grants
  {
    hide DevicesOf;
    var inv := db.invitations[token];
    assert IsFlat(db, inv.account) ==> inv.grants == Admin;
  }
}
