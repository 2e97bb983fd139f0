/**
  Tenant non-interference over whole runs: leave out every request addressed to one account, and
  each other request is answered exactly as before.
  */
module TenantRuns {
  import opened Results
  import opened Tables
  import opened StoreSpec
  import opened RowFacts
  import opened Integrity
  import opened Nonces
  import opened Handlers
  import opened Runs
  import opened Expiry
  import opened Tenancy
  import opened Neighbours
  import opened NonInterference

  // ---- id spaces stay separate

  predicate AddsIds(op: Op) {
    match op
    case OnDevices(OpRegister(_, _, _, _)) => true
    case OnQueues(OpCreateQueue(_, _, _, _)) => true
    case _ => false
  }

  predicate FreshSpaces(db: Db, op: Op) {
    match op
    case OnDevices(OpRegister(_, device, _, _)) => Unused(db, device)
    case OnQueues(OpCreateQueue(_, _, rid, sid)) => Unused(db, rid) && Unused(db, sid) && rid != sid
    case _ => true
  }

  ghost predicate SameIds(db: Db, next: Db) {
    next.devices.Keys == db.devices.Keys && next.queues.Keys == db.queues.Keys && next.senders.Keys == db.senders.Keys
  }

  lemma DeviceOpIds(db: Db, now: Nanos, op: DeviceOp)
    requires !op.OpRegister?
    ensures SameIds(db, ApplyDeviceOp(db, now, op).0)
  {
    match op
    case OpSetRole(account, device, role) =>
      if SetDeviceRole(db, account, device, role).Ok? {}
    case OpPromote(device) =>
      if PromoteDevice(db, device).Ok? {}
    case OpUpdatePush(device, push) =>
      if device in db.devices {}
    case OpSetBundle(device, blob) =>
      if SetBundle(db, device, blob).Ok? {}
    case OpSetDeviceQuota(device, bytes) =>
      if SetDeviceQuota(db, device, bytes).Ok? {}
  }

  lemma QueueOpIds(db: Db, op: QueueOp)
    requires !op.OpCreateQueue? && Valid(db)
    ensures SameIds(db, ApplyQueueOp(db, op).0)
  {
    match op
    case OpBind(sid, key) =>
      if Bindable(db, sid) {}
    case OpSetQueueQuota(rid, bytes) =>
      if SetQueueQuota(db, rid, bytes).Ok? {}
  }

  lemma DisableIds(db: Db, id: Id)
    ensures SameIds(db, Disable(db, id))
  {
    assert RetireOwned(db.queues, id).Keys == db.queues.Keys;
    hide Remaining, RetireOwned;
    if id in db.devices {}
  }

  lemma RetireOpIds(db: Db, op: RetireOp)
    ensures SameIds(db, ApplyRetireOp(db, op).0)
  {
    hide Remaining, Disable, StripsLastAdmin;
    match op
    case OpRevoke(caller, device) =>
      DisableIds(db, device);
      if RevokeDevice(db, caller, device).Ok? {}
    case OpRetire(rid) =>
      if rid in db.queues {}
  }

  lemma StepIds(db: Db, now: Nanos, op: Op)
    requires Valid(db) && !AddsIds(op)
    ensures SameIds(db, After(db, now, op))
  {
    hide Valid, ApplyAccountOp, ApplyDeviceOp, ApplyQueueOp, ApplyRetireOp, ApplyMessageOp;
    match op
    case OnAccounts(o) => AccountOpFrame(db, now, o);
    case OnDevices(o) => DeviceOpIds(db, now, o);
    case OnQueues(o) => QueueOpIds(db, o);
    case Retiring(o) => RetireOpIds(db, o);
    case OnMessages(o) => MessageOpFrame(db, now, o);
    case Reading(query) =>
  }

  lemma AddedIds(db: Db, now: Nanos, op: Op)
    requires Spaces(db) && AddsIds(op) && FreshSpaces(db, op)
    ensures Spaces(After(db, now, op))
  {
    match op
    case OnDevices(OpRegister(token, device, pub, push)) =>
      if RegisterDevice(db, now, token, device, pub, push).Ok? {}
    case OnQueues(OpCreateQueue(owner, key, rid, sid)) =>
      if CreateQueue(db, owner, key, rid, sid).Ok? {}
  }

  lemma SameIdsSameSpaces(db: Db, next: Db)
    requires Spaces(db) && SameIds(db, next)
    ensures Spaces(next)
  {
    assert forall d :: d in next.devices <==> d in db.devices.Keys;
    assert forall q :: q in next.queues <==> q in db.queues.Keys;
    assert forall s :: s in next.senders <==> s in db.senders.Keys;
  }

  lemma StepKeepsSpaces(db: Db, now: Nanos, op: Op)
    requires Valid(db) && Spaces(db) && FreshSpaces(db, op)
    ensures Spaces(After(db, now, op))
  {
    hide Valid, Spaces, Apply, SameIds;
    if AddsIds(op) {
      AddedIds(db, now, op);
    } else {
      StepIds(db, now, op);
      SameIdsSameSpaces(db, After(db, now, op));
    }
  }

  lemma {:induction false} ExecuteKeepsSpaces(
      db: Db, now: Nanos, req: Request, snap: Snapshot, ops: seq<Op>, last: Option<Response>, reply: Reply)
    requires Valid(db) && Spaces(db)
    requires forall i :: 0 <= i < |ops| && AddsIds(ops[i]) ==> |ops| == 1 && FreshSpaces(db, ops[i])
    ensures Spaces(Execute(db, now, req, snap, ops, last, reply).0)
    decreases |ops|
  {
    hide Valid, Spaces, Apply, Finish, Stop, Unused;
    if ops != [] {
      var r := Apply(db, now, ops[0]);
      StepKeepsValid(db, now, ops[0]);
      StepKeepsSpaces(db, now, ops[0]);
      if Stop(ops[0], r.1).None? { ExecuteKeepsSpaces(r.0, now, req, snap, ops[1..], last, r.1); }
    }
  }

  lemma AddersAreFresh(r: Relay, now: Nanos, req: Request, i: nat)
    requires Fresh(r.db, req)
    requires i < |Granted(VerdictOn(r, now, req))| && AddsIds(Granted(VerdictOn(r, now, req))[i])
    ensures |Granted(VerdictOn(r, now, req))| == 1 && FreshSpaces(r.db, Granted(VerdictOn(r, now, req))[i])
  {
    hide Authenticate, Unused;
  }

  lemma ServeKeepsSpaces(r: Relay, now: Nanos, req: Request)
    requires Valid(r.db) && Spaces(r.db) && Fresh(r.db, req)
    ensures Spaces(Serve(r, now, req).0.db)
  {
    hide Valid, Spaces, Authorise, Execute, Fresh, AddsIds, FreshSpaces;
    match VerdictOn(r, now, req)
    case Refuse(_) =>
    case Proceed(ops, last) =>
      assert ops == Granted(VerdictOn(r, now, req));
      forall i | 0 <= i < |ops| && AddsIds(ops[i]) ensures |ops| == 1 && FreshSpaces(r.db, ops[i]) {
        AddersAreFresh(r, now, req, i);
      }
      ExecuteKeepsSpaces(r.db, now, req, Lookup(r.db, req), ops, last, Done);
  }

  // ---- one request

  /** The two relays agree on everything outside the account. */
  ghost predicate Apart(whole: Relay, rest: Relay, a: Id, at: Nanos) {
    Mirrors(whole.db, rest.db, a) && SeenAgree(whole.db, whole.seen, rest.seen, a, at)
  }

  /** The principal a request authenticates as, if the row it names exists. */
  lemma OwnPrincipalOf(r: Relay, req: Request, a: Id)
    requires Valid(r.db) && Spaces(r.db)
    ensures req.Manage? && req.device in r.db.devices ==>
      Plain(req.device) && OwnPrincipal(r.db, req.device, a) == Addressed(r.db, req, a)
    ensures req.Send? && req.sender in r.db.senders ==>
      Plain(req.sender) && OwnPrincipal(r.db, req.sender, a) == Addressed(r.db, req, a)
    ensures req.Receive? && req.recipient in r.db.queues ==>
      Plain(req.recipient) && OwnPrincipal(r.db, req.recipient, a) == Addressed(r.db, req, a)
  {
  }

  /** The cache after authorising a request, by the plane it is on. */
  function SeenAfter(r: Relay, now: Nanos, req: Request): Seen {
    Authorise(r.db, r.seen, now, req, Lookup(r.db, req)).0
  }

  lemma OwnSeenManage(whole: Relay, kept: Seen, now: Nanos, req: Request, a: Id, at: Nanos)
    requires req.Manage? && SeenAgree(whole.db, whole.seen, kept, a, at) && at <= now
    requires SeenAgree(whole.db, whole.seen, kept, a, now)
    requires req.device in whole.db.devices ==> Plain(req.device) && OwnPrincipal(whole.db, req.device, a)
    ensures SeenAgree(whole.db, SeenAfter(whole, now, req), kept, a, now)
  {
    hide SeenAgree, OwnPrincipal, Authenticate, DeviceVerdict, Plain;
    var snap := Lookup(whole.db, req);
    if snap.DeviceRow? {
      OwnAuthentication(whole.db, whole.seen, kept, a, at, now, req.env, req.device, snap.device.publicKey);
    }
  }

  lemma OwnSeenSend(whole: Relay, kept: Seen, now: Nanos, req: Request, a: Id, at: Nanos)
    requires req.Send? && SeenAgree(whole.db, whole.seen, kept, a, at) && at <= now
    requires SeenAgree(whole.db, whole.seen, kept, a, now)
    requires req.sender in whole.db.senders ==> Plain(req.sender) && OwnPrincipal(whole.db, req.sender, a)
    ensures SeenAgree(whole.db, SeenAfter(whole, now, req), kept, a, now)
  {
    hide SeenAgree, OwnPrincipal, Authenticate, SendOps, ResolveSenderKey, Plain;
    var snap := Lookup(whole.db, req);
    if snap.QueueRow? && ResolveSenderKey(snap.queue, req.header).Some? {
      var key := ResolveSenderKey(snap.queue, req.header).value.0;
      OwnAuthentication(whole.db, whole.seen, kept, a, at, now, req.env, req.sender, key);
    }
  }

  lemma OwnSeenReceive(whole: Relay, kept: Seen, now: Nanos, req: Request, a: Id, at: Nanos)
    requires req.Receive? && SeenAgree(whole.db, whole.seen, kept, a, at) && at <= now
    requires SeenAgree(whole.db, whole.seen, kept, a, now)
    requires req.recipient in whole.db.queues ==> Plain(req.recipient) && OwnPrincipal(whole.db, req.recipient, a)
    ensures SeenAgree(whole.db, SeenAfter(whole, now, req), kept, a, now)
  {
    hide SeenAgree, OwnPrincipal, Authenticate, QueueVerdict, Plain;
    var snap := Lookup(whole.db, req);
    if snap.QueueRow? {
      OwnAuthentication(whole.db, whole.seen, kept, a, at, now, req.env, req.recipient, snap.queue.recipientKey);
    }
  }

  /** The cache after authorising a request of the account. */
  lemma OwnSeen(whole: Relay, rest: Relay, now: Nanos, req: Request, a: Id, at: Nanos)
    requires Valid(whole.db) && Spaces(whole.db) && Apart(whole, rest, a, at) && at <= now
    requires Addressed(whole.db, req, a)
    ensures SeenAgree(whole.db, SeenAfter(whole, now, req), rest.seen, a, now)
  {
    OwnPrincipalOf(whole, req, a);
    SeenAgreeLater(whole.db, whole.seen, rest.seen, a, at, now);
    hide Valid, Spaces, Mirrors, SeenAgree, OwnPrincipal, Plain, Addressed, SeenAfter;
    match req
    case Manage(id, env, call) => OwnSeenManage(whole, rest.seen, now, req, a, at);
    case Send(sender, env, header, body, newId) => OwnSeenSend(whole, rest.seen, now, req, a, at);
    case Receive(q, env, call) => OwnSeenReceive(whole, rest.seen, now, req, a, at);
    case _ =>
  }

  /** A request of the account leaves everyone else's world as it was. */
  lemma ServeOwn(whole: Relay, rest: Relay, now: Nanos, req: Request, a: Id, at: Nanos)
    requires Valid(whole.db) && Spaces(whole.db) && Apart(whole, rest, a, at) && at <= now
    requires Addressed(whole.db, req, a) && Fresh(whole.db, req)
    ensures Apart(Serve(whole, now, req).0, rest, a, now)
  {
    OwnSeen(whole, rest, now, req, a, at);
    ServeKeepsValid(whole, now, req);
    StepsAddressed(whole, now, req, a);
    hide Valid, Spaces, Mirrors, SeenAgree, Authorise, Execute, Ages, Fresh, OwnSteps, ForeignSteps;
    var auth := Authorise(whole.db, whole.seen, now, req, Lookup(whole.db, req));
    match auth.1
    case Refuse(_) =>
    case Proceed(ops, last) =>
      assert ops == Granted(VerdictOn(whole, now, req));
      ExecuteOwn(whole.db, rest.db, now, req, Lookup(whole.db, req), ops, last, Done, a);
      SeenAgreeGrows(whole.db, Serve(whole, now, req).0.db, auth.0, rest.seen, a, now);
  }

  lemma LookupAlike(whole: Db, rest: Db, req: Request, a: Id)
    requires Valid(whole) && Mirrors(whole, rest, a) && !Addressed(whole, req, a)
    ensures Lookup(whole, req) == Lookup(rest, req)
  {
    match req
    case Manage(id, _, _) => DeviceRowAlike(whole, rest, id, a);
    case Send(s, _, _, _, _) =>
      SenderAlike(whole, rest, s, a);
      if s in whole.senders { QueueRowAlike(whole, rest, whole.senders[s], a); }
    case Receive(q, _, _) => QueueRowAlike(whole, rest, q, a);
    case _ =>
  }

  lemma DeviceVerdictAlike(whole: Db, rest: Db, id: Id, dev: Device, call: Call, a: Id)
    requires Mirrors(whole, rest, a) && dev.account != a
    ensures DeviceVerdict(whole, id, dev, call) == DeviceVerdict(rest, id, dev, call)
  {
    match call
    case AskRevoke(target) => TargetAlike(whole, rest, target, dev.account, a);
    case AskGetBundle(target) => TargetAlike(whole, rest, target, dev.account, a);
    case _ =>
  }

  lemma TargetAlike(whole: Db, rest: Db, d: Id, account: Id, a: Id)
    requires Mirrors(whole, rest, a) && account != a
    ensures DeviceIn(whole.devices, d, account) == DeviceIn(rest.devices, d, account)
    ensures DeviceIn(whole.devices, d, account) ==> whole.devices[d] == rest.devices[d]
  {
    hide SameRows;
  }

  lemma OperatorVerdictAlike(whole: Db, rest: Db, act: OperatorAct, a: Id)
    requires Mirrors(whole, rest, a) && !Addressed(whole, Operate(act), a)
    ensures OperatorVerdict(whole, act) == OperatorVerdict(rest, act)
  {
    match act
    case NewAccount(_, _, _, _, _, _, _) =>
    case CapDevice(d, _) => DeviceRowAlike(whole, rest, d, a);
    case Promote(d) => DeviceRowAlike(whole, rest, d, a);
  }

  /** Both relays authorise the request alike. */
  ghost predicate AuthorisedAlike(whole: Relay, rest: Relay, now: Nanos, req: Request, a: Id) {
    var snap := Lookup(whole.db, req);
    var w, r := Authorise(whole.db, whole.seen, now, req, snap), Authorise(rest.db, rest.seen, now, req, snap);
    w.1 == r.1 && SeenAgree(whole.db, w.0, r.0, a, now)
  }

  lemma ManageAlike(whole: Relay, rest: Relay, now: Nanos, req: Request, a: Id, at: Nanos)
    requires req.Manage? && Mirrors(whole.db, rest.db, a)
    requires SeenAgree(whole.db, whole.seen, rest.seen, a, at) && at <= now
    requires SeenAgree(whole.db, whole.seen, rest.seen, a, now)
    requires req.device in whole.db.devices ==>
      Plain(req.device) && !OwnPrincipal(whole.db, req.device, a) && whole.db.devices[req.device].account != a
    ensures AuthorisedAlike(whole, rest, now, req, a)
  {
    hide Mirrors, SeenAgree, OwnPrincipal, Authenticate, DeviceVerdict, Plain;
    var snap := Lookup(whole.db, req);
    if snap.DeviceRow? {
      OtherAuthentication(whole.db, whole.seen, rest.seen, a, at, now, req.env, req.device, snap.device.publicKey);
      DeviceVerdictAlike(whole.db, rest.db, req.device, snap.device, req.call, a);
    }
  }

  lemma SendAlike(whole: Relay, rest: Relay, now: Nanos, req: Request, a: Id, at: Nanos)
    requires req.Send? && SeenAgree(whole.db, whole.seen, rest.seen, a, at) && at <= now
    requires SeenAgree(whole.db, whole.seen, rest.seen, a, now)
    requires req.sender in whole.db.senders ==> Plain(req.sender) && !OwnPrincipal(whole.db, req.sender, a)
    ensures AuthorisedAlike(whole, rest, now, req, a)
  {
    hide SeenAgree, OwnPrincipal, Authenticate, SendOps, ResolveSenderKey, Plain;
    var snap := Lookup(whole.db, req);
    if snap.QueueRow? && ResolveSenderKey(snap.queue, req.header).Some? {
      var key := ResolveSenderKey(snap.queue, req.header).value.0;
      OtherAuthentication(whole.db, whole.seen, rest.seen, a, at, now, req.env, req.sender, key);
    }
  }

  lemma ReceiveAlike(whole: Relay, rest: Relay, now: Nanos, req: Request, a: Id, at: Nanos)
    requires req.Receive? && SeenAgree(whole.db, whole.seen, rest.seen, a, at) && at <= now
    requires SeenAgree(whole.db, whole.seen, rest.seen, a, now)
    requires req.recipient in whole.db.queues ==> Plain(req.recipient) && !OwnPrincipal(whole.db, req.recipient, a)
    ensures AuthorisedAlike(whole, rest, now, req, a)
  {
    hide SeenAgree, OwnPrincipal, Authenticate, QueueVerdict, Plain;
    var snap := Lookup(whole.db, req);
    if snap.QueueRow? {
      OtherAuthentication(whole.db, whole.seen, rest.seen, a, at, now, req.env, req.recipient, snap.queue.recipientKey);
    }
  }

  lemma OthersAlike(whole: Relay, rest: Relay, now: Nanos, req: Request, a: Id)
    requires Mirrors(whole.db, rest.db, a) && SeenAgree(whole.db, whole.seen, rest.seen, a, now)
    requires !req.Manage? && !req.Send? && !req.Receive? && !Addressed(whole.db, req, a)
    ensures AuthorisedAlike(whole, rest, now, req, a)
  {
    hide Mirrors, SeenAgree, OperatorVerdict, Addressed;
    if req.Operate? { OperatorVerdictAlike(whole.db, rest.db, req.act, a); }
  }

  lemma CallerElsewhere(whole: Relay, req: Request, a: Id)
    requires !Addressed(whole.db, req, a)
    ensures req.Manage? && req.device in whole.db.devices ==> whole.db.devices[req.device].account != a
  {
  }

  /** Another account's request is authorised alike. */
  lemma AuthoriseAlike(whole: Relay, rest: Relay, now: Nanos, req: Request, a: Id, at: Nanos)
    requires Valid(whole.db) && Spaces(whole.db) && Apart(whole, rest, a, at) && at <= now
    requires !Addressed(whole.db, req, a)
    ensures AuthorisedAlike(whole, rest, now, req, a)
  {
    OwnPrincipalOf(whole, req, a);
    CallerElsewhere(whole, req, a);
    SeenAgreeLater(whole.db, whole.seen, rest.seen, a, at, now);
    hide Valid, Spaces, Mirrors, SeenAgree, OwnPrincipal, Plain, Addressed, AuthorisedAlike;
    match req
    case Manage(id, env, call) => ManageAlike(whole, rest, now, req, a, at);
    case Send(sender, env, header, body, newId) => SendAlike(whole, rest, now, req, a, at);
    case Receive(q, env, call) => ReceiveAlike(whole, rest, now, req, a, at);
    case _ => OthersAlike(whole, rest, now, req, a);
  }

  /** Another account's request is served alike. */
  lemma ServeForeign(whole: Relay, rest: Relay, now: Nanos, req: Request, a: Id, at: Nanos)
    requires Valid(whole.db) && Spaces(whole.db) && Apart(whole, rest, a, at) && at <= now
    requires !Addressed(whole.db, req, a) && Fresh(whole.db, req) && !req.Sweep?
    ensures Apart(Serve(whole, now, req).0, Serve(rest, now, req).0, a, now)
    ensures Serve(whole, now, req).1 == Serve(rest, now, req).1
  {
    LookupAlike(whole.db, rest.db, req, a);
    AuthoriseAlike(whole, rest, now, req, a, at);
    ServeKeepsValid(whole, now, req);
    StepsAddressed(whole, now, req, a);
    hide Valid, Spaces, Mirrors, SeenAgree, Authorise, Execute, Ages, Fresh, OwnSteps, ForeignSteps, Lookup, Addressed;
    var snap := Lookup(whole.db, req);
    var w, r := Authorise(whole.db, whole.seen, now, req, snap), Authorise(rest.db, rest.seen, now, req, snap);
    match w.1
    case Refuse(_) =>
    case Proceed(ops, last) =>
      assert ops == Granted(VerdictOn(whole, now, req));
      ExecuteAlike(whole.db, rest.db, now, req, snap, ops, last, Done, a);
      SeenAgreeGrows(whole.db, Serve(whole, now, req).0.db, w.0, r.0, a, now);
  }

  /** The sweeper belongs to nobody. */
  lemma ServeSweep(whole: Relay, rest: Relay, now: Nanos, a: Id, at: Nanos)
    requires Valid(whole.db) && Apart(whole, rest, a, at) && at <= now
    ensures Apart(Serve(whole, now, Sweep).0, Serve(rest, now, Sweep).0, a, now)
  {
    hide Serve, OwnPrincipal;
    PurgeAlike(whole.db, rest.db, now, a);
    SweepRuns(whole, now);
    SweepRuns(rest, now);
    SeenAgreeLater(whole.db, whole.seen, rest.seen, a, at, now);
    ServeKeepsValid(whole, now, Sweep);
    SeenAgreeGrows(whole.db, Serve(whole, now, Sweep).0.db, whole.seen, rest.seen, a, now);
  }

  // ---- runs

  /** The run without the requests addressed to the account. */
  function WithoutTenant(evs: seq<Event>, a: Id): seq<Event> {
    if evs == [] then []
    else
      var n := |evs| - 1;
      var rest := WithoutTenant(evs[..n], a);
      if Addressed(State(EmptyRelay, evs[..n]).db, evs[n].req, a) then rest else rest + [evs[n]]
  }

  ghost predicate FreshRun(evs: seq<Event>) {
    forall i :: 0 <= i < |evs| ==> Fresh(State(EmptyRelay, evs[..i]).db, evs[i].req)
  }

  lemma FreshPrefix(evs: seq<Event>, n: nat)
    requires FreshRun(evs) && n <= |evs|
    ensures FreshRun(evs[..n])
  {
    hide Serve, Fresh;
    forall i | 0 <= i < n ensures Fresh(State(EmptyRelay, evs[..n][..i]).db, evs[..n][i].req) {
      assert evs[..n][..i] == evs[..i];
    }
  }

  lemma {:induction false} SpacesHold(evs: seq<Event>)
    requires FreshRun(evs)
    ensures Valid(State(EmptyRelay, evs).db) && Spaces(State(EmptyRelay, evs).db)
  {
    hide Valid, Serve, Fresh, Ages;
    if evs == [] {
      EmptyIsValid();
    } else {
      var n := |evs| - 1;
      FreshPrefix(evs, n);
      SpacesHold(evs[..n]);
      var mid := State(EmptyRelay, evs[..n]);
      ServeKeepsValid(mid, evs[n].now, evs[n].req);
      ServeKeepsSpaces(mid, evs[n].now, evs[n].req);
    }
  }

  lemma EmptyApart(a: Id, at: Nanos)
    ensures Apart(EmptyRelay, EmptyRelay, a, at)
  {
  }

  /** The run without the account ends in the same state outside the account. */
  lemma {:induction false} StatesApart(evs: seq<Event>, a: Id, at: Nanos)
    requires Runs.Monotone(evs) && FreshRun(evs)
    requires evs != [] ==> at >= evs[|evs| - 1].now
    ensures Apart(State(EmptyRelay, evs), State(EmptyRelay, WithoutTenant(evs, a)), a, at)
    decreases |evs|
  {
    hide Valid, Serve, Fresh, Spaces, Apart, Addressed, FreshRun;
    if evs == [] {
      EmptyApart(a, at);
    } else {
      var n := |evs| - 1;
      var init, e := evs[..n], evs[n];
      FreshPrefix(evs, n);
      SpacesHold(init);
      StatesApart(init, a, e.now);
      var whole, rest := State(EmptyRelay, init), State(EmptyRelay, WithoutTenant(init, a));
      FreshAt(evs, n);
      if Addressed(whole.db, e.req, a) {
        ServeOwn(whole, rest, e.now, e.req, a, e.now);
      } else {
        if e.req.Sweep? {
          ServeSweep(whole, rest, e.now, a, e.now);
        } else {
          ServeForeign(whole, rest, e.now, e.req, a, e.now);
        }
        StateSnoc(EmptyRelay, WithoutTenant(init, a), e);
      }
      ApartLater(State(EmptyRelay, evs), State(EmptyRelay, WithoutTenant(evs, a)), a, e.now, at);
    }
  }

  lemma FreshAt(evs: seq<Event>, i: nat)
    requires FreshRun(evs) && i < |evs|
    ensures Fresh(State(EmptyRelay, evs[..i]).db, evs[i].req)
  {
    hide Serve, Fresh;
  }

  lemma ApartLater(whole: Relay, rest: Relay, a: Id, at: Nanos, later: Nanos)
    requires Apart(whole, rest, a, at) && at <= later
    ensures Apart(whole, rest, a, later)
  {
    hide Mirrors, OwnPrincipal;
    SeenAgreeLater(whole.db, whole.seen, rest.seen, a, at, later);
  }

  lemma {:induction false} KeptUpTo(evs: seq<Event>, a: Id, i: nat)
    requires i < |evs| && !Addressed(State(EmptyRelay, evs[..i]).db, evs[i].req, a)
    ensures var k := |WithoutTenant(evs[..i], a)|;
      && k < |WithoutTenant(evs, a)|
      && WithoutTenant(evs, a)[k] == evs[i]
      && WithoutTenant(evs, a)[..k] == WithoutTenant(evs[..i], a)
    decreases |evs|
  {
    hide Serve, Addressed;
    var n := |evs| - 1;
    if i < n {
      assert evs[..n][..i] == evs[..i];
      KeptUpTo(evs[..n], a, i);
    }
  }

  /** Tenant non-interference.  In any run with fresh ids, leave out every request addressed to one
      account: each remaining request of a device, queue, token or operator gets the same answer. */
  lemma TenantNonInterference(evs: seq<Event>, a: Id, i: nat)
    requires Runs.Monotone(evs) && FreshRun(evs) && i < |evs|
    requires !Addressed(State(EmptyRelay, evs[..i]).db, evs[i].req, a) && !evs[i].req.Sweep?
    ensures var k := |WithoutTenant(evs[..i], a)|;
      && k < |WithoutTenant(evs, a)|
      && WithoutTenant(evs, a)[k] == evs[i]
      && AnswerTo(EmptyRelay, WithoutTenant(evs, a), k) == AnswerTo(EmptyRelay, evs, i)
  {
    hide Valid, Serve, Fresh, Spaces, Apart, Addressed, FreshRun;
    KeptUpTo(evs, a, i);
    FreshAt(evs, i);
    FreshPrefix(evs, i);
    SpacesHold(evs[..i]);
    StatesApart(evs[..i], a, evs[i].now);
    ServeForeign(State(EmptyRelay, evs[..i]), State(EmptyRelay, WithoutTenant(evs[..i], a)),
                 evs[i].now, evs[i].req, a, evs[i].now);
  }

  /** The messages that remain are the same rows in the same order, renumbered monotonically. */
  lemma RenumberedInOrder(evs: seq<Event>, a: Id, at: Nanos)
    requires Runs.Monotone(evs) && FreshRun(evs)
    requires evs != [] ==> at >= evs[|evs| - 1].now
    ensures
      var ms := OutMessages(State(EmptyRelay, evs).db, a);
      var ns := State(EmptyRelay, WithoutTenant(evs, a)).db.messages;
      && SameRows(ms, ns)
      && forall i, j :: 0 <= i < j < |ms| ==> ms[i].seqno < ms[j].seqno && ns[i].seqno < ns[j].seqno
  {
    hide Serve, Fresh, SeenAgree, FreshRun, SameRows;
    var whole, rest := State(EmptyRelay, evs).db, State(EmptyRelay, WithoutTenant(evs, a)).db;
    StatesApart(evs, a, at);
    MirrorRows(whole, rest, a);
    EmptyIsValid();
    RunKeepsValid(EmptyRelay, evs);
    RunKeepsValid(EmptyRelay, WithoutTenant(evs, a));
    AscendingRemaining(whole.messages, whole.lastSeq, whole.queues, whole.devices, InAccount(a));
    AscendingOrders(OutMessages(whole, a), whole.lastSeq);
    AscendingOrders(rest.messages, rest.lastSeq);
    SameRowsCount(OutMessages(whole, a), rest.messages);
  }
}
