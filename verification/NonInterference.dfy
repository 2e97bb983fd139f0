/**
  Tenants, one request at a time: which account a request is addressed to, that the steps it earns
  stay there, and that ids of different accounts never meet in the tables or the replay cache.
  */
module NonInterference {
  import opened Results
  import opened Tables
  import opened StoreSpec
  import opened RowFacts
  import opened Integrity
  import opened Nonces
  import opened Handlers
  import opened Runs
  import opened Expiry
  import opened Tenancy
  import opened Neighbours
  import opened Effects

  /** The request works on the account: through a device, queue, token or operator act of its. */
  predicate Addressed(db: Db, req: Request, a: Id) {
    match req
    case Operate(act) =>
      (match act
       case NewAccount(account, _, _, _, _, _, _) => account == a
       case CapDevice(d, _) => DeviceIn(db.devices, d, a)
       case Promote(d) => DeviceIn(db.devices, d, a))
    case Sweep => false
    case Register(token, _, _, _) => token in db.invitations && db.invitations[token].account == a
    case Manage(id, _, _) => DeviceIn(db.devices, id, a)
    case Send(s, _, _, _, _) => s in db.senders && QueueIn(db.queues, db.devices, db.senders[s], a)
    case Receive(q, _, _) => QueueIn(db.queues, db.devices, q, a)
  }

  predicate Plain(id: Id) {
    '\0' !in id
  }

  /** Device, recipient and sender ids are drawn from separate spaces, without NUL. */
  ghost predicate Spaces(db: Db) {
    && (forall d :: d in db.devices ==> Plain(d) && d !in db.queues && d !in db.senders)
    && (forall q :: q in db.queues ==> Plain(q) && q !in db.senders)
    && (forall s :: s in db.senders ==> Plain(s))
  }

  predicate Unused(db: Db, id: Id) {
    Plain(id) && id !in db.devices && id !in db.queues && id !in db.senders
  }

  /** The random ids a request brings are new. */
  predicate Fresh(db: Db, req: Request) {
    match req
    case Operate(NewAccount(_, _, _, _, token, _, _)) => token !in db.invitations
    case Register(_, _, _, newId) => Unused(db, newId)
    case Manage(_, _, AskInvite(_, token, _)) => token !in db.invitations
    case Manage(_, _, AskCreateQueue(_, rid, sid)) => Unused(db, rid) && Unused(db, sid) && rid != sid
    case Send(_, _, _, _, newId) => !IdTaken(db.messages, newId)
    case _ => true
  }

  // ---- nonces by principal

  function PrincipalOf(key: string): string {
    if key == [] || key[0] == '\0' then [] else [key[0]] + PrincipalOf(key[1..])
  }

  lemma {:induction false} PrincipalOfKey(p: Id, nonce: string)
    requires Plain(p)
    ensures PrincipalOf(NonceKey(p, nonce)) == p
  {
    if p == [] {
      assert NonceKey(p, nonce)[0] == '\0';
    } else {
      assert NonceKey(p, nonce)[1..] == NonceKey(p[1..], nonce);
      assert forall c :: c in p[1..] ==> c in p;
      PrincipalOfKey(p[1..], nonce);
    }
  }

  predicate OwnPrincipal(db: Db, p: Id, a: Id) {
    || DeviceIn(db.devices, p, a)
    || QueueIn(db.queues, db.devices, p, a)
    || (p in db.senders && QueueIn(db.queues, db.devices, db.senders[p], a))
  }

  /** The part of the cache that can still refuse a nonce. */
  function LiveNonce(seen: Seen, key: string, at: Nanos): Option<Nanos> {
    if key in seen && seen[key] > at then Some(seen[key]) else None
  }

  /** The caches agree on the live nonces of every principal outside the account. */
  ghost predicate SeenAgree(db: Db, s: Seen, t: Seen, a: Id, at: Nanos) {
    forall key :: !OwnPrincipal(db, PrincipalOf(key), a) ==> LiveNonce(s, key, at) == LiveNonce(t, key, at)
  }

  lemma AdmitLive(seen: Seen, now: Nanos, key: string, expiry: Nanos, other: string, at: Nanos)
    requires at >= now
    ensures Admit(seen, now, key, expiry).1 == LiveNonce(seen, key, now).None?
    ensures var next := Admit(seen, now, key, expiry).0;
      LiveNonce(next, other, at) ==
        if other == key && LiveNonce(seen, key, now).None?
        then (if expiry > at then Some(expiry) else None)
        else LiveNonce(seen, other, at)
  {
  }

  /** Whatever the account's principals do to the cache, the others' nonces stay. */
  lemma OwnAuthentication(db: Db, s: Seen, t: Seen, a: Id, at: Nanos, now: Nanos, env: Envelope, p: Id, key: Key)
    requires SeenAgree(db, s, t, a, at) && at <= now && Plain(p) && OwnPrincipal(db, p, a)
    ensures SeenAgree(db, Authenticate(s, now, env, p, key).0, t, a, now)
  {
    hide OwnPrincipal;
    PrincipalOfKey(p, env.nonce);
    var next := Authenticate(s, now, env, p, key).0;
    forall k | !OwnPrincipal(db, PrincipalOf(k), a) ensures LiveNonce(next, k, now) == LiveNonce(t, k, now) {
      assert LiveNonce(s, k, at) == LiveNonce(t, k, at);
      if next != s {
        AdmitLive(s, now, NonceKey(p, env.nonce), env.stamp.value + SKEW, k, now);
      }
    }
  }

  /** Another principal is authenticated alike against both caches. */
  lemma OtherAuthentication(db: Db, s: Seen, t: Seen, a: Id, at: Nanos, now: Nanos, env: Envelope, p: Id, key: Key)
    requires SeenAgree(db, s, t, a, at) && at <= now && Plain(p) && !OwnPrincipal(db, p, a)
    ensures Authenticate(s, now, env, p, key).1 == Authenticate(t, now, env, p, key).1
    ensures SeenAgree(db, Authenticate(s, now, env, p, key).0, Authenticate(t, now, env, p, key).0, a, now)
  {
    hide OwnPrincipal;
    PrincipalOfKey(p, env.nonce);
    var mine := NonceKey(p, env.nonce);
    assert LiveNonce(s, mine, at) == LiveNonce(t, mine, at);
    SeenAgreeLater(db, s, t, a, at, now);
    if env.stamp.Some? && InWindow(env.checkedAt, env.stamp.value) && key in env.signers {
      var s', t' := Admit(s, now, mine, env.stamp.value + SKEW), Admit(t, now, mine, env.stamp.value + SKEW);
      forall k | !OwnPrincipal(db, PrincipalOf(k), a) ensures LiveNonce(s'.0, k, now) == LiveNonce(t'.0, k, now) {
        AdmitLive(s, now, mine, env.stamp.value + SKEW, k, now);
        AdmitLive(t, now, mine, env.stamp.value + SKEW, k, now);
        assert LiveNonce(s, k, now) == LiveNonce(t, k, now);
      }
      AdmitLive(s, now, mine, env.stamp.value + SKEW, mine, now);
      AdmitLive(t, now, mine, env.stamp.value + SKEW, mine, now);
    }
  }

  lemma SeenAgreeLater(db: Db, s: Seen, t: Seen, a: Id, at: Nanos, later: Nanos)
    requires SeenAgree(db, s, t, a, at) && at <= later
    ensures SeenAgree(db, s, t, a, later)
  {
    hide OwnPrincipal;
    forall k | !OwnPrincipal(db, PrincipalOf(k), a) ensures LiveNonce(s, k, later) == LiveNonce(t, k, later) {
      assert LiveNonce(s, k, at) == LiveNonce(t, k, at);
    }
  }

  /** Principals never leave an account. */
  lemma SeenAgreeGrows(db: Db, next: Db, s: Seen, t: Seen, a: Id, at: Nanos)
    requires Valid(db) && Ages(db, next) && SeenAgree(db, s, t, a, at)
    ensures SeenAgree(next, s, t, a, at)
  {
    hide LiveNonce, OwnPrincipal, Valid, Ages;
    forall k | !OwnPrincipal(next, PrincipalOf(k), a) ensures LiveNonce(s, k, at) == LiveNonce(t, k, at) {
      if OwnPrincipal(db, PrincipalOf(k), a) { PrincipalStays(db, next, PrincipalOf(k), a); }
    }
  }

  lemma PrincipalStays(db: Db, next: Db, p: Id, a: Id)
    requires Valid(db) && Ages(db, next) && OwnPrincipal(db, p, a)
    ensures OwnPrincipal(next, p, a)
  {
    hide Ascending;
    MembershipStable(db, next, a);
    assert DevicesAge(db.devices, next.devices);
    assert QueuesAge(db.queues, next.queues) && SendersAge(db.senders, next.senders);
  }

  // ---- the steps of a request, one after the other

  ghost predicate OwnSteps(db: Db, now: Nanos, ops: seq<Op>, a: Id)
    decreases |ops|
  {
    ops != [] ==> BelongsTo(db, ops[0], a) && OwnSteps(After(db, now, ops[0]), now, ops[1..], a)
  }

  ghost predicate ForeignSteps(db: Db, now: Nanos, ops: seq<Op>, a: Id)
    decreases |ops|
  {
    ops != [] ==>
      && !BelongsTo(db, ops[0], a) && FreshIds(db, ops[0]) && ops[0] != OnMessages(OpPurge)
      && ForeignSteps(After(db, now, ops[0]), now, ops[1..], a)
  }

  lemma {:induction false} ExecuteOwn(
      whole: Db, rest: Db, now: Nanos, req: Request, snap: Snapshot, ops: seq<Op>, last: Option<Response>,
      reply: Reply, a: Id)
    requires Valid(whole) && Mirrors(whole, rest, a) && OwnSteps(whole, now, ops, a)
    ensures Mirrors(Execute(whole, now, req, snap, ops, last, reply).0, rest, a)
    decreases |ops|
  {
    hide Valid, Mirrors, Apply, BelongsTo, Finish;
    if ops != [] {
      var r := Apply(whole, now, ops[0]);
      StepKeepsValid(whole, now, ops[0]);
      OwnStep(whole, rest, now, ops[0], a);
      if Stop(ops[0], r.1).None? { ExecuteOwn(r.0, rest, now, req, snap, ops[1..], last, r.1, a); }
    }
  }

  lemma {:induction false} ExecuteAlike(
      whole: Db, rest: Db, now: Nanos, req: Request, snap: Snapshot, ops: seq<Op>, last: Option<Response>,
      reply: Reply, a: Id)
    requires Valid(whole) && Mirrors(whole, rest, a) && ForeignSteps(whole, now, ops, a)
    ensures
      var w, r := Execute(whole, now, req, snap, ops, last, reply), Execute(rest, now, req, snap, ops, last, reply);
      Mirrors(w.0, r.0, a) && w.1 == r.1
    decreases |ops|
  {
    hide Valid, Mirrors, Apply, BelongsTo, FreshIds, Finish, Stop;
    if ops != [] {
      var w, r := Apply(whole, now, ops[0]), Apply(rest, now, ops[0]);
      StepKeepsValid(whole, now, ops[0]);
      NeighbourStep(whole, rest, now, ops[0], a);
      if Stop(ops[0], w.1).None? { ExecuteAlike(w.0, r.0, now, req, snap, ops[1..], last, w.1, a); }
    }
  }

  lemma OneOwn(db: Db, now: Nanos, op: Op, a: Id)
    requires BelongsTo(db, op, a)
    ensures OwnSteps(db, now, [op], a)
  {
    hide Apply;
    assert [op][1..] == [];
  }

  lemma TwoOwn(db: Db, now: Nanos, op: Op, next: Op, a: Id)
    requires BelongsTo(db, op, a) && BelongsTo(After(db, now, op), next, a)
    ensures OwnSteps(db, now, [op, next], a)
  {
    hide Apply, BelongsTo;
    assert [op, next][1..] == [next];
    OneOwn(After(db, now, op), now, next, a);
  }

  lemma OneForeign(db: Db, now: Nanos, op: Op, a: Id)
    requires !BelongsTo(db, op, a) && FreshIds(db, op) && op != OnMessages(OpPurge)
    ensures ForeignSteps(db, now, [op], a)
  {
    hide Apply;
    assert [op][1..] == [];
  }

  lemma TwoForeign(db: Db, now: Nanos, op: Op, next: Op, a: Id)
    requires !BelongsTo(db, op, a) && FreshIds(db, op) && op != OnMessages(OpPurge)
    requires !BelongsTo(After(db, now, op), next, a)
    requires FreshIds(After(db, now, op), next) && next != OnMessages(OpPurge)
    ensures ForeignSteps(db, now, [op, next], a)
  {
    hide Apply, BelongsTo, FreshIds;
    assert [op, next][1..] == [next];
    OneForeign(After(db, now, op), now, next, a);
  }

  /** Binding a key or purging a queue moves no queue between accounts, and takes no id. */
  lemma AfterFirstStep(db: Db, now: Nanos, op: Op, rid: Id, id: Id, a: Id)
    requires Valid(db) && ((op.OnQueues? && op.queue.OpBind?) || (op.OnMessages? && op.message.OpPurgeQueue?))
    ensures QueueIn(After(db, now, op).queues, After(db, now, op).devices, rid, a) ==
      QueueIn(db.queues, db.devices, rid, a)
    ensures op.OnQueues? ==> After(db, now, op).messages == db.messages
  {
    hide Ascending;
    match op
    case OnQueues(o) =>
      if Bindable(db, o.sid) {}
    case OnMessages(o) =>
  }

  lemma SendStepsOwn(db: Db, now: Nanos, sender: Id, rid: Id, key: Key, binding: bool, body: Option<SendBody>,
      newId: Id, a: Id)
    requires Valid(db) && sender in db.senders && db.senders[sender] == rid && QueueIn(db.queues, db.devices, rid, a)
    ensures OwnSteps(db, now, Granted(SendOps(sender, rid, key, binding, body, newId)), a)
  {
    hide Valid, Apply;
    var ops := Granted(SendOps(sender, rid, key, binding, body, newId));
    if |ops| == 1 {
      assert ops == [ops[0]];
      OneOwn(db, now, ops[0], a);
    } else if |ops| == 2 {
      assert ops == [ops[0], ops[1]];
      AfterFirstStep(db, now, ops[0], rid, newId, a);
      TwoOwn(db, now, ops[0], ops[1], a);
    }
  }

  lemma SendStepsForeign(db: Db, now: Nanos, sender: Id, rid: Id, key: Key, binding: bool, body: Option<SendBody>,
      newId: Id, a: Id)
    requires Valid(db) && sender in db.senders && db.senders[sender] == rid && !QueueIn(db.queues, db.devices, rid, a)
    requires !IdTaken(db.messages, newId)
    ensures ForeignSteps(db, now, Granted(SendOps(sender, rid, key, binding, body, newId)), a)
  {
    hide Valid, Apply;
    var ops := Granted(SendOps(sender, rid, key, binding, body, newId));
    if |ops| == 1 {
      assert ops == [ops[0]];
      OneForeign(db, now, ops[0], a);
    } else if |ops| == 2 {
      assert ops == [ops[0], ops[1]];
      AfterFirstStep(db, now, ops[0], rid, newId, a);
      TwoForeign(db, now, ops[0], ops[1], a);
    }
  }

  lemma ReceiveSteps(db: Db, now: Nanos, q: Id, call: QueueCall, a: Id)
    requires Valid(db)
    ensures QueueIn(db.queues, db.devices, q, a) ==> OwnSteps(db, now, Granted(QueueVerdict(q, call)), a)
    ensures !QueueIn(db.queues, db.devices, q, a) ==> ForeignSteps(db, now, Granted(QueueVerdict(q, call)), a)
  {
    hide Valid, Apply, QueueIn;
    var ops := Granted(QueueVerdict(q, call));
    if |ops| == 1 {
      assert ops == [ops[0]];
      if QueueIn(db.queues, db.devices, q, a) { OneOwn(db, now, ops[0], a); } else { OneForeign(db, now, ops[0], a); }
    } else if |ops| == 2 {
      assert ops == [ops[0], ops[1]];
      AfterFirstStep(db, now, ops[0], q, q, a);
      if QueueIn(db.queues, db.devices, q, a) {
        TwoOwn(db, now, ops[0], ops[1], a);
      } else {
        TwoForeign(db, now, ops[0], ops[1], a);
      }
    }
  }

  lemma ManageSteps(db: Db, now: Nanos, id: Id, env: Envelope, call: Call, a: Id)
    requires id in db.devices && Fresh(db, Manage(id, env, call))
    ensures var ops := Granted(DeviceVerdict(db, id, db.devices[id], call));
      && (DeviceIn(db.devices, id, a) ==> OwnSteps(db, now, ops, a))
      && (!DeviceIn(db.devices, id, a) ==> ForeignSteps(db, now, ops, a))
  {
    hide Apply;
    var ops := Granted(DeviceVerdict(db, id, db.devices[id], call));
    if ops != [] {
      assert |ops| == 1 && ops == [ops[0]];
      if DeviceIn(db.devices, id, a) { OneOwn(db, now, ops[0], a); } else { OneForeign(db, now, ops[0], a); }
    }
  }

  lemma NewAccountSteps(db: Db, now: Nanos, act: OperatorAct, a: Id)
    requires act.NewAccount? && act.token !in db.invitations
    ensures var ops := Granted(OperatorVerdict(db, act));
      && (act.account == a ==> OwnSteps(db, now, ops, a))
      && (act.account != a ==> ForeignSteps(db, now, ops, a))
  {
    hide Apply, CreateAccount;
    var ops := Granted(OperatorVerdict(db, act));
    assert ops == [ops[0], ops[1]];
    assert After(db, now, ops[0]).invitations == db.invitations by {
      AccountCreationFrame(db, now, ops[0].account);
    }
    if act.account == a { TwoOwn(db, now, ops[0], ops[1], a); } else { TwoForeign(db, now, ops[0], ops[1], a); }
  }

  lemma AccountCreationFrame(db: Db, now: Nanos, op: AccountOp)
    requires op.OpCreateAccount?
    ensures After(db, now, OnAccounts(op)).invitations == db.invitations
  {
    if CreateAccount(db, op.account, op.quotaClass, op.bytes, op.mode).Ok? {}
  }

  lemma OperatorSteps(db: Db, now: Nanos, act: OperatorAct, a: Id)
    requires Fresh(db, Operate(act))
    ensures var ops := Granted(OperatorVerdict(db, act));
      && (Addressed(db, Operate(act), a) ==> OwnSteps(db, now, ops, a))
      && (!Addressed(db, Operate(act), a) ==> ForeignSteps(db, now, ops, a))
  {
    hide Apply;
    var ops := Granted(OperatorVerdict(db, act));
    if act.NewAccount? {
      NewAccountSteps(db, now, act, a);
    } else if ops != [] {
      assert |ops| == 1 && ops == [ops[0]];
      if Addressed(db, Operate(act), a) { OneOwn(db, now, ops[0], a); } else { OneForeign(db, now, ops[0], a); }
    }
  }

  lemma RegisterSteps(db: Db, now: Nanos, token: Id, pub: Key, push: string, newId: Id, a: Id)
    requires Fresh(db, Register(token, pub, push, newId))
    ensures var op := OnDevices(OpRegister(token, newId, pub, push));
      && (Addressed(db, Register(token, pub, push, newId), a) ==> OwnSteps(db, now, [op], a))
      && (!Addressed(db, Register(token, pub, push, newId), a) ==> ForeignSteps(db, now, [op], a))
  {
    hide Apply;
    var op := OnDevices(OpRegister(token, newId, pub, push));
    if Addressed(db, Register(token, pub, push, newId), a) {
      OneOwn(db, now, op, a);
    } else {
      OneForeign(db, now, op, a);
    }
  }

  /** An atomically served request takes only steps on its own account's rows. */
  lemma StepsAddressed(r: Relay, now: Nanos, req: Request, a: Id)
    requires Valid(r.db) && Fresh(r.db, req) && !req.Sweep?
    ensures var ops := Granted(VerdictOn(r, now, req));
      && (Addressed(r.db, req, a) ==> OwnSteps(r.db, now, ops, a))
      && (!Addressed(r.db, req, a) ==> ForeignSteps(r.db, now, ops, a))
  {
    hide Valid, Authenticate, DeviceVerdict, QueueVerdict, SendOps, OperatorVerdict, ResolveSenderKey, Apply,
         BelongsTo, QueueIn, DeviceIn;
    var ops := Granted(VerdictOn(r, now, req));
    if ops != [] {
      match req {
        case Operate(act) => OperatorSteps(r.db, now, act, a);
        case Register(token, pub, push, newId) => RegisterSteps(r.db, now, token, pub, push, newId, a);
        case Manage(id, env, call) => ManageSteps(r.db, now, id, env, call, a);
        case Send(sender, env, header, body, newId) =>
          var rid := r.db.senders[sender];
          var resolved := ResolveSenderKey(r.db.queues[rid], header).value;
          if QueueIn(r.db.queues, r.db.devices, rid, a) {
            SendStepsOwn(r.db, now, sender, rid, resolved.0, resolved.1, body, newId, a);
          } else {
            SendStepsForeign(r.db, now, sender, rid, resolved.0, resolved.1, body, newId, a);
          }
        case Receive(q, env, call) => ReceiveSteps(r.db, now, q, call, a);
      }
    }
  }
}
