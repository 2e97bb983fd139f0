/** The answer to every request, and the change it makes, on the rows of any valid database. */
module Rulebook {
  import opened Results
  import opened Tables
  import opened StoreSpec
  import opened RowFacts
  import opened Integrity
  import opened Nonces
  import opened Handlers
  import opened Runs
  import opened Effects
  import opened Transcripts
  import opened Answers
  import opened Admission
  import Expiry
  import Drains = Delivery

  // ---- the owner's calls on a queue

  /** How many rows a deletion takes. */
  function Taken(db: Db, w: Where): (n: nat)
    ensures n == |db.messages| - |Remaining(db.messages, db.queues, db.devices, w)|
  {
    SelectedIff(db.messages, db.queues, db.devices, w);
    |db.messages| - |Remaining(db.messages, db.queues, db.devices, w)|
  }

  function QueueCallAnswer(db: Db, now: Nanos, rid: Id, call: QueueCall): Response {
    match call
    case Recv => Delivered(Drains.Readable(db.messages, rid, Seconds(now)))
    case Ack(None) => BadRequest
    case Ack(Some(ids)) => Deleted(Taken(db, Named(rid, ids)))
    case Retire => Acknowledged
    case SetQuota(bytes) => if bytes < 0 then BadRequest else Acknowledged
  }

  lemma RecvServed(r: Relay, now: Nanos, rid: Id, env: Envelope)
    requires VerdictOn(r, now, Receive(rid, env, Recv)) == QueueVerdict(rid, Recv)
    ensures Served(r, now, Receive(rid, env, Recv), QueueCallAnswer(r.db, now, rid, Recv))
  {
    hide Lookup, Authorise, Execute, SelectQueue, Remaining, Drains.Readable, Deliveries;
    var req := Receive(rid, env, Recv);
    Expiry.DrainRuns(r.db, now, req, Lookup(r.db, req), rid);
    assert Serve(r, now, req).1.Delivered?;
    Drains.DrainAnswer(r, now, rid, env);
  }

  lemma QueueCallNotTold(db: Db, now: Nanos, rid: Id, env: Envelope, call: QueueCall, answer: Response)
    requires answer in {NotFound, Unauthorized, BadRequest}
    ensures Told(db, now, Receive(rid, env, call), answer) == db
  {
  }

  lemma QueueCallEarns(db: Db, now: Nanos, rid: Id, env: Envelope, call: QueueCall)
    requires LiveQueue(db, rid) && !call.Recv?
    ensures Earns(db, now, Receive(rid, env, call), QueueVerdict(rid, call), QueueCallAnswer(db, now, rid, call))
  {
    hide Remaining, Selected, Lookup;
    match call
    case Ack(None) =>
    case Ack(Some(ids)) => SelectedIff(db.messages, db.queues, db.devices, Named(rid, ids));
    case Retire =>
    case SetQuota(bytes) =>
  }

  /** Any request of a queue's owner. */
  lemma QueueCallServed(r: Relay, now: Nanos, rid: Id, env: Envelope, call: QueueCall)
    ensures Served(r, now, Receive(rid, env, call),
      if !LiveQueue(r.db, rid) then NotFound
      else if !Genuine(r.seen, now, env, rid, r.db.queues[rid].recipientKey) then Unauthorized
      else QueueCallAnswer(r.db, now, rid, call))
  {
    hide Genuine, Told, QueueCallAnswer, QueueVerdict, Authorise, Served;
    var req := Receive(rid, env, call);
    QueueCallVerdict(r, now, rid, env, call);
    if !LiveQueue(r.db, rid) {
      QueueCallNotTold(r.db, now, rid, env, call, NotFound);
      EarnedIsServed(r, now, req, NotFound);
    } else if !Genuine(r.seen, now, env, rid, r.db.queues[rid].recipientKey) {
      QueueCallNotTold(r.db, now, rid, env, call, Unauthorized);
      EarnedIsServed(r, now, req, Unauthorized);
    } else if call.Recv? {
      RecvServed(r, now, rid, env);
    } else {
      QueueCallEarns(r.db, now, rid, env, call);
      EarnedIsServed(r, now, req, QueueCallAnswer(r.db, now, rid, call));
    }
  }

  // ---- registration

  /** The token's invitation was minted, and is neither consumed nor revoked nor expired. */
  predicate Good(db: Db, now: Nanos, token: Id) {
    && token in db.invitations && !db.invitations[token].consumed && !db.invitations[token].revoked
    && Seconds(now) < db.invitations[token].expires
  }

  function RegisterAnswer(db: Db, now: Nanos, token: Id, pub: Key, newId: Id): Response {
    if |pub| != 32 then BadRequest
    else if !Good(db, now, token) then Unauthorized
    else if newId in db.devices then Internal
    else Registered(newId, db.invitations[token].account)
  }

  lemma InvitationHasAccount(db: Db, token: Id)
    requires Valid(db) && token in db.invitations
    ensures db.invitations[token].account in db.accounts
  {
    hide Ascending, Indexed;
  }

  lemma FirstIff(db: Db, account: Id)
    ensures FirstDevice(db, account) <==> DevicesOf(db.devices, account) == {}
  {
    if !FirstDevice(db, account) {
      var d :| d in db.devices && db.devices[d].account == account;
      assert d in DevicesOf(db.devices, account);
    }
  }

  lemma RegisterTold(db: Db, now: Nanos, token: Id, pub: Key, push: string, newId: Id)
    requires token in db.invitations && db.invitations[token].account in db.accounts
    ensures
      var inv := db.invitations[token];
      Told(db, now, Register(token, pub, push, newId), Registered(newId, inv.account)) ==
        db.(invitations := db.invitations[token := inv.(consumed := true)],
            devices := db.devices[newId := Device(inv.account, pub, push, false, 0, EnrolledRole(db, inv))])
  {
    hide FirstDevice, DevicesOf;
    FirstIff(db, db.invitations[token].account);
  }

  lemma RegisterNotTold(db: Db, now: Nanos, req: Request, answer: Response)
    requires req.Register? && !answer.Registered? && !answer.Sent?
    ensures Told(db, now, req, answer) == db
  {
  }

  lemma RegisterServed(r: Relay, now: Nanos, token: Id, pub: Key, push: string, newId: Id)
    requires Valid(r.db)
    ensures Served(r, now, Register(token, pub, push, newId), RegisterAnswer(r.db, now, token, pub, newId))
  {
    hide Valid, Told, EnrolledRole;
    var req := Register(token, pub, push, newId);
    var answer := RegisterAnswer(r.db, now, token, pub, newId);
    if |pub| != 32 {
      RefusedOutright(r, now, req);
    } else {
      ServedByOneStep(r, now, req, OnDevices(OpRegister(token, newId, pub, push)));
    }
    if token in r.db.invitations { InvitationHasAccount(r.db, token); }
    if answer.Registered? {
      RegisterTold(r.db, now, token, pub, push, newId);
    } else {
      RegisterNotTold(r.db, now, req, answer);
    }
  }

  // ---- the operator, and the sweep

  function OperatorAnswer(db: Db, act: OperatorAct): Response {
    match act
    case NewAccount(account, _, _, mode, token, _, _) =>
      if mode !in {"", "flat", "managed"} || account in db.accounts || token in db.invitations then Internal
      else Acknowledged
    case CapDevice(d, bytes) =>
      if d !in db.devices then NotFound
      else if bytes < 0 then BadRequest
      else if db.devices[d].revoked then Internal
      else Acknowledged
    case Promote(d) =>
      if d !in db.devices then NotFound
      else if db.devices[d].revoked || FlatAccount(db, db.devices[d].account) then Internal
      else Acknowledged
  }

  lemma AccountCreated(db: Db, now: Nanos, act: OperatorAct)
    requires act.NewAccount?
    ensures
      var accounts := AccountsAfter(db, Operate(act));
      match CreateAccount(db, act.account, act.quotaClass, act.bytes, act.mode)
      case Ok(next) =>
        next == db.(accounts := accounts) && OperatorAnswer(db, act).Internal? == (act.token in db.invitations)
      case Err(_) => accounts == db.accounts && OperatorAnswer(db, act) == Internal
  {
  }

  lemma NewAccountTold(db: Db, now: Nanos, act: OperatorAct, answer: Response)
    requires act.NewAccount? && answer in {Internal, Acknowledged}
    ensures
      var founder := Invitation(act.invitation, act.account, Seconds(now + act.ttl), false, false, Admin);
      Told(db, now, Operate(act), answer) == db.(
        accounts := AccountsAfter(db, Operate(act)),
        invitations := if Acked(answer) then db.invitations[act.token := founder] else db.invitations)
  {
    hide AccountsAfter;
  }

  lemma NewAccountServed(r: Relay, now: Nanos, act: OperatorAct)
    requires act.NewAccount?
    ensures Served(r, now, Operate(act), OperatorAnswer(r.db, act))
  {
    hide Execute, CreateAccount, Told, AccountsAfter;
    var db, req := r.db, Operate(act);
    var create := OnAccounts(OpCreateAccount(act.account, act.quotaClass, act.bytes, act.mode));
    var mint := OnAccounts(OpCreateInvitation(act.account, act.token, act.invitation, act.ttl, "admin"));
    assert [create, mint] == [create] + [mint];
    FirstStep(db, now, req, NoRow, create, [mint], None);
    AccountCreated(db, now, act);
    NewAccountTold(db, now, act, OperatorAnswer(db, act));
    var mid := Apply(db, now, create);
    if Stop(create, mid.1).None? {
      AccountAdded(db, act);
      OneStep(mid.0, now, req, NoRow, mint, mid.1);
    }
  }

  lemma AccountAdded(db: Db, act: OperatorAct)
    requires act.NewAccount? && CreateAccount(db, act.account, act.quotaClass, act.bytes, act.mode).Ok?
    ensures act.account in AccountsAfter(db, Operate(act))
  {
  }

  lemma OperatorServed(r: Relay, now: Nanos, act: OperatorAct)
    requires Valid(r.db)
    ensures Served(r, now, Operate(act), OperatorAnswer(r.db, act))
  {
    match act
    case NewAccount(_, _, _, _, _, _, _) => NewAccountServed(r, now, act);
    case CapDevice(d, bytes) => CapServed(r, now, d, bytes);
    case Promote(d) => PromoteServed(r, now, d);
  }

  lemma DeviceActTold(db: Db, now: Nanos, act: OperatorAct, answer: Response)
    requires !act.NewAccount? && !answer.Sent?
    ensures Told(db, now, Operate(act), answer) == db.(devices := DevicesAfter(db, Operate(act), answer))
  {
  }

  lemma CapServed(r: Relay, now: Nanos, d: Id, bytes: int)
    ensures Served(r, now, Operate(CapDevice(d, bytes)), OperatorAnswer(r.db, CapDevice(d, bytes)))
  {
    hide Told, Serve;
    var act := CapDevice(d, bytes);
    var req := Operate(act);
    DeviceActTold(r.db, now, act, OperatorAnswer(r.db, act));
    if d !in r.db.devices || bytes < 0 {
      RefusedOutright(r, now, req);
    } else {
      ServedByOneStep(r, now, req, OnDevices(OpSetDeviceQuota(d, bytes)));
    }
  }

  lemma PromoteServed(r: Relay, now: Nanos, d: Id)
    requires Valid(r.db)
    ensures Served(r, now, Operate(Promote(d)), OperatorAnswer(r.db, Promote(d)))
  {
    hide Valid, Told, Serve;
    var act := Promote(d);
    var req := Operate(act);
    DeviceActTold(r.db, now, act, OperatorAnswer(r.db, act));
    if d !in r.db.devices {
      RefusedOutright(r, now, req);
    } else {
      DeviceHasAccount(r.db, d);
      ServedByOneStep(r, now, req, OnDevices(OpPromote(d)));
    }
  }

  lemma SweepServed(r: Relay, now: Nanos)
    ensures Served(r, now, Sweep, Deleted(Taken(r.db, Expired(Seconds(now)))))
  {
    hide Serve, Remaining, Selected;
    ServedByOneStep(r, now, Sweep, OnMessages(OpPurge));
    SelectedIff(r.db.messages, r.db.queues, r.db.devices, Expired(Seconds(now)));
  }

  // ---- any request

  ghost function AnswerOf(r: Relay, now: Nanos, req: Request): Response
    requires Valid(r.db)
  {
    match req
    case Operate(act) => OperatorAnswer(r.db, act)
    case Sweep => Deleted(Taken(r.db, Expired(Seconds(now))))
    case Register(token, pub, _, newId) => RegisterAnswer(r.db, now, token, pub, newId)
    case Manage(id, env, call) => if Known(r, now, id, env) then CallAnswer(r.db, now, id, call) else Unauthorized
    case Send(sender, env, header, body, newId) =>
      SenderResolves(r.db, sender);
      SendAnswer(r, now, sender, env, header, body, newId)
    case Receive(rid, env, call) =>
      if !LiveQueue(r.db, rid) then NotFound
      else if !Genuine(r.seen, now, env, rid, r.db.queues[rid].recipientKey) then Unauthorized
      else QueueCallAnswer(r.db, now, rid, call)
  }

  lemma SenderResolves(db: Db, sender: Id)
    requires Valid(db)
    ensures sender in db.senders ==> Resolves(db, db.senders[sender])
  {
    hide Ascending;
  }

  /** Every request is answered by the book, and the database changed as the answer tells. */
  lemma ServedByTheBook(r: Relay, now: Nanos, req: Request)
    requires Valid(r.db)
    ensures Served(r, now, req, AnswerOf(r, now, req))
  {
    hide Valid, Served, Genuine;
    match req
    case Operate(act) => OperatorServed(r, now, act);
    case Sweep => SweepServed(r, now);
    case Register(token, pub, push, newId) => RegisterServed(r, now, token, pub, push, newId);
    case Manage(id, env, call) => CallServed(r, now, id, env, call);
    case Send(sender, env, header, body, newId) => SendServed(r, now, sender, env, header, body, newId);
    case Receive(rid, env, call) => QueueCallServed(r, now, rid, env, call);
  }

  // ---- runs

  /** The last request of a run is answered by the book, and the run's database is what it tells. */
  lemma RunTold(evs: seq<Event>)
    requires evs != []
    ensures
      var n := |evs| - 1;
      var before, e, answer := State(EmptyRelay, evs[..n]), evs[n], AnswerTo(EmptyRelay, evs, n);
      && Valid(before.db) && answer == AnswerOf(before, e.now, e.req)
      && State(EmptyRelay, evs).db == Told(before.db, e.now, e.req, answer)
  {
    hide Valid, Ages, AnswerOf, Told, Serve;
    var n := |evs| - 1;
    EmptyIsValid();
    RunKeepsValid(EmptyRelay, evs[..n]);
    ServedByTheBook(State(EmptyRelay, evs[..n]), evs[n].now, evs[n].req);
  }

  /** So a genuine drain of a live queue is always answered, with what the run owes it. */
  lemma DrainDelivers(evs: seq<Event>, k: nat, q: Id, env: Envelope)
    requires Runs.Monotone(evs) && k < |evs| && evs[k].req == Receive(q, env, Recv)
    requires
      var r := State(EmptyRelay, evs[..k]);
      LiveQueue(r.db, q) && Genuine(r.seen, evs[k].now, env, q, r.db.queues[q].recipientKey)
    ensures AnswerTo(EmptyRelay, evs, k) == Delivered(Drains.Owed(evs[..k], k, q, Seconds(evs[k].now)))
  {
    hide Genuine, Serve, Told, Drains.Owed, Drains.Readable;
    QueueCallServed(State(EmptyRelay, evs[..k]), evs[k].now, q, env, Recv);
    Drains.FifoDelivery(evs, k, q, env);
  }
}
