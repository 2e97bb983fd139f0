/**
  The server: the handlers of the core routes, as they run, over the store and the replay cache.
  Each is proved to do and answer what Serve says of its request.
  */
module Service {
  import opened Results
  import opened Tables
  import opened StoreSpec
  import opened Nonces
  import opened Ttl
  import opened Handlers
  import opened Runs
  import opened Persistence
  import Expiry

  /** Lookup and authorisation on one state. */
  function CheckOn(r: Relay, now: Nanos, req: Request): (Seen, Verdict) {
    Authorise(r.db, r.seen, now, req, Lookup(r.db, req))
  }

  lemma ServeRefused(r: Relay, now: Nanos, req: Request, seen: Seen, answer: Response)
    requires CheckOn(r, now, req) == (seen, Refuse(answer))
    ensures Serve(r, now, req) == (Relay(r.db, seen), answer)
  {
    hide Lookup, Authorise;
  }

  lemma ServeOne(r: Relay, now: Nanos, req: Request, seen: Seen, op: Op)
    requires CheckOn(r, now, req) == (seen, Perform(op))
    ensures Serve(r, now, req) ==
      var a := Apply(r.db, now, op);
      (Relay(a.0, seen), if Stop(op, a.1).Some? then Stop(op, a.1).value else Success(req, Lookup(r.db, req), a.1))
  {
    hide Lookup, Authorise, Execute, Apply, Stop, Success;
    OneStep(r.db, now, req, Lookup(r.db, req), op);
  }

  function CallerVerdict(db: Db, id: Id, caller: Option<Device>, call: Call): Verdict {
    if caller.None? then Refuse(Unauthorized) else DeviceVerdict(db, id, caller.value, call)
  }

  /** From the caller that RequireSignature found: the verdict's refusal, or the one step it grants. */
  lemma ServeCaller(r: Relay, now: Nanos, req: Request, caller: Option<Device>, seen: Seen)
    requires req.Manage?
    requires CheckOn(r, now, req) == (seen, CallerVerdict(r.db, req.device, caller, req.call))
    ensures match CallerVerdict(r.db, req.device, caller, req.call)
      case Refuse(answer) => Serve(r, now, req) == (Relay(r.db, seen), answer)
      case Proceed(ops, _) =>
        && |ops| == 1
        && var a := Apply(r.db, now, ops[0]);
           Serve(r, now, req) ==
             (Relay(a.0, seen),
              if Stop(ops[0], a.1).Some? then Stop(ops[0], a.1).value else Success(req, Lookup(r.db, req), a.1))
  {
    hide CheckOn, Serve, Apply, Lookup, Stop, Success;
    match CallerVerdict(r.db, req.device, caller, req.call)
    case Refuse(answer) => ServeRefused(r, now, req, seen, answer);
    case Proceed(ops, _) => ServeOne(r, now, req, seen, ops[0]);
  }

  lemma StatementReply(db: Db, now: Nanos, account: Id, blob: Bytes)
    ensures Apply(db, now, OnAccounts(OpAppendStatement(account, blob))) ==
      match StoreSpec.AppendStatement(db, account, blob)
      case Ok(next) => (next, Logged(MaxSeqno(Log(db, account)) + 1))
      case Err(e) => (db, Failed(e))
  {
    hide StoreSpec.AppendStatement, MaxSeqno, Log;
  }

  class Server {
    const store: Store
    const nonces: NonceCache

    ghost function State(): Relay
      reads store, nonces
    {
      Relay(store.Contents(), nonces.seen)
    }

    constructor ()
      ensures fresh(store) && fresh(nonces)
      ensures State() == EmptyRelay
    {
      store := new Store();
      nonces := new NonceCache();
    }

    // ---- authentication

    /** The signed timestamp is present and within the window. */
    method ExtractSignature(env: Envelope) returns (ok: bool)
      ensures ok == (env.stamp.Some? && InWindow(env.checkedAt, env.stamp.value))
    {
      if env.stamp.None? { return false; }
      var skew := env.checkedAt - env.stamp.value;
      return !(skew > SKEW || skew < -SKEW);
    }

    /** Signature first, so that a forged request never reaches the cache. */
    method VerifyAndRecord(now: Nanos, env: Envelope, principal: Id, key: Key) returns (ok: bool)
      requires env.stamp.Some? && InWindow(env.checkedAt, env.stamp.value)
      modifies nonces
      ensures (nonces.seen, ok) == Authenticate(old(nonces.seen), now, env, principal, key)
    {
      if key !in env.signers { return false; }
      ok := nonces.CheckAndAdd(now, NonceKey(principal, env.nonce), env.stamp.value + SKEW);
    }

    /** Management plane: the caller's row, if the request is its own. */
    method RequireSignature(now: Nanos, id: Id, env: Envelope) returns (caller: Option<Device>)
      modifies nonces
      ensures caller.Some? ==> id in store.devices && store.devices[id] == caller.value
      ensures forall call :: CheckOn(old(State()), now, Manage(id, env, call))
                          == (nonces.seen, CallerVerdict(old(State()).db, id, caller, call))
    {
      hide DeviceVerdict;
      var ok := ExtractSignature(env);
      if !ok { return None; }
      if id !in store.devices || store.devices[id].revoked { return None; }
      var dev := store.devices[id];
      ok := VerifyAndRecord(now, env, id, dev.publicKey);
      return if ok then Some(dev) else None;
    }

    /** Transport plane: the queue's owner, or the answer that refuses it. */
    method AuthorizeRecipient(now: Nanos, rid: Id, env: Envelope) returns (refusal: Option<Response>)
      modifies nonces
      ensures forall call :: CheckOn(old(State()), now, Receive(rid, env, call))
                          == (nonces.seen, if refusal.Some? then Refuse(refusal.value) else QueueVerdict(rid, call))
    {
      hide QueueVerdict;
      if rid !in store.queues || store.queues[rid].retired { return Some(NotFound); }
      var q := store.queues[rid];
      var ok := ExtractSignature(env);
      if !ok { return Some(Unauthorized); }
      ok := VerifyAndRecord(now, env, rid, q.recipientKey);
      return if ok then None else Some(Unauthorized);
    }

    // ---- transport plane

    method HandleSend(now: Nanos, sender: Id, env: Envelope, header: Option<Key>, body: Option<SendBody>, newId: Id)
      returns (answer: Response)
      modifies store, nonces
      ensures (State(), answer) == Serve(old(State()), now, Send(sender, env, header, body, newId))
    {
      ghost var start := State();
      ghost var req := Send(sender, env, header, body, newId);
      hide Execute;
      if sender !in store.senders || store.senders[sender] !in store.queues { return NotFound; }
      var rid := store.senders[sender];
      var q := store.queues[rid];
      if q.retired { return NotFound; }
      var ok := ExtractSignature(env);
      if !ok { return Unauthorized; }
      var resolved := ResolveSenderKey(q, header);
      if resolved.None? { return Unauthorized; }
      var key, binding := resolved.value.0, resolved.value.1;
      ok := VerifyAndRecord(now, env, sender, key);
      if !ok { return Unauthorized; }
      ghost var seen := nonces.seen;
      ghost var v := SendOps(sender, rid, key, binding, body, newId);
      assert Lookup(start.db, req) == QueueRow(rid, q);
      assert Authorise(start.db, start.seen, now, req, QueueRow(rid, q)) == (seen, v);
      assert store.Contents() == start.db;
      answer := BindAndStore(now, sender, rid, q, key, binding, env, header, body, newId);
    }

    /** The store steps of an authenticated send: bind the key if it is the first, then append. */
    method BindAndStore(now: Nanos, sender: Id, rid: Id, q: Queue, key: Key, binding: bool,
                    env: Envelope, header: Option<Key>, body: Option<SendBody>, newId: Id) returns (answer: Response)
      modifies store
      ensures
        var v := SendOps(sender, rid, key, binding, body, newId);
        (store.Contents(), answer) == Execute(old(store.Contents()), now, Send(sender, env, header, body, newId),
                                              QueueRow(rid, q), v.ops, v.last, Done)
    {
      hide Execute, StoreSpec.BindSenderKey, ClampMessageTtl;
      ghost var db := store.Contents();
      ghost var req := Send(sender, env, header, body, newId);
      ghost var snap := QueueRow(rid, q);
      ghost var v := SendOps(sender, rid, key, binding, body, newId);
      ghost var bind := OnQueues(OpBind(sender, key));
      ghost var tail := if binding then v.ops[1..] else v.ops;
      ghost var reply := Done;
      if binding {
        assert v.ops == [bind] + tail;
        FirstStep(db, now, req, snap, bind, tail, v.last);
        var bound := store.BindSenderKey(sender, key);
        if bound.Err? { return Internal; }
        if !bound.value { return Unauthorized; }
        reply := Flag(true);
      }
      assert Execute(db, now, req, snap, v.ops, v.last, Done)
          == Execute(store.Contents(), now, req, snap, tail, v.last, reply);
      answer := StorePayload(now, rid, body, newId, req, snap, v.last, tail, reply);
    }

    /** The payload checks, and the append. */
    method StorePayload(now: Nanos, rid: Id, body: Option<SendBody>, newId: Id,
                        ghost req: Request, ghost snap: Snapshot, ghost last: Option<Response>,
                        ghost tail: seq<Op>, ghost reply: Reply) returns (answer: Response)
      requires req.Send? && req.newId == newId
      requires
        var v := SendOps("", rid, [], false, body, newId);
        tail == v.ops && last == v.last
      modifies store
      ensures (store.Contents(), answer) == Execute(old(store.Contents()), now, req, snap, tail, last, reply)
    {
      hide Execute, ClampMessageTtl, StoreSpec.AppendMessage;
      ghost var db := store.Contents();
      if last.Some? { NoStep(db, now, req, snap, last, reply); }
      if body.None? { return BadRequest; }
      var payload := body.value.payload;
      if |payload| == 0 { return BadRequest; }
      if |payload| > MAX_PAYLOAD_BYTES { return TooLarge; }
      var ttl := ClampMessageTtl(body.value.ttl);
      assert tail == [OnMessages(OpAppend(rid, payload, ttl, newId))];
      OneStep(db, now, req, snap, OnMessages(OpAppend(rid, payload, ttl, newId)), reply);
      var err := store.AppendMessage(now, rid, payload, ttl, newId);
      if err == Some(QuotaExceeded) { return Full; }
      if err.Some? { return Internal; }
      return Sent(newId);
    }

    method HandleRecv(now: Nanos, rid: Id, env: Envelope) returns (answer: Response)
      modifies store, nonces
      ensures (State(), answer) == Serve(old(State()), now, Receive(rid, env, Recv))
    {
      ghost var db := store.Contents();
      ghost var req := Receive(rid, env, Recv);
      hide Authorise, Execute, SelectQueue, Remaining;
      var refusal := AuthorizeRecipient(now, rid, env);
      if refusal.Some? { return refusal.value; }
      var out := store.DrainMessages(now, rid);
      Expiry.DrainRuns(db, now, req, Lookup(db, req), rid);
      return Delivered(out);
    }

    method HandleAck(now: Nanos, rid: Id, env: Envelope, ids: Option<seq<Id>>) returns (answer: Response)
      modifies store, nonces
      ensures (State(), answer) == Serve(old(State()), now, Receive(rid, env, Ack(ids)))
    {
      ghost var db := store.Contents();
      ghost var req := Receive(rid, env, Ack(ids));
      hide Authorise, Execute, Remaining, Selected;
      var refusal := AuthorizeRecipient(now, rid, env);
      if refusal.Some? { return refusal.value; }
      if ids.None? { return BadRequest; }
      OneStep(db, now, req, Lookup(db, req), OnMessages(OpDelete(rid, ids.value)));
      var n := store.DeleteMessages(rid, ids.value);
      return Deleted(n);
    }

    method HandleRetire(now: Nanos, rid: Id, env: Envelope) returns (answer: Response)
      modifies store, nonces
      ensures (State(), answer) == Serve(old(State()), now, Receive(rid, env, Retire))
    {
      ghost var db := store.Contents();
      ghost var req := Receive(rid, env, Retire);
      hide Authorise, Execute, StoreSpec.RetireQueue;
      var refusal := AuthorizeRecipient(now, rid, env);
      if refusal.Some? { return refusal.value; }
      OneStep(db, now, req, Lookup(db, req), Retiring(OpRetire(rid)));
      store.RetireQueue(rid);
      return Acknowledged;
    }

    method HandleSetQueueQuota(now: Nanos, rid: Id, env: Envelope, bytes: int) returns (answer: Response)
      modifies store, nonces
      ensures (State(), answer) == Serve(old(State()), now, Receive(rid, env, SetQuota(bytes)))
    {
      ghost var db := store.Contents();
      ghost var req := Receive(rid, env, SetQuota(bytes));
      hide Authorise, Execute, StoreSpec.SetQueueQuota;
      var refusal := AuthorizeRecipient(now, rid, env);
      if refusal.Some? { return refusal.value; }
      if bytes < 0 { return BadRequest; }
      OneStep(db, now, req, Lookup(db, req), OnQueues(OpSetQueueQuota(rid, bytes)));
      var err := store.SetQueueQuota(rid, bytes);
      if err.Some? { return if err.value == QuotaNotChanged then NotFound else Internal; }
      return Acknowledged;
    }

    // ---- management plane

    method HandleRegister(now: Nanos, token: Id, pub: Key, push: string, newId: Id) returns (answer: Response)
      modifies store
      ensures (State(), answer) == Serve(old(State()), now, Register(token, pub, push, newId))
    {
      ghost var db := store.Contents();
      hide Execute, EnrolledRole;
      if |pub| != KEY_SIZE { return BadRequest; }
      OneStep(db, now, Register(token, pub, push, newId), NoRow, OnDevices(OpRegister(token, newId, pub, push)));
      var err := store.RegisterDevice(now, token, newId, pub, push);
      if err == Some(InvalidInvitation) { return Unauthorized; }
      if err.Some? { return Internal; }
      return Registered(newId, store.devices[newId].account);
    }

    method HandleRevoke(now: Nanos, id: Id, env: Envelope, target: Id) returns (answer: Response)
      modifies store, nonces
      ensures (State(), answer) == Serve(old(State()), now, Manage(id, env, AskRevoke(target)))
    {
      ghost var db := store.Contents();
      ghost var req := Manage(id, env, AskRevoke(target));
      hide Authorise, Execute, StoreSpec.RevokeDevice;
      var caller := RequireSignature(now, id, env);
      if caller.None? { return Unauthorized; }
      if target !in store.devices || store.devices[target].account != caller.value.account { return NotFound; }
      if target != id && caller.value.role != Admin { return Forbidden; }
      OneStep(db, now, req, Lookup(db, req), Retiring(OpRevoke(id, target)));
      var err := store.RevokeDevice(id, target);
      if err == Some(LastAdmin) { return Conflict; }
      if err == Some(DeviceNotFound) { return NotFound; }
      if err.Some? { return Internal; }
      return Acknowledged;
    }

    method HandleSetRole(now: Nanos, id: Id, env: Envelope, target: Id, role: string) returns (answer: Response)
      modifies store, nonces
      ensures (State(), answer) == Serve(old(State()), now, Manage(id, env, AskSetRole(target, role)))
    {
      ghost var db := store.Contents();
      ghost var req := Manage(id, env, AskSetRole(target, role));
      hide Authorise, Execute, StoreSpec.SetDeviceRole;
      var caller := RequireSignature(now, id, env);
      if caller.None? { return Unauthorized; }
      if caller.value.role != Admin { return Forbidden; }
      var account := caller.value.account;
      OneStep(db, now, req, Lookup(db, req), OnDevices(OpSetRole(account, target, role)));
      var err := store.SetDeviceRole(account, target, role);
      if err == Some(RoleChangeNotApplicable) || err == Some(LastAdmin) { return Conflict; }
      if err == Some(DeviceNotFound) { return NotFound; }
      if err.Some? { return BadRequest; }
      return Acknowledged;
    }

    method HandleCreateInvitation(now: Nanos, id: Id, env: Envelope, role: string, token: Id, invitation: Id)
      returns (answer: Response)
      modifies store, nonces
      ensures (State(), answer) == Serve(old(State()), now, Manage(id, env, AskInvite(role, token, invitation)))
    {
      ghost var db := store.Contents();
      ghost var req := Manage(id, env, AskInvite(role, token, invitation));
      hide Authorise, Execute, StoreSpec.CreateInvitation;
      var caller := RequireSignature(now, id, env);
      if caller.None? { return Unauthorized; }
      if caller.value.role != Admin { return Forbidden; }
      if role != "" && ParseRole(role).None? { return BadRequest; }
      var account := caller.value.account;
      OneStep(db, now, req, Lookup(db, req),
               OnAccounts(OpCreateInvitation(account, token, invitation, INVITATION_TTL, role)));
      var err := store.CreateInvitation(now, account, token, invitation, INVITATION_TTL, role);
      return if err.Some? then Internal else Acknowledged;
    }

    method HandleRevokeInvitation(now: Nanos, id: Id, env: Envelope, invitation: Id) returns (answer: Response)
      modifies store, nonces
      ensures (State(), answer) == Serve(old(State()), now, Manage(id, env, AskRevokeInvitation(invitation)))
    {
      ghost var db := store.Contents();
      ghost var req := Manage(id, env, AskRevokeInvitation(invitation));
      hide Authorise, Execute, StoreSpec.RevokeInvitation;
      var caller := RequireSignature(now, id, env);
      if caller.None? { return Unauthorized; }
      var account := caller.value.account;
      OneStep(db, now, req, Lookup(db, req), OnAccounts(OpRevokeInvitation(account, invitation)));
      var revoked := store.RevokeInvitation(account, invitation);
      return if revoked then Acknowledged else NotFound;
    }

    method HandleAppendStatement(now: Nanos, id: Id, env: Envelope, blob: Bytes) returns (answer: Response)
      modifies store, nonces
      ensures (State(), answer) == Serve(old(State()), now, Manage(id, env, AskAppendStatement(blob)))
    {
      ghost var start := State();
      ghost var req := Manage(id, env, AskAppendStatement(blob));
      hide Serve, CheckOn, StoreSpec.AppendStatement, MaxSeqno, Log, Lookup, Apply;
      var caller := RequireSignature(now, id, env);
      ServeCaller(start, now, req, caller, nonces.seen);
      if caller.None? { return Unauthorized; }
      if caller.value.role != Admin { return Forbidden; }
      if |blob| == 0 { return BadRequest; }
      var account := caller.value.account;
      StatementReply(start.db, now, account, blob);
      var err, seqno := store.AppendStatement(account, blob);
      if err == Some(StatementTooLarge) { return TooLarge; }
      if err.Some? { return Internal; }
      return Written(seqno);
    }

    method HandleListStatements(now: Nanos, id: Id, env: Envelope, since: int) returns (answer: Response)
      modifies nonces
      ensures (State(), answer) == Serve(old(State()), now, Manage(id, env, AskListStatements(since)))
    {
      ghost var start := State();
      ghost var req := Manage(id, env, AskListStatements(since));
      hide Serve, CheckOn, Since, Lookup, Log;
      var caller := RequireSignature(now, id, env);
      ServeCaller(start, now, req, caller, nonces.seen);
      if caller.None? { return Unauthorized; }
      if since < 0 { return BadRequest; }
      var account := caller.value.account;
      var log := store.ListStatements(account, since);
      return Statements(log);
    }

    method HandleListDevices(now: Nanos, id: Id, env: Envelope) returns (answer: Response)
      modifies nonces
      ensures (State(), answer) == Serve(old(State()), now, Manage(id, env, AskListDevices))
    {
      ghost var start := State();
      ghost var req := Manage(id, env, AskListDevices);
      hide Serve, CheckOn, Lookup, StoreSpec.ListDevices;
      var caller := RequireSignature(now, id, env);
      ServeCaller(start, now, req, caller, nonces.seen);
      if caller.None? { return Unauthorized; }
      var account := caller.value.account;
      var rows := store.ListDevices(account);
      return DeviceList(ViewDevices(rows, id));
    }

    method HandleListInvitations(now: Nanos, id: Id, env: Envelope) returns (answer: Response)
      modifies nonces
      ensures (State(), answer) == Serve(old(State()), now, Manage(id, env, AskListInvitations))
    {
      ghost var start := State();
      ghost var req := Manage(id, env, AskListInvitations);
      hide Serve, CheckOn, Lookup, StoreSpec.ListInvitations;
      var caller := RequireSignature(now, id, env);
      ServeCaller(start, now, req, caller, nonces.seen);
      if caller.None? { return Unauthorized; }
      var account := caller.value.account;
      var views := store.ListInvitations(now, account);
      return InvitationList(views);
    }

    method HandleUpdatePush(now: Nanos, id: Id, env: Envelope, push: string) returns (answer: Response)
      modifies store, nonces
      ensures (State(), answer) == Serve(old(State()), now, Manage(id, env, AskUpdatePush(push)))
    {
      ghost var start := State();
      ghost var req := Manage(id, env, AskUpdatePush(push));
      hide Serve, CheckOn, Lookup, StoreSpec.UpdatePushEndpoint;
      var caller := RequireSignature(now, id, env);
      ServeCaller(start, now, req, caller, nonces.seen);
      if caller.None? { return Unauthorized; }
      if |push| > MAX_PUSH_LENGTH { return BadRequest; }
      store.UpdatePushEndpoint(id, push);
      return Acknowledged;
    }

    method HandleSetBundle(now: Nanos, id: Id, env: Envelope, blob: Bytes) returns (answer: Response)
      modifies store, nonces
      ensures (State(), answer) == Serve(old(State()), now, Manage(id, env, AskSetBundle(blob)))
    {
      ghost var start := State();
      ghost var req := Manage(id, env, AskSetBundle(blob));
      hide Serve, CheckOn, Lookup, StoreSpec.SetBundle;
      var caller := RequireSignature(now, id, env);
      ServeCaller(start, now, req, caller, nonces.seen);
      if caller.None? { return Unauthorized; }
      if |blob| == 0 { return BadRequest; }
      if |blob| > MAX_BUNDLE_BYTES { return TooLarge; }
      var err := store.SetBundle(id, blob);
      return if err.Some? then Internal else Acknowledged;
    }

    method HandleGetBundle(now: Nanos, id: Id, env: Envelope, target: Id) returns (answer: Response)
      modifies nonces
      ensures (State(), answer) == Serve(old(State()), now, Manage(id, env, AskGetBundle(target)))
    {
      ghost var start := State();
      ghost var req := Manage(id, env, AskGetBundle(target));
      hide Serve, CheckOn, Lookup;
      var caller := RequireSignature(now, id, env);
      ServeCaller(start, now, req, caller, nonces.seen);
      if caller.None? { return Unauthorized; }
      if target !in store.devices || store.devices[target].account != caller.value.account
         || store.devices[target].revoked {
        return NotFound;
      }
      return if target in store.bundles then Bundle(store.bundles[target]) else NotFound;
    }

    method HandleGetQuota(now: Nanos, id: Id, env: Envelope) returns (answer: Response)
      modifies nonces
      ensures (State(), answer) == Serve(old(State()), now, Manage(id, env, AskGetQuota))
    {
      ghost var start := State();
      ghost var req := Manage(id, env, AskGetQuota);
      hide Serve, CheckOn, Stored;
      var caller := RequireSignature(now, id, env);
      ServeCaller(start, now, req, caller, nonces.seen);
      if caller.None? { return Unauthorized; }
      var account := caller.value.account;
      var used := store.StoredBytes(OwnedBy(id), Seconds(now));
      if account !in store.accounts { return Internal; }
      return QuotaReport(caller.value.quotaBytes, used, store.accounts[account].quotaBytes);
    }

    method HandleCreateQueue(now: Nanos, id: Id, env: Envelope, key: Key, rid: Id, sid: Id) returns (answer: Response)
      modifies store, nonces
      ensures (State(), answer) == Serve(old(State()), now, Manage(id, env, AskCreateQueue(key, rid, sid)))
    {
      ghost var start := State();
      ghost var req := Manage(id, env, AskCreateQueue(key, rid, sid));
      hide Serve, CheckOn, Lookup, StoreSpec.CreateQueue;
      var caller := RequireSignature(now, id, env);
      ServeCaller(start, now, req, caller, nonces.seen);
      if caller.None? { return Unauthorized; }
      if |key| != KEY_SIZE { return BadRequest; }
      var err := store.CreateQueue(id, key, rid, sid);
      return if err.Some? then Internal else Acknowledged;
    }

    // ---- the operator's commands

    /** Provisions an account and mints its founding invitation. */
    method ProvisionAccount(now: Nanos, account: Id, quotaClass: string, bytes: int, mode: string,
                            token: Id, invitation: Id, ttl: Nanos) returns (answer: Response)
      modifies store
      ensures (State(), answer) ==
        Serve(old(State()), now, Operate(NewAccount(account, quotaClass, bytes, mode, token, invitation, ttl)))
    {
      ghost var db := store.Contents();
      ghost var req := Operate(NewAccount(account, quotaClass, bytes, mode, token, invitation, ttl));
      ghost var create := OnAccounts(OpCreateAccount(account, quotaClass, bytes, mode));
      ghost var mint := OnAccounts(OpCreateInvitation(account, token, invitation, ttl, "admin"));
      hide Execute, StoreSpec.CreateAccount, StoreSpec.CreateInvitation;
      assert [create, mint] == [create] + [mint];
      FirstStep(db, now, req, NoRow, create, [mint], None);
      var err := store.CreateAccount(account, quotaClass, bytes, mode);
      if err.Some? { return Internal; }
      OneStep(store.Contents(), now, req, NoRow, mint);
      err := store.CreateInvitation(now, account, token, invitation, ttl, "admin");
      return if err.Some? then Internal else Acknowledged;
    }

    method CapDevice(now: Nanos, id: Id, bytes: int) returns (answer: Response)
      modifies store
      ensures (State(), answer) == Serve(old(State()), now, Operate(Handlers.CapDevice(id, bytes)))
    {
      hide Serve, StoreSpec.SetDeviceQuota;
      ghost var start := State();
      ghost var req := Operate(Handlers.CapDevice(id, bytes));
      if id !in store.devices { ServeRefused(start, now, req, start.seen, NotFound); return NotFound; }
      if bytes < 0 { ServeRefused(start, now, req, start.seen, BadRequest); return BadRequest; }
      ServeOne(start, now, req, start.seen, OnDevices(OpSetDeviceQuota(id, bytes)));
      var err := store.SetDeviceQuota(id, bytes);
      return if err.Some? then Internal else Acknowledged;
    }

    method PromoteDevice(now: Nanos, id: Id) returns (answer: Response)
      modifies store
      ensures (State(), answer) == Serve(old(State()), now, Operate(Promote(id)))
    {
      hide Serve, StoreSpec.PromoteDevice;
      ghost var start := State();
      ghost var req := Operate(Promote(id));
      if id !in store.devices { ServeRefused(start, now, req, start.seen, NotFound); return NotFound; }
      ServeOne(start, now, req, start.seen, OnDevices(OpPromote(id)));
      var err := store.PromoteDevice(id);
      return if err.Some? then Internal else Acknowledged;
    }

    /** The background sweep. */
    method SweepExpired(now: Nanos) returns (answer: Response)
      modifies store
      ensures (State(), answer) == Serve(old(State()), now, Sweep)
    {
      ghost var db := store.Contents();
      hide Execute, StoreSpec.PurgeExpired;
      OneStep(db, now, Sweep, NoRow, OnMessages(OpPurge));
      var n := store.PurgeExpired(now);
      return Deleted(n);
    }

    // ---- any request, and any run of them

    method HandleCall(now: Nanos, id: Id, env: Envelope, call: Call) returns (answer: Response)
      modifies store, nonces
      ensures (State(), answer) == Serve(old(State()), now, Manage(id, env, call))
    {
      hide Serve;
      match call
      case AskListDevices => answer := HandleListDevices(now, id, env);
      case AskRevoke(target) => answer := HandleRevoke(now, id, env, target);
      case AskSetRole(target, role) => answer := HandleSetRole(now, id, env, target, role);
      case AskInvite(role, token, invitation) =>
        answer := HandleCreateInvitation(now, id, env, role, token, invitation);
      case AskListInvitations => answer := HandleListInvitations(now, id, env);
      case AskRevokeInvitation(invitation) => answer := HandleRevokeInvitation(now, id, env, invitation);
      case AskUpdatePush(push) => answer := HandleUpdatePush(now, id, env, push);
      case AskSetBundle(blob) => answer := HandleSetBundle(now, id, env, blob);
      case AskGetBundle(target) => answer := HandleGetBundle(now, id, env, target);
      case AskGetQuota => answer := HandleGetQuota(now, id, env);
      case AskAppendStatement(blob) => answer := HandleAppendStatement(now, id, env, blob);
      case AskListStatements(since) => answer := HandleListStatements(now, id, env, since);
      case AskCreateQueue(key, rid, sid) => answer := HandleCreateQueue(now, id, env, key, rid, sid);
    }

    method HandleQueueCall(now: Nanos, rid: Id, env: Envelope, call: QueueCall) returns (answer: Response)
      modifies store, nonces
      ensures (State(), answer) == Serve(old(State()), now, Receive(rid, env, call))
    {
      hide Serve;
      match call
      case Recv => answer := HandleRecv(now, rid, env);
      case Ack(ids) => answer := HandleAck(now, rid, env, ids);
      case Retire => answer := HandleRetire(now, rid, env);
      case SetQuota(bytes) => answer := HandleSetQueueQuota(now, rid, env, bytes);
    }

    /** The server refines atomic service, whatever the request. */
    method Handle(now: Nanos, req: Request) returns (answer: Response)
      modifies store, nonces
      ensures (State(), answer) == Serve(old(State()), now, req)
    {
      hide Serve;
      match req
      case Operate(NewAccount(account, quotaClass, bytes, mode, token, invitation, ttl)) =>
        answer := ProvisionAccount(now, account, quotaClass, bytes, mode, token, invitation, ttl);
      case Operate(CapDevice(id, bytes)) => answer := CapDevice(now, id, bytes);
      case Operate(Promote(id)) => answer := PromoteDevice(now, id);
      case Sweep => answer := SweepExpired(now);
      case Register(token, pub, push, newId) => answer := HandleRegister(now, token, pub, push, newId);
      case Manage(id, env, call) => answer := HandleCall(now, id, env, call);
      case Send(sender, env, header, body, newId) => answer := HandleSend(now, sender, env, header, body, newId);
      case Receive(rid, env, call) => answer := HandleQueueCall(now, rid, env, call);
    }
  }

  /** So what is proved of runs holds of a server that is handed the requests one by one. */
  method ServeAll(evs: seq<Event>) returns (server: Server, answers: seq<Response>)
    ensures fresh(server) && server.State() == Runs.State(EmptyRelay, evs)
    ensures |answers| == |evs| && forall i :: 0 <= i < |evs| ==> answers[i] == AnswerTo(EmptyRelay, evs, i)
  {
    hide Serve;
    server := new Server();
    answers := [];
    for n := 0 to |evs|
      invariant fresh(server) && fresh(server.store) && fresh(server.nonces)
      invariant server.State() == Runs.State(EmptyRelay, evs[..n])
      invariant |answers| == n && forall i :: 0 <= i < n ==> answers[i] == AnswerTo(EmptyRelay, evs, i)
    {
      var answer := server.Handle(evs[n].now, evs[n].req);
      answers := answers + [answer];
      assert evs[..n + 1] == evs[..n] + [evs[n]];
      StateSnoc(EmptyRelay, evs[..n], evs[n]);
    }
    assert evs[..|evs|] == evs;
  }
}
