/**
  The request handlers, as programs over the store.  A request is served in phases: a lookup
  that reads one row, an authorisation that checks the request against that row and the replay
  cache, and then the store steps it earned.  Serving a request atomically (Serve) runs the
  phases on one and the same database; module Interleaving lets other requests in between.

  Ed25519 is a library call: a request carries the set of keys its signature verifies under.
  Fresh ids are inputs; one that is already taken makes the insert fail, as the schema does.
  */
module Handlers {
  import opened Results
  import opened Tables
  import opened StoreSpec
  import opened Nonces
  import opened Ttl

  const MAX_PAYLOAD_BYTES: nat := 65_536
  const MAX_BUNDLE_BYTES: nat := 8_192
  const MAX_PUSH_LENGTH: nat := 2_048
  const INVITATION_TTL: Nanos := 900 * SECOND

  /** The signature headers; `stamp` is None when one is missing or does not parse.  The window is
      checked as they are read, and `checkedAt` is the clock reading of that check; the cache is
      asked later, at a reading of its own. */
  datatype Envelope = Envelope(stamp: Option<Nanos>, checkedAt: Nanos, nonce: string, signers: set<Key>)

  datatype SendBody = SendBody(payload: Bytes, ttl: int)

  datatype Call =
    | AskListDevices
    | AskRevoke(target: Id)
    | AskSetRole(target: Id, role: string)
    | AskInvite(role: string, token: Id, invitation: Id)
    | AskListInvitations
    | AskRevokeInvitation(invitation: Id)
    | AskUpdatePush(push: string)
    | AskSetBundle(blob: Bytes)
    | AskGetBundle(target: Id)
    | AskGetQuota
    | AskAppendStatement(blob: Bytes)
    | AskListStatements(since: int)
    | AskCreateQueue(key: Key, rid: Id, sid: Id)

  datatype QueueCall =
    | Recv
    | Ack(ids: Option<seq<Id>>)
    | Retire
    | SetQuota(bytes: int)

  datatype OperatorAct =
    | NewAccount(account: Id, quotaClass: string, bytes: int, mode: string, token: Id, invitation: Id, ttl: Nanos)
    | CapDevice(device: Id, bytes: int)
    | Promote(device: Id)

  datatype Request =
    | Operate(act: OperatorAct)
    | Sweep
    | Register(token: Id, pub: Key, push: string, newId: Id)
    | Manage(device: Id, env: Envelope, call: Call)
    | Send(sender: Id, env: Envelope, header: Option<Key>, body: Option<SendBody>, newId: Id)
    | Receive(recipient: Id, env: Envelope, queueCall: QueueCall)

  /** A peer's row in the device list: no ceiling, and the push endpoint only to its own device. */
  datatype DeviceView = DeviceView(publicKey: Key, role: Role, revoked: bool, push: string)

  datatype Response =
    | BadRequest | Unauthorized | Forbidden | NotFound | Conflict | TooLarge | Full | Internal
    | Acknowledged
    | Registered(device: Id, account: Id)
    | Sent(id: Id)
    | Delivered(deliveries: seq<Delivery>)
    | Deleted(n: nat)
    | DeviceList(views: map<Id, DeviceView>)
    | InvitationList(invitations: set<InvitationView>)
    | Bundle(blob: Bytes)
    | QuotaReport(ceiling: int, used: nat, accountCeiling: int)
    | Written(seqno: nat)
    | Statements(log: seq<Statement>)

  // ---- phase 1: the row the request is checked against

  datatype Snapshot =
    | NoRow
    | QueueRow(rid: Id, queue: Queue)
    | DeviceRow(device: Device)

  function Lookup(db: Db, req: Request): Snapshot {
    match req
    case Manage(device, _, _) => if device in db.devices then DeviceRow(db.devices[device]) else NoRow
    case Send(sender, _, _, _, _) =>
      if sender in db.senders && db.senders[sender] in db.queues
      then QueueRow(db.senders[sender], db.queues[db.senders[sender]])
      else NoRow
    case Receive(recipient, _, _) =>
      if recipient in db.queues then QueueRow(recipient, db.queues[recipient]) else NoRow
    case _ => NoRow
  }

  // ---- phase 2: authorisation

  /** Either an answer, or the store steps to take and, if they all succeed, an answer that
      overrides theirs. */
  datatype Verdict = Refuse(response: Response) | Proceed(ops: seq<Op>, last: Option<Response>)

  function Perform(op: Op): Verdict {
    Proceed([op], None)
  }

  /** Window, signature and nonce, in that order; the nonce is recorded only if the rest holds. */
  function Authenticate(seen: Seen, now: Nanos, env: Envelope, principal: Id, key: Key): (Seen, bool) {
    if env.stamp.None? || !InWindow(env.checkedAt, env.stamp.value) then (seen, false)
    else if key !in env.signers then (seen, false)
    else Admit(seen, now, NonceKey(principal, env.nonce), env.stamp.value + SKEW)
  }

  /** The key to verify a send against, and whether this send binds it. */
  function ResolveSenderKey(queue: Queue, header: Option<Key>): Option<(Key, bool)> {
    match queue.senderKey
    case None =>
      (match header
       case None => None
       case Some(k) => if |k| == KEY_SIZE then Some((k, true)) else None)
    case Some(bound) => if header.Some? && header.value != bound then None else Some((bound, false))
  }

  function SendOps(sender: Id, rid: Id, key: Key, binding: bool, body: Option<SendBody>, newId: Id): Verdict {
    var bind := if binding then [OnQueues(OpBind(sender, key))] else [];
    match body
    case None => Proceed(bind, Some(BadRequest))
    case Some(SendBody(payload, ttl)) =>
      if |payload| == 0 then Proceed(bind, Some(BadRequest))
      else if |payload| > MAX_PAYLOAD_BYTES then Proceed(bind, Some(TooLarge))
      else Proceed(bind + [OnMessages(OpAppend(rid, payload, ClampMessageTtl(ttl), newId))], None)
  }

  function QueueVerdict(rid: Id, call: QueueCall): Verdict {
    match call
    case Recv => Proceed([OnMessages(OpPurgeQueue(rid)), Reading(OpSelectQueue(rid))], None)
    case Ack(ids) => if ids.None? then Refuse(BadRequest) else Perform(OnMessages(OpDelete(rid, ids.value)))
    case Retire => Perform(Retiring(OpRetire(rid)))
    case SetQuota(bytes) => if bytes < 0 then Refuse(BadRequest) else Perform(OnQueues(OpSetQueueQuota(rid, bytes)))
  }

  function DeviceVerdict(db: Db, id: Id, dev: Device, call: Call): Verdict {
    match call
    case AskListDevices => Perform(Reading(OpListDevices(dev.account)))
    case AskRevoke(target) =>
      if target !in db.devices || db.devices[target].account != dev.account then Refuse(NotFound)
      else if target != id && dev.role != Admin then Refuse(Forbidden)
      else Perform(Retiring(OpRevoke(id, target)))
    case AskSetRole(target, role) =>
      if dev.role != Admin then Refuse(Forbidden)
      else Perform(OnDevices(OpSetRole(dev.account, target, role)))
    case AskInvite(role, token, invitation) =>
      if dev.role != Admin then Refuse(Forbidden)
      else if role != "" && ParseRole(role).None? then Refuse(BadRequest)
      else Perform(OnAccounts(OpCreateInvitation(dev.account, token, invitation, INVITATION_TTL, role)))
    case AskListInvitations => Perform(Reading(OpListInvitations(dev.account)))
    case AskRevokeInvitation(invitation) => Perform(OnAccounts(OpRevokeInvitation(dev.account, invitation)))
    case AskUpdatePush(push) =>
      if |push| > MAX_PUSH_LENGTH then Refuse(BadRequest) else Perform(OnDevices(OpUpdatePush(id, push)))
    case AskSetBundle(blob) =>
      if |blob| == 0 then Refuse(BadRequest)
      else if |blob| > MAX_BUNDLE_BYTES then Refuse(TooLarge)
      else Perform(OnDevices(OpSetBundle(id, blob)))
    case AskGetBundle(target) =>
      if target !in db.devices || db.devices[target].account != dev.account || db.devices[target].revoked
      then Refuse(NotFound)
      else Perform(Reading(OpGetBundle(target)))
    case AskGetQuota => Perform(Reading(OpReadQuota(id, dev.account)))
    case AskAppendStatement(blob) =>
      if dev.role != Admin then Refuse(Forbidden)
      else if |blob| == 0 then Refuse(BadRequest)
      else Perform(OnAccounts(OpAppendStatement(dev.account, blob)))
    case AskListStatements(since) =>
      if since < 0 then Refuse(BadRequest) else Perform(Reading(OpListStatements(dev.account, since)))
    case AskCreateQueue(key, rid, sid) =>
      if |key| != KEY_SIZE then Refuse(BadRequest) else Perform(OnQueues(OpCreateQueue(id, key, rid, sid)))
  }

  function OperatorVerdict(db: Db, act: OperatorAct): Verdict {
    match act
    case NewAccount(account, quotaClass, bytes, mode, token, invitation, ttl) =>
      Proceed([OnAccounts(OpCreateAccount(account, quotaClass, bytes, mode)),
               OnAccounts(OpCreateInvitation(account, token, invitation, ttl, "admin"))], None)
    case CapDevice(device, bytes) =>
      if device !in db.devices then Refuse(NotFound)
      else if bytes < 0 then Refuse(BadRequest)
      else Perform(OnDevices(OpSetDeviceQuota(device, bytes)))
    case Promote(device) =>
      if device !in db.devices then Refuse(NotFound) else Perform(OnDevices(OpPromote(device)))
  }

  function Authorise(db: Db, seen: Seen, now: Nanos, req: Request, snap: Snapshot): (Seen, Verdict) {
    match req
    case Operate(act) => (seen, OperatorVerdict(db, act))
    case Sweep => (seen, Perform(OnMessages(OpPurge)))
    case Register(token, pub, push, newId) =>
      (seen, if |pub| != KEY_SIZE then Refuse(BadRequest) else Perform(OnDevices(OpRegister(token, newId, pub, push))))
    case Manage(id, env, call) =>
      if !snap.DeviceRow? || snap.device.revoked then (seen, Refuse(Unauthorized))
      else
        var auth := Authenticate(seen, now, env, id, snap.device.publicKey);
        if !auth.1 then (auth.0, Refuse(Unauthorized)) else (auth.0, DeviceVerdict(db, id, snap.device, call))
    case Send(sender, env, header, body, newId) =>
      if !snap.QueueRow? || snap.queue.retired then (seen, Refuse(NotFound))
      else
        (match ResolveSenderKey(snap.queue, header)
         case None => (seen, Refuse(Unauthorized))
         case Some((key, binding)) =>
           var auth := Authenticate(seen, now, env, sender, key);
           if !auth.1 then (auth.0, Refuse(Unauthorized))
           else (auth.0, SendOps(sender, snap.rid, key, binding, body, newId)))
    case Receive(recipient, env, call) =>
      if !snap.QueueRow? || snap.queue.retired then (seen, Refuse(NotFound))
      else
        var auth := Authenticate(seen, now, env, recipient, snap.queue.recipientKey);
        if !auth.1 then (auth.0, Refuse(Unauthorized)) else (auth.0, QueueVerdict(snap.rid, call))
  }

  // ---- phase 3: the store steps, and the answer

  /** The answer a failed store step ends the request with. */
  function FailureOf(op: Op, e: Error): Response {
    match op
    case OnDevices(OpRegister(_, _, _, _)) => if e == InvalidInvitation then Unauthorized else Internal
    case OnDevices(OpSetRole(_, _, _)) =>
      if e == RoleChangeNotApplicable || e == LastAdmin then Conflict
      else if e == DeviceNotFound then NotFound
      else BadRequest
    case Retiring(OpRevoke(_, _)) =>
      if e == LastAdmin then Conflict else if e == DeviceNotFound then NotFound else Internal
    case OnMessages(OpAppend(_, _, _, _)) => if e == QuotaExceeded then Full else Internal
    case OnQueues(OpSetQueueQuota(_, _)) => if e == QuotaNotChanged then NotFound else Internal
    case OnAccounts(OpAppendStatement(_, _)) => if e == StatementTooLarge then TooLarge else Internal
    case Reading(OpGetBundle(_)) => if e == BundleNotFound then NotFound else Internal
    case _ => Internal
  }

  /** The answer a store step ends the request with, if it does. */
  function Stop(op: Op, reply: Reply): Option<Response> {
    match reply
    case Failed(e) => Some(FailureOf(op, e))
    case Flag(yes) => if yes then None else if op.OnQueues? then Some(Unauthorized) else Some(NotFound)
    case _ => None
  }

  function ViewDevices(rows: Devices, caller: Id): map<Id, DeviceView> {
    map d | d in rows ::
      DeviceView(rows[d].publicKey, rows[d].role, rows[d].revoked, if d == caller then rows[d].push else "")
  }

  function Success(req: Request, snap: Snapshot, reply: Reply): Response {
    match reply
    case Enrolled(device, account) => Registered(device, account)
    case Count(n) => Deleted(n)
    case Drained(ds) => Delivered(ds)
    case DeviceRows(rows) => if req.Manage? then DeviceList(ViewDevices(rows, req.device)) else Internal
    case InvitationRows(views) => InvitationList(views)
    case Blob(blob) => Bundle(blob)
    case Logged(n) => Written(n)
    case LogRows(log) => Statements(log)
    case Usage(used, ceiling) =>
      if snap.DeviceRow? then QuotaReport(snap.device.quotaBytes, used, ceiling) else Internal
    case _ => if req.Send? then Sent(req.newId) else Acknowledged
  }

  /** The answer after the last of a request's store steps. */
  function Finish(req: Request, snap: Snapshot, last: Option<Response>, reply: Reply): Response {
    if last.Some? then last.value else Success(req, snap, reply)
  }

  function Execute(db: Db, now: Nanos, req: Request, snap: Snapshot, ops: seq<Op>, last: Option<Response>, reply: Reply)
    : (Db, Response)
    decreases |ops|
  {
    if ops == [] then (db, Finish(req, snap, last, reply))
    else
      var r := Apply(db, now, ops[0]);
      var stop := Stop(ops[0], r.1);
      if stop.Some? then (r.0, stop.value) else Execute(r.0, now, req, snap, ops[1..], last, r.1)
  }

  // ---- atomic service

  datatype Relay = Relay(db: Db, seen: Seen)

  const EmptyRelay := Relay(EmptyDb, map[])

  function Serve(r: Relay, now: Nanos, req: Request): (Relay, Response) {
    var snap := Lookup(r.db, req);
    var auth := Authorise(r.db, r.seen, now, req, snap);
    match auth.1
    case Refuse(response) => (Relay(r.db, auth.0), response)
    case Proceed(ops, last) =>
      var done := Execute(r.db, now, req, snap, ops, last, Done);
      (Relay(done.0, auth.0), done.1)
  }
}
