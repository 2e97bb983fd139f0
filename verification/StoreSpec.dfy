/**
  What each method of the store does to the database, as a function.  The class in module
  Persistence is proved against these; the theorems about runs are proved over them.
  A method that fails leaves the database as it was: its transaction rolls back.
  */
module StoreSpec {
  import opened Results
  import opened Tables

  datatype Error =
    | InvalidInvitation | DeviceNotFound | QueueNotFound | BundleNotFound
    | QuotaExceeded | QuotaNotChanged | LastAdmin | RoleChangeNotApplicable | StatementTooLarge
    | Invalid      // an argument the method itself rejects
    | NoRows       // a lookup that found nothing, passed on as it is
    | Constraint   // an INSERT refused by a PRIMARY KEY, UNIQUE or FOREIGN KEY constraint

  const MAX_STATEMENT_BYTES: nat := 4096
  const MAX_STATEMENTS: nat := 256

  // ---- names for modes, roles and quota classes

  function ParseMode(text: string): Option<Mode> {
    if text == "" || text == "flat" then Some(Flat)
    else if text == "managed" then Some(Managed)
    else None
  }

  function ParseRole(text: string): Option<Role> {
    if text == "admin" then Some(Admin)
    else if text == "member" then Some(Member)
    else None
  }

  function ClassCeiling(quotaClass: string): int {
    if quotaClass == "large" then 1_073_741_824 else 67_108_864
  }

  // ---- accounts and invitations

  function CreateAccount(db: Db, id: Id, quotaClass: string, bytes: int, mode: string): Result<Db, Error> {
    match ParseMode(mode)
    case None => Err(Invalid)
    case Some(m) =>
      if id in db.accounts then Err(Constraint)
      else
        var ceiling := if bytes <= 0 then ClassCeiling(quotaClass) else bytes;
        Ok(db.(accounts := db.accounts[id := Account(ceiling, m)]))
  }

  function CreateInvitation(db: Db, now: Nanos, account: Id, token: Id, id: Id, ttl: Nanos, role: string)
    : Result<Db, Error>
  {
    match ParseRole(if role == "" then "member" else role)
    case None => Err(Invalid)
    case Some(asked) =>
      if account !in db.accounts then Err(DeviceNotFound)
      else if token in db.invitations then Err(Constraint)
      else
        var grants := if db.accounts[account].mode == Managed then asked else Admin;
        var inv := Invitation(id, account, Seconds(now + ttl), false, false, grants);
        Ok(db.(invitations := db.invitations[token := inv]))
  }

  predicate Revocable(inv: Invitation, account: Id, id: Id) {
    inv.id == id && inv.account == account && !inv.consumed && !inv.revoked
  }

  function RevocableTokens(db: Db, account: Id, id: Id): set<Id> {
    set t | t in db.invitations && Revocable(db.invitations[t], account, id)
  }

  function RevokeInvitation(db: Db, account: Id, id: Id): (Db, bool) {
    var hit := RevocableTokens(db, account, id);
    (db.(invitations := map t | t in db.invitations ::
           if t in hit then db.invitations[t].(revoked := true) else db.invitations[t]),
     |hit| == 1)
  }

  predicate Outstanding(inv: Invitation, account: Id, at: Stamp) {
    inv.account == account && !inv.consumed && !inv.revoked && inv.expires > at
  }

  datatype InvitationView = InvitationView(id: Id, expires: Stamp)

  function ListInvitations(db: Db, now: Nanos, account: Id): set<InvitationView> {
    set t | t in db.invitations && Outstanding(db.invitations[t], account, Seconds(now))
      :: InvitationView(db.invitations[t].id, db.invitations[t].expires)
  }

  // ---- devices

  function DevicesOf(devices: Devices, account: Id): set<Id> {
    set d | d in devices && devices[d].account == account
  }

  function LiveDevices(devices: Devices, account: Id): set<Id> {
    set d | d in devices && devices[d].account == account && !devices[d].revoked
  }

  function LiveAdmins(devices: Devices, account: Id): set<Id> {
    set d | d in devices && devices[d].account == account && !devices[d].revoked && devices[d].role == Admin
  }

  predicate Redeemable(db: Db, now: Nanos, token: Id) {
    && token in db.invitations
    && !db.invitations[token].consumed
    && !db.invitations[token].revoked
    && db.invitations[token].expires > Seconds(now)
  }

  /** The role a device enrolling with this invitation gets. */
  function EnrolledRole(db: Db, inv: Invitation): Role
    requires inv.account in db.accounts
  {
    if db.accounts[inv.account].mode == Managed && DevicesOf(db.devices, inv.account) != {}
    then inv.grants
    else Admin
  }

  function RegisterDevice(db: Db, now: Nanos, token: Id, id: Id, pub: Key, push: string): Result<Db, Error> {
    if |pub| != KEY_SIZE then Err(Invalid)
    else if !Redeemable(db, now, token) then Err(InvalidInvitation)
    else
      var inv := db.invitations[token];
      if inv.account !in db.accounts then Err(NoRows)
      else if id in db.devices then Err(Constraint)
      else
        var dev := Device(inv.account, pub, push, false, 0, EnrolledRole(db, inv));
        Ok(db.(invitations := db.invitations[token := inv.(consumed := true)],
               devices := db.devices[id := dev]))
  }

  /** Whether an act that takes admin rights from a device of the account must be refused. */
  predicate StripsLastAdmin(devices: Devices, account: Id, id: Id, allowIfAccountEmpties: bool) {
    && LiveAdmins(devices, account) - {id} == {}
    && (!allowIfAccountEmpties || LiveDevices(devices, account) - {id} != {})
  }

  function RetireOwned(queues: Queues, owner: Id): Queues {
    map r | r in queues :: if queues[r].owner == owner then queues[r].(retired := true) else queues[r]
  }

  function Disable(db: Db, id: Id): Db {
    db.(messages := Remaining(db.messages, db.queues, db.devices, OwnedBy(id)),
        queues := RetireOwned(db.queues, id),
        bundles := db.bundles - {id},
        devices := if id in db.devices then db.devices[id := db.devices[id].(revoked := true, push := "")]
                   else db.devices)
  }

  function RevokeDevice(db: Db, caller: Id, id: Id): Result<Db, Error> {
    if caller == id then Ok(Disable(db, id))
    else if id !in db.devices then Err(DeviceNotFound)
    else
      var dev := db.devices[id];
      if !dev.revoked && dev.role == Admin && StripsLastAdmin(db.devices, dev.account, id, true)
      then Err(LastAdmin)
      else Ok(Disable(db, id))
  }

  function SetDeviceRole(db: Db, account: Id, id: Id, role: string): Result<Db, Error> {
    match ParseRole(role)
    case None => Err(Invalid)
    case Some(wanted) =>
      if account !in db.accounts then Err(NoRows)
      else if db.accounts[account].mode != Managed then Err(RoleChangeNotApplicable)
      else if id !in LiveDevices(db.devices, account) then Err(DeviceNotFound)
      else if db.devices[id].role == Admin && wanted == Member
              && StripsLastAdmin(db.devices, account, id, false)
      then Err(LastAdmin)
      else Ok(db.(devices := db.devices[id := db.devices[id].(role := wanted)]))
  }

  function PromoteDevice(db: Db, id: Id): Result<Db, Error> {
    if id !in db.devices || db.devices[id].revoked || db.devices[id].account !in db.accounts
    then Err(DeviceNotFound)
    else if db.accounts[db.devices[id].account].mode != Managed then Err(RoleChangeNotApplicable)
    else Ok(db.(devices := db.devices[id := db.devices[id].(role := Admin)]))
  }

  function UpdatePushEndpoint(db: Db, id: Id, endpoint: string): Db {
    if id in db.devices then db.(devices := db.devices[id := db.devices[id].(push := endpoint)]) else db
  }

  function SetBundle(db: Db, id: Id, blob: Bytes): Result<Db, Error> {
    if id !in db.devices then Err(Constraint) else Ok(db.(bundles := db.bundles[id := blob]))
  }

  function ListDevices(db: Db, account: Id): Devices {
    map d | d in db.devices && db.devices[d].account == account :: db.devices[d]
  }

  // ---- ceilings

  function SetDeviceQuota(db: Db, id: Id, bytes: int): Result<Db, Error> {
    if id in db.devices && !db.devices[id].revoked
    then Ok(db.(devices := db.devices[id := db.devices[id].(quotaBytes := bytes)]))
    else Err(QuotaNotChanged)
  }

  function SetQueueQuota(db: Db, rid: Id, bytes: int): Result<Db, Error> {
    if rid in db.queues && !db.queues[rid].retired
    then Ok(db.(queues := db.queues[rid := db.queues[rid].(quotaBytes := bytes)]))
    else Err(QuotaNotChanged)
  }

  // ---- queues and messages

  function CreateQueue(db: Db, owner: Id, key: Key, rid: Id, sid: Id): Result<Db, Error> {
    if |key| != KEY_SIZE then Err(Invalid)
    else if rid in db.queues || sid in db.senders || owner !in db.devices then Err(Constraint)
    else Ok(db.(queues := db.queues[rid := Queue(sid, owner, key, None, false, 0)],
                senders := db.senders[sid := rid]))
  }

  predicate Bindable(db: Db, sid: Id) {
    && sid in db.senders
    && db.senders[sid] in db.queues
    && db.queues[db.senders[sid]].senderKey.None?
    && !db.queues[db.senders[sid]].retired
  }

  function BindSenderKey(db: Db, sid: Id, key: Key): Result<(Db, bool), Error> {
    if |key| != KEY_SIZE then Err(Invalid)
    else if Bindable(db, sid) then
      var rid := db.senders[sid];
      Ok((db.(queues := db.queues[rid := db.queues[rid].(senderKey := Some(key))]), true))
    else Ok((db, false))
  }

  function RetireQueue(db: Db, rid: Id): Db {
    var kept := Without(db, InQueue(rid));
    if rid in db.queues then kept.(queues := db.queues[rid := db.queues[rid].(retired := true)]) else kept
  }

  /** A ceiling of 0 or less is no ceiling; landing exactly on one is allowed. */
  predicate Fits(db: Db, w: Where, ceiling: int, at: Stamp, size: nat) {
    ceiling > 0 ==> Stored(db, w, at) + size <= ceiling
  }

  predicate HasRoom(db: Db, rid: Id, at: Stamp, size: nat)
    requires rid in db.queues && db.queues[rid].owner in db.devices
    requires db.devices[db.queues[rid].owner].account in db.accounts
  {
    var q := db.queues[rid];
    var d := db.devices[q.owner];
    && Fits(db, InQueue(rid), q.quotaBytes, at, size)
    && Fits(db, OwnedBy(q.owner), d.quotaBytes, at, size)
    && Fits(db, InAccount(d.account), db.accounts[d.account].quotaBytes, at, size)
  }

  /** The three-way join that resolves a queue's ceilings finds a row. */
  predicate Resolves(db: Db, rid: Id) {
    && rid in db.queues
    && db.queues[rid].owner in db.devices
    && db.devices[db.queues[rid].owner].account in db.accounts
  }

  function AppendMessage(db: Db, now: Nanos, rid: Id, payload: Bytes, ttl: Nanos, id: Id): Result<Db, Error> {
    if !Resolves(db, rid) then Err(QueueNotFound)
    else if !HasRoom(db, rid, Seconds(now), |payload|) then Err(QuotaExceeded)
    else if IdTaken(db.messages, id) then Err(Constraint)
    else
      var m := Message(db.lastSeq + 1, id, rid, payload, Seconds(now), Seconds(now + ttl));
      Ok(db.(messages := db.messages + [m], lastSeq := db.lastSeq + 1))
  }

  function SelectQueue(db: Db, rid: Id): seq<Delivery> {
    Deliveries(Selected(db.messages, db.queues, db.devices, InQueue(rid)))
  }

  function DeleteMessages(db: Db, rid: Id, ids: seq<Id>): (Db, nat) {
    (Without(db, Named(rid, ids)), |Selected(db.messages, db.queues, db.devices, Named(rid, ids))|)
  }

  function PurgeExpired(db: Db, now: Nanos): (Db, nat) {
    var w := Expired(Seconds(now));
    (Without(db, w), |Selected(db.messages, db.queues, db.devices, w)|)
  }

  // ---- administrative statements

  function Log(db: Db, account: Id): seq<Statement> {
    if account in db.statements then db.statements[account] else []
  }

  /** SELECT COALESCE(MAX(seq), 0). */
  function MaxSeqno(log: seq<Statement>): nat {
    if log == [] then 0
    else
      var rest := MaxSeqno(log[..|log| - 1]);
      if log[|log| - 1].seqno > rest then log[|log| - 1].seqno else rest
  }

  /** The rows with seq > since, in order. */
  function Since(log: seq<Statement>, since: int): seq<Statement> {
    if log == [] then []
    else
      var rest := Since(log[..|log| - 1], since);
      if log[|log| - 1].seqno > since then rest + [log[|log| - 1]] else rest
  }

  function AppendToLog(log: seq<Statement>, blob: Bytes): seq<Statement> {
    var next := MaxSeqno(log) + 1;
    Since(log + [Statement(next, blob)], next - MAX_STATEMENTS)
  }

  function AppendStatement(db: Db, account: Id, blob: Bytes): Result<Db, Error> {
    if |blob| == 0 then Err(Invalid)
    else if |blob| > MAX_STATEMENT_BYTES then Err(StatementTooLarge)
    else if account !in db.accounts then Err(Constraint)
    else Ok(db.(statements := db.statements[account := AppendToLog(Log(db, account), blob)]))
  }

  // ---- one step of the store

  /** A call of a store method with its arguments, by the tables it writes. */
  datatype Op =
    | OnAccounts(account: AccountOp)
    | OnDevices(device: DeviceOp)
    | OnQueues(queue: QueueOp)
    | Retiring(retire: RetireOp)
    | OnMessages(message: MessageOp)
    | Reading(query: Query)

  datatype AccountOp =
    | OpCreateAccount(account: Id, quotaClass: string, bytes: int, mode: string)
    | OpCreateInvitation(account: Id, token: Id, invitation: Id, ttl: Nanos, role: string)
    | OpRevokeInvitation(account: Id, invitation: Id)
    | OpAppendStatement(account: Id, blob: Bytes)

  datatype DeviceOp =
    | OpRegister(token: Id, device: Id, pub: Key, push: string)
    | OpSetRole(account: Id, device: Id, role: string)
    | OpPromote(device: Id)
    | OpUpdatePush(device: Id, push: string)
    | OpSetBundle(device: Id, blob: Bytes)
    | OpSetDeviceQuota(device: Id, bytes: int)

  datatype QueueOp =
    | OpCreateQueue(owner: Id, key: Key, rid: Id, sid: Id)
    | OpBind(sid: Id, key: Key)
    | OpSetQueueQuota(rid: Id, bytes: int)

  datatype RetireOp =
    | OpRevoke(caller: Id, device: Id)
    | OpRetire(rid: Id)

  /** A drain is two statements, each a step: OpPurgeQueue, then the query OpSelectQueue. */
  datatype MessageOp =
    | OpAppend(rid: Id, payload: Bytes, ttl: Nanos, id: Id)
    | OpPurgeQueue(rid: Id)
    | OpDelete(rid: Id, ids: seq<Id>)
    | OpPurge

  datatype Query =
    | OpListInvitations(account: Id)
    | OpGetBundle(device: Id)
    | OpListDevices(account: Id)
    | OpReadQuota(device: Id, account: Id)
    | OpSelectQueue(rid: Id)
    | OpListStatements(account: Id, since: int)

  datatype Reply =
    | Done
    | Failed(error: Error)
    | Flag(yes: bool)
    | Count(n: nat)
    | Drained(deliveries: seq<Delivery>)
    | Enrolled(device: Id, account: Id)
    | DeviceRows(rows: Devices)
    | InvitationRows(views: set<InvitationView>)
    | Blob(blob: Bytes)
    | Logged(seqno: nat)
    | LogRows(log: seq<Statement>)
    | Usage(used: nat, accountCeiling: int)

  function Settle(db: Db, r: Result<Db, Error>, reply: Reply): (Db, Reply) {
    match r
    case Ok(after) => (after, reply)
    case Err(e) => (db, Failed(e))
  }

  function ApplyAccountOp(db: Db, now: Nanos, op: AccountOp): (Db, Reply) {
    match op
    case OpCreateAccount(account, quotaClass, bytes, mode) =>
      Settle(db, CreateAccount(db, account, quotaClass, bytes, mode), Done)
    case OpCreateInvitation(account, token, invitation, ttl, role) =>
      Settle(db, CreateInvitation(db, now, account, token, invitation, ttl, role), Done)
    case OpRevokeInvitation(account, invitation) =>
      var r := RevokeInvitation(db, account, invitation);
      (r.0, Flag(r.1))
    case OpAppendStatement(account, blob) =>
      Settle(db, AppendStatement(db, account, blob), Logged(MaxSeqno(Log(db, account)) + 1))
  }

  function ApplyDeviceOp(db: Db, now: Nanos, op: DeviceOp): (Db, Reply) {
    match op
    case OpRegister(token, device, pub, push) =>
      var r := RegisterDevice(db, now, token, device, pub, push);
      Settle(db, r, if r.Ok? then Enrolled(device, db.invitations[token].account) else Done)
    case OpSetRole(account, device, role) => Settle(db, SetDeviceRole(db, account, device, role), Done)
    case OpPromote(device) => Settle(db, PromoteDevice(db, device), Done)
    case OpUpdatePush(device, push) => (UpdatePushEndpoint(db, device, push), Done)
    case OpSetBundle(device, blob) => Settle(db, SetBundle(db, device, blob), Done)
    case OpSetDeviceQuota(device, bytes) => Settle(db, SetDeviceQuota(db, device, bytes), Done)
  }

  function ApplyQueueOp(db: Db, op: QueueOp): (Db, Reply) {
    match op
    case OpCreateQueue(owner, key, rid, sid) => Settle(db, CreateQueue(db, owner, key, rid, sid), Done)
    case OpBind(sid, key) =>
      (match BindSenderKey(db, sid, key)
       case Ok(pair) => (pair.0, Flag(pair.1))
       case Err(e) => (db, Failed(e)))
    case OpSetQueueQuota(rid, bytes) => Settle(db, SetQueueQuota(db, rid, bytes), Done)
  }

  function ApplyRetireOp(db: Db, op: RetireOp): (Db, Reply) {
    match op
    case OpRevoke(caller, device) => Settle(db, RevokeDevice(db, caller, device), Done)
    case OpRetire(rid) => (RetireQueue(db, rid), Done)
  }

  function ApplyMessageOp(db: Db, now: Nanos, op: MessageOp): (Db, Reply) {
    match op
    case OpAppend(rid, payload, ttl, id) => Settle(db, AppendMessage(db, now, rid, payload, ttl, id), Done)
    case OpPurgeQueue(rid) => (Without(db, ExpiredIn(rid, Seconds(now))), Done)
    case OpDelete(rid, ids) =>
      var r := DeleteMessages(db, rid, ids);
      (r.0, Count(r.1))
    case OpPurge =>
      var r := PurgeExpired(db, now);
      (r.0, Count(r.1))
  }

  function Answer(db: Db, now: Nanos, query: Query): Reply {
    match query
    case OpListInvitations(account) => InvitationRows(ListInvitations(db, now, account))
    case OpGetBundle(device) => if device in db.bundles then Blob(db.bundles[device]) else Failed(BundleNotFound)
    case OpListDevices(account) => DeviceRows(ListDevices(db, account))
    case OpReadQuota(device, account) =>
      if account in db.accounts
      then Usage(Stored(db, OwnedBy(device), Seconds(now)), db.accounts[account].quotaBytes)
      else Failed(DeviceNotFound)
    case OpSelectQueue(rid) => Drained(SelectQueue(db, rid))
    case OpListStatements(account, since) => LogRows(Since(Log(db, account), since))
  }

  function Apply(db: Db, now: Nanos, op: Op): (Db, Reply) {
    match op
    case OnAccounts(o) => ApplyAccountOp(db, now, o)
    case OnDevices(o) => ApplyDeviceOp(db, now, o)
    case OnQueues(o) => ApplyQueueOp(db, o)
    case Retiring(o) => ApplyRetireOp(db, o)
    case OnMessages(o) => ApplyMessageOp(db, now, o)
    case Reading(query) => (db, Answer(db, now, query))
  }

  /** The database after a step. */
  function After(db: Db, now: Nanos, op: Op): Db {
    Apply(db, now, op).0
  }
}
