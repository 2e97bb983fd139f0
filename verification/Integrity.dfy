/**
  What every step of the store keeps, whoever asked for it: referential integrity, the sender
  index, rowid order, and the columns that never go back.
  */
module Integrity {
  import opened Results
  import opened Tables
  import opened StoreSpec
  import opened RowFacts

  // ---- what each family of steps leaves alone

  lemma AccountOpFrame(db: Db, now: Nanos, op: AccountOp)
    ensures var next := ApplyAccountOp(db, now, op).0;
      next == db.(accounts := next.accounts, invitations := next.invitations, statements := next.statements)
  {
    match op
    case OpCreateAccount(account, quotaClass, bytes, mode) =>
      if CreateAccount(db, account, quotaClass, bytes, mode).Ok? {}
    case OpCreateInvitation(account, token, invitation, ttl, role) =>
      if CreateInvitation(db, now, account, token, invitation, ttl, role).Ok? {}
    case OpRevokeInvitation(account, invitation) =>
    case OpAppendStatement(account, blob) =>
      if AppendStatement(db, account, blob).Ok? {}
  }

  lemma DeviceOpFrame(db: Db, now: Nanos, op: DeviceOp)
    ensures var next := ApplyDeviceOp(db, now, op).0;
      next == db.(invitations := next.invitations, devices := next.devices, bundles := next.bundles)
  {
    match op
    case OpRegister(token, device, pub, push) =>
      if RegisterDevice(db, now, token, device, pub, push).Ok? {}
    case OpSetRole(account, device, role) =>
      if SetDeviceRole(db, account, device, role).Ok? {}
    case OpPromote(device) =>
      if PromoteDevice(db, device).Ok? {}
    case OpUpdatePush(device, push) =>
      if device in db.devices {}
    case OpSetBundle(device, blob) =>
      if SetBundle(db, device, blob).Ok? {}
    case OpSetDeviceQuota(device, bytes) =>
      if SetDeviceQuota(db, device, bytes).Ok? {}
  }

  lemma QueueOpFrame(db: Db, op: QueueOp)
    ensures var next := ApplyQueueOp(db, op).0;
      next == db.(queues := next.queues, senders := next.senders)
  {
    match op
    case OpCreateQueue(owner, key, rid, sid) =>
      if CreateQueue(db, owner, key, rid, sid).Ok? {}
    case OpBind(sid, key) =>
      if Bindable(db, sid) {}
    case OpSetQueueQuota(rid, bytes) =>
      if SetQueueQuota(db, rid, bytes).Ok? {}
  }

  lemma RetireOpFrame(db: Db, op: RetireOp)
    ensures var next := ApplyRetireOp(db, op).0;
      next == db.(devices := next.devices, queues := next.queues, messages := next.messages, bundles := next.bundles)
  {
    match op
    case OpRevoke(caller, device) =>
      if RevokeDevice(db, caller, device).Ok? {}
    case OpRetire(rid) =>
      if rid in db.queues {}
  }

  lemma MessageOpFrame(db: Db, now: Nanos, op: MessageOp)
    ensures var next := ApplyMessageOp(db, now, op).0;
      next == db.(messages := next.messages, lastSeq := next.lastSeq)
  {
    match op
    case OpAppend(rid, payload, ttl, id) =>
      if AppendMessage(db, now, rid, payload, ttl, id).Ok? {}
    case _ =>
  }

  /** The deletion a step makes on the messages table, if any. */
  function Deletion(db: Db, now: Nanos, op: Op): Option<Where> {
    match op
    case Retiring(OpRevoke(caller, id)) => if RevokeDevice(db, caller, id).Ok? then Some(OwnedBy(id)) else None
    case Retiring(OpRetire(rid)) => Some(InQueue(rid))
    case OnMessages(OpPurgeQueue(rid)) => Some(ExpiredIn(rid, Seconds(now)))
    case OnMessages(OpDelete(rid, ids)) => Some(Named(rid, ids))
    case OnMessages(OpPurge) => Some(Expired(Seconds(now)))
    case _ => None
  }

  function Kept(db: Db, gone: Option<Where>): seq<Message> {
    match gone
    case None => db.messages
    case Some(w) => Remaining(db.messages, db.queues, db.devices, w)
  }

  predicate Appends(db: Db, now: Nanos, op: Op) {
    && op.OnMessages? && op.message.OpAppend?
    && AppendMessage(db, now, op.message.rid, op.message.payload, op.message.ttl, op.message.id).Ok?
  }

  /** The row an accepted append adds. */
  function Appended(db: Db, now: Nanos, op: Op): Message
    requires Appends(db, now, op)
  {
    var o := op.message;
    Message(db.lastSeq + 1, o.id, o.rid, o.payload, Seconds(now), Seconds(now + o.ttl))
  }

  /** What a step does to the messages table: an append, a deletion, or nothing. */
  lemma MessagesAfter(db: Db, now: Nanos, op: Op)
    ensures Appends(db, now, op) ==> After(db, now, op).messages == db.messages + [Appended(db, now, op)]
    ensures !Appends(db, now, op) ==> After(db, now, op).messages == Kept(db, Deletion(db, now, op))
  {
    hide ApplyAccountOp, ApplyDeviceOp, ApplyQueueOp, ApplyRetireOp, ApplyMessageOp, RevokeDevice, AppendMessage;
    match op
    case OnAccounts(o) => AccountOpFrame(db, now, o);
    case OnDevices(o) => DeviceOpFrame(db, now, o);
    case OnQueues(o) => QueueOpFrame(db, o);
    case Retiring(o) => RetireOpMessages(db, now, o);
    case OnMessages(o) => MessageOpMessages(db, now, o);
    case Reading(query) =>
  }

  lemma RetireOpMessages(db: Db, now: Nanos, op: RetireOp)
    ensures ApplyRetireOp(db, op).0.messages == Kept(db, Deletion(db, now, Retiring(op)))
  {
    hide Remaining, RetireOwned, StripsLastAdmin;
    match op
    case OpRevoke(caller, id) =>
      if RevokeDevice(db, caller, id).Ok? {}
    case OpRetire(rid) =>
      if rid in db.queues {}
  }

  lemma MessageOpMessages(db: Db, now: Nanos, op: MessageOp)
    ensures Appends(db, now, OnMessages(op)) ==>
      ApplyMessageOp(db, now, op).0.messages == db.messages + [Appended(db, now, OnMessages(op))]
    ensures !Appends(db, now, OnMessages(op)) ==>
      ApplyMessageOp(db, now, op).0.messages == Kept(db, Deletion(db, now, OnMessages(op)))
  {
    hide HasRoom;
    match op
    case OpAppend(rid, payload, ttl, id) =>
      if AppendMessage(db, now, rid, payload, ttl, id).Ok? {}
    case _ =>
  }

  /** Foreign keys. */
  ghost predicate Linked(db: Db) {
    && (forall t :: t in db.invitations ==> db.invitations[t].account in db.accounts)
    && (forall d :: d in db.devices ==> db.devices[d].account in db.accounts)
    && (forall r :: r in db.queues ==> db.queues[r].owner in db.devices)
    && (forall m :: m in db.messages ==> m.queue in db.queues)
    && (forall d :: d in db.bundles ==> d in db.devices)
    && (forall a :: a in db.statements ==> a in db.accounts)
  }

  /** The sender index names every queue by its sender id, and nothing else. */
  ghost predicate Indexed(db: Db) {
    && (forall s :: s in db.senders ==> db.senders[s] in db.queues && db.queues[db.senders[s]].senderId == s)
    && (forall r :: r in db.queues ==> db.queues[r].senderId in db.senders && db.senders[db.queues[r].senderId] == r)
  }

  ghost predicate Valid(db: Db) {
    && Linked(db)
    && Indexed(db)
    && Ascending(db.messages, db.lastSeq)
    && (forall a :: a in db.accounts ==> db.accounts[a].quotaBytes > 0)
  }

  lemma EmptyIsValid()
    ensures Valid(EmptyDb)
  {
  }

  /** A deletion by any WHERE clause keeps a valid database valid. */
  lemma DeletionKeepsValid(db: Db, w: Where)
    requires Valid(db)
    ensures Valid(Without(db, w))
  {
    SelectedIff(db.messages, db.queues, db.devices, w);
    AscendingRemaining(db.messages, db.lastSeq, db.queues, db.devices, w);
  }

  lemma AppendKeepsValid(db: Db, now: Nanos, rid: Id, payload: Bytes, ttl: Nanos, id: Id)
    requires Valid(db)
    ensures AppendMessage(db, now, rid, payload, ttl, id).Ok?
        ==> Valid(AppendMessage(db, now, rid, payload, ttl, id).value)
  {
    var r := AppendMessage(db, now, rid, payload, ttl, id);
    if r.Ok? {
      var ms := r.value.messages;
      assert ms[..|ms| - 1] == db.messages;
      assert Ascending(ms, db.lastSeq + 1);
    }
  }

  lemma RetireOwnedKeepsLinks(db: Db, owner: Id)
    requires Linked(db)
    ensures Linked(db.(queues := RetireOwned(db.queues, owner)))
  {
  }

  lemma RetireOwnedKeepsIndex(db: Db, owner: Id)
    requires Indexed(db)
    ensures Indexed(db.(queues := RetireOwned(db.queues, owner)))
  {
  }

  lemma RetireOwnedKeepsValid(db: Db, owner: Id)
    requires Valid(db)
    ensures Valid(db.(queues := RetireOwned(db.queues, owner)))
  {
    hide Ascending, Linked, Indexed, RetireOwned;
    RetireOwnedKeepsLinks(db, owner);
    RetireOwnedKeepsIndex(db, owner);
  }

  lemma BundlesKeepValid(db: Db, bundles: map<Id, Bytes>)
    requires Valid(db) && forall d :: d in bundles ==> d in db.devices
    ensures Valid(db.(bundles := bundles))
  {
    hide Ascending;
  }

  lemma DisableKeepsValid(db: Db, id: Id)
    requires Valid(db)
    ensures Valid(Disable(db, id))
  {
    var kept := Without(db, OwnedBy(id));
    DeletionKeepsValid(db, OwnedBy(id));
    RetireOwnedKeepsValid(kept, id);
    var retired := kept.(queues := RetireOwned(db.queues, id));
    BundlesKeepFrom(retired, id);
    BundlesKeepValid(retired, db.bundles - {id});
    var bare := retired.(bundles := db.bundles - {id});
    hide Valid, Remaining, RetireOwned;
    if id in db.devices {
      DeviceHasAccount(bare, id);
      DeviceEditKeepsValid(bare, id, db.devices[id].(revoked := true, push := ""));
    }
  }

  lemma BundlesKeepFrom(db: Db, id: Id)
    requires Valid(db)
    ensures forall d :: d in db.bundles - {id} ==> d in db.devices
  {
  }

  lemma DeviceHasAccount(db: Db, id: Id)
    requires Valid(db) && id in db.devices
    ensures db.devices[id].account in db.accounts
  {
    hide Ascending;
  }

  lemma NewAccountKeepsValid(db: Db, id: Id, a: Account)
    requires Valid(db) && id !in db.accounts && a.quotaBytes > 0
    ensures Valid(db.(accounts := db.accounts[id := a]))
  {
    hide Ascending;
  }

  lemma InvitationsKeepValid(db: Db, invitations: Invitations)
    requires Valid(db) && forall t :: t in invitations ==> invitations[t].account in db.accounts
    ensures Valid(db.(invitations := invitations))
  {
    hide Ascending;
  }

  lemma InvitationEditKeepsValid(db: Db, token: Id, inv: Invitation)
    requires Valid(db) && inv.account in db.accounts
    ensures Valid(db.(invitations := db.invitations[token := inv]))
  {
    hide Ascending;
  }

  lemma StatementsKeepValid(db: Db, account: Id, log: seq<Statement>)
    requires Valid(db) && account in db.accounts
    ensures Valid(db.(statements := db.statements[account := log]))
  {
    hide Ascending;
  }

  lemma RevokedInvitationsKeepValid(db: Db, account: Id, id: Id)
    requires Valid(db)
    ensures Valid(RevokeInvitation(db, account, id).0)
  {
    hide Ascending;
    InvitationsKeepValid(db, RevokeInvitation(db, account, id).0.invitations);
  }

  lemma AccountOpKeepsValid(db: Db, now: Nanos, op: AccountOp)
    requires Valid(db)
    ensures Valid(ApplyAccountOp(db, now, op).0)
  {
    hide Valid, RevokeInvitation, AppendToLog;
    match op
    case OpCreateAccount(account, quotaClass, bytes, mode) =>
      var r := CreateAccount(db, account, quotaClass, bytes, mode);
      if r.Ok? { NewAccountKeepsValid(db, account, r.value.accounts[account]); }
    case OpCreateInvitation(account, token, invitation, ttl, role) =>
      var r := CreateInvitation(db, now, account, token, invitation, ttl, role);
      if r.Ok? { InvitationEditKeepsValid(db, token, r.value.invitations[token]); }
    case OpRevokeInvitation(account, invitation) => RevokedInvitationsKeepValid(db, account, invitation);
    case OpAppendStatement(account, blob) =>
      var r := AppendStatement(db, account, blob);
      if r.Ok? { StatementsKeepValid(db, account, r.value.statements[account]); }
  }

  /** A device row may change in any column but its account. */
  lemma DeviceEditKeepsValid(db: Db, id: Id, d: Device)
    requires Valid(db) && d.account in db.accounts
    ensures Valid(db.(devices := db.devices[id := d]))
  {
    hide Ascending;
  }

  lemma RegisterKeepsValid(db: Db, now: Nanos, token: Id, id: Id, pub: Key, push: string)
    requires Valid(db) && RegisterDevice(db, now, token, id, pub, push).Ok?
    ensures Valid(RegisterDevice(db, now, token, id, pub, push).value)
  {
    hide Valid, EnrolledRole;
    var next := RegisterDevice(db, now, token, id, pub, push).value;
    InvitationEditKeepsValid(db, token, next.invitations[token]);
    DeviceEditKeepsValid(db.(invitations := next.invitations), id, next.devices[id]);
  }

  lemma DeviceOpKeepsValid(db: Db, now: Nanos, op: DeviceOp)
    requires Valid(db)
    ensures Valid(ApplyDeviceOp(db, now, op).0)
  {
    hide Valid, RegisterDevice, StripsLastAdmin;
    match op
    case OpRegister(token, device, pub, push) =>
      if RegisterDevice(db, now, token, device, pub, push).Ok? {
        RegisterKeepsValid(db, now, token, device, pub, push);
      }
    case OpSetRole(account, device, role) =>
      var r := SetDeviceRole(db, account, device, role);
      if r.Ok? { DeviceEditKeepsValid(db, device, r.value.devices[device]); }
    case OpPromote(device) =>
      var r := PromoteDevice(db, device);
      if r.Ok? { DeviceEditKeepsValid(db, device, r.value.devices[device]); }
    case OpUpdatePush(device, push) =>
      if device in db.devices {
        DeviceHasAccount(db, device);
        DeviceEditKeepsValid(db, device, db.devices[device].(push := push));
      }
    case OpSetBundle(device, blob) =>
      if device in db.devices { BundleAddKeepsValid(db, device, blob); }
    case OpSetDeviceQuota(device, bytes) =>
      if device in db.devices {
        DeviceHasAccount(db, device);
        DeviceEditKeepsValid(db, device, db.devices[device].(quotaBytes := bytes));
      }
  }

  lemma BundleAddKeepsValid(db: Db, id: Id, blob: Bytes)
    requires Valid(db) && id in db.devices
    ensures Valid(db.(bundles := db.bundles[id := blob]))
  {
    hide Ascending;
    BundlesKeepValid(db, db.bundles[id := blob]);
  }

  /** A queue row whose owner and sender id stand may change in any other column. */
  lemma QueueEditKeepsValid(db: Db, rid: Id, q: Queue)
    requires Valid(db) && rid in db.queues
    requires q.owner == db.queues[rid].owner && q.senderId == db.queues[rid].senderId
    ensures Valid(db.(queues := db.queues[rid := q]))
  {
    hide Ascending;
  }

  lemma NewQueueKeepsLinks(db: Db, rid: Id, q: Queue, senders: map<Id, Id>)
    requires Linked(db) && q.owner in db.devices
    ensures Linked(db.(queues := db.queues[rid := q], senders := senders))
  {
  }

  lemma NewQueueKeepsIndex(db: Db, rid: Id, q: Queue)
    requires Indexed(db) && rid !in db.queues && q.senderId !in db.senders
    ensures Indexed(db.(queues := db.queues[rid := q], senders := db.senders[q.senderId := rid]))
  {
  }

  lemma CreateQueueKeepsValid(db: Db, owner: Id, key: Key, rid: Id, sid: Id)
    requires Valid(db) && CreateQueue(db, owner, key, rid, sid).Ok?
    ensures Valid(CreateQueue(db, owner, key, rid, sid).value)
  {
    hide Ascending, Linked, Indexed;
    var next := CreateQueue(db, owner, key, rid, sid).value;
    NewQueueKeepsLinks(db, rid, next.queues[rid], next.senders);
    NewQueueKeepsIndex(db, rid, next.queues[rid]);
  }

  lemma QueueOpKeepsValid(db: Db, op: QueueOp)
    requires Valid(db)
    ensures Valid(ApplyQueueOp(db, op).0)
  {
    hide Valid, CreateQueue;
    match op
    case OpCreateQueue(owner, key, rid, sid) =>
      if CreateQueue(db, owner, key, rid, sid).Ok? { CreateQueueKeepsValid(db, owner, key, rid, sid); }
    case OpSetQueueQuota(rid, bytes) =>
      if rid in db.queues { QueueEditKeepsValid(db, rid, db.queues[rid].(quotaBytes := bytes)); }
    case OpBind(sid, key) =>
      if Bindable(db, sid) {
        var rid := db.senders[sid];
        QueueEditKeepsValid(db, rid, db.queues[rid].(senderKey := Some(key)));
      }
  }

  lemma RetireOpKeepsValid(db: Db, op: RetireOp)
    requires Valid(db)
    ensures Valid(ApplyRetireOp(db, op).0)
  {
    hide Valid, Disable, Remaining, StripsLastAdmin;
    match op
    case OpRevoke(caller, device) =>
      DisableKeepsValid(db, device);
      if RevokeDevice(db, caller, device).Ok? {}
    case OpRetire(rid) =>
      DeletionKeepsValid(db, InQueue(rid));
      if rid in db.queues {
        QueueEditKeepsValid(Without(db, InQueue(rid)), rid, db.queues[rid].(retired := true));
      }
  }

  lemma MessageOpKeepsValid(db: Db, now: Nanos, op: MessageOp)
    requires Valid(db)
    ensures Valid(ApplyMessageOp(db, now, op).0)
  {
    match op
    case OpAppend(rid, payload, ttl, id) => AppendKeepsValid(db, now, rid, payload, ttl, id);
    case OpPurgeQueue(rid) => DeletionKeepsValid(db, ExpiredIn(rid, Seconds(now)));
    case OpDelete(rid, ids) => DeletionKeepsValid(db, Named(rid, ids));
    case OpPurge => DeletionKeepsValid(db, Expired(Seconds(now)));
  }

  /** Every step of the store keeps the database valid. */
  lemma StepKeepsValid(db: Db, now: Nanos, op: Op)
    requires Valid(db)
    ensures Valid(After(db, now, op))
  {
    match op
    case OnAccounts(o) => AccountOpKeepsValid(db, now, o);
    case OnDevices(o) => DeviceOpKeepsValid(db, now, o);
    case OnQueues(o) => QueueOpKeepsValid(db, o);
    case Retiring(o) => RetireOpKeepsValid(db, o);
    case OnMessages(o) => MessageOpKeepsValid(db, now, o);
    case Reading(query) =>
  }

  // ---- columns that never go back

  ghost predicate QueueAges(q: Queue, r: Queue) {
    && r.senderId == q.senderId && r.owner == q.owner && r.recipientKey == q.recipientKey
    && (q.senderKey.Some? ==> r.senderKey == q.senderKey)
    && (q.retired ==> r.retired)
  }

  ghost predicate DeviceAges(d: Device, e: Device) {
    e.account == d.account && e.publicKey == d.publicKey && (d.revoked ==> e.revoked)
  }

  ghost predicate InvitationAges(i: Invitation, j: Invitation) {
    && j.id == i.id && j.account == i.account && j.expires == i.expires && j.grants == i.grants
    && (i.consumed ==> j.consumed) && (i.revoked ==> j.revoked)
  }

  ghost predicate AccountsAge(before: Accounts, after: Accounts) {
    forall a :: a in before ==> a in after && after[a] == before[a]
  }

  ghost predicate InvitationsAge(before: Invitations, after: Invitations) {
    forall t :: t in before ==> t in after && InvitationAges(before[t], after[t])
  }

  ghost predicate DevicesAge(before: Devices, after: Devices) {
    forall d :: d in before ==> d in after && DeviceAges(before[d], after[d])
  }

  ghost predicate QueuesAge(before: Queues, after: Queues) {
    forall r :: r in before ==> r in after && QueueAges(before[r], after[r])
  }

  ghost predicate SendersAge(before: map<Id, Id>, after: map<Id, Id>) {
    forall s :: s in before ==> s in after && after[s] == before[s]
  }

  /** Rows of the keyed tables are never removed; identities, owners, bound sender keys and the
      revoked, retired and consumed flags are for ever. */
  ghost predicate Ages(db: Db, next: Db) {
    && AccountsAge(db.accounts, next.accounts)
    && InvitationsAge(db.invitations, next.invitations)
    && DevicesAge(db.devices, next.devices)
    && QueuesAge(db.queues, next.queues)
    && SendersAge(db.senders, next.senders)
    && db.lastSeq <= next.lastSeq
  }

  lemma AgesTransitive(a: Db, b: Db, c: Db)
    requires Ages(a, b) && Ages(b, c)
    ensures Ages(a, c)
  {
  }

  lemma SameAges(db: Db)
    ensures Ages(db, db)
  {
  }

  /** The tables without flags may change as they like. */
  lemma AsideAges(db: Db, next: Db)
    requires next == db.(messages := next.messages, lastSeq := next.lastSeq, bundles := next.bundles,
                         statements := next.statements)
    requires db.lastSeq <= next.lastSeq
    ensures Ages(db, next)
  {
  }

  lemma NewAccountAges(db: Db, id: Id, a: Account)
    requires id !in db.accounts
    ensures Ages(db, db.(accounts := db.accounts[id := a]))
  {
  }

  lemma DeviceEditAges(db: Db, id: Id, d: Device)
    requires id in db.devices ==> DeviceAges(db.devices[id], d)
    ensures Ages(db, db.(devices := db.devices[id := d]))
  {
  }

  lemma QueueEditAges(db: Db, id: Id, q: Queue)
    requires id in db.queues ==> QueueAges(db.queues[id], q)
    ensures Ages(db, db.(queues := db.queues[id := q]))
  {
  }

  lemma NewSenderAges(db: Db, sid: Id, rid: Id)
    requires sid !in db.senders
    ensures Ages(db, db.(senders := db.senders[sid := rid]))
  {
  }

  lemma InvitationEditAges(db: Db, token: Id, inv: Invitation)
    requires token in db.invitations ==> InvitationAges(db.invitations[token], inv)
    ensures Ages(db, db.(invitations := db.invitations[token := inv]))
  {
  }

  lemma RevokedInvitationsAge(db: Db, account: Id, id: Id)
    ensures Ages(db, RevokeInvitation(db, account, id).0)
  {
  }

  lemma RetireOwnedAges(db: Db, owner: Id)
    ensures Ages(db, db.(queues := RetireOwned(db.queues, owner)))
  {
  }

  lemma AccountOpAges(db: Db, now: Nanos, op: AccountOp)
    ensures Ages(db, ApplyAccountOp(db, now, op).0)
  {
    hide Ages, RevokeInvitation, AppendToLog;
    SameAges(db);
    match op
    case OpCreateAccount(account, quotaClass, bytes, mode) =>
      var r := CreateAccount(db, account, quotaClass, bytes, mode);
      if r.Ok? { NewAccountAges(db, account, r.value.accounts[account]); }
    case OpCreateInvitation(account, token, invitation, ttl, role) =>
      var r := CreateInvitation(db, now, account, token, invitation, ttl, role);
      if r.Ok? { InvitationEditAges(db, token, r.value.invitations[token]); }
    case OpRevokeInvitation(account, invitation) => RevokedInvitationsAge(db, account, invitation);
    case OpAppendStatement(account, blob) =>
      var r := AppendStatement(db, account, blob);
      if r.Ok? { AsideAges(db, r.value); }
  }

  lemma RegisterAges(db: Db, now: Nanos, token: Id, id: Id, pub: Key, push: string)
    requires RegisterDevice(db, now, token, id, pub, push).Ok?
    ensures Ages(db, RegisterDevice(db, now, token, id, pub, push).value)
  {
    hide Ages;
    var next := RegisterDevice(db, now, token, id, pub, push).value;
    var mid := db.(invitations := next.invitations);
    InvitationEditAges(db, token, next.invitations[token]);
    DeviceEditAges(mid, id, next.devices[id]);
    AgesTransitive(db, mid, next);
  }

  lemma DeviceOpAges(db: Db, now: Nanos, op: DeviceOp)
    ensures Ages(db, ApplyDeviceOp(db, now, op).0)
  {
    hide Ages, RegisterDevice, StripsLastAdmin;
    SameAges(db);
    match op
    case OpRegister(token, device, pub, push) =>
      if RegisterDevice(db, now, token, device, pub, push).Ok? { RegisterAges(db, now, token, device, pub, push); }
    case OpSetRole(account, device, role) =>
      var r := SetDeviceRole(db, account, device, role);
      if r.Ok? { DeviceEditAges(db, device, r.value.devices[device]); }
    case OpPromote(device) =>
      var r := PromoteDevice(db, device);
      if r.Ok? { DeviceEditAges(db, device, r.value.devices[device]); }
    case OpUpdatePush(device, push) =>
      if device in db.devices { DeviceEditAges(db, device, db.devices[device].(push := push)); }
    case OpSetBundle(device, blob) =>
      var r := SetBundle(db, device, blob);
      if r.Ok? { AsideAges(db, r.value); }
    case OpSetDeviceQuota(device, bytes) =>
      var r := SetDeviceQuota(db, device, bytes);
      if r.Ok? { DeviceEditAges(db, device, r.value.devices[device]); }
  }

  lemma CreateQueueAges(db: Db, owner: Id, key: Key, rid: Id, sid: Id)
    requires CreateQueue(db, owner, key, rid, sid).Ok?
    ensures Ages(db, CreateQueue(db, owner, key, rid, sid).value)
  {
    hide Ages;
    var next := CreateQueue(db, owner, key, rid, sid).value;
    var mid := db.(queues := next.queues);
    QueueEditAges(db, rid, next.queues[rid]);
    NewSenderAges(mid, sid, rid);
    AgesTransitive(db, mid, next);
  }

  lemma QueueOpAges(db: Db, op: QueueOp)
    ensures Ages(db, ApplyQueueOp(db, op).0)
  {
    hide Ages, CreateQueue;
    SameAges(db);
    match op
    case OpCreateQueue(owner, key, rid, sid) =>
      if CreateQueue(db, owner, key, rid, sid).Ok? { CreateQueueAges(db, owner, key, rid, sid); }
    case OpSetQueueQuota(rid, bytes) =>
      if rid in db.queues { QueueEditAges(db, rid, db.queues[rid].(quotaBytes := bytes)); }
    case OpBind(sid, key) =>
      if Bindable(db, sid) {
        var rid := db.senders[sid];
        QueueEditAges(db, rid, db.queues[rid].(senderKey := Some(key)));
      }
  }

  lemma DisableAges(db: Db, id: Id)
    ensures Ages(db, Disable(db, id))
  {
    hide Ages, Remaining, RetireOwned;
    var retired := db.(queues := RetireOwned(db.queues, id));
    RetireOwnedAges(db, id);
    var emptied := retired.(messages := Remaining(db.messages, db.queues, db.devices, OwnedBy(id)),
                            bundles := db.bundles - {id});
    AsideAges(retired, emptied);
    AgesTransitive(db, retired, emptied);
    if id in db.devices {
      DeviceEditAges(emptied, id, db.devices[id].(revoked := true, push := ""));
      AgesTransitive(db, emptied, Disable(db, id));
    }
  }

  lemma RetireOpAges(db: Db, op: RetireOp)
    ensures Ages(db, ApplyRetireOp(db, op).0)
  {
    hide Ages, Disable, Remaining, StripsLastAdmin;
    SameAges(db);
    match op
    case OpRevoke(caller, device) =>
      DisableAges(db, device);
      if RevokeDevice(db, caller, device).Ok? {}
    case OpRetire(rid) =>
      var kept := Without(db, InQueue(rid));
      AsideAges(db, kept);
      if rid in db.queues {
        QueueEditAges(kept, rid, db.queues[rid].(retired := true));
        AgesTransitive(db, kept, RetireQueue(db, rid));
      }
  }

  lemma MessageOpAges(db: Db, now: Nanos, op: MessageOp)
    ensures Ages(db, ApplyMessageOp(db, now, op).0)
  {
    hide Ages, Remaining, HasRoom, IdTaken;
    SameAges(db);
    match op
    case OpAppend(rid, payload, ttl, id) =>
      var r := AppendMessage(db, now, rid, payload, ttl, id);
      if r.Ok? { AsideAges(db, r.value); }
    case OpPurgeQueue(rid) => AsideAges(db, ApplyMessageOp(db, now, op).0);
    case OpDelete(rid, ids) => AsideAges(db, ApplyMessageOp(db, now, op).0);
    case OpPurge => AsideAges(db, ApplyMessageOp(db, now, op).0);
  }

  lemma StepAges(db: Db, now: Nanos, op: Op)
    ensures Ages(db, After(db, now, op))
  {
    hide Ages, ApplyAccountOp, ApplyDeviceOp, ApplyQueueOp, ApplyRetireOp, ApplyMessageOp;
    SameAges(db);
    match op
    case OnAccounts(o) => AccountOpAges(db, now, o);
    case OnDevices(o) => DeviceOpAges(db, now, o);
    case OnQueues(o) => QueueOpAges(db, o);
    case Retiring(o) => RetireOpAges(db, o);
    case OnMessages(o) => MessageOpAges(db, now, o);
    case Reading(query) =>
  }
}
