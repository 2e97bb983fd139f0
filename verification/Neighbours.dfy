/** A step on everything but one account is the same, and answered the same, without that account. */
module Neighbours {
  import opened Results
  import opened Tables
  import opened StoreSpec
  import opened RowFacts
  import opened Integrity
  import opened Tenancy

  /** Both databases step, stay mirrored, and reply alike. */
  ghost predicate Alike(w: (Db, Reply), r: (Db, Reply), a: Id) {
    Mirrors(w.0, r.0, a) && w.1 == r.1
  }

  lemma RevocableAlike(whole: Db, rest: Db, account: Id, id: Id, a: Id)
    requires Mirrors(whole, rest, a) && account != a
    ensures RevocableTokens(whole, account, id) == RevocableTokens(rest, account, id)
  {
    hide SameRows;
  }

  lemma RevokeInvitationAlike(whole: Db, rest: Db, account: Id, id: Id, a: Id)
    requires Mirrors(whole, rest, a) && account != a
    ensures var w, r := RevokeInvitation(whole, account, id), RevokeInvitation(rest, account, id);
      Mirrors(w.0, r.0, a) && w.1 == r.1
  {
    RevocableAlike(whole, rest, account, id, a);
    hide SameRows, RevocableTokens;
    var w, r := RevokeInvitation(whole, account, id).0, RevokeInvitation(rest, account, id).0;
    assert r.invitations == OutInvitations(w.invitations, a);
  }

  lemma CreateInvitationAlike(whole: Db, rest: Db, now: Nanos, account: Id, token: Id, id: Id, ttl: Nanos,
      role: string, a: Id)
    requires Mirrors(whole, rest, a) && account != a && token !in whole.invitations
    ensures
      var w := CreateInvitation(whole, now, account, token, id, ttl, role);
      var r := CreateInvitation(rest, now, account, token, id, ttl, role);
      && (w.Ok? <==> r.Ok?)
      && (w.Err? ==> w == r)
      && (w.Ok? ==> Mirrors(w.value, r.value, a))
  {
    hide SameRows, ParseRole;
    var w := CreateInvitation(whole, now, account, token, id, ttl, role);
    if w.Ok? { InvitationEditOut(whole.invitations, token, w.value.invitations[token], a); }
  }

  lemma CreateAccountAlike(whole: Db, rest: Db, account: Id, quotaClass: string, bytes: int, mode: string, a: Id)
    requires Mirrors(whole, rest, a) && account != a
    ensures
      var w := CreateAccount(whole, account, quotaClass, bytes, mode);
      var r := CreateAccount(rest, account, quotaClass, bytes, mode);
      && (w.Ok? <==> r.Ok?)
      && (w.Err? ==> w == r)
      && (w.Ok? ==> Mirrors(w.value, r.value, a))
  {
    hide SameRows, ParseMode, OutQueues, OutSenders, OutBundles, OutDevices, OutInvitations, ClassCeiling;
    var w := CreateAccount(whole, account, quotaClass, bytes, mode);
    var r := CreateAccount(rest, account, quotaClass, bytes, mode);
    if w.Ok? { assert r.value.accounts == w.value.accounts - {a}; }
  }

  lemma AppendStatementAlike(whole: Db, rest: Db, account: Id, blob: Bytes, a: Id)
    requires Mirrors(whole, rest, a) && account != a
    ensures Log(whole, account) == Log(rest, account)
    ensures
      var w, r := AppendStatement(whole, account, blob), AppendStatement(rest, account, blob);
      && (w.Ok? <==> r.Ok?)
      && (w.Err? ==> w == r)
      && (w.Ok? ==> Mirrors(w.value, r.value, a))
  {
    hide SameRows, AppendToLog, OutQueues, OutSenders, OutBundles, OutDevices, OutInvitations;
    var w, r := AppendStatement(whole, account, blob), AppendStatement(rest, account, blob);
    if w.Ok? { assert r.value.statements == w.value.statements - {a}; }
  }

  lemma AccountOpAlike(whole: Db, rest: Db, now: Nanos, op: AccountOp, a: Id)
    requires Mirrors(whole, rest, a) && op.account != a && FreshIds(whole, OnAccounts(op))
    ensures Alike(ApplyAccountOp(whole, now, op), ApplyAccountOp(rest, now, op), a)
  {
    hide Mirrors, CreateAccount, CreateInvitation, RevokeInvitation, AppendStatement, MaxSeqno, Log;
    match op
    case OpCreateAccount(account, quotaClass, bytes, mode) =>
      CreateAccountAlike(whole, rest, account, quotaClass, bytes, mode, a);
    case OpCreateInvitation(account, token, invitation, ttl, role) =>
      CreateInvitationAlike(whole, rest, now, account, token, invitation, ttl, role, a);
    case OpRevokeInvitation(account, invitation) => RevokeInvitationAlike(whole, rest, account, invitation, a);
    case OpAppendStatement(account, blob) => AppendStatementAlike(whole, rest, account, blob, a);
  }

  // ---- devices

  lemma DevicesAlike(whole: Db, rest: Db, account: Id, a: Id)
    requires Mirrors(whole, rest, a) && account != a
    ensures DevicesOf(whole.devices, account) == DevicesOf(rest.devices, account)
    ensures LiveDevices(whole.devices, account) == LiveDevices(rest.devices, account)
    ensures LiveAdmins(whole.devices, account) == LiveAdmins(rest.devices, account)
  {
    hide SameRows;
  }

  lemma DeviceRowAlike(whole: Db, rest: Db, d: Id, a: Id)
    requires Mirrors(whole, rest, a) && !DeviceIn(whole.devices, d, a)
    ensures d in whole.devices <==> d in rest.devices
    ensures d in whole.devices ==> whole.devices[d] == rest.devices[d] && whole.devices[d].account != a
  {
    hide SameRows;
  }

  lemma QueueRowAlike(whole: Db, rest: Db, q: Id, a: Id)
    requires Mirrors(whole, rest, a) && !QueueIn(whole.queues, whole.devices, q, a)
    ensures q in whole.queues <==> q in rest.queues
    ensures q in whole.queues ==> whole.queues[q] == rest.queues[q]
  {
    hide SameRows;
  }

  lemma SenderAlike(whole: Db, rest: Db, s: Id, a: Id)
    requires Mirrors(whole, rest, a)
    requires !(s in whole.senders && QueueIn(whole.queues, whole.devices, whole.senders[s], a))
    ensures s in whole.senders <==> s in rest.senders
    ensures s in whole.senders ==> whole.senders[s] == rest.senders[s]
  {
    hide SameRows;
  }

  /** A device row outside the account is added or edited in both. */
  lemma DeviceEditAlike(whole: Db, rest: Db, d: Id, x: Device, a: Id)
    requires Valid(whole) && Mirrors(whole, rest, a)
    requires x.account != a && (d in whole.devices ==> DeviceAges(whole.devices[d], x))
    ensures Mirrors(whole.(devices := whole.devices[d := x]), rest.(devices := rest.devices[d := x]), a)
  {
    hide SameRows, Ascending, QueueIn, DeviceIn, Ages, OutQueues, OutSenders, OutBundles, OutDevices, Indexed;
    var next := whole.(devices := whole.devices[d := x]);
    DeviceEditAges(whole, d, x);
    MembershipStable(whole, next, a);
    OutMessagesStable(whole, next, whole.messages, a);
    DeviceEditOut(whole.devices, d, x, a);
    OutQueuesStable(whole, next, a);
    OutSendersStable(whole, next, a);
    OutBundlesStable(whole, next, a);
  }

  lemma InvitationEditAlike(whole: Db, rest: Db, t: Id, x: Invitation, a: Id)
    requires Mirrors(whole, rest, a) && x.account != a
    requires t in whole.invitations ==> whole.invitations[t].account == x.account
    ensures Mirrors(whole.(invitations := whole.invitations[t := x]), rest.(invitations := rest.invitations[t := x]), a)
  {
    hide SameRows;
    InvitationEditOut(whole.invitations, t, x, a);
  }

  lemma RegisterAlike(whole: Db, rest: Db, now: Nanos, token: Id, d: Id, pub: Key, push: string, a: Id)
    requires Valid(whole) && Mirrors(whole, rest, a)
    requires !(token in whole.invitations && whole.invitations[token].account == a) && d !in whole.devices
    ensures Alike(ApplyDeviceOp(whole, now, OpRegister(token, d, pub, push)),
                  ApplyDeviceOp(rest, now, OpRegister(token, d, pub, push)), a)
  {
    var w, r := RegisterDevice(whole, now, token, d, pub, push), RegisterDevice(rest, now, token, d, pub, push);
    TokenAlike(whole, rest, token, a);
    DeviceRowAlike(whole, rest, d, a);
    if Redeemable(whole, now, token) && |pub| == KEY_SIZE {
      var inv := whole.invitations[token];
      DevicesAlike(whole, rest, inv.account, a);
      AccountAlike(whole, rest, inv.account, a);
      hide Mirrors, Valid, DevicesOf;
      if w.Ok? {
        DeviceEditAlike(whole, rest, d, w.value.devices[d], a);
        InvitationEditAlike(whole.(devices := w.value.devices), rest.(devices := r.value.devices),
                            token, inv.(consumed := true), a);
      }
    }
  }

  lemma TokenAlike(whole: Db, rest: Db, token: Id, a: Id)
    requires Mirrors(whole, rest, a) && !(token in whole.invitations && whole.invitations[token].account == a)
    ensures token in whole.invitations <==> token in rest.invitations
    ensures token in whole.invitations ==> whole.invitations[token] == rest.invitations[token]
  {
    hide SameRows;
  }

  lemma AccountAlike(whole: Db, rest: Db, account: Id, a: Id)
    requires Mirrors(whole, rest, a) && account != a
    ensures account in whole.accounts <==> account in rest.accounts
    ensures account in whole.accounts ==> whole.accounts[account] == rest.accounts[account]
  {
    hide SameRows;
  }

  lemma DeviceOpAlike(whole: Db, rest: Db, now: Nanos, op: DeviceOp, a: Id)
    requires Valid(whole) && Mirrors(whole, rest, a)
    requires !BelongsTo(whole, OnDevices(op), a) && FreshIds(whole, OnDevices(op))
    ensures Alike(ApplyDeviceOp(whole, now, op), ApplyDeviceOp(rest, now, op), a)
  {
    hide Valid, Mirrors;
    match op
    case OpRegister(token, device, pub, push) => RegisterAlike(whole, rest, now, token, device, pub, push, a);
    case OpSetRole(account, device, role) => SetRoleAlike(whole, rest, now, account, device, role, a);
    case OpPromote(device) =>
      DeviceRowAlike(whole, rest, device, a);
      if device in whole.devices {
        AccountAlike(whole, rest, whole.devices[device].account, a);
        DeviceEditAlike(whole, rest, device, whole.devices[device].(role := Admin), a);
      }
    case OpUpdatePush(device, push) =>
      DeviceRowAlike(whole, rest, device, a);
      if device in whole.devices { DeviceEditAlike(whole, rest, device, whole.devices[device].(push := push), a); }
    case OpSetBundle(device, blob) =>
      DeviceRowAlike(whole, rest, device, a);
      if device in whole.devices { BundleAlike(whole, rest, device, blob, a); }
    case OpSetDeviceQuota(device, bytes) =>
      DeviceRowAlike(whole, rest, device, a);
      if device in whole.devices {
        DeviceEditAlike(whole, rest, device, whole.devices[device].(quotaBytes := bytes), a);
      }
  }

  lemma BundleAlike(whole: Db, rest: Db, d: Id, blob: Bytes, a: Id)
    requires Mirrors(whole, rest, a) && !DeviceIn(whole.devices, d, a)
    ensures Mirrors(whole.(bundles := whole.bundles[d := blob]), rest.(bundles := rest.bundles[d := blob]), a)
  {
    hide SameRows;
    assert OutBundles(whole.bundles[d := blob], whole.devices, a) ==
      OutBundles(whole.bundles, whole.devices, a)[d := blob];
  }

  lemma SetRoleAlike(whole: Db, rest: Db, now: Nanos, account: Id, d: Id, role: string, a: Id)
    requires Valid(whole) && Mirrors(whole, rest, a) && account != a
    ensures Alike(ApplyDeviceOp(whole, now, OpSetRole(account, d, role)),
                  ApplyDeviceOp(rest, now, OpSetRole(account, d, role)), a)
  {
    AccountAlike(whole, rest, account, a);
    DevicesAlike(whole, rest, account, a);
    if d in LiveDevices(whole.devices, account) {
      DeviceRowAlike(whole, rest, d, a);
      hide Mirrors, Valid, LiveAdmins, ParseRole;
      match ParseRole(role)
      case None =>
      case Some(wanted) => DeviceEditAlike(whole, rest, d, whole.devices[d].(role := wanted), a);
    }
  }

  // ---- queues

  /** A queue row outside the account is added or edited in both. */
  lemma QueueEditAlike(whole: Db, rest: Db, r: Id, x: Queue, a: Id)
    requires Valid(whole) && Mirrors(whole, rest, a)
    requires !DeviceIn(whole.devices, x.owner, a) && (r in whole.queues ==> QueueAges(whole.queues[r], x))
    requires r !in whole.queues ==> forall s :: s in whole.senders ==> whole.senders[s] != r
    ensures Mirrors(whole.(queues := whole.queues[r := x]), rest.(queues := rest.queues[r := x]), a)
  {
    hide SameRows, Ascending;
    var next := whole.(queues := whole.queues[r := x]);
    QueueEditAges(whole, r, x);
    MembershipStable(whole, next, a);
    OutMessagesStable(whole, next, whole.messages, a);
    QueueEditOut(whole.queues, whole.devices, r, x, a);
    assert OutSenders(next.senders, next.queues, next.devices, a) ==
      OutSenders(whole.senders, whole.queues, whole.devices, a);
  }

  lemma NewSenderAlike(whole: Db, rest: Db, s: Id, r: Id, a: Id)
    requires Mirrors(whole, rest, a) && !QueueIn(whole.queues, whole.devices, r, a)
    ensures Mirrors(whole.(senders := whole.senders[s := r]), rest.(senders := rest.senders[s := r]), a)
  {
    hide SameRows;
    assert OutSenders(whole.senders[s := r], whole.queues, whole.devices, a)
        == OutSenders(whole.senders, whole.queues, whole.devices, a)[s := r];
  }

  lemma CreateQueueAlike(whole: Db, rest: Db, owner: Id, key: Key, rid: Id, sid: Id, a: Id)
    requires Valid(whole) && Mirrors(whole, rest, a)
    requires !DeviceIn(whole.devices, owner, a) && rid !in whole.queues && sid !in whole.senders
    ensures Alike(ApplyQueueOp(whole, OpCreateQueue(owner, key, rid, sid)),
                  ApplyQueueOp(rest, OpCreateQueue(owner, key, rid, sid)), a)
  {
    var w, r := CreateQueue(whole, owner, key, rid, sid), CreateQueue(rest, owner, key, rid, sid);
    DeviceRowAlike(whole, rest, owner, a);
    QueueRowAlike(whole, rest, rid, a);
    SenderAlike(whole, rest, sid, a);
    hide Mirrors, Linked, Ascending;
    if w.Ok? {
      QueueEditAlike(whole, rest, rid, w.value.queues[rid], a);
      NewSenderAlike(whole.(queues := w.value.queues), rest.(queues := r.value.queues), sid, rid, a);
    }
  }

  lemma QueueOpAlike(whole: Db, rest: Db, op: QueueOp, a: Id)
    requires Valid(whole) && Mirrors(whole, rest, a)
    requires !BelongsTo(whole, OnQueues(op), a) && FreshIds(whole, OnQueues(op))
    ensures Alike(ApplyQueueOp(whole, op), ApplyQueueOp(rest, op), a)
  {
    hide Valid, Mirrors;
    match op
    case OpCreateQueue(owner, key, rid, sid) => CreateQueueAlike(whole, rest, owner, key, rid, sid, a);
    case OpBind(sid, key) =>
      SenderAlike(whole, rest, sid, a);
      if sid in whole.senders {
        var rid := whole.senders[sid];
        QueueRowAlike(whole, rest, rid, a);
        if Bindable(whole, sid) { QueueEditAlike(whole, rest, rid, whole.queues[rid].(senderKey := Some(key)), a); }
      }
    case OpSetQueueQuota(rid, bytes) =>
      QueueRowAlike(whole, rest, rid, a);
      if rid in whole.queues { QueueEditAlike(whole, rest, rid, whole.queues[rid].(quotaBytes := bytes), a); }
  }

  // ---- messages

  lemma DeletionAlike(whole: Db, rest: Db, w: Where, a: Id)
    requires Linked(whole) && Mirrors(whole, rest, a)
    ensures Mirrors(Without(whole, w), Without(rest, w), a)
  {
    RestDeletes(whole, rest, a, w);
    hide SameRows;
  }

  /** What a selection outside the account finds is found in both. */
  lemma SelectionAlike(whole: Db, rest: Db, w: Where, a: Id)
    requires Linked(whole) && Mirrors(whole, rest, a)
    requires forall m :: m in whole.messages && Selects(whole.queues, whole.devices, w, m)
               ==> !Selects(whole.queues, whole.devices, InAccount(a), m)
    ensures SameRows(Selected(whole.messages, whole.queues, whole.devices, w),
                     Selected(rest.messages, rest.queues, rest.devices, w))
  {
    RestDeletes(whole, rest, a, w);
    hide SameRows, Mirrors, Linked;
    var ms := Selected(whole.messages, whole.queues, whole.devices, w);
    SelectedIff(whole.messages, whole.queues, whole.devices, w);
    forall i | 0 <= i < |ms| ensures !Selects(whole.queues, whole.devices, InAccount(a), ms[i]) {
      assert ms[i] in ms;
    }
    NothingSelected(ms, whole.queues, whole.devices, InAccount(a));
  }

  lemma IdAlike(whole: Db, rest: Db, id: Id, a: Id)
    requires Mirrors(whole, rest, a) && !IdTaken(whole.messages, id)
    ensures !IdTaken(rest.messages, id)
  {
    var ms := OutMessages(whole, a);
    SelectedIff(whole.messages, whole.queues, whole.devices, InAccount(a));
    forall i | 0 <= i < |rest.messages| ensures rest.messages[i].id != id {
      assert ms[i] in whole.messages;
    }
  }

  lemma RoomAlike(whole: Db, rest: Db, rid: Id, at: Stamp, size: nat, a: Id)
    requires Valid(whole) && Mirrors(whole, rest, a) && !QueueIn(whole.queues, whole.devices, rid, a)
    ensures Resolves(whole, rid) <==> Resolves(rest, rid)
    ensures Resolves(whole, rid) ==> (HasRoom(whole, rid, at, size) <==> HasRoom(rest, rid, at, size))
  {
    QueueRowAlike(whole, rest, rid, a);
    if rid in whole.queues {
      var owner := whole.queues[rid].owner;
      DeviceRowAlike(whole, rest, owner, a);
      AccountAlike(whole, rest, whole.devices[owner].account, a);
      RestStores(whole, rest, a, InQueue(rid), at);
      RestStores(whole, rest, a, OwnedBy(owner), at);
      RestStores(whole, rest, a, InAccount(whole.devices[owner].account), at);
      hide Mirrors, Stored, Indexed, Ascending;
    }
  }

  lemma RowAlike(whole: Db, rest: Db, m: Message, n: Message, a: Id)
    requires Mirrors(whole, rest, a) && !QueueIn(whole.queues, whole.devices, m.queue, a)
    requires n == m.(seqno := n.seqno)
    ensures Mirrors(whole.(messages := whole.messages + [m], lastSeq := m.seqno),
                    rest.(messages := rest.messages + [n], lastSeq := n.seqno), a)
  {
    RemainingSnoc(whole.messages, m, whole.queues, whole.devices, InAccount(a));
    SameRowsSnoc(OutMessages(whole, a), rest.messages, m, n);
    hide SameRows;
  }

  lemma AppendAlike(whole: Db, rest: Db, now: Nanos, rid: Id, payload: Bytes, ttl: Nanos, id: Id, a: Id)
    requires Valid(whole) && Mirrors(whole, rest, a)
    requires !QueueIn(whole.queues, whole.devices, rid, a) && !IdTaken(whole.messages, id)
    ensures
      var w, r := AppendMessage(whole, now, rid, payload, ttl, id), AppendMessage(rest, now, rid, payload, ttl, id);
      && (w.Ok? <==> r.Ok?)
      && (w.Err? ==> w == r)
      && (w.Ok? ==> Mirrors(w.value, r.value, a))
  {
    RoomAlike(whole, rest, rid, Seconds(now), |payload|, a);
    IdAlike(whole, rest, id, a);
    hide HasRoom, IdTaken, Valid, Mirrors, QueueIn;
    var w, r := AppendMessage(whole, now, rid, payload, ttl, id), AppendMessage(rest, now, rid, payload, ttl, id);
    if w.Ok? {
      var m := w.value.messages[|whole.messages|];
      var n := r.value.messages[|rest.messages|];
      RowAlike(whole, rest, m, n, a);
    }
  }

  lemma MessageOpAlike(whole: Db, rest: Db, now: Nanos, op: MessageOp, a: Id)
    requires Valid(whole) && Mirrors(whole, rest, a)
    requires !BelongsTo(whole, OnMessages(op), a) && FreshIds(whole, OnMessages(op)) && !op.OpPurge?
    ensures Alike(ApplyMessageOp(whole, now, op), ApplyMessageOp(rest, now, op), a)
  {
    hide Mirrors, AppendMessage, SameRows, Indexed, Ascending;
    match op
    case OpAppend(rid, payload, ttl, id) => AppendAlike(whole, rest, now, rid, payload, ttl, id, a);
    case OpPurgeQueue(rid) => DeletionAlike(whole, rest, ExpiredIn(rid, Seconds(now)), a);
    case OpDelete(rid, ids) =>
      DeletionAlike(whole, rest, Named(rid, ids), a);
      SelectionAlike(whole, rest, Named(rid, ids), a);
      SameRowsCount(Selected(whole.messages, whole.queues, whole.devices, Named(rid, ids)),
                    Selected(rest.messages, rest.queues, rest.devices, Named(rid, ids)));
  }

  lemma SameRowsCount(ms: seq<Message>, ns: seq<Message>)
    requires SameRows(ms, ns)
    ensures |ms| == |ns|
  {
  }

  /** A sweep thins both alike, though it may count more rows in the larger. */
  lemma PurgeAlike(whole: Db, rest: Db, now: Nanos, a: Id)
    requires Valid(whole) && Mirrors(whole, rest, a)
    ensures Mirrors(ApplyMessageOp(whole, now, OpPurge).0, ApplyMessageOp(rest, now, OpPurge).0, a)
  {
    DeletionAlike(whole, rest, Expired(Seconds(now)), a);
  }

  // ---- retirement

  lemma RetireOwnedAlike(whole: Db, rest: Db, d: Id, a: Id)
    requires Valid(whole) && Mirrors(whole, rest, a) && !DeviceIn(whole.devices, d, a)
    ensures Mirrors(whole.(queues := RetireOwned(whole.queues, d)), rest.(queues := RetireOwned(rest.queues, d)), a)
  {
    hide SameRows, Ascending, RetireOwned, QueueIn, DeviceIn, Ages, OutQueues, OutSenders, Indexed;
    var next := whole.(queues := RetireOwned(whole.queues, d));
    RetireOwnedAges(whole, d);
    MembershipStable(whole, next, a);
    OutMessagesStable(whole, next, whole.messages, a);
    RetireOwnedInRest(whole.queues, whole.devices, d, a);
    OutSendersStable(whole, next, a);
  }

  lemma RetireOwnedInRest(queues: Queues, devices: Devices, d: Id, a: Id)
    ensures OutQueues(RetireOwned(queues, d), devices, a) == RetireOwned(OutQueues(queues, devices, a), d)
  {
  }

  lemma DropBundleAlike(whole: Db, rest: Db, d: Id, a: Id)
    requires Mirrors(whole, rest, a)
    ensures Mirrors(whole.(bundles := whole.bundles - {d}), rest.(bundles := rest.bundles - {d}), a)
  {
    hide SameRows;
    assert OutBundles(whole.bundles - {d}, whole.devices, a) == OutBundles(whole.bundles, whole.devices, a) - {d};
  }

  lemma DisableAlike(whole: Db, rest: Db, d: Id, a: Id)
    requires Valid(whole) && Mirrors(whole, rest, a) && !DeviceIn(whole.devices, d, a)
    ensures Mirrors(Disable(whole, d), Disable(rest, d), a)
  {
    DeletionAlike(whole, rest, OwnedBy(d), a);
    DeviceRowAlike(whole, rest, d, a);
    hide Mirrors, Valid;
    DeletionKeepsValid(whole, OwnedBy(d));
    var w1, r1 := Without(whole, OwnedBy(d)), Without(rest, OwnedBy(d));
    RetireOwnedAlike(w1, r1, d, a);
    RetireOwnedKeepsValid(w1, d);
    var w2, r2 := w1.(queues := RetireOwned(w1.queues, d)), r1.(queues := RetireOwned(r1.queues, d));
    DropBundleAlike(w2, r2, d, a);
    var w3, r3 := w2.(bundles := w2.bundles - {d}), r2.(bundles := r2.bundles - {d});
    if d in whole.devices {
      DropBundleKeepsValid(w2, d);
      DeviceEditAlike(w3, r3, d, whole.devices[d].(revoked := true, push := ""), a);
    }
  }

  lemma DropBundleKeepsValid(db: Db, d: Id)
    requires Valid(db)
    ensures Valid(db.(bundles := db.bundles - {d}))
  {
  }

  lemma RevokeAlike(whole: Db, rest: Db, caller: Id, d: Id, a: Id)
    requires Valid(whole) && Mirrors(whole, rest, a) && !DeviceIn(whole.devices, d, a)
    ensures Alike(ApplyRetireOp(whole, OpRevoke(caller, d)), ApplyRetireOp(rest, OpRevoke(caller, d)), a)
  {
    DisableAlike(whole, rest, d, a);
    DeviceRowAlike(whole, rest, d, a);
    if d in whole.devices { DevicesAlike(whole, rest, whole.devices[d].account, a); }
    hide Valid, Mirrors, Disable, LiveDevices, LiveAdmins;
    assert RevokeDevice(whole, caller, d).Ok? <==> RevokeDevice(rest, caller, d).Ok?;
  }

  lemma RetireOpAlike(whole: Db, rest: Db, op: RetireOp, a: Id)
    requires Valid(whole) && Mirrors(whole, rest, a) && !BelongsTo(whole, Retiring(op), a)
    ensures Alike(ApplyRetireOp(whole, op), ApplyRetireOp(rest, op), a)
  {
    match op
    case OpRevoke(caller, device) => RevokeAlike(whole, rest, caller, device, a);
    case OpRetire(rid) =>
      DeletionAlike(whole, rest, InQueue(rid), a);
      QueueRowAlike(whole, rest, rid, a);
      DeletionKeepsValid(whole, InQueue(rid));
      hide Valid, Mirrors;
      if rid in whole.queues {
        QueueEditAlike(Without(whole, InQueue(rid)), Without(rest, InQueue(rid)),
                       rid, whole.queues[rid].(retired := true), a);
      }
  }

  // ---- queries

  lemma QueryAlike(whole: Db, rest: Db, now: Nanos, query: Query, a: Id)
    requires Valid(whole) && Mirrors(whole, rest, a) && !BelongsTo(whole, Reading(query), a)
    ensures Answer(whole, now, query) == Answer(rest, now, query)
  {
    hide Indexed, Ascending;
    match query
    case OpListInvitations(account) => InvitationsAlike(whole, rest, now, account, a);
    case OpGetBundle(d) => BundleRowAlike(whole, rest, d, a);
    case OpListDevices(account) => ListAlike(whole, rest, account, a);
    case OpReadQuota(d, account) =>
      AccountAlike(whole, rest, account, a);
      RestStores(whole, rest, a, OwnedBy(d), Seconds(now));
      hide Mirrors, Linked, Stored;
    case OpSelectQueue(rid) =>
      SelectionAlike(whole, rest, InQueue(rid), a);
      SameRowsDeliver(Selected(whole.messages, whole.queues, whole.devices, InQueue(rid)),
                      Selected(rest.messages, rest.queues, rest.devices, InQueue(rid)));
    case OpListStatements(account, since) => LogAlike(whole, rest, account, a);
  }

  lemma LogAlike(whole: Db, rest: Db, account: Id, a: Id)
    requires Mirrors(whole, rest, a) && account != a
    ensures Log(whole, account) == Log(rest, account)
  {
    hide SameRows;
  }

  lemma ListAlike(whole: Db, rest: Db, account: Id, a: Id)
    requires Mirrors(whole, rest, a) && account != a
    ensures ListDevices(whole, account) == ListDevices(rest, account)
  {
    hide SameRows;
  }

  lemma BundleRowAlike(whole: Db, rest: Db, d: Id, a: Id)
    requires Mirrors(whole, rest, a) && !DeviceIn(whole.devices, d, a)
    ensures d in whole.bundles <==> d in rest.bundles
    ensures d in whole.bundles ==> whole.bundles[d] == rest.bundles[d]
  {
    hide SameRows;
  }

  lemma InvitationsAlike(whole: Db, rest: Db, now: Nanos, account: Id, a: Id)
    requires Mirrors(whole, rest, a) && account != a
    ensures ListInvitations(whole, now, account) == ListInvitations(rest, now, account)
  {
    hide SameRows;
    var w, r := ListInvitations(whole, now, account), ListInvitations(rest, now, account);
    forall v | v in w ensures v in r {
      var t :| t in whole.invitations && Outstanding(whole.invitations[t], account, Seconds(now))
        && v == InvitationView(whole.invitations[t].id, whole.invitations[t].expires);
      assert t in rest.invitations && rest.invitations[t] == whole.invitations[t];
    }
    forall v | v in r ensures v in w {
      var t :| t in rest.invitations && Outstanding(rest.invitations[t], account, Seconds(now))
        && v == InvitationView(rest.invitations[t].id, rest.invitations[t].expires);
      assert t in whole.invitations && rest.invitations[t] == whole.invitations[t];
    }
  }

  /** A step outside the account, but for a sweep's count, is the same step without the account. */
  lemma NeighbourStep(whole: Db, rest: Db, now: Nanos, op: Op, a: Id)
    requires Valid(whole) && Mirrors(whole, rest, a) && !BelongsTo(whole, op, a) && FreshIds(whole, op)
    requires op != OnMessages(OpPurge)
    ensures Alike(Apply(whole, now, op), Apply(rest, now, op), a)
  {
    hide Valid, Mirrors, ApplyAccountOp, ApplyDeviceOp, ApplyQueueOp, ApplyRetireOp, ApplyMessageOp, Answer, FreshIds;
    match op
    case OnAccounts(o) => AccountOpAlike(whole, rest, now, o, a);
    case OnDevices(o) => DeviceOpAlike(whole, rest, now, o, a);
    case OnQueues(o) => QueueOpAlike(whole, rest, o, a);
    case Retiring(o) => RetireOpAlike(whole, rest, o, a);
    case OnMessages(o) => MessageOpAlike(whole, rest, now, o, a);
    case Reading(query) => QueryAlike(whole, rest, now, query, a);
  }
}
