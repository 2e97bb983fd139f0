/**
  Tenants: an account's part of the database, and everything else.  What a step on behalf of one
  account does to the rest (nothing), and what a step on the rest does without that account (the same).
  */
module Tenancy {
  import opened Results
  import opened Tables
  import opened StoreSpec
  import opened RowFacts
  import opened Integrity
  import opened Quotas

  // ---- everything but one account

  predicate QueueIn(queues: Queues, devices: Devices, r: Id, a: Id) {
    r in queues && queues[r].owner in devices && devices[queues[r].owner].account == a
  }

  predicate DeviceIn(devices: Devices, d: Id, a: Id) {
    d in devices && devices[d].account == a
  }

  function OutInvitations(invitations: Invitations, a: Id): Invitations {
    map t | t in invitations && invitations[t].account != a :: invitations[t]
  }

  function OutDevices(devices: Devices, a: Id): Devices {
    map d | d in devices && devices[d].account != a :: devices[d]
  }

  function OutQueues(queues: Queues, devices: Devices, a: Id): Queues {
    map r | r in queues && !QueueIn(queues, devices, r, a) :: queues[r]
  }

  function OutSenders(senders: map<Id, Id>, queues: Queues, devices: Devices, a: Id): map<Id, Id> {
    map s | s in senders && !QueueIn(queues, devices, senders[s], a) :: senders[s]
  }

  function OutBundles(bundles: map<Id, Bytes>, devices: Devices, a: Id): map<Id, Bytes> {
    map d | d in bundles && !DeviceIn(devices, d, a) :: bundles[d]
  }

  function OutMessages(db: Db, a: Id): seq<Message> {
    Remaining(db.messages, db.queues, db.devices, InAccount(a))
  }

  /** Equal up to rowids.  Both tables being in rowid order, the rowids match by an
      order-preserving renumbering. */
  ghost predicate SameRows(ms: seq<Message>, ns: seq<Message>) {
    |ms| == |ns| && forall i :: 0 <= i < |ms| ==> ns[i] == ms[i].(seqno := ns[i].seqno)
  }

  /** `rest` is `whole` without account a, up to message rowids. */
  ghost predicate Mirrors(whole: Db, rest: Db, a: Id) {
    && rest.accounts == whole.accounts - {a}
    && rest.invitations == OutInvitations(whole.invitations, a)
    && rest.devices == OutDevices(whole.devices, a)
    && rest.queues == OutQueues(whole.queues, whole.devices, a)
    && rest.senders == OutSenders(whole.senders, whole.queues, whole.devices, a)
    && rest.bundles == OutBundles(whole.bundles, whole.devices, a)
    && rest.statements == whole.statements - {a}
    && SameRows(OutMessages(whole, a), rest.messages)
  }

  // ---- tables under edits

  lemma DeviceEditOut(devices: Devices, d: Id, x: Device, a: Id)
    requires d in devices ==> devices[d].account == x.account
    ensures OutDevices(devices[d := x], a) ==
      if x.account == a then OutDevices(devices, a) else OutDevices(devices, a)[d := x]
  {
  }

  lemma InvitationEditOut(invitations: Invitations, t: Id, x: Invitation, a: Id)
    requires t in invitations ==> invitations[t].account == x.account
    ensures OutInvitations(invitations[t := x], a)
         == if x.account == a then OutInvitations(invitations, a) else OutInvitations(invitations, a)[t := x]
  {
  }

  lemma QueueEditOut(queues: Queues, devices: Devices, r: Id, x: Queue, a: Id)
    requires r in queues ==> queues[r].owner == x.owner
    ensures OutQueues(queues[r := x], devices, a) ==
      var out := OutQueues(queues, devices, a);
      if DeviceIn(devices, x.owner, a) then out else out[r := x]
  {
  }

  /** Who is in the account does not depend on the columns that change, or on rows that are added. */
  lemma MembershipStable(whole: Db, next: Db, a: Id)
    requires Linked(whole) && Ages(whole, next)
    ensures forall r :: r in whole.queues ==>
      QueueIn(next.queues, next.devices, r, a) == QueueIn(whole.queues, whole.devices, r, a)
    ensures forall d :: d in whole.devices ==> DeviceIn(next.devices, d, a) == DeviceIn(whole.devices, d, a)
  {
    forall r | r in whole.queues
      ensures QueueIn(next.queues, next.devices, r, a) == QueueIn(whole.queues, whole.devices, r, a)
    {
      assert QueueAges(whole.queues[r], next.queues[r]);
      assert DeviceAges(whole.devices[whole.queues[r].owner], next.devices[whole.queues[r].owner]);
    }
    forall d | d in whole.devices ensures DeviceIn(next.devices, d, a) == DeviceIn(whole.devices, d, a) {
      assert DeviceAges(whole.devices[d], next.devices[d]);
    }
  }

  lemma OutSendersStable(whole: Db, next: Db, a: Id)
    requires Indexed(whole) && next.senders == whole.senders
    requires forall r :: r in whole.queues ==>
      QueueIn(next.queues, next.devices, r, a) == QueueIn(whole.queues, whole.devices, r, a)
    ensures OutSenders(next.senders, next.queues, next.devices, a) ==
      OutSenders(whole.senders, whole.queues, whole.devices, a)
  {
    hide QueueIn;
  }

  lemma OutBundlesStable(whole: Db, next: Db, a: Id)
    requires Linked(whole) && next.bundles == whole.bundles
    requires forall d :: d in whole.devices ==> DeviceIn(next.devices, d, a) == DeviceIn(whole.devices, d, a)
    ensures OutBundles(next.bundles, next.devices, a) == OutBundles(whole.bundles, whole.devices, a)
  {
    hide DeviceIn;
  }

  lemma OutQueuesStable(whole: Db, next: Db, a: Id)
    requires next.queues == whole.queues
    requires forall r :: r in whole.queues ==>
      QueueIn(next.queues, next.devices, r, a) == QueueIn(whole.queues, whole.devices, r, a)
    ensures OutQueues(next.queues, next.devices, a) == OutQueues(whole.queues, whole.devices, a)
  {
    hide QueueIn;
  }

  /** Rows that stayed are in or out of the account as before. */
  lemma OutMessagesStable(whole: Db, next: Db, ms: seq<Message>, a: Id)
    requires Linked(whole) && Ages(whole, next)
    requires forall m :: m in ms ==> m.queue in whole.queues
    ensures Remaining(ms, next.queues, next.devices, InAccount(a)) ==
      Remaining(ms, whole.queues, whole.devices, InAccount(a))
  {
    JoinsStable(ms, whole, next, InAccount(a));
    ChoiceDecides(ms, whole.queues, whole.devices, InAccount(a), next.queues, next.devices, InAccount(a));
  }

  // ---- rows up to rowids

  lemma {:induction false} SameRowsDelete(ms: seq<Message>, ns: seq<Message>, queues: Queues, devices: Devices,
      w: Where)
    requires SameRows(ms, ns)
    ensures SameRows(Remaining(ms, queues, devices, w), Remaining(ns, queues, devices, w))
    ensures SameRows(Selected(ms, queues, devices, w), Selected(ns, queues, devices, w))
  {
    if ms != [] {
      var i, j := ms[..|ms| - 1], ns[..|ns| - 1];
      SameRowsInit(ms, ns);
      SameRowsDelete(i, j, queues, devices, w);
      var m, n := ms[|ms| - 1], ns[|ns| - 1];
      assert Selects(queues, devices, w, m) == Selects(queues, devices, w, n);
      SameRowsSnoc(Remaining(i, queues, devices, w), Remaining(j, queues, devices, w), m, n);
      SameRowsSnoc(Selected(i, queues, devices, w), Selected(j, queues, devices, w), m, n);
    }
  }

  lemma SameRowsInit(ms: seq<Message>, ns: seq<Message>)
    requires SameRows(ms, ns) && ms != []
    ensures SameRows(ms[..|ms| - 1], ns[..|ns| - 1])
    ensures ns[|ns| - 1] == ms[|ms| - 1].(seqno := ns[|ns| - 1].seqno)
  {
  }

  lemma SameRowsSnoc(ms: seq<Message>, ns: seq<Message>, m: Message, n: Message)
    requires SameRows(ms, ns) && n == m.(seqno := n.seqno)
    ensures SameRows(ms + [m], ns + [n])
  {
  }

  lemma {:induction false} SameRowsWeigh(ms: seq<Message>, ns: seq<Message>, queues: Queues, devices: Devices,
      w: Where, at: Stamp)
    requires SameRows(ms, ns)
    ensures LiveBytes(ms, queues, devices, w, at) == LiveBytes(ns, queues, devices, w, at)
  {
    if ms != [] {
      SameRowsInit(ms, ns);
      SameRowsWeigh(ms[..|ms| - 1], ns[..|ns| - 1], queues, devices, w, at);
      assert Selects(queues, devices, w, ms[|ms| - 1]) == Selects(queues, devices, w, ns[|ns| - 1]);
    }
  }

  lemma {:induction false} SameRowsDeliver(ms: seq<Message>, ns: seq<Message>)
    requires SameRows(ms, ns)
    ensures Deliveries(ms) == Deliveries(ns)
  {
    assert forall i :: 0 <= i < |ms| ==> Deliver(ms[i]) == Deliver(ns[i]);
  }

  /** The joins choose the same of the remaining rows in both databases. */
  lemma RestJoins(whole: Db, rest: Db, a: Id, w: Where)
    requires Linked(whole) && Mirrors(whole, rest, a)
    ensures SameChoice(OutMessages(whole, a), whole.queues, whole.devices, w, rest.queues, rest.devices, w)
  {
    hide SameRows;
    var ms := OutMessages(whole, a);
    SelectedIff(whole.messages, whole.queues, whole.devices, InAccount(a));
    forall i | 0 <= i < |ms|
      ensures Selects(whole.queues, whole.devices, w, ms[i]) == Selects(rest.queues, rest.devices, w, ms[i])
    {
      assert ms[i] in ms;
      var q := ms[i].queue;
      assert !QueueIn(whole.queues, whole.devices, q, a);
      assert q in rest.queues && rest.queues[q] == whole.queues[q];
    }
  }

  /** Deleting from both leaves them mirrored; so does selecting. */
  lemma RestDeletes(whole: Db, rest: Db, a: Id, w: Where)
    requires Linked(whole) && Mirrors(whole, rest, a)
    ensures
      var kept := Remaining(whole.messages, whole.queues, whole.devices, w);
      SameRows(Remaining(kept, whole.queues, whole.devices, InAccount(a)),
               Remaining(rest.messages, rest.queues, rest.devices, w))
    ensures
      var chosen := Selected(whole.messages, whole.queues, whole.devices, w);
      SameRows(Remaining(chosen, whole.queues, whole.devices, InAccount(a)),
               Selected(rest.messages, rest.queues, rest.devices, w))
  {
    RestJoins(whole, rest, a, w);
    hide Mirrors, Linked;
    var ms := OutMessages(whole, a);
    assert SameRows(ms, rest.messages) by { MirrorRows(whole, rest, a); }
    DeletionsCommute(whole.messages, whole.queues, whole.devices, w, InAccount(a));
    DeletionsCommute(whole.messages, whole.queues, whole.devices, InAccount(a), w);
    ChoiceDecides(ms, whole.queues, whole.devices, w, rest.queues, rest.devices, w);
    SameRowsDelete(ms, rest.messages, rest.queues, rest.devices, w);
  }

  lemma MirrorRows(whole: Db, rest: Db, a: Id)
    requires Mirrors(whole, rest, a)
    ensures SameRows(OutMessages(whole, a), rest.messages)
  {
  }

  /** A level outside the account holds the same bytes in both. */
  lemma RestStores(whole: Db, rest: Db, a: Id, w: Where, at: Stamp)
    requires Linked(whole) && Mirrors(whole, rest, a)
    requires forall m :: m in whole.messages && Selects(whole.queues, whole.devices, w, m)
               ==> !Selects(whole.queues, whole.devices, InAccount(a), m)
    ensures Stored(whole, w, at) == Stored(rest, w, at)
  {
    RestJoins(whole, rest, a, w);
    MirrorRows(whole, rest, a);
    hide Mirrors, Linked;
    var ms := OutMessages(whole, a);
    DeletionShrinks(whole.messages, whole.queues, whole.devices, InAccount(a), w, at);
    ChoiceWeighs(ms, whole.queues, whole.devices, w, rest.queues, rest.devices, w, at);
    SameRowsWeigh(ms, rest.messages, rest.queues, rest.devices, w, at);
  }

  // ---- whose step it is

  /** The step works on rows of the account. */
  predicate BelongsTo(db: Db, op: Op, a: Id) {
    match op
    case OnAccounts(o) => o.account == a
    case OnDevices(o) =>
      (match o
       case OpRegister(token, _, _, _) => token in db.invitations && db.invitations[token].account == a
       case OpSetRole(account, _, _) => account == a
       case OpPromote(d) => DeviceIn(db.devices, d, a)
       case OpUpdatePush(d, _) => DeviceIn(db.devices, d, a)
       case OpSetBundle(d, _) => DeviceIn(db.devices, d, a)
       case OpSetDeviceQuota(d, _) => DeviceIn(db.devices, d, a))
    case OnQueues(o) =>
      (match o
       case OpCreateQueue(owner, _, _, _) => DeviceIn(db.devices, owner, a)
       case OpBind(sid, _) => sid in db.senders && QueueIn(db.queues, db.devices, db.senders[sid], a)
       case OpSetQueueQuota(rid, _) => QueueIn(db.queues, db.devices, rid, a))
    case Retiring(o) =>
      (match o
       case OpRevoke(_, d) => DeviceIn(db.devices, d, a)
       case OpRetire(rid) => QueueIn(db.queues, db.devices, rid, a))
    case OnMessages(o) => !o.OpPurge? && QueueIn(db.queues, db.devices, o.rid, a)
    case Reading(o) =>
      (match o
       case OpListInvitations(account) => account == a
       case OpGetBundle(d) => DeviceIn(db.devices, d, a)
       case OpListDevices(account) => account == a
       case OpReadQuota(d, account) => DeviceIn(db.devices, d, a) || account == a
       case OpSelectQueue(rid) => QueueIn(db.queues, db.devices, rid, a)
       case OpListStatements(account, _) => account == a)
  }

  /** The ids the step brings are in no row yet. */
  predicate FreshIds(db: Db, op: Op) {
    match op
    case OnAccounts(OpCreateInvitation(_, token, _, _, _)) => token !in db.invitations
    case OnDevices(OpRegister(_, device, _, _)) => device !in db.devices
    case OnQueues(OpCreateQueue(_, _, rid, sid)) => rid !in db.queues && sid !in db.senders
    case OnMessages(OpAppend(_, _, _, id)) => !IdTaken(db.messages, id)
    case _ => true
  }

  // ---- a step of the account leaves the rest alone

  lemma AccountOpOwn(whole: Db, rest: Db, now: Nanos, op: AccountOp, a: Id)
    requires Mirrors(whole, rest, a) && op.account == a
    ensures Mirrors(ApplyAccountOp(whole, now, op).0, rest, a)
  {
    hide SameRows;
    match op
    case OpCreateAccount(account, quotaClass, bytes, mode) =>
      if CreateAccount(whole, account, quotaClass, bytes, mode).Ok? {}
    case OpCreateInvitation(account, token, invitation, ttl, role) =>
      var r := CreateInvitation(whole, now, account, token, invitation, ttl, role);
      if r.Ok? { InvitationEditOut(whole.invitations, token, r.value.invitations[token], a); }
    case OpRevokeInvitation(account, invitation) =>
      assert OutInvitations(RevokeInvitation(whole, account, invitation).0.invitations, a) ==
        OutInvitations(whole.invitations, a);
    case OpAppendStatement(account, blob) =>
      if AppendStatement(whole, account, blob).Ok? {}
  }

  /** A device row of the account is added or edited. */
  lemma DeviceEditOwn(whole: Db, rest: Db, d: Id, x: Device, a: Id)
    requires Valid(whole) && Mirrors(whole, rest, a)
    requires x.account == a && (d in whole.devices ==> DeviceAges(whole.devices[d], x))
    ensures Mirrors(whole.(devices := whole.devices[d := x]), rest, a)
  {
    hide SameRows, Ascending, QueueIn, DeviceIn, Ages, OutQueues, OutSenders, OutBundles, OutDevices, Indexed;
    var next := whole.(devices := whole.devices[d := x]);
    DeviceEditAges(whole, d, x);
    MembershipStable(whole, next, a);
    OutMessagesStable(whole, next, whole.messages, a);
    DeviceEditOut(whole.devices, d, x, a);
    OutQueuesStable(whole, next, a);
    OutSendersStable(whole, next, a);
    OutBundlesStable(whole, next, a);
  }

  lemma DeviceOpOwn(whole: Db, rest: Db, now: Nanos, op: DeviceOp, a: Id)
    requires Valid(whole) && Mirrors(whole, rest, a) && BelongsTo(whole, OnDevices(op), a)
    ensures Mirrors(ApplyDeviceOp(whole, now, op).0, rest, a)
  {
    hide Valid, Mirrors;
    match op
    case OpRegister(token, device, pub, push) =>
      var r := RegisterDevice(whole, now, token, device, pub, push);
      if r.Ok? {
        DeviceEditOwn(whole, rest, device, r.value.devices[device], a);
        InvitationOwn(whole.(devices := r.value.devices), rest, token, r.value.invitations[token], a);
      }
    case OpSetRole(account, device, role) =>
      var r := SetDeviceRole(whole, account, device, role);
      if r.Ok? { DeviceEditOwn(whole, rest, device, r.value.devices[device], a); }
    case OpPromote(device) =>
      var r := PromoteDevice(whole, device);
      if r.Ok? { DeviceEditOwn(whole, rest, device, r.value.devices[device], a); }
    case OpUpdatePush(device, push) =>
      DeviceEditOwn(whole, rest, device, whole.devices[device].(push := push), a);
    case OpSetBundle(device, blob) => BundleOwn(whole, rest, device, blob, a);
    case OpSetDeviceQuota(device, bytes) =>
      var r := SetDeviceQuota(whole, device, bytes);
      if r.Ok? { DeviceEditOwn(whole, rest, device, r.value.devices[device], a); }
  }

  lemma InvitationOwn(whole: Db, rest: Db, t: Id, x: Invitation, a: Id)
    requires Mirrors(whole, rest, a) && x.account == a
    requires t in whole.invitations ==> whole.invitations[t].account == a
    ensures Mirrors(whole.(invitations := whole.invitations[t := x]), rest, a)
  {
    hide SameRows;
    InvitationEditOut(whole.invitations, t, x, a);
  }

  lemma BundleOwn(whole: Db, rest: Db, d: Id, blob: Bytes, a: Id)
    requires Mirrors(whole, rest, a) && DeviceIn(whole.devices, d, a)
    ensures Mirrors(SetBundle(whole, d, blob).value, rest, a)
  {
    hide SameRows;
    assert OutBundles(whole.bundles[d := blob], whole.devices, a) == OutBundles(whole.bundles, whole.devices, a);
  }

  /** A queue row of the account is edited. */
  lemma QueueEditOwn(whole: Db, rest: Db, r: Id, x: Queue, a: Id)
    requires Valid(whole) && Mirrors(whole, rest, a)
    requires DeviceIn(whole.devices, x.owner, a) && (r in whole.queues ==> QueueAges(whole.queues[r], x))
    requires r !in whole.queues ==> forall s :: s in whole.senders ==> whole.senders[s] != r
    ensures Mirrors(whole.(queues := whole.queues[r := x]), rest, a)
  {
    hide SameRows, Ascending;
    var next := whole.(queues := whole.queues[r := x]);
    QueueEditAges(whole, r, x);
    MembershipStable(whole, next, a);
    OutMessagesStable(whole, next, whole.messages, a);
    QueueEditOut(whole.queues, whole.devices, r, x, a);
    assert OutSenders(next.senders, next.queues, next.devices, a) ==
      OutSenders(whole.senders, whole.queues, whole.devices, a);
  }

  lemma SenderOwn(whole: Db, rest: Db, s: Id, r: Id, a: Id)
    requires Mirrors(whole, rest, a) && s !in whole.senders && QueueIn(whole.queues, whole.devices, r, a)
    ensures Mirrors(whole.(senders := whole.senders[s := r]), rest, a)
  {
    hide SameRows;
    assert OutSenders(whole.senders[s := r], whole.queues, whole.devices, a) ==
      OutSenders(whole.senders, whole.queues, whole.devices, a);
  }

  lemma QueueOpOwn(whole: Db, rest: Db, op: QueueOp, a: Id)
    requires Valid(whole) && Mirrors(whole, rest, a) && BelongsTo(whole, OnQueues(op), a)
    ensures Mirrors(ApplyQueueOp(whole, op).0, rest, a)
  {
    hide Mirrors, Linked, Ascending;
    match op
    case OpCreateQueue(owner, key, rid, sid) =>
      var r := CreateQueue(whole, owner, key, rid, sid);
      if r.Ok? {
        QueueEditOwn(whole, rest, rid, r.value.queues[rid], a);
        SenderOwn(whole.(queues := r.value.queues), rest, sid, rid, a);
      }
    case OpBind(sid, key) =>
      if Bindable(whole, sid) {
        var rid := whole.senders[sid];
        QueueEditOwn(whole, rest, rid, whole.queues[rid].(senderKey := Some(key)), a);
      }
    case OpSetQueueQuota(rid, bytes) =>
      QueueEditOwn(whole, rest, rid, whole.queues[rid].(quotaBytes := bytes), a);
  }

  /** Rows of the account are deleted. */
  lemma DeletionOwn(whole: Db, rest: Db, w: Where, a: Id)
    requires Mirrors(whole, rest, a)
    requires forall m :: m in whole.messages && Selects(whole.queues, whole.devices, w, m)
               ==> Selects(whole.queues, whole.devices, InAccount(a), m)
    ensures Mirrors(Without(whole, w), rest, a)
  {
    hide SameRows;
    DeletionsCommute(whole.messages, whole.queues, whole.devices, InAccount(a), w);
    var ms := OutMessages(whole, a);
    SelectedIff(whole.messages, whole.queues, whole.devices, InAccount(a));
    forall i | 0 <= i < |ms| ensures !Selects(whole.queues, whole.devices, w, ms[i]) {
      assert ms[i] in ms;
    }
    NothingSelected(ms, whole.queues, whole.devices, w);
  }

  lemma AppendOwn(whole: Db, rest: Db, now: Nanos, rid: Id, payload: Bytes, ttl: Nanos, id: Id, a: Id)
    requires Mirrors(whole, rest, a) && QueueIn(whole.queues, whole.devices, rid, a)
    requires AppendMessage(whole, now, rid, payload, ttl, id).Ok?
    ensures Mirrors(AppendMessage(whole, now, rid, payload, ttl, id).value, rest, a)
  {
    hide SameRows, HasRoom;
    var next := AppendMessage(whole, now, rid, payload, ttl, id).value;
    RemainingSnoc(whole.messages, next.messages[|whole.messages|], whole.queues, whole.devices, InAccount(a));
  }

  lemma MessageOpOwn(whole: Db, rest: Db, now: Nanos, op: MessageOp, a: Id)
    requires Mirrors(whole, rest, a) && BelongsTo(whole, OnMessages(op), a)
    ensures Mirrors(ApplyMessageOp(whole, now, op).0, rest, a)
  {
    hide Mirrors, AppendMessage;
    match op
    case OpAppend(rid, payload, ttl, id) =>
      if AppendMessage(whole, now, rid, payload, ttl, id).Ok? { AppendOwn(whole, rest, now, rid, payload, ttl, id, a); }
    case OpPurgeQueue(rid) => DeletionOwn(whole, rest, ExpiredIn(rid, Seconds(now)), a);
    case OpDelete(rid, ids) => DeletionOwn(whole, rest, Named(rid, ids), a);
  }

  lemma RetireOpOwn(whole: Db, rest: Db, op: RetireOp, a: Id)
    requires Valid(whole) && Mirrors(whole, rest, a) && BelongsTo(whole, Retiring(op), a)
    ensures Mirrors(ApplyRetireOp(whole, op).0, rest, a)
  {
    hide Mirrors, Valid;
    match op
    case OpRevoke(caller, device) =>
      if RevokeDevice(whole, caller, device).Ok? { DisableOwn(whole, rest, device, a); }
    case OpRetire(rid) =>
      DeletionOwn(whole, rest, InQueue(rid), a);
      DeletionKeepsValid(whole, InQueue(rid));
      QueueEditOwn(Without(whole, InQueue(rid)), rest, rid, whole.queues[rid].(retired := true), a);
  }

  lemma DisableOwn(whole: Db, rest: Db, d: Id, a: Id)
    requires Valid(whole) && Mirrors(whole, rest, a) && DeviceIn(whole.devices, d, a)
    ensures Mirrors(Disable(whole, d), rest, a)
  {
    hide Mirrors, Valid;
    DeletionOwn(whole, rest, OwnedBy(d), a);
    DeletionKeepsValid(whole, OwnedBy(d));
    var w1 := Without(whole, OwnedBy(d));
    RetireOwnedOwn(w1, rest, d, a);
    DisableKeepsValid(whole, d);
    var w2 := w1.(queues := RetireOwned(w1.queues, d));
    RetireOwnedKeepsValid(w1, d);
    DeviceEditOwn(w2, rest, d, whole.devices[d].(revoked := true, push := ""), a);
    var w3 := w2.(devices := w2.devices[d := whole.devices[d].(revoked := true, push := "")]);
    DropBundleOwn(w3, rest, d, a);
  }

  lemma RetireOwnedOut(queues: Queues, devices: Devices, d: Id, a: Id)
    requires DeviceIn(devices, d, a)
    ensures OutQueues(RetireOwned(queues, d), devices, a) == OutQueues(queues, devices, a)
  {
  }

  lemma RetireOwnedOwn(whole: Db, rest: Db, d: Id, a: Id)
    requires Valid(whole) && Mirrors(whole, rest, a) && DeviceIn(whole.devices, d, a)
    ensures Mirrors(whole.(queues := RetireOwned(whole.queues, d)), rest, a)
  {
    hide SameRows, Ascending, RetireOwned, QueueIn, DeviceIn, Ages, Indexed;
    var next := whole.(queues := RetireOwned(whole.queues, d));
    RetireOwnedAges(whole, d);
    MembershipStable(whole, next, a);
    OutMessagesStable(whole, next, whole.messages, a);
    RetireOwnedOut(whole.queues, whole.devices, d, a);
    OutSendersStable(whole, next, a);
  }

  lemma DropBundleOwn(whole: Db, rest: Db, d: Id, a: Id)
    requires Mirrors(whole, rest, a) && DeviceIn(whole.devices, d, a)
    ensures Mirrors(whole.(bundles := whole.bundles - {d}), rest, a)
  {
    hide SameRows;
    assert OutBundles(whole.bundles - {d}, whole.devices, a) == OutBundles(whole.bundles, whole.devices, a);
  }

  /** A step on rows of the account leaves everything else exactly as it was. */
  lemma OwnStep(whole: Db, rest: Db, now: Nanos, op: Op, a: Id)
    requires Valid(whole) && Mirrors(whole, rest, a) && BelongsTo(whole, op, a)
    ensures Mirrors(After(whole, now, op), rest, a)
  {
    hide Valid, Mirrors, ApplyAccountOp, ApplyDeviceOp, ApplyQueueOp, ApplyRetireOp, ApplyMessageOp, Answer;
    match op
    case OnAccounts(o) => AccountOpOwn(whole, rest, now, o, a);
    case OnDevices(o) => DeviceOpOwn(whole, rest, now, o, a);
    case OnQueues(o) => QueueOpOwn(whole, rest, o, a);
    case Retiring(o) => RetireOpOwn(whole, rest, o, a);
    case OnMessages(o) => MessageOpOwn(whole, rest, now, o, a);
    case Reading(query) =>
  }
}
