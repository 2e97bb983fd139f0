/**
  The store itself: tables updated in place, one method for each of its operations.  A method
  that fails leaves the tables as they were, as its transaction's rollback does.
  */
module Persistence {
  import opened Results
  import opened Tables
  import opened StoreSpec
  import opened RowFacts

  /** The method did to the tables what the result says, and reports its error if it has one. */
  ghost predicate Outcome(before: Db, after: Db, r: Result<Db, Error>, err: Option<Error>) {
    match r
    case Ok(next) => err == None && after == next
    case Err(e) => err == Some(e) && after == before
  }

  /** Counting a set's members among the rows passed over, one row at a time. */
  lemma CountStep<T>(all: set<T>, left: set<T>, x: T)
    requires x in left
    ensures |all - (left - {x})| == |all - left| + if x in all then 1 else 0
  {
    if x in all {
      assert all - (left - {x}) == all - left + {x};
    } else {
      assert all - (left - {x}) == all - left;
    }
  }

  lemma CountEnds<T>(all: set<T>, rows: set<T>)
    requires all <= rows
    ensures |all - rows| == 0 && |all - {}| == |all|
  {
    assert all - rows == {};
    assert all - {} == all;
  }

  /** The row an UPDATE of revocable invitations leaves. */
  function Settled(inv: Invitation, account: Id, id: Id): Invitation {
    if Revocable(inv, account, id) then inv.(revoked := true) else inv
  }

  /** The table when the UPDATE has passed over all but some of its rows. */
  function SettledBut(before: Invitations, left: set<Id>, account: Id, id: Id): Invitations {
    map t | t in before :: if t in left then before[t] else Settled(before[t], account, id)
  }

  lemma SettleOne(before: Invitations, left: set<Id>, t: Id, account: Id, id: Id)
    requires t in before && t in left
    ensures t in SettledBut(before, left, account, id) && SettledBut(before, left, account, id)[t] == before[t]
    ensures SettledBut(before, left - {t}, account, id)
         == SettledBut(before, left, account, id)[t := Settled(before[t], account, id)]
  {
    hide Revocable;
  }

  lemma SettledAlready(m: Invitations, t: Id, account: Id, id: Id)
    requires t in m && !Revocable(m[t], account, id)
    ensures m[t := Settled(m[t], account, id)] == m
  {
    hide Revocable;
  }

  lemma SettledNoneAll(db: Db, account: Id, id: Id)
    ensures SettledBut(db.invitations, db.invitations.Keys, account, id) == db.invitations
    ensures SettledBut(db.invitations, {}, account, id) == StoreSpec.RevokeInvitation(db, account, id).0.invitations
  {
    hide Revocable;
  }

  lemma HitIff(db: Db, account: Id, id: Id, t: Id)
    requires t in db.invitations
    ensures t in RevocableTokens(db, account, id) <==> Revocable(db.invitations[t], account, id)
    ensures RevocableTokens(db, account, id) <= db.invitations.Keys
  {
  }

  /** The views of the outstanding invitations among some rows. */
  function Listed(invitations: Invitations, rows: set<Id>, account: Id, at: Stamp): set<InvitationView> {
    set t | t in invitations && t in rows && Outstanding(invitations[t], account, at)
      :: InvitationView(invitations[t].id, invitations[t].expires)
  }

  lemma ListOne(invitations: Invitations, rows: set<Id>, t: Id, account: Id, at: Stamp)
    requires t in invitations
    ensures
      var view := InvitationView(invitations[t].id, invitations[t].expires);
      Listed(invitations, rows + {t}, account, at) ==
        Listed(invitations, rows, account, at) + if Outstanding(invitations[t], account, at) then {view} else {}
  {
    hide Outstanding;
  }

  /** A live device of the account, and an admin if only those count. */
  predicate Counts(d: Device, account: Id, adminsOnly: bool) {
    d.account == account && !d.revoked && (adminsOnly ==> d.role == Admin)
  }

  function Others(devices: Devices, account: Id, id: Id, adminsOnly: bool): set<Id> {
    set d | d in devices && d != id && Counts(devices[d], account, adminsOnly)
  }

  lemma OthersAre(devices: Devices, account: Id, id: Id)
    ensures Others(devices, account, id, true) == LiveAdmins(devices, account) - {id}
    ensures Others(devices, account, id, false) == LiveDevices(devices, account) - {id}
  {
  }

  class Store {
    var accounts: Accounts
    var invitations: Invitations
    var devices: Devices
    var queues: Queues
    var senders: map<Id, Id>
    var messages: seq<Message>
    var lastSeq: nat
    var bundles: map<Id, Bytes>
    var statements: map<Id, seq<Statement>>

    ghost function Contents(): Db
      reads this
    {
      Db(accounts, invitations, devices, queues, senders, messages, lastSeq, bundles, statements)
    }

    constructor ()
      ensures Contents() == EmptyDb
    {
      accounts, invitations, devices, queues, senders := map[], map[], map[], map[], map[];
      messages, lastSeq, bundles, statements := [], 0, map[], map[];
    }

    // ---- queries and deletions on the messages table

    /** SELECT COALESCE(SUM(LENGTH(payload)), 0) ... WHERE w AND expires > at. */
    method StoredBytes(w: Where, at: Stamp) returns (used: nat)
      ensures used == Stored(Contents(), w, at)
    {
      used := 0;
      for i := 0 to |messages|
        invariant used == LiveBytes(messages[..i], queues, devices, w, at)
      {
        var m := messages[i];
        if Selects(queues, devices, w, m) && m.expires > at {
          used := used + |m.payload|;
        }
        assert messages[..i + 1] == messages[..i] + [m];
        RemainingSnoc(messages[..i], m, queues, devices, w, at);
      }
      assert messages[..|messages|] == messages;
    }

    /** DELETE FROM messages WHERE w; returns the rows affected. */
    method DeleteWhere(w: Where) returns (n: nat)
      modifies `messages
      ensures Contents() == old(Without(Contents(), w))
      ensures n == old(|Selected(messages, queues, devices, w)|)
    {
      var kept := [];
      n := 0;
      for i := 0 to |messages|
        invariant messages == old(messages)
        invariant kept == Remaining(messages[..i], queues, devices, w)
        invariant n == |Selected(messages[..i], queues, devices, w)|
      {
        var m := messages[i];
        if Selects(queues, devices, w, m) {
          n := n + 1;
        } else {
          kept := kept + [m];
        }
        assert messages[..i + 1] == messages[..i] + [m];
        RemainingSnoc(messages[..i], m, queues, devices, w);
      }
      assert messages[..|messages|] == messages;
      messages := kept;
    }

    /** SELECT ... WHERE queue_id = rid ORDER BY seq. */
    method ReadQueue(rid: Id) returns (out: seq<Delivery>)
      ensures out == SelectQueue(Contents(), rid)
    {
      out := [];
      ghost var rows := [];
      for i := 0 to |messages|
        invariant rows == Selected(messages[..i], queues, devices, InQueue(rid))
        invariant out == Deliveries(rows)
      {
        var m := messages[i];
        assert messages[..i + 1] == messages[..i] + [m];
        RemainingSnoc(messages[..i], m, queues, devices, InQueue(rid));
        if m.queue == rid {
          DeliveriesSnoc(rows, m);
          out := out + [Delivery(m.id, m.queue, m.payload, m.receivedAt, m.expires)];
          rows := rows + [m];
        }
      }
      assert messages[..|messages|] == messages;
    }

    // ---- queues and messages

    method CreateQueue(owner: Id, key: Key, rid: Id, sid: Id) returns (err: Option<Error>)
      modifies this
      ensures Outcome(old(Contents()), Contents(), StoreSpec.CreateQueue(old(Contents()), owner, key, rid, sid), err)
    {
      if |key| != KEY_SIZE { return Some(Invalid); }
      if rid in queues || sid in senders || owner !in devices { return Some(Constraint); }
      queues := queues[rid := Queue(sid, owner, key, None, false, 0)];
      senders := senders[sid := rid];
      return None;
    }

    method BindSenderKey(sid: Id, key: Key) returns (bound: Result<bool, Error>)
      modifies `queues
      ensures match StoreSpec.BindSenderKey(old(Contents()), sid, key)
              case Ok(pair) => bound == Ok(pair.1) && Contents() == pair.0
              case Err(e) => bound == Err(e) && Contents() == old(Contents())
    {
      if |key| != KEY_SIZE { return Err(Invalid); }
      if sid in senders && senders[sid] in queues {
        var rid := senders[sid];
        if queues[rid].senderKey.None? && !queues[rid].retired {
          queues := queues[rid := queues[rid].(senderKey := Some(key))];
          return Ok(true);
        }
      }
      return Ok(false);
    }

    method RetireQueue(rid: Id)
      modifies `messages, `queues
      ensures Contents() == StoreSpec.RetireQueue(old(Contents()), rid)
    {
      var _ := DeleteWhere(InQueue(rid));
      if rid in queues {
        queues := queues[rid := queues[rid].(retired := true)];
      }
    }

    /** The three ceilings, narrowest first; each is summed only if it is set. */
    method RoomFor(rid: Id, at: Stamp, size: nat) returns (room: bool)
      requires Resolves(Contents(), rid)
      ensures room == HasRoom(Contents(), rid, at, size)
    {
      var owner := queues[rid].owner;
      var account := devices[owner].account;
      var queueQuota, deviceQuota, accountQuota :=
        queues[rid].quotaBytes, devices[owner].quotaBytes, accounts[account].quotaBytes;
      if queueQuota > 0 {
        var used := StoredBytes(InQueue(rid), at);
        if used + size > queueQuota { return false; }
      }
      if deviceQuota > 0 {
        var used := StoredBytes(OwnedBy(owner), at);
        if used + size > deviceQuota { return false; }
      }
      if accountQuota > 0 {
        var used := StoredBytes(InAccount(account), at);
        if used + size > accountQuota { return false; }
      }
      return true;
    }

    method TakenId(id: Id) returns (taken: bool)
      ensures taken == IdTaken(messages, id)
    {
      for i := 0 to |messages|
        invariant forall j :: 0 <= j < i ==> messages[j].id != id
      {
        if messages[i].id == id { return true; }
      }
      return false;
    }

    method AppendMessage(now: Nanos, rid: Id, payload: Bytes, ttl: Nanos, id: Id) returns (err: Option<Error>)
      modifies `messages, `lastSeq
      ensures Outcome(old(Contents()), Contents(),
                      StoreSpec.AppendMessage(old(Contents()), now, rid, payload, ttl, id), err)
    {
      if rid !in queues || queues[rid].owner !in devices || devices[queues[rid].owner].account !in accounts {
        return Some(QueueNotFound);
      }
      var room := RoomFor(rid, Seconds(now), |payload|);
      if !room { return Some(QuotaExceeded); }
      var taken := TakenId(id);
      if taken { return Some(Constraint); }
      lastSeq := lastSeq + 1;
      messages := messages + [Message(lastSeq, id, rid, payload, Seconds(now), Seconds(now + ttl))];
      return None;
    }

    /** Purges the queue's expired rows, then reads the others in rowid order. */
    method DrainMessages(now: Nanos, rid: Id) returns (out: seq<Delivery>)
      modifies `messages
      ensures Contents() == Without(old(Contents()), ExpiredIn(rid, Seconds(now)))
      ensures out == SelectQueue(Contents(), rid)
    {
      var _ := DeleteWhere(ExpiredIn(rid, Seconds(now)));
      out := ReadQueue(rid);
    }

    method DeleteMessages(rid: Id, ids: seq<Id>) returns (n: nat)
      modifies `messages
      ensures (Contents(), n) == StoreSpec.DeleteMessages(old(Contents()), rid, ids)
    {
      if |ids| == 0 {
        NothingSelected(messages, queues, devices, Named(rid, ids));
        return 0;
      }
      n := DeleteWhere(Named(rid, ids));
    }

    method PurgeExpired(now: Nanos) returns (n: nat)
      modifies `messages
      ensures (Contents(), n) == StoreSpec.PurgeExpired(old(Contents()), now)
    {
      n := DeleteWhere(Expired(Seconds(now)));
    }

    // ---- ceilings

    method SetDeviceQuota(id: Id, bytes: int) returns (err: Option<Error>)
      modifies `devices
      ensures Outcome(old(Contents()), Contents(), StoreSpec.SetDeviceQuota(old(Contents()), id, bytes), err)
    {
      if id !in devices || devices[id].revoked { return Some(QuotaNotChanged); }
      devices := devices[id := devices[id].(quotaBytes := bytes)];
      return None;
    }

    method SetQueueQuota(rid: Id, bytes: int) returns (err: Option<Error>)
      modifies `queues
      ensures Outcome(old(Contents()), Contents(), StoreSpec.SetQueueQuota(old(Contents()), rid, bytes), err)
    {
      if rid !in queues || queues[rid].retired { return Some(QuotaNotChanged); }
      queues := queues[rid := queues[rid].(quotaBytes := bytes)];
      return None;
    }

    // ---- accounts and invitations

    method CreateAccount(id: Id, quotaClass: string, bytes: int, mode: string) returns (err: Option<Error>)
      modifies `accounts
      ensures Outcome(old(Contents()), Contents(),
                      StoreSpec.CreateAccount(old(Contents()), id, quotaClass, bytes, mode), err)
    {
      var ceiling := bytes;
      if ceiling <= 0 { ceiling := ClassCeiling(quotaClass); }
      var parsed := ParseMode(mode);
      if parsed.None? { return Some(Invalid); }
      if id in accounts { return Some(Constraint); }
      accounts := accounts[id := Account(ceiling, parsed.value)];
      return None;
    }

    method CreateInvitation(now: Nanos, account: Id, token: Id, id: Id, ttl: Nanos, role: string)
      returns (err: Option<Error>)
      modifies `invitations
      ensures Outcome(old(Contents()), Contents(),
                      StoreSpec.CreateInvitation(old(Contents()), now, account, token, id, ttl, role), err)
    {
      var asked := role;
      if asked == "" { asked := "member"; }
      var grants := ParseRole(asked);
      if grants.None? { return Some(Invalid); }
      if account !in accounts { return Some(DeviceNotFound); }
      var granted := grants.value;
      if accounts[account].mode != Managed { granted := Admin; }
      if token in invitations { return Some(Constraint); }
      invitations := invitations[token := Invitation(id, account, Seconds(now + ttl), false, false, granted)];
      return None;
    }

    /** UPDATE invitations SET revoked = 1 WHERE ...; reports whether exactly one row changed. */
    method RevokeInvitation(account: Id, id: Id) returns (revoked: bool)
      modifies `invitations
      ensures (Contents(), revoked) == StoreSpec.RevokeInvitation(old(Contents()), account, id)
    {
      ghost var db := Contents();
      ghost var hit := RevocableTokens(db, account, id);
      SettledNoneAll(db, account, id);
      CountEnds(hit, invitations.Keys);
      var left := invitations.Keys;
      var n := 0;
      hide Revocable, SettledBut, RevocableTokens;
      while left != {}
        invariant left <= db.invitations.Keys
        invariant invitations == SettledBut(db.invitations, left, account, id)
        invariant n == |hit - left|
        decreases left
      {
        var t :| t in left;
        CountStep(hit, left, t);
        HitIff(db, account, id, t);
        SettleOne(db.invitations, left, t, account, id);
        if Revocable(invitations[t], account, id) {
          invitations := invitations[t := invitations[t].(revoked := true)];
          n := n + 1;
        } else {
          SettledAlready(invitations, t, account, id);
        }
        left := left - {t};
      }
      revoked := n == 1;
    }

    /** The account's outstanding invitations. */
    method ListInvitations(now: Nanos, account: Id) returns (views: set<InvitationView>)
      ensures views == StoreSpec.ListInvitations(Contents(), now, account)
    {
      views := {};
      var left := invitations.Keys;
      while left != {}
        invariant left <= invitations.Keys
        invariant views == Listed(invitations, invitations.Keys - left, account, Seconds(now))
        decreases left
      {
        var t :| t in left;
        ListOne(invitations, invitations.Keys - left, t, account, Seconds(now));
        assert invitations.Keys - (left - {t}) == invitations.Keys - left + {t};
        left := left - {t};
        if Outstanding(invitations[t], account, Seconds(now)) {
          views := views + {InvitationView(invitations[t].id, invitations[t].expires)};
        }
      }
      assert invitations.Keys - {} == invitations.Keys;
    }

    // ---- devices

    /** SELECT COUNT(*) FROM devices WHERE account_id = account. */
    method CountDevices(account: Id) returns (n: nat)
      ensures n == |DevicesOf(devices, account)|
    {
      ghost var all := DevicesOf(devices, account);
      var left := devices.Keys;
      CountEnds(all, left);
      n := 0;
      while left != {}
        invariant left <= devices.Keys
        invariant n == |all - left|
        decreases left
      {
        var d :| d in left;
        CountStep(all, left, d);
        if devices[d].account == account {
          n := n + 1;
        }
        left := left - {d};
      }
    }

    /** The two counts of the last-admin check: live admins, or live devices, besides one. */
    method CountOthers(account: Id, id: Id, adminsOnly: bool) returns (n: nat)
      ensures n == |Others(devices, account, id, adminsOnly)|
    {
      ghost var all := Others(devices, account, id, adminsOnly);
      var left := devices.Keys;
      CountEnds(all, left);
      n := 0;
      while left != {}
        invariant left <= devices.Keys
        invariant n == |all - left|
        decreases left
      {
        var d :| d in left;
        CountStep(all, left, d);
        if d != id && Counts(devices[d], account, adminsOnly) {
          n := n + 1;
        }
        left := left - {d};
      }
    }

    /** Fails if the device is the account's only live admin, but for an account that empties. */
    method AssertNotLastAdmin(account: Id, id: Id, allowIfAccountEmpties: bool) returns (ok: bool)
      ensures ok == !StripsLastAdmin(devices, account, id, allowIfAccountEmpties)
    {
      OthersAre(devices, account, id);
      var otherAdmins := CountOthers(account, id, true);
      if otherAdmins > 0 { return true; }
      if !allowIfAccountEmpties { return false; }
      var otherDevices := CountOthers(account, id, false);
      return otherDevices == 0;
    }

    method RegisterDevice(now: Nanos, token: Id, id: Id, pub: Key, push: string) returns (err: Option<Error>)
      modifies `invitations, `devices
      ensures Outcome(old(Contents()), Contents(),
                      StoreSpec.RegisterDevice(old(Contents()), now, token, id, pub, push), err)
    {
      if |pub| != KEY_SIZE { return Some(Invalid); }
      if token !in invitations || invitations[token].consumed || invitations[token].revoked
         || invitations[token].expires <= Seconds(now) {
        return Some(InvalidInvitation);
      }
      var inv := invitations[token];
      if inv.account !in accounts { return Some(NoRows); }
      var role := Admin;
      if accounts[inv.account].mode == Managed {
        role := inv.grants;
        var everRegistered := CountDevices(inv.account);
        if everRegistered == 0 { role := Admin; }
      }
      if id in devices { return Some(Constraint); }
      invitations := invitations[token := inv.(consumed := true)];
      devices := devices[id := Device(inv.account, pub, push, false, 0, role)];
      return None;
    }

    /** UPDATE queues SET retired = 1 WHERE owner_device = owner. */
    method RetireOwnedQueues(owner: Id)
      modifies `queues
      ensures queues == RetireOwned(old(queues), owner)
    {
      ghost var before := queues;
      var left := queues.Keys;
      while left != {}
        invariant left <= before.Keys && queues.Keys == before.Keys
        invariant forall r :: r in before ==>
          (queues[r] == if r !in left && before[r].owner == owner then before[r].(retired := true) else before[r])
        decreases left
      {
        var r :| r in left;
        left := left - {r};
        if queues[r].owner == owner {
          queues := queues[r := queues[r].(retired := true)];
        }
      }
      assert queues == RetireOwned(before, owner);
    }

    /** The four statements of a revocation: messages, queues, bundle, device. */
    method DisableDevice(id: Id)
      modifies `messages, `queues, `bundles, `devices
      ensures Contents() == Disable(old(Contents()), id)
    {
      var _ := DeleteWhere(OwnedBy(id));
      RetireOwnedQueues(id);
      bundles := bundles - {id};
      if id in devices {
        devices := devices[id := devices[id].(revoked := true, push := "")];
      }
    }

    method RevokeDevice(caller: Id, id: Id) returns (err: Option<Error>)
      modifies `messages, `queues, `bundles, `devices
      ensures Outcome(old(Contents()), Contents(), StoreSpec.RevokeDevice(old(Contents()), caller, id), err)
    {
      if caller != id {
        if id !in devices { return Some(DeviceNotFound); }
        var dev := devices[id];
        if !dev.revoked && dev.role == Admin {
          var ok := AssertNotLastAdmin(dev.account, id, true);
          if !ok { return Some(LastAdmin); }
        }
      }
      DisableDevice(id);
      return None;
    }

    method SetDeviceRole(account: Id, id: Id, role: string) returns (err: Option<Error>)
      modifies `devices
      ensures Outcome(old(Contents()), Contents(), StoreSpec.SetDeviceRole(old(Contents()), account, id, role), err)
    {
      var wanted := ParseRole(role);
      if wanted.None? { return Some(Invalid); }
      if account !in accounts { return Some(NoRows); }
      if accounts[account].mode != Managed { return Some(RoleChangeNotApplicable); }
      if id !in devices || devices[id].account != account || devices[id].revoked { return Some(DeviceNotFound); }
      if devices[id].role == Admin && wanted.value == Member {
        var ok := AssertNotLastAdmin(account, id, false);
        if !ok { return Some(LastAdmin); }
      }
      devices := devices[id := devices[id].(role := wanted.value)];
      return None;
    }

    method PromoteDevice(id: Id) returns (err: Option<Error>)
      modifies `devices
      ensures Outcome(old(Contents()), Contents(), StoreSpec.PromoteDevice(old(Contents()), id), err)
    {
      if id !in devices || devices[id].revoked || devices[id].account !in accounts { return Some(DeviceNotFound); }
      if accounts[devices[id].account].mode != Managed { return Some(RoleChangeNotApplicable); }
      devices := devices[id := devices[id].(role := Admin)];
      return None;
    }

    /** SELECT ... FROM devices WHERE account_id = account. */
    method ListDevices(account: Id) returns (rows: Devices)
      ensures rows == StoreSpec.ListDevices(Contents(), account)
    {
      rows := map[];
      var left := devices.Keys;
      while left != {}
        invariant left <= devices.Keys
        invariant rows == map d | d in devices && d !in left && devices[d].account == account :: devices[d]
        decreases left
      {
        var d :| d in left;
        left := left - {d};
        if devices[d].account == account {
          rows := rows[d := devices[d]];
        }
      }
    }

    method UpdatePushEndpoint(id: Id, endpoint: string)
      modifies `devices
      ensures Contents() == StoreSpec.UpdatePushEndpoint(old(Contents()), id, endpoint)
    {
      if id in devices {
        devices := devices[id := devices[id].(push := endpoint)];
      }
    }

    method SetBundle(id: Id, blob: Bytes) returns (err: Option<Error>)
      modifies `bundles
      ensures Outcome(old(Contents()), Contents(), StoreSpec.SetBundle(old(Contents()), id, blob), err)
    {
      if id !in devices { return Some(Constraint); }
      bundles := bundles[id := blob];
      return None;
    }

    // ---- administrative statements

    /** SELECT COALESCE(MAX(seq), 0) + 1. */
    method NextSeqno(account: Id) returns (next: nat)
      ensures next == MaxSeqno(Log(Contents(), account)) + 1
    {
      next := 1;
      if account in statements {
        var log := statements[account];
        for i := 0 to |log|
          invariant next == MaxSeqno(log[..i]) + 1
        {
          assert log[..i + 1][..i] == log[..i];
          if log[i].seqno >= next { next := log[i].seqno + 1; }
        }
        assert log[..|log|] == log;
      }
    }

    /** The account's rows with seq > since, in order. */
    method ListStatements(account: Id, since: int) returns (out: seq<Statement>)
      ensures out == Since(Log(Contents(), account), since)
    {
      out := [];
      if account in statements {
        out := NewerThan(statements[account], since);
      }
    }

    static method NewerThan(log: seq<Statement>, since: int) returns (out: seq<Statement>)
      ensures out == Since(log, since)
    {
      out := [];
      for i := 0 to |log|
        invariant out == Since(log[..i], since)
      {
        assert log[..i + 1][..i] == log[..i];
        if log[i].seqno > since { out := out + [log[i]]; }
      }
      assert log[..|log|] == log;
    }

    /** Inserts the next statement and trims the oldest. */
    method AppendStatement(account: Id, blob: Bytes) returns (err: Option<Error>, next: nat)
      modifies `statements
      ensures Outcome(old(Contents()), Contents(), StoreSpec.AppendStatement(old(Contents()), account, blob), err)
      ensures err == None ==> next == MaxSeqno(Log(old(Contents()), account)) + 1
    {
      next := 0;
      if |blob| == 0 { return Some(Invalid), next; }
      if |blob| > MAX_STATEMENT_BYTES { return Some(StatementTooLarge), next; }
      if account !in accounts { return Some(Constraint), next; }
      next := NextSeqno(account);
      var log := if account in statements then statements[account] else [];
      log := NewerThan(log + [Statement(next, blob)], next - MAX_STATEMENTS);
      statements := statements[account := log];
      return None, next;
    }
  }
}
