/** How bytes add up between the levels, and the ceilings as bulkheads between devices. */
module Bulkhead {
  import opened Results
  import opened Tables
  import opened StoreSpec
  import opened RowFacts
  import opened Integrity
  import opened Cascade
  import opened Quotas

  /** The bytes a set of levels hold between them. */
  ghost function SumOver(parts: set<Where>, ms: seq<Message>, queues: Queues, devices: Devices, at: Stamp): nat {
    if parts == {} then 0
    else
      var p :| p in parts;
      LiveBytes(ms, queues, devices, p, at) + SumOver(parts - {p}, ms, queues, devices, at)
  }

  /** Which part is counted first does not matter. */
  lemma {:induction false} SumPick(parts: set<Where>, ms: seq<Message>, queues: Queues, devices: Devices, at: Stamp,
      p: Where)
    requires p in parts
    ensures SumOver(parts, ms, queues, devices, at)
         == LiveBytes(ms, queues, devices, p, at) + SumOver(parts - {p}, ms, queues, devices, at)
    decreases parts
  {
    var q :| q in parts && SumOver(parts, ms, queues, devices, at)
                        == LiveBytes(ms, queues, devices, q, at) + SumOver(parts - {q}, ms, queues, devices, at);
    if p != q {
      SumPick(parts - {q}, ms, queues, devices, at, p);
      SumPick(parts - {p}, ms, queues, devices, at, q);
      assert parts - {q} - {p} == parts - {p} - {q};
    }
  }

  lemma {:induction false} SumOverNothing(parts: set<Where>, queues: Queues, devices: Devices, at: Stamp)
    ensures SumOver(parts, [], queues, devices, at) == 0
    decreases parts
  {
    if parts != {} {
      var p :| p in parts;
      SumPick(parts, [], queues, devices, at, p);
      SumOverNothing(parts - {p}, queues, devices, at);
    }
  }

  /** One more row counts once, at the one part it belongs to, if it belongs to any. */
  lemma {:induction false} SumSnoc(parts: set<Where>, ms: seq<Message>, m: Message, queues: Queues, devices: Devices,
      at: Stamp)
    requires forall p, q | p in parts && q in parts :: Both(p, q, m, queues, devices) ==> p == q
    ensures SumOver(parts, ms + [m], queues, devices, at)
         == SumOver(parts, ms, queues, devices, at)
            + (if (exists p :: p in parts && Selects(queues, devices, p, m)) && m.expires > at then |m.payload| else 0)
    decreases parts
  {
    hide Selects;
    if parts != {} {
      var p :| p in parts &&
        ((exists q :: q in parts && Selects(queues, devices, q, m)) ==> Selects(queues, devices, p, m));
      SumPick(parts, ms, queues, devices, at, p);
      SumPick(parts, ms + [m], queues, devices, at, p);
      RemainingSnoc(ms, m, queues, devices, p, at);
      SumSnoc(parts - {p}, ms, m, queues, devices, at);
    }
  }

  ghost predicate Both(p: Where, q: Where, m: Message, queues: Queues, devices: Devices) {
    Selects(queues, devices, p, m) && Selects(queues, devices, q, m)
  }

  /** Each row of the whole belongs to exactly one part, and no part reaches outside. */
  ghost predicate Partitions(parts: set<Where>, whole: Where, ms: seq<Message>, queues: Queues, devices: Devices) {
    forall i :: 0 <= i < |ms| ==>
      && (forall p, q | p in parts && q in parts :: Both(p, q, ms[i], queues, devices) ==> p == q)
      && (Selects(queues, devices, whole, ms[i]) <==> exists p :: p in parts && Selects(queues, devices, p, ms[i]))
  }

  lemma {:induction false} WholeIsSumOfParts(
      parts: set<Where>, whole: Where, ms: seq<Message>, queues: Queues, devices: Devices, at: Stamp)
    requires Partitions(parts, whole, ms, queues, devices)
    ensures LiveBytes(ms, queues, devices, whole, at) == SumOver(parts, ms, queues, devices, at)
  {
    hide Selects;
    if ms == [] {
      SumOverNothing(parts, queues, devices, at);
    } else {
      var init, m := ms[..|ms| - 1], ms[|ms| - 1];
      assert Partitions(parts, whole, init, queues, devices) by {
        assert forall i :: 0 <= i < |init| ==> init[i] == ms[i];
      }
      WholeIsSumOfParts(parts, whole, init, queues, devices, at);
      assert ms == init + [m];
      SumSnoc(parts, init, m, queues, devices, at);
      RemainingSnoc(init, m, queues, devices, whole, at);
    }
  }

  ghost function DeviceLevels(ds: set<Id>): set<Where> {
    set d | d in ds :: OwnedBy(d)
  }

  ghost function QueueLevels(db: Db, device: Id): set<Where> {
    set r | r in db.queues && db.queues[r].owner == device :: InQueue(r)
  }

  ghost function StoredAt(levels: set<Where>, db: Db, at: Stamp): nat {
    SumOver(levels, db.messages, db.queues, db.devices, at)
  }

  /** An account's bytes are the sum over its devices, and a device's the sum over its queues. */
  lemma BytesAddUp(db: Db, account: Id, device: Id, at: Stamp)
    requires Valid(db)
    ensures Stored(db, InAccount(account), at) == StoredAt(DeviceLevels(DevicesOf(db.devices, account)), db, at)
    ensures Stored(db, OwnedBy(device), at) == StoredAt(QueueLevels(db, device), db, at)
  {
    DevicesPartition(db, account);
    WholeIsSumOfParts(DeviceLevels(DevicesOf(db.devices, account)), InAccount(account),
                      db.messages, db.queues, db.devices, at);
    QueuesPartition(db, device);
    WholeIsSumOfParts(QueueLevels(db, device), OwnedBy(device), db.messages, db.queues, db.devices, at);
  }

  lemma DevicesPartition(db: Db, account: Id)
    requires Linked(db)
    ensures Partitions(DeviceLevels(DevicesOf(db.devices, account)), InAccount(account),
                       db.messages, db.queues, db.devices)
  {
    var parts := DeviceLevels(DevicesOf(db.devices, account));
    forall i | 0 <= i < |db.messages|
      ensures Selects(db.queues, db.devices, InAccount(account), db.messages[i])
         <==> exists p :: p in parts && Selects(db.queues, db.devices, p, db.messages[i])
    {
      var m := db.messages[i];
      assert m in db.messages;
      if Selects(db.queues, db.devices, InAccount(account), m) {
        assert OwnedBy(db.queues[m.queue].owner) in parts;
      }
    }
  }

  lemma QueuesPartition(db: Db, device: Id)
    requires Linked(db)
    ensures Partitions(QueueLevels(db, device), OwnedBy(device), db.messages, db.queues, db.devices)
  {
    var parts := QueueLevels(db, device);
    forall i | 0 <= i < |db.messages|
      ensures Selects(db.queues, db.devices, OwnedBy(device), db.messages[i])
         <==> exists p :: p in parts && Selects(db.queues, db.devices, p, db.messages[i])
    {
      var m := db.messages[i];
      assert m in db.messages;
      if Selects(db.queues, db.devices, OwnedBy(device), m) {
        assert InQueue(m.queue) in parts;
      }
    }
  }

  // ---- ceilings as bulkheads

  /** The sum of the ceilings of a set of devices. */
  ghost function CeilingSum(db: Db, ds: set<Id>): int {
    if ds == {} then 0
    else
      var d :| d in ds;
      Ceiling(db, OwnedBy(d)) + CeilingSum(db, ds - {d})
  }

  lemma {:induction false} CeilingPick(db: Db, ds: set<Id>, d: Id)
    requires d in ds
    ensures CeilingSum(db, ds) == Ceiling(db, OwnedBy(d)) + CeilingSum(db, ds - {d})
    decreases ds
  {
    var e :| e in ds && CeilingSum(db, ds) == Ceiling(db, OwnedBy(e)) + CeilingSum(db, ds - {e});
    if d != e {
      CeilingPick(db, ds - {e}, d);
      CeilingPick(db, ds - {d}, e);
      assert ds - {e} - {d} == ds - {d} - {e};
    }
  }

  ghost predicate WithinCeilings(db: Db, ds: set<Id>, at: Stamp) {
    forall d :: d in ds ==> 0 < Ceiling(db, OwnedBy(d)) && Stored(db, OwnedBy(d), at) <= Ceiling(db, OwnedBy(d))
  }

  lemma {:induction false} SumWithinCeilings(db: Db, ds: set<Id>, at: Stamp)
    requires WithinCeilings(db, ds, at)
    ensures StoredAt(DeviceLevels(ds), db, at) <= CeilingSum(db, ds)
    decreases ds
  {
    hide Stored, Ceiling;
    if ds == {} {
      assert DeviceLevels(ds) == {};
    } else {
      var d :| d in ds;
      CeilingPick(db, ds, d);
      DevicePick(db, ds, d, at);
      SumWithinCeilings(db, ds - {d}, at);
    }
  }

  lemma DevicePick(db: Db, ds: set<Id>, d: Id, at: Stamp)
    requires d in ds
    ensures StoredAt(DeviceLevels(ds), db, at)
         == Stored(db, OwnedBy(d), at) + StoredAt(DeviceLevels(ds - {d}), db, at)
  {
    assert OwnedBy(d) in DeviceLevels(ds);
    SumPick(DeviceLevels(ds), db.messages, db.queues, db.devices, at, OwnedBy(d));
    assert DeviceLevels(ds) - {OwnedBy(d)} == DeviceLevels(ds - {d});
  }

  /** Devices that hold nothing can be left out of the sum. */
  lemma {:induction false} DropEmpty(db: Db, all: set<Id>, ds: set<Id>, at: Stamp)
    requires ds <= all
    requires forall d :: d in all - ds ==> Stored(db, OwnedBy(d), at) == 0
    ensures StoredAt(DeviceLevels(all), db, at) == StoredAt(DeviceLevels(ds), db, at)
    decreases all
  {
    hide Stored, StoredAt;
    if all - ds != {} {
      var d :| d in all - ds;
      DevicePick(db, all, d, at);
      DropEmpty(db, all - {d}, ds, at);
    } else {
      forall d | d in all ensures d in ds {
        assert d !in all - ds;
      }
      assert all == ds;
    }
  }

  /** A set of devices whose ceilings make the account ceiling redundant: it covers every device
      that holds anything, each is within its own positive ceiling, and together the ceilings
      fit in the account's. */
  ghost predicate Apportioned(db: Db, account: Id, ds: set<Id>, at: Stamp) {
    && account in db.accounts
    && ds <= DevicesOf(db.devices, account)
    && (forall d :: d in DevicesOf(db.devices, account) - ds ==> Stored(db, OwnedBy(d), at) == 0)
    && WithinCeilings(db, ds, at)
    && CeilingSum(db, ds) <= db.accounts[account].quotaBytes
  }

  /** The quota bulkhead: in such an account a send is accepted exactly when its own queue's and
      its own device's checks pass, whatever the other devices hold. */
  lemma QuotaBulkhead(db: Db, rid: Id, ds: set<Id>, at: Stamp, size: nat)
    requires Valid(db) && Resolves(db, rid)
    requires var q := db.queues[rid]; q.owner in ds && Apportioned(db, db.devices[q.owner].account, ds, at)
    ensures var q := db.queues[rid];
      HasRoom(db, rid, at, size) <==> !Over(db, InQueue(rid), at, size) && !Over(db, OwnedBy(q.owner), at, size)
  {
    var owner := db.queues[rid].owner;
    var account := db.devices[owner].account;
    var all := DevicesOf(db.devices, account);
    if Fits(db, OwnedBy(owner), db.devices[owner].quotaBytes, at, size) {
      hide Stored, StoredAt, SumOver, CeilingSum, Linked, Indexed, DevicesOf, LiveBytes;
      BytesAddUp(db, account, owner, at);
      DropEmpty(db, all, ds, at);
      DevicePick(db, ds, owner, at);
      CeilingPick(db, ds, owner);
      SumWithinCeilings(db, ds - {owner}, at);
      assert Stored(db, InAccount(account), at) + size <= db.accounts[account].quotaBytes;
    }
  }

  /** A cascaded database's revoked devices hold nothing, so it is the live devices' ceilings that count. */
  lemma RevokedHoldNothing(db: Db, d: Id, at: Stamp)
    requires Valid(db) && Cascaded(db) && d in db.devices && db.devices[d].revoked
    ensures Stored(db, OwnedBy(d), at) == 0
  {
    assert Bare(db, d);
    NoneSelected(db.messages, db.queues, db.devices, OwnedBy(d), at);
  }

  /** The bulkhead in the reachable states of an atomically served relay: it is enough that the
      live devices of the account are apportioned. */
  lemma LiveDevicesBulkhead(db: Db, now: Nanos, rid: Id, payload: Bytes, ttl: Nanos, id: Id)
    requires Valid(db) && Cascaded(db) && Resolves(db, rid) && !IdTaken(db.messages, id)
    requires !db.devices[db.queues[rid].owner].revoked
    requires
      var account := db.devices[db.queues[rid].owner].account;
      var ds := LiveDevices(db.devices, account);
      WithinCeilings(db, ds, Seconds(now)) && CeilingSum(db, ds) <= db.accounts[account].quotaBytes
    ensures var q := db.queues[rid];
      AppendMessage(db, now, rid, payload, ttl, id).Ok? <==>
        !Over(db, InQueue(rid), Seconds(now), |payload|) && !Over(db, OwnedBy(q.owner), Seconds(now), |payload|)
  {
    hide Valid, Cascaded, Stored, CeilingSum, HasRoom, WithinCeilings;
    var account := db.devices[db.queues[rid].owner].account;
    var ds := LiveDevices(db.devices, account);
    forall d | d in DevicesOf(db.devices, account) - ds ensures Stored(db, OwnedBy(d), Seconds(now)) == 0 {
      RevokedHoldNothing(db, d, Seconds(now));
    }
    assert Apportioned(db, account, ds, Seconds(now));
    QuotaBulkhead(db, rid, ds, Seconds(now), |payload|);
  }
}
