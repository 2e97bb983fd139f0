/**
  The race between a send and a retirement.  AppendMessage does not look at the retired flag, so a
  send that looked its queue up before the retirement can still store a message after it.  Exactly
  those sends can, and once they are done the queue only ever empties.
  */
module RetireRace {
  import opened Results
  import opened Tables
  import opened StoreSpec
  import opened RowFacts
  import opened Integrity
  import opened Nonces
  import opened Ttl
  import opened Handlers
  import opened Runs
  import opened Quotas
  import opened Interleaving
  import opened SenderBinding

  ghost predicate Retired(db: Db, q: Id) {
    q in db.queues && db.queues[q].retired
  }

  /** A send that found the queue live and has not finished with it. */
  predicate InFlight(th: Thread, q: Id) {
    (th.Looked? || th.Running?) && th.req.Send? && th.snap.QueueRow? && th.snap.rid == q && !th.snap.queue.retired
  }

  predicate HasRow(ms: seq<Message>, q: Id) {
    exists m :: m in ms && m.queue == q
  }

  // ---- only sends in flight store

  /** A turn that stores a message advances a send in flight. */
  lemma StoresInFlight(s: Sys, turn: Turn, q: Id)
    requires AllHonest(s) && Stores(s, turn, q)
    ensures turn.move.Advance? && turn.move.t < |s.threads| && InFlight(s.threads[turn.move.t], q)
  {
    hide Appends, Stale;
    assert Honest(s.db, s.threads[turn.move.t]);
  }

  /** Onto a retired queue no new send takes off. */
  lemma NoTakeOff(s: Sys, turn: Turn, q: Id, t: nat)
    requires Valid(s.db) && Retired(s.db, q)
    requires t < |Take(s, turn).threads| && InFlight(Take(s, turn).threads[t], q)
    ensures t < |s.threads| && InFlight(s.threads[t], q)
  {
    hide Valid, Apply, Authorise, Finish, Stop;
    ThreadsGrow(s, turn);
    if turn.move == Advance(t) {
      LookupOfRetired(s.db, s.threads[t].req, q);
    } else if t < |s.threads| {
      TurnIsOneThread(s, turn, t);
    }
  }

  lemma LookupOfRetired(db: Db, req: Request, q: Id)
    requires Retired(db, q)
    ensures Lookup(db, req).QueueRow? && Lookup(db, req).rid == q ==> Lookup(db, req).queue.retired
  {
  }

  lemma RetiredStays(s: Sys, turn: Turn, q: Id)
    requires Valid(s.db) && Retired(s.db, q)
    ensures Retired(Take(s, turn).db, q)
  {
    hide Valid, Take;
    TurnKeepsValid(s, turn);
    assert QueueAges(s.db.queues[q], Take(s, turn).db.queues[q]);
  }

  /** A send still in flight on a queue after a schedule was in flight when the queue was retired. */
  lemma {:induction false} SendsOnlyLand(start: Sys, turns: seq<Turn>, q: Id, t: nat)
    requires Valid(start.db) && Retired(start.db, q)
    requires t < |Play(start, turns).threads| && InFlight(Play(start, turns).threads[t], q)
    ensures t < |start.threads| && InFlight(start.threads[t], q)
  {
    hide Valid, Take, InFlight;
    if turns != [] {
      var init := turns[..|turns| - 1];
      ScheduleKeepsValid(start, init);
      RetiredThroughout(start, init, q);
      NoTakeOff(Play(start, init), turns[|turns| - 1], q, t);
      SendsOnlyLand(start, init, q, t);
    }
  }

  lemma RetiredThroughout(start: Sys, turns: seq<Turn>, q: Id)
    requires Valid(start.db) && Retired(start.db, q)
    ensures Retired(Play(start, turns).db, q)
  {
    hide Valid, Play;
    ScheduleKeepsValid(start, turns);
    assert QueueAges(start.db.queues[q], Play(start, turns).db.queues[q]);
  }

  // ---- a retired queue nobody is sending to

  ghost predicate Quiet(s: Sys, q: Id) {
    && Retired(s.db, q)
    && forall t :: 0 <= t < |s.threads| ==> !InFlight(s.threads[t], q)
  }

  lemma TurnAddsNoRow(s: Sys, turn: Turn, q: Id, m: Message)
    requires m in Take(s, turn).db.messages && m.queue == q && m !in s.db.messages
    ensures Stores(s, turn, q)
  {
    hide Take, Apply, Appends, Kept, Deletion, Remaining;
    TurnIsOneStep(s, turn);
    match StepOf(s, turn)
    case None =>
    case Some(op) =>
      MessagesAfter(s.db, turn.now, op);
      if Appends(s.db, turn.now, op) {
        AppendsAppend(s.db, turn.now, op);
      } else {
        KeptShrinks(s.db, Deletion(s.db, turn.now, op), m);
      }
  }

  lemma AppendsAppend(db: Db, now: Nanos, op: Op)
    requires Appends(db, now, op)
    ensures IsAppend(op) && Appended(db, now, op).queue == op.message.rid
  {
  }

  lemma KeptShrinks(db: Db, gone: Option<Where>, m: Message)
    requires m in Kept(db, gone)
    ensures m in db.messages
  {
    if gone.Some? { SelectedIff(db.messages, db.queues, db.devices, gone.value); }
  }

  /** Once no send is in flight on a retired queue, none ever is, and no row is added to it. */
  lemma {:induction false} QuietForEver(start: Sys, turns: seq<Turn>, q: Id)
    requires Valid(start.db) && AllHonest(start) && Quiet(start, q)
    ensures Quiet(Play(start, turns), q)
    ensures forall m :: m in Play(start, turns).db.messages && m.queue == q ==> m in start.db.messages
  {
    hide Valid, AllHonest, Take, InFlight, Stores;
    if turns != [] {
      var init, turn := turns[..|turns| - 1], turns[|turns| - 1];
      var s := Play(start, init);
      QuietForEver(start, init, q);
      PlayKeepsHonest(start, init);
      QuietTurn(s, turn, q);
    }
  }

  lemma {:induction false} PlayKeepsHonest(start: Sys, turns: seq<Turn>)
    requires Valid(start.db) && AllHonest(start)
    ensures Valid(Play(start, turns).db) && AllHonest(Play(start, turns))
  {
    hide Valid, AllHonest, Take;
    if turns != [] {
      var init := turns[..|turns| - 1];
      PlayKeepsHonest(start, init);
      TurnKeepsValid(Play(start, init), turns[|turns| - 1]);
      TurnKeepsHonest(Play(start, init), turns[|turns| - 1]);
    }
  }

  lemma QuietTurn(s: Sys, turn: Turn, q: Id)
    requires Valid(s.db) && AllHonest(s) && Quiet(s, q)
    ensures Quiet(Take(s, turn), q)
    ensures forall m :: m in Take(s, turn).db.messages && m.queue == q ==> m in s.db.messages
  {
    hide Valid, AllHonest, Take, InFlight, Stores;
    RetiredStays(s, turn, q);
    forall t | 0 <= t < |Take(s, turn).threads| ensures !InFlight(Take(s, turn).threads[t], q) {
      if InFlight(Take(s, turn).threads[t], q) { NoTakeOff(s, turn, q, t); }
    }
    forall m | m in Take(s, turn).db.messages && m.queue == q ensures m in s.db.messages {
      if m !in s.db.messages {
        TurnAddsNoRow(s, turn, q, m);
        StoresInFlight(s, turn, q);
      }
    }
  }

  /** The turn purges the whole messages table. */
  predicate Sweeps(s: Sys, turn: Turn) {
    StepOf(s, turn) == Some(OnMessages(OpPurge))
  }

  lemma SweepEmpties(s: Sys, turn: Turn, q: Id)
    requires Sweeps(s, turn)
    requires forall m :: m in s.db.messages && m.queue == q ==> m.expires <= Seconds(turn.now)
    ensures !HasRow(Take(s, turn).db.messages, q)
  {
    hide Take, Remaining, Selected;
    TurnIsOneStep(s, turn);
    SelectedIff(s.db.messages, s.db.queues, s.db.devices, Expired(Seconds(turn.now)));
  }

  /** Then one purge, at or after the last expiry left on it, empties the queue for good. */
  lemma PurgedForGood(start: Sys, turns: seq<Turn>, i: nat, q: Id)
    requires Valid(start.db) && AllHonest(start) && Quiet(start, q)
    requires i < |turns| && Sweeps(Play(start, turns[..i]), turns[i])
    requires forall m :: m in start.db.messages && m.queue == q ==> m.expires <= Seconds(turns[i].now)
    ensures !HasRow(Play(start, turns).db.messages, q)
  {
    hide Valid, AllHonest, Take, Quiet, Sweeps;
    var before, swept := Play(start, turns[..i]), Play(start, turns[..i + 1]);
    assert turns[..i + 1][..i] == turns[..i];
    QuietForEver(start, turns[..i], q);
    PlayKeepsHonest(start, turns[..i + 1]);
    QuietForEver(start, turns[..i + 1], q);
    SweepEmpties(before, turns[i], q);
    PlaySplit(start, turns, i + 1);
    QuietForEver(swept, turns[i + 1..], q);
  }

  // ---- where a row in a retired queue comes from

  /** A retirement takes every row with it. */
  lemma RetiringEmpties(db: Db, now: Nanos, op: Op, q: Id)
    requires Valid(db) && !Retired(db, q) && Retired(After(db, now, op), q)
    ensures !HasRow(After(db, now, op).messages, q)
  {
    hide Ascending, ApplyAccountOp, ApplyDeviceOp, ApplyQueueOp, ApplyRetireOp, ApplyMessageOp;
    match op
    case OnAccounts(o) => AccountOpFrame(db, now, o);
    case OnDevices(o) => DeviceOpFrame(db, now, o);
    case OnQueues(o) => QueueOpRetiresNothing(db, o, q);
    case Retiring(o) => RetireOpEmpties(db, o, q);
    case OnMessages(o) => MessageOpFrame(db, now, o);
    case Reading(query) =>
  }

  lemma QueueOpRetiresNothing(db: Db, op: QueueOp, q: Id)
    ensures Retired(ApplyQueueOp(db, op).0, q) ==> Retired(db, q)
  {
    match op
    case OpCreateQueue(owner, k, rid, sid) =>
      if CreateQueue(db, owner, k, rid, sid).Ok? {}
    case OpBind(sid, k) =>
      if Bindable(db, sid) {}
    case OpSetQueueQuota(rid, bytes) =>
      if SetQueueQuota(db, rid, bytes).Ok? {}
  }

  lemma RetireOpEmpties(db: Db, op: RetireOp, q: Id)
    requires !Retired(db, q) && Retired(ApplyRetireOp(db, op).0, q)
    ensures !HasRow(ApplyRetireOp(db, op).0.messages, q)
  {
    hide Remaining, Selected, StripsLastAdmin;
    match op
    case OpRevoke(caller, device) =>
      SelectedIff(db.messages, db.queues, db.devices, OwnedBy(device));
      if RevokeDevice(db, caller, device).Ok? {}
    case OpRetire(rid) =>
      SelectedIff(db.messages, db.queues, db.devices, InQueue(rid));
      if rid in db.queues {}
  }

  /** Turn i is thread t's lookup. */
  predicate Looks(turns: seq<Turn>, i: nat, t: nat)
    requires i < |turns|
  {
    && turns[i].move == Advance(t)
    && t < |Play(EmptySys, turns[..i]).threads|
    && Play(EmptySys, turns[..i]).threads[t].Start?
  }

  ghost predicate TookOff(turns: seq<Turn>, n: nat, t: nat, q: Id)
    requires n <= |turns|
  {
    exists i :: 0 <= i < n && Looks(turns, i, t) && !Retired(Play(EmptySys, turns[..i]).db, q)
  }

  lemma TookOffEarlier(turns: seq<Turn>, k: nat, n: nat, t: nat, q: Id)
    requires n <= k <= |turns|
    ensures TookOff(turns[..k], n, t, q) == TookOff(turns, n, t, q)
  {
    hide Take;
    forall i | 0 <= i < n
      ensures Looks(turns[..k], i, t) == Looks(turns, i, t) && turns[..k][..i] == turns[..i]
    {
      assert turns[..k][..i] == turns[..i];
    }
  }

  /** A send in flight on a queue looked it up in a state where it was not retired. */
  lemma {:induction false} InFlightTookOff(turns: seq<Turn>, t: nat, q: Id)
    requires t < |Play(EmptySys, turns).threads| && InFlight(Play(EmptySys, turns).threads[t], q)
    ensures TookOff(turns, |turns|, t, q)
  {
    hide Take, InFlight, Looks, Retired;
    if turns != [] {
      var n := |turns| - 1;
      var s := Play(EmptySys, turns[..n]);
      ThreadsGrow(s, turns[n]);
      if t < |s.threads| && InFlight(s.threads[t], q) {
        InFlightTookOff(turns[..n], t, q);
        TookOffEarlier(turns, n, n, t, q);
        Longer(turns, n, t, q);
      } else {
        JustLooked(turns, t, q);
      }
    }
  }

  lemma Longer(turns: seq<Turn>, n: nat, t: nat, q: Id)
    requires n <= |turns| && TookOff(turns, n, t, q)
    ensures TookOff(turns, |turns|, t, q)
  {
  }

  lemma JustLooked(turns: seq<Turn>, t: nat, q: Id)
    requires turns != []
    requires t < |Play(EmptySys, turns).threads| && InFlight(Play(EmptySys, turns).threads[t], q)
    requires var s := Play(EmptySys, turns[..|turns| - 1]); !(t < |s.threads| && InFlight(s.threads[t], q))
    ensures TookOff(turns, |turns|, t, q)
  {
    hide Valid, Apply, Authorise, Finish, Stop;
    var n := |turns| - 1;
    var s, turn := Play(EmptySys, turns[..n]), turns[n];
    ThreadsGrow(s, turn);
    if turn.move == Advance(t) {
      match s.threads[t]
      case Start(req) =>
        assert Take(s, turn).threads[t] == Looked(req, Lookup(s.db, req));
        assert Looks(turns, n, t);
      case _ =>
    } else if t < |s.threads| {
      TurnIsOneThread(s, turn, t);
    }
  }

  /** Turn j stores on the queue after its retirement, for a send that had looked it up before. */
  ghost predicate StrayAt(turns: seq<Turn>, j: nat, q: Id)
    requires j < |turns|
  {
    && Stores(Play(EmptySys, turns[..j]), turns[j], q)
    && Retired(Play(EmptySys, turns[..j]).db, q)
    && TookOff(turns, j, turns[j].move.t, q)
  }

  ghost predicate Stray(turns: seq<Turn>, q: Id) {
    exists j :: 0 <= j < |turns| && StrayAt(turns, j, q)
  }

  /** And this is the row it stored. */
  ghost predicate StrayRow(turns: seq<Turn>, j: nat, q: Id, m: Message)
    requires j < |turns|
  {
    && StrayAt(turns, j, q)
    && m !in Play(EmptySys, turns[..j]).db.messages
    && m in Take(Play(EmptySys, turns[..j]), turns[j]).db.messages
  }

  lemma StrayAtEarlier(turns: seq<Turn>, k: nat, j: nat, q: Id)
    requires j < k <= |turns|
    ensures StrayAt(turns[..k], j, q) ==> StrayAt(turns, j, q)
    ensures forall m :: StrayRow(turns[..k], j, q, m) ==> StrayRow(turns, j, q, m)
  {
    hide Take, Retired, TookOff, Appends;
    assert turns[..k][..j] == turns[..j] && turns[..k][j] == turns[j];
    if StrayAt(turns[..k], j, q) { TookOffEarlier(turns, k, j, turns[j].move.t, q); }
  }

  /** Every message found in a retired queue was stored after the retirement, by a send that had
      looked the queue up before it. */
  lemma {:induction false} RowsOfRetiredAreStray(turns: seq<Turn>, q: Id, m: Message)
    requires Retired(Play(EmptySys, turns).db, q)
    requires m in Play(EmptySys, turns).db.messages && m.queue == q
    ensures exists j :: 0 <= j < |turns| && StrayRow(turns, j, q, m)
  {
    hide Valid, AllHonest, Take, Stores, TookOff, InFlight, StrayRow;
    if turns == [] {
      NothingRetired(q);
    } else {
      var n := |turns| - 1;
      var s, turn := Play(EmptySys, turns[..n]), turns[n];
      ScheduleHonest(turns[..n]);
      if !Retired(s.db, q) {
        FreshlyRetired(s, turn, q);
      } else if m in s.db.messages {
        RowsOfRetiredAreStray(turns[..n], q, m);
        var j :| 0 <= j < n && StrayRow(turns[..n], j, q, m);
        StrayAtEarlier(turns, n, j, q);
      } else {
        TurnAddsNoRow(s, turn, q, m);
        StoresInFlight(s, turn, q);
        InFlightTookOff(turns[..n], turn.move.t, q);
        TookOffEarlier(turns, n, n, turn.move.t, q);
        LastIsStray(turns, q, m);
      }
    }
  }

  lemma LastIsStray(turns: seq<Turn>, q: Id, m: Message)
    requires turns != [] && turns[|turns| - 1].move.Advance?
    requires
      var s, turn := Play(EmptySys, turns[..|turns| - 1]), turns[|turns| - 1];
      && Stores(s, turn, q) && Retired(s.db, q) && TookOff(turns, |turns| - 1, turn.move.t, q)
      && m !in s.db.messages && m in Take(s, turn).db.messages
    ensures StrayRow(turns, |turns| - 1, q, m)
  {
    hide Take, Retired, TookOff, Appends;
  }

  /** A turn that stores on a retired queue leaves it holding a message. */
  lemma StoringFills(s: Sys, turn: Turn, q: Id)
    requires Valid(s.db) && Retired(s.db, q) && Stores(s, turn, q)
    ensures Retired(Take(s, turn).db, q) && HasRow(Take(s, turn).db.messages, q)
  {
    hide Valid, Take, Apply, Appends;
    RetiredStays(s, turn, q);
    var op := StepOf(s, turn).value;
    TurnIsOneStep(s, turn);
    MessagesAfter(s.db, turn.now, op);
    AppendsAppend(s.db, turn.now, op);
    assert Appended(s.db, turn.now, op) in Take(s, turn).db.messages;
  }

  /** After k turns of the schedule the queue is retired and holds a message. */
  ghost predicate HeldAfter(turns: seq<Turn>, k: nat, q: Id)
    requires k <= |turns|
  {
    Retired(Play(EmptySys, turns[..k]).db, q) && HasRow(Play(EmptySys, turns[..k]).db.messages, q)
  }

  /** A retired queue holds a message at some point of a schedule exactly if one of its turns takes
      the append of a send that looked the queue up before its retirement. */
  lemma RetiredHoldsIffStray(turns: seq<Turn>, q: Id)
    ensures (exists k :: 0 <= k <= |turns| && HeldAfter(turns, k, q)) <==> Stray(turns, q)
  {
    hide Take, StrayAt, Retired;
    if k :| 0 <= k <= |turns| && HeldAfter(turns, k, q) {
      var m :| m in Play(EmptySys, turns[..k]).db.messages && m.queue == q;
      RowsOfRetiredAreStray(turns[..k], q, m);
      var j :| 0 <= j < k && StrayRow(turns[..k], j, q, m);
      StrayAtEarlier(turns, k, j, q);
    }
    if j :| 0 <= j < |turns| && StrayAt(turns, j, q) { StrayHeld(turns, j, q); }
  }

  lemma StrayHeld(turns: seq<Turn>, j: nat, q: Id)
    requires j < |turns| && StrayAt(turns, j, q)
    ensures HeldAfter(turns, j + 1, q)
  {
    hide Take, Stores, Retired, TookOff, Valid, AllHonest, HasRow;
    ScheduleHonest(turns[..j]);
    StoringFills(Play(EmptySys, turns[..j]), turns[j], q);
    assert turns[..j + 1][..j] == turns[..j] && turns[..j + 1][j] == turns[j];
  }

  lemma FreshlyRetired(s: Sys, turn: Turn, q: Id)
    requires Valid(s.db) && !Retired(s.db, q) && Retired(Take(s, turn).db, q)
    ensures !HasRow(Take(s, turn).db.messages, q)
  {
    hide Valid, Take, Apply, Retired, HasRow;
    TurnIsOneStep(s, turn);
    RetiringEmpties(s.db, turn.now, StepOf(s, turn).value, q);
  }

  lemma NothingRetired(q: Id)
    ensures !Retired(EmptyDb, q)
  {
  }

  // ---- and it does happen

  /** A send of a payload on a bound queue, and its owner's retirement of the queue. */
  datatype Race = Race(sender: Id, sendEnv: Envelope, header: Option<Key>, body: SendBody, newId: Id,
                       queue: Id, retireEnv: Envelope)

  function Sending(r: Race): Request {
    Send(r.sender, r.sendEnv, r.header, Some(r.body), r.newId)
  }

  function Retiral(r: Race): Request {
    Receive(r.queue, r.retireEnv, Retire)
  }

  function Storing(r: Race): Op {
    OnMessages(OpAppend(r.queue, r.body.payload, ClampMessageTtl(r.body.ttl), r.newId))
  }

  /** The queue is live and bound, its index entry is the sender id, and the payload has room. */
  predicate Ready(db: Db, now: Nanos, r: Race) {
    && r.sender in db.senders && db.senders[r.sender] == r.queue && r.queue in db.queues
    && !db.queues[r.queue].retired && db.queues[r.queue].senderKey.Some?
    && (r.header.Some? ==> r.header == db.queues[r.queue].senderKey)
    && 0 < |r.body.payload| <= MAX_PAYLOAD_BYTES
    && Appends(db, now, Storing(r))
  }

  /** The send and the retirement authenticate one after the other. */
  predicate BothSigned(db: Db, seen: Seen, now: Nanos, r: Race)
    requires r.queue in db.queues && db.queues[r.queue].senderKey.Some?
  {
    var q := db.queues[r.queue];
    var first := Authenticate(seen, now, r.sendEnv, r.sender, q.senderKey.value);
    first.1 && Authenticate(first.0, now, r.retireEnv, r.queue, q.recipientKey).1
  }

  /** Retiring a queue only makes room. */
  lemma RoomStays(db: Db, now: Nanos, r: Race)
    requires Valid(db) && r.queue in db.queues && Appends(db, now, Storing(r))
    ensures Appends(RetireQueue(db, r.queue), now, Storing(r))
  {
    var q, at := db.queues[r.queue], Seconds(now);
    var retire := Retiring(OpRetire(r.queue));
    RetireStep(db, now, r.queue);
    OnlyAppendsAddBytes(db, now, retire, InQueue(r.queue), at);
    OnlyAppendsAddBytes(db, now, retire, OwnedBy(q.owner), at);
    OnlyAppendsAddBytes(db, now, retire, InAccount(db.devices[q.owner].account), at);
    hide Stored, Remaining, Valid;
    RetireFreesIds(db, r.queue, r.newId);
  }

  lemma RetireFreesIds(db: Db, q: Id, id: Id)
    requires !IdTaken(db.messages, id)
    ensures !IdTaken(RetireQueue(db, q).messages, id)
  {
    var after := RetireQueue(db, q).messages;
    SelectedIff(db.messages, db.queues, db.devices, InQueue(q));
    forall i | 0 <= i < |after| ensures after[i].id != id {
      assert after[i] in db.messages;
    }
  }

  lemma RetireStep(db: Db, now: Nanos, q: Id)
    requires q in db.queues
    ensures After(db, now, Retiring(OpRetire(q))) == RetireQueue(db, q)
    ensures Retired(RetireQueue(db, q), q)
  {
  }

  lemma RaceAuthorised(s: Sys, now: Nanos, t: nat, u: nat, r: Race)
    requires t < u < |s.threads| && Ready(s.db, now, r) && BothSigned(s.db, s.seen, now, r)
    requires s.threads[t] == Looked(Sending(r), QueueRow(r.queue, s.db.queues[r.queue]))
    requires s.threads[u] == Looked(Retiral(r), QueueRow(r.queue, s.db.queues[r.queue]))
    ensures
      var next, snap := Both(s, now, t, u), QueueRow(r.queue, s.db.queues[r.queue]);
      && next.db == s.db && |next.threads| == |s.threads|
      && next.threads[t] == Running(Sending(r), snap, [Storing(r)], None, Done)
      && next.threads[u] == Running(Retiral(r), snap, [Retiring(OpRetire(r.queue))], None, Done)
  {
    hide Authenticate, Appends, ClampMessageTtl;
  }

  lemma RetireActs(s: Sys, now: Nanos, u: nat, r: Race, snap: Snapshot)
    requires u < |s.threads|
    requires s.threads[u] == Running(Retiral(r), snap, [Retiring(OpRetire(r.queue))], None, Done)
    ensures Take(s, Turn(now, Advance(u))) ==
      s.(db := RetireQueue(s.db, r.queue), threads := s.threads[u := Running(Retiral(r), snap, [], None, Done)])
  {
    hide RetireQueue;
    assert [Retiring(OpRetire(r.queue))][1..] == [];
  }

  lemma SendActs(s: Sys, now: Nanos, t: nat, r: Race, snap: Snapshot)
    requires t < |s.threads| && Appends(s.db, now, Storing(r))
    requires s.threads[t] == Running(Sending(r), snap, [Storing(r)], None, Done)
    ensures Take(s, Turn(now, Advance(t))).threads == s.threads[t := Running(Sending(r), snap, [], None, Done)]
  {
    hide AppendMessage, ClampMessageTtl;
    assert [Storing(r)][1..] == [];
  }

  lemma RaceActs(s: Sys, now: Nanos, t: nat, u: nat, r: Race, snap: Snapshot)
    requires t < u < |s.threads| && Valid(s.db) && Ready(s.db, now, r)
    requires s.threads[t] == Running(Sending(r), snap, [Storing(r)], None, Done)
    requires s.threads[u] == Running(Retiral(r), snap, [Retiring(OpRetire(r.queue))], None, Done)
    ensures
      var next := Both(s, now, u, t);
      && |next.threads| == |s.threads|
      && next.threads[t] == Running(Sending(r), snap, [], None, Done)
      && next.threads[u] == Running(Retiral(r), snap, [], None, Done)
      && Retired(next.db, r.queue) && HasRow(next.db.messages, r.queue)
  {
    hide Take, Valid, Appends, RetireQueue, Retired, HasRow, ApplyRetireOp, ClampMessageTtl;
    RoomStays(s.db, now, r);
    RetireStep(s.db, now, r.queue);
    RetireOpKeepsValid(s.db, OpRetire(r.queue));
    RetireActs(s, now, u, r, snap);
    var mid := Take(s, Turn(now, Advance(u)));
    SendActs(mid, now, t, r, snap);
    StoringFills(mid, Turn(now, Advance(t)), r.queue);
  }

  lemma RaceFinishes(s: Sys, now: Nanos, t: nat, u: nat, r: Race, snap: Snapshot)
    requires t < u < |s.threads|
    requires s.threads[t] == Running(Sending(r), snap, [], None, Done)
    requires s.threads[u] == Running(Retiral(r), snap, [], None, Done)
    ensures
      var next := Both(s, now, t, u);
      && next.db == s.db && |next.threads| == |s.threads|
      && next.threads[t] == Finished(Sending(r), Sent(r.newId)) && next.threads[u] == Finished(Retiral(r), Acknowledged)
  {
  }

  /** The race from its requests: they arrive, look up, are authorised, act and are answered. */
  function RaceEnd(s: Sys, now: Nanos, r: Race): Sys {
    var t, u := |s.threads|, |s.threads| + 1;
    var ready := Both(Both(Arrived(s, now, Sending(r), Retiral(r)), now, t, u), now, t, u);
    Both(Both(ready, now, u, t), now, t, u)
  }

  /** On any live bound queue with room: a send and a retirement arrive, both look the queue up and
      are authorised, the retirement acts first, and the send is accepted all the same: the retired
      queue holds its message. */
  lemma RetiredCanHold(s: Sys, now: Nanos, r: Race)
    requires Valid(s.db) && Ready(s.db, now, r) && BothSigned(s.db, s.seen, now, r)
    ensures
      var t, u, end := |s.threads|, |s.threads| + 1, RaceEnd(s, now, r);
      && u < |end.threads|
      && end.threads[t] == Finished(Sending(r), Sent(r.newId)) && end.threads[u] == Finished(Retiral(r), Acknowledged)
      && Retired(end.db, r.queue) && HasRow(end.db.messages, r.queue)
  {
    hide Valid, Authenticate, Appends, Both;
    var t, u := |s.threads|, |s.threads| + 1;
    var s0 := Arrived(s, now, Sending(r), Retiral(r));
    assert s0 == s.(threads := s.threads + [Start(Sending(r))] + [Start(Retiral(r))]);
    var s1 := Both(s0, now, t, u);
    BothLookUp(s0, now, t, u, Sending(r), Retiral(r));
    var snap := QueueRow(r.queue, s.db.queues[r.queue]);
    assert s1.threads[t] == Looked(Sending(r), snap) && s1.threads[u] == Looked(Retiral(r), snap);
    hide Arrived, Ready, BothSigned, Retired, HasRow;
    var s2 := Both(s1, now, t, u);
    RaceAuthorised(s1, now, t, u, r);
    var s3 := Both(s2, now, u, t);
    RaceActs(s2, now, t, u, r, snap);
    RaceFinishes(s3, now, t, u, r, snap);
  }
}
