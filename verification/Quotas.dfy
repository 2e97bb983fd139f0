/** The three storage ceilings over whole runs, and how bytes add up between the levels. */
module Quotas {
  import opened Results
  import opened Tables
  import opened StoreSpec
  import opened RowFacts
  import opened Integrity
  import opened Cascade
  import opened Handlers
  import opened Runs

  /** The ceiling in force at a level; 0 or less, or no such row, is none. */
  function Ceiling(db: Db, w: Where): int
    requires IsLevel(w)
  {
    match w
    case InQueue(q) => if q in db.queues then db.queues[q].quotaBytes else 0
    case OwnedBy(d) => if d in db.devices then db.devices[d].quotaBytes else 0
    case InAccount(a) => if a in db.accounts then db.accounts[a].quotaBytes else 0
  }

  /** There is a row whose ceiling this is. */
  predicate HasLevel(db: Db, w: Where) {
    match w
    case InQueue(q) => q in db.queues
    case OwnedBy(d) => d in db.devices
    case InAccount(a) => a in db.accounts
    case _ => false
  }

  /** The level has a ceiling, and this many more live bytes would go over it. */
  predicate Over(db: Db, w: Where, at: Stamp, size: nat)
    requires IsLevel(w)
  {
    Ceiling(db, w) > 0 && Stored(db, w, at) + size > Ceiling(db, w)
  }

  function Max(a: int, b: int): int {
    if a < b then b else a
  }

  // ---- bytes through one step

  /** The joins of the byte sums read columns that never change. */
  lemma JoinsStable(ms: seq<Message>, db: Db, next: Db, w: Where)
    requires Linked(db) && Ages(db, next) && IsLevel(w)
    requires forall m :: m in ms ==> m.queue in db.queues
    ensures SameChoice(ms, db.queues, db.devices, w, next.queues, next.devices, w)
  {
    forall i | 0 <= i < |ms|
      ensures Selects(db.queues, db.devices, w, ms[i]) == Selects(next.queues, next.devices, w, ms[i])
    {
      var q := ms[i].queue;
      assert ms[i] in ms;
      assert QueueAges(db.queues[q], next.queues[q]);
      assert DeviceAges(db.devices[db.queues[q].owner], next.devices[db.queues[q].owner]);
    }
  }

  /** A step that appends nothing adds no live bytes anywhere. */
  lemma OnlyAppendsAddBytes(db: Db, now: Nanos, op: Op, w: Where, at: Stamp)
    requires Valid(db) && IsLevel(w) && !Appends(db, now, op)
    ensures Stored(After(db, now, op), w, at) <= Stored(db, w, at)
  {
    hide Apply, Appends, Ages, Deletion, Ascending, Indexed;
    var next := After(db, now, op);
    StepAges(db, now, op);
    MessagesAfter(db, now, op);
    match Deletion(db, now, op)
    case None =>
      JoinsStable(db.messages, db, next, w);
      ChoiceWeighs(db.messages, db.queues, db.devices, w, next.queues, next.devices, w, at);
    case Some(gone) =>
      SelectedIff(db.messages, db.queues, db.devices, gone);
      JoinsStable(next.messages, db, next, w);
      ChoiceWeighs(next.messages, db.queues, db.devices, w, next.queues, next.devices, w, at);
      DeletionShrinks(db.messages, db.queues, db.devices, gone, w, at);
  }

  /** An accepted append adds its payload at the levels it belongs to, and fits their ceilings. */
  lemma AppendFits(db: Db, now: Nanos, op: Op, w: Where, at: Stamp)
    requires IsLevel(w) && Appends(db, now, op) && at >= Seconds(now)
    ensures Ceiling(db, w) > 0 ==> Stored(After(db, now, op), w, at) <= Max(Ceiling(db, w), Stored(db, w, at))
  {
    var m := Appended(db, now, op);
    var next := After(db, now, op);
    assert next.messages == db.messages + [m] && next.queues == db.queues && next.devices == db.devices;
    RemainingSnoc(db.messages, m, db.queues, db.devices, w, at);
    BytesDecay(db.messages, db.queues, db.devices, w, Seconds(now), at);
  }

  /** One step: at a level with a ceiling, the bytes live at any time from the step's clock reading on
      end within it or no higher than they were. */
  lemma StepRespectsCeiling(db: Db, now: Nanos, op: Op, w: Where, at: Stamp)
    requires Valid(db) && IsLevel(w) && at >= Seconds(now) && Ceiling(db, w) > 0
    ensures Stored(After(db, now, op), w, at) <= Max(Ceiling(db, w), Stored(db, w, at))
  {
    hide Valid, Apply, Appends, Stored, Ceiling;
    if Appends(db, now, op) {
      AppendFits(db, now, op, w, at);
    } else {
      OnlyAppendsAddBytes(db, now, op, w, at);
    }
  }

  // ---- who can change a ceiling

  /** The ceiling a step writes at a level, if it does. */
  function RecapOf(op: Op, w: Where): Option<int> {
    match op
    case OnQueues(OpSetQueueQuota(rid, bytes)) => if w == InQueue(rid) then Some(bytes) else None
    case OnDevices(OpSetDeviceQuota(id, bytes)) => if w == OwnedBy(id) then Some(bytes) else None
    case _ => None
  }

  predicate Recaps(op: Op, w: Where) {
    RecapOf(op, w).Some?
  }

  /** The ceiling a request asks for at a level, if it does. */
  function AskedCeiling(req: Request, w: Where): Option<int> {
    match req
    case Receive(rid, _, SetQuota(bytes)) => if w == InQueue(rid) then Some(bytes) else None
    case Operate(CapDevice(id, bytes)) => if w == OwnedBy(id) then Some(bytes) else None
    case _ => None
  }

  predicate AsksToRecap(req: Request, w: Where) {
    AskedCeiling(req, w).Some?
  }

  /** A ceiling written with success is the one in force. */
  lemma RecapWrites(db: Db, now: Nanos, op: Op, w: Where)
    requires IsLevel(w) && RecapOf(op, w).Some? && !Apply(db, now, op).1.Failed?
    ensures HasLevel(After(db, now, op), w) && Ceiling(After(db, now, op), w) == RecapOf(op, w).value
  {
  }

  /** A ceiling asked for and acknowledged is the one in force. */
  lemma AcknowledgedRecap(r: Relay, now: Nanos, req: Request, w: Where)
    requires IsLevel(w) && AsksToRecap(req, w) && Serve(r, now, req).1 == Acknowledged
    ensures
      var after := Serve(r, now, req).0.db;
      HasLevel(after, w) && Ceiling(after, w) == AskedCeiling(req, w).value
  {
    hide Authenticate;
    match VerdictOn(r, now, req)
    case Refuse(_) =>
    case Proceed(ops, last) =>
      OneStep(r.db, now, req, Lookup(r.db, req), ops[0]);
      RecapWrites(r.db, now, ops[0], w);
  }

  lemma QueueOpKeepsCeiling(db: Db, op: QueueOp, w: Where)
    requires IsLevel(w) && !Recaps(OnQueues(op), w) && HasLevel(db, w)
    ensures Ceiling(ApplyQueueOp(db, op).0, w) == Ceiling(db, w)
  {
    match op
    case OpCreateQueue(owner, key, rid, sid) =>
      if CreateQueue(db, owner, key, rid, sid).Ok? {}
    case OpBind(sid, key) =>
      if Bindable(db, sid) {}
    case OpSetQueueQuota(rid, bytes) =>
      if SetQueueQuota(db, rid, bytes).Ok? {}
  }

  lemma DeviceOpKeepsCeiling(db: Db, now: Nanos, op: DeviceOp, w: Where)
    requires IsLevel(w) && !Recaps(OnDevices(op), w) && HasLevel(db, w)
    ensures Ceiling(ApplyDeviceOp(db, now, op).0, w) == Ceiling(db, w)
  {
    match op
    case OpRegister(token, device, pub, push) =>
      if RegisterDevice(db, now, token, device, pub, push).Ok? {}
    case OpSetRole(account, device, role) =>
      if SetDeviceRole(db, account, device, role).Ok? {}
    case OpPromote(device) =>
      if PromoteDevice(db, device).Ok? {}
    case OpUpdatePush(device, push) =>
      if device in db.devices {}
    case OpSetBundle(device, blob) =>
      if SetBundle(db, device, blob).Ok? {}
    case OpSetDeviceQuota(device, bytes) =>
      if SetDeviceQuota(db, device, bytes).Ok? {}
  }

  lemma AccountOpKeepsCeiling(db: Db, now: Nanos, op: AccountOp, w: Where)
    requires IsLevel(w) && HasLevel(db, w)
    ensures Ceiling(ApplyAccountOp(db, now, op).0, w) == Ceiling(db, w)
  {
    hide ApplyAccountOp;
    AccountOpFrame(db, now, op);
    AccountOpAges(db, now, op);
  }

  lemma DisableKeepsCeiling(db: Db, id: Id, w: Where)
    requires IsLevel(w)
    ensures Ceiling(Disable(db, id), w) == Ceiling(db, w)
  {
    hide Remaining;
  }

  lemma RetireOpKeepsCeiling(db: Db, op: RetireOp, w: Where)
    requires IsLevel(w) && HasLevel(db, w)
    ensures Ceiling(ApplyRetireOp(db, op).0, w) == Ceiling(db, w)
  {
    hide Remaining, Disable, StripsLastAdmin;
    match op
    case OpRevoke(caller, device) =>
      DisableKeepsCeiling(db, device, w);
      if RevokeDevice(db, caller, device).Ok? {}
    case OpRetire(rid) =>
      if rid in db.queues {}
  }

  /** A ceiling once set stays until it is written again. */
  lemma CeilingStays(db: Db, now: Nanos, op: Op, w: Where)
    requires Valid(db) && IsLevel(w) && !Recaps(op, w) && HasLevel(db, w)
    ensures Ceiling(After(db, now, op), w) == Ceiling(db, w)
  {
    hide Valid, Recaps, ApplyAccountOp, ApplyDeviceOp, ApplyQueueOp, ApplyRetireOp, ApplyMessageOp;
    match op
    case OnAccounts(o) => AccountOpKeepsCeiling(db, now, o, w);
    case OnDevices(o) => DeviceOpKeepsCeiling(db, now, o, w);
    case OnQueues(o) => QueueOpKeepsCeiling(db, o, w);
    case Retiring(o) => RetireOpKeepsCeiling(db, o, w);
    case OnMessages(o) => MessageOpFrame(db, now, o);
    case Reading(query) =>
  }

  /** Writing a ceiling deletes nothing. */
  lemma RecappingDeletesNothing(db: Db, now: Nanos, op: Op, w: Where)
    requires Recaps(op, w)
    ensures After(db, now, op).messages == db.messages
  {
    hide ApplyDeviceOp, ApplyQueueOp;
    MessagesAfter(db, now, op);
  }

  // ---- whole runs

  /** The level is there, its ceiling stands, and if positive it binds the bytes live at this time. */
  ghost predicate CeilingKept(db: Db, next: Db, w: Where, at: Stamp)
    requires IsLevel(w)
  {
    && HasLevel(next, w) && Ceiling(next, w) == Ceiling(db, w)
    && (Ceiling(db, w) > 0 ==> Stored(next, w, at) <= Max(Ceiling(db, w), Stored(db, w, at)))
  }

  lemma StepKeepsCeiling(db: Db, now: Nanos, op: Op, w: Where, at: Stamp)
    requires Valid(db) && IsLevel(w) && HasLevel(db, w) && at >= Seconds(now) && !Recaps(op, w)
    ensures CeilingKept(db, After(db, now, op), w, at)
  {
    hide Valid, Apply, Recaps, Stored, Ceiling, HasLevel;
    CeilingStays(db, now, op, w);
    LevelStays(db, now, op, w);
    if Ceiling(db, w) > 0 { StepRespectsCeiling(db, now, op, w, at); }
  }

  lemma LevelStays(db: Db, now: Nanos, op: Op, w: Where)
    requires Valid(db) && HasLevel(db, w)
    ensures HasLevel(After(db, now, op), w)
  {
    hide Valid, Apply;
    StepAges(db, now, op);
  }

  lemma {:induction false} ExecuteRespectsCeiling(
      db: Db, now: Nanos, req: Request, snap: Snapshot, ops: seq<Op>, last: Option<Response>, reply: Reply,
      w: Where, at: Stamp)
    requires Valid(db) && IsLevel(w) && HasLevel(db, w) && at >= Seconds(now)
    requires forall i :: 0 <= i < |ops| ==> !Recaps(ops[i], w)
    ensures CeilingKept(db, Execute(db, now, req, snap, ops, last, reply).0, w, at)
    decreases |ops|
  {
    hide Valid, Apply, Recaps, Stored, Ceiling, HasLevel;
    if ops != [] {
      var r := Apply(db, now, ops[0]);
      StepKeepsValid(db, now, ops[0]);
      StepKeepsCeiling(db, now, ops[0], w, at);
      if Stop(ops[0], r.1).None? {
        ExecuteRespectsCeiling(r.0, now, req, snap, ops[1..], last, r.1, w, at);
      }
    }
  }

  lemma OnlyAskedRecaps(r: Relay, now: Nanos, req: Request, w: Where, i: nat)
    requires i < |Granted(VerdictOn(r, now, req))| && Recaps(Granted(VerdictOn(r, now, req))[i], w)
    ensures AsksToRecap(req, w)
  {
    hide Authenticate;
  }

  lemma ServeRespectsCeiling(r: Relay, now: Nanos, req: Request, w: Where, at: Stamp)
    requires Valid(r.db) && IsLevel(w) && HasLevel(r.db, w) && at >= Seconds(now)
    requires !AsksToRecap(req, w)
    ensures CeilingKept(r.db, Serve(r, now, req).0.db, w, at)
  {
    hide Valid, Authorise, Execute, Recaps, AsksToRecap, Stored, Ceiling, HasLevel;
    match VerdictOn(r, now, req)
    case Refuse(_) =>
    case Proceed(ops, last) =>
      forall i | 0 <= i < |ops| ensures !Recaps(ops[i], w) {
        if Recaps(ops[i], w) { OnlyAskedRecaps(r, now, req, w, i); }
      }
      ExecuteRespectsCeiling(r.db, now, req, Lookup(r.db, req), ops, last, Done, w, at);
  }

  lemma SecondsMonotone(t: Nanos, u: Nanos)
    requires t <= u
    ensures Seconds(t) <= Seconds(u)
  {
  }

  /** An attempt to write a ceiling that is not acknowledged writes nothing. */
  lemma RefusedRecap(r: Relay, now: Nanos, req: Request, w: Where)
    requires AsksToRecap(req, w) && Serve(r, now, req).1 != Acknowledged
    ensures Serve(r, now, req).0.db == r.db
  {
    hide Authenticate;
    match VerdictOn(r, now, req)
    case Refuse(_) =>
    case Proceed(ops, last) => OneStep(r.db, now, req, Lookup(r.db, req), ops[0]);
  }

  /** The i-th request of a run writes the level's ceiling, with success. */
  predicate SetsCeiling(start: Relay, evs: seq<Event>, i: nat, w: Where)
    requires i < |evs|
  {
    AsksToRecap(evs[i].req, w) && AnswerTo(start, evs, i) == Acknowledged
  }

  /** From any valid state, through any run in which nobody sets a level's ceiling: the ceiling
      stands, and the bytes live at that level at any time from the run's last clock reading on
      never exceed the larger of the ceiling and what was there at the start and is live then. */
  lemma {:induction false} CeilingHolds(start: Relay, evs: seq<Event>, w: Where, at: Stamp)
    requires Valid(start.db) && IsLevel(w) && HasLevel(start.db, w)
    requires forall i :: 0 <= i < |evs| ==> at >= Seconds(evs[i].now) && !SetsCeiling(start, evs, i, w)
    ensures CeilingKept(start.db, State(start, evs).db, w, at)
  {
    hide Valid, Serve, AsksToRecap, Stored, Ceiling, HasLevel, Ages;
    if evs != [] {
      var n := |evs| - 1;
      var mid, e := State(start, evs[..n]), evs[n];
      forall i | 0 <= i < n ensures !SetsCeiling(start, evs[..n], i, w) { SetsCeilingCut(start, evs, n, i, w); }
      CeilingHolds(start, evs[..n], w, at);
      if AsksToRecap(e.req, w) {
        assert !SetsCeiling(start, evs, n, w);
        RefusedRecap(mid, e.now, e.req, w);
      } else {
        RunKeepsValid(start, evs[..n]);
        ServeRespectsCeiling(mid, e.now, e.req, w, at);
      }
    }
  }

  lemma SetsCeilingCut(start: Relay, evs: seq<Event>, n: nat, i: nat, w: Where)
    requires i < n <= |evs|
    ensures SetsCeiling(start, evs[..n], i, w) == SetsCeiling(start, evs, i, w)
  {
    hide Serve;
    assert evs[..n][..i] == evs[..i];
  }

  lemma SetsCeilingRest(start: Relay, evs: seq<Event>, k: nat, i: nat, w: Where)
    requires k <= |evs| && i < |evs| - k
    ensures SetsCeiling(State(start, evs[..k]), evs[k..], i, w) == SetsCeiling(start, evs, k + i, w)
  {
    hide Serve;
    StateSplit(start, evs[..k + i], k);
    assert evs[..k + i][..k] == evs[..k] && evs[..k + i][k..] == evs[k..][..i];
  }

  /** Over any run: the ceiling in force is the one the last acknowledged request asked for, and if
      that is positive, from then on the live bytes never exceed the larger of it and what was there
      when it was set and is still live. */
  lemma SinceLastSet(evs: seq<Event>, k: nat, w: Where, at: Stamp)
    requires k < |evs| && IsLevel(w) && SetsCeiling(EmptyRelay, evs, k, w)
    requires forall i :: k < i < |evs| ==> at >= Seconds(evs[i].now) && !SetsCeiling(EmptyRelay, evs, i, w)
    ensures
      var asked := AskedCeiling(evs[k].req, w).value;
      var capped, end := State(EmptyRelay, evs[..k + 1]).db, State(EmptyRelay, evs).db;
      && HasLevel(end, w) && Ceiling(end, w) == asked
      && (asked > 0 ==> Stored(end, w, at) <= Max(asked, Stored(capped, w, at)))
  {
    hide Valid, Serve, Stored, Ceiling, HasLevel, Ages, AskedCeiling;
    var upTo, rest := evs[..k + 1], evs[k + 1..];
    var capped := State(EmptyRelay, upTo);
    assert upTo[..k] == evs[..k];
    AcknowledgedRecap(State(EmptyRelay, evs[..k]), evs[k].now, evs[k].req, w);
    EmptyIsValid();
    RunKeepsValid(EmptyRelay, upTo);
    StateSplit(EmptyRelay, evs, k + 1);
    forall i | 0 <= i < |rest| ensures !SetsCeiling(capped, rest, i, w) {
      SetsCeilingRest(EmptyRelay, evs, k + 1, i, w);
    }
    assert forall i :: 0 <= i < |rest| ==> rest[i] == evs[k + 1 + i];
    CeilingHolds(capped, rest, w, at);
  }

  // ---- the account level, from an empty database

  /** No account holds more live bytes than its ceiling. */
  ghost predicate AccountsWithin(db: Db, at: Stamp) {
    forall a :: a in db.accounts ==> Stored(db, InAccount(a), at) <= db.accounts[a].quotaBytes
  }

  lemma NewAccountHoldsNothing(db: Db, now: Nanos, op: Op, account: Id, at: Stamp)
    requires Valid(db) && account !in db.accounts && account in After(db, now, op).accounts
    ensures Stored(After(db, now, op), InAccount(account), at) == 0
  {
    hide ApplyAccountOp, ApplyDeviceOp, ApplyQueueOp, ApplyRetireOp, ApplyMessageOp, Ascending, Indexed;
    match op
    case OnAccounts(o) =>
      AccountOpFrame(db, now, o);
      NobodyHome(db, account, at);
    case OnDevices(o) => DeviceOpFrame(db, now, o);
    case OnQueues(o) => QueueOpFrame(db, o);
    case Retiring(o) => RetireOpFrame(db, o);
    case OnMessages(o) => MessageOpFrame(db, now, o);
    case Reading(query) =>
  }

  lemma NobodyHome(db: Db, account: Id, at: Stamp)
    requires Linked(db) && account !in db.accounts
    ensures Stored(db, InAccount(account), at) == 0
  {
    NoneSelected(db.messages, db.queues, db.devices, InAccount(account), at);
  }

  lemma {:induction false} NoneSelected(ms: seq<Message>, queues: Queues, devices: Devices, w: Where, at: Stamp)
    requires forall m :: m in ms && Selects(queues, devices, w, m) ==> m.expires <= at
    ensures LiveBytes(ms, queues, devices, w, at) == 0
  {
    if ms != [] {
      var init := ms[..|ms| - 1];
      assert forall m :: m in init ==> m in ms;
      assert ms[|ms| - 1] in ms;
      NoneSelected(init, queues, devices, w, at);
    }
  }

  lemma StepKeepsAccountsWithin(db: Db, now: Nanos, op: Op, at: Stamp)
    requires Valid(db) && AccountsWithin(db, at) && at >= Seconds(now)
    ensures AccountsWithin(After(db, now, op), at)
  {
    hide Apply, Stored, Linked, Indexed, Ascending;
    var next := After(db, now, op);
    StepAges(db, now, op);
    StepKeepsValid(db, now, op);
    forall a | a in next.accounts ensures Stored(next, InAccount(a), at) <= next.accounts[a].quotaBytes {
      if a in db.accounts {
        assert AccountsAge(db.accounts, next.accounts);
        StepRespectsCeiling(db, now, op, InAccount(a), at);
      } else {
        NewAccountHoldsNothing(db, now, op, a, at);
      }
    }
  }

  lemma {:induction false} ExecuteKeepsAccountsWithin(
      db: Db, now: Nanos, req: Request, snap: Snapshot, ops: seq<Op>, last: Option<Response>, reply: Reply, at: Stamp)
    requires Valid(db) && AccountsWithin(db, at) && at >= Seconds(now)
    ensures AccountsWithin(Execute(db, now, req, snap, ops, last, reply).0, at)
    decreases |ops|
  {
    hide Valid, Apply, AccountsWithin;
    if ops != [] {
      var r := Apply(db, now, ops[0]);
      StepKeepsValid(db, now, ops[0]);
      StepKeepsAccountsWithin(db, now, ops[0], at);
      if Stop(ops[0], r.1).None? {
        ExecuteKeepsAccountsWithin(r.0, now, req, snap, ops[1..], last, r.1, at);
      }
    }
  }

  /** In every reachable state, at any time from the run's last clock reading on, every account is
      within its ceiling. */
  lemma {:induction false} AccountCeilings(evs: seq<Event>, at: Stamp)
    requires forall i :: 0 <= i < |evs| ==> at >= Seconds(evs[i].now)
    ensures AccountsWithin(State(EmptyRelay, evs).db, at)
  {
    hide Valid, Authorise, Execute, AccountsWithin, Ages;
    if evs == [] {
      EmptyWithin(at);
    } else {
      var n := |evs| - 1;
      var mid, e := State(EmptyRelay, evs[..n]), evs[n];
      AccountCeilings(evs[..n], at);
      EmptyIsValid();
      RunKeepsValid(EmptyRelay, evs[..n]);
      match VerdictOn(mid, e.now, e.req)
      case Refuse(_) =>
      case Proceed(ops, last) =>
        ExecuteKeepsAccountsWithin(mid.db, e.now, e.req, Lookup(mid.db, e.req), ops, last, Done, at);
    }
  }

  lemma EmptyWithin(at: Stamp)
    ensures AccountsWithin(EmptyDb, at)
  {
  }
}
