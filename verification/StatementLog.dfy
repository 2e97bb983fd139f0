/**
  The administrative log: trimmed to its newest 256 entries, it is still the tail of the log that
  is never trimmed, and a reader who keeps up cannot tell the difference.
  */
module StatementLog {
  import opened Results
  import opened Tables
  import opened StoreSpec
  import opened Integrity
  import opened Handlers
  import opened Runs
  import opened Effects

  // ---- the log that is never trimmed

  /** Statements number from + 1 to |history|, with their blobs. */
  function Numbered(history: seq<Bytes>, from: nat): seq<Statement>
    requires from <= |history|
    decreases |history|
  {
    var n := |history|;
    if from == n then [] else Numbered(history[..n - 1], from) + [Statement(n, history[n - 1])]
  }

  /** How many of n statements have been trimmed away. */
  function Trimmed(n: nat): nat {
    if n <= MAX_STATEMENTS then 0 else n - MAX_STATEMENTS
  }

  /** The tail the store keeps. */
  function Window(history: seq<Bytes>): seq<Statement> {
    Numbered(history, Trimmed(|history|))
  }

  lemma {:induction false} NumberedAt(history: seq<Bytes>, from: nat, i: nat)
    requires from <= |history| && i < |history| - from
    ensures |Numbered(history, from)| == |history| - from
    ensures Numbered(history, from)[i] == Statement(from + i + 1, history[from + i])
    decreases |history|
  {
    var n := |history|;
    NumberedSize(history[..n - 1], from);
    if i < n - 1 - from { NumberedAt(history[..n - 1], from, i); }
  }

  lemma {:induction false} NumberedSize(history: seq<Bytes>, from: nat)
    requires from <= |history|
    ensures |Numbered(history, from)| == |history| - from
    decreases |history|
  {
    if from < |history| { NumberedSize(history[..|history| - 1], from); }
  }

  lemma {:induction false} NumberedMax(history: seq<Bytes>, from: nat)
    requires from <= |history|
    ensures MaxSeqno(Numbered(history, from)) == if from == |history| then 0 else |history|
    decreases |history|
  {
    if from < |history| {
      var init := history[..|history| - 1];
      NumberedMax(init, from);
      MaxSnoc(Numbered(init, from), Statement(|history|, history[|history| - 1]));
    }
  }

  lemma MaxSnoc(log: seq<Statement>, s: Statement)
    ensures MaxSeqno(log + [s]) == if s.seqno > MaxSeqno(log) then s.seqno else MaxSeqno(log)
  {
    assert (log + [s])[..|log|] == log;
  }

  lemma {:induction false} MaxConcat(log: seq<Statement>, more: seq<Statement>)
    ensures MaxSeqno(log + more) == if MaxSeqno(more) > MaxSeqno(log) then MaxSeqno(more) else MaxSeqno(log)
  {
    if more == [] {
      assert log + more == log;
    } else {
      var init, last := more[..|more| - 1], more[|more| - 1];
      MaxConcat(log, init);
      assert log + more == (log + init) + [last];
      MaxSnoc(log + init, last);
    }
  }

  lemma SinceSnoc(log: seq<Statement>, s: Statement, since: int)
    ensures Since(log + [s], since) == Since(log, since) + if s.seqno > since then [s] else []
  {
    assert (log + [s])[..|log|] == log;
  }

  function Clip(x: int, lo: nat, hi: nat): nat
    requires lo <= hi
  {
    if x <= lo then lo else if x >= hi then hi else x
  }

  lemma {:induction false} NumberedSince(history: seq<Bytes>, from: nat, since: int)
    requires from <= |history|
    ensures Since(Numbered(history, from), since) == Numbered(history, Clip(since, from, |history|))
    decreases |history|
  {
    var n := |history|;
    if from < n {
      var init := history[..n - 1];
      NumberedSince(init, from, since);
      SinceSnoc(Numbered(init, from), Statement(n, history[n - 1]), since);
    }
  }

  lemma {:induction false} NumberedSplit(history: seq<Bytes>, from: nat, mid: nat)
    requires from <= mid <= |history|
    ensures Numbered(history[..mid], from) + Numbered(history, mid) == Numbered(history, from)
    decreases |history|
  {
    var n := |history|;
    if mid == n {
      assert history[..mid] == history;
    } else {
      var init := history[..n - 1];
      NumberedSplit(init, from, mid);
      assert init[..mid] == history[..mid];
    }
  }

  lemma NumberedSnoc(history: seq<Bytes>, from: nat, blob: Bytes)
    requires from <= |history|
    ensures Numbered(history + [blob], from) == Numbered(history, from) + [Statement(|history| + 1, blob)]
  {
    assert (history + [blob])[..|history|] == history;
  }

  /** Appending to the tail gives the tail of the longer log, numbered by the lifetime count. */
  lemma AppendRefines(history: seq<Bytes>, blob: Bytes)
    ensures MaxSeqno(Window(history)) == |history|
    ensures AppendToLog(Window(history), blob) == Window(history + [blob])
  {
    hide Numbered, Since, MaxSeqno;
    var n := |history|;
    NumberedMax(history, Trimmed(n));
    NumberedSnoc(history, Trimmed(n), blob);
    NumberedSince(history + [blob], Trimmed(n), n + 1 - MAX_STATEMENTS);
  }

  // ---- a reader

  datatype Act = Write(blob: Bytes) | Poll

  /** What was written, what the store keeps, and what the reader has been given. */
  datatype World = World(history: seq<Bytes>, log: seq<Statement>, got: seq<Statement>)

  /** The reader polls with the highest number it has. */
  function Step(w: World, act: Act): World {
    match act
    case Write(blob) => w.(history := w.history + [blob], log := AppendToLog(w.log, blob))
    case Poll => w.(got := w.got + Since(w.log, MaxSeqno(w.got)))
  }

  function Play(acts: seq<Act>): World {
    if acts == [] then World([], [], []) else Step(Play(acts[..|acts| - 1]), acts[|acts| - 1])
  }

  /** No poll ever found the reader more than 256 statements behind. */
  predicate KeepsUp(acts: seq<Act>) {
    acts != [] ==>
      var w := Play(acts[..|acts| - 1]);
      KeepsUp(acts[..|acts| - 1])
      && (acts[|acts| - 1].Poll? ==> |w.history| - MaxSeqno(w.got) <= MAX_STATEMENTS)
  }

  /** What the reader has: everything up to its last poll, or something with a gap. */
  ghost predicate Informed(w: World, whole: bool) {
    var k := MaxSeqno(w.got);
    && w.log == Window(w.history)
    && k <= |w.history|
    && (if whole then w.got == Numbered(w.history[..k], 0) else |w.got| < k)
  }

  lemma WriteInforms(w: World, blob: Bytes, whole: bool)
    requires Informed(w, whole)
    ensures Informed(Step(w, Write(blob)), whole)
  {
    AppendRefines(w.history, blob);
    var k := MaxSeqno(w.got);
    assert (w.history + [blob])[..k] == w.history[..k];
  }

  lemma PollInforms(w: World, whole: bool)
    requires Informed(w, whole)
    ensures Informed(Step(w, Poll), whole && |w.history| - MaxSeqno(w.got) <= MAX_STATEMENTS)
    ensures MaxSeqno(Step(w, Poll).got) == |w.history|
  {
    hide Numbered, MaxSeqno, Since;
    var h, k := w.history, MaxSeqno(w.got);
    var n := |h|;
    var from := Clip(k, Trimmed(n), n);
    NumberedSince(h, Trimmed(n), k);
    NumberedMax(h, from);
    NumberedSize(h, from);
    MaxConcat(w.got, Numbered(h, from));
    assert h[..n] == h;
    if whole {
      NumberedSize(h[..k], 0);
      if from == k { NumberedSplit(h, 0, k); }
    }
  }

  lemma {:induction false} ReaderInformed(acts: seq<Act>)
    ensures Informed(Play(acts), KeepsUp(acts))
  {
    hide Informed, Step;
    if acts == [] {
      NothingYet();
    } else {
      var init, last := acts[..|acts| - 1], acts[|acts| - 1];
      ReaderInformed(init);
      match last
      case Write(blob) => WriteInforms(Play(init), blob, KeepsUp(init));
      case Poll => PollInforms(Play(init), KeepsUp(init));
    }
  }

  lemma NothingYet()
    ensures Informed(World([], [], []), true)
  {
  }

  /** After a poll the reader has the whole history, in order, with no gap and no duplicate,
      exactly if it was never more than 256 statements behind at a poll. */
  lemma ReaderReconstructs(acts: seq<Act>)
    requires acts != [] && acts[|acts| - 1] == Poll
    ensures Play(acts).got == Numbered(Play(acts).history, 0) <==> KeepsUp(acts)
  {
    var init := acts[..|acts| - 1];
    ReaderInformed(acts);
    ReaderInformed(init);
    PollInforms(Play(init), KeepsUp(init));
    var w := Play(acts);
    NumberedSize(w.history, 0);
    assert w.history[..|w.history|] == w.history;
  }

  // ---- in runs of the relay

  predicate From(r: Relay, req: Request, account: Id) {
    req.Manage? && req.device in r.db.devices && r.db.devices[req.device].account == account
  }

  /** The request writes a statement to the account's log. */
  predicate Writes(r: Relay, now: Nanos, req: Request, account: Id) {
    From(r, req, account) && req.call.AskAppendStatement? && Serve(r, now, req).1.Written?
  }

  predicate LogsNothing(op: Op) {
    !(op.OnAccounts? && op.account.OpAppendStatement?)
  }

  lemma QuietStep(db: Db, now: Nanos, op: Op)
    requires LogsNothing(op)
    ensures After(db, now, op).statements == db.statements
  {
    hide ApplyDeviceOp, ApplyQueueOp, ApplyRetireOp, ApplyMessageOp;
    match op
    case OnAccounts(o) => QuietAccountOp(db, now, o);
    case OnDevices(o) => DeviceOpFrame(db, now, o);
    case OnQueues(o) => QueueOpFrame(db, o);
    case Retiring(o) => RetireOpFrame(db, o);
    case OnMessages(o) => MessageOpFrame(db, now, o);
    case Reading(query) =>
  }

  lemma QuietAccountOp(db: Db, now: Nanos, op: AccountOp)
    requires !op.OpAppendStatement?
    ensures ApplyAccountOp(db, now, op).0.statements == db.statements
  {
    match op
    case OpCreateAccount(account, quotaClass, bytes, mode) =>
      if CreateAccount(db, account, quotaClass, bytes, mode).Ok? {}
    case OpCreateInvitation(account, token, invitation, ttl, role) =>
      if CreateInvitation(db, now, account, token, invitation, ttl, role).Ok? {}
    case OpRevokeInvitation(account, invitation) =>
  }

  lemma {:induction false} QuietRequest(
      db: Db, now: Nanos, req: Request, snap: Snapshot, ops: seq<Op>, last: Option<Response>, reply: Reply)
    requires forall i :: 0 <= i < |ops| ==> LogsNothing(ops[i])
    ensures Execute(db, now, req, snap, ops, last, reply).0.statements == db.statements
    decreases |ops|
  {
    hide Apply, LogsNothing, Finish, Stop;
    if ops != [] {
      var r := Apply(db, now, ops[0]);
      QuietStep(db, now, ops[0]);
      if Stop(ops[0], r.1).None? { QuietRequest(r.0, now, req, snap, ops[1..], last, r.1); }
    }
  }

  lemma OnlyAskedWrites(r: Relay, now: Nanos, req: Request)
    requires !(req.Manage? && req.call.AskAppendStatement?)
    ensures forall i :: 0 <= i < |Granted(VerdictOn(r, now, req))| ==> LogsNothing(Granted(VerdictOn(r, now, req))[i])
  {
    hide Authenticate, ResolveSenderKey;
  }

  lemma AskedWrites(db: Db, now: Nanos, req: Request, snap: Snapshot, account: Id, blob: Bytes)
    ensures
      var done := Execute(db, now, req, snap, [OnAccounts(OpAppendStatement(account, blob))], None, Done);
      && (done.1.Written? ==> done == (done.0, Written(MaxSeqno(Log(db, account)) + 1)))
      && done.0.statements ==
           if done.1.Written? then db.statements[account := AppendToLog(Log(db, account), blob)] else db.statements
  {
    hide AppendToLog, MaxSeqno;
    OneStep(db, now, req, snap, OnAccounts(OpAppendStatement(account, blob)));
    if AppendStatement(db, account, blob).Ok? {}
  }

  /** Serving a request appends its statement to its account's log, or leaves every log alone. */
  lemma ServeWrites(r: Relay, now: Nanos, req: Request, account: Id)
    ensures Log(Serve(r, now, req).0.db, account) ==
      if Writes(r, now, req, account) then AppendToLog(Log(r.db, account), req.call.blob) else Log(r.db, account)
    ensures Writes(r, now, req, account) ==> Serve(r, now, req).1 == Written(MaxSeqno(Log(r.db, account)) + 1)
  {
    hide Authenticate, Execute, AppendToLog, MaxSeqno, ResolveSenderKey, SendOps, QueueVerdict, OperatorVerdict;
    var snap := Lookup(r.db, req);
    match VerdictOn(r, now, req)
    case Refuse(_) =>
    case Proceed(ops, last) =>
      if req.Manage? && req.call.AskAppendStatement? {
        AskedWrites(r.db, now, req, snap, snap.device.account, req.call.blob);
      } else {
        OnlyAskedWrites(r, now, req);
        assert ops == Granted(VerdictOn(r, now, req));
        QuietRequest(r.db, now, req, snap, ops, last, Done);
      }
  }

  /** The statements accepted for an account over a run, in order. */
  function Accepted(evs: seq<Event>, account: Id): seq<Bytes> {
    if evs == [] then []
    else
      var e := evs[|evs| - 1];
      var rest := Accepted(evs[..|evs| - 1], account);
      if Writes(State(EmptyRelay, evs[..|evs| - 1]), e.now, e.req, account) then rest + [e.req.call.blob] else rest
  }

  /** After any run an account's rows are the statements numbered max(1, n - 255) to n, with their
      blobs, where n counts all ever accepted. */
  lemma {:induction false} LogIsWindow(evs: seq<Event>, account: Id)
    ensures Log(State(EmptyRelay, evs).db, account) == Window(Accepted(evs, account))
  {
    hide Serve, AppendToLog;
    if evs != [] {
      var init, e := evs[..|evs| - 1], evs[|evs| - 1];
      LogIsWindow(init, account);
      ServeWrites(State(EmptyRelay, init), e.now, e.req, account);
      if Writes(State(EmptyRelay, init), e.now, e.req, account) {
        AppendRefines(Accepted(init, account), e.req.call.blob);
      }
    }
  }

  /** And each accepted statement is told its lifetime number. */
  lemma NumberedByLifetime(evs: seq<Event>, now: Nanos, req: Request, account: Id)
    requires Writes(State(EmptyRelay, evs), now, req, account)
    ensures Serve(State(EmptyRelay, evs), now, req).1 == Written(|Accepted(evs, account)| + 1)
  {
    hide Serve, Writes;
    LogIsWindow(evs, account);
    AppendRefines(Accepted(evs, account), []);
    ServeWrites(State(EmptyRelay, evs), now, req, account);
  }

  /** A successful poll of the account's log by one of its devices. */
  predicate Reads(r: Relay, now: Nanos, req: Request, reader: Id, account: Id) {
    && From(r, req, account) && req.device == reader
    && req.call.AskListStatements? && Serve(r, now, req).1.Statements?
  }

  lemma ReadReturns(r: Relay, now: Nanos, req: Request, reader: Id, account: Id)
    requires Reads(r, now, req, reader, account)
    ensures Serve(r, now, req).1 == Statements(Since(Log(r.db, account), req.call.since))
  {
    hide Authenticate, Execute, Since;
    var snap := Lookup(r.db, req);
    OneStep(r.db, now, req, snap, Reading(OpListStatements(account, req.call.since)));
  }

  /** All a device was given by its polls of the account's log, in order. */
  function Given(evs: seq<Event>, reader: Id, account: Id): seq<Statement> {
    if evs == [] then []
    else
      var e := evs[|evs| - 1];
      var r := State(EmptyRelay, evs[..|evs| - 1]);
      var rest := Given(evs[..|evs| - 1], reader, account);
      if Reads(r, e.now, e.req, reader, account) then rest + Serve(r, e.now, e.req).1.log else rest
  }

  /** Every poll asks for what comes after the highest number the device was given. */
  ghost predicate Diligent(evs: seq<Event>, reader: Id, account: Id) {
    evs != [] ==>
      var init, e := evs[..|evs| - 1], evs[|evs| - 1];
      && Diligent(init, reader, account)
      && (Reads(State(EmptyRelay, init), e.now, e.req, reader, account) ==>
            e.req.call.since == MaxSeqno(Given(init, reader, account)))
  }

  /** The run as the account's log and the reader see it. */
  function Acts(evs: seq<Event>, reader: Id, account: Id): seq<Act> {
    if evs == [] then []
    else
      var e := evs[|evs| - 1];
      var r := State(EmptyRelay, evs[..|evs| - 1]);
      var rest := Acts(evs[..|evs| - 1], reader, account);
      if Writes(r, e.now, e.req, account) then rest + [Write(e.req.call.blob)]
      else if Reads(r, e.now, e.req, reader, account) then rest + [Poll]
      else rest
  }

  lemma PlaySnoc(acts: seq<Act>, act: Act)
    ensures Play(acts + [act]) == Step(Play(acts), act)
  {
    assert (acts + [act])[..|acts|] == acts;
  }

  lemma {:induction false} RunPlays(evs: seq<Event>, reader: Id, account: Id)
    requires Diligent(evs, reader, account)
    ensures Play(Acts(evs, reader, account))
         == World(Accepted(evs, account), Log(State(EmptyRelay, evs).db, account), Given(evs, reader, account))
  {
    hide Serve, AppendToLog, Since, MaxSeqno;
    if evs != [] {
      var init, e := evs[..|evs| - 1], evs[|evs| - 1];
      var r := State(EmptyRelay, init);
      RunPlays(init, reader, account);
      ServeWrites(r, e.now, e.req, account);
      var acts := Acts(init, reader, account);
      if Writes(r, e.now, e.req, account) {
        PlaySnoc(acts, Write(e.req.call.blob));
      } else if Reads(r, e.now, e.req, reader, account) {
        PlaySnoc(acts, Poll);
        ReadReturns(r, e.now, e.req, reader, account);
      }
    }
  }

  /** A device that polls with the highest number it was given has, after a poll, every statement
      ever accepted for its account, in order, exactly if no poll found it more than 256 behind. */
  lemma DiligentReader(evs: seq<Event>, now: Nanos, req: Request, reader: Id, account: Id)
    requires Diligent(evs, reader, account) && Reads(State(EmptyRelay, evs), now, req, reader, account)
    requires req.call.since == MaxSeqno(Given(evs, reader, account))
    ensures
      var all := evs + [Event(now, req)];
      Given(all, reader, account) == Numbered(Accepted(all, account), 0) <==> KeepsUp(Acts(all, reader, account))
  {
    hide Serve, Reads, Writes, KeepsUp, MaxSeqno;
    var all := evs + [Event(now, req)];
    assert all[..|evs|] == evs && all[|evs|] == Event(now, req);
    ReadIsNoWrite(State(EmptyRelay, evs), now, req, reader, account);
    RunPlays(all, reader, account);
    ReaderReconstructs(Acts(all, reader, account));
  }

  lemma ReadIsNoWrite(r: Relay, now: Nanos, req: Request, reader: Id, account: Id)
    requires Reads(r, now, req, reader, account)
    ensures !Writes(r, now, req, account)
  {
    hide Serve;
  }
}
