/**
  Requests served concurrently: each is a thread that takes its lookup, its authorisation and its
  store steps one at a time, and any schedule of threads may come in between.  A store step is one
  transaction and stays atomic; what a thread knows from its lookup may be stale when it acts.
  */
module Interleaving {
  import opened Results
  import opened Tables
  import opened StoreSpec
  import opened Integrity
  import opened Nonces
  import opened Handlers
  import opened Runs

  datatype Thread =
    | Start(req: Request)
    | Looked(req: Request, snap: Snapshot)
    | Running(req: Request, snap: Snapshot, ops: seq<Op>, last: Option<Response>, reply: Reply)
    | Finished(req: Request, answer: Response)

  datatype Sys = Sys(db: Db, seen: Seen, threads: seq<Thread>)

  const EmptySys := Sys(EmptyDb, map[], [])

  /** A new request arrives, or a thread takes its next step. */
  datatype Move = Spawn(req: Request) | Advance(t: nat)

  datatype Turn = Turn(now: Nanos, move: Move)

  function Authorised(auth: (Seen, Verdict), req: Request, snap: Snapshot): Thread {
    match auth.1
    case Refuse(answer) => Finished(req, answer)
    case Proceed(ops, last) => Running(req, snap, ops, last, Done)
  }

  /** What a thread becomes once a store step has replied. */
  function Stepped(th: Thread, reply: Reply): Thread
    requires th.Running? && th.ops != []
  {
    var stop := Stop(th.ops[0], reply);
    if stop.Some? then Finished(th.req, stop.value) else th.(ops := th.ops[1..], reply := reply)
  }

  function Advanced(s: Sys, now: Nanos, t: nat): Sys
    requires t < |s.threads|
  {
    match s.threads[t]
    case Start(req) => s.(threads := s.threads[t := Looked(req, Lookup(s.db, req))])
    case Looked(req, snap) =>
      var auth := Authorise(s.db, s.seen, now, req, snap);
      s.(seen := auth.0, threads := s.threads[t := Authorised(auth, req, snap)])
    case Running(req, snap, ops, last, reply) =>
      if ops == [] then s.(threads := s.threads[t := Finished(req, Finish(req, snap, last, reply))])
      else
        var r := Apply(s.db, now, ops[0]);
        s.(db := r.0, threads := s.threads[t := Stepped(s.threads[t], r.1)])
    case Finished(_, _) => s
  }

  function Take(s: Sys, turn: Turn): Sys {
    match turn.move
    case Spawn(req) => s.(threads := s.threads + [Start(req)])
    case Advance(t) => if t < |s.threads| then Advanced(s, turn.now, t) else s
  }

  /** The system after a schedule. */
  function Play(start: Sys, turns: seq<Turn>): Sys {
    if turns == [] then start else Take(Play(start, turns[..|turns| - 1]), turns[|turns| - 1])
  }

  /** The store step a turn takes, if it takes one. */
  function StepOf(s: Sys, turn: Turn): Option<Op> {
    if turn.move.Advance? && turn.move.t < |s.threads|
       && s.threads[turn.move.t].Running? && s.threads[turn.move.t].ops != []
    then Some(s.threads[turn.move.t].ops[0])
    else None
  }

  /** A turn changes the database by at most one store step. */
  lemma TurnIsOneStep(s: Sys, turn: Turn)
    ensures Take(s, turn).db == match StepOf(s, turn) case None => s.db case Some(op) => After(s.db, turn.now, op)
  {
    hide Apply, Authorise, Lookup, Finish, Stop;
  }

  /** A turn changes no thread but the one it advances. */
  lemma TurnIsOneThread(s: Sys, turn: Turn, t: nat)
    requires t < |s.threads| && turn.move != Advance(t)
    ensures |Take(s, turn).threads| >= |s.threads|
    ensures Take(s, turn).threads[t] == s.threads[t]
  {
    hide Apply, Authorise, Lookup, Finish, Stop;
  }

  lemma ThreadsGrow(s: Sys, turn: Turn)
    ensures |Take(s, turn).threads| == |s.threads| + if turn.move.Spawn? then 1 else 0
    ensures turn.move.Spawn? ==> Take(s, turn).threads == s.threads + [Start(turn.move.req)]
  {
    hide Apply, Authorise, Lookup, Finish, Stop;
  }

  lemma TurnKeepsValid(s: Sys, turn: Turn)
    requires Valid(s.db)
    ensures Valid(Take(s, turn).db)
    ensures Ages(s.db, Take(s, turn).db)
  {
    hide Valid, Ages, Take, StepOf, Apply;
    TurnIsOneStep(s, turn);
    SameAges(s.db);
    match StepOf(s, turn)
    case None =>
    case Some(op) =>
      StepKeepsValid(s.db, turn.now, op);
      StepAges(s.db, turn.now, op);
  }

  /** Under any schedule the database stays valid and what is for ever stays. */
  lemma {:induction false} ScheduleKeepsValid(start: Sys, turns: seq<Turn>)
    requires Valid(start.db)
    ensures Valid(Play(start, turns).db)
    ensures Ages(start.db, Play(start, turns).db)
  {
    hide Valid, Ages, Take;
    SameAges(start.db);
    if turns != [] {
      var init := turns[..|turns| - 1];
      ScheduleKeepsValid(start, init);
      TurnKeepsValid(Play(start, init), turns[|turns| - 1]);
      AgesTransitive(start.db, Play(start, init).db, Play(start, turns).db);
    }
  }

  lemma {:induction false} PlaySplit(start: Sys, turns: seq<Turn>, i: nat)
    requires i <= |turns|
    ensures Play(start, turns) == Play(Play(start, turns[..i]), turns[i..])
    decreases |turns|
  {
    hide Take;
    if i < |turns| {
      var n := |turns| - 1;
      PlaySplit(start, turns[..n], i);
      assert turns[..n][..i] == turns[..i];
      assert turns[i..][..n - i] == turns[..n][i..];
    } else {
      assert turns[..i] == turns;
    }
  }

  // ---- a thread nobody interrupts serves its request atomically

  /** Thread t advances n times in a row, at one clock reading. */
  function Alone(s: Sys, now: Nanos, t: nat, n: nat): Sys
    requires t < |s.threads|
    decreases n
  {
    if n == 0 then s else
      ThreadsGrow(s, Turn(now, Advance(t)));
      Alone(Take(s, Turn(now, Advance(t))), now, t, n - 1)
  }

  lemma {:induction false} FinishedStays(s: Sys, now: Nanos, t: nat, n: nat)
    requires t < |s.threads| && s.threads[t].Finished?
    ensures Alone(s, now, t, n) == s
  {
    if n > 0 { FinishedStays(s, now, t, n - 1); }
  }

  lemma {:induction false} StepsAlone(s: Sys, now: Nanos, t: nat)
    requires t < |s.threads| && s.threads[t].Running?
    ensures
      var th := s.threads[t];
      var done := Execute(s.db, now, th.req, th.snap, th.ops, th.last, th.reply);
      Alone(s, now, t, |th.ops| + 1) == s.(db := done.0, threads := s.threads[t := Finished(th.req, done.1)])
    decreases |s.threads[t].ops|
  {
    hide Apply, Stop, Finish, Lookup, Authorise;
    var th := s.threads[t];
    var turn := Turn(now, Advance(t));
    var next := Take(s, turn);
    if th.ops == [] {
      assert Alone(next, now, t, 0) == next;
    } else if next.threads[t].Finished? {
      FinishedStays(next, now, t, |th.ops|);
    } else {
      StepsAlone(next, now, t);
      var done := Execute(next.db, now, th.req, th.snap, th.ops[1..], th.last, next.threads[t].reply);
      assert next.threads[t := Finished(th.req, done.1)] == s.threads[t := Finished(th.req, done.1)];
    }
  }

  function StepCount(s: Sys, now: Nanos, req: Request): nat {
    3 + |Granted(VerdictOn(Relay(s.db, s.seen), now, req))|
  }

  /** Served without interruption, a request does and is answered what Serve says. */
  lemma UninterruptedIsAtomic(s: Sys, now: Nanos, req: Request)
    ensures
      var spawned := Take(s, Turn(now, Spawn(req)));
      var served := Serve(Relay(s.db, s.seen), now, req);
      && |s.threads| < |spawned.threads|
      && Alone(spawned, now, |s.threads|, StepCount(s, now, req))
           == Sys(served.0.db, served.0.seen, s.threads + [Finished(req, served.1)])
  {
    hide Lookup, Authorise, Execute;
    var t := |s.threads|;
    var turn := Turn(now, Advance(t));
    var s0 := Take(s, Turn(now, Spawn(req)));
    var s1 := Take(s0, turn);
    assert s1.threads == s.threads + [Looked(req, Lookup(s.db, req))];
    var s2 := Take(s1, turn);
    var auth := Authorise(s.db, s.seen, now, req, Lookup(s.db, req));
    assert s2 == Sys(s.db, auth.0, s.threads + [Authorised(auth, req, Lookup(s.db, req))]);
    var n := StepCount(s, now, req);
    assert Alone(s0, now, t, n) == Alone(s1, now, t, n - 1) == Alone(s2, now, t, n - 2);
    match auth.1
    case Refuse(answer) => FinishedStays(s2, now, t, n - 2);
    case Proceed(ops, last) =>
      StepsAlone(s2, now, t);
      var answer := Serve(Relay(s.db, s.seen), now, req).1;
      assert s2.threads[t := Finished(req, answer)] == s.threads + [Finished(req, answer)];
  }

  // ---- two requests in step

  /** Threads t and u take a step each. */
  function Both(s: Sys, now: Nanos, t: nat, u: nat): Sys {
    Take(Take(s, Turn(now, Advance(t))), Turn(now, Advance(u)))
  }

  /** Both requests arrive, and their threads advance in step. */
  function Arrived(s: Sys, now: Nanos, first: Request, second: Request): Sys {
    Take(Take(s, Turn(now, Spawn(first))), Turn(now, Spawn(second)))
  }

  lemma BothLookUp(s: Sys, now: Nanos, t: nat, u: nat, ra: Request, rb: Request)
    requires t < u < |s.threads| && s.threads[t] == Start(ra) && s.threads[u] == Start(rb)
    ensures Both(s, now, t, u) ==
      s.(threads := s.threads[t := Looked(ra, Lookup(s.db, ra))][u := Looked(rb, Lookup(s.db, rb))])
  {
    hide Lookup;
  }
}
