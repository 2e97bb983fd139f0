/** The retire race all the way from an empty relay: one account, one device, one bound queue. */
module RetireWitness {
  import opened Results
  import opened Tables
  import opened StoreSpec
  import opened RowFacts
  import opened Integrity
  import opened Nonces
  import opened Ttl
  import opened Handlers
  import opened Runs
  import opened Interleaving
  import opened SenderBinding
  import opened RetireRace

  ghost predicate Reachable(s: Sys) {
    exists turns :: Play(EmptySys, turns) == s
  }

  lemma TakeReaches(s: Sys, turn: Turn)
    requires Reachable(s)
    ensures Reachable(Take(s, turn))
  {
    hide Take;
    var turns :| Play(EmptySys, turns) == s;
    assert (turns + [turn])[..|turns|] == turns;
    assert Play(EmptySys, turns + [turn]) == Take(s, turn);
  }

  lemma {:induction false} AloneReaches(s: Sys, now: Nanos, t: nat, n: nat)
    requires Reachable(s) && t < |s.threads|
    ensures Reachable(Alone(s, now, t, n))
    decreases n
  {
    hide Reachable, Take;
    if n > 0 {
      ThreadsGrow(s, Turn(now, Advance(t)));
      TakeReaches(s, Turn(now, Advance(t)));
      AloneReaches(Take(s, Turn(now, Advance(t))), now, t, n - 1);
    }
  }

  /** A state with this database and cache is reached. */
  ghost predicate Reached(r: Relay) {
    exists threads :: Reachable(Sys(r.db, r.seen, threads))
  }

  lemma ServingReaches(r: Relay, now: Nanos, req: Request)
    requires Reached(r)
    ensures Reached(Serve(r, now, req).0)
  {
    hide Reachable, Serve, Take, Alone;
    var threads :| Reachable(Sys(r.db, r.seen, threads));
    var s := Sys(r.db, r.seen, threads);
    TakeReaches(s, Turn(now, Spawn(req)));
    UninterruptedIsAtomic(s, now, req);
    AloneReaches(Take(s, Turn(now, Spawn(req))), now, |threads|, StepCount(s, now, req));
    assert Serve(r, now, req).0 == Relay(Serve(r, now, req).0.db, Serve(r, now, req).0.seen);
  }

  // ---- four requests that set the scene

  const ZEROS: Bytes := [0, 0, 0, 0, 0, 0, 0, 0]
  const KEY: Key := ZEROS + ZEROS + ZEROS + ZEROS

  function Signed(nonce: string): Envelope {
    Envelope(Some(0), 0, nonce, {KEY})
  }

  const BODY := SendBody([1 as Byte], 0)

  const Found := Operate(NewAccount("a", "", 0, "", "t", "i", SECOND))
  const Enrol := Register("t", KEY, "", "d")
  const Open := Manage("d", Signed("1"), AskCreateQueue(KEY, "r", "s"))
  const FirstSend := Send("s", Signed("22"), Some(KEY), Some(BODY), "m1")

  const FLAT := Account(67_108_864, Flat)
  const Db1 := EmptyDb.(accounts := map["a" := FLAT],
                        invitations := map["t" := Invitation("i", "a", 1, false, false, Admin)])
  const Db2 := Db1.(invitations := map["t" := Invitation("i", "a", 1, true, false, Admin)],
                    devices := map["d" := Device("a", KEY, "", false, 0, Admin)])
  const Db3 := Db2.(queues := map["r" := Queue("s", "d", KEY, None, false, 0)], senders := map["s" := "r"])
  const Db4 := Db3.(queues := map["r" := Queue("s", "d", KEY, Some(KEY), false, 0)],
                    messages := [Message(1, "m1", "r", [1 as Byte], 0, Seconds(DEFAULT_MESSAGE_TTL))], lastSeq := 1)

  lemma Founded()
    ensures Serve(EmptyRelay, 0, Found).0 == Relay(Db1, map[])
  {
    var create := OnAccounts(OpCreateAccount("a", "", 0, ""));
    var mint := OnAccounts(OpCreateInvitation("a", "t", "i", SECOND, "admin"));
    assert [create, mint] == [create] + [mint];
    FirstStep(EmptyDb, 0, Found, NoRow, create, [mint], None);
    var mid := After(EmptyDb, 0, create);
    OneStep(mid, 0, Found, NoRow, mint);
  }

  lemma Enrolled()
    ensures Serve(Relay(Db1, map[]), 0, Enrol).0 == Relay(Db2, map[])
  {
    OneStep(Db1, 0, Enrol, NoRow, OnDevices(OpRegister("t", "d", KEY, "")));
    assert Seconds(0) == 0;
    if DevicesOf(Db1.devices, "a") == {} {}
  }

  /** A signature with a new nonce passes at time zero, and only its nonce is added. */
  lemma NewNoncePasses(seen: Seen, principal: Id, nonce: string)
    requires NonceKey(principal, nonce) !in seen
    ensures var a := Authenticate(seen, 0, Signed(nonce), principal, KEY);
      a.1 && a.0.Keys <= seen.Keys + {NonceKey(principal, nonce)}
  {
    hide NonceKey;
  }

  lemma Opened() returns (seen: Seen)
    ensures Serve(Relay(Db2, map[]), 0, Open).0 == Relay(Db3, seen)
    ensures seen.Keys <= {NonceKey("d", "1")}
  {
    hide Authenticate, NonceKey;
    NewNoncePasses(map[], "d", "1");
    seen := Authenticate(map[], 0, Signed("1"), "d", KEY).0;
    OneStep(Db2, 0, Open, DeviceRow(Db2.devices["d"]), OnQueues(OpCreateQueue("d", KEY, "r", "s")));
  }

  lemma KeysDiffer(p: Id, n: string, q: Id, m: string)
    requires |p| == |q| && |n| != |m|
    ensures NonceKey(p, n) != NonceKey(q, m)
  {
    assert |NonceKey(p, n)| == |p| + 1 + |n|;
  }

  lemma SentFirst(seen: Seen) returns (next: Seen)
    requires seen.Keys <= {NonceKey("d", "1")}
    ensures Serve(Relay(Db3, seen), 0, FirstSend).0 == Relay(Db4, next)
    ensures next.Keys <= {NonceKey("d", "1"), NonceKey("s", "22")}
  {
    hide Authenticate, NonceKey, Stored;
    KeysDiffer("d", "1", "s", "22");
    NewNoncePasses(seen, "s", "22");
    next := Authenticate(seen, 0, Signed("22"), "s", KEY).0;
    var snap := QueueRow("r", Db3.queues["r"]);
    var bind := OnQueues(OpBind("s", KEY));
    var append := OnMessages(OpAppend("r", [1 as Byte], DEFAULT_MESSAGE_TTL, "m1"));
    assert SendOps("s", "r", KEY, true, Some(BODY), "m1").ops == [bind] + [append];
    FirstStep(Db3, 0, FirstSend, snap, bind, [append], None);
    BoundThenStored(bind, append);
    OneStep(After(Db3, 0, bind), 0, FirstSend, snap, append, Flag(true));
  }

  lemma BoundThenStored(bind: Op, append: Op)
    requires bind == OnQueues(OpBind("s", KEY))
    requires append == OnMessages(OpAppend("r", [1 as Byte], DEFAULT_MESSAGE_TTL, "m1"))
    ensures Apply(Db3, 0, bind) == (After(Db3, 0, bind), Flag(true))
    ensures Apply(After(Db3, 0, bind), 0, append) == (Db4, Done)
  {
    var mid := After(Db3, 0, bind);
    assert mid == Db3.(queues := Db4.queues);
    assert Seconds(0) == 0;
    assert Resolves(mid, "r") && HasRoom(mid, "r", 0, 1);
    assert mid.messages + [Message(1, "m1", "r", [1 as Byte], 0, Seconds(DEFAULT_MESSAGE_TTL))] == Db4.messages;
  }

  // ---- and the race

  const RACE := Race("s", Signed("333"), None, BODY, "m2", "r", Signed("4444"))

  lemma RoomForOneMore()
    ensures Ready(Db4, 0, RACE)
  {
    hide Stored;
    assert ClampMessageTtl(0) == DEFAULT_MESSAGE_TTL;
    AtMostOneByte(InAccount("a"));
    assert !IdTaken(Db4.messages, "m2") by { assert "m1"[1] != "m2"[1]; }
  }

  lemma AtMostOneByte(w: Where)
    ensures Stored(Db4, w, 0) <= 1
  {
    assert Db4.messages == [] + [Db4.messages[0]];
    RemainingSnoc([], Db4.messages[0], Db4.queues, Db4.devices, w, 0);
  }

  lemma RaceIsSigned(seen: Seen)
    requires seen.Keys <= {NonceKey("d", "1"), NonceKey("s", "22")}
    ensures BothSigned(Db4, seen, 0, RACE)
  {
    hide Authenticate, NonceKey;
    KeysDiffer("s", "333", "d", "1");
    KeysDiffer("s", "333", "s", "22");
    NewNoncePasses(seen, "s", "333");
    KeysDiffer("r", "4444", "d", "1");
    KeysDiffer("r", "4444", "s", "22");
    KeysDiffer("r", "4444", "s", "333");
    NewNoncePasses(Authenticate(seen, 0, Signed("333"), "s", KEY).0, "r", "4444");
  }

  lemma NothingIsReached()
    ensures Reached(EmptyRelay)
  {
    assert Play(EmptySys, []) == Sys(EmptyRelay.db, EmptyRelay.seen, []);
  }

  lemma SceneIsReached() returns (seen: Seen)
    ensures Reached(Relay(Db4, seen)) && BothSigned(Db4, seen, 0, RACE)
  {
    hide Serve, Reached, BothSigned;
    NothingIsReached();
    ServingReaches(EmptyRelay, 0, Found);
    Founded();
    ServingReaches(Relay(Db1, map[]), 0, Enrol);
    Enrolled();
    ServingReaches(Relay(Db2, map[]), 0, Open);
    var first := Opened();
    ServingReaches(Relay(Db3, first), 0, FirstSend);
    seen := SentFirst(first);
    RaceIsSigned(seen);
  }

  lemma RaceReaches(s: Sys, now: Nanos, r: Race)
    requires Reachable(s)
    ensures Reachable(RaceEnd(s, now, r))
  {
    hide Reachable, Take;
    var t, u := |s.threads|, |s.threads| + 1;
    var s0 := Arrived(s, now, Sending(r), Retiral(r));
    TakeReaches(s, Turn(now, Spawn(Sending(r))));
    TakeReaches(Take(s, Turn(now, Spawn(Sending(r)))), Turn(now, Spawn(Retiral(r))));
    BothReaches(s0, now, t, u);
    BothReaches(Both(s0, now, t, u), now, t, u);
    var ready := Both(Both(s0, now, t, u), now, t, u);
    BothReaches(ready, now, u, t);
    BothReaches(Both(ready, now, u, t), now, t, u);
  }

  lemma BothReaches(s: Sys, now: Nanos, t: nat, u: nat)
    requires Reachable(s)
    ensures Reachable(Both(s, now, t, u))
  {
    hide Reachable, Take;
    TakeReaches(s, Turn(now, Advance(t)));
    TakeReaches(Take(s, Turn(now, Advance(t))), Turn(now, Advance(u)));
  }

  /** A schedule of requests to an empty relay that leaves a retired queue holding a message. */
  lemma RetiredHoldsFromEmpty() returns (turns: seq<Turn>)
    ensures Retired(Play(EmptySys, turns).db, "r") && HasRow(Play(EmptySys, turns).db.messages, "r")
  {
    hide Take, BothSigned, Ready, Retired, HasRow, RaceEnd, Valid;
    var seen := SceneIsReached();
    var threads :| Reachable(Sys(Db4, seen, threads));
    var s := Sys(Db4, seen, threads);
    RoomForOneMore();
    ReachableIsValid(s);
    RaceReaches(s, 0, RACE);
    RetiredCanHold(s, 0, RACE);
    turns :| Play(EmptySys, turns) == RaceEnd(s, 0, RACE);
  }

  lemma ReachableIsValid(s: Sys)
    requires Reachable(s)
    ensures Valid(s.db)
  {
    hide Valid, Take, AllHonest;
    var turns :| Play(EmptySys, turns) == s;
    ScheduleHonest(turns);
  }
}
