/** The last-admin rule when requests interleave, and what stale authority can still do. */
module AdminRace {
  import opened Results
  import opened Tables
  import opened StoreSpec
  import opened Integrity
  import opened Nonces
  import opened Handlers
  import opened Admins
  import Runs
  import opened Interleaving

  /** Under any interleaving, whatever the caller's authorisation was worth when it was checked: a
      turn after which an account that had a live admin has none takes a revocation step, either a
      device's own, or one after which the account has no live device. */
  lemma LastAdminTurn(s: Sys, turn: Turn, account: Id)
    requires HasAdmin(s.db, account) && !HasAdmin(Take(s, turn).db, account)
    ensures
      && StepOf(s, turn).Some? && StepOf(s, turn).value.Retiring? && StepOf(s, turn).value.retire.OpRevoke?
      && (var op := StepOf(s, turn).value.retire;
          && LiveAdmins(s.db.devices, account) == {op.device}
          && (op.caller == op.device || LiveDevices(Take(s, turn).db.devices, account) == {}))
  {
    hide Take, Apply, HasAdmin;
    TurnIsOneStep(s, turn);
    LastAdminRule(s.db, turn.now, StepOf(s, turn).value, account);
  }

  // ---- two admins, alone in an account, revoking each other

  function Revoking(id: Id, env: Envelope, target: Id): Request {
    Manage(id, env, AskRevoke(target))
  }

  ghost predicate OnlyTwo(db: Db, account: Id, a: Id, b: Id) {
    a != b && LiveDevices(db.devices, account) == {a, b} && LiveAdmins(db.devices, account) == {a, b}
  }

  /** The two signed requests authenticate one after the other. */
  predicate BothSigned(s: Sys, now: Nanos, a: Id, b: Id, envA: Envelope, envB: Envelope)
    requires a in s.db.devices && b in s.db.devices
  {
    var first := Authenticate(s.seen, now, envA, a, s.db.devices[a].publicKey);
    first.1 && Authenticate(first.0, now, envB, b, s.db.devices[b].publicKey).1
  }

  lemma BothPresent(db: Db, account: Id, a: Id, b: Id)
    requires OnlyTwo(db, account, a, b)
    ensures a in db.devices && db.devices[a].account == account && !db.devices[a].revoked && db.devices[a].role == Admin
    ensures b in db.devices && db.devices[b].account == account && !db.devices[b].revoked && db.devices[b].role == Admin
  {
    assert a in LiveAdmins(db.devices, account) && b in LiveAdmins(db.devices, account);
  }

  function RevokeThread(req: Request, dev: Device, ops: seq<Op>): Thread {
    Running(req, DeviceRow(dev), ops, None, Done)
  }

  lemma BothAuthorise(s: Sys, now: Nanos, t: nat, u: nat, account: Id, a: Id, b: Id, envA: Envelope, envB: Envelope)
    requires t < u < |s.threads| && OnlyTwo(s.db, account, a, b)
    requires a in s.db.devices && b in s.db.devices && BothSigned(s, now, a, b, envA, envB)
    requires s.threads[t] == Looked(Revoking(a, envA, b), DeviceRow(s.db.devices[a]))
    requires s.threads[u] == Looked(Revoking(b, envB, a), DeviceRow(s.db.devices[b]))
    ensures
      var next := Both(s, now, t, u);
      && next.db == s.db && |next.threads| == |s.threads|
      && next.threads[t] == RevokeThread(Revoking(a, envA, b), s.db.devices[a], [Retiring(OpRevoke(a, b))])
      && next.threads[u] == RevokeThread(Revoking(b, envB, a), s.db.devices[b], [Retiring(OpRevoke(b, a))])
  {
    BothPresent(s.db, account, a, b);
    hide Authenticate, OnlyTwo;
  }

  lemma BothRevoke(s: Sys, now: Nanos, t: nat, u: nat, account: Id, a: Id, b: Id, ra: Request, rb: Request,
      da: Device, db: Device)
    requires t < u < |s.threads| && OnlyTwo(s.db, account, a, b)
    requires s.threads[t] == RevokeThread(ra, da, [Retiring(OpRevoke(a, b))])
    requires s.threads[u] == RevokeThread(rb, db, [Retiring(OpRevoke(b, a))])
    ensures
      var next := Both(s, now, t, u);
      && |next.threads| == |s.threads|
      && next.threads[t] == RevokeThread(ra, da, []) && next.threads[u] == RevokeThread(rb, db, [])
      && LiveDevices(next.db.devices, account) == {}
  {
    BothPresent(s.db, account, a, b);
    MutualRevocation(s.db, a, b, account);
    assert LiveDevices(s.db.devices, account) - {a, b} == {};
    hide RevokeDevice, LiveDevices, LiveAdmins;
    assert [Retiring(OpRevoke(a, b))][1..] == [] && [Retiring(OpRevoke(b, a))][1..] == [];
  }

  lemma BothFinish(s: Sys, now: Nanos, t: nat, u: nat, ra: Request, rb: Request, da: Device, db: Device)
    requires t < u < |s.threads| && ra.Manage? && rb.Manage?
    requires s.threads[t] == RevokeThread(ra, da, []) && s.threads[u] == RevokeThread(rb, db, [])
    ensures
      var next := Both(s, now, t, u);
      && next.db == s.db && |next.threads| == |s.threads|
      && next.threads[t] == Finished(ra, Acknowledged) && next.threads[u] == Finished(rb, Acknowledged)
  {
  }

  /** Both are authorised before either acts, so both succeed, and the account is left empty.
      Served one after the other, the second would have been refused. */
  lemma MutualRevocationRace(s: Sys, now: Nanos, account: Id, a: Id, b: Id, envA: Envelope, envB: Envelope)
    requires OnlyTwo(s.db, account, a, b)
    requires a in s.db.devices && b in s.db.devices && BothSigned(s, now, a, b, envA, envB)
    ensures
      var t, u := |s.threads|, |s.threads| + 1;
      var ra, rb := Revoking(a, envA, b), Revoking(b, envB, a);
      var end := Both(Both(Both(Both(Arrived(s, now, ra, rb), now, t, u), now, t, u), now, t, u), now, t, u);
      && u < |end.threads|
      && end.threads[t] == Finished(ra, Acknowledged) && end.threads[u] == Finished(rb, Acknowledged)
      && LiveDevices(end.db.devices, account) == {}
  {
    var t, u := |s.threads|, |s.threads| + 1;
    var ra, rb := Revoking(a, envA, b), Revoking(b, envB, a);
    var s0 := Arrived(s, now, ra, rb);
    assert s0 == s.(threads := s.threads + [Start(ra)] + [Start(rb)]);
    var s1 := Both(s0, now, t, u);
    BothLookUp(s0, now, t, u, ra, rb);
    hide OnlyTwo, Both, BothSigned, LiveDevices, Arrived;
    assert BothSigned(s1, now, a, b, envA, envB) by { SameSignatures(s, s1, now, a, b, envA, envB); }
    var s2 := Both(s1, now, t, u);
    BothAuthorise(s1, now, t, u, account, a, b, envA, envB);
    var s3 := Both(s2, now, t, u);
    BothRevoke(s2, now, t, u, account, a, b, ra, rb, s.db.devices[a], s.db.devices[b]);
    BothFinish(s3, now, t, u, ra, rb, s.db.devices[a], s.db.devices[b]);
  }

  lemma SameSignatures(s: Sys, next: Sys, now: Nanos, a: Id, b: Id, envA: Envelope, envB: Envelope)
    requires a in s.db.devices && b in s.db.devices && BothSigned(s, now, a, b, envA, envB)
    requires next.db == s.db && next.seen == s.seen
    ensures BothSigned(next, now, a, b, envA, envB)
  {
  }

  /** In turn, instead: the second caller is revoked by the time it asks. */
  lemma InTurnTheSecondIsRefused(s: Relay, now: Nanos, account: Id, a: Id, b: Id, envA: Envelope, envB: Envelope)
    requires OnlyTwo(s.db, account, a, b)
    requires Serve(s, now, Revoking(a, envA, b)).1 == Acknowledged
    ensures Serve(Serve(s, now, Revoking(a, envA, b)).0, now, Revoking(b, envB, a)).1 == Unauthorized
  {
    BothPresent(s.db, account, a, b);
    hide OnlyTwo, Authenticate, StripsLastAdmin;
    RevokedByThen(s, now, a, b, envA);
    hide Serve;
    RefusedWhenRevoked(Serve(s, now, Revoking(a, envA, b)).0, now, b, envB, a);
  }

  lemma RefusedWhenRevoked(r: Relay, now: Nanos, b: Id, env: Envelope, a: Id)
    requires b in r.db.devices && r.db.devices[b].revoked
    ensures Serve(r, now, Revoking(b, env, a)).1 == Unauthorized
  {
    hide Authenticate, Execute, DeviceVerdict;
  }

  lemma RevokedByThen(s: Relay, now: Nanos, a: Id, b: Id, env: Envelope)
    requires b in s.db.devices && Serve(s, now, Revoking(a, env, b)).1 == Acknowledged
    ensures
      var next := Serve(s, now, Revoking(a, env, b)).0;
      b in next.db.devices && next.db.devices[b].revoked
  {
    hide Authenticate, Remaining, RetireOwned, StripsLastAdmin;
    var req := Revoking(a, env, b);
    Runs.OneStep(s.db, now, req, Lookup(s.db, req), Retiring(OpRevoke(a, b)));
    if RevokeDevice(s.db, a, b).Ok? {}
  }
}
