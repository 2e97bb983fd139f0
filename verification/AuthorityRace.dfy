/**
  Authority when requests interleave.  A caller's role is looked at once, in the row its lookup found,
  so what is exercised later is the authority of then: every administrative step was earned by a
  lookup that found its device a live admin, though it may be one no longer.
  */
module AuthorityRace {
  import opened Results
  import opened Tables
  import opened StoreSpec
  import opened Integrity
  import opened Nonces
  import opened Handlers
  import opened Answers
  import opened Authority
  import opened Interleaving
  import opened RetireRace

  /** The account a step exercises an admin's authority over. */
  function ActsFor(op: Op): Option<Id> {
    match op
    case OnAccounts(OpCreateInvitation(account, _, _, _, _)) => Some(account)
    case OnAccounts(OpAppendStatement(account, _)) => Some(account)
    case OnDevices(OpSetRole(account, _, _)) => Some(account)
    case _ => None
  }

  /** The operator founding the account. */
  predicate Founds(th: Thread, account: Id) {
    th.req.Operate? && th.req.act.NewAccount? && th.req.act.account == account
  }

  /** A request of a device that its lookup found a live admin of the account. */
  predicate Empowered(th: Thread, account: Id) {
    && (th.Looked? || th.Running?) && th.req.Manage? && th.snap.DeviceRow?
    && !th.snap.device.revoked && th.snap.device.role == Admin && th.snap.device.account == account
  }

  predicate OwnPowers(th: Thread) {
    th.Running? ==> forall i :: 0 <= i < |th.ops| && ActsFor(th.ops[i]).Some? ==>
      Founds(th, ActsFor(th.ops[i]).value) || Empowered(th, ActsFor(th.ops[i]).value)
  }

  lemma AuthorisedOwnPowers(db: Db, seen: Seen, now: Nanos, req: Request, snap: Snapshot)
    ensures OwnPowers(Authorised(Authorise(db, seen, now, req, snap), req, snap))
  {
    hide Authenticate, ResolveSenderKey;
  }

  lemma TurnOwnPowers(s: Sys, turn: Turn, t: nat)
    requires t < |Take(s, turn).threads| && (t < |s.threads| ==> OwnPowers(s.threads[t]))
    ensures OwnPowers(Take(s, turn).threads[t])
  {
    hide Apply, Authorise, Lookup, Finish, Stop, ActsFor;
    ThreadsGrow(s, turn);
    if turn.move == Advance(t) {
      match s.threads[t]
      case Looked(req, snap) => AuthorisedOwnPowers(s.db, s.seen, turn.now, req, snap);
      case _ =>
    } else if t < |s.threads| {
      TurnIsOneThread(s, turn, t);
    }
  }

  lemma {:induction false} AllOwnPowers(turns: seq<Turn>, t: nat)
    requires t < |Play(EmptySys, turns).threads|
    ensures OwnPowers(Play(EmptySys, turns).threads[t])
  {
    hide Take, OwnPowers;
    if turns != [] {
      var init := turns[..|turns| - 1];
      if t < |Play(EmptySys, init).threads| { AllOwnPowers(init, t); }
      TurnOwnPowers(Play(EmptySys, init), turns[|turns| - 1], t);
    }
  }

  /** Thread t looked its device up in one of the first n turns, and found it a live admin. */
  ghost predicate FoundAdmin(turns: seq<Turn>, n: nat, t: nat, d: Id, account: Id)
    requires n <= |turns|
  {
    exists i :: 0 <= i < n && Looks(turns, i, t) && LiveAdmin(Play(EmptySys, turns[..i]).db, d, account)
  }

  lemma FoundAdminEarlier(turns: seq<Turn>, k: nat, n: nat, t: nat, d: Id, account: Id)
    requires n <= k <= |turns|
    ensures FoundAdmin(turns[..k], n, t, d, account) == FoundAdmin(turns, n, t, d, account)
  {
    hide Take, LiveAdmin;
    forall i | 0 <= i < n
      ensures Looks(turns[..k], i, t) == Looks(turns, i, t) && turns[..k][..i] == turns[..i]
    {
      assert turns[..k][..i] == turns[..i];
    }
  }

  lemma {:induction false} EmpoweredFoundAdmin(turns: seq<Turn>, t: nat, account: Id)
    requires t < |Play(EmptySys, turns).threads| && Empowered(Play(EmptySys, turns).threads[t], account)
    ensures Play(EmptySys, turns).threads[t].req.Manage?
    ensures FoundAdmin(turns, |turns|, t, Play(EmptySys, turns).threads[t].req.device, account)
  {
    hide Take, Looks, LiveAdmin;
    if turns != [] {
      var n := |turns| - 1;
      var s := Play(EmptySys, turns[..n]);
      ThreadsGrow(s, turns[n]);
      if t < |s.threads| && Empowered(s.threads[t], account) {
        EmpoweredFoundAdmin(turns[..n], t, account);
        FoundAdminEarlier(turns, n, n, t, s.threads[t].req.device, account);
        SameRequest(s, turns[n], t);
      } else {
        JustFoundAdmin(turns, t, account);
      }
    }
  }

  lemma SameRequest(s: Sys, turn: Turn, t: nat)
    requires t < |s.threads| && t < |Take(s, turn).threads|
    ensures Take(s, turn).threads[t].req == s.threads[t].req
  {
    hide Apply, Authorise, Lookup, Finish, Stop;
    if turn.move != Advance(t) { TurnIsOneThread(s, turn, t); }
  }

  lemma JustFoundAdmin(turns: seq<Turn>, t: nat, account: Id)
    requires turns != []
    requires t < |Play(EmptySys, turns).threads| && Empowered(Play(EmptySys, turns).threads[t], account)
    requires var s := Play(EmptySys, turns[..|turns| - 1]); !(t < |s.threads| && Empowered(s.threads[t], account))
    ensures FoundAdmin(turns, |turns|, t, Play(EmptySys, turns).threads[t].req.device, account)
  {
    hide Apply, Authorise, Finish, Stop;
    var n := |turns| - 1;
    var s, turn := Play(EmptySys, turns[..n]), turns[n];
    ThreadsGrow(s, turn);
    if turn.move == Advance(t) {
      match s.threads[t]
      case Start(req) =>
        assert Take(s, turn).threads[t] == Looked(req, Lookup(s.db, req));
        assert Looks(turns, n, t);
      case _ =>
    } else if t < |s.threads| {
      TurnIsOneThread(s, turn, t);
    }
  }

  /** Turn j's administrative step is the operator's founding of the account, or was earned by a lookup
      that found the calling device a live admin of it. */
  ghost predicate EarnedAt(turns: seq<Turn>, j: nat, account: Id)
    requires j < |turns| && StepOf(Play(EmptySys, turns[..j]), turns[j]).Some?
  {
    var t := turns[j].move.t;
    var th := Play(EmptySys, turns[..j]).threads[t];
    Founds(th, account) || (th.req.Manage? && FoundAdmin(turns, j, t, th.req.device, account))
  }

  /** Under any schedule: no invitation, role change or statement without an admin at the lookup. */
  lemma AdminStepsEarned(turns: seq<Turn>, j: nat, account: Id)
    requires j < |turns| && StepOf(Play(EmptySys, turns[..j]), turns[j]).Some?
    requires ActsFor(StepOf(Play(EmptySys, turns[..j]), turns[j]).value) == Some(account)
    ensures EarnedAt(turns, j, account)
  {
    hide Take, ActsFor, FoundAdmin;
    var s, t := Play(EmptySys, turns[..j]), turns[j].move.t;
    AllOwnPowers(turns[..j], t);
    if !Founds(s.threads[t], account) {
      EmpoweredFoundAdmin(turns[..j], t, account);
      FoundAdminEarlier(turns, j, j, t, s.threads[t].req.device, account);
    }
  }

  // ---- where an invitation comes from

  /** Turn j mints the invitation, with authority over its account. */
  ghost predicate MintedInTurn(turns: seq<Turn>, j: nat, token: Id, account: Id)
    requires j < |turns|
  {
    var step := StepOf(Play(EmptySys, turns[..j]), turns[j]);
    && step.Some? && step.value.OnAccounts? && step.value.account.OpCreateInvitation?
    && step.value.account.token == token && step.value.account.account == account
    && EarnedAt(turns, j, account)
  }

  lemma MintedInTurnEarlier(turns: seq<Turn>, k: nat, j: nat, token: Id, account: Id)
    requires j < k <= |turns|
    ensures MintedInTurn(turns[..k], j, token, account) == MintedInTurn(turns, j, token, account)
  {
    hide Take, FoundAdmin;
    assert turns[..k][..j] == turns[..j] && turns[..k][j] == turns[j];
    var s := Play(EmptySys, turns[..j]);
    if StepOf(s, turns[j]).Some? && s.threads[turns[j].move.t].req.Manage? {
      FoundAdminEarlier(turns, k, j, turns[j].move.t, s.threads[turns[j].move.t].req.device, account);
    }
  }

  /** Only a mint adds an invitation. */
  lemma OnlyMintsAdd(db: Db, now: Nanos, op: Op, token: Id)
    requires token !in db.invitations && token in After(db, now, op).invitations
    ensures op.OnAccounts? && op.account.OpCreateInvitation? && op.account.token == token
    ensures op.account.account == After(db, now, op).invitations[token].account
  {
    hide ApplyAccountOp, ApplyDeviceOp, ApplyQueueOp, ApplyRetireOp, ApplyMessageOp;
    match op
    case OnAccounts(o) => AccountOpAdds(db, now, o, token);
    case OnDevices(o) => DeviceOpAddsNone(db, now, o);
    case OnQueues(o) => QueueOpFrame(db, o);
    case Retiring(o) => RetireOpFrame(db, o);
    case OnMessages(o) => MessageOpFrame(db, now, o);
    case Reading(query) =>
  }

  lemma AccountOpAdds(db: Db, now: Nanos, op: AccountOp, token: Id)
    requires token !in db.invitations && token in ApplyAccountOp(db, now, op).0.invitations
    ensures op.OpCreateInvitation? && op.token == token
    ensures op.account == ApplyAccountOp(db, now, op).0.invitations[token].account
  {
    hide RevokeInvitation, AppendToLog, ParseMode, ParseRole;
    match op
    case OpCreateAccount(account, quotaClass, bytes, mode) =>
      if CreateAccount(db, account, quotaClass, bytes, mode).Ok? {}
    case OpCreateInvitation(account, t, invitation, ttl, role) =>
      if CreateInvitation(db, now, account, t, invitation, ttl, role).Ok? {}
    case OpRevokeInvitation(account, invitation) => RevocableOnly(db, account, invitation);
    case OpAppendStatement(account, blob) =>
      if AppendStatement(db, account, blob).Ok? {}
  }

  lemma RevocableOnly(db: Db, account: Id, id: Id)
    ensures RevokeInvitation(db, account, id).0.invitations.Keys == db.invitations.Keys
  {
  }

  lemma DeviceOpAddsNone(db: Db, now: Nanos, op: DeviceOp)
    ensures ApplyDeviceOp(db, now, op).0.invitations.Keys == db.invitations.Keys
  {
    hide EnrolledRole, StripsLastAdmin;
  }

  /** Under any schedule every invitation was minted by the operator, or for a device that was a live
      admin of its account when the request looked it up. */
  lemma {:induction false} MintedInterleaved(turns: seq<Turn>, token: Id)
    requires token in Play(EmptySys, turns).db.invitations
    ensures
      var account := Play(EmptySys, turns).db.invitations[token].account;
      exists j :: 0 <= j < |turns| && MintedInTurn(turns, j, token, account)
  {
    hide Take, Apply, Valid, Ages, EarnedAt;
    if turns != [] {
      var n := |turns| - 1;
      var s, turn := Play(EmptySys, turns[..n]), turns[n];
      var account := Play(EmptySys, turns).db.invitations[token].account;
      TurnIsOneStep(s, turn);
      if token in s.db.invitations {
        AccountStays(turns, token);
        MintedInterleaved(turns[..n], token);
        var j :| 0 <= j < n && MintedInTurn(turns[..n], j, token, account);
        MintedInTurnEarlier(turns, n, j, token, account);
      } else {
        OnlyMintsAdd(s.db, turn.now, StepOf(s, turn).value, token);
        AdminStepsEarned(turns, n, account);
        assert MintedInTurn(turns, n, token, account);
      }
    }
  }

  lemma AccountStays(turns: seq<Turn>, token: Id)
    requires turns != [] && token in Play(EmptySys, turns[..|turns| - 1]).db.invitations
    ensures
      var before, after := Play(EmptySys, turns[..|turns| - 1]).db, Play(EmptySys, turns).db;
      token in after.invitations && after.invitations[token].account == before.invitations[token].account
  {
    hide Valid, Take;
    var init := turns[..|turns| - 1];
    var before := Play(EmptySys, init);
    EmptyIsValid();
    ScheduleKeepsValid(EmptySys, init);
    TurnKeepsValid(before, turns[|turns| - 1]);
    assert InvitationAges(before.db.invitations[token], Play(EmptySys, turns).db.invitations[token]);
  }
}
