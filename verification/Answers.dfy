/**
  What each request is answered and what it leaves behind, served atomically: every answer by the
  rows it depends on, every change as the answer tells it.
  */
module Answers {
  import opened Results
  import opened Tables
  import opened StoreSpec
  import opened RowFacts
  import opened Integrity
  import opened Nonces
  import opened Handlers
  import opened Runs
  import opened Effects
  import opened Transcripts

  // ---- who is asking

  /** Signed by the key, its timestamp within five minutes of the reading it was checked at, either
      way, and its nonce not on record any more. */
  predicate Genuine(seen: Seen, now: Nanos, env: Envelope, principal: Id, key: Key) {
    && env.stamp.Some?
    && env.stamp.value - 300 * SECOND <= env.checkedAt <= env.stamp.value + 300 * SECOND
    && key in env.signers
    && (var k := principal + ['\0'] + env.nonce; k in seen ==> seen[k] <= now)
  }

  lemma GenuineIff(seen: Seen, now: Nanos, env: Envelope, principal: Id, key: Key)
    ensures Authenticate(seen, now, env, principal, key).1 <==> Genuine(seen, now, env, principal, key)
  {
  }

  /** A live device asks, under its own key. */
  predicate Known(r: Relay, now: Nanos, id: Id, env: Envelope) {
    Live(r.db, id) && Genuine(r.seen, now, env, id, r.db.devices[id].publicKey)
  }

  lemma CallVerdict(r: Relay, now: Nanos, id: Id, env: Envelope, call: Call)
    ensures VerdictOn(r, now, Manage(id, env, call)) ==
      if Known(r, now, id, env) then DeviceVerdict(r.db, id, r.db.devices[id], call) else Refuse(Unauthorized)
  {
    hide Authenticate, Genuine, DeviceVerdict;
    if id in r.db.devices { GenuineIff(r.seen, now, env, id, r.db.devices[id].publicKey); }
  }

  predicate LiveQueue(db: Db, rid: Id) {
    rid in db.queues && !db.queues[rid].retired
  }

  lemma QueueCallVerdict(r: Relay, now: Nanos, rid: Id, env: Envelope, call: QueueCall)
    ensures VerdictOn(r, now, Receive(rid, env, call)) ==
      if !LiveQueue(r.db, rid) then Refuse(NotFound)
      else if !Genuine(r.seen, now, env, rid, r.db.queues[rid].recipientKey) then Refuse(Unauthorized)
      else QueueVerdict(rid, call)
  {
    hide Authenticate, Genuine, QueueVerdict;
    if rid in r.db.queues { GenuineIff(r.seen, now, env, rid, r.db.queues[rid].recipientKey); }
  }

  // ---- one served request

  /** The request is given this answer, and the database is left as the answer tells. */
  ghost predicate Served(r: Relay, now: Nanos, req: Request, answer: Response) {
    Serve(r, now, req).1 == answer && Serve(r, now, req).0.db == Told(r.db, now, req, answer)
  }

  /** The verdict's step, or its refusal, earns the answer and does what it tells. */
  ghost predicate Earns(db: Db, now: Nanos, req: Request, v: Verdict, answer: Response) {
    match v
    case Refuse(a) => a == answer && Told(db, now, req, answer) == db
    case Proceed(ops, last) =>
      && |ops| == 1 && last.None?
      && OneAnswer(req, Lookup(db, req), ops[0], Apply(db, now, ops[0]).1) == answer
      && After(db, now, ops[0]) == Told(db, now, req, answer)
  }

  lemma EarnedIsServed(r: Relay, now: Nanos, req: Request, answer: Response)
    requires Earns(r.db, now, req, VerdictOn(r, now, req), answer)
    ensures Served(r, now, req, answer)
  {
    hide Told, Authorise, Lookup, Apply, OneAnswer;
    match VerdictOn(r, now, req)
    case Refuse(a) => RefusedOutright(r, now, req);
    case Proceed(ops, last) => ServedByOneStep(r, now, req, ops[0]);
  }

  // ---- the calls of a known device

  predicate LiveIn(db: Db, d: Id, account: Id) {
    Live(db, d) && db.devices[d].account == account
  }

  /** No live admin of the account but, perhaps, this device. */
  predicate NoOtherAdmin(db: Db, account: Id, d: Id) {
    forall e :: e in db.devices && e != d ==> !(LiveIn(db, e, account) && db.devices[e].role == Admin)
  }

  /** The answer to a role change asked by an admin.  The caller is the other admin of any device but
      itself, so only its own demotion can be refused for the last admin's sake. */
  function RoleAnswer(db: Db, id: Id, target: Id, role: string): Response
    requires id in db.devices
  {
    var account := db.devices[id].account;
    if role !in {"admin", "member"} then BadRequest
    else if FlatAccount(db, account) then Conflict
    else if !LiveIn(db, target, account) then NotFound
    else if role == "member" && target == id && NoOtherAdmin(db, account, id) then Conflict
    else Acknowledged
  }

  /** An invitation of the account that can still be revoked. */
  predicate Open(db: Db, t: Id, account: Id, invitation: Id) {
    && t in db.invitations && db.invitations[t].account == account && db.invitations[t].id == invitation
    && !db.invitations[t].consumed && !db.invitations[t].revoked
  }

  /** Just one invitation of the account with this id is open. */
  ghost predicate OneOpen(db: Db, account: Id, invitation: Id) {
    exists t :: Open(db, t, account, invitation) && forall u :: Open(db, u, account, invitation) ==> u == t
  }

  /** The answer to a live device's genuine call.  Served atomically, no revocation is refused for the
      last admin's sake: the caller stays, or goes itself. */
  ghost function CallAnswer(db: Db, now: Nanos, id: Id, call: Call): Response
    requires id in db.devices
  {
    var me := db.devices[id];
    match call
    case AskListDevices =>
      DeviceList(map d | d in db.devices && db.devices[d].account == me.account ::
                   var dev := db.devices[d];
                   DeviceView(dev.publicKey, dev.role, dev.revoked, if d == id then dev.push else ""))
    case AskRevoke(target) =>
      if target !in db.devices || db.devices[target].account != me.account then NotFound
      else if target != id && me.role != Admin then Forbidden
      else Acknowledged
    case AskSetRole(target, role) => if me.role != Admin then Forbidden else RoleAnswer(db, id, target, role)
    case AskInvite(role, token, _) =>
      if me.role != Admin then Forbidden
      else if role !in {"", "admin", "member"} then BadRequest
      else if token in db.invitations then Internal
      else Acknowledged
    case AskListInvitations =>
      InvitationList(set t | t in db.invitations && Open(db, t, me.account, db.invitations[t].id)
                             && db.invitations[t].expires > Seconds(now) ::
                       InvitationView(db.invitations[t].id, db.invitations[t].expires))
    case AskRevokeInvitation(invitation) =>
      if OneOpen(db, me.account, invitation) then Acknowledged else NotFound
    case AskUpdatePush(push) => if |push| > 2048 then BadRequest else Acknowledged
    case AskSetBundle(blob) =>
      if |blob| == 0 then BadRequest else if |blob| > 8 * 1024 then TooLarge else Acknowledged
    case AskGetBundle(target) =>
      if LiveIn(db, target, me.account) && target in db.bundles then Bundle(db.bundles[target]) else NotFound
    case AskGetQuota =>
      var ceiling := if me.account in db.accounts then db.accounts[me.account].quotaBytes else 0;
      QuotaReport(me.quotaBytes, Stored(db, OwnedBy(id), Seconds(now)), ceiling)
    case AskAppendStatement(blob) =>
      if me.role != Admin then Forbidden
      else if |blob| == 0 then BadRequest
      else if |blob| > 4 * 1024 then TooLarge
      else Written(MaxSeqno(Log(db, me.account)) + 1)
    case AskListStatements(since) =>
      if since < 0 then BadRequest else Statements(Since(Log(db, me.account), since))
    case AskCreateQueue(key, rid, sid) =>
      if |key| != 32 then BadRequest else if rid in db.queues || sid in db.senders then Internal else Acknowledged
  }

  ghost predicate CallEarns(db: Db, now: Nanos, id: Id, env: Envelope, call: Call)
    requires id in db.devices
  {
    Earns(db, now, Manage(id, env, call), DeviceVerdict(db, id, db.devices[id], call), CallAnswer(db, now, id, call))
  }

  /** Of the answers to a management request only these tell of a change. */
  predicate TellsOfChange(call: Call, answer: Response) {
    || answer == Acknowledged || answer.Written? || answer.Sent?
    || (call.AskRevokeInvitation? && answer == NotFound)
  }

  lemma NothingTold(db: Db, now: Nanos, id: Id, env: Envelope, call: Call, answer: Response)
    requires !TellsOfChange(call, answer)
    ensures Told(db, now, Manage(id, env, call), answer) == db
  {
  }

  // ---- roles

  lemma RoleTold(db: Db, now: Nanos, id: Id, env: Envelope, target: Id, role: string)
    requires target in db.devices
    ensures Told(db, now, Manage(id, env, AskSetRole(target, role)), Acknowledged)
         == db.(devices := db.devices[target := db.devices[target].(role := RoleNamed(role))])
  {
  }

  /** With the caller an admin, only the caller itself can be the last. */
  lemma StripsIff(db: Db, id: Id, target: Id)
    requires Live(db, id) && db.devices[id].role == Admin
    ensures StripsLastAdmin(db.devices, db.devices[id].account, target, false)
       <==> target == id && NoOtherAdmin(db, db.devices[id].account, id)
  {
    var account := db.devices[id].account;
    assert id in LiveAdmins(db.devices, account);
    if target != id {
      assert id in LiveAdmins(db.devices, account) - {target};
    } else if NoOtherAdmin(db, account, id) {
      assert LiveAdmins(db.devices, account) - {id} == {};
    } else {
      var e :| e in db.devices && e != id && LiveIn(db, e, account) && db.devices[e].role == Admin;
      assert e in LiveAdmins(db.devices, account) - {id};
    }
  }

  lemma SetRoleDone(db: Db, now: Nanos, id: Id, env: Envelope, target: Id, role: string)
    requires Live(db, id) && db.devices[id].role == Admin && db.devices[id].account in db.accounts
    ensures
      var account, answer := db.devices[id].account, RoleAnswer(db, id, target, role);
      match SetDeviceRole(db, account, target, role)
      case Ok(next) =>
        answer == Acknowledged && next == Told(db, now, Manage(id, env, AskSetRole(target, role)), answer)
      case Err(e) => answer != Acknowledged && answer == FailureOf(OnDevices(OpSetRole(account, target, role)), e)
  {
    hide Told, StripsLastAdmin, NoOtherAdmin;
    StripsIff(db, id, target);
    if RoleAnswer(db, id, target, role) == Acknowledged { RoleTold(db, now, id, env, target, role); }
  }

  lemma SetRoleEarns(db: Db, now: Nanos, id: Id, env: Envelope, target: Id, role: string)
    requires Valid(db) && Live(db, id)
    ensures CallEarns(db, now, id, env, AskSetRole(target, role))
  {
    hide Told, Valid, SetDeviceRole, RoleAnswer, Lookup;
    var req := Manage(id, env, AskSetRole(target, role));
    DeviceHasAccount(db, id);
    var answer := CallAnswer(db, now, id, req.call);
    if !TellsOfChange(req.call, answer) { NothingTold(db, now, id, env, req.call, answer); }
    if db.devices[id].role == Admin { SetRoleDone(db, now, id, env, target, role); }
  }

  // ---- invitations

  lemma InviteTold(db: Db, now: Nanos, id: Id, env: Envelope, role: string, token: Id, invitation: Id)
    requires id in db.devices
    ensures
      var req := Manage(id, env, AskInvite(role, token, invitation));
      Told(db, now, req, Acknowledged) == db.(invitations := InvitationsAfter(db, now, req, Acknowledged))
  {
  }

  lemma InviteEarns(db: Db, now: Nanos, id: Id, env: Envelope, role: string, token: Id, invitation: Id)
    requires Valid(db) && Live(db, id)
    ensures CallEarns(db, now, id, env, AskInvite(role, token, invitation))
  {
    hide Told, Valid, Lookup;
    var req := Manage(id, env, AskInvite(role, token, invitation));
    DeviceHasAccount(db, id);
    var answer := CallAnswer(db, now, id, req.call);
    if answer == Acknowledged {
      InviteTold(db, now, id, env, role, token, invitation);
    } else {
      NothingTold(db, now, id, env, req.call, answer);
    }
  }

  lemma OneOpenIff(db: Db, account: Id, invitation: Id)
    ensures |RevocableTokens(db, account, invitation)| == 1 <==> OneOpen(db, account, invitation)
  {
    var hit := RevocableTokens(db, account, invitation);
    assert forall t :: t in hit <==> Open(db, t, account, invitation);
    if OneOpen(db, account, invitation) {
      var t :| Open(db, t, account, invitation) && forall u :: Open(db, u, account, invitation) ==> u == t;
      assert hit == {t};
    }
    if |hit| == 1 {
      var t :| t in hit;
      assert |hit - {t}| == 0;
      forall u | Open(db, u, account, invitation) ensures u == t {
        assert u != t ==> u in hit - {t};
      }
    }
  }

  lemma RevokedTold(db: Db, now: Nanos, id: Id, env: Envelope, invitation: Id, answer: Response)
    requires id in db.devices && answer in {Acknowledged, NotFound}
    ensures Told(db, now, Manage(id, env, AskRevokeInvitation(invitation)), answer)
         == RevokeInvitation(db, db.devices[id].account, invitation).0
  {
  }

  lemma RevokeInvitationEarns(db: Db, now: Nanos, id: Id, env: Envelope, invitation: Id)
    requires Live(db, id)
    ensures CallEarns(db, now, id, env, AskRevokeInvitation(invitation))
  {
    hide Told, OneOpen, RevocableTokens;
    OneOpenIff(db, db.devices[id].account, invitation);
    RevokedTold(db, now, id, env, invitation, CallAnswer(db, now, id, AskRevokeInvitation(invitation)));
  }

  // ---- revocation

  lemma RevocationTold(db: Db, now: Nanos, id: Id, env: Envelope, target: Id)
    requires target in db.devices
    ensures Told(db, now, Manage(id, env, AskRevoke(target)), Acknowledged) == Disable(db, target)
  {
    hide Remaining;
  }

  lemma NeverStrips(db: Db, id: Id, target: Id)
    requires Live(db, id) && db.devices[id].role == Admin && target != id
    ensures !StripsLastAdmin(db.devices, db.devices[id].account, target, true)
  {
    assert id in LiveAdmins(db.devices, db.devices[id].account) - {target};
  }

  lemma RevokeEarns(db: Db, now: Nanos, id: Id, env: Envelope, target: Id)
    requires Live(db, id)
    ensures CallEarns(db, now, id, env, AskRevoke(target))
  {
    hide Told, Disable, StripsLastAdmin;
    var req := Manage(id, env, AskRevoke(target));
    var answer := CallAnswer(db, now, id, req.call);
    if answer == Acknowledged {
      if target != id { NeverStrips(db, id, target); }
      RevocationTold(db, now, id, env, target);
    } else {
      NothingTold(db, now, id, env, req.call, answer);
    }
  }

  // ---- endpoint, bundle, queue, statement

  lemma PushTold(db: Db, now: Nanos, id: Id, env: Envelope, push: string)
    requires id in db.devices
    ensures Told(db, now, Manage(id, env, AskUpdatePush(push)), Acknowledged)
         == db.(devices := db.devices[id := db.devices[id].(push := push)])
  {
  }

  lemma UpdatePushEarns(db: Db, now: Nanos, id: Id, env: Envelope, push: string)
    requires Live(db, id)
    ensures CallEarns(db, now, id, env, AskUpdatePush(push))
  {
    hide Lookup, Told;
    if |push| > 2048 {
      NothingTold(db, now, id, env, AskUpdatePush(push), BadRequest);
    } else {
      PushTold(db, now, id, env, push);
    }
  }

  lemma SetBundleEarns(db: Db, now: Nanos, id: Id, env: Envelope, blob: Bytes)
    requires Live(db, id)
    ensures CallEarns(db, now, id, env, AskSetBundle(blob))
  {
    var answer := CallAnswer(db, now, id, AskSetBundle(blob));
    if answer != Acknowledged { NothingTold(db, now, id, env, AskSetBundle(blob), answer); }
  }

  lemma CreateQueueEarns(db: Db, now: Nanos, id: Id, env: Envelope, key: Key, rid: Id, sid: Id)
    requires Live(db, id)
    ensures CallEarns(db, now, id, env, AskCreateQueue(key, rid, sid))
  {
    var answer := CallAnswer(db, now, id, AskCreateQueue(key, rid, sid));
    if answer != Acknowledged { NothingTold(db, now, id, env, AskCreateQueue(key, rid, sid), answer); }
  }

  lemma StatementTold(db: Db, now: Nanos, id: Id, env: Envelope, blob: Bytes)
    requires id in db.devices
    ensures
      var account, n := db.devices[id].account, MaxSeqno(Log(db, db.devices[id].account)) + 1;
      Told(db, now, Manage(id, env, AskAppendStatement(blob)), Written(n))
        == db.(statements := db.statements[account := AppendToLog(Log(db, account), blob)])
  {
    hide MaxSeqno, Since, Log;
  }

  lemma AppendStatementEarns(db: Db, now: Nanos, id: Id, env: Envelope, blob: Bytes)
    requires Valid(db) && Live(db, id)
    ensures CallEarns(db, now, id, env, AskAppendStatement(blob))
  {
    hide Told, Valid, Lookup, MaxSeqno, AppendToLog, Log;
    DeviceHasAccount(db, id);
    var answer := CallAnswer(db, now, id, AskAppendStatement(blob));
    if answer.Written? {
      StatementTold(db, now, id, env, blob);
    } else {
      NothingTold(db, now, id, env, AskAppendStatement(blob), answer);
    }
  }

  // ---- reads

  lemma ListDevicesEarns(db: Db, now: Nanos, id: Id, env: Envelope)
    requires Live(db, id)
    ensures CallEarns(db, now, id, env, AskListDevices)
  {
    hide Told;
    NothingTold(db, now, id, env, AskListDevices, CallAnswer(db, now, id, AskListDevices));
    DevicesListed(db, id);
  }

  lemma DevicesListed(db: Db, id: Id)
    requires id in db.devices
    ensures DeviceList(ViewDevices(StoreSpec.ListDevices(db, db.devices[id].account), id))
         == CallAnswer(db, 0, id, AskListDevices)
  {
  }

  lemma ListInvitationsEarns(db: Db, now: Nanos, id: Id, env: Envelope)
    requires Live(db, id)
    ensures CallEarns(db, now, id, env, AskListInvitations)
  {
    hide Told;
    NothingTold(db, now, id, env, AskListInvitations, CallAnswer(db, now, id, AskListInvitations));
    InvitationsListed(db, now, id);
  }

  lemma InvitationsListed(db: Db, now: Nanos, id: Id)
    requires id in db.devices
    ensures InvitationList(StoreSpec.ListInvitations(db, now, db.devices[id].account))
         == CallAnswer(db, now, id, AskListInvitations)
  {
    var answer := CallAnswer(db, now, id, AskListInvitations);
    var views := StoreSpec.ListInvitations(db, now, db.devices[id].account);
    forall v ensures v in views <==> v in answer.invitations {}
  }

  lemma GetBundleEarns(db: Db, now: Nanos, id: Id, env: Envelope, target: Id)
    requires Live(db, id)
    ensures CallEarns(db, now, id, env, AskGetBundle(target))
  {
    hide Told, Lookup;
    NothingTold(db, now, id, env, AskGetBundle(target), CallAnswer(db, now, id, AskGetBundle(target)));
  }

  lemma GetQuotaEarns(db: Db, now: Nanos, id: Id, env: Envelope)
    requires Valid(db) && Live(db, id)
    ensures CallEarns(db, now, id, env, AskGetQuota)
  {
    hide Told, Valid, Stored;
    DeviceHasAccount(db, id);
    NothingTold(db, now, id, env, AskGetQuota, CallAnswer(db, now, id, AskGetQuota));
  }

  lemma ListStatementsEarns(db: Db, now: Nanos, id: Id, env: Envelope, since: int)
    requires Live(db, id)
    ensures CallEarns(db, now, id, env, AskListStatements(since))
  {
    hide Told, Lookup, Since, Log;
    NothingTold(db, now, id, env, AskListStatements(since), CallAnswer(db, now, id, AskListStatements(since)));
  }

  /** Every genuine call of a live device. */
  lemma KnownCallEarns(db: Db, now: Nanos, id: Id, env: Envelope, call: Call)
    requires Valid(db) && Live(db, id)
    ensures CallEarns(db, now, id, env, call)
  {
    hide Valid, CallEarns;
    match call
    case AskListDevices => ListDevicesEarns(db, now, id, env);
    case AskRevoke(target) => RevokeEarns(db, now, id, env, target);
    case AskSetRole(target, role) => SetRoleEarns(db, now, id, env, target, role);
    case AskInvite(role, token, invitation) => InviteEarns(db, now, id, env, role, token, invitation);
    case AskListInvitations => ListInvitationsEarns(db, now, id, env);
    case AskRevokeInvitation(invitation) => RevokeInvitationEarns(db, now, id, env, invitation);
    case AskUpdatePush(push) => UpdatePushEarns(db, now, id, env, push);
    case AskSetBundle(blob) => SetBundleEarns(db, now, id, env, blob);
    case AskGetBundle(target) => GetBundleEarns(db, now, id, env, target);
    case AskGetQuota => GetQuotaEarns(db, now, id, env);
    case AskAppendStatement(blob) => AppendStatementEarns(db, now, id, env, blob);
    case AskListStatements(since) => ListStatementsEarns(db, now, id, env, since);
    case AskCreateQueue(key, rid, sid) => CreateQueueEarns(db, now, id, env, key, rid, sid);
  }

  /** Any management request. */
  lemma CallServed(r: Relay, now: Nanos, id: Id, env: Envelope, call: Call)
    requires Valid(r.db)
    ensures Served(r, now, Manage(id, env, call),
                   if Known(r, now, id, env) then CallAnswer(r.db, now, id, call) else Unauthorized)
  {
    hide Valid, Genuine, Told, CallAnswer, DeviceVerdict, Authorise, Served;
    var req := Manage(id, env, call);
    CallVerdict(r, now, id, env, call);
    if Known(r, now, id, env) {
      KnownCallEarns(r.db, now, id, env, call);
      EarnedIsServed(r, now, req, CallAnswer(r.db, now, id, call));
    } else {
      NothingTold(r.db, now, id, env, call, Unauthorized);
      EarnedIsServed(r, now, req, Unauthorized);
    }
  }
}
