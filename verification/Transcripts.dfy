/**
  What a request and its answer tell of each table, the messages table being module Effects' affair.
  Nothing here looks at how a request is checked or carried out.
  */
module Transcripts {
  import opened Results
  import opened Tables
  import opened StoreSpec
  import opened Handlers
  import opened Runs
  import opened Effects

  predicate Acked(answer: Response) {
    answer == Acknowledged
  }

  /** The role a text names, everything but "admin" being "member". */
  function RoleNamed(role: string): Role {
    if role == "admin" then Admin else Member
  }

  function AccountsAfter(db: Db, req: Request): Accounts {
    match req
    case Operate(NewAccount(account, quotaClass, bytes, mode, _, _, _)) =>
      if account in db.accounts || mode !in {"", "flat", "managed"} then db.accounts
      else
        var ceiling := if bytes > 0 then bytes else (if quotaClass == "large" then 1024 else 64) * 1024 * 1024;
        db.accounts[account := Account(ceiling, if mode == "managed" then Managed else Flat)]
    case _ => db.accounts
  }

  /** A device is the first of its account if that never had another, revoked ones included. */
  predicate FirstDevice(db: Db, account: Id) {
    forall d :: d in db.devices ==> db.devices[d].account != account
  }

  predicate FlatAccount(db: Db, account: Id) {
    account in db.accounts && db.accounts[account].mode == Flat
  }

  /** The grant, but in a flat account, and for an account's first device, admin whatever the grant. */
  function RoleEnrolled(db: Db, inv: Invitation): Role {
    if FirstDevice(db, inv.account) || FlatAccount(db, inv.account) then Admin else inv.grants
  }

  function DevicesAfter(db: Db, req: Request, answer: Response): Devices {
    match req
    case Register(token, pub, push, newId) =>
      if answer.Registered? && token in db.invitations then
        var inv := db.invitations[token];
        db.devices[newId := Device(inv.account, pub, push, false, 0, RoleEnrolled(db, inv))]
      else db.devices
    case Operate(CapDevice(d, bytes)) =>
      if Acked(answer) && d in db.devices then db.devices[d := db.devices[d].(quotaBytes := bytes)] else db.devices
    case Operate(Promote(d)) =>
      if Acked(answer) && d in db.devices then db.devices[d := db.devices[d].(role := Admin)] else db.devices
    case Manage(_, _, AskSetRole(d, role)) =>
      if Acked(answer) && d in db.devices then db.devices[d := db.devices[d].(role := RoleNamed(role))] else db.devices
    case Manage(d, _, AskUpdatePush(push)) =>
      if Acked(answer) && d in db.devices then db.devices[d := db.devices[d].(push := push)] else db.devices
    case Manage(_, _, AskRevoke(d)) =>
      if Acked(answer) && d in db.devices
      then db.devices[d := db.devices[d].(revoked := true, push := "")] else db.devices
    case _ => db.devices
  }

  function InvitationsAfter(db: Db, now: Nanos, req: Request, answer: Response): Invitations {
    match req
    case Operate(NewAccount(account, _, _, _, token, invitation, ttl)) =>
      if Acked(answer)
      then db.invitations[token := Invitation(invitation, account, Seconds(now + ttl), false, false, Admin)]
      else db.invitations
    case Manage(id, _, AskInvite(role, token, invitation)) =>
      if Acked(answer) && id in db.devices then
        var account := db.devices[id].account;
        var grants := if FlatAccount(db, account) then Admin else RoleNamed(role);
        var expires := Seconds(now + 15 * 60 * SECOND);
        db.invitations[token := Invitation(invitation, account, expires, false, false, grants)]
      else db.invitations
    case Register(token, _, _, _) =>
      if answer.Registered? && token in db.invitations
      then db.invitations[token := db.invitations[token].(consumed := true)] else db.invitations
    case Manage(id, _, AskRevokeInvitation(invitation)) =>
      if (Acked(answer) || answer == NotFound) && id in db.devices then
        map t | t in db.invitations ::
          var inv := db.invitations[t];
          if inv.account == db.devices[id].account && inv.id == invitation && !inv.consumed
          then inv.(revoked := true) else inv
      else db.invitations
    case _ => db.invitations
  }

  function QueuesAfter(db: Db, req: Request, answer: Response): Queues {
    match req
    case Manage(id, _, AskCreateQueue(key, rid, sid)) =>
      if Acked(answer) then db.queues[rid := Queue(sid, id, key, None, false, 0)] else db.queues
    case Manage(_, _, AskRevoke(d)) =>
      if Acked(answer)
      then map r | r in db.queues :: db.queues[r].(retired := db.queues[r].retired || db.queues[r].owner == d)
      else db.queues
    case Receive(rid, _, Retire) =>
      if Acked(answer) && rid in db.queues then db.queues[rid := db.queues[rid].(retired := true)] else db.queues
    case Receive(rid, _, SetQuota(bytes)) =>
      if Acked(answer) && rid in db.queues then db.queues[rid := db.queues[rid].(quotaBytes := bytes)] else db.queues
    case Send(sender, _, header, _, _) =>
      if answer in {NotFound, Unauthorized} || sender !in db.senders || db.senders[sender] !in db.queues then db.queues
      else
        var rid := db.senders[sender];
        if db.queues[rid].senderKey.None? then db.queues[rid := db.queues[rid].(senderKey := header)] else db.queues
    case _ => db.queues
  }

  function SendersAfter(db: Db, req: Request, answer: Response): map<Id, Id> {
    match req
    case Manage(_, _, AskCreateQueue(_, rid, sid)) => if Acked(answer) then db.senders[sid := rid] else db.senders
    case _ => db.senders
  }

  function BundlesAfter(db: Db, req: Request, answer: Response): map<Id, Bytes> {
    match req
    case Manage(id, _, AskSetBundle(blob)) => if Acked(answer) then db.bundles[id := blob] else db.bundles
    case Manage(_, _, AskRevoke(d)) => if Acked(answer) then db.bundles - {d} else db.bundles
    case _ => db.bundles
  }

  function StatementsAfter(db: Db, req: Request, answer: Response): map<Id, seq<Statement>> {
    match req
    case Manage(id, _, AskAppendStatement(blob)) =>
      if answer.Written? && id in db.devices then
        var account := db.devices[id].account;
        db.statements[account := Since(Log(db, account) + [Statement(answer.seqno, blob)], answer.seqno - 256)]
      else db.statements
    case _ => db.statements
  }

  /** The database after a request, told from its answer. */
  function Told(db: Db, now: Nanos, req: Request, answer: Response): Db {
    Db(AccountsAfter(db, req),
       InvitationsAfter(db, now, req, answer),
       DevicesAfter(db, req, answer),
       QueuesAfter(db, req, answer),
       SendersAfter(db, req, answer),
       Touched(db, EffectOf(db, now, req, answer)),
       db.lastSeq + if answer.Sent? then 1 else 0,
       BundlesAfter(db, req, answer),
       StatementsAfter(db, req, answer))
  }
}
