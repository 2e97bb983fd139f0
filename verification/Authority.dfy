/** Whose word counts: what only admins may do, who minted an invitation, and what kills it. */
module Authority {
  import opened Results
  import opened Tables
  import opened StoreSpec
  import opened Integrity
  import opened Nonces
  import opened Handlers
  import opened Runs
  import opened Effects
  import opened Transcripts
  import opened Answers
  import opened Rulebook

  // ---- what only an admin may do

  predicate ForAdmins(call: Call) {
    call.AskInvite? || call.AskSetRole? || call.AskAppendStatement?
  }

  /** An invitation, a role change or a statement is acknowledged only to a live admin; a live member's
      genuine request for one is forbidden and changes nothing. */
  lemma OnlyAdminsAct(r: Relay, now: Nanos, id: Id, env: Envelope, call: Call)
    requires Valid(r.db) && ForAdmins(call)
    ensures
      var served := Serve(r, now, Manage(id, env, call));
      && (Acked(served.1) || served.1.Written? ==> Live(r.db, id) && r.db.devices[id].role == Admin)
      && (served.0.db != r.db ==> Live(r.db, id) && r.db.devices[id].role == Admin)
      && (Known(r, now, id, env) && r.db.devices[id].role == Member ==> served.1 == Forbidden && served.0.db == r.db)
  {
    hide Valid, Genuine, Told, Serve;
    CallServed(r, now, id, env, call);
    if Known(r, now, id, env) {
      if r.db.devices[id].role == Member { NothingTold(r.db, now, id, env, call, Forbidden); }
    } else {
      NothingTold(r.db, now, id, env, call, Unauthorized);
    }
  }

  // ---- who minted an invitation

  predicate LiveAdmin(db: Db, d: Id, account: Id) {
    LiveIn(db, d, account) && db.devices[d].role == Admin
  }

  /** Before this event, the invitation was given these terms by the operator, who founds an account
      with it, or by a device that was then a live admin of its account. */
  predicate Mints(db: Db, e: Event, t: Id, inv: Invitation) {
    match e.req
    case Operate(NewAccount(account, _, _, _, token, invitation, ttl)) =>
      && token == t && inv.account == account && inv.id == invitation
      && inv.expires == Seconds(e.now + ttl) && inv.grants == Admin
    case Manage(d, _, AskInvite(role, token, invitation)) =>
      && token == t && LiveAdmin(db, d, inv.account) && inv.id == invitation
      && inv.expires == Seconds(e.now + 15 * 60 * SECOND)
      && inv.grants == if FlatAccount(db, inv.account) then Admin else RoleNamed(role)
    case _ => false
  }

  predicate MintedAt(evs: seq<Event>, i: nat, t: Id, inv: Invitation)
    requires i < |evs|
  {
    AnswerTo(EmptyRelay, evs, i) == Acknowledged && Mints(State(EmptyRelay, evs[..i]).db, evs[i], t, inv)
  }

  lemma MintedEarlier(evs: seq<Event>, n: nat, i: nat, t: Id, inv: Invitation)
    requires i < n <= |evs|
    ensures MintedAt(evs[..n], i, t, inv) == MintedAt(evs, i, t, inv)
  {
    hide Serve, Mints;
    assert evs[..n][..i] == evs[..i];
  }

  lemma SameTerms(db: Db, e: Event, t: Id, inv: Invitation, later: Invitation)
    requires Mints(db, e, t, inv)
    requires later.id == inv.id && later.account == inv.account && later.expires == inv.expires
    requires later.grants == inv.grants
    ensures Mints(db, e, t, later)
  {
  }

  /** One request mints at most one invitation, and rewrites the terms of none. */
  lemma TermsTold(r: Relay, e: Event, t: Id)
    requires Valid(r.db) && t in InvitationsAfter(r.db, e.now, e.req, AnswerOf(r, e.now, e.req))
    ensures
      var answer := AnswerOf(r, e.now, e.req);
      var inv := InvitationsAfter(r.db, e.now, e.req, answer)[t];
      || (t in r.db.invitations
          && inv == r.db.invitations[t].(consumed := inv.consumed, revoked := inv.revoked))
      || (answer == Acknowledged && Mints(r.db, e, t, inv))
  {
    hide Valid, Genuine;
  }

  /** Every invitation of any run was minted by the operator or by a device that was a live admin of
      that account when it asked, on the terms the row states. */
  lemma {:induction false} MintedByAuthority(evs: seq<Event>, t: Id)
    requires t in State(EmptyRelay, evs).db.invitations
    ensures exists i :: 0 <= i < |evs| && MintedAt(evs, i, t, State(EmptyRelay, evs).db.invitations[t])
  {
    hide Serve, Valid, AnswerOf, InvitationsAfter, Mints;
    if evs != [] {
      var n := |evs| - 1;
      var r, e := State(EmptyRelay, evs[..n]), evs[n];
      var inv := State(EmptyRelay, evs).db.invitations[t];
      RunTold(evs);
      TermsTold(r, e, t);
      if AnswerTo(EmptyRelay, evs, n) == Acknowledged && Mints(r.db, e, t, inv) {
        assert MintedAt(evs, n, t, inv);
      } else {
        var was := r.db.invitations[t];
        MintedByAuthority(evs[..n], t);
        var i :| 0 <= i < n && MintedAt(evs[..n], i, t, was);
        MintedEarlier(evs, n, i, t, was);
        SameTerms(State(EmptyRelay, evs[..i]).db, evs[i], t, was, inv);
        assert MintedAt(evs, i, t, inv);
      }
    }
  }

  /** So every enrolment redeems an invitation minted with authority, before it expires. */
  lemma EnrolledByAuthority(evs: seq<Event>, k: nat)
    requires k < |evs| && evs[k].req.Register? && AnswerTo(EmptyRelay, evs, k).Registered?
    ensures
      var token, invitations := evs[k].req.token, State(EmptyRelay, evs[..k]).db.invitations;
      && token in invitations && Seconds(evs[k].now) < invitations[token].expires
      && exists i :: 0 <= i < k && MintedAt(evs, i, token, invitations[token])
  {
    hide Serve, Valid, Told, MintedAt;
    var upTo, token := evs[..k + 1], evs[k].req.token;
    assert upTo[..k] == evs[..k];
    RunTold(upTo);
    MintedByAuthority(evs[..k], token);
    var i :| 0 <= i < k && MintedAt(evs[..k], i, token, State(EmptyRelay, evs[..k]).db.invitations[token]);
    MintedEarlier(evs, k, i, token, State(EmptyRelay, evs[..k]).db.invitations[token]);
  }

  // ---- what kills an invitation

  predicate Dead(db: Db, t: Id) {
    t in db.invitations && (db.invitations[t].consumed || db.invitations[t].revoked)
  }

  /** A known device's request to revoke an invitation: every one of its account with that id is dead
      by then, and it is acknowledged exactly if just one was open. */
  lemma RevocationKills(r: Relay, now: Nanos, id: Id, env: Envelope, invitation: Id, t: Id)
    requires Valid(r.db) && Known(r, now, id, env)
    requires t in r.db.invitations && r.db.invitations[t].id == invitation
    requires r.db.invitations[t].account == r.db.devices[id].account
    ensures
      var served := Serve(r, now, Manage(id, env, AskRevokeInvitation(invitation)));
      && Dead(served.0.db, t)
      && served.1 == if OneOpen(r.db, r.db.devices[id].account, invitation) then Acknowledged else NotFound
  {
    hide Valid, Genuine, Serve, OneOpen;
    CallServed(r, now, id, env, AskRevokeInvitation(invitation));
  }

  lemma DeadForEver(start: Relay, evs: seq<Event>, t: Id)
    requires Valid(start.db) && Dead(start.db, t)
    ensures Dead(State(start, evs).db, t)
  {
    hide Valid, State;
    RunKeepsValid(start, evs);
    assert InvitationAges(start.db.invitations[t], State(start, evs).db.invitations[t]);
  }

  /** Over any run: once a device's request to revoke an invitation is acknowledged, no invitation of
      its account with that id enrols anyone any more. */
  lemma RevokedNeverEnrols(evs: seq<Event>, i: nat, j: nat, id: Id, env: Envelope, invitation: Id)
    requires i < j < |evs| && evs[i].req == Manage(id, env, AskRevokeInvitation(invitation))
    requires AnswerTo(EmptyRelay, evs, i) == Acknowledged && evs[j].req.Register?
    requires
      var db, t := State(EmptyRelay, evs[..i]).db, evs[j].req.token;
      && id in db.devices && t in db.invitations
      && db.invitations[t].account == db.devices[id].account && db.invitations[t].id == invitation
    ensures !AnswerTo(EmptyRelay, evs, j).Registered?
  {
    hide Valid, Genuine, Serve, Told, OneOpen, Ages;
    var r, t := State(EmptyRelay, evs[..i]), evs[j].req.token;
    EmptyIsValid();
    RunKeepsValid(EmptyRelay, evs[..i]);
    CallServed(r, evs[i].now, id, env, AskRevokeInvitation(invitation));
    RevocationKills(r, evs[i].now, id, env, invitation, t);
    assert evs[..i + 1][..i] == evs[..i];
    RunKeepsValid(EmptyRelay, evs[..i + 1]);
    StateSplit(EmptyRelay, evs[..j], i + 1);
    assert evs[..j][..i + 1] == evs[..i + 1];
    DeadForEver(State(EmptyRelay, evs[..i + 1]), evs[..j][i + 1..], t);
    RunKeepsValid(EmptyRelay, evs[..j]);
    var e := evs[j];
    RegisterServed(State(EmptyRelay, evs[..j]), e.now, e.req.token, e.req.pub, e.req.push, e.req.newId);
  }
}
