/**
  The refusals only a race can bring about: a store step finds the row no longer as its request's
  lookup did, and the request is answered accordingly and changes nothing.
  */
module RaceAnswers {
  import opened Results
  import opened Tables
  import opened StoreSpec
  import opened Integrity
  import opened Nonces
  import opened Handlers
  import opened Runs
  import opened Transcripts
  import opened Answers
  import opened Interleaving

  /** The turn's store step fails, its request is given this answer, and nothing changes. */
  ghost predicate TurnedAway(s: Sys, turn: Turn, answer: Response) {
    && StepOf(s, turn).Some?
    && var t := turn.move.t;
       Take(s, turn) == s.(threads := s.threads[t := Finished(s.threads[t].req, answer)])
  }

  lemma StopsTurn(s: Sys, turn: Turn)
    requires StepOf(s, turn).Some? && After(s.db, turn.now, StepOf(s, turn).value) == s.db
    requires Stop(StepOf(s, turn).value, Apply(s.db, turn.now, StepOf(s, turn).value).1).Some?
    ensures TurnedAway(s, turn, Stop(StepOf(s, turn).value, Apply(s.db, turn.now, StepOf(s, turn).value).1).value)
  {
    hide Apply, Stop, Authorise, Lookup, Finish;
  }

  lemma GoesOn(s: Sys, turn: Turn, answer: Response)
    requires StepOf(s, turn).Some?
    requires Stop(StepOf(s, turn).value, Apply(s.db, turn.now, StepOf(s, turn).value).1).None?
    ensures !TurnedAway(s, turn, answer)
  {
    hide Apply, Stop, Authorise, Lookup, Finish;
    var t := turn.move.t;
    assert Take(s, turn).threads[t].Running?;
    assert s.threads[t := Finished(s.threads[t].req, answer)][t].Finished?;
  }

  /** A bind loses its race exactly if the queue is bound or retired by then: unauthorized. */
  lemma LostBind(s: Sys, turn: Turn, sid: Id, key: Key)
    requires StepOf(s, turn) == Some(OnQueues(OpBind(sid, key))) && |key| == 32
    requires sid in s.db.senders && s.db.senders[sid] in s.db.queues
    ensures
      var q := s.db.queues[s.db.senders[sid]];
      TurnedAway(s, turn, Unauthorized) <==> q.senderKey.Some? || q.retired
  {
    hide TurnedAway, StepOf;
    if Bindable(s.db, sid) { GoesOn(s, turn, Unauthorized); } else { StopsTurn(s, turn); }
  }

  /** A ceiling cannot be written on a queue retired since: not found. */
  lemma RecapTooLate(s: Sys, turn: Turn, rid: Id, bytes: int)
    requires StepOf(s, turn) == Some(OnQueues(OpSetQueueQuota(rid, bytes)))
    ensures TurnedAway(s, turn, NotFound) <==> !LiveQueue(s.db, rid)
  {
    hide TurnedAway, StepOf;
    if LiveQueue(s.db, rid) { GoesOn(s, turn, NotFound); } else { StopsTurn(s, turn); }
  }

  /** Revoking this device would leave live devices in its account but no live admin. */
  ghost predicate Strands(db: Db, d: Id) {
    && Live(db, d) && db.devices[d].role == Admin && NoOtherAdmin(db, db.devices[d].account, d)
    && exists e :: e != d && LiveIn(db, e, db.devices[d].account)
  }

  lemma StrandsIff(db: Db, d: Id)
    requires Live(db, d) && db.devices[d].role == Admin
    ensures StripsLastAdmin(db.devices, db.devices[d].account, d, true) <==> Strands(db, d)
  {
    var account := db.devices[d].account;
    if Strands(db, d) {
      var e :| e != d && LiveIn(db, e, account);
      assert e in LiveDevices(db.devices, account) - {d};
      assert LiveAdmins(db.devices, account) - {d} == {};
    }
    if StripsLastAdmin(db.devices, account, d, true) {
      var e :| e in LiveDevices(db.devices, account) - {d};
      assert LiveIn(db, e, account);
      forall x | x in db.devices && x != d ensures !(LiveIn(db, x, account) && db.devices[x].role == Admin) {
        assert x !in LiveAdmins(db.devices, account) - {d};
      }
    }
  }

  /** A revocation of another device is a conflict exactly if by then it would strand live devices
      without an admin; the caller's own authority is not looked at again. */
  lemma RevocationConflict(s: Sys, turn: Turn, caller: Id, d: Id)
    requires StepOf(s, turn) == Some(Retiring(OpRevoke(caller, d))) && d in s.db.devices
    ensures TurnedAway(s, turn, Conflict) <==> caller != d && Strands(s.db, d)
    ensures !TurnedAway(s, turn, Conflict) ==> Take(s, turn).db == Disable(s.db, d)
  {
    hide TurnedAway, StripsLastAdmin, StepOf, Disable, Take;
    if Live(s.db, d) && s.db.devices[d].role == Admin { StrandsIff(s.db, d); }
    TurnIsOneStep(s, turn);
    if caller != d && Strands(s.db, d) { StopsTurn(s, turn); } else { GoesOn(s, turn, Conflict); }
  }

  /** A role change finds what it finds: the mode, the target's liveness and the last admin of then. */
  lemma RoleChangeTooLate(s: Sys, turn: Turn, account: Id, d: Id, role: string)
    requires StepOf(s, turn) == Some(OnDevices(OpSetRole(account, d, role)))
    requires role in {"admin", "member"} && account in s.db.accounts && s.db.accounts[account].mode == Managed
    ensures TurnedAway(s, turn, NotFound) <==> !LiveIn(s.db, d, account)
    ensures TurnedAway(s, turn, Conflict) <==>
      LiveIn(s.db, d, account) && role == "member" && s.db.devices[d].role == Admin && NoOtherAdmin(s.db, account, d)
  {
    hide TurnedAway, StripsLastAdmin, StepOf, NoOtherAdmin;
    var op := OnDevices(OpSetRole(account, d, role));
    if LiveIn(s.db, d, account) { LastIff(s.db, d); }
    if SetDeviceRole(s.db, account, d, role).Ok? {
      GoesOn(s, turn, NotFound);
      GoesOn(s, turn, Conflict);
    } else {
      StopsTurn(s, turn);
      if LiveIn(s.db, d, account) {
        OneAway(s, turn, Conflict, NotFound);
      } else {
        OneAway(s, turn, NotFound, Conflict);
      }
    }
  }

  lemma LastIff(db: Db, d: Id)
    requires Live(db, d)
    ensures StripsLastAdmin(db.devices, db.devices[d].account, d, false)
       <==> NoOtherAdmin(db, db.devices[d].account, d)
  {
    var account := db.devices[d].account;
    if NoOtherAdmin(db, account, d) {
      assert LiveAdmins(db.devices, account) - {d} == {};
    } else {
      var e :| e in db.devices && e != d && LiveIn(db, e, account) && db.devices[e].role == Admin;
      assert e in LiveAdmins(db.devices, account) - {d};
    }
  }

  lemma OneAway(s: Sys, turn: Turn, a: Response, b: Response)
    requires a != b && TurnedAway(s, turn, a)
    ensures !TurnedAway(s, turn, b)
  {
    hide Take;
    var t := turn.move.t;
    assert s.threads[t := Finished(s.threads[t].req, a)][t] != s.threads[t := Finished(s.threads[t].req, b)][t];
  }
}
