/**
  What was acknowledged is what is in force: over any run of the relay, each role, endpoint, bundle
  and ceiling is the one that the last acknowledged request to write it asked for.
  */
module LastWrites {
  import opened Results
  import opened Tables
  import opened StoreSpec
  import opened Integrity
  import opened Nonces
  import opened Handlers
  import opened Runs
  import opened Quotas
  import opened Effects
  import opened Transcripts
  import opened Answers
  import opened Rulebook

  function Before(evs: seq<Event>): Db
    requires evs != []
  {
    State(EmptyRelay, evs[..|evs| - 1]).db
  }

  function LastAnswer(evs: seq<Event>): Response
    requires evs != []
  {
    AnswerTo(EmptyRelay, evs, |evs| - 1)
  }

  /** The token enrols the device with this request. */
  predicate EnrolsAs(db: Db, req: Request, answer: Response, d: Id) {
    req.Register? && req.newId == d && answer.Registered? && req.token in db.invitations
  }

  // ---- roles

  /** The role last given to a device: on enrolment, by a role change, or by the operator. */
  function LastRole(evs: seq<Event>, d: Id): Option<Role> {
    if evs == [] then None
    else
      var rest, answer := LastRole(evs[..|evs| - 1], d), LastAnswer(evs);
      match evs[|evs| - 1].req
      case Register(token, _, _, newId) =>
        if EnrolsAs(Before(evs), evs[|evs| - 1].req, answer, d)
        then Some(RoleEnrolled(Before(evs), Before(evs).invitations[token])) else rest
      case Manage(_, _, AskSetRole(target, role)) =>
        if target == d && Acked(answer) then Some(RoleNamed(role)) else rest
      case Operate(Promote(target)) => if target == d && Acked(answer) then Some(Admin) else rest
      case _ => rest
  }

  lemma {:induction false} RoleIsLastGiven(evs: seq<Event>, d: Id)
    ensures var devices := State(EmptyRelay, evs).db.devices;
      d in devices ==> LastRole(evs, d) == Some(devices[d].role)
  {
    hide Serve, Valid, AnswerOf, RoleEnrolled;
    if evs != [] {
      RoleIsLastGiven(evs[..|evs| - 1], d);
      RunTold(evs);
    }
  }

  // ---- endpoints

  /** The endpoint last set: on enrolment, by the device, or cleared by its revocation. */
  function LastPush(evs: seq<Event>, d: Id): string {
    if evs == [] then ""
    else
      var rest, answer := LastPush(evs[..|evs| - 1], d), LastAnswer(evs);
      match evs[|evs| - 1].req
      case Register(_, _, push, _) => if EnrolsAs(Before(evs), evs[|evs| - 1].req, answer, d) then push else rest
      case Manage(id, _, AskUpdatePush(push)) => if id == d && Acked(answer) then push else rest
      case Manage(_, _, AskRevoke(target)) => if target == d && Acked(answer) then "" else rest
      case _ => rest
  }

  lemma {:induction false} PushIsLastSet(evs: seq<Event>, d: Id)
    ensures var devices := State(EmptyRelay, evs).db.devices; d in devices ==> devices[d].push == LastPush(evs, d)
  {
    hide Serve, Valid, AnswerOf, RoleEnrolled;
    if evs != [] {
      PushIsLastSet(evs[..|evs| - 1], d);
      RunTold(evs);
    }
  }

  // ---- bundles

  /** The bundle a device last wrote, unless it was revoked since. */
  function LastBundle(evs: seq<Event>, d: Id): Option<Bytes> {
    if evs == [] then None
    else
      var rest, answer := LastBundle(evs[..|evs| - 1], d), LastAnswer(evs);
      match evs[|evs| - 1].req
      case Manage(id, _, AskSetBundle(blob)) => if id == d && Acked(answer) then Some(blob) else rest
      case Manage(_, _, AskRevoke(target)) => if target == d && Acked(answer) then None else rest
      case _ => rest
  }

  lemma {:induction false} BundleIsLastWritten(evs: seq<Event>, d: Id)
    ensures var bundles := State(EmptyRelay, evs).db.bundles;
      LastBundle(evs, d) == if d in bundles then Some(bundles[d]) else None
  {
    hide Serve, Valid, AnswerOf;
    if evs != [] {
      BundleIsLastWritten(evs[..|evs| - 1], d);
      RunTold(evs);
    }
  }

  /** Who reads a bundle reads the one its device last wrote. */
  lemma BundleReadIsLastWritten(evs: seq<Event>, k: nat, id: Id, env: Envelope, target: Id)
    requires k < |evs| && evs[k].req == Manage(id, env, AskGetBundle(target))
    requires AnswerTo(EmptyRelay, evs, k).Bundle?
    ensures LastBundle(evs[..k], target) == Some(AnswerTo(EmptyRelay, evs, k).blob)
  {
    hide Serve, Valid, Told, Genuine;
    var upTo := evs[..k + 1];
    assert upTo[..k] == evs[..k];
    RunTold(upTo);
    BundleIsLastWritten(evs[..k], target);
  }

  // ---- ceilings

  /** The ceiling last asked for and acknowledged at a queue or device, 0 if none was. */
  function LastCeiling(evs: seq<Event>, w: Where): int {
    if evs == [] then 0
    else
      var rest, answer := LastCeiling(evs[..|evs| - 1], w), LastAnswer(evs);
      match evs[|evs| - 1].req
      case Register(_, _, _, newId) =>
        if w == OwnedBy(newId) && EnrolsAs(Before(evs), evs[|evs| - 1].req, answer, newId) then 0 else rest
      case Manage(_, _, AskCreateQueue(_, rid, _)) => if w == InQueue(rid) && Acked(answer) then 0 else rest
      case Receive(rid, _, SetQuota(bytes)) => if w == InQueue(rid) && Acked(answer) then bytes else rest
      case Operate(CapDevice(d, bytes)) => if w == OwnedBy(d) && Acked(answer) then bytes else rest
      case _ => rest
  }

  lemma {:induction false} CeilingIsLastAsked(evs: seq<Event>, w: Where)
    requires w.InQueue? || w.OwnedBy?
    ensures var db := State(EmptyRelay, evs).db; HasLevel(db, w) ==> Ceiling(db, w) == LastCeiling(evs, w)
  {
    hide Serve, Valid, AnswerOf, RoleEnrolled;
    if evs != [] {
      CeilingIsLastAsked(evs[..|evs| - 1], w);
      RunTold(evs);
    }
  }
}
