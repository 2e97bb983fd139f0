/**
  Which sends are taken: the three storage ceilings as one rule on rows, and the answer to every
  send, the one that binds the sender key included.
  */
module Admission {
  import opened Results
  import opened Tables
  import opened StoreSpec
  import opened RowFacts
  import opened Integrity
  import opened Nonces
  import opened Ttl
  import opened Handlers
  import opened Runs
  import opened Quotas
  import opened Effects
  import opened Transcripts
  import opened Answers

  // ---- the ceilings

  /** The queue, its device or its account would go over its ceiling. */
  predicate Cramped(db: Db, rid: Id, at: Stamp, size: nat)
    requires Resolves(db, rid)
  {
    var owner := db.queues[rid].owner;
    || Over(db, InQueue(rid), at, size)
    || Over(db, OwnedBy(owner), at, size)
    || Over(db, InAccount(db.devices[owner].account), at, size)
  }

  lemma QueueResolves(db: Db, rid: Id)
    requires Valid(db) && rid in db.queues
    ensures Resolves(db, rid)
  {
    hide Ascending, Indexed;
  }

  lemma CrampedIff(db: Db, rid: Id, at: Stamp, size: nat)
    requires Resolves(db, rid)
    ensures HasRoom(db, rid, at, size) <==> !Cramped(db, rid, at, size)
  {
    hide Stored;
  }

  /** With a new id, an append is refused exactly for a ceiling that it would bring a level over;
      landing on one, or a ceiling of zero or less, refuses nothing. */
  lemma AppendRefusedIff(db: Db, now: Nanos, rid: Id, payload: Bytes, ttl: Nanos, id: Id)
    requires Resolves(db, rid) && !IdTaken(db.messages, id)
    ensures AppendMessage(db, now, rid, payload, ttl, id) == Err(QuotaExceeded)
       <==> Cramped(db, rid, Seconds(now), |payload|)
    ensures AppendMessage(db, now, rid, payload, ttl, id).Ok? <==> !Cramped(db, rid, Seconds(now), |payload|)
  {
    hide HasRoom, Cramped, IdTaken;
    CrampedIff(db, rid, Seconds(now), |payload|);
  }

  // ---- a send

  /** The key a send is verified under: the bound one, which a header may repeat, or the header's. */
  function KeyFor(q: Queue, header: Option<Key>): Option<Key> {
    match q.senderKey
    case Some(bound) => if header in {None, Some(bound)} then Some(bound) else None
    case None => if header.Some? && |header.value| == 32 then header else None
  }

  predicate GenuineSend(r: Relay, now: Nanos, sender: Id, env: Envelope, q: Queue, header: Option<Key>) {
    KeyFor(q, header).Some? && Genuine(r.seen, now, env, sender, KeyFor(q, header).value)
  }

  /** The answer to a genuine send on a live queue. */
  function BodyAnswer(db: Db, now: Nanos, rid: Id, body: Option<SendBody>, newId: Id): Response
    requires Resolves(db, rid)
  {
    if body.None? || |body.value.payload| == 0 then BadRequest
    else if |body.value.payload| > 64 * 1024 then TooLarge
    else if Cramped(db, rid, Seconds(now), |body.value.payload|) then Full
    else if IdTaken(db.messages, newId) then Internal
    else Sent(newId)
  }

  lemma SendVerdict(r: Relay, now: Nanos, sender: Id, env: Envelope, header: Option<Key>,
      body: Option<SendBody>, newId: Id)
    requires sender in r.db.senders && LiveQueue(r.db, r.db.senders[sender])
    ensures
      var rid := r.db.senders[sender];
      var q := r.db.queues[rid];
      VerdictOn(r, now, Send(sender, env, header, body, newId)) ==
        if GenuineSend(r, now, sender, env, q, header)
        then SendOps(sender, rid, KeyFor(q, header).value, q.senderKey.None?, body, newId)
        else Refuse(Unauthorized)
  {
    hide Authenticate, Genuine, SendOps;
    var q := r.db.queues[r.db.senders[sender]];
    if KeyFor(q, header).Some? { GenuineIff(r.seen, now, env, sender, KeyFor(q, header).value); }
  }

  /** Binding the key changes neither ceilings nor what is counted against them. */
  function Bind(db: Db, rid: Id, key: Key): Db
    requires rid in db.queues
  {
    db.(queues := db.queues[rid := db.queues[rid].(senderKey := Some(key))])
  }

  lemma BindingIsFree(db: Db, rid: Id, key: Key, w: Where, at: Stamp)
    requires Resolves(db, rid) && IsLevel(w)
    ensures Stored(Bind(db, rid, key), w, at) == Stored(db, w, at)
    ensures Ceiling(Bind(db, rid, key), w) == Ceiling(db, w)
  {
    var next := Bind(db, rid, key);
    forall i | 0 <= i < |db.messages|
      ensures Selects(db.queues, db.devices, w, db.messages[i])
           == Selects(next.queues, next.devices, w, db.messages[i])
    {
    }
    ChoiceWeighs(db.messages, db.queues, db.devices, w, next.queues, next.devices, w, at);
  }

  lemma BindingCrampsNothing(db: Db, rid: Id, key: Key, at: Stamp, size: nat)
    requires Resolves(db, rid)
    ensures Resolves(Bind(db, rid, key), rid)
    ensures Cramped(Bind(db, rid, key), rid, at, size) == Cramped(db, rid, at, size)
  {
    hide Stored, Ceiling;
    var owner := db.queues[rid].owner;
    BindingIsFree(db, rid, key, InQueue(rid), at);
    BindingIsFree(db, rid, key, OwnedBy(owner), at);
    BindingIsFree(db, rid, key, InAccount(db.devices[owner].account), at);
  }

  // ---- the store steps of a send

  function AppendOp(rid: Id, body: SendBody, newId: Id): Op {
    OnMessages(OpAppend(rid, body.payload, ClampMessageTtl(body.ttl), newId))
  }

  /** The row a stored send adds. */
  function RowOf(db: Db, now: Nanos, rid: Id, body: SendBody, newId: Id): Message {
    Message(db.lastSeq + 1, newId, rid, body.payload, Seconds(now), Seconds(now + ClampMessageTtl(body.ttl)))
  }

  function Grown(db: Db, m: Message): Db {
    db.(messages := db.messages + [m], lastSeq := db.lastSeq + 1)
  }

  /** The append answers by the ceilings, and stores just that row. */
  lemma AppendAnswered(db: Db, now: Nanos, rid: Id, body: SendBody, newId: Id,
      req: Request, snap: Snapshot, reply: Reply)
    requires Resolves(db, rid) && req.Send? && req.newId == newId
    requires 0 < |body.payload| <= 64 * 1024
    ensures
      var answer := BodyAnswer(db, now, rid, Some(body), newId);
      Execute(db, now, req, snap, [AppendOp(rid, body, newId)], None, reply)
        == (if answer.Sent? then Grown(db, RowOf(db, now, rid, body, newId)) else db, answer)
  {
    hide HasRoom, Cramped, IdTaken, ClampMessageTtl;
    CrampedIff(db, rid, Seconds(now), |body.payload|);
    OneStep(db, now, req, snap, AppendOp(rid, body, newId), reply);
  }

  /** The bind step of a genuine first send. */
  lemma BindAnswered(db: Db, now: Nanos, req: Request, snap: Snapshot, sender: Id, key: Key,
      rest: seq<Op>, last: Option<Response>)
    requires sender in db.senders && LiveQueue(db, db.senders[sender])
    requires db.queues[db.senders[sender]].senderKey.None? && |key| == 32
    ensures Execute(db, now, req, snap, [OnQueues(OpBind(sender, key))] + rest, last, Done)
         == Execute(Bind(db, db.senders[sender], key), now, req, snap, rest, last, Flag(true))
  {
    hide Execute;
    FirstStep(db, now, req, snap, OnQueues(OpBind(sender, key)), rest, last);
  }

  /** What remains once the key is bound. */
  lemma BodyServed(db: Db, now: Nanos, rid: Id, body: Option<SendBody>, newId: Id,
      req: Request, snap: Snapshot, reply: Reply)
    requires Resolves(db, rid) && req.Send? && req.newId == newId
    ensures
      var v := SendOps("", rid, [], false, body, newId);
      var answer := BodyAnswer(db, now, rid, body, newId);
      Execute(db, now, req, snap, v.ops, v.last, reply)
        == (if answer.Sent? then Grown(db, RowOf(db, now, rid, body.value, newId)) else db, answer)
  {
    hide Execute, ClampMessageTtl, Cramped, IdTaken;
    var v := SendOps("", rid, [], false, body, newId);
    if v.last.Some? {
      NoStep(db, now, req, snap, v.last, reply);
    } else {
      assert v.ops == [AppendOp(rid, body.value, newId)];
      AppendAnswered(db, now, rid, body.value, newId, req, snap, reply);
    }
  }

  /** The database an authenticated send works on after its bind, if it is the first. */
  function AfterBind(db: Db, rid: Id, key: Key): Db
    requires rid in db.queues
  {
    if db.queues[rid].senderKey.None? then Bind(db, rid, key) else db
  }

  lemma SendExecuted(db: Db, now: Nanos, sender: Id, key: Key, body: Option<SendBody>, newId: Id,
      req: Request, snap: Snapshot)
    requires sender in db.senders && LiveQueue(db, db.senders[sender]) && Resolves(db, db.senders[sender])
    requires req.Send? && req.newId == newId && (db.queues[db.senders[sender]].senderKey.None? ==> |key| == 32)
    ensures
      var rid := db.senders[sender];
      var v := SendOps(sender, rid, key, db.queues[rid].senderKey.None?, body, newId);
      var bound := AfterBind(db, rid, key);
      var answer := BodyAnswer(db, now, rid, body, newId);
      Execute(db, now, req, snap, v.ops, v.last, Done)
        == (if answer.Sent? then Grown(bound, RowOf(db, now, rid, body.value, newId)) else bound, answer)
  {
    hide Execute, ClampMessageTtl, Cramped, IdTaken;
    var rid := db.senders[sender];
    var plain := SendOps("", rid, [], false, body, newId);
    if db.queues[rid].senderKey.None? {
      var v := SendOps(sender, rid, key, true, body, newId);
      assert v.ops == [OnQueues(OpBind(sender, key))] + plain.ops && v.last == plain.last;
      BindAnswered(db, now, req, snap, sender, key, plain.ops, plain.last);
      if body.Some? { BindingCrampsNothing(db, rid, key, Seconds(now), |body.value.payload|); }
      BindingCrampsNothing(db, rid, key, Seconds(now), 0);
      BodyServed(Bind(db, rid, key), now, rid, body, newId, req, snap, Flag(true));
    } else {
      assert SendOps(sender, rid, key, false, body, newId) == plain;
      BodyServed(db, now, rid, body, newId, req, snap, Done);
    }
  }

  // ---- any send

  function SendAnswer(r: Relay, now: Nanos, sender: Id, env: Envelope, header: Option<Key>,
      body: Option<SendBody>, newId: Id): Response
    requires sender in r.db.senders ==> Resolves(r.db, r.db.senders[sender])
  {
    if sender !in r.db.senders || r.db.queues[r.db.senders[sender]].retired then NotFound
    else
      var rid := r.db.senders[sender];
      if !GenuineSend(r, now, sender, env, r.db.queues[rid], header) then Unauthorized
      else BodyAnswer(r.db, now, rid, body, newId)
  }

  lemma SendTold(db: Db, now: Nanos, sender: Id, env: Envelope, header: Option<Key>, body: Option<SendBody>,
      newId: Id, answer: Response)
    requires sender in db.senders && db.senders[sender] in db.queues && answer !in {NotFound, Unauthorized}
    requires answer.Sent? ==> body.Some?
    requires KeyFor(db.queues[db.senders[sender]], header).Some?
    ensures
      var rid := db.senders[sender];
      var bound := AfterBind(db, rid, KeyFor(db.queues[rid], header).value);
      Told(db, now, Send(sender, env, header, body, newId), answer)
        == if answer.Sent? then Grown(bound, RowOf(db, now, rid, body.value, newId)) else bound
  {
    hide ClampMessageTtl;
  }

  lemma RefusedSendTold(db: Db, now: Nanos, req: Request, answer: Response)
    requires req.Send? && answer in {NotFound, Unauthorized}
    ensures Told(db, now, req, answer) == db
  {
  }

  /** Any send: not found, unauthorized, malformed, full exactly for a ceiling it would bring a level
      over, and otherwise stored under its id; and a genuine one binds the key if it is the first,
      whatever becomes of its body. */
  lemma SendServed(r: Relay, now: Nanos, sender: Id, env: Envelope, header: Option<Key>, body: Option<SendBody>,
      newId: Id)
    requires Valid(r.db)
    ensures sender in r.db.senders ==> Resolves(r.db, r.db.senders[sender])
    ensures Served(r, now, Send(sender, env, header, body, newId),
                   SendAnswer(r, now, sender, env, header, body, newId))
  {
    hide Linked, Ascending, Genuine, Told, BodyAnswer, SendOps, Execute;
    var req := Send(sender, env, header, body, newId);
    if sender in r.db.senders {
      var rid := r.db.senders[sender];
      assert rid in r.db.queues;
      QueueResolves(r.db, rid);
    }
    hide Valid;
    if sender in r.db.senders && !r.db.queues[r.db.senders[sender]].retired {
      var q := r.db.queues[r.db.senders[sender]];
      SendVerdict(r, now, sender, env, header, body, newId);
      if GenuineSend(r, now, sender, env, q, header) {
        GenuineSent(r, now, sender, env, header, body, newId);
      } else {
        RefusedOutright(r, now, req);
        RefusedSendTold(r.db, now, req, Unauthorized);
      }
    } else {
      RefusedOutright(r, now, req);
      RefusedSendTold(r.db, now, req, NotFound);
    }
  }

  lemma GenuineSent(r: Relay, now: Nanos, sender: Id, env: Envelope, header: Option<Key>, body: Option<SendBody>,
      newId: Id)
    requires sender in r.db.senders && LiveQueue(r.db, r.db.senders[sender]) && Resolves(r.db, r.db.senders[sender])
    requires GenuineSend(r, now, sender, env, r.db.queues[r.db.senders[sender]], header)
    ensures Served(r, now, Send(sender, env, header, body, newId),
                   BodyAnswer(r.db, now, r.db.senders[sender], body, newId))
  {
    hide Genuine, Told, Execute, Cramped, IdTaken, Authorise, Lookup, ClampMessageTtl;
    var req := Send(sender, env, header, body, newId);
    var rid := r.db.senders[sender];
    var key := KeyFor(r.db.queues[rid], header).value;
    SendVerdict(r, now, sender, env, header, body, newId);
    SendExecuted(r.db, now, sender, key, body, newId, req, Lookup(r.db, req));
    SendTold(r.db, now, sender, env, header, body, newId, BodyAnswer(r.db, now, rid, body, newId));
  }
}
