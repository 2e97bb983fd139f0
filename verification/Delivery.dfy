/**
  First-in-first-out, at-least-once delivery: what a drain returns, told from the requests and
  answers of the run alone.
  */
module Delivery {
  import opened Results
  import opened Tables
  import opened StoreSpec
  import opened RowFacts
  import opened Integrity
  import opened Ttl
  import opened Handlers
  import opened Runs
  import opened Quotas
  import opened Expiry
  import opened Effects

  /** The live rows of a queue, in rowid order, as a drain hands them out. */
  function Readable(ms: seq<Message>, q: Id, at: Stamp): seq<Delivery> {
    if ms == [] then []
    else
      var m := ms[|ms| - 1];
      var rest := Readable(ms[..|ms| - 1], q, at);
      if m.queue == q && m.expires > at then rest + [Deliver(m)] else rest
  }

  lemma ReadableSnoc(ms: seq<Message>, m: Message, q: Id, at: Stamp)
    ensures Readable(ms + [m], q, at) ==
      Readable(ms, q, at) + if m.queue == q && m.expires > at then [Deliver(m)] else []
  {
    assert (ms + [m])[..|ms|] == ms;
  }

  lemma {:induction false} DrainReads(ms: seq<Message>, queues: Queues, devices: Devices, q: Id, at: Stamp)
    ensures Deliveries(LiveIn(ms, at, queues, devices, q)) == Readable(ms, q, at)
  {
    hide LiveIn, Deliveries, Readable;
    if ms == [] {
      NothingReads(queues, devices, q, at);
    } else {
      var init, last := ms[..|ms| - 1], ms[|ms| - 1];
      assert ms == init + [last];
      DrainReads(init, queues, devices, q, at);
      LiveInSnoc(init, last, at, queues, devices, q);
      ReadableSnoc(init, last, q, at);
      var live := LiveIn(init, at, queues, devices, q);
      DeliveriesSnoc(live, last);
      assert live + [] == live && Readable(init, q, at) + [] == Readable(init, q, at);
    }
  }

  lemma NothingReads(queues: Queues, devices: Devices, q: Id, at: Stamp)
    ensures Deliveries(LiveIn([], at, queues, devices, q)) == Readable([], q, at) == []
  {
  }

  function PayloadBytes(ds: seq<Delivery>): nat {
    if ds == [] then 0 else PayloadBytes(ds[..|ds| - 1]) + |ds[|ds| - 1].payload|
  }

  /** What a queue's ceiling is held against is what a drain would hand out at that time. */
  lemma {:induction false} CountedIsDeliverable(ms: seq<Message>, queues: Queues, devices: Devices, q: Id, at: Stamp)
    ensures LiveBytes(ms, queues, devices, InQueue(q), at) == PayloadBytes(Readable(ms, q, at))
  {
    if ms != [] {
      var init, m := ms[..|ms| - 1], ms[|ms| - 1];
      var rest := Readable(init, q, at);
      CountedIsDeliverable(init, queues, devices, q, at);
      assert (rest + [Deliver(m)])[..|rest|] == rest;
    }
  }

  // ---- the reference: what a drain owes, from requests and answers

  /** Request i is an accepted send to the queue. */
  predicate AcceptedOn(evs: seq<Event>, i: nat, q: Id)
    requires i < |evs|
  {
    && evs[i].req.Send? && evs[i].req.body.Some?
    && AnswerTo(EmptyRelay, evs, i).Sent?
    && evs[i].req.sender in State(EmptyRelay, evs[..i]).db.senders
    && State(EmptyRelay, evs[..i]).db.senders[evs[i].req.sender] == q
  }

  /** The message it stored: its payload, stamped with its arrival and its end. */
  function MessageOf(e: Event, q: Id): Delivery
    requires e.req.Send? && e.req.body.Some?
  {
    Delivery(e.req.newId, q, e.req.body.value.payload, Seconds(e.now),
             Seconds(e.now + ClampMessageTtl(e.req.body.value.ttl)))
  }

  /** Request j acknowledges the message, retires its queue, or revokes the queue's owner, with success. */
  predicate Drops(evs: seq<Event>, j: nat, q: Id, id: Id)
    requires j < |evs|
  {
    DropsFrom(State(EmptyRelay, evs[..j]).db, evs[j].req, AnswerTo(EmptyRelay, evs, j), q, id)
  }

  predicate DropsFrom(db: Db, req: Request, answer: Response, q: Id, id: Id) {
    match req
    case Receive(r, _, Ack(ids)) => r == q && answer.Deleted? && ids.Some? && id in ids.value
    case Receive(r, _, Retire) => r == q && answer == Acknowledged
    case Manage(_, _, AskRevoke(d)) => answer == Acknowledged && q in db.queues && db.queues[q].owner == d
    case _ => false
  }

  ghost predicate DroppedSince(evs: seq<Event>, i: nat, q: Id, id: Id) {
    exists j :: i <= j < |evs| && Drops(evs, j, q, id)
  }

  /** What a drain of the queue owes after the run, at a clock reading: of the first n requests,
      in order, the accepted sends not dropped since and not expired. */
  ghost function Owed(evs: seq<Event>, n: nat, q: Id, at: Stamp): seq<Delivery>
    requires n <= |evs|
  {
    if n == 0 then []
    else
      var rest := Owed(evs, n - 1, q, at);
      if !AcceptedOn(evs, n - 1, q) then rest
      else
        var d := MessageOf(evs[n - 1], q);
        if d.expires > at && !DroppedSince(evs, n, q, d.id) then rest + [d] else rest
  }

  lemma AcceptedIsSend(evs: seq<Event>, i: nat, q: Id)
    requires i < |evs| && AcceptedOn(evs, i, q)
    ensures evs[i].req.Send? && evs[i].req.body.Some?
  {
  }

  // ---- one more request

  /** The run's past does not change with its future. */
  lemma PastStands(evs: seq<Event>, e: Event, i: nat, q: Id)
    requires i < |evs|
    ensures AcceptedOn(evs + [e], i, q) == AcceptedOn(evs, i, q)
    ensures forall id :: Drops(evs + [e], i, q, id) == Drops(evs, i, q, id)
  {
    hide Serve;
    assert (evs + [e])[..i] == evs[..i] && (evs + [e])[i] == evs[i];
  }

  lemma DroppedSnoc(evs: seq<Event>, e: Event, i: nat, q: Id, id: Id)
    requires i <= |evs|
    ensures DroppedSince(evs + [e], i, q, id) <==> DroppedSince(evs, i, q, id) || Drops(evs + [e], |evs|, q, id)
  {
    hide Drops;
    forall j | i <= j < |evs| ensures Drops(evs + [e], j, q, id) == Drops(evs, j, q, id) {
      PastStands(evs, e, j, q);
    }
    if DroppedSince(evs, i, q, id) {
      var j :| i <= j < |evs| && Drops(evs, j, q, id);
      assert Drops(evs + [e], j, q, id);
    }
    if DroppedSince(evs + [e], i, q, id) && !Drops(evs + [e], |evs|, q, id) {
      var j :| i <= j < |evs + [e]| && Drops(evs + [e], j, q, id);
      assert j < |evs| && Drops(evs, j, q, id);
    }
  }

  /** Which of a queue's live rows a request takes away: none, all, or the acknowledged ones. */
  datatype Cut = CutNone | CutAll | CutIds(ids: seq<Id>)

  function Spared(ds: seq<Delivery>, cut: Cut): seq<Delivery> {
    if ds == [] then []
    else
      var rest := Spared(ds[..|ds| - 1], cut);
      if IsCut(cut, ds[|ds| - 1].id) then rest else rest + [ds[|ds| - 1]]
  }

  predicate IsCut(cut: Cut, id: Id) {
    match cut
    case CutNone => false
    case CutAll => true
    case CutIds(ids) => id in ids
  }

  function CutOf(db: Db, e: Effect, q: Id): Cut {
    match e
    case Removed(Named(r, ids)) => if r == q then CutIds(ids) else CutNone
    case Removed(InQueue(r)) => if r == q then CutAll else CutNone
    case Removed(OwnedBy(d)) => if q in db.queues && db.queues[q].owner == d then CutAll else CutNone
    case _ => CutNone
  }

  lemma SparedSnoc(ds: seq<Delivery>, d: Delivery, cut: Cut)
    ensures Spared(ds + [d], cut) == Spared(ds, cut) + if IsCut(cut, d.id) then [] else [d]
  {
    assert (ds + [d])[..|ds|] == ds;
  }

  lemma {:induction false} SparesAll(ds: seq<Delivery>)
    ensures Spared(ds, CutNone) == ds
  {
    if ds != [] {
      SparesAll(ds[..|ds| - 1]);
      assert ds == ds[..|ds| - 1] + [ds[|ds| - 1]];
    }
  }

  /** A deletion takes from the readable rows what its cut says, as long as it expires nothing early. */
  lemma {:induction false} DeletionCuts(ms: seq<Message>, db: Db, w: Where, q: Id, at: Stamp)
    requires w.Expired? || w.ExpiredIn? ==> w.at <= at
    requires !w.InAccount?
    ensures Readable(Remaining(ms, db.queues, db.devices, w), q, at) ==
      Spared(Readable(ms, q, at), CutOf(db, Removed(w), q))
  {
    if ms != [] {
      var init, last := ms[..|ms| - 1], ms[|ms| - 1];
      DeletionCuts(init, db, w, q, at);
      hide Remaining, Selected, Readable, Spared;
      assert ms == init + [last];
      var kept, shown := Remaining(init, db.queues, db.devices, w), Readable(init, q, at);
      RemainingSnoc(init, last, db.queues, db.devices, w);
      ReadableSnoc(init, last, q, at);
      ReadableSnoc(kept, last, q, at);
      SparedSnoc(shown, Deliver(last), CutOf(db, Removed(w), q));
      assert kept + [] == kept && shown + [] == shown;
      var spared := Spared(shown, CutOf(db, Removed(w), q));
      assert spared + [] == spared;
    }
  }

  /** What the last request of a run drops is what its effect cuts. */
  lemma DropsIsCut(evs: seq<Event>, e: Event, q: Id, id: Id)
    ensures
      var r := State(EmptyRelay, evs);
      var answer := Serve(r, e.now, e.req).1;
      Drops(evs + [e], |evs|, q, id) <==> IsCut(CutOf(r.db, EffectOf(r.db, e.now, e.req, answer), q), id)
  {
    hide Serve, EffectOf, CutOf, IsCut, DropsFrom;
    assert (evs + [e])[..|evs|] == evs && (evs + [e])[|evs|] == e;
    var r := State(EmptyRelay, evs);
    DropsFromIsCut(r.db, e, Serve(r, e.now, e.req).1, q, id);
  }

  lemma DropsFromIsCut(db: Db, e: Event, answer: Response, q: Id, id: Id)
    ensures DropsFrom(db, e.req, answer, q, id) <==> IsCut(CutOf(db, EffectOf(db, e.now, e.req, answer), q), id)
  {
    hide ClampMessageTtl, Seconds;
  }

  /** So one more request cuts what was owed for the earlier sends. */
  lemma {:induction false} OwedCut(evs: seq<Event>, e: Event, n: nat, q: Id, at: Stamp)
    requires n <= |evs|
    ensures
      var r := State(EmptyRelay, evs);
      var effect := EffectOf(r.db, e.now, e.req, Serve(r, e.now, e.req).1);
      Owed(evs + [e], n, q, at) == Spared(Owed(evs, n, q, at), CutOf(r.db, effect, q))
    decreases n
  {
    hide Serve, EffectOf, CutOf, IsCut, AcceptedOn, Drops, DroppedSince;
    if n > 0 {
      OwedCut(evs, e, n - 1, q, at);
      PastStands(evs, e, n - 1, q);
      assert (evs + [e])[n - 1] == evs[n - 1];
      if AcceptedOn(evs, n - 1, q) {
        AcceptedIsSend(evs, n - 1, q);
        var d := MessageOf(evs[n - 1], q);
        DroppedSnoc(evs, e, n, q, d.id);
        DropsIsCut(evs, e, q, d.id);
        var r := State(EmptyRelay, evs);
        SparedSnoc(Owed(evs, n - 1, q, at), d, CutOf(r.db, EffectOf(r.db, e.now, e.req, Serve(r, e.now, e.req).1), q));
      }
    }
  }

  /** What is owed for the request itself: its message, if it is an accepted send to the queue. */
  lemma OwedLast(evs: seq<Event>, e: Event, q: Id, at: Stamp)
    ensures
      var r := State(EmptyRelay, evs);
      var effect := EffectOf(r.db, e.now, e.req, Serve(r, e.now, e.req).1);
      Owed(evs + [e], |evs| + 1, q, at) == Owed(evs + [e], |evs|, q, at)
        + (if effect.Added? && effect.m.queue == q && effect.m.expires > at then [Deliver(effect.m)] else [])
  {
    hide Serve;
    assert (evs + [e])[..|evs|] == evs && (evs + [e])[|evs|] == e;
  }

  /** After any run, at the clock reading of its last request or any later one, the live rows of a
      queue are exactly what the run says is owed. */
  lemma {:induction false} RowsAreOwed(evs: seq<Event>, q: Id, at: Stamp)
    requires Runs.Monotone(evs) && (evs != [] ==> at >= Seconds(evs[|evs| - 1].now))
    ensures Readable(State(EmptyRelay, evs).db.messages, q, at) == Owed(evs, |evs|, q, at)
  {
    hide Serve, EffectOf, AcceptedOn, DroppedSince;
    if evs != [] {
      var n := |evs| - 1;
      var init, e := evs[..n], evs[n];
      assert evs == init + [e];
      var r := State(EmptyRelay, init);
      var effect := EffectOf(r.db, e.now, e.req, Serve(r, e.now, e.req).1);
      if n > 0 { SecondsMonotone(evs[n - 1].now, e.now); }
      RowsAreOwed(init, q, at);
      ServeEffect(r, e.now, e.req);
      OwedCut(init, e, n, q, at);
      OwedLast(init, e, q, at);
      EffectReads(r.db, e, Serve(r, e.now, e.req).1, q, at);
    }
  }

  lemma EffectReads(db: Db, e: Event, answer: Response, q: Id, at: Stamp)
    requires at >= Seconds(e.now)
    ensures
      var effect := EffectOf(db, e.now, e.req, answer);
      Readable(Touched(db, effect), q, at) == Spared(Readable(db.messages, q, at), CutOf(db, effect, q))
        + (if effect.Added? && effect.m.queue == q && effect.m.expires > at then [Deliver(effect.m)] else [])
  {
    var effect := EffectOf(db, e.now, e.req, answer);
    match effect
    case Nothing => SparesAll(Readable(db.messages, q, at));
    case Added(m) =>
      SparesAll(Readable(db.messages, q, at));
      ReadableSnoc(db.messages, m, q, at);
    case Removed(w) =>
      DeletionCuts(db.messages, db, w, q, at);
  }

  /** First in, first out, at least once: a drain returns, in the order they were accepted,
      exactly the messages accepted on its queue that have not been acknowledged, dropped with the
      queue or its owner, or expired at that reading of the clock. */
  lemma FifoDelivery(evs: seq<Event>, k: nat, q: Id, env: Envelope)
    requires Runs.Monotone(evs) && k < |evs|
    requires evs[k].req == Receive(q, env, Recv) && AnswerTo(EmptyRelay, evs, k).Delivered?
    ensures AnswerTo(EmptyRelay, evs, k) == Delivered(Owed(evs[..k], k, q, Seconds(evs[k].now)))
  {
    hide Serve, AcceptedOn, DroppedSince;
    var now := evs[k].now;
    if k > 0 { SecondsMonotone(evs[k - 1].now, now); }
    RowsAreOwed(evs[..k], q, Seconds(now));
    DrainAnswer(State(EmptyRelay, evs[..k]), now, q, env);
  }

  lemma DrainAnswer(r: Relay, now: Nanos, q: Id, env: Envelope)
    requires Serve(r, now, Receive(q, env, Recv)).1.Delivered?
    ensures Serve(r, now, Receive(q, env, Recv)).1 == Delivered(Readable(r.db.messages, q, Seconds(now)))
  {
    hide Authenticate, Execute, Selected, Remaining;
    var req := Receive(q, env, Recv);
    DrainEffect(r.db, now, req, Lookup(r.db, req), q);
    DrainReads(r.db.messages, r.db.queues, r.db.devices, q, Seconds(now));
  }

  // ---- what that means for a reader

  /** Request i is an accepted send of this message, and the message has not been dropped since. */
  ghost predicate OwedFor(evs: seq<Event>, i: nat, q: Id, d: Delivery)
    requires i < |evs|
  {
    AcceptedOn(evs, i, q) && MessageOf(evs[i], q) == d && !DroppedSince(evs, i + 1, q, d.id)
  }

  lemma OwedStep(evs: seq<Event>, n: nat, q: Id, at: Stamp, d: Delivery)
    requires 0 < n <= |evs|
    ensures d in Owed(evs, n, q, at) <==> d in Owed(evs, n - 1, q, at) || (OwedFor(evs, n - 1, q, d) && d.expires > at)
  {
    hide AcceptedOn, DroppedSince, MessageOf;
  }

  /** Every owed delivery was accepted, lives, and has not been dropped since; and conversely. */
  lemma {:induction false} OwedIff(evs: seq<Event>, n: nat, q: Id, at: Stamp, d: Delivery)
    requires n <= |evs|
    ensures d in Owed(evs, n, q, at) <==>
      exists i :: 0 <= i < n && OwedFor(evs, i, q, d) && d.expires > at
    decreases n
  {
    hide AcceptedOn, DroppedSince, MessageOf, OwedFor;
    if n > 0 {
      OwedIff(evs, n - 1, q, at, d);
      OwedStep(evs, n, q, at, d);
    }
  }

  lemma DroppedThen(evs: seq<Event>, i: nat, j: nat, q: Id, id: Id)
    requires i <= j < |evs| && Drops(evs, j, q, id)
    ensures DroppedSince(evs, i, q, id)
  {
  }

  /** An acknowledged id returns only if a later send was given the same id: with fresh ids, never. */
  lemma AckedNeverReturns(evs: seq<Event>, j: nat, k: nat, q: Id, env: Envelope, d: Delivery)
    requires Runs.Monotone(evs) && j < k < |evs|
    requires Drops(evs, j, q, d.id)
    requires evs[k].req == Receive(q, env, Recv) && AnswerTo(EmptyRelay, evs, k).Delivered?
    requires d in AnswerTo(EmptyRelay, evs, k).deliveries
    ensures exists i :: j < i < k && AcceptedOn(evs, i, q) && evs[i].req.newId == d.id
  {
    hide Serve, DroppedSince;
    FifoDelivery(evs, k, q, env);
    var past := evs[..k];
    OwedIff(past, k, q, Seconds(evs[k].now), d);
    var i :| 0 <= i < k && OwedFor(past, i, q, d);
    CutPast(evs, k, i, q);
    CutPast(evs, k, j, q);
    if i < j { DroppedThen(past, i + 1, j, q, d.id); }
    assert past[i].req.Send? && !past[j].req.Send?;
    assert AcceptedOn(evs, i, q) && evs[i].req.newId == d.id;
  }

  lemma CutPast(evs: seq<Event>, k: nat, i: nat, q: Id)
    requires i < k <= |evs|
    ensures AcceptedOn(evs[..k], i, q) == AcceptedOn(evs, i, q)
    ensures forall id :: Drops(evs[..k], i, q, id) == Drops(evs, i, q, id)
  {
    hide Serve;
    assert evs[..k][..i] == evs[..i];
  }

  lemma NotDroppedOnward(evs: seq<Event>, j: nat, k: nat, i: nat, q: Id, id: Id)
    requires i <= j <= k <= |evs|
    requires !DroppedSince(evs[..j], i, q, id)
    requires forall l :: j <= l < k ==> !Drops(evs, l, q, id)
    ensures !DroppedSince(evs[..k], i, q, id)
  {
    hide Drops;
    forall l | i <= l < k ensures !Drops(evs[..k], l, q, id) {
      CutPast(evs, k, l, q);
      if l < j {
        CutPast(evs, j, l, q);
        assert !Drops(evs[..j], l, q, id);
      }
    }
  }

  lemma StaysOwed(evs: seq<Event>, j: nat, k: nat, q: Id, at: Stamp, later: Stamp, d: Delivery)
    requires j <= k <= |evs| && d in Owed(evs[..j], j, q, at)
    requires d.expires > later
    requires forall l :: j <= l < k ==> !Drops(evs, l, q, d.id)
    ensures d in Owed(evs[..k], k, q, later)
  {
    hide Serve, Drops, OwedFor, Owed;
    OwedIff(evs[..j], j, q, at, d);
    OwedIff(evs[..k], k, q, later, d);
    var i :| 0 <= i < j && OwedFor(evs[..j], i, q, d);
    StillOwedFor(evs, j, k, i, q, d);
  }

  lemma StillOwedFor(evs: seq<Event>, j: nat, k: nat, i: nat, q: Id, d: Delivery)
    requires i < j <= k <= |evs| && OwedFor(evs[..j], i, q, d)
    requires forall l :: j <= l < k ==> !Drops(evs, l, q, d.id)
    ensures OwedFor(evs[..k], i, q, d)
  {
    hide Serve, Drops, DroppedSince, MessageOf, AcceptedOn;
    CutPast(evs, j, i, q);
    CutPast(evs, k, i, q);
    NotDroppedOnward(evs, j, k, i + 1, q, d.id);
    assert evs[..k][i] == evs[..j][i];
  }

  /** What one drain returned, a later one returns again, unless it was dropped or expired in between. */
  lemma Redelivered(evs: seq<Event>, j: nat, k: nat, q: Id, env: Envelope, env': Envelope, d: Delivery)
    requires Runs.Monotone(evs) && j < k < |evs|
    requires evs[j].req == Receive(q, env, Recv) && AnswerTo(EmptyRelay, evs, j).Delivered?
    requires evs[k].req == Receive(q, env', Recv) && AnswerTo(EmptyRelay, evs, k).Delivered?
    requires d in AnswerTo(EmptyRelay, evs, j).deliveries
    requires d.expires > Seconds(evs[k].now)
    requires forall i :: j <= i < k ==> !Drops(evs, i, q, d.id)
    ensures d in AnswerTo(EmptyRelay, evs, k).deliveries
  {
    hide Serve, Drops, Owed;
    FifoDelivery(evs, j, q, env);
    FifoDelivery(evs, k, q, env');
    StaysOwed(evs, j, k, q, Seconds(evs[j].now), Seconds(evs[k].now), d);
  }
}
