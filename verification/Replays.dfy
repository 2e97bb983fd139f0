/** The replay defence in runs of the relay: a signed request is acted on once, and again exactly if
    its nonce is forgotten by then while its timestamp was still in the window when that was checked. */
module Replays {
  import opened Results
  import opened Tables
  import opened StoreSpec
  import opened Nonces
  import opened Handlers
  import opened Runs

  // ---- one authorisation

  /** What a signed request shows the replay defence, once the row it names was found usable. */
  datatype Claim = Claim(principal: Id, env: Envelope, key: Key)

  function ClaimOf(req: Request, snap: Snapshot): Option<Claim> {
    match req
    case Manage(id, env, _) =>
      if snap.DeviceRow? && !snap.device.revoked then Some(Claim(id, env, snap.device.publicKey)) else None
    case Send(sender, env, header, _, _) =>
      if snap.QueueRow? && !snap.queue.retired && ResolveSenderKey(snap.queue, header).Some?
      then Some(Claim(sender, env, ResolveSenderKey(snap.queue, header).value.0))
      else None
    case Receive(rid, env, _) =>
      if snap.QueueRow? && !snap.queue.retired then Some(Claim(rid, env, snap.queue.recipientKey)) else None
    case _ => None
  }

  predicate IsSigned(req: Request) {
    req.Manage? || req.Send? || req.Receive?
  }

  /** The request passes window, signature and nonce. */
  predicate Passes(seen: Seen, now: Nanos, req: Request, snap: Snapshot) {
    var c := ClaimOf(req, snap);
    c.Some? && Authenticate(seen, now, c.value.env, c.value.principal, c.value.key).1
  }

  /** A claim whose signature verifies, as a showing. */
  function Shown(now: Nanos, req: Request, snap: Snapshot): Option<Showing> {
    match ClaimOf(req, snap)
    case None => None
    case Some(c) =>
      if c.env.stamp.Some? && c.key in c.env.signers
      then Some(Showing(c.principal, c.env.nonce, c.env.stamp.value, c.env.checkedAt, now))
      else None
  }

  /** A signed request that does not pass is refused. */
  lemma OnlyPassingProceeds(db: Db, seen: Seen, now: Nanos, req: Request, snap: Snapshot)
    requires IsSigned(req) && !Passes(seen, now, req, snap)
    ensures Authorise(db, seen, now, req, snap).1.Refuse?
  {
    hide Authenticate, ResolveSenderKey, DeviceVerdict, QueueVerdict, SendOps;
  }

  /** Only claims change the cache, and as Authenticate says. */
  lemma SeenAfterAuthorising(db: Db, seen: Seen, now: Nanos, req: Request, snap: Snapshot)
    ensures Authorise(db, seen, now, req, snap).0 == match ClaimOf(req, snap)
      case None => seen
      case Some(c) => Authenticate(seen, now, c.env, c.principal, c.key).0
  {
    hide Authenticate, ResolveSenderKey, DeviceVerdict, QueueVerdict, SendOps, OperatorVerdict;
  }

  /** An authorisation asks the cache its showing's call, and passes if that is admitted. */
  lemma AuthoriseAsksCache(db: Db, seen: Seen, now: Nanos, req: Request, snap: Snapshot)
    ensures
      var after := Authorise(db, seen, now, req, snap).0;
      match CallOf(Shown(now, req, snap))
      case None => after == seen && !Passes(seen, now, req, snap)
      case Some(call) => (after, Passes(seen, now, req, snap)) == Admit(seen, call.now, call.key, call.expiry)
  {
    SeenAfterAuthorising(db, seen, now, req, snap);
    hide Authorise, ClaimOf, Admit, NonceKey;
  }

  /** The cache after one more moment of a run. */
  lemma ReplayedSnoc(shows: seq<Option<Showing>>, show: Option<Showing>)
    ensures Replayed(Calls(shows + [show])) == Asked(Replayed(Calls(shows)), CallOf(show))
  {
    hide Asked, CallOf;
    var calls := Calls(shows + [show]);
    CallsUpTo(shows + [show], |shows|);
    assert (shows + [show])[..|shows|] == shows;
    assert calls[|shows|] == CallOf((shows + [show])[|shows|]);
  }

  /** The last moment of a run is accepted if the cache its showings made admits its call. */
  lemma LastAccepted(shows: seq<Option<Showing>>, show: Option<Showing>)
    ensures Accepted(shows + [show], |shows|) <==>
      && CallOf(show).Some?
      && (var c := CallOf(show).value; Admit(Replayed(Calls(shows)), c.now, c.key, c.expiry).1)
  {
    hide CallOf, Admit;
    CallsUpTo(shows + [show], |shows|);
    assert (shows + [show])[..|shows|] == shows;
    assert Calls(shows + [show])[|shows|] == CallOf((shows + [show])[|shows|]);
  }

  /** Later moments do not matter. */
  lemma AcceptedEarlier(shows: seq<Option<Showing>>, n: nat, i: nat)
    requires i < n <= |shows|
    ensures Accepted(shows[..n], i) == Accepted(shows, i)
  {
    hide Admit;
    CallsUpTo(shows, n);
    assert Calls(shows)[..n][..i] == Calls(shows)[..i];
  }

  lemma ShownNow(now: Nanos, req: Request, snap: Snapshot)
    ensures Shown(now, req, snap).Some? ==> Shown(now, req, snap).value.cacheAt == now
  {
    hide ClaimOf;
  }

  // ---- runs of atomic requests

  predicate Authentic(r: Relay, now: Nanos, req: Request) {
    Passes(r.seen, now, req, Lookup(r.db, req))
  }

  /** What the i-th request of a run shows. */
  function ShownAt(evs: seq<Event>, i: nat): Option<Showing>
    requires i < |evs|
  {
    Shown(evs[i].now, evs[i].req, Lookup(State(EmptyRelay, evs[..i]).db, evs[i].req))
  }

  predicate AuthenticAt(evs: seq<Event>, i: nat)
    requires i < |evs|
  {
    Authentic(State(EmptyRelay, evs[..i]), evs[i].now, evs[i].req)
  }

  /** A signed request that is not authentic is refused, and nothing happens. */
  lemma OnlyAuthenticActs(r: Relay, now: Nanos, req: Request)
    requires IsSigned(req) && !Authentic(r, now, req)
    ensures VerdictOn(r, now, req).Refuse?
    ensures Serve(r, now, req).0.db == r.db
  {
    OnlyPassingProceeds(r.db, r.seen, now, req, Lookup(r.db, req));
    hide Authorise, Execute, Passes, Lookup;
  }

  lemma ServedSeen(r: Relay, now: Nanos, req: Request)
    ensures Serve(r, now, req).0.seen == Authorise(r.db, r.seen, now, req, Lookup(r.db, req)).0
  {
    hide Authorise, Execute, Lookup;
  }

  function Shows(evs: seq<Event>): (shows: seq<Option<Showing>>)
    ensures |shows| == |evs|
  {
    seq(|evs|, i requires 0 <= i < |evs| => ShownAt(evs, i))
  }

  lemma ShowsUpTo(evs: seq<Event>, n: nat)
    requires n <= |evs|
    ensures Shows(evs)[..n] == Shows(evs[..n])
  {
    hide Serve, Shown;
    forall i | 0 <= i < n ensures ShownAt(evs[..n], i) == ShownAt(evs, i) {
      assert evs[..n][..i] == evs[..i];
    }
  }

  lemma ShowsSnoc(evs: seq<Event>)
    requires evs != []
    ensures Shows(evs) == Shows(evs[..|evs| - 1]) + [ShownAt(evs, |evs| - 1)]
  {
    hide ShownAt;
    ShowsUpTo(evs, |evs| - 1);
  }

  /** The cache of a run is the one its verified showings make. */
  lemma {:induction false} SeenIsReplayed(evs: seq<Event>)
    ensures State(EmptyRelay, evs).seen == Replayed(Calls(Shows(evs)))
  {
    hide Serve, Admit, Shown, Passes, CallOf, Shows;
    if evs != [] {
      var init, e := evs[..|evs| - 1], evs[|evs| - 1];
      var r := State(EmptyRelay, init);
      SeenIsReplayed(init);
      ServedSeen(r, e.now, e.req);
      AuthoriseAsksCache(r.db, r.seen, e.now, e.req, Lookup(r.db, e.req));
      ShowsSnoc(evs);
      ReplayedSnoc(Shows(init), ShownAt(evs, |evs| - 1));
    }
  }

  /** Passing the replay defence is being accepted among the showings of the run. */
  lemma AuthenticIsAccepted(evs: seq<Event>, i: nat)
    requires i < |evs|
    ensures AuthenticAt(evs, i) <==> Accepted(Shows(evs), i)
  {
    hide Serve, Admit, Shown, Passes, CallOf, Lookup, Shows, Accepted;
    var upTo, r := evs[..i + 1], State(EmptyRelay, evs[..i]);
    assert upTo[..i] == evs[..i] && upTo[i] == evs[i];
    ShowsUpTo(evs, i + 1);
    ShowsSnoc(upTo);
    SeenIsReplayed(evs[..i]);
    AcceptedEarlier(Shows(evs), i + 1, i);
    LastAccepted(Shows(evs[..i]), ShownAt(upTo, i));
    AuthoriseAsksCache(r.db, r.seen, evs[i].now, evs[i].req, Lookup(r.db, evs[i].req));
  }

  lemma CacheAtNow(evs: seq<Event>, i: nat)
    requires i < |evs| && Shows(evs)[i].Some?
    ensures Shows(evs)[i].value.cacheAt == evs[i].now
  {
    hide Serve, Shown, Lookup;
    ShownNow(evs[i].now, evs[i].req, Lookup(State(EmptyRelay, evs[..i]).db, evs[i].req));
  }

  /** Two requests of a run show one and the same signed envelope. */
  predicate ShownTwice(shows: seq<Option<Showing>>, i: nat, j: nat) {
    i < j < |shows| && shows[i].Some? && shows[j].Some? && SameEnvelope(shows[i].value, shows[j].value)
  }

  /** One signed request, acted on in a run and shown again with its nonce unused in between, is
      acted on again exactly if its window is checked in time and its nonce is by then forgotten:
      the request is served at timestamp plus skew or later, or the cache was asked past it in
      between.  Used or not, some reading has reached timestamp plus skew.  The clock may go
      backwards from request to request. */
  lemma ActedOnOnce(evs: seq<Event>, i: nat, j: nat)
    requires ShownTwice(Shows(evs), i, j) && AuthenticAt(evs, i)
    ensures var shows := Shows(evs);
      var s := shows[j].value;
      && (UnusedBetween(shows, i, j, s) ==>
            (AuthenticAt(evs, j) <==>
               && InWindow(s.windowAt, s.stamp)
               && (s.stamp + SKEW <= evs[j].now || AskedPast(shows, i, j, s.stamp + SKEW))))
      && (AuthenticAt(evs, j) ==>
            InWindow(s.windowAt, s.stamp) && exists k :: i < k <= j && s.stamp + SKEW <= evs[k].now)
  {
    hide Serve, Shows, AuthenticAt, Accepted, UnusedBetween, AskedPast, InWindow;
    var shows := Shows(evs);
    AuthenticIsAccepted(evs, i);
    AuthenticIsAccepted(evs, j);
    NoReplay(shows, i, j);
    CacheAtNow(evs, j);
    if AuthenticAt(evs, j) && evs[j].now < shows[j].value.stamp + SKEW {
      var k :| i < k < j && CallOf(shows[k]).Some? && shows[j].value.stamp + SKEW <= shows[k].value.cacheAt;
      CacheAtNow(evs, k);
    }
  }

  /** With a clock that does not go backwards only the request's own two readings matter; and where
      they are one, it is acted on again only at the very instant of timestamp plus skew. */
  lemma ActedOnOnceInOrder(evs: seq<Event>, i: nat, j: nat)
    requires Runs.Monotone(evs) && ShownTwice(Shows(evs), i, j) && AuthenticAt(evs, i)
    ensures var s := Shows(evs)[j].value;
      && (AuthenticAt(evs, j) ==> InWindow(s.windowAt, s.stamp) && s.stamp + SKEW <= evs[j].now)
      && (UnusedBetween(Shows(evs), i, j, s) ==>
            (AuthenticAt(evs, j) <==> InWindow(s.windowAt, s.stamp) && s.stamp + SKEW <= evs[j].now))
      && (AuthenticAt(evs, j) && s.windowAt == evs[j].now ==> evs[j].now == s.stamp + SKEW)
  {
    hide Serve, Shows, AuthenticAt, Accepted, UnusedBetween;
    AuthenticIsAccepted(evs, i);
    AuthenticIsAccepted(evs, j);
    CallsInOrder(evs);
    NoReplayInOrder(Shows(evs), i, j);
    CacheAtNow(evs, j);
  }

  lemma CallsInOrder(evs: seq<Event>)
    requires Runs.Monotone(evs)
    ensures Nonces.Monotone(Calls(Shows(evs)))
  {
    hide Serve, Shows;
    var shows := Shows(evs);
    forall i, j | 0 <= i < j < |shows| && Calls(shows)[i].Some? && Calls(shows)[j].Some?
      ensures Calls(shows)[i].value.now <= Calls(shows)[j].value.now
    {
      CacheAtNow(evs, i);
      CacheAtNow(evs, j);
    }
  }
}
