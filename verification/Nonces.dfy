/**
  The replay cache: nonces remembered until the signed timestamp leaves the accepted window,
  pruned as the clock moves on.  Proved against the list of everything ever accepted.
  */
module Nonces {
  import opened Results
  import opened Tables

  type Seen = map<string, Nanos>

  function Prune(seen: Seen, now: Nanos): Seen {
    map k | k in seen && seen[k] >= now :: seen[k]
  }

  function Admit(seen: Seen, now: Nanos, key: string, expiry: Nanos): (Seen, bool) {
    var kept := Prune(seen, now);
    if key in kept && kept[key] > now then (kept, false) else (kept[key := expiry], true)
  }

  class NonceCache {
    var seen: Seen

    constructor ()
      ensures seen == map[]
    {
      seen := map[];
    }

    method CheckAndAdd(now: Nanos, key: string, expiry: Nanos) returns (accepted: bool)
      modifies this
      ensures (seen, accepted) == Admit(old(seen), now, key, expiry)
    {
      var keys := seen.Keys;
      while keys != {}
        invariant keys <= old(seen).Keys
        invariant seen == map k | k in old(seen) && (k in keys || old(seen)[k] >= now) :: old(seen)[k]
        decreases keys
      {
        var k :| k in keys;
        keys := keys - {k};
        if seen[k] < now {
          seen := seen - {k};
        }
      }
      assert seen == Prune(old(seen), now);
      if key in seen && seen[key] > now {
        return false;
      }
      seen := seen[key := expiry];
      return true;
    }
  }

  // ---- runs of the cache

  /** A call of the cache. */
  datatype Attempt = Attempt(now: Nanos, key: string, expiry: Nanos)

  function Asked(seen: Seen, call: Option<Attempt>): Seen {
    match call
    case None => seen
    case Some(c) => Admit(seen, c.now, c.key, c.expiry).0
  }

  /** The cache after a run from an empty one; at some moments of a run nothing is asked of it. */
  function Replayed(calls: seq<Option<Attempt>>): Seen {
    if calls == [] then map[] else Asked(Replayed(calls[..|calls| - 1]), calls[|calls| - 1])
  }

  /** The i-th moment asks the cache, and is told that the key is new. */
  predicate Answer(calls: seq<Option<Attempt>>, i: nat)
    requires i < |calls|
  {
    && calls[i].Some?
    && (var c := calls[i].value; Admit(Replayed(calls[..i]), c.now, c.key, c.expiry).1)
  }

  /** The a-th call's entry is there just before moment n: no accepted call has replaced it, and no
      call has come with a clock reading past its expiry. */
  ghost predicate Stands(calls: seq<Option<Attempt>>, a: nat, n: nat)
    requires a < |calls| && n <= |calls|
  {
    && Answer(calls, a)
    && forall k :: a < k < n && calls[k].Some? ==>
         && calls[k].value.now <= calls[a].value.expiry
         && (Answer(calls, k) ==> calls[k].value.key != calls[a].value.key)
  }

  ghost predicate EntryFor(calls: seq<Option<Attempt>>, a: nat, n: nat, key: string)
    requires n <= |calls|
  {
    a < n && Stands(calls, a, n) && calls[a].value.key == key
  }

  lemma StandsOn(calls: seq<Option<Attempt>>, a: nat, n: nat)
    requires a < n < |calls| && Answer(calls, a)
    ensures Stands(calls, a, n + 1) <==>
      && Stands(calls, a, n)
      && (calls[n].Some? ==> calls[n].value.now <= calls[a].value.expiry)
      && (Answer(calls, n) ==> calls[n].value.key != calls[a].value.key)
  {
    hide Admit, Replayed;
  }

  /** What the map holds of a run, whatever the order of the readings. */
  lemma {:induction false} EntriesStand(calls: seq<Option<Attempt>>, n: nat, key: string)
    requires n <= |calls|
    ensures key in Replayed(calls[..n]) <==> exists a: nat :: EntryFor(calls, a, n, key)
    ensures forall a: nat :: EntryFor(calls, a, n, key) ==>
      key in Replayed(calls[..n]) && Replayed(calls[..n])[key] == calls[a].value.expiry
  {
    if n > 0 {
      var m := n - 1;
      var before, after := Replayed(calls[..m]), Replayed(calls[..n]);
      EntriesStand(calls, m, key);
      assert calls[..n][..m] == calls[..m] && after == Asked(before, calls[m]);
      hide Replayed, Stands;
      forall a: nat | EntryFor(calls, a, n, key) ensures key in after && after[key] == calls[a].value.expiry {
        if a < m {
          StandsOn(calls, a, m);
          assert EntryFor(calls, a, m, key);
        }
      }
      if key in after {
        if Answer(calls, m) && calls[m].value.key == key {
          StandsNow(calls, m);
          assert EntryFor(calls, m, n, key);
        } else {
          var a: nat :| EntryFor(calls, a, m, key);
          StandsOn(calls, a, m);
          assert EntryFor(calls, a, n, key);
        }
      }
    }
  }

  lemma StandsNow(calls: seq<Option<Attempt>>, a: nat)
    requires a < |calls| && Answer(calls, a)
    ensures Stands(calls, a, a + 1)
  {
  }

  /** The a-th call makes the cache refuse the b-th. */
  ghost predicate Refuses(calls: seq<Option<Attempt>>, a: nat, b: nat)
    requires b < |calls| && calls[b].Some?
  {
    EntryFor(calls, a, b, calls[b].value.key) && calls[a].value.expiry > calls[b].value.now
  }

  /** The cache accepts a key exactly if no entry that still stands outlasts the call's reading. */
  lemma AnswerIff(calls: seq<Option<Attempt>>, b: nat)
    requires b < |calls| && calls[b].Some?
    ensures Answer(calls, b) <==> !exists a: nat :: Refuses(calls, a, b)
  {
    var c := calls[b].value;
    EntriesStand(calls, b, c.key);
    hide Replayed, Stands;
    if a: nat :| EntryFor(calls, a, b, c.key) && !Answer(calls, b) { assert Refuses(calls, a, b); }
  }

  /** No call of this key is accepted strictly between two moments. */
  ghost predicate NoneBetween(calls: seq<Option<Attempt>>, a: nat, b: nat, key: string)
    requires b <= |calls|
  {
    forall k :: a < k < b && Answer(calls, k) ==> calls[k].value.key != key
  }

  /** Some call strictly between two moments has a clock reading past this time. */
  predicate PassedBetween(calls: seq<Option<Attempt>>, a: nat, b: nat, expiry: Nanos)
    requires b <= |calls|
  {
    exists k :: a < k < b && calls[k].Some? && calls[k].value.now > expiry
  }

  /** Asked about a key for the first time since it was accepted, the cache accepts it again exactly
      if its entry is at its expiry, or some call in between has pruned it. */
  lemma AcceptsAgainIff(calls: seq<Option<Attempt>>, a: nat, b: nat)
    requires a < b < |calls| && Answer(calls, a) && calls[b].Some? && calls[b].value.key == calls[a].value.key
    requires NoneBetween(calls, a, b, calls[b].value.key)
    ensures var expiry := calls[a].value.expiry;
      Answer(calls, b) <==> expiry <= calls[b].value.now || PassedBetween(calls, a, b, expiry)
  {
    AnswerIff(calls, b);
    hide Admit, Replayed;
    if c: nat :| Refuses(calls, c, b) { assert c <= a; }
    if Stands(calls, a, b) && calls[a].value.expiry > calls[b].value.now { assert Refuses(calls, a, b); }
  }

  /** A key is never accepted again before some call comes with a reading at its expiry or later. */
  lemma {:induction false} AcceptedAgainNeedsExpiry(calls: seq<Option<Attempt>>, a: nat, b: nat)
    requires a < b < |calls| && Answer(calls, a) && Answer(calls, b) && calls[b].value.key == calls[a].value.key
    ensures exists k :: a < k <= b && calls[k].Some? && calls[k].value.now >= calls[a].value.expiry
    decreases b
  {
    if NoneBetween(calls, a, b, calls[b].value.key) {
      AcceptsAgainIff(calls, a, b);
    } else {
      var k :| a < k < b && Answer(calls, k) && calls[k].value.key == calls[b].value.key;
      AcceptedAgainNeedsExpiry(calls, a, k);
    }
  }

  // ---- calls in the order of their readings

  /** The calls come in the order of their clock readings.  The reading is taken before the cache is
      locked, so calls that race need not. */
  ghost predicate Monotone(calls: seq<Option<Attempt>>) {
    forall i, j :: 0 <= i < j < |calls| && calls[i].Some? && calls[j].Some? ==> calls[i].value.now <= calls[j].value.now
  }

  /** Reference: some earlier accepted call with this key has not expired yet. */
  ghost predicate Remembered(calls: seq<Option<Attempt>>, n: nat, key: string, now: Nanos)
    requires n <= |calls|
  {
    exists j :: 0 <= j < n && Answer(calls, j) && calls[j].value.key == key && calls[j].value.expiry > now
  }

  /** The pruned cache answers every call as the full history of accepted keys would. */
  lemma AnswersAsFullHistory(calls: seq<Option<Attempt>>, i: nat)
    requires Monotone(calls) && i < |calls| && calls[i].Some?
    ensures Answer(calls, i) <==> !Remembered(calls, i, calls[i].value.key, calls[i].value.now)
  {
    AnswerIff(calls, i);
    hide Admit, Replayed;
    var c := calls[i].value;
    if j :| 0 <= j < i && Answer(calls, j) && calls[j].value.key == c.key && calls[j].value.expiry > c.now
            && Answer(calls, i)
    {
      AcceptedAgainNeedsExpiry(calls, j, i);
    }
  }

  // ---- the signed window and the cache together

  const SKEW: Nanos := 300 * SECOND

  function NonceKey(principal: Id, nonce: string): string {
    principal + ['\0'] + nonce
  }

  /** Ids are a prefix and hex digits, so keys of different principals never meet. */
  lemma NonceKeyInjective(p: Id, q: Id, n: string, m: string)
    requires '\0' !in p && '\0' !in q
    requires NonceKey(p, n) == NonceKey(q, m)
    ensures p == q && n == m
  {
    var k := NonceKey(p, n);
    assert k[|p|] == '\0' && k[|q|] == '\0';
    assert forall i :: 0 <= i < |p| ==> k[i] == p[i] && k[i] != '\0';
    assert forall i :: 0 <= i < |q| ==> k[i] == q[i] && k[i] != '\0';
    assert p == k[..|p|] && q == k[..|q|];
    assert n == k[|p| + 1..] && m == k[|q| + 1..];
  }

  predicate InWindow(now: Nanos, stamp: Nanos) {
    -SKEW <= now - stamp <= SKEW
  }

  /** A signed request as the replay defence sees it: its envelope, when the window was checked,
      and when the cache was asked. */
  datatype Showing = Showing(principal: Id, nonce: string, stamp: Nanos, windowAt: Nanos, cacheAt: Nanos)

  /** The cache call a showing makes: one outside the window never reaches the cache. */
  function CallOf(show: Option<Showing>): Option<Attempt> {
    match show
    case None => None
    case Some(s) =>
      if InWindow(s.windowAt, s.stamp)
      then Some(Attempt(s.cacheAt, NonceKey(s.principal, s.nonce), s.stamp + SKEW))
      else None
  }

  /** The cache calls of a run, in which not every moment shows a signed request. */
  function Calls(shows: seq<Option<Showing>>): (calls: seq<Option<Attempt>>)
    ensures |calls| == |shows|
  {
    seq(|shows|, i requires 0 <= i < |shows| => CallOf(shows[i]))
  }

  lemma CallsUpTo(shows: seq<Option<Showing>>, i: nat)
    requires i <= |shows|
    ensures Calls(shows)[..i] == Calls(shows[..i])
  {
  }

  /** The i-th moment shows a request that passes window and cache. */
  predicate Accepted(shows: seq<Option<Showing>>, i: nat)
    requires i < |shows|
  {
    Answer(Calls(shows), i)
  }

  predicate SameNonce(s: Showing, t: Showing) {
    NonceKey(s.principal, s.nonce) == NonceKey(t.principal, t.nonce)
  }

  predicate SameEnvelope(s: Showing, t: Showing) {
    s.principal == t.principal && s.nonce == t.nonce && s.stamp == t.stamp
  }

  /** The accepted showing i is what the j-th is refused for: same nonce, not expired yet, and in
      between neither accepted once more nor pruned by a later reading. */
  ghost predicate Recalls(shows: seq<Option<Showing>>, i: nat, j: nat)
    requires j < |shows| && shows[j].Some?
  {
    && i < j && Accepted(shows, i) && SameNonce(shows[i].value, shows[j].value)
    && shows[i].value.stamp + SKEW > shows[j].value.cacheAt
    && forall k :: i < k < j && CallOf(shows[k]).Some? ==>
         && shows[k].value.cacheAt <= shows[i].value.stamp + SKEW
         && (Accepted(shows, k) ==> !SameNonce(shows[k].value, shows[j].value))
  }

  lemma RecallsIsRefuses(shows: seq<Option<Showing>>, i: nat, j: nat)
    requires j < |shows| && CallOf(shows[j]).Some?
    ensures Recalls(shows, i, j) <==> Refuses(Calls(shows), i, j)
  {
    hide Admit, Replayed, NonceKey, InWindow;
    var calls := Calls(shows);
    if Recalls(shows, i, j) {
      forall k | i < k < j && calls[k].Some?
        ensures calls[k].value.now <= calls[i].value.expiry
        ensures Answer(calls, k) ==> calls[k].value.key != calls[i].value.key
      {
        assert CallOf(shows[k]).Some?;
      }
    }
    if Refuses(calls, i, j) {
      forall k | i < k < j && CallOf(shows[k]).Some?
        ensures shows[k].value.cacheAt <= shows[i].value.stamp + SKEW
        ensures Accepted(shows, k) ==> !SameNonce(shows[k].value, shows[j].value)
      {
        assert calls[k].Some?;
      }
    }
  }

  /** A showing is accepted exactly if its timestamp is within the window and no accepted showing
      of its nonce is recalled.  The cache's readings may come in any order. */
  lemma AcceptedIff(shows: seq<Option<Showing>>, j: nat)
    requires j < |shows| && shows[j].Some?
    ensures var s := shows[j].value;
      Accepted(shows, j) <==> InWindow(s.windowAt, s.stamp) && !exists i: nat :: Recalls(shows, i, j)
  {
    hide Answer, Recalls, Refuses;
    if CallOf(shows[j]).Some? {
      AnswerIff(Calls(shows), j);
      forall i: nat ensures Recalls(shows, i, j) <==> Refuses(Calls(shows), i, j) { RecallsIsRefuses(shows, i, j); }
    } else {
      NotAsked(shows, j);
    }
  }

  lemma NotAsked(shows: seq<Option<Showing>>, j: nat)
    requires j < |shows| && CallOf(shows[j]).None?
    ensures !Accepted(shows, j)
  {
  }

  /** No showing of this nonce is accepted strictly between two moments. */
  ghost predicate UnusedBetween(shows: seq<Option<Showing>>, i: nat, j: nat, s: Showing)
    requires j <= |shows|
  {
    forall k :: i < k < j && Accepted(shows, k) ==> !SameNonce(shows[k].value, s)
  }

  /** Between two moments the cache is asked at a reading past this time. */
  predicate AskedPast(shows: seq<Option<Showing>>, i: nat, j: nat, time: Nanos)
    requires j <= |shows|
  {
    exists k :: i < k < j && CallOf(shows[k]).Some? && shows[k].value.cacheAt > time
  }

  /** One signed request, once accepted and shown again with its nonce unused in between, is accepted
      again exactly if the window is checked in time and the nonce is by then forgotten: the cache is
      asked at timestamp plus skew or later, or was asked past it in between.  Used or not, some
      reading of the cache has reached timestamp plus skew. */
  lemma NoReplay(shows: seq<Option<Showing>>, i: nat, j: nat)
    requires i < j < |shows| && shows[j].Some?
    requires Accepted(shows, i) && SameEnvelope(shows[i].value, shows[j].value)
    ensures var s := shows[j].value;
      && (UnusedBetween(shows, i, j, s) ==>
            (Accepted(shows, j) <==>
               && InWindow(s.windowAt, s.stamp)
               && (s.stamp + SKEW <= s.cacheAt || AskedPast(shows, i, j, s.stamp + SKEW))))
      && (Accepted(shows, j) ==>
            && InWindow(s.windowAt, s.stamp)
            && (s.stamp + SKEW <= s.cacheAt
                || exists k :: i < k < j && CallOf(shows[k]).Some? && s.stamp + SKEW <= shows[k].value.cacheAt))
  {
    hide Admit, Replayed, NonceKey;
    if CallOf(shows[j]).Some? {
      var calls := Calls(shows);
      if UnusedBetween(shows, i, j, shows[j].value) { AcceptsAgainIff(calls, i, j); }
      if Accepted(shows, j) { AcceptedAgainNeedsExpiry(calls, i, j); }
    } else {
      NotAsked(shows, j);
    }
  }

  /** With the cache asked in the order of its readings, a later one in between does not come. */
  lemma NoReplayInOrder(shows: seq<Option<Showing>>, i: nat, j: nat)
    requires Monotone(Calls(shows)) && i < j < |shows| && shows[j].Some?
    requires Accepted(shows, i) && SameEnvelope(shows[i].value, shows[j].value)
    ensures var s := shows[j].value;
      && (Accepted(shows, j) ==> InWindow(s.windowAt, s.stamp) && s.stamp + SKEW <= s.cacheAt)
      && (UnusedBetween(shows, i, j, s) ==>
            (Accepted(shows, j) <==> InWindow(s.windowAt, s.stamp) && s.stamp + SKEW <= s.cacheAt))
  {
    hide Accepted, NonceKey, UnusedBetween;
    NoReplay(shows, i, j);
    if CallOf(shows[j]).Some? {
      forall k | i < k < j && CallOf(shows[k]).Some? ensures shows[k].value.cacheAt <= shows[j].value.cacheAt {
        assert Calls(shows)[k].Some? && Calls(shows)[j].Some?;
      }
    }
  }

  // ---- what each part of the defence is for

  /** The expiry is no longer than needed: remembered until any earlier time, a nonce would be
      accepted again at that time, with the timestamp still in its window. */
  lemma EarlierExpiryReplays(key: string, stamp: Nanos, first: Nanos, expiry: Nanos)
    requires InWindow(first, stamp) && first <= expiry < stamp + SKEW
    ensures InWindow(expiry, stamp)
    ensures
      var calls := [Some(Attempt(first, key, expiry)), Some(Attempt(expiry, key, expiry))];
      Monotone(calls) && Answer(calls, 0) && Answer(calls, 1)
  {
    AskedAgain(key, first, expiry, expiry);
  }

  /** And the window is needed: asked about the same nonce at any time from its expiry on, the
      cache alone accepts it again; past that instant only the window refuses it. */
  lemma WindowIsNeeded(key: string, stamp: Nanos, first: Nanos, later: Nanos)
    requires InWindow(first, stamp) && stamp + SKEW <= later
    ensures
      var calls := [Some(Attempt(first, key, stamp + SKEW)), Some(Attempt(later, key, stamp + SKEW))];
      Monotone(calls) && Answer(calls, 0) && Answer(calls, 1)
    ensures InWindow(later, stamp) <==> later == stamp + SKEW
  {
    AskedAgain(key, first, stamp + SKEW, later);
  }

  lemma AskedAgain(key: string, first: Nanos, expiry: Nanos, later: Nanos)
    requires first <= later && expiry <= later
    ensures
      var calls := [Some(Attempt(first, key, expiry)), Some(Attempt(later, key, expiry))];
      Monotone(calls) && Answer(calls, 0) && Answer(calls, 1)
  {
    var calls := [Some(Attempt(first, key, expiry)), Some(Attempt(later, key, expiry))];
    FirstAccepted(calls);
    hide Admit, Replayed;
    AcceptsAgainIff(calls, 0, 1);
  }

  lemma FirstAccepted(calls: seq<Option<Attempt>>)
    requires calls != [] && calls[0].Some?
    ensures Answer(calls, 0)
  {
  }

  /** Both comparisons being strict, the nonce is no longer refused at the very instant it expires,
      when the window still admits the timestamp. */
  lemma ReplayAtExpiry(principal: Id, nonce: string, stamp: Nanos, first: Nanos)
    requires InWindow(first, stamp)
    ensures
      var shows := [Some(Showing(principal, nonce, stamp, first, first)),
                    Some(Showing(principal, nonce, stamp, stamp + SKEW, stamp + SKEW))];
      Monotone(Calls(shows)) && Accepted(shows, 0) && Accepted(shows, 1)
  {
    SplitReadingsReplay(principal, nonce, stamp, first, stamp + SKEW, stamp + SKEW);
  }

  /** And with two readings the instant is an interval: a replay is accepted whose window is checked
      in time and whose call reads the clock at the expiry or any later. */
  lemma SplitReadingsReplay(principal: Id, nonce: string, stamp: Nanos, first: Nanos, windowAt: Nanos, cacheAt: Nanos)
    requires InWindow(first, stamp) && InWindow(windowAt, stamp) && stamp + SKEW <= cacheAt
    ensures
      var shows := [Some(Showing(principal, nonce, stamp, first, first)),
                    Some(Showing(principal, nonce, stamp, windowAt, cacheAt))];
      Monotone(Calls(shows)) && Accepted(shows, 0) && Accepted(shows, 1)
  {
    var shows := [Some(Showing(principal, nonce, stamp, first, first)),
                  Some(Showing(principal, nonce, stamp, windowAt, cacheAt))];
    FirstAccepted(Calls(shows));
    hide Accepted, NonceKey;
    NoReplay(shows, 0, 1);
  }

  /** Nor need either reading reach the expiry: a call of any other nonce that read the clock past it
      and took the lock first has pruned the entry, and the replay passes with both readings
      before it. */
  lemma OvertakenReplay(mine: Showing, other: Showing, at: Nanos)
    requires InWindow(mine.windowAt, mine.stamp) && InWindow(other.windowAt, other.stamp)
    requires !SameNonce(mine, other) && other.cacheAt > mine.stamp + SKEW
    requires InWindow(at, mine.stamp) && at < mine.stamp + SKEW
    ensures
      var shows := [Some(mine), Some(other), Some(mine.(windowAt := at, cacheAt := at))];
      Accepted(shows, 0) && Accepted(shows, 1) && Accepted(shows, 2)
  {
    var shows := [Some(mine), Some(other), Some(mine.(windowAt := at, cacheAt := at))];
    FirstAccepted(Calls(shows));
    AcceptedIff(shows, 1);
    assert !Recalls(shows, 0, 1);
    hide Accepted, NonceKey;
    assert CallOf(shows[1]).Some? && AskedPast(shows, 0, 2, mine.stamp + SKEW);
    NoReplay(shows, 0, 2);
  }
}
