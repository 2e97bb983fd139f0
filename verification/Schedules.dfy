/**
  What the theorems about runs of atomic requests become under any interleaving: quota safety,
  invitation conservation and the replay defence rest on single store steps and single cache calls,
  so stale snapshots cannot break them.
  */
module Schedules {
  import opened Results
  import opened Tables
  import opened StoreSpec
  import opened Integrity
  import opened Nonces
  import opened Handlers
  import opened Admins
  import opened Quotas
  import opened InvitationLedger
  import opened Interleaving
  import Replays

  // ---- quotas

  /** The turn sets the level's ceiling. */
  predicate TurnSetsCeiling(s: Sys, turn: Turn, w: Where) {
    var op := StepOf(s, turn);
    op.Some? && Recaps(op.value, w) && !Apply(s.db, turn.now, op.value).1.Failed?
  }

  function CeilingSet(s: Sys, turn: Turn, w: Where): int
    requires TurnSetsCeiling(s, turn, w)
  {
    RecapOf(StepOf(s, turn).value, w).value
  }

  lemma FailedRecap(db: Db, now: Nanos, op: Op, w: Where)
    requires Recaps(op, w) && Apply(db, now, op).1.Failed?
    ensures After(db, now, op) == db
  {
  }

  lemma TurnRespectsCeiling(s: Sys, turn: Turn, w: Where, at: Stamp)
    requires Valid(s.db) && IsLevel(w) && HasLevel(s.db, w) && at >= Seconds(turn.now)
    requires !TurnSetsCeiling(s, turn, w)
    ensures CeilingKept(s.db, Take(s, turn).db, w, at)
  {
    hide Valid, Take, Apply, Recaps, Stored, Ceiling, HasLevel;
    TurnIsOneStep(s, turn);
    match StepOf(s, turn)
    case None =>
    case Some(op) =>
      if Recaps(op, w) {
        FailedRecap(s.db, turn.now, op, w);
      } else {
        StepKeepsCeiling(s.db, turn.now, op, w, at);
      }
  }

  /** Under any schedule in which no turn sets a level's ceiling, it stands, and if it is positive the
      bytes live at that level at any time from the latest clock reading on never exceed the larger
      of it and what was there at the start and is live then.  An append reads the clock before its
      transaction, so the turns' readings may come in any order. */
  lemma {:induction false} CeilingHoldsInterleaved(start: Sys, turns: seq<Turn>, w: Where, at: Stamp)
    requires Valid(start.db) && IsLevel(w) && HasLevel(start.db, w)
    requires forall i :: 0 <= i < |turns| ==>
      at >= Seconds(turns[i].now) && !TurnSetsCeiling(Play(start, turns[..i]), turns[i], w)
    ensures CeilingKept(start.db, Play(start, turns).db, w, at)
  {
    hide Valid, Take, TurnSetsCeiling, Stored, Ceiling, HasLevel, Ages;
    if turns != [] {
      var n := |turns| - 1;
      forall i | 0 <= i < n ensures !TurnSetsCeiling(Play(start, turns[..n][..i]), turns[..n][i], w) {
        assert turns[..n][..i] == turns[..i];
      }
      CeilingHoldsInterleaved(start, turns[..n], w, at);
      ScheduleKeepsValid(start, turns[..n]);
      TurnRespectsCeiling(Play(start, turns[..n]), turns[n], w, at);
    }
  }

  /** And under any schedule the ceiling in force is the one the last turn to set it wrote. */
  lemma SinceLastSetInterleaved(turns: seq<Turn>, k: nat, w: Where, at: Stamp)
    requires k < |turns| && IsLevel(w) && TurnSetsCeiling(Play(EmptySys, turns[..k]), turns[k], w)
    requires forall i :: k < i < |turns| ==>
      at >= Seconds(turns[i].now) && !TurnSetsCeiling(Play(EmptySys, turns[..i]), turns[i], w)
    ensures
      var written := CeilingSet(Play(EmptySys, turns[..k]), turns[k], w);
      var capped, end := Play(EmptySys, turns[..k + 1]).db, Play(EmptySys, turns).db;
      && HasLevel(end, w) && Ceiling(end, w) == written
      && (written > 0 ==> Stored(end, w, at) <= Max(written, Stored(capped, w, at)))
  {
    hide Valid, Take, Stored, Ceiling, HasLevel, Ages, CeilingSet, TurnSetsCeiling;
    var s, rest := Play(EmptySys, turns[..k]), turns[k + 1..];
    var capped := Play(EmptySys, turns[..k + 1]);
    assert turns[..k + 1][..k] == turns[..k];
    SettingWrites(s, turns[k], w);
    EmptyIsValid();
    ScheduleKeepsValid(EmptySys, turns[..k + 1]);
    PlaySplit(EmptySys, turns, k + 1);
    forall i | 0 <= i < |rest| ensures !TurnSetsCeiling(Play(capped, rest[..i]), rest[i], w) {
      PlayOn(turns, k + 1, i);
    }
    assert forall i :: 0 <= i < |rest| ==> rest[i] == turns[k + 1 + i];
    CeilingHoldsInterleaved(capped, rest, w, at);
  }

  lemma SettingWrites(s: Sys, turn: Turn, w: Where)
    requires IsLevel(w) && TurnSetsCeiling(s, turn, w)
    ensures
      var next := Take(s, turn).db;
      HasLevel(next, w) && Ceiling(next, w) == CeilingSet(s, turn, w)
  {
    hide Take, Apply, Ceiling, HasLevel, RecapOf;
    TurnIsOneStep(s, turn);
    RecapWrites(s.db, turn.now, StepOf(s, turn).value, w);
  }

  lemma PlayOn(turns: seq<Turn>, k: nat, i: nat)
    requires k + i < |turns|
    ensures Play(Play(EmptySys, turns[..k]), turns[k..][..i]) == Play(EmptySys, turns[..k + i])
    ensures turns[k..][i] == turns[k + i]
  {
    hide Take;
    PlaySplit(EmptySys, turns[..k + i], k);
    assert turns[..k + i][..k] == turns[..k] && turns[..k + i][k..] == turns[k..][..i];
  }

  /** Under any schedule from an empty relay, whatever the order of the clock readings, every account
      is within its ceiling. */
  lemma {:induction false} AccountCeilingsInterleaved(turns: seq<Turn>, at: Stamp)
    requires forall i :: 0 <= i < |turns| ==> at >= Seconds(turns[i].now)
    ensures AccountsWithin(Play(EmptySys, turns).db, at)
  {
    hide Valid, Take, AccountsWithin, Ages;
    if turns == [] {
      EmptyWithin(at);
    } else {
      var n := |turns| - 1;
      AccountCeilingsInterleaved(turns[..n], at);
      EmptyIsValid();
      ScheduleKeepsValid(EmptySys, turns[..n]);
      TurnKeepsAccountsWithin(Play(EmptySys, turns[..n]), turns[n], at);
    }
  }

  lemma TurnKeepsAccountsWithin(s: Sys, turn: Turn, at: Stamp)
    requires Valid(s.db) && AccountsWithin(s.db, at) && at >= Seconds(turn.now)
    ensures AccountsWithin(Take(s, turn).db, at)
  {
    hide Valid, Take, Apply, AccountsWithin;
    TurnIsOneStep(s, turn);
    match StepOf(s, turn)
    case None =>
    case Some(op) => StepKeepsAccountsWithin(s.db, turn.now, op, at);
  }

  // ---- invitations

  /** The turn enrols a device. */
  predicate TurnEnrols(s: Sys, turn: Turn) {
    var op := StepOf(s, turn);
    && op.Some? && op.value.OnDevices? && op.value.device.OpRegister?
    && (var o := op.value.device; RegisterDevice(s.db, turn.now, o.token, o.device, o.pub, o.push).Ok?)
  }

  /** The enrolments of a schedule. */
  function EnrolmentsOf(turns: seq<Turn>): Ledger {
    if turns == [] then map[]
    else
      var s, turn := Play(EmptySys, turns[..|turns| - 1]), turns[|turns| - 1];
      var rest := EnrolmentsOf(turns[..|turns| - 1]);
      if TurnEnrols(s, turn) then
        var o := StepOf(s, turn).value.device;
        rest[o.device := o.token]
      else rest
  }

  lemma TurnBalances(s: Sys, turn: Turn, ledger: Ledger)
    requires Balanced(s.db, ledger)
    ensures TurnEnrols(s, turn) ==>
      var o := StepOf(s, turn).value.device; Balanced(Take(s, turn).db, ledger[o.device := o.token])
    ensures !TurnEnrols(s, turn) ==> Balanced(Take(s, turn).db, ledger)
  {
    hide Balanced, Take, RegisterDevice, ApplyAccountOp, ApplyQueueOp, ApplyRetireOp, ApplyMessageOp, StoreSpec.Answer;
    TurnIsOneStep(s, turn);
    match StepOf(s, turn)
    case None =>
    case Some(op) =>
      if op.OnDevices? && op.device.OpRegister? {
        var o := op.device;
        if TurnEnrols(s, turn) { EnrolmentBalances(s.db, turn.now, o.token, o.device, o.pub, o.push, ledger); }
      } else {
        StepBalances(s.db, turn.now, op, ledger);
      }
  }

  /** Under any schedule the enrolments are a one-to-one correspondence between the devices and the
      consumed invitations, within each account, and none of those is revoked. */
  lemma {:induction false} InvitationConservationInterleaved(turns: seq<Turn>)
    ensures Balanced(Play(EmptySys, turns).db, EnrolmentsOf(turns))
  {
    hide Balanced, Take, TurnEnrols;
    if turns == [] {
      NothingBalances();
    } else {
      var init := turns[..|turns| - 1];
      InvitationConservationInterleaved(init);
      if TurnEnrols(Play(EmptySys, init), turns[|turns| - 1]) {
        EnrolmentIsStep(Play(EmptySys, init), turns[|turns| - 1]);
      }
      TurnBalances(Play(EmptySys, init), turns[|turns| - 1], EnrolmentsOf(init));
    }
  }

  lemma EnrolmentIsStep(s: Sys, turn: Turn)
    requires TurnEnrols(s, turn)
    ensures StepOf(s, turn).Some? && StepOf(s, turn).value.OnDevices? && StepOf(s, turn).value.device.OpRegister?
  {
    hide RegisterDevice;
  }

  lemma {:induction false} FlatInterleaved(turns: seq<Turn>)
    ensures Valid(Play(EmptySys, turns).db) && FlatIsFlat(Play(EmptySys, turns).db)
  {
    hide Valid, FlatIsFlat, Take, Apply;
    if turns == [] {
      EmptyIsValid();
      EmptyIsFlat();
    } else {
      var s, turn := Play(EmptySys, turns[..|turns| - 1]), turns[|turns| - 1];
      FlatInterleaved(turns[..|turns| - 1]);
      TurnKeepsValid(s, turn);
      TurnIsOneStep(s, turn);
      if StepOf(s, turn).Some? { StaysFlat(s.db, turn.now, StepOf(s, turn).value); }
    }
  }

  /** And each enrolling device gets the role its invitation grants, but for an account's first. */
  lemma EnrolledAsGrantedInterleaved(turns: seq<Turn>, turn: Turn)
    requires TurnEnrols(Play(EmptySys, turns), turn)
    ensures
      var s := Play(EmptySys, turns);
      var o, next := StepOf(s, turn).value.device, Take(s, turn).db;
      && o.device !in s.db.devices && o.device in next.devices && o.token in s.db.invitations
      && next.devices[o.device].role ==
           if DevicesOf(s.db.devices, s.db.invitations[o.token].account) == {} then Admin
           else s.db.invitations[o.token].grants
  {
    hide Take, FlatIsFlat, RegisterDevice;
    FlatInterleaved(turns);
    var s := Play(EmptySys, turns);
    TurnIsOneStep(s, turn);
    var o := StepOf(s, turn).value.device;
    GrantApplies(s.db, turn.now, o.token, o.device, o.pub, o.push);
  }

  // ---- replays

  /** The turn authorises a thread's request. */
  predicate Authorises(s: Sys, turn: Turn) {
    turn.move.Advance? && turn.move.t < |s.threads| && s.threads[turn.move.t].Looked?
  }

  predicate TurnPasses(s: Sys, turn: Turn) {
    && Authorises(s, turn)
    && (var th := s.threads[turn.move.t]; Replays.Passes(s.seen, turn.now, th.req, th.snap))
  }

  function TurnShown(s: Sys, turn: Turn): Option<Showing> {
    if Authorises(s, turn) then
      var th := s.threads[turn.move.t];
      Replays.Shown(turn.now, th.req, th.snap)
    else None
  }

  function TurnShownAt(turns: seq<Turn>, i: nat): Option<Showing>
    requires i < |turns|
  {
    TurnShown(Play(EmptySys, turns[..i]), turns[i])
  }

  predicate PassesAt(turns: seq<Turn>, i: nat)
    requires i < |turns|
  {
    TurnPasses(Play(EmptySys, turns[..i]), turns[i])
  }

  function TurnShows(turns: seq<Turn>): (shows: seq<Option<Showing>>)
    ensures |shows| == |turns|
  {
    seq(|turns|, i requires 0 <= i < |turns| => TurnShownAt(turns, i))
  }

  lemma TurnShowsUpTo(turns: seq<Turn>, n: nat)
    requires n <= |turns|
    ensures TurnShows(turns)[..n] == TurnShows(turns[..n])
  {
    hide Take, TurnShown;
    forall i | 0 <= i < n ensures TurnShownAt(turns[..n], i) == TurnShownAt(turns, i) {
      assert turns[..n][..i] == turns[..i];
    }
  }

  lemma TurnShowsSnoc(turns: seq<Turn>)
    requires turns != []
    ensures TurnShows(turns) == TurnShows(turns[..|turns| - 1]) + [TurnShownAt(turns, |turns| - 1)]
  {
    hide TurnShownAt;
    TurnShowsUpTo(turns, |turns| - 1);
  }

  /** A turn asks the cache its showing's call, if it has one. */
  lemma TurnAsksCache(s: Sys, turn: Turn)
    ensures
      var after := Take(s, turn).seen;
      match CallOf(TurnShown(s, turn))
      case None => after == s.seen && !TurnPasses(s, turn)
      case Some(call) => (after, TurnPasses(s, turn)) == Admit(s.seen, call.now, call.key, call.expiry)
  {
    hide Apply, Authorise, Lookup, Finish, Stop, Admit, CallOf, Replays.Shown, Replays.Passes;
    if Authorises(s, turn) {
      var th := s.threads[turn.move.t];
      Replays.AuthoriseAsksCache(s.db, s.seen, turn.now, th.req, th.snap);
    } else {
      NoShowing();
    }
  }

  lemma NoShowing()
    ensures CallOf(None) == None
  {
  }

  lemma {:induction false} TurnsSeen(turns: seq<Turn>)
    ensures Play(EmptySys, turns).seen == Replayed(Calls(TurnShows(turns)))
  {
    hide Take, Admit, CallOf, TurnShown, TurnPasses, TurnShows;
    if turns != [] {
      var init := turns[..|turns| - 1];
      TurnsSeen(init);
      TurnAsksCache(Play(EmptySys, init), turns[|turns| - 1]);
      TurnShowsSnoc(turns);
      Replays.ReplayedSnoc(TurnShows(init), TurnShownAt(turns, |turns| - 1));
    }
  }

  lemma PassingIsAccepted(turns: seq<Turn>, i: nat)
    requires i < |turns|
    ensures PassesAt(turns, i) <==> Accepted(TurnShows(turns), i)
  {
    hide Take, Admit, CallOf, TurnShown, TurnPasses, TurnShows, Accepted;
    var upTo := turns[..i + 1];
    assert upTo[..i] == turns[..i] && upTo[i] == turns[i];
    TurnShowsUpTo(turns, i + 1);
    TurnShowsSnoc(upTo);
    TurnsSeen(turns[..i]);
    Replays.AcceptedEarlier(TurnShows(turns), i + 1, i);
    Replays.LastAccepted(TurnShows(turns[..i]), TurnShownAt(upTo, i));
    TurnAsksCache(Play(EmptySys, turns[..i]), turns[i]);
  }

  lemma CacheAtTurn(turns: seq<Turn>, i: nat)
    requires i < |turns| && TurnShows(turns)[i].Some?
    ensures TurnShows(turns)[i].value.cacheAt == turns[i].now
  {
    hide Take, Replays.Shown;
    var s := Play(EmptySys, turns[..i]);
    if Authorises(s, turns[i]) {
      var th := s.threads[turns[i].move.t];
      Replays.ShownNow(turns[i].now, th.req, th.snap);
    }
  }

  /** Concurrent showings of one signed request: once it has passed, and with its nonce unused in
      between, it passes again exactly if its window is checked in time and its nonce is by then
      forgotten: its own turn reads the clock at timestamp plus skew or later, or some turn in between
      asked the cache past it.  Used or not, some turn's reading has reached timestamp plus skew.  The
      cache is locked after the clock is read, so the readings may come in any order. */
  lemma ActedOnOnceInterleaved(turns: seq<Turn>, i: nat, j: nat)
    requires Replays.ShownTwice(TurnShows(turns), i, j) && PassesAt(turns, i)
    ensures var shows := TurnShows(turns);
      var s := shows[j].value;
      && (UnusedBetween(shows, i, j, s) ==>
            (PassesAt(turns, j) <==>
               && InWindow(s.windowAt, s.stamp)
               && (s.stamp + SKEW <= turns[j].now || AskedPast(shows, i, j, s.stamp + SKEW))))
      && (PassesAt(turns, j) ==>
            InWindow(s.windowAt, s.stamp) && exists k :: i < k <= j && s.stamp + SKEW <= turns[k].now)
  {
    hide Take, TurnShows, PassesAt, Accepted, UnusedBetween, AskedPast, InWindow;
    var shows := TurnShows(turns);
    PassingIsAccepted(turns, i);
    PassingIsAccepted(turns, j);
    NoReplay(shows, i, j);
    CacheAtTurn(turns, j);
    if PassesAt(turns, j) && turns[j].now < shows[j].value.stamp + SKEW {
      var k :| i < k < j && CallOf(shows[k]).Some? && shows[j].value.stamp + SKEW <= shows[k].value.cacheAt;
      CacheAtTurn(turns, k);
    }
  }
}
