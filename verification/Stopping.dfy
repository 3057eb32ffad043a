/**
 * When draining stops. Polls follow one another at one instant of each clock, each taking the oldest due
 * rows. As long as no promote handler fails they come to an end if and only if no booking straddles the
 * clocks; and where one does, they can go on for ever.
 */
module Stopping {
  import opened Tables
  import opened Bookings
  import opened BookingInvariants
  import opened BookingTheorems
  import opened Timely
  import opened Draining
  import opened Polling
  import opened Skew
  import opened Batches
  import Outbox

  ghost predicate PollsSome(cfg: Config, s: State, s': State, w: nat, limit: nat, fault: Faults, nodeNow: int, now: int, clean: bool)
  {
    exists n :: Polls(cfg, s, s', w, limit, n, fault, nodeNow, now, clean)
  }

  /** The states between the polls of a drain; in a clean one no promote handler fails. */
  ghost predicate IsDrain(cfg: Config, states: seq<State>, w: nat, limit: nat, fault: Faults, nodeNow: int, now: int, clean: bool)
  {
    && |states| > 0
    && forall i :: 0 < i < |states| ==> PollsSome(cfg, states[i - 1], states[i], w, limit, fault, nodeNow, now, clean)
  }

  // ---- unless a booking straddles --------------------------------------------------------------

  lemma {:induction false} DrainLoad(cfg: Config, states: seq<State>, k: nat, w: nat, limit: nat, fault: Faults, nodeNow: int, now: int, clean: bool)
    requires cfg.policy.Valid() && limit >= 1 && IsDrain(cfg, states, w, limit, fault, nodeNow, now, clean) && k < |states|
    requires Inv(cfg, states[0]) && !Straddles(states[0], nodeNow, now)
    ensures Inv(cfg, states[k]) && !Straddles(states[k], nodeNow, now) && states[k].jobs.claims == states[0].jobs.claims
    ensures NoneClaimable(states[k].jobs, now) || Load(states[k].jobs.jobs, now) + k <= Load(states[0].jobs.jobs, now)
  {
    if k > 0 {
      DrainLoad(cfg, states, k - 1, w, limit, fault, nodeNow, now, clean);
      assert PollsSome(cfg, states[k - 1], states[k], w, limit, fault, nodeNow, now, clean);
      var n :| Polls(cfg, states[k - 1], states[k], w, limit, n, fault, nodeNow, now, clean);
      PollKeeps(cfg, states[k - 1], states[k], w, limit, n, fault, nodeNow, now, clean);
      ViaKeeps(cfg, states[k - 1], states[k], nodeNow, now, clean);
    }
  }

  lemma NoLoad(jobs: Jobs, now: int)
    requires Load(jobs.jobs, now) == 0
    ensures NoneClaimable(jobs, now)
  {
    forall j: nat
      ensures !Claimable(jobs, j, now)
    {
      if Claimable(jobs, j, now) {
        LoadPositive(jobs.jobs, j, now);
        assert false;
      }
    }
  }

  /** Unless a booking straddles, a drain has nothing to claim after at most as many polls as its load, whatever fails. */
  lemma StopsUnlessStraddled(cfg: Config, states: seq<State>, w: nat, limit: nat, fault: Faults, nodeNow: int, now: int, clean: bool)
    requires cfg.policy.Valid() && limit >= 1 && IsDrain(cfg, states, w, limit, fault, nodeNow, now, clean)
    requires Inv(cfg, states[0]) && !Straddles(states[0], nodeNow, now)
    requires |states| > Load(states[0].jobs.jobs, now)
    ensures NoneClaimable(states[|states| - 1].jobs, now)
  {
    DrainLoad(cfg, states, |states| - 1, w, limit, fault, nodeNow, now, clean);
    if Load(states[|states| - 1].jobs.jobs, now) == 0 {
      NoLoad(states[|states| - 1].jobs, now);
    }
  }

  // ---- while one does --------------------------------------------------------------------------

  lemma {:induction false} StaysStraddled(cfg: Config, states: seq<State>, k: nat, w: nat, limit: nat, fault: Faults, nodeNow: int, now: int)
    requires cfg.policy.Valid() && limit >= 1 && IsDrain(cfg, states, w, limit, fault, nodeNow, now, true) && k < |states|
    requires Inv(cfg, states[0]) && Unfailed(states[0].jobs) && Straddles(states[0], nodeNow, now)
    ensures Inv(cfg, states[k]) && Unfailed(states[k].jobs) && Straddles(states[k], nodeNow, now) && states[k].jobs.claims == states[0].jobs.claims
  {
    if k > 0 {
      StaysStraddled(cfg, states, k - 1, w, limit, fault, nodeNow, now);
      assert PollsSome(cfg, states[k - 1], states[k], w, limit, fault, nodeNow, now, true);
      var n :| Polls(cfg, states[k - 1], states[k], w, limit, n, fault, nodeNow, now, true);
      PollKeeps(cfg, states[k - 1], states[k], w, limit, n, fault, nodeNow, now, true);
      ViaKeeps(cfg, states[k - 1], states[k], nodeNow, now, true);
    }
  }

  /** With no claim open, a straddling booking's row is there to claim. */
  lemma StraddlerIsClaimable(s: State, nodeNow: int, now: int)
    requires s.jobs.claims == map[] && Straddles(s, nodeNow, now)
    ensures !NoneClaimable(s.jobs, now)
  {
    var jobs := s.jobs;
    var b: nat, j: nat :| Straddler(s, b, j, nodeNow, now);
    assert Schedules(jobs, j, b);
    assert Claimable(jobs, j, now);
  }

  /**
   * The exact condition. Once a drain in which no promote handler fails has made as many polls as it had load,
   * nothing is claimable if and only if no booking straddled the clocks when it began. That can be looked up
   * beforehand: StraddlesUnclaimed.
   */
  lemma DrainStopsIff(cfg: Config, states: seq<State>, w: nat, limit: nat, fault: Faults, nodeNow: int, now: int)
    requires cfg.policy.Valid() && limit >= 1 && IsDrain(cfg, states, w, limit, fault, nodeNow, now, true)
    requires Inv(cfg, states[0]) && states[0].jobs.claims == map[] && Unfailed(states[0].jobs) && |states| > Load(states[0].jobs.jobs, now)
    ensures NoneClaimable(states[|states| - 1].jobs, now) <==> !Straddles(states[0], nodeNow, now)
  {
    if Straddles(states[0], nodeNow, now) {
      StaysStraddled(cfg, states, |states| - 1, w, limit, fault, nodeNow, now);
      StraddlerIsClaimable(states[|states| - 1], nodeNow, now);
    } else {
      StopsUnlessStraddled(cfg, states, w, limit, fault, nodeNow, now, true);
    }
  }

  // ---- such drains exist -----------------------------------------------------------------------

  /** A fallback row names a delivering row that is delivered, or decided to be. */
  ghost predicate FallbacksSettled(jobs: Jobs)
  {
    forall i: nat, b: nat, at: int, j: nat ::
      i < |jobs.jobs| && jobs.jobs[i].key == Some(PromotionAgain(b, at, Some(j))) ==>
        j < |jobs.jobs| && (jobs.jobs[j].status == Outbox.Delivered || Outbox.Spent(jobs, j))
  }

  /** The move a sound handler of row j makes. */
  function SoundMove(s: State, w: nat, j: nat, nodeNow: int, now: int): Action
    requires j < |s.jobs.jobs|
  {
    if s.jobs.jobs[j].payload.Promote? then RunPromote(w, j, StartIfAny(s, s.jobs.jobs[j].payload.booking), nodeNow, now)
    else Work(Outbox.Finish(w, j, Outbox.Succeeded))
  }

  /** With its fallback key unused, a promote handler never throws. */
  lemma SoundMoveIsClean(cfg: Config, s: State, w: nat, j: nat, nodeNow: int, now: int)
    requires Outbox.ClaimsOk(s.jobs) && FallbacksSettled(s.jobs) && Outbox.Running(s.jobs, w, j) && j < |s.jobs.jobs|
    ensures var a := SoundMove(s, w, j, nodeNow, now); PollMove(cfg, s, a, nodeNow, now) && !FailsPromotion(s, a) && Obeys(s, a, NoFaults())
  {
    if s.jobs.jobs[j].payload.Promote? {
      var b := s.jobs.jobs[j].payload.booking;
      assert Outbox.Holds(s.jobs, w, j);
      assert Outbox.Find(s.jobs.jobs, PromotionAgain(b, StartIfAny(s, b), Some(j))).None?;
    }
  }

  lemma SpentAfter(jobs: Jobs, jobs': Jobs, i: nat)
    requires Outbox.Spent(jobs, i) && forall w :: w in jobs.claims ==> w in jobs'.claims
    requires forall w, j: nat :: Outbox.Holds(jobs, w, j) && jobs.claims[w].verdicts[j] == Outbox.Succeeded ==>
               Outbox.Holds(jobs', w, j) && jobs'.claims[w].verdicts[j] == Outbox.Succeeded
    ensures Outbox.Spent(jobs', i)
  {
    var w :| w in jobs.claims && Outbox.Holds(jobs, w, i) && jobs.claims[w].verdicts[i] == Outbox.Succeeded;
    assert Outbox.Holds(jobs', w, i);
  }

  /** The fallback rows from row number from on name the one delivering row. */
  ghost predicate OnlyFallbacksOf(jobs: Jobs, from: nat, delivering: nat)
  {
    forall i: nat, b: nat, at: int, d: nat ::
      (from <= i < |jobs.jobs| && jobs.jobs[i].key == Some(PromotionAgain(b, at, Some(d)))) ==> d == delivering
  }

  /** Settling keeps what was settled; the one fallback row a handler may add names the row it has just settled. */
  lemma SettledKeeps(jobs: Jobs, jobs': Jobs, w: nat, j: nat)
    requires FallbacksSettled(jobs) && Outbox.Running(jobs, w, j) && j < |jobs.jobs| && jobs.jobs <= jobs'.jobs
    requires jobs'.claims == Outbox.Settle(jobs, w, j, Outbox.Succeeded).claims
    requires OnlyFallbacksOf(jobs', |jobs.jobs|, j)
    ensures FallbacksSettled(jobs')
  {
    assert Outbox.Holds(jobs', w, j);
    forall i: nat, b: nat, at: int, d: nat | i < |jobs'.jobs| && jobs'.jobs[i].key == Some(PromotionAgain(b, at, Some(d)))
      ensures d < |jobs'.jobs| && (jobs'.jobs[d].status == Outbox.Delivered || Outbox.Spent(jobs', d))
    {
      if i < |jobs.jobs| {
        assert jobs.jobs[i].key == Some(PromotionAgain(b, at, Some(d)));
        if Outbox.Spent(jobs, d) {
          SpentAfter(jobs, jobs', d);
        }
      }
    }
  }

  /** The fallback rows a handler adds name the row it delivers. */
  lemma FallbackRows(s: State, b: nat, delivering: nat, start: int, nodeNow: int, now: int)
    ensures var jobs' := PromoteDue(s, b, Some(delivering), start, nodeNow, now).state.jobs;
      && s.jobs.jobs <= jobs'.jobs
      && OnlyFallbacksOf(jobs', |s.jobs.jobs|, delivering)
  {
    if Awaits(s, b) && start <= nodeNow {
      Outbox.EnqueueAllAppends(s.jobs, Notices(b, Started, Participants(s, b), now));
    }
  }

  lemma SoundMoveSettles(cfg: Config, s: State, w: nat, j: nat, nodeNow: int, now: int)
    requires Outbox.ClaimsOk(s.jobs) && FallbacksSettled(s.jobs) && Outbox.Running(s.jobs, w, j) && j < |s.jobs.jobs|
    ensures var a := SoundMove(s, w, j, nodeNow, now);
      Enabled(cfg, s, a) && FallbacksSettled(Apply(cfg, s, a).jobs)
  {
    var a := SoundMove(s, w, j, nodeNow, now);
    SoundMoveIsClean(cfg, s, w, j, nodeNow, now);
    var jobs' := Apply(cfg, s, a).jobs;
    if a.RunPromote? {
      FallbackRows(s, s.jobs.jobs[j].payload.booking, j, a.start, nodeNow, now);
    }
    SettledKeeps(s.jobs, jobs', w, j);
  }

  /** The first i handlers of a batch can all run soundly. */
  lemma {:induction false} SoundMidway(cfg: Config, s0: State, w: nat, ids: seq<nat>, i: nat, nodeNow: int, now: int) returns (s: State)
    requires cfg.policy.Valid() && Inv(cfg, s0) && w !in s0.jobs.claims && IsOldestBatch(s0.jobs, ids, |ids|, now)
    requires FallbacksSettled(s0.jobs) && i <= |ids|
    ensures Midway(cfg, s0, s, w, ids, i, NoFaults(), nodeNow, now, true) && FallbacksSettled(s.jobs)
  {
    if i == 0 {
      s := s0.(jobs := Outbox.ClaimRows(s0.jobs, w, now, set j | j in ids));
      TakeBatch(cfg, s0, w, ids, NoFaults(), nodeNow, now);
      TakenSettled(s0.jobs, w, now, set j | j in ids);
    } else {
      var m := SoundMidway(cfg, s0, w, ids, i - 1, nodeNow, now);
      var a := HandleSoundly(cfg, s0, m, w, ids, i - 1, nodeNow, now);
      s := Apply(cfg, m, a);
      MidwayNext(cfg, s0, m, a, w, ids, i - 1, NoFaults(), nodeNow, now, true, true);
    }
  }

  lemma HandleSoundly(cfg: Config, s0: State, m: State, w: nat, ids: seq<nat>, i: nat, nodeNow: int, now: int) returns (a: Action)
    requires cfg.policy.Valid() && Inv(cfg, s0) && Midway(cfg, s0, m, w, ids, i, NoFaults(), nodeNow, now, true) && i < |ids|
    requires FallbacksSettled(m.jobs)
    ensures PollMove(cfg, m, a, nodeNow, now) && !FailsPromotion(m, a) && Handles(a, w, ids[i], nodeNow, now) && Obeys(m, a, NoFaults())
    ensures FallbacksSettled(Apply(cfg, m, a).jobs)
  {
    MidwayHolds(cfg, s0, m, w, ids, i, NoFaults(), nodeNow, now, true);
    a := SoundMove(m, w, ids[i], nodeNow, now);
    SoundMoveIsClean(cfg, m, w, ids[i], nodeNow, now);
    SoundMoveSettles(cfg, m, w, ids[i], nodeNow, now);
  }

  lemma TakenSettled(jobs: Jobs, w: nat, now: int, ids: set<nat>)
    requires FallbacksSettled(jobs) && w !in jobs.claims
    ensures FallbacksSettled(Outbox.ClaimRows(jobs, w, now, ids))
  {
    var jobs' := Outbox.ClaimRows(jobs, w, now, ids);
    forall d: nat | Outbox.Spent(jobs, d)
      ensures Outbox.Spent(jobs', d)
    {
      SpentAfter(jobs, jobs', d);
    }
  }

  lemma CommittedSettled(cfg: Config, jobs: Jobs, w: nat)
    requires Outbox.ClaimsOk(jobs) && Outbox.CanCommit(jobs, w) && FallbacksSettled(jobs)
    ensures FallbacksSettled(Outbox.CommitClaim(cfg.policy, jobs, w))
  {
    var jobs' := Outbox.CommitClaim(cfg.policy, jobs, w);
    forall i: nat, b: nat, at: int, d: nat | i < |jobs'.jobs| && jobs'.jobs[i].key == Some(PromotionAgain(b, at, Some(d)))
      ensures d < |jobs'.jobs| && (jobs'.jobs[d].status == Outbox.Delivered || Outbox.Spent(jobs', d))
    {
      assert jobs.jobs[i].key == Some(PromotionAgain(b, at, Some(d)));
      if jobs.jobs[d].status == Outbox.Delivered {
        assert !Outbox.Holds(jobs, w, d);
      } else {
        var u :| u in jobs.claims && Outbox.Holds(jobs, u, d) && jobs.claims[u].verdicts[d] == Outbox.Succeeded;
        assert u != w ==> Outbox.Holds(jobs', u, d);
      }
    }
  }

  // ---- the oldest batch ------------------------------------------------------------------------

  lemma {:induction false} OldestOf(jobs: Jobs, taken: seq<nat>, now: int, n: nat) returns (best: Option<nat>)
    ensures best.Some? ==> Claimable(jobs, best.value, now) && best.value !in taken
    ensures best.Some? ==> forall j: nat :: j < n && Claimable(jobs, j, now) && j !in taken && j != best.value ==> Older(jobs, best.value, j)
    ensures best.None? ==> forall j: nat :: j < n && Claimable(jobs, j, now) ==> j in taken
  {
    if n == 0 {
      best := None;
    } else {
      best := OldestOf(jobs, taken, now, n - 1);
      if Claimable(jobs, n - 1, now) && n - 1 !in taken && (best.None? || Older(jobs, n - 1, best.value)) {
        best := Some(n - 1);
      }
    }
  }

  lemma {:induction false} OldestBatch(jobs: Jobs, limit: nat, now: int) returns (ids: seq<nat>)
    ensures IsOldestBatch(jobs, ids, limit, now)
  {
    if limit == 0 {
      ids := [];
    } else {
      ids := OldestBatch(jobs, limit - 1, now);
      if |ids| == limit - 1 {
        var next := OldestOf(jobs, ids, now, |jobs.jobs|);
        ids := if next.Some? then ids + [next.value] else ids;
      }
    }
  }

  /** From such a state the worker can poll without a promote handler failing, and is again in such a state. */
  lemma SoundPoll(cfg: Config, s: State, w: nat, limit: nat, nodeNow: int, now: int) returns (s': State)
    requires cfg.policy.Valid() && limit >= 1 && Inv(cfg, s) && w !in s.jobs.claims && FallbacksSettled(s.jobs)
    ensures PollsSome(cfg, s, s', w, limit, NoFaults(), nodeNow, now, true)
    ensures Inv(cfg, s') && s'.jobs.claims == s.jobs.claims && FallbacksSettled(s'.jobs)
  {
    var ids := OldestBatch(s.jobs, limit, now);
    var m := SoundMidway(cfg, s, w, ids, |ids|, nodeNow, now);
    CommitBatch(cfg, s, m, w, limit, ids, NoFaults(), nodeNow, now, true);
    s' := m.(jobs := Outbox.CommitClaim(cfg.policy, m.jobs, w));
    MidwayHolds(cfg, s, m, w, ids, |ids|, NoFaults(), nodeNow, now, true);
    CommittedSettled(cfg, m.jobs, w);
    PollKeeps(cfg, s, s', w, limit, |ids|, NoFaults(), nodeNow, now, true);
    ViaKeeps(cfg, s, s', nodeNow, now, true);
  }

  /** However many polls: there is a drain of that length in which no promote handler fails. */
  lemma {:induction false} SoundDrain(cfg: Config, s: State, w: nat, limit: nat, nodeNow: int, now: int, polls: nat) returns (states: seq<State>)
    requires cfg.policy.Valid() && limit >= 1 && Inv(cfg, s) && w !in s.jobs.claims && FallbacksSettled(s.jobs)
    ensures IsDrain(cfg, states, w, limit, NoFaults(), nodeNow, now, true) && |states| == polls + 1 && states[0] == s
    ensures var last := states[polls]; Inv(cfg, last) && last.jobs.claims == s.jobs.claims && FallbacksSettled(last.jobs)
  {
    if polls == 0 {
      states := [s];
    } else {
      var before := SoundDrain(cfg, s, w, limit, nodeNow, now, polls - 1);
      var next := SoundPoll(cfg, before[polls - 1], w, limit, nodeNow, now);
      states := before + [next];
      forall i | 0 < i < |states|
        ensures PollsSome(cfg, states[i - 1], states[i], w, limit, NoFaults(), nodeNow, now, true)
      {
        assert i < polls ==> states[i - 1] == before[i - 1] && states[i] == before[i];
      }
    }
  }

  /** While a booking straddles the clocks the worker can poll any number of times, and claims something each time. */
  lemma SpinsForever(cfg: Config, s: State, w: nat, limit: nat, nodeNow: int, now: int, polls: nat) returns (states: seq<State>)
    requires cfg.policy.Valid() && limit >= 1 && Inv(cfg, s) && s.jobs.claims == map[]
    requires Unfailed(s.jobs) && FallbacksSettled(s.jobs) && Straddles(s, nodeNow, now)
    ensures IsDrain(cfg, states, w, limit, NoFaults(), nodeNow, now, true) && |states| == polls + 1 && states[0] == s
    ensures forall k :: 0 <= k <= polls ==> !NoneClaimable(states[k].jobs, now)
  {
    states := SoundDrain(cfg, s, w, limit, nodeNow, now, polls);
    forall k: nat | k <= polls
      ensures !NoneClaimable(states[k].jobs, now)
    {
      StaysStraddled(cfg, states, k, w, limit, NoFaults(), nodeNow, now);
      StraddlerIsClaimable(states[k], nodeNow, now);
    }
  }

  // ---- and such states are reached -------------------------------------------------------------

  /** A listing that starts at 10, approved, with one seat booked at 0: four rows due at 0 and the promotion due at 10. */
  function SkewedRun(): seq<Action>
  {
    [CreateListing(Listing(0, 0, 0, 0, 10, 1, 1, Unreviewed, true), 0), Moderate(0, Approved), CreateBooking(1, 0, 0)]
  }

  function ListingJobs(): seq<Job>
  {
    [Outbox.NewJob(Outbox.Posting(Geocode(0), None, 0)), Outbox.NewJob(Outbox.Posting(Scan(0), None, 0))]
  }

  function BookingJobs(): seq<Job>
  {
    [Outbox.NewJob(Notice(0, Created, 1, 0)), Outbox.NewJob(Notice(0, Created, 0, 0)), Outbox.NewJob(Promotion(0, 10))]
  }

  lemma FirstListing(cfg: Config)
    ensures var a := SkewedRun();
      && Enabled(cfg, Empty(), a[0])
      && Apply(cfg, Empty(), a[0]) == State([a[0].row], [], Outbox.Table(ListingJobs(), map[]), [0], [])
  {
    var geocode: Posting, scan: Posting := Outbox.Posting(Geocode(0), None, 0), Outbox.Posting(Scan(0), None, 0);
    FreshAppend(Empty().jobs, [geocode, scan]);
    assert [] + NewJobs([geocode, scan]) == ListingJobs();
  }

  lemma FirstBooking(cfg: Config, s: State)
    requires cfg.maxPending >= 1
    requires s == State([SkewedRun()[0].row.(moderation := Approved)], [], Outbox.Table(ListingJobs(), map[]), [0], [])
    ensures Enabled(cfg, s, SkewedRun()[2])
    ensures Apply(cfg, s, SkewedRun()[2])
         == State([s.listings[0].(remaining := 0)], [Booking(0, 1, BookingStatus.Pending, false, false)],
                  Outbox.Table(ListingJobs() + BookingJobs(), map[]), [0], [[Created]])
  {
    FirstPostings(s.jobs, BookPostings(s, 1, 0, 0));
  }

  lemma FirstPostings(jobs: Jobs, ps: seq<Posting>)
    requires jobs == Outbox.Table(ListingJobs(), map[])
    requires ps == [Notice(0, Created, 1, 0), Notice(0, Created, 0, 0), Promotion(0, 10)]
    ensures Outbox.EnqueueAll(jobs, ps) == Outbox.Table(ListingJobs() + BookingJobs(), map[])
  {
    assert Fresh(jobs, ps);
    FreshAppend(jobs, ps);
  }

  /**
   * From an empty database three requests lead to a booking that straddles any two clocks with its start between
   * them; from there a worker with any batch size can go on polling for ever.
   */
  lemma SkewIsReached(cfg: Config, nodeNow: int, now: int, w: nat, limit: nat, polls: nat) returns (states: seq<State>)
    requires cfg.policy.Valid() && cfg.maxPending >= 1 && limit >= 1 && nodeNow < 10 <= now
    ensures LegalRun(cfg, Empty(), SkewedRun()) && |states| == polls + 1 && states[0] == RunAll(cfg, Empty(), SkewedRun())
    ensures IsDrain(cfg, states, w, limit, NoFaults(), nodeNow, now, true) && forall k :: 0 <= k <= polls ==> !NoneClaimable(states[k].jobs, now)
  {
    var a := SkewedRun();
    var s1 := Apply(cfg, Empty(), a[0]);
    FirstListing(cfg);
    var s2 := Apply(cfg, s1, a[1]);
    FirstBooking(cfg, s2);
    var s3 := Apply(cfg, s2, a[2]);
    assert a == [a[0]] + ([a[1]] + ([a[2]] + []));
    RunKeeps(cfg, Empty(), a);
    FirstStraddles(s3, nodeNow, now);
    states := SpinsForever(cfg, s3, w, limit, nodeNow, now, polls);
  }

  lemma FirstStraddles(s: State, nodeNow: int, now: int)
    requires s.jobs == Outbox.Table(ListingJobs() + BookingJobs(), map[]) && nodeNow < 10 <= now
    requires Awaits(s, 0) && StartOf(s, 0) == 10
    ensures Unfailed(s.jobs) && FallbacksSettled(s.jobs) && Straddles(s, nodeNow, now)
  {
    assert s.jobs.jobs[4] == BookingJobs()[2] == Outbox.NewJob(Promotion(0, 10));
    assert Schedules(s.jobs, 4, 0);
    assert Straddler(s, 0, 4, nodeNow, now);
  }
}
