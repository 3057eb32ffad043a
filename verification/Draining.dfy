/**
 * Draining: a worker that polls again at once as long as it claimed something. The work that is left at a
 * fixed instant, what a batch takes off it, and what a drained outbox says about the bookings. Module Skew
 * has the one situation in which that work does not shrink, and module Stopping the exact result.
 */
module Draining {
  import opened Tables
  import opened Bookings
  import opened BookingInvariants
  import opened BookingTheorems
  import opened Timely
  import Outbox

  type Job = Outbox.Job<Payload, Key>

  predicate IsDue(job: Job, now: int)
  {
    job.status == Outbox.Pending && job.availableAt <= now
  }

  function DuePromotion(now: int): Job -> bool
  {
    (job: Job) => IsDue(job, now) && job.payload.Promote?
  }

  function DueOther(now: int): Job -> bool
  {
    (job: Job) => IsDue(job, now) && !job.payload.Promote?
  }

  /** Work left at the instant now: a due promotion may leave two due notifications behind. */
  function Load(rows: seq<Job>, now: int): nat
  {
    3 * Count(rows, DuePromotion(now)) + Count(rows, DueOther(now))
  }

  function Weight(job: Job, now: int): nat
  {
    if !IsDue(job, now) then 0 else if job.payload.Promote? then 3 else 1
  }

  lemma LoadUpdate(rows: seq<Job>, j: nat, job: Job, now: int)
    requires j < |rows|
    ensures Load(rows[j := job], now) + Weight(rows[j], now) == Load(rows, now) + Weight(job, now)
  {
    CountUpdate(rows, j, job, DuePromotion(now));
    CountUpdate(rows, j, job, DueOther(now));
  }

  /** A row still due is load. */
  lemma LoadPositive(rows: seq<Job>, j: nat, now: int)
    requires j < |rows| && IsDue(rows[j], now)
    ensures Load(rows, now) >= 1
  {
    if rows[j].payload.Promote? {
      CountPositive(rows, j, DuePromotion(now));
    } else {
      CountPositive(rows, j, DueOther(now));
    }
  }

  lemma {:induction false} LoadEnqueueAll(jobs: Jobs, ps: seq<Posting>, now: int)
    requires forall i :: 0 <= i < |ps| ==> !ps[i].payload.Promote?
    ensures Load(Outbox.EnqueueAll(jobs, ps).jobs, now) <= Load(jobs.jobs, now) + |ps|
  {
    if ps != [] {
      var init, last := ps[..|ps| - 1], ps[|ps| - 1];
      LoadEnqueueAll(jobs, init, now);
    }
  }

  /** Unless the start lies between the two clocks, a promote handler adds at most the two notifications of a start. */
  lemma PromoteLoad(s: State, b: nat, delivering: Option<nat>, start: int, nodeNow: int, now: int)
    requires !Awaits(s, b) || start <= nodeNow || now < start
    ensures Load(PromoteDue(s, b, delivering, start, nodeNow, now).state.jobs.jobs, now) <= Load(s.jobs.jobs, now) + 2
  {
    if Awaits(s, b) {
      if start > nodeNow {
        var first: Posting := Outbox.Posting(Promote(b), Some(PromotionAt(b, start)), start);
        var again: Posting := Outbox.Posting(Promote(b), Some(PromotionAgain(b, start, delivering)), start);
      } else {
        LoadEnqueueAll(s.jobs, Notices(b, Started, Participants(s, b), now), now);
      }
    }
  }

  // ---- settling a batch ------------------------------------------------------------------------

  function Weigh(rows: seq<Job>, ids: seq<nat>, now: int): nat
    requires forall i :: 0 <= i < |ids| ==> ids[i] < |rows|
  {
    if ids == [] then 0 else Weigh(rows, ids[..|ids| - 1], now) + Weight(rows[ids[|ids| - 1]], now)
  }

  ghost predicate Distinct(ids: seq<nat>)
  {
    forall i, k :: 0 <= i < k < |ids| ==> ids[i] != ids[k]
  }

  /** The rows after the ids were settled one by one. */
  function Replaced(rows: seq<Job>, rows': seq<Job>, ids: seq<nat>): (r: seq<Job>)
    requires |rows| == |rows'| && forall i :: 0 <= i < |ids| ==> ids[i] < |rows|
    ensures |r| == |rows|
    ensures forall j :: 0 <= j < |rows| ==> r[j] == if j in ids then rows'[j] else rows[j]
  {
    if ids == [] then rows
    else Replaced(rows, rows', ids[..|ids| - 1])[ids[|ids| - 1] := rows'[ids[|ids| - 1]]]
  }

  /** Rows that stop being due take their whole weight off the load. */
  lemma {:induction false} SettledLoad(rows: seq<Job>, rows': seq<Job>, ids: seq<nat>, now: int)
    requires |rows| == |rows'| && Distinct(ids)
    requires forall i :: 0 <= i < |ids| ==> ids[i] < |rows| && !IsDue(rows'[ids[i]], now)
    ensures Load(Replaced(rows, rows', ids), now) + Weigh(rows, ids, now) == Load(rows, now)
  {
    if ids != [] {
      var init, last := ids[..|ids| - 1], ids[|ids| - 1];
      SettledLoad(rows, rows', init, now);
      LoadUpdate(Replaced(rows, rows', init), last, rows'[last], now);
    }
  }

  /** A retried, rescheduled or delivered row is not due again at the instant of its claim. */
  lemma SettledIsNotDue(policy: Outbox.Policy, job: Job, v: Outbox.Verdict, now: int)
    requires policy.Valid() && v != Outbox.Waiting && job.attempts >= 0
    ensures !IsDue(Outbox.AfterRun(policy, job, v, now), now)
  {
    if v == Outbox.Failed {
      DelayPositive(policy, job.attempts + 1);
    }
  }

  lemma DelayPositive(policy: Outbox.Policy, attempt: nat)
    requires policy.Valid() && attempt >= 1
    ensures policy.Delay(attempt) >= 1
  {
    Outbox.Scale(policy.baseMs, 1, Outbox.Pow2(attempt - 1));
  }

  /** Committing a claim of exactly the rows ids, all due, all settled. */
  lemma CommitLoad(cfg: Config, jobs: Jobs, w: nat, ids: seq<nat>, now: int)
    requires cfg.policy.Valid() && Outbox.ClaimsOk(jobs) && Outbox.CanCommit(jobs, w) && jobs.claims[w].at == now
    requires Distinct(ids) && forall j :: j in ids <==> j in jobs.claims[w].verdicts
    ensures forall i :: 0 <= i < |ids| ==> ids[i] < |jobs.jobs|
    ensures Load(Outbox.CommitClaim(cfg.policy, jobs, w).jobs, now) + Weigh(jobs.jobs, ids, now) == Load(jobs.jobs, now)
  {
    var rows, rows' := jobs.jobs, Outbox.CommitClaim(cfg.policy, jobs, w).jobs;
    forall i | 0 <= i < |ids|
      ensures ids[i] < |rows| && !IsDue(rows'[ids[i]], now)
    {
      assert ids[i] in ids;
      assert Outbox.Holds(jobs, w, ids[i]);
      SettledIsNotDue(cfg.policy, rows[ids[i]], jobs.claims[w].verdicts[ids[i]], now);
    }
    SettledLoad(rows, rows', ids, now);
    assert Replaced(rows, rows', ids) == rows';
  }

  /** A due promotion weighs three, any other due row one. */
  function Promotes(rows: seq<Job>, ids: seq<nat>): nat
    requires forall i :: 0 <= i < |ids| ==> ids[i] < |rows|
  {
    if ids == [] then 0
    else Promotes(rows, ids[..|ids| - 1]) + if rows[ids[|ids| - 1]].payload.Promote? then 1 else 0
  }

  lemma {:induction false} WeighDue(rows: seq<Job>, ids: seq<nat>, now: int)
    requires forall i :: 0 <= i < |ids| ==> ids[i] < |rows| && IsDue(rows[ids[i]], now)
    ensures Weigh(rows, ids, now) == |ids| + 2 * Promotes(rows, ids)
  {
    if ids != [] {
      WeighDue(rows, ids[..|ids| - 1], now);
    }
  }

  // ---- what is left ----------------------------------------------------------------------------

  /** No promote handler has failed: every promotion yet to be delivered still waits for its own instant. */
  ghost predicate Unfailed(jobs: Jobs)
  {
    && (forall j :: 0 <= j < |jobs.jobs| && jobs.jobs[j].payload.Promote? && jobs.jobs[j].status != Outbox.Delivered ==>
          jobs.jobs[j].status == Outbox.Pending && InKeyTime(jobs.jobs[j]))
    && (forall w: nat, j: nat :: Outbox.Holds(jobs, w, j) && j < |jobs.jobs| && jobs.jobs[j].payload.Promote? ==>
          jobs.claims[w].verdicts[j] != Outbox.Failed)
  }

  predicate InKeyTime(job: Job)
  {
    job.key.Some? && (job.key.value.PromotionAt? || job.key.value.PromotionAgain?) && job.availableAt == job.key.value.at
  }

  /** The action reports a failure of a promote handler. */
  predicate FailsPromotion(s: State, a: Action)
  {
    match a
    case RunPromote(_, j, start, nodeNow, now) =>
      j < |s.jobs.jobs| && s.jobs.jobs[j].payload.Promote?
      && PromoteDue(s, s.jobs.jobs[j].payload.booking, Some(j), start, nodeNow, now).outcome == Unsecured
    case Work(Finish(_, j, v)) => v == Outbox.Failed && j < |s.jobs.jobs| && s.jobs.jobs[j].payload.Promote?
    case _ => false
  }

  lemma PostUnfailed(jobs: Jobs, ps: seq<Posting>)
    requires Outbox.ClaimsOk(jobs) && Unfailed(jobs)
    requires forall i :: 0 <= i < |ps| && ps[i].payload.Promote? ==> InKeyTime(Outbox.NewJob(ps[i]))
    ensures Unfailed(Outbox.EnqueueAll(jobs, ps))
  {
    Outbox.EnqueueAllAppends(jobs, ps);
    var jobs' := Outbox.EnqueueAll(jobs, ps);
    forall j | |jobs.jobs| <= j < |jobs'.jobs|
      ensures jobs'.jobs[j].status == Outbox.Pending && (jobs'.jobs[j].payload.Promote? ==> InKeyTime(jobs'.jobs[j]))
    {
      var i :| 0 <= i < |ps| && jobs'.jobs[j] == Outbox.NewJob(ps[i]);
    }
    assert forall w, j: nat :: Outbox.Holds(jobs', w, j) ==> Outbox.Holds(jobs, w, j) && jobs'.jobs[j] == jobs.jobs[j];
  }

  lemma SettleUnfailed(jobs: Jobs, w: nat, j: nat, v: Outbox.Verdict)
    requires Outbox.ClaimsOk(jobs) && Unfailed(jobs) && Outbox.Running(jobs, w, j) && j < |jobs.jobs|
    requires v == Outbox.Failed ==> !jobs.jobs[j].payload.Promote?
    ensures Unfailed(Outbox.Settle(jobs, w, j, v))
  {
    var jobs' := Outbox.Settle(jobs, w, j, v);
    assert forall u, i: nat :: Outbox.Holds(jobs', u, i) ==> Outbox.Holds(jobs, u, i);
  }

  lemma WorkUnfailed(cfg: Config, jobs: Jobs, step: Step)
    requires Outbox.ClaimsOk(jobs) && Unfailed(jobs) && Outbox.Enabled(jobs, step) && !step.Post? && !step.Finish?
    ensures Unfailed(Outbox.Apply(cfg.policy, jobs, step))
  {
    var jobs' := Outbox.Apply(cfg.policy, jobs, step);
    SamePurpose(cfg, jobs, step);
    if step.Take? {
      assert forall u, i: nat :: Outbox.Holds(jobs', u, i) && u != step.worker ==> Outbox.Holds(jobs, u, i);
    } else {
      assert forall u, i: nat :: Outbox.Holds(jobs', u, i) ==> Outbox.Holds(jobs, u, i);
    }
    if step.Commit? {
      forall i: nat | i in jobs.claims[step.worker].verdicts
        ensures Outbox.Holds(jobs, step.worker, i)
      {
      }
    }
  }

  lemma PromoteUnfailed(s: State, b: nat, delivering: Option<nat>, start: int, nodeNow: int, now: int)
    requires Outbox.ClaimsOk(s.jobs) && Unfailed(s.jobs)
    ensures Unfailed(PromoteDue(s, b, delivering, start, nodeNow, now).state.jobs)
  {
    if Awaits(s, b) {
      if start > nodeNow {
        AttemptPosts(s.jobs, b, start, PromotionAt(b, start), delivering);
        AttemptPosts(s.jobs, b, start, PromotionAgain(b, start, delivering), delivering);
        PostUnfailed(s.jobs, [Outbox.Posting(Promote(b), Some(PromotionAt(b, start)), start)]);
        PostUnfailed(s.jobs, [Outbox.Posting(Promote(b), Some(PromotionAgain(b, start, delivering)), start)]);
      } else {
        PostUnfailed(s.jobs, Notices(b, Started, Participants(s, b), now));
      }
    }
  }

  lemma AttemptPosts(jobs: Jobs, b: nat, at: int, key: Key, delivering: Option<nat>)
    ensures var a := Attempt(jobs, b, at, key, delivering);
      a.jobs == jobs || a.jobs == Outbox.EnqueueAll(jobs, [Outbox.Posting(Promote(b), Some(key), at)])
  {
    var p := Outbox.Posting(Promote(b), Some(key), at);
    assert [p][..0] == [];
    assert Outbox.EnqueueAll(jobs, [p]) == Outbox.Enqueue(jobs, p).table;
  }

  lemma RunPromoteUnfailed(cfg: Config, s: State, a: Action)
    requires Outbox.ClaimsOk(s.jobs) && Unfailed(s.jobs) && a.RunPromote? && Enabled(cfg, s, a) && !FailsPromotion(s, a)
    ensures Unfailed(Apply(cfg, s, a).jobs)
  {
    var b := s.jobs.jobs[a.job].payload.booking;
    var h := PromoteDue(s, b, Some(a.job), a.start, a.nodeNow, a.now);
    PromoteUnfailed(s, b, Some(a.job), a.start, a.nodeNow, a.now);
    PromoteClaimsOk(s, b, Some(a.job), a.start, a.nodeNow, a.now);
    SettleUnfailed(h.state.jobs, a.worker, a.job, Outbox.Succeeded);
  }

  lemma WorkStepUnfailed(cfg: Config, s: State, step: Step)
    requires Outbox.ClaimsOk(s.jobs) && Unfailed(s.jobs) && CanWork(s, step) && !FailsPromotion(s, Work(step))
    ensures Unfailed(Outbox.Apply(cfg.policy, s.jobs, step))
  {
    if step.Finish? {
      assert Outbox.Holds(s.jobs, step.worker, step.id);
    } else {
      WorkUnfailed(cfg, s.jobs, step);
    }
  }

  lemma UpdateUnfailed(s: State, l: nat, patch: Patch, late: nat, fanout: seq<nat>, now: int)
    requires Outbox.ClaimsOk(s.jobs) && Unfailed(s.jobs) && l < |s.listings|
    ensures Unfailed(Update(s, l, patch, late, fanout, now).jobs)
  {
    PostUnfailed(s.jobs, UpdatePostings(l, Update(s, l, patch, late, fanout, now).listings[l], patch, fanout, now));
  }

  lemma RequestUnfailed(cfg: Config, s: State, a: Action)
    requires Outbox.ClaimsOk(s.jobs) && Unfailed(s.jobs) && Enabled(cfg, s, a)
    requires a.CreateListing? || a.CancelListing? || a.CreateBooking? || a.CancelBooking? || a.ConfirmBooking?
    ensures Unfailed(Apply(cfg, s, a).jobs)
  {
    match a
    case CreateListing(_, at) =>
      PostUnfailed(s.jobs, [Outbox.Posting(Geocode(|s.listings|), None, at), Outbox.Posting(Scan(|s.listings|), None, at)]);
    case CancelListing(l, at) => PostUnfailed(s.jobs, Farewells(s.bookings, Affected(s.bookings, l), at));
    case CreateBooking(guest, l, at) => PostUnfailed(s.jobs, BookPostings(s, guest, l, at));
    case CancelBooking(b, byGuest, _, at) =>
      PostUnfailed(s.jobs, Notices(b, if byGuest then CancelledByGuest else CancelledByHost, Participants(s, b), at));
    case ConfirmBooking(b, _, at) => PostUnfailed(s.jobs, Notices(b, Finished, Participants(s, b), at));
  }

  /** Only a failing promote handler can push a promotion past its instant. */
  lemma StepUnfailed(cfg: Config, s: State, a: Action)
    requires Outbox.ClaimsOk(s.jobs) && Unfailed(s.jobs) && Enabled(cfg, s, a) && !FailsPromotion(s, a)
    ensures Unfailed(Apply(cfg, s, a).jobs)
  {
    match a
    case UpdateListing(l, patch, late, fanout, now) => UpdateUnfailed(s, l, patch, late, fanout, now);
    case RunPromote(_, _, _, _, _) => RunPromoteUnfailed(cfg, s, a);
    case RunDetached(b, delivering, start, nodeNow, now) => PromoteUnfailed(s, b, delivering, start, nodeNow, now);
    case Work(step) => WorkStepUnfailed(cfg, s, step);
    case Moderate(_, _) =>
    case _ => RequestUnfailed(cfg, s, a);
  }

  lemma PromoteClaimsOk(s: State, b: nat, delivering: Option<nat>, start: int, nodeNow: int, now: int)
    requires Outbox.ClaimsOk(s.jobs)
    ensures var h := PromoteDue(s, b, delivering, start, nodeNow, now);
      Outbox.ClaimsOk(h.state.jobs) && s.jobs.jobs <= h.state.jobs.jobs && h.state.jobs.claims == s.jobs.claims
  {
    var jobs' := PromoteDue(s, b, delivering, start, nodeNow, now).state.jobs;
    if Awaits(s, b) && start <= nodeNow {
      Outbox.EnqueueAllAppends(s.jobs, Notices(b, Started, Participants(s, b), now));
    }
    assert s.jobs.jobs <= jobs'.jobs;
    assert forall w, j: nat :: Outbox.Holds(jobs', w, j) ==> Outbox.Holds(s.jobs, w, j);
  }

  /** Nothing is claimable at the instant now. */
  ghost predicate Drained(jobs: Jobs, now: int)
  {
    forall j: nat :: j < |jobs.jobs| ==> !IsDue(jobs.jobs[j], now)
  }

  /**
   * Draining is complete: with one clock and no failed promote handler, once nothing is due every booking
   * still pending on an active listing starts later.
   */
  lemma DrainedIsComplete(cfg: Config, s: State, now: int, b: nat)
    requires Routed(s.jobs, |s.bookings|) && OnTime(s, now) && Unfailed(s.jobs) && Drained(s.jobs, now) && Awaits(s, b)
    ensures StartOf(s, b) > now
  {
    var jobs, at := s.jobs, StartOf(s, b);
    assert Covered(jobs, b, at);
    var j: nat :| Covers(jobs, j, b, at);
    assert j < |jobs.jobs| && jobs.jobs[j].key == Some(PromotionAt(b, at));
    assert KeyFits(jobs.jobs[j].key, jobs.jobs[j].payload, |s.bookings|);
    assert jobs.jobs[j].status == Outbox.Pending && jobs.jobs[j].availableAt == at;
  }

  ghost predicate NeverFails(cfg: Config, s: State, now: int, run: seq<Timed>)
    requires TimedRun(cfg, s, now, run)
    decreases |run|
  {
    run == [] ||
    (!FailsPromotion(s, run[0].action) && NeverFails(cfg, Apply(cfg, s, run[0].action), run[0].now, run[1..]))
  }

  lemma {:induction false} RunUnfailed(cfg: Config, s: State, now: int, run: seq<Timed>)
    requires cfg.policy.Valid() && Inv(cfg, s) && Unfailed(s.jobs) && TimedRun(cfg, s, now, run) && NeverFails(cfg, s, now, run)
    ensures Unfailed(After(cfg, s, now, run).jobs)
    decreases |run|
  {
    if run != [] {
      StepKeeps(cfg, s, run[0].action);
      StepUnfailed(cfg, s, run[0].action);
      RunUnfailed(cfg, Apply(cfg, s, run[0].action), run[0].now, run[1..]);
    }
  }

  /** The same over whole runs: after any run in which no promote handler failed, a drained outbox leaves nobody behind. */
  lemma DrainedRunIsComplete(cfg: Config, run: seq<Timed>, t0: int, b: nat)
    requires cfg.policy.Valid() && TimedRun(cfg, Empty(), t0, run) && NeverFails(cfg, Empty(), t0, run)
    requires var s := After(cfg, Empty(), t0, run); Drained(s.jobs, Clock(t0, run)) && Awaits(s, b)
    ensures StartOf(After(cfg, Empty(), t0, run), b) > Clock(t0, run)
  {
    RunOnTime(cfg, Empty(), t0, run);
    RunUnfailed(cfg, Empty(), t0, run);
    DrainedIsComplete(cfg, After(cfg, Empty(), t0, run), Clock(t0, run), b);
  }

  // ---- one poll --------------------------------------------------------------------------------

  /** Some run of the machine leads from s to s'. */
  ghost predicate Leads(cfg: Config, s: State, s': State)
  {
    exists run :: LegalRun(cfg, s, run) && s' == RunAll(cfg, s, run)
  }

  lemma LeadsNowhere(cfg: Config, s: State)
    ensures Leads(cfg, s, s)
  {
    assert LegalRun(cfg, s, []) && RunAll(cfg, s, []) == s;
  }

  lemma LeadsOn(cfg: Config, s: State, s': State, a: Action)
    requires Leads(cfg, s, s') && Enabled(cfg, s', a)
    ensures Leads(cfg, s, Apply(cfg, s', a))
  {
    var run :| LegalRun(cfg, s, run) && s' == RunAll(cfg, s, run);
    RunThen(cfg, s, run, a);
  }

  /** Worker w has claimed exactly ids at now, and run the first i of their handlers. */
  ghost predicate Holding(s0: State, s: State, w: nat, ids: seq<nat>, i: nat, now: int)
  {
    && i <= |ids| && Distinct(ids) && s0.jobs.jobs <= s.jobs.jobs
    && (forall k :: 0 <= k < |ids| ==> ids[k] < |s0.jobs.jobs| && IsDue(s0.jobs.jobs[ids[k]], now))
    && w !in s0.jobs.claims && w in s.jobs.claims && s.jobs.claims - {w} == s0.jobs.claims
    && s.jobs.claims[w].at == now && (forall j :: j in ids <==> j in s.jobs.claims[w].verdicts)
    && (forall k :: 0 <= k < |ids| ==> (s.jobs.claims[w].verdicts[ids[k]] == Outbox.Waiting <==> i <= k))
  }

  /** What the handlers run so far may have added to the load of the claimed batch. */
  ghost predicate Loaded(s0: State, s: State, ids: seq<nat>, i: nat, now: int)
    requires i <= |ids| && forall k :: 0 <= k < |ids| ==> ids[k] < |s0.jobs.jobs|
  {
    Load(s.jobs.jobs, now) <= Load(s0.jobs.jobs, now) + 2 * Promotes(s0.jobs.jobs, ids[..i])
  }

  /** The worker's next move on row j: run its promote handler, or report how another handler ended. */
  predicate Handles(a: Action, w: nat, j: nat, nodeNow: int, now: int)
  {
    match a
    case RunPromote(w', j', _, nodeNow', now') => w' == w && j' == j && nodeNow' == nodeNow && now' == now
    case Work(Finish(w', j', _)) => w' == w && j' == j
    case _ => false
  }

  /** A promote handler that finds its booking waiting for a start between the two clocks. */
  predicate RunsInGap(s: State, a: Action)
  {
    && a.RunPromote? && a.job < |s.jobs.jobs| && s.jobs.jobs[a.job].payload.Promote?
    && Awaits(s, s.jobs.jobs[a.job].payload.booking) && a.nodeNow < a.start <= a.now
  }

  lemma HoldingNext(cfg: Config, s0: State, s: State, a: Action, w: nat, ids: seq<nat>, i: nat, nodeNow: int, now: int)
    requires Outbox.ClaimsOk(s.jobs) && Holding(s0, s, w, ids, i, now) && i < |ids|
    requires Enabled(cfg, s, a) && Handles(a, w, ids[i], nodeNow, now)
    ensures Holding(s0, Apply(cfg, s, a), w, ids, i + 1, now)
    ensures !RunsInGap(s, a) && Loaded(s0, s, ids, i, now) ==> Loaded(s0, Apply(cfg, s, a), ids, i + 1, now)
  {
    var s' := Apply(cfg, s, a);
    assert ids[..i + 1][..i] == ids[..i];
    match a
    case RunPromote(_, j, start, _, _) =>
      var b := s.jobs.jobs[j].payload.booking;
      PromoteClaimsOk(s, b, Some(j), start, nodeNow, now);
      if !RunsInGap(s, a) {
        PromoteLoad(s, b, Some(j), start, nodeNow, now);
      }
    case Work(step) =>
      assert s'.jobs.jobs == s.jobs.jobs;
  }

  lemma HoldingEnd(cfg: Config, s0: State, s: State, w: nat, ids: seq<nat>, now: int)
    requires cfg.policy.Valid() && Outbox.ClaimsOk(s.jobs) && Holding(s0, s, w, ids, |ids|, now)
    ensures Enabled(cfg, s, Work(Outbox.Commit(w)))
    ensures Apply(cfg, s, Work(Outbox.Commit(w))).jobs.claims == s0.jobs.claims
    ensures Loaded(s0, s, ids, |ids|, now) ==>
              Load(Apply(cfg, s, Work(Outbox.Commit(w))).jobs.jobs, now) + |ids| <= Load(s0.jobs.jobs, now)
  {
    forall j | j in s.jobs.claims[w].verdicts
      ensures s.jobs.claims[w].verdicts[j] != Outbox.Waiting
    {
      var k :| 0 <= k < |ids| && ids[k] == j;
    }
    CommitLoad(cfg, s.jobs, w, ids, now);
    WeighDue(s.jobs.jobs, ids, now);
    PromotesSame(s0.jobs.jobs, s.jobs.jobs, ids);
    assert ids[..|ids|] == ids;
  }

  lemma {:induction false} PromotesSame(rows: seq<Job>, rows': seq<Job>, ids: seq<nat>)
    requires rows <= rows' && forall i :: 0 <= i < |ids| ==> ids[i] < |rows|
    ensures Promotes(rows, ids) == Promotes(rows', ids)
  {
    if ids != [] {
      PromotesSame(rows, rows', ids[..|ids| - 1]);
    }
  }
}
