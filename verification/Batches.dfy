/** One poll of the worker: the batch it takes, the handlers it runs, its commit, and what that changes. */
module Batches {
  import opened Tables
  import opened Bookings
  import opened BookingInvariants
  import opened BookingTheorems
  import opened Timely
  import opened Draining
  import opened Polling
  import opened Skew
  import Outbox

  function TakeOf(w: nat, ids: seq<nat>, now: int): Action
  {
    Work(Outbox.Take(w, now, set j | j in ids))
  }

  /** The moves of a poll up to its i-th handler: the batch is taken, then each row handled in claim order. */
  ghost predicate Begins(t: Trace, w: nat, ids: seq<nat>, i: nat, fault: Faults, nodeNow: int, now: int)
  {
    && i <= |ids| && |t.actions| == i + 1 && t.actions[0] == TakeOf(w, ids, now)
    && |t.states| == |t.actions| + 1
    && forall k :: 0 <= k < i ==> Handles(t.actions[k + 1], w, ids[k], nodeNow, now) && Obeys(t.states[k + 1], t.actions[k + 1], fault)
  }

  /** Halfway through a poll: i handlers of the batch have run; clean as long as no promote handler has failed. */
  ghost predicate Midway(cfg: Config, s0: State, s: State, w: nat, ids: seq<nat>, i: nat, fault: Faults, nodeNow: int, now: int, clean: bool)
  {
    && w !in s0.jobs.claims && IsOldestBatch(s0.jobs, ids, |ids|, now)
    && exists t :: IsPoll(cfg, t, nodeNow, now, clean) && Joins(t, s0, s) && Begins(t, w, ids, i, fault, nodeNow, now)
  }

  /** One whole poll, of at most limit rows, that claimed n. */
  ghost predicate Polls(cfg: Config, s: State, s': State, w: nat, limit: nat, n: nat, fault: Faults, nodeNow: int, now: int, clean: bool)
  {
    exists ids, m ::
      && IsOldestBatch(s.jobs, ids, limit, now) && |ids| == n
      && Midway(cfg, s, m, w, ids, n, fault, nodeNow, now, clean)
      && Outbox.CanCommit(m.jobs, w) && s' == m.(jobs := Outbox.CommitClaim(cfg.policy, m.jobs, w))
  }

  // ---- the moves of a poll ---------------------------------------------------------------------

  lemma TakeBatch(cfg: Config, s: State, w: nat, ids: seq<nat>, fault: Faults, nodeNow: int, now: int)
    requires w !in s.jobs.claims && IsOldestBatch(s.jobs, ids, |ids|, now)
    ensures var s' := s.(jobs := Outbox.ClaimRows(s.jobs, w, now, set j | j in ids));
      Midway(cfg, s, s', w, ids, 0, fault, nodeNow, now, true)
  {
    var take := TakeOf(w, ids, now);
    var t := Trace([s, Apply(cfg, s, take)], [take]);
    assert Moves(cfg, t.states[0], t.actions[0], t.states[1], nodeNow, now, true);
    assert IsPoll(cfg, t, nodeNow, now, true) && Joins(t, s, Apply(cfg, s, take)) && Begins(t, w, ids, 0, fault, nodeNow, now);
  }

  /** Extending a trace by one move. */
  function Extended(t: Trace, a: Action, s: State): Trace
  {
    Trace(t.states + [s], t.actions + [a])
  }

  lemma MidwayNext(cfg: Config, s0: State, s: State, a: Action, w: nat, ids: seq<nat>, i: nat,
                   fault: Faults, nodeNow: int, now: int, clean: bool, clean': bool)
    requires Midway(cfg, s0, s, w, ids, i, fault, nodeNow, now, clean) && i < |ids|
    requires PollMove(cfg, s, a, nodeNow, now) && Handles(a, w, ids[i], nodeNow, now) && Obeys(s, a, fault)
    requires clean' ==> clean && !FailsPromotion(s, a)
    ensures Midway(cfg, s0, Apply(cfg, s, a), w, ids, i + 1, fault, nodeNow, now, clean')
  {
    var t :| IsPoll(cfg, t, nodeNow, now, clean) && Joins(t, s0, s) && Begins(t, w, ids, i, fault, nodeNow, now);
    var s' := Apply(cfg, s, a);
    var t' := Extended(t, a, s');
    forall k | 0 <= k <= i
      ensures Handles(t'.actions[k + 1], w, ids[k], nodeNow, now) && Obeys(t'.states[k + 1], t'.actions[k + 1], fault)
    {
      assert k < i ==> t'.states[k + 1] == t.states[k + 1] && t'.actions[k + 1] == t.actions[k + 1];
    }
    assert Joins(t', s0, s') && Begins(t', w, ids, i + 1, fault, nodeNow, now);
  }

  // ---- what holds halfway ----------------------------------------------------------------------

  /** After the k-th handler: the claim is as expected, and if nothing straddled the load has grown as expected. */
  ghost predicate OnCourse(s0: State, s: State, w: nat, ids: seq<nat>, k: nat, nodeNow: int, now: int)
  {
    && Holding(s0, s, w, ids, k, now)
    && (!Straddles(s0, nodeNow, now) ==> !Straddles(s, nodeNow, now) && Loaded(s0, s, ids, k, now))
  }

  lemma CourseStart(cfg: Config, s: State, w: nat, ids: seq<nat>, nodeNow: int, now: int)
    requires cfg.policy.Valid() && Inv(cfg, s) && w !in s.jobs.claims && IsOldestBatch(s.jobs, ids, |ids|, now)
    ensures Enabled(cfg, s, TakeOf(w, ids, now)) && OnCourse(s, Apply(cfg, s, TakeOf(w, ids, now)), w, ids, 0, nodeNow, now)
  {
    var s' := Apply(cfg, s, TakeOf(w, ids, now));
    if Straddles(s', nodeNow, now) {
      NoStraddlerFromWork(cfg, s, TakeOf(w, ids, now).step, nodeNow, now);
    }
  }

  lemma CourseNext(cfg: Config, s0: State, s: State, a: Action, w: nat, ids: seq<nat>, k: nat, nodeNow: int, now: int)
    requires cfg.policy.Valid() && Inv(cfg, s) && OnCourse(s0, s, w, ids, k, nodeNow, now) && k < |ids|
    requires PollMove(cfg, s, a, nodeNow, now) && Handles(a, w, ids[k], nodeNow, now)
    ensures OnCourse(s0, Apply(cfg, s, a), w, ids, k + 1, nodeNow, now)
  {
    HoldingNext(cfg, s0, s, a, w, ids, k, nodeNow, now);
    if !Straddles(s0, nodeNow, now) {
      assert s.jobs.jobs[ids[k]] == s0.jobs.jobs[ids[k]];
      if a.RunPromote? {
        NoStraddlerFromHandler(cfg, s, a, nodeNow, now);
      } else if Straddles(Apply(cfg, s, a), nodeNow, now) {
        NoStraddlerFromWork(cfg, s, a.step, nodeNow, now);
      }
    }
  }

  lemma {:induction false} TraceOnCourse(cfg: Config, t: Trace, w: nat, ids: seq<nat>, i: nat, k: nat, fault: Faults, nodeNow: int, now: int, clean: bool)
    requires cfg.policy.Valid() && IsPoll(cfg, t, nodeNow, now, clean) && Begins(t, w, ids, i, fault, nodeNow, now) && k <= i
    requires var s0 := t.states[0]; Inv(cfg, s0) && w !in s0.jobs.claims && IsOldestBatch(s0.jobs, ids, |ids|, now)
    ensures OnCourse(t.states[0], t.states[k + 1], w, ids, k, nodeNow, now)
  {
    if k == 0 {
      assert Moves(cfg, t.states[0], t.actions[0], t.states[1], nodeNow, now, clean);
      CourseStart(cfg, t.states[0], w, ids, nodeNow, now);
    } else {
      TraceOnCourse(cfg, t, w, ids, i, k - 1, fault, nodeNow, now, clean);
      TraceKeeps(cfg, t, k, nodeNow, now, clean);
      TraceCourseNext(cfg, t, w, ids, i, k, fault, nodeNow, now, clean);
    }
  }

  lemma TraceCourseNext(cfg: Config, t: Trace, w: nat, ids: seq<nat>, i: nat, k: nat, fault: Faults, nodeNow: int, now: int, clean: bool)
    requires cfg.policy.Valid() && IsPoll(cfg, t, nodeNow, now, clean) && Begins(t, w, ids, i, fault, nodeNow, now) && 0 < k <= i
    requires Inv(cfg, t.states[k]) && OnCourse(t.states[0], t.states[k], w, ids, k - 1, nodeNow, now)
    ensures OnCourse(t.states[0], t.states[k + 1], w, ids, k, nodeNow, now)
  {
    assert Moves(cfg, t.states[k], t.actions[k], t.states[k + 1], nodeNow, now, clean);
    assert Handles(t.actions[(k - 1) + 1], w, ids[k - 1], nodeNow, now);
    CourseNext(cfg, t.states[0], t.states[k], t.actions[k], w, ids, k - 1, nodeNow, now);
  }

  lemma MidwayHolds(cfg: Config, s0: State, s: State, w: nat, ids: seq<nat>, i: nat, fault: Faults, nodeNow: int, now: int, clean: bool)
    requires cfg.policy.Valid() && Inv(cfg, s0) && Midway(cfg, s0, s, w, ids, i, fault, nodeNow, now, clean)
    ensures OnCourse(s0, s, w, ids, i, nodeNow, now) && Via(cfg, s0, s, nodeNow, now, clean)
    ensures Inv(cfg, s) && (i < |ids| ==> Outbox.Running(s.jobs, w, ids[i]) && ids[i] < |s.jobs.jobs|)
    ensures clean && Unfailed(s0.jobs) ==> Unfailed(s.jobs)
    ensures clean && Unfailed(s0.jobs) && Straddles(s0, nodeNow, now) ==> Straddles(s, nodeNow, now)
  {
    var t :| IsPoll(cfg, t, nodeNow, now, clean) && Joins(t, s0, s) && Begins(t, w, ids, i, fault, nodeNow, now);
    TraceOnCourse(cfg, t, w, ids, i, i, fault, nodeNow, now, clean);
    ViaKeeps(cfg, s0, s, nodeNow, now, clean);
    if clean && Unfailed(s0.jobs) && Straddles(s0, nodeNow, now) {
      TraceStraddles(cfg, t, i + 1, nodeNow, now);
    }
  }

  /** On one clock the next handler of a promote row does not fail, unless it meets an outside fault. */
  lemma NextIsClean(cfg: Config, s0: State, s: State, a: Action, w: nat, ids: seq<nat>, i: nat, fault: Faults, now: int, clean: bool)
    requires cfg.policy.Valid() && Inv(cfg, s0) && OnTime(s0, now) && SparesPromotions(fault)
    requires Midway(cfg, s0, s, w, ids, i, fault, now, now, clean) && i < |ids|
    requires PollMove(cfg, s, a, now, now) && Handles(a, w, ids[i], now, now) && Obeys(s, a, fault)
    ensures !FailsPromotion(s, a)
  {
    MidwayHolds(cfg, s0, s, w, ids, i, fault, now, now, clean);
    ViaKeeps(cfg, s0, s, now, now, clean);
    NoFaultIsClean(cfg, s, a, w, ids[i], fault, now);
  }

  lemma CommitBatch(cfg: Config, s0: State, s: State, w: nat, limit: nat, ids: seq<nat>, fault: Faults, nodeNow: int, now: int, clean: bool)
    requires cfg.policy.Valid() && Inv(cfg, s0) && Midway(cfg, s0, s, w, ids, |ids|, fault, nodeNow, now, clean) && IsOldestBatch(s0.jobs, ids, limit, now)
    ensures Outbox.CanCommit(s.jobs, w)
    ensures Polls(cfg, s0, s.(jobs := Outbox.CommitClaim(cfg.policy, s.jobs, w)), w, limit, |ids|, fault, nodeNow, now, clean)
  {
    MidwayHolds(cfg, s0, s, w, ids, |ids|, fault, nodeNow, now, clean);
    HoldingEnd(cfg, s0, s, w, ids, now);
  }

  // ---- what a whole poll does ------------------------------------------------------------------

  /** What the commit of a batch does: claims as before, the load down by the rows claimed, straddling as before. */
  lemma CommitKeeps(cfg: Config, s0: State, s: State, w: nat, ids: seq<nat>, fault: Faults, nodeNow: int, now: int, clean: bool)
    requires cfg.policy.Valid() && Inv(cfg, s0) && Midway(cfg, s0, s, w, ids, |ids|, fault, nodeNow, now, clean) && Outbox.CanCommit(s.jobs, w)
    ensures var s' := s.(jobs := Outbox.CommitClaim(cfg.policy, s.jobs, w));
      && Via(cfg, s0, s', nodeNow, now, clean) && s'.jobs.claims == s0.jobs.claims
      && (!Straddles(s0, nodeNow, now) ==>
            !Straddles(s', nodeNow, now) && Load(s'.jobs.jobs, now) + |ids| <= Load(s0.jobs.jobs, now))
      && (clean && Unfailed(s0.jobs) && Straddles(s0, nodeNow, now) ==> Straddles(s', nodeNow, now))
  {
    var commit := Work(Outbox.Commit(w));
    MidwayHolds(cfg, s0, s, w, ids, |ids|, fault, nodeNow, now, clean);
    HoldingEnd(cfg, s0, s, w, ids, now);
    ViaOne(cfg, s, commit, nodeNow, now, true);
    ViaTwice(cfg, s0, s, Apply(cfg, s, commit), nodeNow, now, clean, true);
    if clean && Unfailed(s0.jobs) && Straddles(s0, nodeNow, now) {
      MoveStraddles(cfg, s, commit, nodeNow, now);
    }
    if Straddles(Apply(cfg, s, commit), nodeNow, now) {
      NoStraddlerFromWork(cfg, s, commit.step, nodeNow, now);
    }
  }

  lemma AllClaimed(jobs: Jobs, ids: seq<nat>, limit: nat, now: int)
    requires limit >= 1 && IsOldestBatch(jobs, ids, limit, now)
    ensures ids == [] <==> NoneClaimable(jobs, now)
  {
    if ids != [] {
      assert Claimable(jobs, ids[0], now);
    }
  }

  /**
   * A poll is a run of the protocol. It claims something exactly when something is claimable; unless a booking
   * straddles it takes at least the rows it claimed off the load; a clean one leaves straddling as it was.
   */
  lemma PollKeeps(cfg: Config, s: State, s': State, w: nat, limit: nat, n: nat, fault: Faults, nodeNow: int, now: int, clean: bool)
    requires cfg.policy.Valid() && Inv(cfg, s) && limit >= 1 && Polls(cfg, s, s', w, limit, n, fault, nodeNow, now, clean)
    ensures Via(cfg, s, s', nodeNow, now, clean) && s'.jobs.claims == s.jobs.claims
    ensures (n == 0 <==> NoneClaimable(s.jobs, now)) && (n == 0 ==> s' == s)
    ensures !Straddles(s, nodeNow, now) ==> !Straddles(s', nodeNow, now) && Load(s'.jobs.jobs, now) + n <= Load(s.jobs.jobs, now)
    ensures clean && Unfailed(s.jobs) && Straddles(s, nodeNow, now) ==> Straddles(s', nodeNow, now)
  {
    var ids, m :| IsOldestBatch(s.jobs, ids, limit, now) && |ids| == n && Midway(cfg, s, m, w, ids, n, fault, nodeNow, now, clean)
      && Outbox.CanCommit(m.jobs, w) && s' == m.(jobs := Outbox.CommitClaim(cfg.policy, m.jobs, w));
    CommitKeeps(cfg, s, m, w, ids, fault, nodeNow, now, clean);
    AllClaimed(s.jobs, ids, limit, now);
  }

  // ---- how the rows of a batch end -------------------------------------------------------------

  /** How worker w's claim has it that row j ends. */
  function EndOf(policy: Outbox.Policy, jobs: Jobs, w: nat, j: nat): JobOutcome
  {
    if j >= |jobs.jobs| || !Outbox.Holds(jobs, w, j) || jobs.claims[w].verdicts[j] != Outbox.Failed then DoneJob
    else if jobs.jobs[j].attempts + 1 >= policy.maxAttempts then DeadLettered
    else Retried
  }

  function EndsSo(policy: Outbox.Policy, jobs: Jobs, w: nat, outcome: JobOutcome): nat -> bool
  {
    (j: nat) => EndOf(policy, jobs, w, j) == outcome
  }

  /** A handler settles how its own row ends, and that of no other row. */
  lemma HandlerEnds(cfg: Config, s: State, a: Action, w: nat, j: nat, nodeNow: int, now: int)
    requires Outbox.ClaimsOk(s.jobs) && Enabled(cfg, s, a) && Handles(a, w, j, nodeNow, now) && Outbox.Running(s.jobs, w, j)
    ensures var jobs' := Apply(cfg, s, a).jobs;
      && (forall i: nat :: i != j ==> EndOf(cfg.policy, jobs', w, i) == EndOf(cfg.policy, s.jobs, w, i))
      && Outbox.Holds(jobs', w, j) && j < |s.jobs.jobs| <= |jobs'.jobs| && jobs'.jobs[j] == s.jobs.jobs[j]
  {
    var jobs, jobs' := s.jobs, Apply(cfg, s, a).jobs;
    assert Outbox.Holds(jobs, w, j);
    if a.RunPromote? {
      PromoteClaimsOk(s, s.jobs.jobs[j].payload.booking, Some(j), a.start, nodeNow, now);
    }
    assert forall i: nat :: Outbox.Holds(jobs', w, i) <==> Outbox.Holds(jobs, w, i);
    assert forall i: nat :: Outbox.Holds(jobs, w, i) ==> i < |jobs.jobs| && jobs'.jobs[i] == jobs.jobs[i];
  }

  /** So the tally of a batch goes up by one. */
  lemma OneMoreEnd(policy: Outbox.Policy, jobs: Jobs, jobs': Jobs, w: nat, ids: seq<nat>, i: nat, o: JobOutcome)
    requires i < |ids| && forall k :: 0 <= k < i ==> EndOf(policy, jobs', w, ids[k]) == EndOf(policy, jobs, w, ids[k])
    ensures Count(ids[..i + 1], EndsSo(policy, jobs', w, o))
         == Count(ids[..i], EndsSo(policy, jobs, w, o)) + (if EndOf(policy, jobs', w, ids[i]) == o then 1 else 0)
  {
    assert ids[..i + 1][..i] == ids[..i];
    CountSame(ids[..i], ids[..i], EndsSo(policy, jobs, w, o), EndsSo(policy, jobs', w, o));
  }

  /** The commit makes that the status of the rows. */
  lemma EndsAreStatuses(policy: Outbox.Policy, jobs: Jobs, w: nat, ids: seq<nat>, o: JobOutcome)
    requires Outbox.ClaimsOk(jobs) && Outbox.CanCommit(jobs, w) && forall k :: 0 <= k < |ids| ==> Outbox.Holds(jobs, w, ids[k])
    ensures Count(ids, EndsSo(policy, jobs, w, o)) == Count(ids, HasStatus(Outbox.CommitClaim(policy, jobs, w), StatusFor(o)))
  {
    forall k | 0 <= k < |ids|
      ensures EndsSo(policy, jobs, w, o)(ids[k]) == HasStatus(Outbox.CommitClaim(policy, jobs, w), StatusFor(o))(ids[k])
    {
      assert Outbox.Holds(jobs, w, ids[k]);
    }
    CountSame(ids, ids, EndsSo(policy, jobs, w, o), HasStatus(Outbox.CommitClaim(policy, jobs, w), StatusFor(o)));
  }

  // ---- failed promote handlers -----------------------------------------------------------------

  /** Worker w's open claim has noted the failure of a promote handler. */
  ghost predicate NotedFailure(jobs: Jobs, w: nat)
  {
    exists j: nat :: Outbox.Holds(jobs, w, j) && j < |jobs.jobs| && jobs.jobs[j].payload.Promote?
      && jobs.claims[w].verdicts[j] == Outbox.Failed
  }

  lemma NotesFailure(cfg: Config, s: State, a: Action, w: nat, j: nat, nodeNow: int, now: int)
    requires Outbox.ClaimsOk(s.jobs) && Enabled(cfg, s, a) && Handles(a, w, j, nodeNow, now)
    requires Outbox.Running(s.jobs, w, j) && j < |s.jobs.jobs|
    ensures NotedFailure(Apply(cfg, s, a).jobs, w) <==> NotedFailure(s.jobs, w) || FailsPromotion(s, a)
  {
    var jobs, jobs' := s.jobs, Apply(cfg, s, a).jobs;
    if a.RunPromote? {
      PromoteClaimsOk(s, s.jobs.jobs[j].payload.booking, Some(j), a.start, nodeNow, now);
    }
    assert forall i: nat :: Outbox.Holds(jobs', w, i) <==> Outbox.Holds(jobs, w, i);
    assert forall i: nat :: Outbox.Holds(jobs, w, i) && i != j ==> jobs'.claims[w].verdicts[i] == jobs.claims[w].verdicts[i];
    assert forall i: nat :: Outbox.Holds(jobs, w, i) ==> i < |jobs.jobs| && jobs'.jobs[i] == jobs.jobs[i];
    if NotedFailure(jobs, w) {
      var i: nat :| Outbox.Holds(jobs, w, i) && i < |jobs.jobs| && jobs.jobs[i].payload.Promote?
        && jobs.claims[w].verdicts[i] == Outbox.Failed;
      assert Outbox.Holds(jobs', w, i);
    } else if FailsPromotion(s, a) {
      assert Outbox.Holds(jobs', w, j);
    }
  }

  /** A noted failure shows after the commit: the promotion has left its instant, or is dead. */
  lemma FailureShows(cfg: Config, jobs: Jobs, w: nat)
    requires cfg.policy.Valid() && Outbox.ClaimsOk(jobs) && w in jobs.claims && NotedFailure(jobs, w)
    requires forall j: nat :: j < |jobs.jobs| && jobs.jobs[j].payload.Promote? && Outbox.Holds(jobs, w, j) ==> InKeyTime(jobs.jobs[j])
    ensures !Unfailed(Outbox.CommitClaim(cfg.policy, jobs, w))
  {
    var j: nat :| Outbox.Holds(jobs, w, j) && j < |jobs.jobs| && jobs.jobs[j].payload.Promote?
      && jobs.claims[w].verdicts[j] == Outbox.Failed;
    DelayPositive(cfg.policy, jobs.jobs[j].attempts + 1);
    var job := Outbox.CommitClaim(cfg.policy, jobs, w).jobs[j];
    assert job.payload.Promote? && job.status != Outbox.Delivered && !(job.status == Outbox.Pending && InKeyTime(job));
  }

  // ---- the statistics of a poll ----------------------------------------------------------------

  /** What the statistics say once i handlers of the batch have run. */
  ghost predicate Keeps(cfg: Config, s0: State, s: State, w: nat, ids: seq<nat>, i: nat, fault: Faults, nodeNow: int, now: int, clean: bool, stats: Stats)
  {
    && Midway(cfg, s0, s, w, ids, i, fault, nodeNow, now, clean) && (clean || NotedFailure(s.jobs, w))
    && (nodeNow == now && OnTime(s0, now) && SparesPromotions(fault) ==> clean)
    && stats.claimed == |ids| && AddUp(stats, i, clean, fault) && Tallies(cfg.policy, s.jobs, w, ids, i, stats)
  }

  ghost predicate AddUp(stats: Stats, i: nat, clean: bool, fault: Faults)
  {
    && stats.delivered + stats.retried + stats.deadLettered == i
    && stats.promotionsFailed <= stats.retried + stats.deadLettered && (clean <==> stats.promotionsFailed == 0)
    && (Faultless(fault) && clean ==> stats.delivered == i)
  }

  /** Of the first i rows as many are to be delivered, retried and dead as the statistics say. */
  ghost predicate Tallies(policy: Outbox.Policy, jobs: Jobs, w: nat, ids: seq<nat>, i: nat, stats: Stats)
  {
    i <= |ids| && forall o :: Tallied(stats, o) == Count(ids[..i], EndsSo(policy, jobs, w, o))
  }

  lemma TalliesNext(policy: Outbox.Policy, jobs: Jobs, jobs': Jobs, w: nat, ids: seq<nat>, i: nat, stats: Stats, outcome: JobOutcome, promotion: bool)
    requires Tallies(policy, jobs, w, ids, i, stats) && i < |ids| && outcome == EndOf(policy, jobs', w, ids[i])
    requires forall k :: 0 <= k < i ==> EndOf(policy, jobs', w, ids[k]) == EndOf(policy, jobs, w, ids[k])
    ensures Tallies(policy, jobs', w, ids, i + 1, Tally(stats, outcome, promotion))
  {
    forall o
      ensures Tallied(Tally(stats, outcome, promotion), o) == Count(ids[..i + 1], EndsSo(policy, jobs', w, o))
    {
      OneMoreEnd(policy, jobs, jobs', w, ids, i, o);
    }
  }

  /** What one handler's outcome says of its action. */
  ghost predicate Reports(cfg: Config, s: State, a: Action, w: nat, j: nat, fault: Faults, nodeNow: int, now: int, outcome: JobOutcome)
  {
    && j < |s.jobs.jobs| && PollMove(cfg, s, a, nodeNow, now) && Handles(a, w, j, nodeNow, now) && Obeys(s, a, fault)
    && (FailsPromotion(s, a) <==> outcome != DoneJob && s.jobs.jobs[j].payload.Promote?)
    && (outcome != DoneJob && !s.jobs.jobs[j].payload.Promote? ==> fault(j, s.jobs.jobs[j].payload))
    && outcome == EndOf(cfg.policy, Apply(cfg, s, a).jobs, w, j)
  }

  /** Another handler: a promote handler that fails is noted; on one clock it has met an outside fault. */
  lemma MidwayStill(cfg: Config, s0: State, s: State, a: Action, w: nat, ids: seq<nat>, i: nat, fault: Faults, nodeNow: int, now: int, clean: bool)
    requires cfg.policy.Valid() && Inv(cfg, s0) && Midway(cfg, s0, s, w, ids, i, fault, nodeNow, now, clean) && i < |ids|
    requires PollMove(cfg, s, a, nodeNow, now) && Handles(a, w, ids[i], nodeNow, now) && Obeys(s, a, fault)
    requires clean || NotedFailure(s.jobs, w)
    ensures Midway(cfg, s0, Apply(cfg, s, a), w, ids, i + 1, fault, nodeNow, now, clean && !FailsPromotion(s, a))
    ensures (clean && !FailsPromotion(s, a)) || NotedFailure(Apply(cfg, s, a).jobs, w)
    ensures nodeNow == now && OnTime(s0, now) && SparesPromotions(fault) ==> !FailsPromotion(s, a)
  {
    MidwayHolds(cfg, s0, s, w, ids, i, fault, nodeNow, now, clean);
    MidwayNext(cfg, s0, s, a, w, ids, i, fault, nodeNow, now, clean, clean && !FailsPromotion(s, a));
    NotesFailure(cfg, s, a, w, ids[i], nodeNow, now);
    if nodeNow == now && OnTime(s0, now) && SparesPromotions(fault) {
      NextIsClean(cfg, s0, s, a, w, ids, i, fault, now, clean);
    }
  }

  lemma TalliesStill(cfg: Config, s0: State, s: State, a: Action, w: nat, ids: seq<nat>, i: nat, fault: Faults,
                     nodeNow: int, now: int, clean: bool, stats: Stats, outcome: JobOutcome)
    requires cfg.policy.Valid() && Inv(cfg, s0) && Midway(cfg, s0, s, w, ids, i, fault, nodeNow, now, clean) && i < |ids|
    requires Tallies(cfg.policy, s.jobs, w, ids, i, stats) && Reports(cfg, s, a, w, ids[i], fault, nodeNow, now, outcome)
    ensures Tallies(cfg.policy, Apply(cfg, s, a).jobs, w, ids, i + 1, Tally(stats, outcome, s.jobs.jobs[ids[i]].payload.Promote?))
  {
    MidwayHolds(cfg, s0, s, w, ids, i, fault, nodeNow, now, clean);
    HandlerEnds(cfg, s, a, w, ids[i], nodeNow, now);
    TalliesNext(cfg.policy, s.jobs, Apply(cfg, s, a).jobs, w, ids, i, stats, outcome, s.jobs.jobs[ids[i]].payload.Promote?);
  }

  lemma KeepsNext(cfg: Config, s0: State, s: State, a: Action, w: nat, ids: seq<nat>, i: nat, fault: Faults,
                  nodeNow: int, now: int, clean: bool, stats: Stats, outcome: JobOutcome)
    requires cfg.policy.Valid() && Inv(cfg, s0) && Keeps(cfg, s0, s, w, ids, i, fault, nodeNow, now, clean, stats) && i < |ids|
    requires Reports(cfg, s, a, w, ids[i], fault, nodeNow, now, outcome)
    ensures Keeps(cfg, s0, Apply(cfg, s, a), w, ids, i + 1, fault, nodeNow, now, clean && !FailsPromotion(s, a),
                  Tally(stats, outcome, s.jobs.jobs[ids[i]].payload.Promote?))
  {
    MidwayStill(cfg, s0, s, a, w, ids, i, fault, nodeNow, now, clean);
    TalliesStill(cfg, s0, s, a, w, ids, i, fault, nodeNow, now, clean, stats, outcome);
  }

  lemma CommitTallies(cfg: Config, s0: State, s: State, w: nat, ids: seq<nat>, fault: Faults, nodeNow: int, now: int, clean: bool, stats: Stats)
    requires cfg.policy.Valid() && Inv(cfg, s0) && Midway(cfg, s0, s, w, ids, |ids|, fault, nodeNow, now, clean) && Outbox.CanCommit(s.jobs, w)
    requires Tallies(cfg.policy, s.jobs, w, ids, |ids|, stats)
    ensures forall o :: Tallied(stats, o) == Count(ids, HasStatus(Outbox.CommitClaim(cfg.policy, s.jobs, w), StatusFor(o)))
  {
    MidwayHolds(cfg, s0, s, w, ids, |ids|, fault, nodeNow, now, clean);
    assert ids[..|ids|] == ids;
    forall o
      ensures Tallied(stats, o) == Count(ids, HasStatus(Outbox.CommitClaim(cfg.policy, s.jobs, w), StatusFor(o)))
    {
      EndsAreStatuses(cfg.policy, s.jobs, w, ids, o);
    }
  }

  /** After a poll that began with no failed promotion, one has failed exactly when a failure was noted. */
  lemma FailureIsExact(cfg: Config, s0: State, s: State, w: nat, ids: seq<nat>, fault: Faults, nodeNow: int, now: int, clean: bool)
    requires cfg.policy.Valid() && Inv(cfg, s0) && Midway(cfg, s0, s, w, ids, |ids|, fault, nodeNow, now, clean) && Outbox.CanCommit(s.jobs, w)
    requires clean || NotedFailure(s.jobs, w)
    ensures Unfailed(s0.jobs) ==> (clean <==> Unfailed(Outbox.CommitClaim(cfg.policy, s.jobs, w)))
  {
    MidwayHolds(cfg, s0, s, w, ids, |ids|, fault, nodeNow, now, clean);
    if clean {
      CommitKeeps(cfg, s0, s, w, ids, fault, nodeNow, now, clean);
      ViaKeeps(cfg, s0, s.(jobs := Outbox.CommitClaim(cfg.policy, s.jobs, w)), nodeNow, now, clean);
    } else if Unfailed(s0.jobs) {
      forall j: nat | j < |s.jobs.jobs| && s.jobs.jobs[j].payload.Promote? && Outbox.Holds(s.jobs, w, j)
        ensures InKeyTime(s.jobs.jobs[j])
      {
        var k :| 0 <= k < |ids| && ids[k] == j;
        assert s.jobs.jobs[j] == s0.jobs.jobs[j];
      }
      FailureShows(cfg, s.jobs, w);
    }
  }

  // ---- drained ---------------------------------------------------------------------------------

  /** Draining leaves nothing due; on one clock and without a failed promote handler, no booking whose listing has started. */
  lemma DrainComplete(cfg: Config, s0: State, s: State, nodeNow: int, now: int, clean: bool)
    requires cfg.policy.Valid() && Inv(cfg, s0) && Via(cfg, s0, s, nodeNow, now, clean)
    requires s.jobs.claims == map[] && NoneClaimable(s.jobs, now)
    ensures Drained(s.jobs, now)
    ensures nodeNow == now && OnTime(s0, now) && Unfailed(s0.jobs) && clean ==> forall b: nat :: Awaits(s, b) ==> StartOf(s, b) > now
  {
    forall j: nat | j < |s.jobs.jobs|
      ensures !IsDue(s.jobs.jobs[j], now)
    {
      assert !Claimable(s.jobs, j, now);
    }
    ViaKeeps(cfg, s0, s, nodeNow, now, clean);
    if nodeNow == now && OnTime(s0, now) && Unfailed(s0.jobs) && clean {
      forall b: nat | Awaits(s, b)
        ensures StartOf(s, b) > now
      {
        DrainedIsComplete(cfg, s, now, b);
      }
    }
  }
}
