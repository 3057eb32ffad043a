/**
 * The one situation in which draining does not come to an end: a booking waits for a start that is past to
 * the database but still to come for Node, and a promote row of it is due. Its handler then leaves another
 * due promote row behind; in every other situation a handler leaves none.
 */
module Skew {
  import opened Tables
  import opened Bookings
  import opened BookingInvariants
  import opened BookingTheorems
  import opened Timely
  import opened Draining
  import opened Polling
  import Outbox

  /** Row j promotes b, is due and not already decided; b waits for a start between the two clocks. */
  ghost predicate Straddler(s: State, b: nat, j: nat, nodeNow: int, now: int)
  {
    Awaits(s, b) && nodeNow < StartOf(s, b) <= now && Schedules(s.jobs, j, b) && IsDue(s.jobs.jobs[j], now)
  }

  ghost predicate Straddles(s: State, nodeNow: int, now: int)
  {
    exists b: nat, j: nat :: Straddler(s, b, j, nodeNow, now)
  }

  /** With no claim open, this is a query over bookings, listings and jobs. */
  lemma StraddlesUnclaimed(s: State, nodeNow: int, now: int)
    requires s.jobs.claims == map[]
    ensures Straddles(s, nodeNow, now) <==>
              exists j: nat :: j < |s.jobs.jobs| && IsDue(s.jobs.jobs[j], now) && s.jobs.jobs[j].payload.Promote?
                && var b := s.jobs.jobs[j].payload.booking; Awaits(s, b) && nodeNow < StartOf(s, b) <= now
  {
    if j: nat :| j < |s.jobs.jobs| && IsDue(s.jobs.jobs[j], now) && s.jobs.jobs[j].payload.Promote?
                && var b := s.jobs.jobs[j].payload.booking; Awaits(s, b) && nodeNow < StartOf(s, b) <= now {
      assert Straddler(s, s.jobs.jobs[j].payload.booking, j, nodeNow, now);
    }
  }

  // ---- a straddling booking stays so -----------------------------------------------------------

  lemma WorkStraddles(cfg: Config, s: State, step: Step, b: nat, j: nat, nodeNow: int, now: int)
    requires Outbox.ClaimsOk(s.jobs) && Unfailed(s.jobs) && Straddler(s, b, j, nodeNow, now)
    requires CanWork(s, step) && (step.Take? || step.Finish? || step.Commit?) && !FailsPromotion(s, Work(step))
    ensures Straddler(s.(jobs := Outbox.Apply(cfg.policy, s.jobs, step)), b, j, nodeNow, now)
  {
    var jobs, jobs' := s.jobs, Outbox.Apply(cfg.policy, s.jobs, step);
    assert Schedules(jobs, j, b);
    Outbox.UndeliveredStep(cfg.policy, jobs, step, j);
    assert jobs'.jobs[j] == jobs.jobs[j];
  }

  /** The handler of a row of the straddling booking secures another row, which is due as well. */
  lemma OwnHandlerStraddles(cfg: Config, s: State, w: nat, j0: nat, b: nat, nodeNow: int, now: int)
    requires cfg.policy.Valid() && Inv(cfg, s) && Unfailed(s.jobs) && Outbox.Running(s.jobs, w, j0)
    requires j0 < |s.jobs.jobs| && s.jobs.jobs[j0].payload == Promote(b)
    requires Awaits(s, b) && nodeNow < StartOf(s, b) <= now
    requires PromoteDue(s, b, Some(j0), StartOf(s, b), nodeNow, now).outcome != Unsecured
    ensures Straddles(SettlePromote(PromoteDue(s, b, Some(j0), StartOf(s, b), nodeNow, now), w, j0), nodeNow, now)
  {
    var at := StartOf(s, b);
    var r := SecureSchedule(s.jobs, b, at, Some(j0));
    SecureKeeps(cfg, s, b, at, Some(j0));
    var row := r.row.value;
    var step: Step := Outbox.Finish(w, j0, Outbox.Succeeded);
    Outbox.UndeliveredStep(cfg.policy, r.jobs, step, row);
    var s' := s.(jobs := Outbox.Apply(cfg.policy, r.jobs, step));
    assert Schedules(s'.jobs, row, b) && IsDue(s'.jobs.jobs[row], now);
    assert Straddler(s', b, row, nodeNow, now);
  }

  lemma OtherHandlerStraddles(cfg: Config, s: State, w: nat, j0: nat, b0: nat, start: int, b: nat, j: nat, nodeNow: int, now: int)
    requires cfg.policy.Valid() && Inv(cfg, s) && Straddler(s, b, j, nodeNow, now) && Outbox.Running(s.jobs, w, j0)
    requires j0 < |s.jobs.jobs| && s.jobs.jobs[j0].payload == Promote(b0) && b0 != b
    ensures Straddler(SettlePromote(PromoteDue(s, b0, Some(j0), start, nodeNow, now), w, j0), b, j, nodeNow, now)
  {
    var h := PromoteDue(s, b0, Some(j0), start, nodeNow, now);
    PromoteDueKeeps(cfg, s, b0, Some(j0), start, nodeNow, now);
    var jobs := h.state.jobs;
    assert Schedules(s.jobs, j, b) && jobs.jobs[j] == s.jobs.jobs[j];
    assert forall u :: Outbox.Holds(jobs, u, j) ==> Outbox.Holds(s.jobs, u, j);
    var v := if h.outcome == Unsecured then Outbox.Failed else Outbox.Succeeded;
    Outbox.UndeliveredStep(cfg.policy, jobs, Outbox.Finish(w, j0, v), j);
    assert Schedules(SettlePromote(h, w, j0).jobs, j, b);
  }

  /** While no promote handler fails, polling leaves some booking straddling. */
  lemma MoveStraddles(cfg: Config, s: State, a: Action, nodeNow: int, now: int)
    requires cfg.policy.Valid() && Inv(cfg, s) && Unfailed(s.jobs) && Straddles(s, nodeNow, now)
    requires PollMove(cfg, s, a, nodeNow, now) && !FailsPromotion(s, a)
    ensures Straddles(Apply(cfg, s, a), nodeNow, now)
  {
    var b: nat, j: nat :| Straddler(s, b, j, nodeNow, now);
    match a
    case Work(step) =>
      WorkStraddles(cfg, s, step, b, j, nodeNow, now);
    case RunPromote(w, j0, start, _, _) =>
      var b0 := s.jobs.jobs[j0].payload.booking;
      if b0 == b {
        OwnHandlerStraddles(cfg, s, w, j0, b, nodeNow, now);
      } else {
        OtherHandlerStraddles(cfg, s, w, j0, b0, start, b, j, nodeNow, now);
      }
  }

  lemma {:induction false} TraceStraddles(cfg: Config, t: Trace, k: nat, nodeNow: int, now: int)
    requires cfg.policy.Valid() && IsPoll(cfg, t, nodeNow, now, true) && k < |t.states|
    requires Inv(cfg, t.states[0]) && Unfailed(t.states[0].jobs) && Straddles(t.states[0], nodeNow, now)
    ensures Straddles(t.states[k], nodeNow, now)
  {
    if k > 0 {
      TraceStraddles(cfg, t, k - 1, nodeNow, now);
      TraceKeeps(cfg, t, k - 1, nodeNow, now, true);
      TraceStraddlesNext(cfg, t, k, nodeNow, now);
    }
  }

  lemma TraceStraddlesNext(cfg: Config, t: Trace, k: nat, nodeNow: int, now: int)
    requires cfg.policy.Valid() && IsPoll(cfg, t, nodeNow, now, true) && 0 < k < |t.states|
    requires Inv(cfg, t.states[k - 1]) && Unfailed(t.states[k - 1].jobs) && Straddles(t.states[k - 1], nodeNow, now)
    ensures Straddles(t.states[k], nodeNow, now)
  {
    assert Moves(cfg, t.states[k - 1], t.actions[k - 1], t.states[k], nodeNow, now, true);
    MoveStraddles(cfg, t.states[k - 1], t.actions[k - 1], nodeNow, now);
  }

  // ---- a booking does not become so ------------------------------------------------------------

  /** A straddling row found after a step that appended no due promotion was one before it. */
  lemma StraddledBefore(s: State, s': State, b: nat, j: nat, nodeNow: int, now: int)
    requires Straddler(s', b, j, nodeNow, now) && (Awaits(s', b) ==> Awaits(s, b) && StartOf(s', b) == StartOf(s, b))
    requires j < |s.jobs.jobs| && s.jobs.jobs[j].payload == s'.jobs.jobs[j].payload && IsDue(s.jobs.jobs[j], now)
    requires !Outbox.Spent(s.jobs, j)
    ensures Straddles(s, nodeNow, now)
  {
    assert Schedules(s.jobs, j, b);
    assert Straddler(s, b, j, nodeNow, now);
  }

  lemma NoStraddlerFromWork(cfg: Config, s: State, step: Step, nodeNow: int, now: int)
    requires cfg.policy.Valid() && Outbox.ClaimsOk(s.jobs) && CanWork(s, step) && (step.Take? || step.Finish? || step.Commit?)
    requires Straddles(s.(jobs := Outbox.Apply(cfg.policy, s.jobs, step)), nodeNow, now)
    ensures Straddles(s, nodeNow, now)
  {
    var s' := s.(jobs := Outbox.Apply(cfg.policy, s.jobs, step));
    var b: nat, j: nat :| Straddler(s', b, j, nodeNow, now);
    SamePurpose(cfg, s.jobs, step);
    assert Schedules(s'.jobs, j, b);
    SpentStays(cfg, s.jobs, step, j);
    StraddledBefore(s, s', b, j, nodeNow, now);
  }

  /** A row decided before is decided, or delivered, after. */
  lemma SpentStays(cfg: Config, jobs: Jobs, step: Step, j: nat)
    requires Outbox.ClaimsOk(jobs) && Outbox.Enabled(jobs, step) && (step.Take? || step.Finish? || step.Commit?)
    requires Outbox.Undelivered(Outbox.Apply(cfg.policy, jobs, step), j)
    ensures !Outbox.Spent(jobs, j)
  {
    var jobs' := Outbox.Apply(cfg.policy, jobs, step);
    forall w | w in jobs.claims && Outbox.Holds(jobs, w, j)
      ensures jobs.claims[w].verdicts[j] != Outbox.Succeeded
    {
      if step.Commit? && w == step.worker {
        assert jobs'.jobs[j].status != Outbox.Delivered;
      } else {
        assert Outbox.Holds(jobs', w, j);
      }
    }
  }

  /** Rows a handler adds, unless its booking straddles: none of them is a due promotion. */
  lemma HandlerRows(s: State, b: nat, delivering: Option<nat>, start: int, nodeNow: int, now: int)
    requires !Awaits(s, b) || start <= nodeNow || now < start
    ensures var jobs' := PromoteDue(s, b, delivering, start, nodeNow, now).state.jobs;
      && s.jobs.jobs <= jobs'.jobs
      && forall j :: |s.jobs.jobs| <= j < |jobs'.jobs| ==> !(jobs'.jobs[j].payload.Promote? && IsDue(jobs'.jobs[j], now))
  {
    if Awaits(s, b) && start <= nodeNow {
      Outbox.EnqueueAllAppends(s.jobs, Notices(b, Started, Participants(s, b), now));
    }
  }

  /** When nothing straddles, the handler of a due row finds no start between the clocks, and leaves nothing straddling. */
  lemma NoStraddlerFromHandler(cfg: Config, s: State, a: Action, nodeNow: int, now: int)
    requires cfg.policy.Valid() && Inv(cfg, s) && PollMove(cfg, s, a, nodeNow, now) && a.RunPromote?
    requires IsDue(s.jobs.jobs[a.job], now) && !Straddles(s, nodeNow, now)
    ensures !RunsInGap(s, a) && !Straddles(Apply(cfg, s, a), nodeNow, now)
  {
    var j0, b0 := a.job, s.jobs.jobs[a.job].payload.booking;
    assert Schedules(s.jobs, j0, b0);
    assert !Straddler(s, b0, j0, nodeNow, now);
    HandlerRows(s, b0, Some(j0), a.start, nodeNow, now);
    if Straddles(Apply(cfg, s, a), nodeNow, now) {
      HandlerStraddledBefore(cfg, s, a, nodeNow, now);
      assert false;
    }
  }

  lemma HandlerStraddledBefore(cfg: Config, s: State, a: Action, nodeNow: int, now: int)
    requires cfg.policy.Valid() && Inv(cfg, s) && PollMove(cfg, s, a, nodeNow, now) && a.RunPromote? && !RunsInGap(s, a)
    requires Straddles(Apply(cfg, s, a), nodeNow, now)
    ensures Straddles(s, nodeNow, now)
  {
    var s', w, j0, b0 := Apply(cfg, s, a), a.worker, a.job, s.jobs.jobs[a.job].payload.booking;
    HandlerRows(s, b0, Some(j0), a.start, nodeNow, now);
    PromoteDueKeeps(cfg, s, b0, Some(j0), a.start, nodeNow, now);
    var h := PromoteDue(s, b0, Some(j0), a.start, nodeNow, now);
    var v := if h.outcome == Unsecured then Outbox.Failed else Outbox.Succeeded;
    var b: nat, j: nat :| Straddler(s', b, j, nodeNow, now);
    assert Schedules(s'.jobs, j, b) && s'.jobs.jobs == h.state.jobs.jobs;
    assert j < |s.jobs.jobs|;
    SpentStays(cfg, h.state.jobs, Outbox.Finish(w, j0, v), j);
    assert forall u :: Outbox.Holds(s.jobs, u, j) ==> Outbox.Holds(h.state.jobs, u, j);
    assert s'.jobs.jobs[j] == s.jobs.jobs[j];
    StraddledBefore(s, s', b, j, nodeNow, now);
  }
}
