/** The polling worker's moves, and what the runs of the machine they make up keep. */
module Polling {
  import opened Tables
  import opened Bookings
  import opened BookingInvariants
  import opened BookingTheorems
  import opened Timely
  import opened Draining
  import Outbox

  datatype JobOutcome = DoneJob | Retried | DeadLettered

  /** promotionsFailed is a history variable: how many of the retried and dead-lettered rows are promotions. */
  datatype Stats = Stats(claimed: nat, delivered: nat, retried: nat, deadLettered: nat, promotionsFailed: nat)

  function Tally(stats: Stats, outcome: JobOutcome, promotion: bool): Stats
  {
    var counted := if outcome != DoneJob && promotion then stats.(promotionsFailed := stats.promotionsFailed + 1) else stats;
    match outcome
    case DoneJob => counted.(delivered := stats.delivered + 1)
    case Retried => counted.(retried := stats.retried + 1)
    case DeadLettered => counted.(deadLettered := stats.deadLettered + 1)
  }

  function Tallied(stats: Stats, outcome: JobOutcome): nat
  {
    match outcome
    case DoneJob => stats.delivered
    case Retried => stats.retried
    case DeadLettered => stats.deadLettered
  }

  /** What becomes of a row by that outcome. */
  function StatusFor(outcome: JobOutcome): Outbox.Status
  {
    match outcome
    case DoneJob => Outbox.Delivered
    case Retried => Outbox.Pending
    case DeadLettered => Outbox.Dead
  }

  function HasStatus(jobs: Jobs, status: Outbox.Status): nat -> bool
  {
    (j: nat) => j < |jobs.jobs| && jobs.jobs[j].status == status
  }

  predicate Claimable(jobs: Jobs, j: nat, now: int)
  {
    Outbox.IsLive(jobs, j) && jobs.jobs[j].availableAt <= now
  }

  ghost predicate NoneClaimable(jobs: Jobs, now: int)
  {
    forall j: nat :: !Claimable(jobs, j, now)
  }

  /** The claim order: by instant, then by row. */
  predicate Older(jobs: Jobs, i: nat, j: nat)
  {
    && i < |jobs.jobs| && j < |jobs.jobs|
    && (jobs.jobs[i].availableAt < jobs.jobs[j].availableAt
        || (jobs.jobs[i].availableAt == jobs.jobs[j].availableAt && i < j))
  }

  /** What the claim query returns: the oldest due rows that nobody has locked, in order, at most limit of them. */
  ghost predicate IsOldestBatch(jobs: Jobs, ids: seq<nat>, limit: nat, now: int)
  {
    && |ids| <= limit
    && (forall i :: 0 <= i < |ids| ==> Claimable(jobs, ids[i], now))
    && (forall i, k :: 0 <= i < k < |ids| ==> Older(jobs, ids[i], ids[k]))
    && (forall j: nat, i :: Claimable(jobs, j, now) && j !in ids && 0 <= i < |ids| ==> Older(jobs, ids[i], j))
    && (|ids| < limit ==> forall j: nat :: Claimable(jobs, j, now) ==> j in ids)
  }

  // ---- polling runs ----------------------------------------------------------------------------

  function StartIfAny(s: State, b: nat): int
  {
    if b < |s.bookings| && s.bookings[b].listing < |s.listings| then StartOf(s, b) else 0
  }

  /** A claim at now, a handler reading the tables at now, the report of another handler, or a commit. */
  predicate PollMove(cfg: Config, s: State, a: Action, nodeNow: int, now: int)
  {
    && Enabled(cfg, s, a)
    && match a
       case RunPromote(_, j, start, nodeNow', now') =>
         nodeNow' == nodeNow && now' == now && start == StartIfAny(s, s.jobs.jobs[j].payload.booking)
       case Work(step) => (step.Take? && step.at == now) || step.Finish? || step.Commit?
       case _ => false
  }

  /** What fails outside these tables, by row and what the row is for: a handler that meets it throws. */
  type Faults = (nat, Payload) -> bool

  function NoFaults(): Faults
  {
    (j: nat, payload: Payload) => false
  }

  /**
   * A handler runs. A row whose handler meets an outside fault is reported failed; otherwise a promote row's handler
   * transaction takes place, and any other row is reported done.
   */
  predicate Obeys(s: State, a: Action, fault: Faults)
  {
    match a
    case RunPromote(_, j, _, _, _) => j < |s.jobs.jobs| && !fault(j, s.jobs.jobs[j].payload)
    case Work(Finish(_, j, v)) =>
      j < |s.jobs.jobs| && v == if fault(j, s.jobs.jobs[j].payload) then Outbox.Failed else Outbox.Succeeded
    case _ => true
  }

  /** No promote handler meets an outside fault; those of other rows may. */
  ghost predicate SparesPromotions(fault: Faults)
  {
    forall j: nat, b: nat :: !fault(j, Promote(b))
  }

  ghost predicate Faultless(fault: Faults)
  {
    forall j: nat, payload: Payload :: !fault(j, payload)
  }

  /** On one clock no promote handler then fails: the handler itself never throws. */
  lemma NoFaultIsClean(cfg: Config, s: State, a: Action, w: nat, j: nat, fault: Faults, now: int)
    requires cfg.policy.Valid() && Inv(cfg, s) && OnTime(s, now) && j < |s.jobs.jobs| && Outbox.Running(s.jobs, w, j)
    requires PollMove(cfg, s, a, now, now) && Handles(a, w, j, now, now) && Obeys(s, a, fault)
    requires s.jobs.jobs[j].payload.Promote? ==> !fault(j, s.jobs.jobs[j].payload)
    ensures !FailsPromotion(s, a)
    ensures s.jobs.jobs[j].payload.Promote? ==>
      var b := s.jobs.jobs[j].payload.booking; !Awaits(Apply(cfg, s, a), b) || StartOf(Apply(cfg, s, a), b) > now
  {
    if s.jobs.jobs[j].payload.Promote? {
      var b := s.jobs.jobs[j].payload.booking;
      assert Outbox.Holds(s.jobs, w, j);
      PromoteOnTime(cfg, s, b, Some(j), StartIfAny(s, b), now);
    }
  }

  /** One poll move; in a clean poll no promote handler fails. */
  ghost predicate Moves(cfg: Config, s: State, a: Action, s': State, nodeNow: int, now: int, clean: bool)
  {
    PollMove(cfg, s, a, nodeNow, now) && (clean ==> !FailsPromotion(s, a)) && s' == Apply(cfg, s, a)
  }

  datatype Trace = Trace(states: seq<State>, actions: seq<Action>)

  ghost predicate IsPoll(cfg: Config, t: Trace, nodeNow: int, now: int, clean: bool)
  {
    && |t.states| == |t.actions| + 1
    && forall i :: 0 <= i < |t.actions| ==> Moves(cfg, t.states[i], t.actions[i], t.states[i + 1], nodeNow, now, clean)
  }

  ghost predicate Joins(t: Trace, s: State, s': State)
  {
    |t.states| > 0 && t.states[0] == s && t.states[|t.states| - 1] == s'
  }

  /** Poll moves, at one instant of each clock, lead from s to s'. */
  ghost predicate Via(cfg: Config, s: State, s': State, nodeNow: int, now: int, clean: bool)
  {
    exists t :: IsPoll(cfg, t, nodeNow, now, clean) && Joins(t, s, s')
  }

  lemma ViaNowhere(cfg: Config, s: State, nodeNow: int, now: int)
    ensures Via(cfg, s, s, nodeNow, now, true)
  {
    assert IsPoll(cfg, Trace([s], []), nodeNow, now, true) && Joins(Trace([s], []), s, s);
  }

  lemma TracesJoin(cfg: Config, t: Trace, t': Trace, s: State, s': State, s'': State, nodeNow: int, now: int, clean: bool)
    requires IsPoll(cfg, t, nodeNow, now, clean) && Joins(t, s, s')
    requires IsPoll(cfg, t', nodeNow, now, clean) && Joins(t', s', s'')
    ensures var both := Trace(t.states + t'.states[1..], t.actions + t'.actions);
      IsPoll(cfg, both, nodeNow, now, clean) && Joins(both, s, s'')
  {
    var n := |t.actions|;
    var both := Trace(t.states + t'.states[1..], t.actions + t'.actions);
    forall i | 0 <= i < |both.actions|
      ensures Moves(cfg, both.states[i], both.actions[i], both.states[i + 1], nodeNow, now, clean)
    {
      if i < n {
        assert both.states[i] == t.states[i] && both.actions[i] == t.actions[i] && both.states[i + 1] == t.states[i + 1];
      } else {
        assert both.states[i] == t'.states[i - n] && both.actions[i] == t'.actions[i - n] && both.states[i + 1] == t'.states[i - n + 1];
      }
    }
  }

  lemma ViaTwice(cfg: Config, s: State, s': State, s'': State, nodeNow: int, now: int, clean: bool, clean': bool)
    requires Via(cfg, s, s', nodeNow, now, clean) && Via(cfg, s', s'', nodeNow, now, clean')
    ensures Via(cfg, s, s'', nodeNow, now, clean && clean')
  {
    var both := clean && clean';
    var t :| IsPoll(cfg, t, nodeNow, now, both) && Joins(t, s, s');
    var t' :| IsPoll(cfg, t', nodeNow, now, both) && Joins(t', s', s'');
    TracesJoin(cfg, t, t', s, s', s'', nodeNow, now, both);
  }

  lemma ViaOne(cfg: Config, s: State, a: Action, nodeNow: int, now: int, clean: bool)
    requires PollMove(cfg, s, a, nodeNow, now) && (clean ==> !FailsPromotion(s, a))
    ensures Via(cfg, s, Apply(cfg, s, a), nodeNow, now, clean)
  {
    var t := Trace([s, Apply(cfg, s, a)], [a]);
    assert Moves(cfg, t.states[0], t.actions[0], t.states[1], nodeNow, now, clean);
    assert IsPoll(cfg, t, nodeNow, now, clean) && Joins(t, s, Apply(cfg, s, a));
  }

  // ---- what polling keeps ----------------------------------------------------------------------

  lemma MoveOnTime(cfg: Config, s: State, a: Action, now: int)
    requires cfg.policy.Valid() && Inv(cfg, s) && OnTime(s, now) && PollMove(cfg, s, a, now, now)
    ensures OnTime(Apply(cfg, s, a), now)
  {
    assert Allowed(cfg, s, a, now);
    StepOnTime(cfg, s, a, now);
  }

  lemma MoveKeeps(cfg: Config, s0: State, s: State, a: Action, nodeNow: int, now: int, clean: bool)
    requires cfg.policy.Valid() && Inv(cfg, s) && Leads(cfg, s0, s)
    requires PollMove(cfg, s, a, nodeNow, now) && (clean ==> !FailsPromotion(s, a))
    ensures var s' := Apply(cfg, s, a);
      && Inv(cfg, s') && Leads(cfg, s0, s')
      && (nodeNow == now && OnTime(s, now) ==> OnTime(s', now))
      && (clean && Unfailed(s.jobs) ==> Unfailed(s'.jobs))
  {
    StepKeeps(cfg, s, a);
    LeadsOn(cfg, s0, s, a);
    if nodeNow == now && OnTime(s, now) {
      MoveOnTime(cfg, s, a, now);
    }
    if clean && Unfailed(s.jobs) {
      StepUnfailed(cfg, s, a);
    }
  }

  lemma {:induction false} TraceKeeps(cfg: Config, t: Trace, k: nat, nodeNow: int, now: int, clean: bool)
    requires cfg.policy.Valid() && IsPoll(cfg, t, nodeNow, now, clean) && k < |t.states| && Inv(cfg, t.states[0])
    ensures Inv(cfg, t.states[k]) && Leads(cfg, t.states[0], t.states[k])
    ensures nodeNow == now && OnTime(t.states[0], now) ==> OnTime(t.states[k], now)
    ensures clean && Unfailed(t.states[0].jobs) ==> Unfailed(t.states[k].jobs)
  {
    if k == 0 {
      LeadsNowhere(cfg, t.states[0]);
    } else {
      TraceKeeps(cfg, t, k - 1, nodeNow, now, clean);
      assert Moves(cfg, t.states[k - 1], t.actions[k - 1], t.states[k], nodeNow, now, clean);
      MoveKeeps(cfg, t.states[0], t.states[k - 1], t.actions[k - 1], nodeNow, now, clean);
    }
  }

  lemma ViaKeeps(cfg: Config, s: State, s': State, nodeNow: int, now: int, clean: bool)
    requires cfg.policy.Valid() && Inv(cfg, s) && Via(cfg, s, s', nodeNow, now, clean)
    ensures Inv(cfg, s') && Leads(cfg, s, s')
    ensures nodeNow == now && OnTime(s, now) ==> OnTime(s', now)
    ensures clean && Unfailed(s.jobs) ==> Unfailed(s'.jobs)
  {
    var t :| IsPoll(cfg, t, nodeNow, now, clean) && Joins(t, s, s');
    TraceKeeps(cfg, t, |t.states| - 1, nodeNow, now, clean);
  }
}
