/**
 * The schedule under a single clock: the database and every Node process read the same instant, a new
 * start is in the future when its transaction commits, and a promote handler reads and commits at one
 * instant. Any number of workers, crashes, failures, requeues and reschedules remain possible.
 */
module Timely {
  import opened Tables
  import opened Bookings
  import opened BookingInvariants
  import opened BookingTheorems
  import Outbox

  /** The handler reads the listing and both clocks at the instant now. */
  predicate ReadsNow(s: State, b: nat, start: int, nodeNow: int, at: int, now: int)
  {
    nodeNow == now && at == now && (b < |s.bookings| && s.bookings[b].listing < |s.listings| ==> start == StartOf(s, b))
  }

  /** The actions one clock allows at the instant now. */
  predicate Allowed(cfg: Config, s: State, a: Action, now: int)
  {
    && Enabled(cfg, s, a)
    && match a
       case CreateListing(row, at) => row.start > now && at == now
       case UpdateListing(_, patch, _, _, at) => at == now && (patch.start.Some? ==> patch.start.value > now)
       case CancelListing(_, at) => at == now
       case CreateBooking(_, _, at) => at == now
       case CancelBooking(b, _, start, at) => start == StartOf(s, b) && at == now
       case ConfirmBooking(_, _, at) => at == now
       case RunPromote(_, j, start, nodeNow, at) => ReadsNow(s, s.jobs.jobs[j].payload.booking, start, nodeNow, at, now)
       case RunDetached(b, delivering, start, nodeNow, at) =>
         && ReadsNow(s, b, start, nodeNow, at, now)
         && (delivering.Some? ==> !Ahead(s.jobs.jobs[delivering.value], now))
       case Work(Take(_, at, _)) => at == now
       case Work(Reopen(_, at)) => at == now
       case _ => true
  }

  /** A base promote row whose instant has not come. */
  predicate Ahead(job: Outbox.Job<Payload, Key>, now: int)
  {
    job.key.Some? && job.key.value.PromotionAt? && job.key.value.at > now
  }

  /** Exactly as it was enqueued: pending at its instant, never attempted, locked by nobody. */
  ghost predicate Untouched(jobs: Jobs, j: nat)
    requires j < |jobs.jobs| && jobs.jobs[j].key.Some? && jobs.jobs[j].key.value.PromotionAt?
  {
    && jobs.jobs[j] == Outbox.NewJob(Promotion(jobs.jobs[j].key.value.booking, jobs.jobs[j].key.value.at))
    && !Outbox.Locked(jobs, j)
  }

  ghost predicate AheadUntouched(jobs: Jobs, now: int)
  {
    forall j: nat :: j < |jobs.jobs| && Ahead(jobs.jobs[j], now) ==> Untouched(jobs, j)
  }

  ghost predicate NeverAgain(jobs: Jobs)
  {
    forall j :: 0 <= j < |jobs.jobs| ==> !(jobs.jobs[j].key.Some? && jobs.jobs[j].key.value.PromotionAgain?)
  }

  /** Row j carries the base key of booking b at the given instant and is yet to be delivered. */
  ghost predicate Covers(jobs: Jobs, j: nat, b: nat, at: int)
  {
    Outbox.Undelivered(jobs, j) && jobs.jobs[j].key == Some(PromotionAt(b, at))
  }

  ghost predicate Covered(jobs: Jobs, b: nat, at: int)
  {
    exists j :: Covers(jobs, j, b, at)
  }

  ghost predicate OnTime(s: State, now: int)
  {
    && AheadUntouched(s.jobs, now) && NeverAgain(s.jobs)
    && forall b :: Awaits(s, b) ==> Covered(s.jobs, b, StartOf(s, b))
  }

  // ---- growing the outbox on time --------------------------------------------------------------

  /** Postings that use base keys with their own instant, and never the fallback key. */
  ghost predicate Punctual(ps: seq<Posting>)
  {
    forall i :: 0 <= i < |ps| && ps[i].key.Some? ==>
      && !ps[i].key.value.PromotionAgain?
      && (ps[i].key.value.PromotionAt? ==> ps[i] == Promotion(ps[i].key.value.booking, ps[i].key.value.at))
  }

  /** Appending rows leaves every covered booking covered. */
  lemma AppendKeepsCover(jobs: Jobs, jobs': Jobs, b: nat, at: int)
    requires jobs.jobs <= jobs'.jobs && jobs'.claims == jobs.claims && Covered(jobs, b, at)
    ensures Covered(jobs', b, at)
  {
    var j :| Covers(jobs, j, b, at);
    assert forall w :: Outbox.Holds(jobs', w, j) ==> Outbox.Holds(jobs, w, j);
    assert Covers(jobs', j, b, at);
  }

  lemma PostOnTime(jobs: Jobs, ps: seq<Posting>, now: int)
    requires Outbox.ClaimsOk(jobs) && AheadUntouched(jobs, now) && NeverAgain(jobs) && Punctual(ps)
    ensures var jobs' := Outbox.EnqueueAll(jobs, ps);
      && AheadUntouched(jobs', now) && NeverAgain(jobs')
      && jobs.jobs <= jobs'.jobs && jobs'.claims == jobs.claims
  {
    Outbox.EnqueueAllAppends(jobs, ps);
    var jobs' := Outbox.EnqueueAll(jobs, ps);
    forall j: nat | j < |jobs'.jobs|
      ensures Ahead(jobs'.jobs[j], now) ==> Untouched(jobs', j)
      ensures !(jobs'.jobs[j].key.Some? && jobs'.jobs[j].key.value.PromotionAgain?)
    {
      assert forall w :: Outbox.Holds(jobs', w, j) ==> Outbox.Holds(jobs, w, j);
      if j < |jobs.jobs| {
        assert jobs'.jobs[j] == jobs.jobs[j];
      } else {
        var i :| 0 <= i < |ps| && jobs'.jobs[j] == Outbox.NewJob(ps[i]);
      }
    }
  }

  /** A promotion posted for an instant to come covers its booking, whether or not it was deduplicated. */
  lemma PostCovers(jobs: Jobs, ps: seq<Posting>, i: nat, b: nat, at: int, now: int)
    requires Outbox.ClaimsOk(jobs) && AheadUntouched(jobs, now) && NeverAgain(jobs) && Punctual(ps)
    requires i < |ps| && ps[i] == Promotion(b, at) && at > now
    ensures Covered(Outbox.EnqueueAll(jobs, ps), b, at)
  {
    var jobs' := Outbox.EnqueueAll(jobs, ps);
    Outbox.EnqueueAllAppends(jobs, ps);
    PostOnTime(jobs, ps, now);
    assert Outbox.HasKey(jobs', ps[i].key.value);
    var j: nat :| j < |jobs'.jobs| && jobs'.jobs[j].key == ps[i].key;
    assert Untouched(jobs', j);
    assert Covers(jobs', j, b, at);
  }

  // ---- the promote handler on time -------------------------------------------------------------

  /**
   * A stale row delivered before the current start always secures on the row that start was given, which
   * is untouched: nothing is enqueued, and the fallback key is never needed.
   */
  lemma StaleRowSecures(cfg: Config, s: State, b: nat, delivering: Option<nat>, now: int)
    requires Outbox.UniqueKeys(s.jobs.jobs) && OnTime(s, now) && Awaits(s, b) && StartOf(s, b) > now
    requires delivering.Some? ==> delivering.value < |s.jobs.jobs| &&
                                  (Outbox.Locked(s.jobs, delivering.value) || !Ahead(s.jobs.jobs[delivering.value], now))
    ensures var r := SecureSchedule(s.jobs, b, StartOf(s, b), delivering);
      && r.jobs == s.jobs && r.row.Some? && r.row != delivering
      && Covers(s.jobs, r.row.value, b, StartOf(s, b)) && Untouched(s.jobs, r.row.value)
  {
    var at := StartOf(s, b);
    var j :| Covers(s.jobs, j, b, at);
    assert Untouched(s.jobs, j);
    var i := Outbox.Find(s.jobs.jobs, PromotionAt(b, at)).value;
    assert i == j;
  }

  /** At or after the start the handler starts the booking; before it, it reschedules; it never throws. */
  lemma PromoteOnTime(cfg: Config, s: State, b: nat, delivering: Option<nat>, start: int, now: int)
    requires cfg.policy.Valid() && Inv(cfg, s) && OnTime(s, now)
    requires ReadsNow(s, b, start, now, now, now)
    requires delivering.Some? ==> delivering.value < |s.jobs.jobs| &&
                                  (Outbox.Locked(s.jobs, delivering.value) || !Ahead(s.jobs.jobs[delivering.value], now))
    ensures var h := PromoteDue(s, b, delivering, start, now, now);
      && OnTime(h.state, now)
      && h.outcome == (if !Awaits(s, b) then Noop else if start > now then Rescheduled else Promoted)
      && (h.outcome != Promoted ==> h.state == s)
      && (Awaits(h.state, b) ==> StartOf(h.state, b) > now)
  {
    if Awaits(s, b) {
      if start > now {
        StaleRowSecures(cfg, s, b, delivering, now);
      } else {
        StartOnTime(cfg, s, b, now);
      }
    }
  }

  lemma StartOnTime(cfg: Config, s: State, b: nat, now: int)
    requires Outbox.ClaimsOk(s.jobs) && OnTime(s, now) && Awaits(s, b)
    ensures OnTime(Start(s, b, now), now) && !Awaits(Start(s, b, now), b)
  {
    QuietlyOnTime(cfg, s, Start(s, b, now), Notices(b, Started, Participants(s, b), now), now);
  }

  /** A transaction that posts no promotion and leaves awaiting bookings and their starts alone. */
  lemma QuietlyOnTime(cfg: Config, s: State, s': State, ps: seq<Posting>, now: int)
    requires Outbox.ClaimsOk(s.jobs) && OnTime(s, now) && Punctual(ps)
    requires s'.jobs == Outbox.EnqueueAll(s.jobs, ps)
    requires forall c: nat :: Awaits(s', c) ==> Awaits(s, c) && StartOf(s', c) == StartOf(s, c)
    ensures OnTime(s', now)
  {
    PostOnTime(s.jobs, ps, now);
    forall c: nat | Awaits(s', c)
      ensures Covered(s'.jobs, c, StartOf(s', c))
    {
      assert Awaits(s, c);
      AppendKeepsCover(s.jobs, s'.jobs, c, StartOf(s, c));
    }
  }

  lemma RunPromoteOnTime(cfg: Config, s: State, w: nat, j: nat, start: int, now: int)
    requires cfg.policy.Valid() && Inv(cfg, s) && OnTime(s, now)
    requires Allowed(cfg, s, RunPromote(w, j, start, now, now), now)
    ensures OnTime(Apply(cfg, s, RunPromote(w, j, start, now, now)), now)
  {
    var b := s.jobs.jobs[j].payload.booking;
    assert Outbox.Holds(s.jobs, w, j);
    PromoteOnTime(cfg, s, b, Some(j), start, now);
    PromoteDueKeeps(cfg, s, b, Some(j), start, now, now);
    SettleOnTime(cfg, PromoteDue(s, b, Some(j), start, now, now), w, j, now);
  }

  /** Reporting a promote row done uncovers nobody: its own booking, if still awaiting, is covered by a later row. */
  lemma SettleOnTime(cfg: Config, h: Handled, w: nat, j: nat, now: int)
    requires Outbox.ClaimsOk(h.state.jobs) && Routed(h.state.jobs, |h.state.bookings|) && OnTime(h.state, now) && h.outcome != Unsecured
    requires Outbox.Running(h.state.jobs, w, j)
    requires j < |h.state.jobs.jobs| && h.state.jobs.jobs[j].payload.Promote?
    requires var b := h.state.jobs.jobs[j].payload.booking; Awaits(h.state, b) ==> StartOf(h.state, b) > now
    ensures OnTime(SettlePromote(h, w, j), now)
  {
    var s, s' := h.state, SettlePromote(h, w, j);
    var step: Step := Outbox.Finish(w, j, Outbox.Succeeded);
    assert s'.jobs == Outbox.Apply(cfg.policy, s.jobs, step);
    forall c: nat | Awaits(s', c)
      ensures Covered(s'.jobs, c, StartOf(s', c))
    {
      assert Awaits(s, c);
      var i :| Covers(s.jobs, i, c, StartOf(s, c));
      assert Covers(s'.jobs, i, c, StartOf(s', c));
    }
  }

  // ---- every action on time --------------------------------------------------------------------

  lemma CancelListingOnTime(cfg: Config, s: State, l: nat, now: int)
    requires Outbox.ClaimsOk(s.jobs) && OnTime(s, now) && Enabled(cfg, s, CancelListing(l, now))
    ensures OnTime(Apply(cfg, s, CancelListing(l, now)), now)
  {
    var s' := Apply(cfg, s, CancelListing(l, now));
    QuietlyOnTime(cfg, s, s', Farewells(s.bookings, Affected(s.bookings, l), now), now);
  }

  lemma CancelOnTime(cfg: Config, s: State, b: nat, byGuest: bool, now: int)
    requires Outbox.ClaimsOk(s.jobs) && OnTime(s, now) && b < |s.bookings| && s.bookings[b].listing < |s.listings|
    ensures OnTime(Cancel(s, b, byGuest, now), now)
  {
    var e := if byGuest then CancelledByGuest else CancelledByHost;
    QuietlyOnTime(cfg, s, Cancel(s, b, byGuest, now), Notices(b, e, Participants(s, b), now), now);
  }

  lemma ConfirmOnTime(cfg: Config, s: State, b: nat, byGuest: bool, now: int)
    requires Outbox.ClaimsOk(s.jobs) && OnTime(s, now) && CanConfirm(s, b, byGuest)
    ensures OnTime(Confirm(s, b, byGuest, now), now)
  {
    var completes := Confirmed(s.bookings[b], byGuest).status == Completed;
    QuietlyOnTime(cfg, s, Confirm(s, b, byGuest, now), if completes then Notices(b, Finished, Participants(s, b), now) else [], now);
  }

  lemma CreateListingOnTime(cfg: Config, s: State, row: Listing, now: int)
    requires Outbox.ClaimsOk(s.jobs) && Linked(s) && OnTime(s, now) && Enabled(cfg, s, CreateListing(row, now))
    ensures OnTime(Apply(cfg, s, CreateListing(row, now)), now)
  {
    var l := |s.listings|;
    QuietlyOnTime(cfg, s, Apply(cfg, s, CreateListing(row, now)),
                  [Outbox.Posting(Geocode(l), None, now), Outbox.Posting(Scan(l), None, now)], now);
  }

  lemma ModerateOnTime(cfg: Config, s: State, l: nat, verdict: Moderation, now: int)
    requires Outbox.ClaimsOk(s.jobs) && OnTime(s, now) && Enabled(cfg, s, Moderate(l, verdict))
    ensures OnTime(Apply(cfg, s, Moderate(l, verdict)), now)
  {
    QuietlyOnTime(cfg, s, Apply(cfg, s, Moderate(l, verdict)), [], now);
  }

  lemma BookOnTime(cfg: Config, s: State, guest: nat, l: nat, now: int)
    requires cfg.policy.Valid() && Inv(cfg, s) && OnTime(s, now) && CanBook(cfg, s, guest, l, now)
    ensures OnTime(Book(s, guest, l, now), now)
  {
    var s', ps := Book(s, guest, l, now), BookPostings(s, guest, l, now);
    PostOnTime(s.jobs, ps, now);
    PostCovers(s.jobs, ps, 2, |s.bookings|, s.listings[l].start, now);
    forall c: nat | Awaits(s', c) && c != |s.bookings|
      ensures Covered(s'.jobs, c, StartOf(s', c))
    {
      assert Awaits(s, c);
      AppendKeepsCover(s.jobs, s'.jobs, c, StartOf(s, c));
    }
  }

  /** A reschedule gives every pending booking its row at the new instant, old, new or back again. */
  lemma UpdateOnTime(cfg: Config, s: State, l: nat, patch: Patch, late: nat, fanout: seq<nat>, now: int)
    requires Outbox.ClaimsOk(s.jobs) && OnTime(s, now)
    requires CanUpdate(s, l, patch, late, fanout) && (patch.start.Some? ==> patch.start.value > now)
    ensures OnTime(Update(s, l, patch, late, fanout, now), now)
  {
    var s' := Update(s, l, patch, late, fanout, now);
    var ps := UpdatePostings(l, s'.listings[l], patch, fanout, now);
    UpdateIsPunctual(l, s'.listings[l], patch, fanout, now);
    PostOnTime(s.jobs, ps, now);
    forall c: nat | Awaits(s', c)
      ensures Covered(s'.jobs, c, StartOf(s', c))
    {
      UpdateCovers(s, l, patch, late, fanout, c, now);
    }
  }

  lemma UpdateIsPunctual(l: nat, row: Listing, patch: Patch, fanout: seq<nat>, now: int)
    ensures Punctual(UpdatePostings(l, row, patch, fanout, now))
  {
  }

  lemma UpdateCovers(s: State, l: nat, patch: Patch, late: nat, fanout: seq<nat>, c: nat, now: int)
    requires Outbox.ClaimsOk(s.jobs) && AheadUntouched(s.jobs, now) && NeverAgain(s.jobs)
    requires CanUpdate(s, l, patch, late, fanout) && (patch.start.Some? ==> patch.start.value > now)
    requires Awaits(s, c) && Covered(s.jobs, c, StartOf(s, c))
    ensures var s' := Update(s, l, patch, late, fanout, now); Awaits(s', c) && Covered(s'.jobs, c, StartOf(s', c))
  {
    var s' := Update(s, l, patch, late, fanout, now);
    var ps := UpdatePostings(l, s'.listings[l], patch, fanout, now);
    UpdateIsPunctual(l, s'.listings[l], patch, fanout, now);
    if s.bookings[c].listing == l && patch.start.Some? {
      var i := PlaceOf(l, s'.listings[l], patch, fanout, now, c);
      PostCovers(s.jobs, ps, i, c, patch.start.value, now);
    } else {
      PostOnTime(s.jobs, ps, now);
      AppendKeepsCover(s.jobs, s'.jobs, c, StartOf(s, c));
    }
  }

  /** Where the fan-out posts the promotion of a booking it lists. */
  lemma PlaceOf(l: nat, row: Listing, patch: Patch, fanout: seq<nat>, now: int, c: nat) returns (k: nat)
    requires patch.start.Some? && c in fanout
    ensures var ps := UpdatePostings(l, row, patch, fanout, now); k < |ps| && ps[k] == Promotion(c, row.start)
  {
    var i :| 0 <= i < |fanout| && fanout[i] == c;
    k := (if patch.content.Some? then 1 else 0) + (if patch.address.Some? then 1 else 0) + i;
  }

  lemma WorkStepOnTime(cfg: Config, s: State, step: Step, now: int)
    requires Outbox.ClaimsOk(s.jobs) && Routed(s.jobs, |s.bookings|) && OnTime(s, now) && Allowed(cfg, s, Work(step), now)
    ensures OnTime(Apply(cfg, s, Work(step)), now)
  {
    var s' := Apply(cfg, s, Work(step));
    forall c: nat | Awaits(s', c)
      ensures Covered(s'.jobs, c, StartOf(s', c))
    {
      assert Awaits(s, c);
      WorkKeepsCovered(cfg, s, step, c, StartOf(s, c));
    }
  }

  lemma WorkKeepsCovered(cfg: Config, s: State, step: Step, c: nat, at: int)
    requires Outbox.ClaimsOk(s.jobs) && Routed(s.jobs, |s.bookings|) && CanWork(s, step) && Covered(s.jobs, c, at)
    ensures Covered(Outbox.Apply(cfg.policy, s.jobs, step), c, at)
  {
    var jobs := s.jobs;
    var j: nat :| Covers(jobs, j, c, at);
    assert j < |jobs.jobs| && jobs.jobs[j].key == Some(PromotionAt(c, at));
    assert KeyFits(jobs.jobs[j].key, jobs.jobs[j].payload, |s.bookings|);
    assert Covers(Outbox.Apply(cfg.policy, jobs, step), j, c, at);
  }

  lemma StepOnTime(cfg: Config, s: State, a: Action, now: int)
    requires cfg.policy.Valid() && Inv(cfg, s) && OnTime(s, now) && Allowed(cfg, s, a, now)
    ensures Inv(cfg, Apply(cfg, s, a)) && OnTime(Apply(cfg, s, a), now)
  {
    StepKeeps(cfg, s, a);
    match a
    case UpdateListing(l, patch, late, fanout, at) => UpdateOnTime(cfg, s, l, patch, late, fanout, at);
    case CreateBooking(guest, l, at) => BookOnTime(cfg, s, guest, l, at);
    case RunPromote(w, j, start, _, _) => RunPromoteOnTime(cfg, s, w, j, start, now);
    case RunDetached(b, delivering, start, _, _) => PromoteOnTime(cfg, s, b, delivering, start, now);
    case Work(step) => WorkStepOnTime(cfg, s, step, now);
    case CancelListing(l, _) => CancelListingOnTime(cfg, s, l, now);
    case CreateListing(row, _) => CreateListingOnTime(cfg, s, row, now);
    case Moderate(l, verdict) => ModerateOnTime(cfg, s, l, verdict, now);
    case CancelBooking(b, byGuest, _, _) => CancelOnTime(cfg, s, b, byGuest, now);
    case ConfirmBooking(b, byGuest, _) => ConfirmOnTime(cfg, s, b, byGuest, now);
  }

  /**
   * On one clock a booking is promoted only from its start on, and cancelled by a participant only before it,
   * whatever transaction moves it: at no instant are both possible.
   */
  lemma StartOrCancel(cfg: Config, s: State, a: Action, now: int, b: nat)
    requires cfg.policy.Valid() && Inv(cfg, s) && OnTime(s, now) && Allowed(cfg, s, a, now) && Awaits(s, b)
    ensures var s' := Apply(cfg, s, a);
      && |s'.bookings| >= |s.bookings| && |s'.listings| >= |s.listings|
      && (s'.bookings[b].status == InProgress ==> StartOf(s, b) <= now)
      && (s'.bookings[b].status == Cancelled && s'.listings[s.bookings[b].listing].active ==> now < StartOf(s, b))
      && s'.bookings[b].status != Completed
  {
    StepForward(cfg, s, a);
    if a.RunPromote? {
      PromotesOnTime(cfg, s, a.job, a.start, now, b);
    }
  }

  // ---- runs ------------------------------------------------------------------------------------

  datatype Timed = Timed(now: int, action: Action)

  ghost predicate TimedRun(cfg: Config, s: State, now: int, run: seq<Timed>)
    decreases |run|
  {
    run == [] ||
    (now <= run[0].now && Allowed(cfg, s, run[0].action, run[0].now)
     && TimedRun(cfg, Apply(cfg, s, run[0].action), run[0].now, run[1..]))
  }

  ghost function After(cfg: Config, s: State, now: int, run: seq<Timed>): State
    requires TimedRun(cfg, s, now, run)
    decreases |run|
  {
    if run == [] then s else After(cfg, Apply(cfg, s, run[0].action), run[0].now, run[1..])
  }

  ghost function Clock(now: int, run: seq<Timed>): int
  {
    if run == [] then now else run[|run| - 1].now
  }

  lemma PromotesOnTime(cfg: Config, s: State, j: nat, start: int, now: int, b: nat)
    requires cfg.policy.Valid() && Inv(cfg, s) && Awaits(s, b) && j < |s.jobs.jobs| && s.jobs.jobs[j].payload.Promote?
    requires ReadsNow(s, s.jobs.jobs[j].payload.booking, start, now, now, now)
    ensures var s' := PromoteDue(s, s.jobs.jobs[j].payload.booking, Some(j), start, now, now).state;
      && s'.listings == s.listings && |s'.bookings| == |s.bookings|
      && (s'.bookings[b].status == Pending || (s'.bookings[b].status == InProgress && StartOf(s, b) <= now))
  {
  }

  lemma {:induction false} RunOnTime(cfg: Config, s: State, now: int, run: seq<Timed>)
    requires cfg.policy.Valid() && Inv(cfg, s) && OnTime(s, now) && TimedRun(cfg, s, now, run)
    ensures Inv(cfg, After(cfg, s, now, run)) && OnTime(After(cfg, s, now, run), Clock(now, run))
    decreases |run|
  {
    if run != [] {
      StepOnTime(cfg, s, run[0].action, run[0].now);
      RunOnTime(cfg, Apply(cfg, s, run[0].action), run[0].now, run[1..]);
      assert Clock(now, run) == Clock(run[0].now, run[1..]);
    }
  }

  /**
   * With one clock, after any run: the row keyed by a pending booking and its current start is undelivered
   * while its listing is active; before that start it is untouched; and the fallback key is never used.
   */
  lemma TimelySchedule(cfg: Config, run: seq<Timed>, t0: int, b: nat)
    requires cfg.policy.Valid() && TimedRun(cfg, Empty(), t0, run)
    ensures var s := After(cfg, Empty(), t0, run);
      && NeverAgain(s.jobs)
      && (Awaits(s, b) ==>
            exists j :: Covers(s.jobs, j, b, StartOf(s, b)) && (StartOf(s, b) > Clock(t0, run) ==> Untouched(s.jobs, j)))
  {
    RunOnTime(cfg, Empty(), t0, run);
    var s := After(cfg, Empty(), t0, run);
    if Awaits(s, b) {
      var j :| Covers(s.jobs, j, b, StartOf(s, b));
      assert StartOf(s, b) > Clock(t0, run) ==> Untouched(s.jobs, j);
    }
  }
}
