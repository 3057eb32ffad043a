/** The guarantees of the booking protocol over whole runs. */
module BookingTheorems {
  import opened Tables
  import opened Bookings
  import opened BookingInvariants
  import Outbox

  lemma StepKeeps(cfg: Config, s: State, a: Action)
    requires cfg.policy.Valid() && Inv(cfg, s) && Enabled(cfg, s, a)
    ensures Inv(cfg, Apply(cfg, s, a))
  {
    match a
    case CreateListing(row, now) => CreateListingKeeps(cfg, s, row, now);
    case Moderate(l, verdict) => ModerateKeeps(cfg, s, l, verdict);
    case UpdateListing(l, patch, late, fanout, now) => UpdateKeeps(cfg, s, l, patch, late, fanout, now);
    case CancelListing(l, now) => CancelListingKeeps(cfg, s, l, now);
    case CreateBooking(guest, l, now) => BookKeeps(cfg, s, guest, l, now);
    case CancelBooking(b, byGuest, start, now) => CancelKeeps(cfg, s, b, byGuest, start, now);
    case ConfirmBooking(b, byGuest, now) => ConfirmKeeps(cfg, s, b, byGuest, now);
    case RunPromote(w, j, start, nodeNow, now) => RunPromoteKeeps(cfg, s, w, j, start, nodeNow, now);
    case RunDetached(b, delivering, start, nodeNow, now) => PromoteDueKeeps(cfg, s, b, delivering, start, nodeNow, now);
    case Work(step) => WorkKeeps(cfg, s, step);
  }

  lemma {:induction false} RunKeeps(cfg: Config, s: State, run: seq<Action>)
    requires cfg.policy.Valid() && Inv(cfg, s) && LegalRun(cfg, s, run)
    ensures Inv(cfg, RunAll(cfg, s, run))
    decreases |run|
  {
    if run != [] {
      StepKeeps(cfg, s, run[0]);
      RunKeeps(cfg, Apply(cfg, s, run[0]), run[1..]);
    }
  }

  /** The states some run of the protocol leads to. */
  ghost predicate Reachable(cfg: Config, s: State)
  {
    exists run :: LegalRun(cfg, Empty(), run) && s == RunAll(cfg, Empty(), run)
  }

  lemma ReachableOk(cfg: Config, s: State)
    requires cfg.policy.Valid() && Reachable(cfg, s)
    ensures Inv(cfg, s)
  {
    var run :| LegalRun(cfg, Empty(), run) && s == RunAll(cfg, Empty(), run);
    RunKeeps(cfg, Empty(), run);
  }

  lemma {:induction false} RunThen(cfg: Config, s: State, run: seq<Action>, a: Action)
    requires LegalRun(cfg, s, run) && Enabled(cfg, RunAll(cfg, s, run), a)
    ensures LegalRun(cfg, s, run + [a]) && RunAll(cfg, s, run + [a]) == Apply(cfg, RunAll(cfg, s, run), a)
    decreases |run|
  {
    if run == [] {
      assert (run + [a])[1..] == [];
    } else {
      assert (run + [a])[1..] == run[1..] + [a] && (run + [a])[0] == run[0];
      RunThen(cfg, Apply(cfg, s, run[0]), run[1..], a);
    }
  }

  lemma ReachableNext(cfg: Config, s: State, a: Action)
    requires Reachable(cfg, s) && Enabled(cfg, s, a)
    ensures Reachable(cfg, Apply(cfg, s, a))
  {
    var run :| LegalRun(cfg, Empty(), run) && s == RunAll(cfg, Empty(), run);
    RunThen(cfg, Empty(), run, a);
  }

  /**
   * No promotion is ever lost: whatever the interleaving of workers, crashes, detached handlers, clocks,
   * requeues and reschedules, a pending booking on an active listing has a promote row that is pending
   * or dead-lettered and that no open claim has already decided to mark delivered.
   */
  lemma NoPromotionLost(cfg: Config, s: State, b: nat)
    requires cfg.policy.Valid() && Reachable(cfg, s) && Awaits(s, b)
    ensures exists j: nat :: Outbox.Undelivered(s.jobs, j) && s.jobs.jobs[j].payload == Promote(b)
  {
    ReachableOk(cfg, s);
    var j :| Schedules(s.jobs, j, b);
  }

  /** The seat equation, and hence no overbooking and no over-restoring. */
  lemma SeatEquation(cfg: Config, s: State, l: nat)
    requires cfg.policy.Valid() && Reachable(cfg, s) && l < |s.listings|
    ensures l < |s.spent| && 0 <= s.listings[l].remaining <= s.listings[l].capacity
    ensures s.listings[l].active ==>
      && s.listings[l].remaining + Count(s.bookings, SeatsOn(l)) + s.spent[l] == s.listings[l].capacity
      && Count(s.bookings, SeatsOn(l)) <= s.listings[l].capacity
  {
    ReachableOk(cfg, s);
    assert SeatsAt(s, l);
  }

  /** No guest ever holds more pending bookings than the configured cap. */
  lemma GuestCap(cfg: Config, s: State, guest: nat)
    requires cfg.policy.Valid() && Reachable(cfg, s)
    ensures Count(s.bookings, PendingOf(guest)) <= cfg.maxPending
  {
    ReachableOk(cfg, s);
  }

  function IsNotice(b: nat, e: Event, recipient: nat): Outbox.Job<Payload, Key> -> bool
  {
    (job: Outbox.Job<Payload, Key>) => job.payload == Notify(b, e, recipient)
  }

  /**
   * The notification rows are exactly the history: one row per recipient for each transition a booking has
   * been through, none otherwise. The guest alone hears of a cancelled listing, both participants of the rest.
   */
  lemma HistoryMatchesOutbox(cfg: Config, s: State, b: nat, e: Event, recipient: nat)
    requires cfg.policy.Valid() && Reachable(cfg, s)
    ensures Linked(s)
    ensures Count(s.jobs.jobs, IsNotice(b, e, recipient)) == (if Announced(s, b, e, recipient) then 1 else 0)
  {
    ReachableOk(cfg, s);
    var rows := s.jobs.jobs;
    forall i, j | 0 <= i < j < |rows| && rows[i].payload == Notify(b, e, recipient)
      ensures rows[j].payload != Notify(b, e, recipient)
    {
      assert KeyFits(rows[i].key, rows[i].payload, |s.bookings|) && KeyFits(rows[j].key, rows[j].payload, |s.bookings|);
    }
    AtMostOnce(rows, IsNotice(b, e, recipient));
    if HasNotice(s.jobs, b, e, recipient) {
      var j :| 0 <= j < |rows| && rows[j].payload == Notify(b, e, recipient);
      CountPositive(rows, j, IsNotice(b, e, recipient));
    } else {
      CountNone(rows, IsNotice(b, e, recipient));
    }
    assert HasNotice(s.jobs, b, e, recipient) <==> Announced(s, b, e, recipient);
  }

  // ---- the lifecycle ---------------------------------------------------------------------------

  function Rank(status: BookingStatus): nat
  {
    match status
    case Pending => 0
    case InProgress => 1
    case Completed => 2
    case Cancelled => 2
  }

  /** Bookings only move forward; a booking that is cancelled or completed never changes again. */
  ghost predicate Advances(bk: Booking, bk': Booking)
  {
    && bk'.listing == bk.listing && bk'.guest == bk.guest
    && (bk' == bk || Rank(bk.status) < Rank(bk'.status) || (bk.status == InProgress && bk'.status == InProgress))
    && (bk.guestConfirmed ==> bk'.guestConfirmed) && (bk.hostConfirmed ==> bk'.hostConfirmed)
  }

  ghost predicate Forward(s: State, s': State)
  {
    && |s.bookings| <= |s'.bookings| && |s.listings| <= |s'.listings| && |s.history| <= |s'.history|
    && (forall b :: 0 <= b < |s.bookings| ==> Advances(s.bookings[b], s'.bookings[b]))
    && (forall b :: 0 <= b < |s.history| ==> s.history[b] <= s'.history[b])
    && (forall l :: 0 <= l < |s.listings| ==>
          s'.listings[l].host == s.listings[l].host && (s'.listings[l].active ==> s.listings[l].active))
  }

  lemma StepForward(cfg: Config, s: State, a: Action)
    requires Enabled(cfg, s, a)
    ensures Forward(s, Apply(cfg, s, a))
  {
    match a
    case CancelListing(l, now) => SweepForward(cfg, s, l, now);
    case ConfirmBooking(b, byGuest, now) =>
    case RunPromote(w, j, start, nodeNow, now) => RunPromoteForward(cfg, s, w, j, start, nodeNow, now);
    case RunDetached(b, delivering, start, nodeNow, now) => PromoteForward(s, b, delivering, start, nodeNow, now);
    case _ =>
  }

  lemma RunPromoteForward(cfg: Config, s: State, w: nat, j: nat, start: int, nodeNow: int, now: int)
    requires Enabled(cfg, s, RunPromote(w, j, start, nodeNow, now))
    ensures Forward(s, Apply(cfg, s, RunPromote(w, j, start, nodeNow, now)))
  {
    PromoteForward(s, s.jobs.jobs[j].payload.booking, Some(j), start, nodeNow, now);
  }

  lemma SweepForward(cfg: Config, s: State, l: nat, now: int)
    requires Enabled(cfg, s, CancelListing(l, now))
    ensures Forward(s, Apply(cfg, s, CancelListing(l, now)))
  {
  }

  lemma PromoteForward(s: State, b: nat, delivering: Option<nat>, start: int, nodeNow: int, now: int)
    ensures Forward(s, PromoteDue(s, b, delivering, start, nodeNow, now).state)
  {
  }

  lemma {:induction false} RunForward(cfg: Config, s: State, run: seq<Action>)
    requires LegalRun(cfg, s, run)
    ensures Forward(s, RunAll(cfg, s, run))
    decreases |run|
  {
    if run != [] {
      StepForward(cfg, s, run[0]);
      RunForward(cfg, Apply(cfg, s, run[0]), run[1..]);
    }
  }

  /**
   * Every booking's past is a path of the lifecycle ending at its status; it is completed exactly when both
   * parties have confirmed; a cancelled listing has only cancelled and completed bookings, forever.
   */
  lemma Lifecycle(cfg: Config, s: State, more: seq<Action>, b: nat)
    requires cfg.policy.Valid() && Reachable(cfg, s) && LegalRun(cfg, s, more) && b < |s.bookings|
    ensures Linked(s) && StoryFits(s.history[b], s.bookings[b])
    ensures s.bookings[b].status == Completed <==> s.bookings[b].guestConfirmed && s.bookings[b].hostConfirmed
    ensures var s' := RunAll(cfg, s, more);
      && b < |s'.bookings| && b < |s'.history|
      && Advances(s.bookings[b], s'.bookings[b]) && s.history[b] <= s'.history[b]
      && (!s.listings[s.bookings[b].listing].active ==>
            s.bookings[b].status in {Completed, Cancelled} && s'.bookings[b] == s.bookings[b])
  {
    ReachableOk(cfg, s);
    RunForward(cfg, s, more);
    assert StoryFits(s.history[b], s.bookings[b]);
  }

  /** With one clock and current reads, a booking can never be both cancelled and promoted at one instant. */
  lemma CancelOrPromote(cfg: Config, s: State, b: nat, byGuest: bool, delivering: Option<nat>, now: int)
    requires Inv(cfg, s) && Awaits(s, b)
    ensures var start := s.listings[s.bookings[b].listing].start;
      Enabled(cfg, s, CancelBooking(b, byGuest, start, now)) <==>
      PromoteDue(s, b, delivering, start, now, now).outcome != Promoted
  {
  }
}
