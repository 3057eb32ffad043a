/**
 * Reservations, listings and the booking outbox at the grain of committed transactions. Every action
 * is one transaction taking effect at its commit. What a transaction read before its commit without a
 * lock that keeps it current (a clock, the listing's start, a count, a fan-out list) is a parameter of
 * the action; module Interleaving shows what the row locks guarantee about those parameters.
 */
module Bookings {
  import opened Tables
  import Outbox

  datatype BookingStatus = Pending | InProgress | Completed | Cancelled

  datatype Booking = Booking(listing: nat, guest: nat, status: BookingStatus, guestConfirmed: bool, hostConfirmed: bool)

  datatype Moderation = Unreviewed | Approved | Rejected

  /**
   * content stands for the fields whose change is material, address for those the geocode depends on, terms for
   * price and duration, whose change has no other effect.
   */
  datatype Listing = Listing(host: nat, content: int, address: int, terms: int, start: int, capacity: nat,
                             remaining: int, moderation: Moderation, active: bool)

  datatype Event = Created | Started | CancelledByGuest | CancelledByHost | ListingCancelled | Finished

  datatype Payload =
    | Promote(booking: nat)
    | Notify(booking: nat, event: Event, recipient: nat)
    | Scan(listing: nat)
    | Geocode(listing: nat)

  /** The dedupe keys; module DedupeKeys shows that their printed forms are as distinct as they are. */
  datatype Key =
    | PromotionAt(booking: nat, at: int)
    | PromotionAgain(booking: nat, at: int, delivering: Option<nat>)
    | NotificationTo(booking: nat, event: Event, recipient: nat)
    | ListingGone(booking: nat)

  type Jobs = Outbox.Table<Payload, Key>
  type Posting = Outbox.Posting<Payload, Key>
  type Step = Outbox.Step<Payload, Key>

  /**
   * The committed tables. spent and history are history variables: the completions on a listing since
   * the count behind its last resize, and the lifecycle transitions of each booking.
   */
  datatype State = State(listings: seq<Listing>, bookings: seq<Booking>, jobs: Jobs, spent: seq<nat>, history: seq<seq<Event>>)

  datatype Config = Config(maxPending: nat, policy: Outbox.Policy)

  // ---- queries ---------------------------------------------------------------------------------

  function PendingOf(guest: nat): Booking -> bool
  {
    (b: Booking) => b.guest == guest && b.status == Pending
  }

  predicate HoldsSeat(b: Booking)
  {
    b.status == Pending || b.status == InProgress
  }

  function SeatsOn(listing: nat): Booking -> bool
  {
    (b: Booking) => b.listing == listing && HoldsSeat(b)
  }

  function StartOf(s: State, b: nat): int
    requires b < |s.bookings| && s.bookings[b].listing < |s.listings|
  {
    s.listings[s.bookings[b].listing].start
  }

  predicate Awaits(s: State, b: nat)
  {
    && b < |s.bookings| && s.bookings[b].status == Pending
    && s.bookings[b].listing < |s.listings| && s.listings[s.bookings[b].listing].active
  }

  // ---- outbox postings -------------------------------------------------------------------------

  function Notice(b: nat, e: Event, recipient: nat, now: int): Posting
  {
    Outbox.Posting(Notify(b, e, recipient), Some(NotificationTo(b, e, recipient)), now)
  }

  function Notices(b: nat, e: Event, recipients: seq<nat>, now: int): seq<Posting>
  {
    seq(|recipients|, i requires 0 <= i < |recipients| => Notice(b, e, recipients[i], now))
  }

  function Promotion(b: nat, at: int): Posting
  {
    Outbox.Posting(Promote(b), Some(PromotionAt(b, at)), at)
  }

  function Promotions(bs: seq<nat>, at: int): seq<Posting>
  {
    seq(|bs|, i requires 0 <= i < |bs| => Promotion(bs[i], at))
  }

  /** The cancel cascade names its key without the recipient. */
  function Farewell(b: nat, guest: nat, now: int): Posting
  {
    Outbox.Posting(Notify(b, ListingCancelled, guest), Some(ListingGone(b)), now)
  }

  function Farewells(bookings: seq<Booking>, bs: seq<nat>, now: int): seq<Posting>
    requires forall i :: 0 <= i < |bs| ==> bs[i] < |bookings|
  {
    seq(|bs|, i requires 0 <= i < |bs| => Farewell(bs[i], bookings[bs[i]].guest, now))
  }

  // ---- the promote handler ---------------------------------------------------------------------

  datatype Secured = Secured(jobs: Jobs, row: Option<nat>)

  /** One attempt to leave a promote row other than the one being delivered under the given key. */
  function Attempt(jobs: Jobs, b: nat, at: int, key: Key, delivering: Option<nat>): Secured
  {
    var r := Outbox.Enqueue(jobs, Outbox.Posting(Promote(b), Some(key), at));
    if !r.deduped then Secured(r.table, Some(r.id))
    else if delivering == Some(r.id) then Secured(jobs, None)
    else if Outbox.IsLive(jobs, r.id) then Secured(jobs, Some(r.id))
    else Secured(jobs, None)
  }

  function SecureSchedule(jobs: Jobs, b: nat, at: int, delivering: Option<nat>): Secured
  {
    var first := Attempt(jobs, b, at, PromotionAt(b, at), delivering);
    if first.row.Some? then first
    else Attempt(jobs, b, at, PromotionAgain(b, at, delivering), delivering)
  }

  datatype Outcome = Promoted | Rescheduled | Noop | Unsecured

  datatype Handled = Handled(state: State, outcome: Outcome)

  /**
   * The booking.promote core. start is the scheduled start it read, nodeNow the Node clock it compared
   * it with, now the database clock of its transaction.
   */
  function PromoteDue(s: State, b: nat, delivering: Option<nat>, start: int, nodeNow: int, now: int): (h: Handled)
    ensures h.state.jobs.claims == s.jobs.claims
  {
    if b >= |s.bookings| || s.bookings[b].listing >= |s.listings| then Handled(s, Noop)
    else if s.bookings[b].status != Pending then Handled(s, Noop)
    else if !s.listings[s.bookings[b].listing].active then Handled(s, Noop)
    else if start > nodeNow then
      var secured := SecureSchedule(s.jobs, b, start, delivering);
      if secured.row.None? then Handled(s, Unsecured)
      else Handled(s.(jobs := secured.jobs), Rescheduled)
    else Handled(Start(s, b, now), Promoted)
  }

  /** pending -> in_progress, with one notification per participant. */
  function Start(s: State, b: nat, now: int): State
    requires b < |s.bookings| && s.bookings[b].listing < |s.listings|
  {
    var bk := s.bookings[b];
    Record(s.(bookings := s.bookings[b := bk.(status := InProgress)],
              jobs := Outbox.EnqueueAll(s.jobs, Notices(b, Started, Participants(s, b), now))), b, Started)
  }

  function Participants(s: State, b: nat): seq<nat>
    requires b < |s.bookings| && s.bookings[b].listing < |s.listings|
  {
    [s.bookings[b].guest, s.listings[s.bookings[b].listing].host]
  }

  function Record(s: State, b: nat, e: Event): State
  {
    if b < |s.history| then s.(history := s.history[b := s.history[b] + [e]]) else s
  }

  // ---- the request transactions ----------------------------------------------------------------

  /** Fields of a PATCH that differ from the listing; None leaves the field alone. */
  datatype Patch = Patch(content: Option<int>, address: Option<int>, terms: Option<int>, start: Option<int>, capacity: Option<nat>)

  function Patched(row: Listing, patch: Patch, counted: nat): Listing
  {
    row.(content := Or(patch.content, row.content),
         address := Or(patch.address, row.address),
         terms := Or(patch.terms, row.terms),
         start := Or(patch.start, row.start),
         capacity := Or(patch.capacity, row.capacity),
         remaining := if patch.capacity.Some? then patch.capacity.value - counted else row.remaining,
         moderation := if patch.content.Some? then Unreviewed else row.moderation)
  }

  function UpdatePostings(l: nat, row: Listing, patch: Patch, fanout: seq<nat>, now: int): seq<Posting>
  {
    (if patch.content.Some? then [Outbox.Posting(Scan(l), None, now)] else [])
    + (if patch.address.Some? then [Outbox.Posting(Geocode(l), None, now)] else [])
    + (if patch.start.Some? then Promotions(fanout, row.start) else [])
  }

  /** The ids of the seat-holding bookings on a listing, in order. */
  function Affected(bookings: seq<Booking>, l: nat): (ids: seq<nat>)
    ensures forall i :: 0 <= i < |ids| ==> ids[i] < |bookings| && SeatsOn(l)(bookings[ids[i]])
    ensures forall i, j :: 0 <= i < j < |ids| ==> ids[i] < ids[j]
    ensures forall b :: 0 <= b < |bookings| && SeatsOn(l)(bookings[b]) ==> b in ids
  {
    if bookings == [] then []
    else
      var n := |bookings| - 1;
      var ids := Affected(bookings[..n], l);
      if SeatsOn(l)(bookings[n]) then ids + [n] else ids
  }

  /** The ids of the pending bookings on a listing, in order. */
  function PendingIds(bookings: seq<Booking>, l: nat): (ids: seq<nat>)
    ensures forall i :: 0 <= i < |ids| ==> ids[i] < |bookings| && bookings[ids[i]].listing == l && bookings[ids[i]].status == Pending
    ensures forall i, j :: 0 <= i < j < |ids| ==> ids[i] < ids[j]
    ensures forall b :: 0 <= b < |bookings| && bookings[b].listing == l && bookings[b].status == Pending ==> b in ids
  {
    if bookings == [] then []
    else
      var n := |bookings| - 1;
      var ids := PendingIds(bookings[..n], l);
      if bookings[n].listing == l && bookings[n].status == Pending then ids + [n] else ids
  }

  /** The cancel cascade on the booking rows. */
  function Swept(bookings: seq<Booking>, l: nat): seq<Booking>
  {
    seq(|bookings|, i requires 0 <= i < |bookings| =>
          if SeatsOn(l)(bookings[i]) then bookings[i].(status := Cancelled) else bookings[i])
  }

  function SweptHistory(s: State, l: nat): seq<seq<Event>>
  {
    seq(|s.history|, i requires 0 <= i < |s.history| =>
          if i < |s.bookings| && SeatsOn(l)(s.bookings[i]) then s.history[i] + [ListingCancelled] else s.history[i])
  }

  function Confirmed(bk: Booking, byGuest: bool): Booking
  {
    var g, h := bk.guestConfirmed || byGuest, bk.hostConfirmed || !byGuest;
    bk.(guestConfirmed := g, hostConfirmed := h, status := if g && h then Completed else bk.status)
  }

  // ---- the machine -----------------------------------------------------------------------------

  datatype Action =
    | CreateListing(row: Listing, now: int)
    | Moderate(listing: nat, verdict: Moderation)
    | UpdateListing(listing: nat, patch: Patch, late: nat, fanout: seq<nat>, now: int)
    | CancelListing(listing: nat, now: int)
    | CreateBooking(guest: nat, listing: nat, now: int)
    | CancelBooking(booking: nat, byGuest: bool, start: int, now: int)
    | ConfirmBooking(booking: nat, byGuest: bool, now: int)
    | RunPromote(worker: nat, job: nat, start: int, nodeNow: int, now: int)
    | RunDetached(booking: nat, delivering: Option<nat>, start: int, nodeNow: int, now: int)
    | Work(step: Step)

  /** late: completions on the listing that committed after the update counted its active bookings. */
  predicate CanUpdate(s: State, l: nat, patch: Patch, late: nat, fanout: seq<nat>)
  {
    && l < |s.listings| && s.listings[l].active
    && (patch.capacity.Some? ==> patch.capacity.value >= 1 && Count(s.bookings, SeatsOn(l)) + late <= patch.capacity.value)
    && (forall i :: 0 <= i < |fanout| ==> fanout[i] < |s.bookings| && s.bookings[fanout[i]].listing == l)
    && (forall b :: 0 <= b < |s.bookings| && s.bookings[b].listing == l && s.bookings[b].status == Pending ==> b in fanout)
  }

  predicate CanBook(cfg: Config, s: State, guest: nat, l: nat, now: int)
  {
    && Count(s.bookings, PendingOf(guest)) < cfg.maxPending
    && l < |s.listings| && s.listings[l].host != guest
    && s.listings[l].remaining > 0 && s.listings[l].active
    && s.listings[l].moderation == Approved && s.listings[l].start > now
  }

  predicate CanConfirm(s: State, b: nat, byGuest: bool)
  {
    && b < |s.bookings| && s.bookings[b].status == InProgress && s.bookings[b].listing < |s.listings|
    && !(if byGuest then s.bookings[b].guestConfirmed else s.bookings[b].hostConfirmed)
  }

  /** Handlers other than the promote handler enqueue nothing; a failed promote handler rolled back. */
  predicate CanWork(s: State, step: Step)
  {
    && Outbox.Enabled(s.jobs, step) && !step.Post?
    && (step.Finish? && step.verdict == Outbox.Succeeded ==> step.id < |s.jobs.jobs| && !s.jobs.jobs[step.id].payload.Promote?)
  }

  predicate Enabled(cfg: Config, s: State, a: Action)
  {
    match a
    case CreateListing(row, _) =>
      row.capacity >= 1 && row.remaining == row.capacity && row.moderation == Unreviewed && row.active
    case Moderate(l, verdict) => l < |s.listings| && verdict != Unreviewed
    case UpdateListing(l, patch, late, fanout, _) => CanUpdate(s, l, patch, late, fanout)
    case CancelListing(l, _) => l < |s.listings| && s.listings[l].active
    case CreateBooking(guest, l, now) => CanBook(cfg, s, guest, l, now)
    case CancelBooking(b, _, start, now) =>
      b < |s.bookings| && s.bookings[b].status == Pending && s.bookings[b].listing < |s.listings| && start > now
    case ConfirmBooking(b, byGuest, _) => CanConfirm(s, b, byGuest)
    case RunPromote(w, j, _, _, _) => Outbox.Running(s.jobs, w, j) && j < |s.jobs.jobs| && s.jobs.jobs[j].payload.Promote?
    case RunDetached(_, delivering, _, _, _) => delivering.Some? ==> delivering.value < |s.jobs.jobs|
    case Work(step) => CanWork(s, step)
  }

  function Apply(cfg: Config, s: State, a: Action): State
    requires Enabled(cfg, s, a)
  {
    match a
    case CreateListing(row, now) =>
      var l := |s.listings|;
      s.(listings := s.listings + [row], spent := s.spent + [0],
         jobs := Outbox.EnqueueAll(s.jobs, [Outbox.Posting(Geocode(l), None, now), Outbox.Posting(Scan(l), None, now)]))
    case Moderate(l, verdict) =>
      s.(listings := s.listings[l := s.listings[l].(moderation := verdict)])
    case UpdateListing(l, patch, late, fanout, now) => Update(s, l, patch, late, fanout, now)
    case CancelListing(l, now) =>
      State(s.listings[l := s.listings[l].(active := false)], Swept(s.bookings, l),
            Outbox.EnqueueAll(s.jobs, Farewells(s.bookings, Affected(s.bookings, l), now)), s.spent, SweptHistory(s, l))
    case CreateBooking(guest, l, now) => Book(s, guest, l, now)
    case CancelBooking(b, byGuest, _, now) => Cancel(s, b, byGuest, now)
    case ConfirmBooking(b, byGuest, now) => Confirm(s, b, byGuest, now)
    case RunPromote(w, j, start, nodeNow, now) =>
      var h := PromoteDue(s, s.jobs.jobs[j].payload.booking, Some(j), start, nodeNow, now);
      SettlePromote(h, w, j)
    case RunDetached(b, delivering, start, nodeNow, now) => PromoteDue(s, b, delivering, start, nodeNow, now).state
    case Work(step) => s.(jobs := Outbox.Apply(cfg.policy, s.jobs, step))
  }

  /** The claimant notes how its handler ended. */
  function SettlePromote(h: Handled, w: nat, j: nat): State
    requires Outbox.Running(h.state.jobs, w, j)
  {
    h.state.(jobs := Outbox.Settle(h.state.jobs, w, j, if h.outcome == Unsecured then Outbox.Failed else Outbox.Succeeded))
  }

  function Update(s: State, l: nat, patch: Patch, late: nat, fanout: seq<nat>, now: int): State
    requires l < |s.listings|
  {
    var row := Patched(s.listings[l], patch, Count(s.bookings, SeatsOn(l)) + late);
    s.(listings := s.listings[l := row],
       spent := if patch.capacity.Some? && l < |s.spent| then s.spent[l := late] else s.spent,
       jobs := Outbox.EnqueueAll(s.jobs, UpdatePostings(l, row, patch, fanout, now)))
  }

  function Book(s: State, guest: nat, l: nat, now: int): State
    requires l < |s.listings|
  {
    var b, row := |s.bookings|, s.listings[l];
    s.(listings := s.listings[l := row.(remaining := row.remaining - 1)],
       bookings := s.bookings + [Booking(l, guest, Pending, false, false)],
       jobs := Outbox.EnqueueAll(s.jobs, Notices(b, Created, [guest, row.host], now) + [Promotion(b, row.start)]),
       history := s.history + [[Created]])
  }

  function Cancel(s: State, b: nat, byGuest: bool, now: int): State
    requires b < |s.bookings| && s.bookings[b].listing < |s.listings|
  {
    var bk, l := s.bookings[b], s.bookings[b].listing;
    var e := if byGuest then CancelledByGuest else CancelledByHost;
    Record(s.(bookings := s.bookings[b := bk.(status := Cancelled)],
              listings := s.listings[l := s.listings[l].(remaining := s.listings[l].remaining + 1)],
              jobs := Outbox.EnqueueAll(s.jobs, Notices(b, e, Participants(s, b), now))), b, e)
  }

  function Confirm(s: State, b: nat, byGuest: bool, now: int): State
    requires b < |s.bookings| && s.bookings[b].listing < |s.listings|
  {
    var bk, l := Confirmed(s.bookings[b], byGuest), s.bookings[b].listing;
    var s' := s.(bookings := s.bookings[b := bk]);
    if bk.status != Completed then s'
    else
      Record(s'.(spent := if l < |s.spent| then s.spent[l := s.spent[l] + 1] else s.spent,
                 jobs := Outbox.EnqueueAll(s.jobs, Notices(b, Finished, Participants(s, b), now))), b, Finished)
  }

  function Empty(): State
  {
    State([], [], Outbox.Table([], map[]), [], [])
  }

  ghost predicate LegalRun(cfg: Config, s: State, run: seq<Action>)
    decreases |run|
  {
    run == [] || (Enabled(cfg, s, run[0]) && LegalRun(cfg, Apply(cfg, s, run[0]), run[1..]))
  }

  ghost function RunAll(cfg: Config, s: State, run: seq<Action>): State
    requires LegalRun(cfg, s, run)
    decreases |run|
  {
    if run == [] then s else RunAll(cfg, Apply(cfg, s, run[0]), run[1..])
  }
}
