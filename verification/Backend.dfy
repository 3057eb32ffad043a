/**
 * The booking backend in its own form: tables that repository statements update in place, and transaction
 * scripts made of those statements. Each transaction script is proved to be one
 * action of module Bookings, or to leave every table alone and say why. The scripts run here one at a
 * time; module Interleaving covers their overlap, and module WorkerProcess the polling worker.
 */
module Backend {
  import opened Tables
  import opened Bookings
  import Outbox
  import Mehko

  datatype Result<T, E> = Ok(value: T) | Refused(error: E)

  // ---- why a request is refused ----------------------------------------------------------------

  datatype BookingError = BookingLimit | ListingNotFound | OwnListing | ListingNotBookable | ListingStarted | NoCapacity

  /** The one refusal of a booking request that fits the tables, in the order the script asks. */
  predicate RefusesBooking(cfg: Config, s: State, guest: nat, l: nat, nodeNow: int, now: int, e: BookingError)
  {
    if Count(s.bookings, PendingOf(guest)) >= cfg.maxPending then e == BookingLimit
    else if l >= |s.listings| then e == ListingNotFound
    else if s.listings[l].host == guest then e == OwnListing
    else if s.listings[l].moderation != Approved then e == ListingNotFound
    else if !s.listings[l].active then e == ListingNotBookable
    else if s.listings[l].start <= nodeNow then e == ListingStarted
    else e == NoCapacity && (s.listings[l].remaining <= 0 || s.listings[l].start <= now)
  }

  /** A booking request is refused for exactly one reason, unless it can be granted and the Node clock agrees. */
  lemma BookingRefusal(cfg: Config, s: State, guest: nat, l: nat, nodeNow: int, now: int)
    ensures CanBook(cfg, s, guest, l, now) && s.listings[l].start > nodeNow <==>
            forall e :: !RefusesBooking(cfg, s, guest, l, nodeNow, now, e)
    ensures forall e, e' ::
              (RefusesBooking(cfg, s, guest, l, nodeNow, now, e) && RefusesBooking(cfg, s, guest, l, nodeNow, now, e')) ==> e == e'
  {
    assert CanBook(cfg, s, guest, l, now) && s.listings[l].start > nodeNow <==>
      !RefusesBooking(cfg, s, guest, l, nodeNow, now, BookingLimit)
      && !RefusesBooking(cfg, s, guest, l, nodeNow, now, ListingNotFound)
      && !RefusesBooking(cfg, s, guest, l, nodeNow, now, OwnListing)
      && !RefusesBooking(cfg, s, guest, l, nodeNow, now, ListingNotBookable)
      && !RefusesBooking(cfg, s, guest, l, nodeNow, now, ListingStarted)
      && !RefusesBooking(cfg, s, guest, l, nodeNow, now, NoCapacity);
  }

  datatype ChangeError =
    | NotFound
    | NotParticipant
    | CancelTooLate
    | NotCancellable
    | NotInProgress
    | NotHost
    | ListingIsCancelled
    | CapsExceeded(cap: Mehko.CapError)
    | CapacityBelowBooked

  /** repeat: nothing was left to do, and nothing was done. */
  datatype Change = Done | Repeat

  predicate Participates(s: State, b: nat, user: nat)
  {
    b < |s.bookings| && s.bookings[b].listing < |s.listings| && user in Participants(s, b)
  }

  predicate RefusesCancel(s: State, user: nat, b: nat, nodeNow: int, now: int, e: ChangeError)
  {
    if b >= |s.bookings| || s.bookings[b].listing >= |s.listings| then e == NotFound
    else if !Participates(s, b, user) then e == NotParticipant
    else
      && s.bookings[b].status != BookingStatus.Cancelled
      && (s.bookings[b].status != BookingStatus.Pending || StartOf(s, b) <= now)
      && e == (if StartOf(s, b) <= nodeNow then CancelTooLate else NotCancellable)
  }

  predicate RefusesConfirm(s: State, user: nat, b: nat, e: ChangeError)
  {
    if b >= |s.bookings| || s.bookings[b].listing >= |s.listings| then e == NotFound
    else if !Participates(s, b, user) then e == NotParticipant
    else e == NotInProgress && s.bookings[b].status in {BookingStatus.Pending, BookingStatus.Cancelled}
  }

  // ---- patches ---------------------------------------------------------------------------------

  /** What of a PATCH differs from the row. */
  function Diff(row: Listing, patch: Patch): Patch
  {
    Patch(Differs(patch.content, row.content), Differs(patch.address, row.address), Differs(patch.terms, row.terms),
          Differs(patch.start, row.start), Differs(patch.capacity, row.capacity))
  }

  function Differs<T(==)>(next: Option<T>, current: T): (r: Option<T>)
    ensures Or(r, current) == Or(next, current)
    ensures r != Some(current)
  {
    if next == Some(current) then None else next
  }

  const NoChange := Patch(None, None, None, None, None)

  /**
   * After an update every requested field has its requested value and every other its old one. The seats left are
   * those of the capacity that are not booked, if it changed; and the listing is unreviewed if its content did.
   */
  lemma PatchTakes(row: Listing, patch: Patch, booked: nat)
    ensures var row' := Patched(row, Diff(row, patch), booked);
      && row'.content == Or(patch.content, row.content) && row'.address == Or(patch.address, row.address)
      && row'.terms == Or(patch.terms, row.terms) && row'.start == Or(patch.start, row.start)
      && row'.capacity == Or(patch.capacity, row.capacity) && row'.host == row.host && row'.active == row.active
      && (if row'.capacity != row.capacity then row'.remaining + booked == row'.capacity else row'.remaining == row.remaining)
      && row'.moderation == (if row'.content != row.content then Unreviewed else row.moderation)
    ensures Diff(row, patch) == NoChange <==>
              && Or(patch.content, row.content) == row.content && Or(patch.address, row.address) == row.address
              && Or(patch.terms, row.terms) == row.terms && Or(patch.start, row.start) == row.start
              && Or(patch.capacity, row.capacity) == row.capacity
  {
  }

  // ---- the listings as the cap check sees them -------------------------------------------------

  function MealOf(row: Listing, zone: Mehko.Zone): Mehko.Meal
  {
    Mehko.Meal(row.host, row.start, zone(row.start), row.capacity, row.active)
  }

  /** The columns the cap check reads; local_date is the local date of the start on every row (Mehko.CapsAlwaysHold). */
  function Meals(listings: seq<Listing>, zone: Mehko.Zone): seq<Mehko.Meal>
  {
    seq(|listings|, i requires 0 <= i < |listings| => MealOf(listings[i], zone))
  }

  lemma MealsUpdate(listings: seq<Listing>, l: nat, row: Listing, zone: Mehko.Zone)
    requires l < |listings|
    ensures |Meals(listings, zone)| == |listings|
    ensures Meals(listings[l := row], zone) == Meals(listings, zone)[l := MealOf(row, zone)]
  {
  }

  /** The cap check of an update, on the prospective start and capacity, the listing itself left out. */
  function CheckUpdate(caps: Mehko.Caps, zone: Mehko.Zone, listings: seq<Listing>, l: nat, patch: Patch): Mehko.Checked
    requires l < |listings|
  {
    Mehko.AssertWithinCaps(caps, zone, Meals(listings, zone), listings[l].host, Or(patch.start, listings[l].start),
                           Or(patch.capacity, listings[l].capacity), Some(l))
  }

  predicate RefusesUpdate(caps: Mehko.Caps, zone: Mehko.Zone, s: State, user: nat, l: nat, patch: Patch, e: ChangeError)
  {
    if l >= |s.listings| then e == NotFound
    else if s.listings[l].host != user then e == NotHost
    else if !s.listings[l].active then e == ListingIsCancelled
    else if CheckUpdate(caps, zone, s.listings, l, patch).Exceeds? then
      e == CapsExceeded(CheckUpdate(caps, zone, s.listings, l, patch).error)
    else
      && e == CapacityBelowBooked
      && Or(patch.capacity, s.listings[l].capacity) != s.listings[l].capacity
      && Or(patch.capacity, s.listings[l].capacity) < Count(s.bookings, SeatsOn(l))
  }

  /** An update that passes the check changes the capped columns as module Mehko says, so the caps still hold. */
  lemma UpdatedMeals(caps: Mehko.Caps, zone: Mehko.Zone, listings: seq<Listing>, l: nat, patch: Patch, counted: nat)
    requires l < |listings| && listings[l].active && CheckUpdate(caps, zone, listings, l, patch).Within?
    ensures var after := listings[l := Patched(listings[l], Diff(listings[l], patch), counted)];
      && Meals(after, zone) == Mehko.Changed(caps, zone, Meals(listings, zone), Mehko.Update(l, patch.start, patch.capacity))
      && CapsKept(caps, zone, listings, after)
  {
    var row := Patched(listings[l], Diff(listings[l], patch), counted);
    MealsUpdate(listings, l, row, zone);
    assert MealOf(row, zone)
        == Mehko.Rewritten(MealOf(listings[l], zone), patch.start, patch.capacity, zone(Or(patch.start, listings[l].start)));
    if Mehko.CapsHold(caps, zone, Meals(listings, zone)) {
      Mehko.ChangeKeeps(caps, zone, Meals(listings, zone), Mehko.Update(l, patch.start, patch.capacity));
    }
  }

  ghost predicate CapsKept(caps: Mehko.Caps, zone: Mehko.Zone, before: seq<Listing>, after: seq<Listing>)
  {
    Mehko.CapsHold(caps, zone, Meals(before, zone)) ==> Mehko.CapsHold(caps, zone, Meals(after, zone))
  }

  lemma EnqueueNext(jobs: Jobs, ps: seq<Posting>, p: Posting)
    ensures Outbox.Enqueue(Outbox.EnqueueAll(jobs, ps), p).table == Outbox.EnqueueAll(jobs, ps + [p])
  {
    assert (ps + [p])[..|ps|] == ps;
  }

  lemma {:induction false} EnqueueMore(jobs: Jobs, ps: seq<Posting>, qs: seq<Posting>)
    ensures Outbox.EnqueueAll(Outbox.EnqueueAll(jobs, ps), qs) == Outbox.EnqueueAll(jobs, ps + qs)
  {
    if qs == [] {
      assert ps + qs == ps;
    } else {
      var init, last := qs[..|qs| - 1], qs[|qs| - 1];
      EnqueueMore(jobs, ps, init);
      EnqueueNext(jobs, ps + init, last);
      assert ps + init + [last] == ps + qs;
    }
  }

  lemma CreatedMeals(caps: Mehko.Caps, zone: Mehko.Zone, listings: seq<Listing>, row: Listing)
    requires row.active && Mehko.AssertWithinCaps(caps, zone, Meals(listings, zone), row.host, row.start, row.capacity, None).Within?
    ensures Meals(listings + [row], zone)
         == Mehko.Changed(caps, zone, Meals(listings, zone), Mehko.Create(row.host, row.start, row.capacity))
    ensures CapsKept(caps, zone, listings, listings + [row])
  {
    if Mehko.CapsHold(caps, zone, Meals(listings, zone)) {
      Mehko.ChangeKeeps(caps, zone, Meals(listings, zone), Mehko.Create(row.host, row.start, row.capacity));
    }
  }

  lemma CancelledMeals(caps: Mehko.Caps, zone: Mehko.Zone, listings: seq<Listing>, l: nat)
    requires l < |listings|
    ensures Meals(listings[l := listings[l].(active := false)], zone) == Mehko.Changed(caps, zone, Meals(listings, zone), Mehko.Cancel(l))
    ensures CapsKept(caps, zone, listings, listings[l := listings[l].(active := false)])
  {
    MealsUpdate(listings, l, listings[l].(active := false), zone);
    if Mehko.CapsHold(caps, zone, Meals(listings, zone)) {
      Mehko.ChangeKeeps(caps, zone, Meals(listings, zone), Mehko.Cancel(l));
    }
  }

  class Database {
    const cfg: Config
    const caps: Mehko.Caps
    const zone: Mehko.Zone
    var listings: seq<Listing>
    var bookings: seq<Booking>
    var jobs: Jobs
    ghost var spent: seq<nat>
    ghost var history: seq<seq<Event>>

    ghost function View(): State
      reads this
    {
      State(listings, bookings, jobs, spent, history)
    }

    constructor (cfg: Config, caps: Mehko.Caps, zone: Mehko.Zone)
      ensures this.cfg == cfg && this.caps == caps && this.zone == zone && View() == Empty()
    {
      this.cfg, this.caps, this.zone := cfg, caps, zone;
      listings, bookings, jobs, spent, history := [], [], Outbox.Table([], map[]), [], [];
    }

    // ---- the outbox producer -------------------------------------------------------------------

    method Enqueue(p: Posting) returns (id: nat, deduped: bool)
      modifies this`jobs
      ensures var r := Outbox.Enqueue(old(jobs), p); jobs == r.table && id == r.id && deduped == r.deduped
    {
      if p.key.Some? {
        var existing := Outbox.Find(jobs.jobs, p.key.value);
        if existing.Some? {
          return existing.value, true;
        }
      }
      id, deduped := |jobs.jobs|, false;
      jobs := jobs.(jobs := jobs.jobs + [Outbox.NewJob(p)]);
    }

    method RequeueDeadLetter(id: nat, now: int) returns (reopened: bool)
      modifies this`jobs
      ensures reopened == (id < |old(jobs).jobs| && old(jobs).jobs[id].status == Outbox.Dead)
      ensures jobs == if reopened then Outbox.Requeue(old(jobs), id, now) else old(jobs)
    {
      reopened := id < |jobs.jobs| && jobs.jobs[id].status == Outbox.Dead;
      if reopened {
        var job := jobs.jobs[id].(status := Outbox.Pending, attempts := 0, availableAt := now, failedAt := []);
        jobs := jobs.(jobs := jobs.jobs[id := job]);
      }
    }

    method EnqueueBookingNotifications(b: nat, e: Event, recipients: seq<nat>, now: int)
      modifies this`jobs
      ensures jobs == Outbox.EnqueueAll(old(jobs), Notices(b, e, recipients, now))
    {
      ghost var ps := Notices(b, e, recipients, now);
      for i := 0 to |recipients|
        invariant jobs == Outbox.EnqueueAll(old(jobs), ps[..i])
      {
        EnqueueNext(old(jobs), ps[..i], ps[i]);
        assert ps[..i + 1] == ps[..i] + [ps[i]];
        var _, _ := Enqueue(Notice(b, e, recipients[i], now));
      }
      assert ps[..|recipients|] == ps;
    }

    method EnqueuePromotion(b: nat, at: int) returns (id: nat, deduped: bool)
      modifies this`jobs
      ensures var r := Outbox.Enqueue(old(jobs), Promotion(b, at)); jobs == r.table && id == r.id && deduped == r.deduped
    {
      id, deduped := Enqueue(Promotion(b, at));
    }

    // ---- booking statements --------------------------------------------------------------------

    /** The conditional decrement: the only authority over capacity. */
    method DecrementSeat(l: nat, now: int) returns (row: Option<Listing>)
      modifies this`listings
      ensures row.Some? <==> l < |old(listings)| && old(listings)[l].remaining > 0 && old(listings)[l].active
                             && old(listings)[l].moderation == Approved && old(listings)[l].start > now
      ensures row.None? ==> listings == old(listings)
      ensures row.Some? ==> row.value == old(listings)[l].(remaining := old(listings)[l].remaining - 1)
                            && listings == old(listings)[l := row.value]
    {
      if l < |listings| && listings[l].remaining > 0 && listings[l].active
         && listings[l].moderation == Approved && listings[l].start > now {
        listings := listings[l := listings[l].(remaining := listings[l].remaining - 1)];
        row := Some(listings[l]);
      } else {
        row := None;
      }
    }

    method InsertBooking(l: nat, guest: nat) returns (b: nat)
      modifies this`bookings
      ensures b == |old(bookings)| && bookings == old(bookings) + [Booking(l, guest, BookingStatus.Pending, false, false)]
    {
      b := |bookings|;
      bookings := bookings + [Booking(l, guest, BookingStatus.Pending, false, false)];
    }

    method MarkCancelledBeforeStart(b: nat, now: int) returns (cancelled: bool)
      modifies this`bookings
      ensures cancelled <==> b < |old(bookings)| && old(bookings)[b].status == BookingStatus.Pending
                             && old(bookings)[b].listing < |listings| && listings[old(bookings)[b].listing].start > now
      ensures !cancelled ==> bookings == old(bookings)
      ensures cancelled ==> bookings == old(bookings)[b := old(bookings)[b].(status := BookingStatus.Cancelled)]
    {
      cancelled := b < |bookings| && bookings[b].status == BookingStatus.Pending
      && bookings[b].listing < |listings| && listings[bookings[b].listing].start > now;
      if cancelled {
        bookings := bookings[b := bookings[b].(status := BookingStatus.Cancelled)];
      }
    }

    method RestoreSeat(l: nat)
      requires l < |listings|
      modifies this`listings
      ensures listings == old(listings)[l := old(listings)[l].(remaining := old(listings)[l].remaining + 1)]
    {
      listings := listings[l := listings[l].(remaining := listings[l].remaining + 1)];
    }

    method ApplyCompletionConfirmation(b: nat, byGuest: bool) returns (updated: Option<Booking>)
      modifies this`bookings
      ensures updated.Some? <==> b < |old(bookings)| && old(bookings)[b].status == InProgress
      ensures updated.None? ==> bookings == old(bookings)
      ensures updated.Some? ==> updated.value == Confirmed(old(bookings)[b], byGuest) && bookings == old(bookings)[b := updated.value]
    {
      if b < |bookings| && bookings[b].status == InProgress {
        var bk := bookings[b];
        var both := (bk.guestConfirmed || byGuest) && (bk.hostConfirmed || !byGuest);
        bk := bk.(guestConfirmed := bk.guestConfirmed || byGuest, hostConfirmed := bk.hostConfirmed || !byGuest,
                  status := if both then Completed else bk.status);
        bookings := bookings[b := bk];
        updated := Some(bk);
      } else {
        updated := None;
      }
    }

    method PromotePending(b: nat) returns (promoted: bool)
      modifies this`bookings
      ensures promoted <==> b < |old(bookings)| && old(bookings)[b].status == BookingStatus.Pending
      ensures bookings == if promoted then old(bookings)[b := old(bookings)[b].(status := InProgress)] else old(bookings)
    {
      promoted := b < |bookings| && bookings[b].status == BookingStatus.Pending;
      if promoted {
        bookings := bookings[b := bookings[b].(status := InProgress)];
      }
    }

    // ---- booking transactions ------------------------------------------------------------------

    method CreateBooking(guest: nat, l: nat, nodeNow: int, now: int) returns (r: Result<nat, BookingError>)
      modifies this
      ensures match r
        case Refused(e) => View() == old(View()) && RefusesBooking(cfg, old(View()), guest, l, nodeNow, now, e)
        case Ok(b) =>
          && b == |old(bookings)| && CanBook(cfg, old(View()), guest, l, now) && old(listings)[l].start > nodeNow
          && View() == Apply(cfg, old(View()), Action.CreateBooking(guest, l, now))
    {
      if Count(bookings, PendingOf(guest)) >= cfg.maxPending {
        return Refused(BookingLimit);
      }
      if l >= |listings| {
        return Refused(ListingNotFound);
      }
      var target := listings[l];
      if target.host == guest {
        return Refused(OwnListing);
      }
      if target.moderation != Approved {
        return Refused(ListingNotFound);
      }
      if !target.active {
        return Refused(ListingNotBookable);
      }
      if target.start <= nodeNow {
        return Refused(ListingStarted);
      }
      var decremented := DecrementSeat(l, now);
      if decremented.None? {
        return Refused(NoCapacity);
      }
      var b := InsertBooking(l, guest);
      history := history + [[Created]];
      PostCreated(b, guest, decremented.value, now);
      return Ok(b);
    }

    /** The deferred work of a new booking. */
    method PostCreated(b: nat, guest: nat, row: Listing, now: int)
      modifies this`jobs
      ensures jobs == Outbox.EnqueueAll(old(jobs), Notices(b, Created, [guest, row.host], now) + [Promotion(b, row.start)])
    {
      EnqueueBookingNotifications(b, Created, [guest, row.host], now);
      var _, _ := EnqueuePromotion(b, row.start);
      EnqueueNext(old(jobs), Notices(b, Created, [guest, row.host], now), Promotion(b, row.start));
    }

    method CancelBooking(user: nat, b: nat, nodeNow: int, now: int) returns (r: Result<Change, ChangeError>)
      modifies this
      ensures match r
        case Refused(e) => View() == old(View()) && RefusesCancel(old(View()), user, b, nodeNow, now, e)
        case Ok(Repeat) =>
          View() == old(View()) && Participates(old(View()), b, user) && old(bookings)[b].status == BookingStatus.Cancelled
        case Ok(Done) =>
          && Participates(old(View()), b, user)
          && var a := Action.CancelBooking(b, user == old(bookings)[b].guest, StartOf(old(View()), b), now);
             Enabled(cfg, old(View()), a) && View() == Apply(cfg, old(View()), a)
    {
      if b >= |bookings| || bookings[b].listing >= |listings| {
        return Refused(NotFound);
      }
      var booking, listing := bookings[b], listings[bookings[b].listing];
      if user != booking.guest && user != listing.host {
        return Refused(NotParticipant);
      }
      if booking.status == BookingStatus.Cancelled {
        return Ok(Repeat);
      }
      var cancelled := MarkCancelledBeforeStart(b, now);
      if !cancelled {
        return Refused(if listing.start <= nodeNow then CancelTooLate else NotCancellable);
      }
      RestoreSeat(booking.listing);
      NotifyTransition(b, if user == booking.guest then CancelledByGuest else CancelledByHost, [booking.guest, listing.host], now);
      return Ok(Done);
    }

    /** The notifications of one transition, and its place in the history. */
    method NotifyTransition(b: nat, e: Event, participants: seq<nat>, now: int)
      modifies this`jobs, this`history
      ensures View() == Record(old(View()).(jobs := Outbox.EnqueueAll(old(jobs), Notices(b, e, participants, now))), b, e)
    {
      EnqueueBookingNotifications(b, e, participants, now);
      history := if b < |history| then history[b := history[b] + [e]] else history;
    }

    method ConfirmCompletion(user: nat, b: nat, now: int) returns (r: Result<Change, ChangeError>)
      modifies this
      ensures match r
        case Refused(e) => View() == old(View()) && RefusesConfirm(old(View()), user, b, e)
        case Ok(Repeat) =>
          && View() == old(View()) && Participates(old(View()), b, user)
          && (old(bookings)[b].status == Completed
              || (old(bookings)[b].status == InProgress && !CanConfirm(old(View()), b, user == old(bookings)[b].guest)))
        case Ok(Done) =>
          && Participates(old(View()), b, user)
          && var a := ConfirmBooking(b, user == old(bookings)[b].guest, now);
             Enabled(cfg, old(View()), a) && View() == Apply(cfg, old(View()), a)
    {
      if b >= |bookings| || bookings[b].listing >= |listings| {
        return Refused(NotFound);
      }
      var booking, listing := bookings[b], listings[bookings[b].listing];
      if user != booking.guest && user != listing.host {
        return Refused(NotParticipant);
      }
      var byGuest := user == booking.guest;
      if booking.status == Completed {
        return Ok(Repeat);
      }
      if booking.status != InProgress {
        return Refused(NotInProgress);
      }
      if (if byGuest then booking.guestConfirmed else booking.hostConfirmed) {
        return Ok(Repeat);
      }
      var updated := ApplyCompletionConfirmation(b, byGuest);
      if updated.value.status == Completed {
        NotifyTransition(b, Finished, [booking.guest, listing.host], now);
        spent := if booking.listing < |spent| then spent[booking.listing := spent[booking.listing] + 1] else spent;
      }
      return Ok(Done);
    }

    // ---- listing transactions ------------------------------------------------------------------

    /** The cap check, the row, its geocode job and its scan job; or a refusal that names the cap. */
    method CreateListing(host: nat, content: int, address: int, terms: int, start: int, seats: int, now: int)
      returns (r: Result<nat, Mehko.CapError>)
      modifies this
      ensures match r
        case Refused(e) =>
          View() == old(View()) && Mehko.AssertWithinCaps(caps, zone, Meals(listings, zone), host, start, seats, None) == Mehko.Exceeds(e)
        case Ok(l) =>
          && l == |old(listings)| && seats >= 1
          && var a := Action.CreateListing(Listing(host, content, address, terms, start, seats, seats, Unreviewed, true), now);
             Enabled(cfg, old(View()), a) && View() == Apply(cfg, old(View()), a)
      ensures Meals(listings, zone) == Mehko.Changed(caps, zone, Meals(old(listings), zone), Mehko.Create(host, start, seats))
      ensures CapsKept(caps, zone, old(listings), listings)
    {
      var checked := Mehko.AssertWithinCaps(caps, zone, Meals(listings, zone), host, start, seats, None);
      if checked.Exceeds? {
        return Refused(checked.error);
      }
      var row := Listing(host, content, address, terms, start, seats, seats, Unreviewed, true);
      CreatedMeals(caps, zone, listings, row);
      var l := |listings|;
      listings := listings + [row];
      spent := spent + [0];
      PostListing(l, now);
      return Ok(l);
    }

    method PostListing(l: nat, now: int)
      modifies this`jobs
      ensures jobs == Outbox.EnqueueAll(old(jobs), [Outbox.Posting(Geocode(l), None, now), Outbox.Posting(Scan(l), None, now)])
    {
      var geocode: Posting, scan: Posting := Outbox.Posting(Geocode(l), None, now), Outbox.Posting(Scan(l), None, now);
      var _, _ := Enqueue(geocode);
      var _, _ := Enqueue(scan);
      EnqueueNext(old(jobs), [], geocode);
      EnqueueNext(old(jobs), [geocode], scan);
      assert [] + [geocode] == [geocode] && [geocode] + [scan] == [geocode, scan];
    }

    method UpdateListing(user: nat, l: nat, patch: Patch, now: int) returns (r: Result<Change, ChangeError>)
      modifies this
      ensures match r
        case Refused(e) => View() == old(View()) && RefusesUpdate(caps, zone, old(View()), user, l, patch, e)
        case Ok(Repeat) =>
          View() == old(View()) && l < |old(listings)| && old(listings)[l].host == user && Diff(old(listings)[l], patch) == NoChange
        case Ok(Done) =>
          && l < |old(listings)| && old(listings)[l].host == user && CheckUpdate(caps, zone, old(listings), l, patch).Within?
          && var a := Action.UpdateListing(l, Diff(old(listings)[l], patch), 0, PendingIds(old(bookings), l), now);
             Enabled(cfg, old(View()), a) && View() == Apply(cfg, old(View()), a)
      ensures r == Ok(Done) ==>
                Meals(listings, zone) == Mehko.Changed(caps, zone, Meals(old(listings), zone), Mehko.Update(l, patch.start, patch.capacity))
      ensures CapsKept(caps, zone, old(listings), listings)
    {
      if l >= |listings| {
        return Refused(NotFound);
      }
      var current := listings[l];
      if current.host != user {
        return Refused(NotHost);
      }
      if !current.active {
        return Refused(ListingIsCancelled);
      }
      var checked := CheckUpdate(caps, zone, listings, l, patch);
      if checked.Exceeds? {
        return Refused(CapsExceeded(checked.error));
      }
      var active := Count(bookings, SeatsOn(l));
      if Or(patch.capacity, current.capacity) != current.capacity && Or(patch.capacity, current.capacity) < active {
        return Refused(CapacityBelowBooked);
      }
      var row, changed := PatchRow(current, patch, active);
      if !changed {
        return Ok(Repeat);
      }
      UpdatedMeals(caps, zone, listings, l, patch, active);
      WriteUpdate(l, row, Diff(current, patch), now);
      return Ok(Done);
    }

    /** The update's statements. */
    method WriteUpdate(l: nat, row: Listing, diff: Patch, now: int)
      requires l < |listings|
      modifies this
      ensures listings == old(listings)[l := row] && bookings == old(bookings) && history == old(history)
      ensures spent == if diff.capacity.Some? && l < |old(spent)| then old(spent)[l := 0] else old(spent)
      ensures jobs == Outbox.EnqueueAll(old(jobs), UpdatePostings(l, row, diff, PendingIds(bookings, l), now))
    {
      listings := listings[l := row];
      spent := if diff.capacity.Some? && l < |spent| then spent[l := 0] else spent;
      PostUpdate(l, row, diff, PendingIds(bookings, l), now);
    }

    /** The row an update writes, built field by field. */
    static method PatchRow(current: Listing, patch: Patch, active: nat) returns (row: Listing, changed: bool)
      ensures row == Patched(current, Diff(current, patch), active)
      ensures changed <==> Diff(current, patch) != NoChange
    {
      row, changed := PatchFields(current, patch);
      if patch.start.Some? && patch.start.value != current.start {
        row, changed := row.(start := patch.start.value), true;
      }
      if patch.capacity.Some? && patch.capacity.value != current.capacity {
        row, changed := row.(capacity := patch.capacity.value, remaining := patch.capacity.value - active), true;
      }
    }

    static method PatchFields(current: Listing, patch: Patch) returns (row: Listing, changed: bool)
      ensures var d := Diff(current, patch);
        row == current.(content := Or(d.content, current.content), address := Or(d.address, current.address),
                        terms := Or(d.terms, current.terms), moderation := if d.content.Some? then Unreviewed else current.moderation)
      ensures changed <==> var d := Diff(current, patch); d.content.Some? || d.address.Some? || d.terms.Some?
    {
      row, changed := current, false;
      if patch.content.Some? && patch.content.value != current.content {
        row, changed := row.(content := patch.content.value, moderation := Unreviewed), true;
      }
      if patch.address.Some? && patch.address.value != current.address {
        row, changed := row.(address := patch.address.value), true;
      }
      if patch.terms.Some? && patch.terms.value != current.terms {
        row, changed := row.(terms := patch.terms.value), true;
      }
    }

    /** The deferred work of an update, and the reschedule fan-out over the pending bookings. */
    method PostUpdate(l: nat, row: Listing, diff: Patch, pending: seq<nat>, now: int)
      modifies this`jobs
      ensures jobs == Outbox.EnqueueAll(old(jobs), UpdatePostings(l, row, diff, pending, now))
    {
      EnqueueIf(diff.content.Some?, Outbox.Posting(Scan(l), None, now));
      EnqueueIf(diff.address.Some?, Outbox.Posting(Geocode(l), None, now));
      if diff.start.Some? {
        EnqueuePromotions(pending, row.start);
      }
      ghost var scans: seq<Posting> := if diff.content.Some? then [Outbox.Posting(Scan(l), None, now)] else [];
      ghost var geocodes: seq<Posting> := if diff.address.Some? then [Outbox.Posting(Geocode(l), None, now)] else [];
      EnqueueMore(old(jobs), scans, geocodes);
      EnqueueMore(old(jobs), scans + geocodes, if diff.start.Some? then Promotions(pending, row.start) else []);
    }

    method EnqueueIf(wanted: bool, p: Posting)
      modifies this`jobs
      ensures jobs == Outbox.EnqueueAll(old(jobs), if wanted then [p] else [])
    {
      if wanted {
        EnqueueNext(old(jobs), [], p);
        assert [] + [p] == [p];
        var _, _ := Enqueue(p);
      }
    }

    method EnqueuePromotions(pending: seq<nat>, at: int)
      modifies this`jobs
      ensures jobs == Outbox.EnqueueAll(old(jobs), Promotions(pending, at))
    {
      ghost var ps := Promotions(pending, at);
      for i := 0 to |pending|
        invariant jobs == Outbox.EnqueueAll(old(jobs), ps[..i])
      {
        EnqueueNext(old(jobs), ps[..i], ps[i]);
        assert ps[..i + 1] == ps[..i] + [ps[i]];
        var _, _ := EnqueuePromotion(pending[i], at);
      }
      assert ps[..|pending|] == ps;
    }

    method CancelListing(user: nat, l: nat, now: int) returns (r: Result<Change, ChangeError>, affected: seq<nat>)
      modifies this
      ensures match r
        case Refused(e) =>
          View() == old(View()) && affected == [] && e == (if l >= |old(listings)| then NotFound else NotHost)
          && (l < |old(listings)| ==> old(listings)[l].host != user)
        case Ok(Repeat) =>
          && View() == old(View()) && affected == [] && l < |old(listings)| && !old(listings)[l].active
        case Ok(Done) =>
          && affected == Affected(old(bookings), l) && l < |old(listings)| && old(listings)[l].host == user
          && var a := Action.CancelListing(l, now);
             Enabled(cfg, old(View()), a) && View() == Apply(cfg, old(View()), a)
      ensures CapsKept(caps, zone, old(listings), listings)
    {
      affected := [];
      if l >= |listings| {
        return Refused(NotFound), [];
      }
      if listings[l].host != user {
        return Refused(NotHost), [];
      }
      if !listings[l].active {
        return Ok(Repeat), [];
      }
      CancelledMeals(caps, zone, listings, l);
      affected := CloseListing(l, now);
      r := Ok(Done);
    }

    /** The cascade's statements. */
    method CloseListing(l: nat, now: int) returns (affected: seq<nat>)
      requires l < |listings|
      modifies this
      ensures affected == Affected(old(bookings), l) && listings == old(listings)[l := old(listings)[l].(active := false)]
      ensures bookings == Swept(old(bookings), l) && history == SweptHistory(old(View()), l) && spent == old(spent)
      ensures jobs == Outbox.EnqueueAll(old(jobs), Farewells(old(bookings), affected, now))
    {
      affected := Affected(bookings, l);
      history := SweptHistory(View(), l);
      listings := listings[l := listings[l].(active := false)];
      bookings := Swept(bookings, l);
      assert Farewells(bookings, affected, now) == Farewells(old(bookings), affected, now);
      NotifyAffected(bookings, affected, now);
    }

    /** One notification per booking the cascade cancelled, to its guest. */
    method NotifyAffected(cancelled: seq<Booking>, affected: seq<nat>, now: int)
      requires forall i :: 0 <= i < |affected| ==> affected[i] < |cancelled|
      modifies this`jobs
      ensures jobs == Outbox.EnqueueAll(old(jobs), Farewells(cancelled, affected, now))
    {
      ghost var ps := Farewells(cancelled, affected, now);
      for i := 0 to |affected|
        invariant jobs == Outbox.EnqueueAll(old(jobs), ps[..i])
      {
        EnqueueNext(old(jobs), ps[..i], ps[i]);
        assert ps[..i + 1] == ps[..i] + [ps[i]];
        var _, _ := Enqueue(Farewell(affected[i], cancelled[affected[i]].guest, now));
      }
      assert ps[..|affected|] == ps;
    }

    // ---- promotion -----------------------------------------------------------------------------

    method SecurePromotionSchedule(b: nat, at: int, delivering: Option<nat>) returns (row: Option<nat>)
      modifies this`jobs
      ensures var r := SecureSchedule(old(jobs), b, at, delivering); jobs == r.jobs && row == r.row
    {
      row := TryKey(b, at, PromotionAt(b, at), delivering);
      if row.None? {
        row := TryKey(b, at, PromotionAgain(b, at, delivering), delivering);
      }
    }

    method TryKey(b: nat, at: int, key: Key, delivering: Option<nat>) returns (row: Option<nat>)
      modifies this`jobs
      ensures var r := Attempt(old(jobs), b, at, key, delivering); jobs == r.jobs && row == r.row
    {
      var id, deduped := Enqueue(Outbox.Posting(Promote(b), Some(key), at));
      if !deduped {
        return Some(id);
      }
      if delivering == Some(id) {
        return None;
      }
      row := if Outbox.IsLive(jobs, id) then Some(id) else None;
    }

    /** The handler's own transaction; Unsecured is the throw, which rolls it back. */
    method PromoteDueBooking(b: nat, delivering: Option<nat>, nodeNow: int, now: int) returns (outcome: Outcome)
      modifies this
      ensures var start := if b < |old(bookings)| && old(bookings)[b].listing < |old(listings)| then StartOf(old(View()), b) else 0;
        var h := PromoteDue(old(View()), b, delivering, start, nodeNow, now); View() == h.state && outcome == h.outcome
    {
      if b >= |bookings| || bookings[b].listing >= |listings| {
        return Noop;
      }
      var booking, listing := bookings[b], listings[bookings[b].listing];
      if booking.status != BookingStatus.Pending || !listing.active {
        return Noop;
      }
      if listing.start > nodeNow {
        var secured := SecurePromotionSchedule(b, listing.start, delivering);
        return if secured.None? then Unsecured else Rescheduled;
      }
      var promoted := PromotePending(b);
      if !promoted {
        return Noop;
      }
      NotifyTransition(b, Started, [booking.guest, listing.host], now);
      return Promoted;
    }
  }
}
