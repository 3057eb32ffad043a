/** What every transaction of the booking protocol keeps, and what every run therefore guarantees. */
module BookingInvariants {
  import opened Tables
  import opened Bookings
  import Outbox

  // ---- the invariant ---------------------------------------------------------------------------

  ghost predicate Linked(s: State)
  {
    && |s.spent| == |s.listings| && |s.history| == |s.bookings|
    && forall b :: 0 <= b < |s.bookings| ==>
         s.bookings[b].listing < |s.listings| && s.bookings[b].guest != s.listings[s.bookings[b].listing].host
  }

  /** The transitions a booking has been through are a path of the lifecycle that ends at its status. */
  ghost predicate StoryFits(story: seq<Event>, bk: Booking)
  {
    match bk.status
    case Pending => story == [Created] && !bk.guestConfirmed && !bk.hostConfirmed
    case InProgress => story == [Created, Started] && !(bk.guestConfirmed && bk.hostConfirmed)
    case Completed => story == [Created, Started, Finished] && bk.guestConfirmed && bk.hostConfirmed
    case Cancelled =>
      && !(bk.guestConfirmed && bk.hostConfirmed)
      && ((story in {[Created, CancelledByGuest], [Created, CancelledByHost], [Created, ListingCancelled]}
           && !bk.guestConfirmed && !bk.hostConfirmed)
          || story == [Created, Started, ListingCancelled])
  }

  ghost predicate Shaped(s: State)
  {
    && Linked(s)
    && forall b :: 0 <= b < |s.bookings| ==>
         && StoryFits(s.history[b], s.bookings[b])
         && (s.listings[s.bookings[b].listing].active || !HoldsSeat(s.bookings[b]))
  }

  ghost predicate SeatsAt(s: State, l: nat)
    requires l < |s.listings| && l < |s.spent|
  {
    && s.listings[l].capacity >= 1
    && 0 <= s.listings[l].remaining <= s.listings[l].capacity
    && (s.listings[l].active ==>
          s.listings[l].remaining + Count(s.bookings, SeatsOn(l)) + s.spent[l] == s.listings[l].capacity)
  }

  ghost predicate Seated(s: State)
    requires |s.spent| == |s.listings|
  {
    forall l :: 0 <= l < |s.listings| ==> SeatsAt(s, l)
  }

  ghost predicate Capped(cfg: Config, s: State)
  {
    forall guest: nat :: Count(s.bookings, PendingOf(guest)) <= cfg.maxPending
  }

  /** The key of a row and what the row is for determine each other. */
  ghost predicate Routed(jobs: Jobs, bookings: nat)
  {
    forall j :: 0 <= j < |jobs.jobs| ==> KeyFits(jobs.jobs[j].key, jobs.jobs[j].payload, bookings)
  }

  ghost predicate KeyFits(key: Option<Key>, payload: Payload, bookings: nat)
  {
    match payload
    case Promote(b) => b < bookings && key.Some? && (key.value.PromotionAt? || key.value.PromotionAgain?) && key.value.booking == b
    case Notify(b, e, r) => key == Some(if e == ListingCancelled then ListingGone(b) else NotificationTo(b, e, r))
    case _ => key == None
  }

  ghost predicate HasNotice(jobs: Jobs, b: nat, e: Event, r: nat)
  {
    exists j :: 0 <= j < |jobs.jobs| && jobs.jobs[j].payload == Notify(b, e, r)
  }

  /** Who a transition is announced to: both participants, or the guest alone when the listing goes. */
  ghost function Recipients(s: State, b: nat, e: Event): seq<nat>
    requires b < |s.bookings| && s.bookings[b].listing < |s.listings|
  {
    if e == ListingCancelled then [s.bookings[b].guest] else Participants(s, b)
  }

  ghost predicate Announced(s: State, b: nat, e: Event, r: nat)
    requires Linked(s)
  {
    b < |s.bookings| && e in s.history[b] && r in Recipients(s, b, e)
  }

  ghost predicate Told(s: State)
    requires Linked(s)
  {
    forall b: nat, e: Event, r: nat :: HasNotice(s.jobs, b, e, r) <==> Announced(s, b, e, r)
  }

  ghost predicate Schedules(jobs: Jobs, j: nat, b: nat)
  {
    Outbox.Undelivered(jobs, j) && jobs.jobs[j].payload == Promote(b)
  }

  ghost predicate HasSchedule(jobs: Jobs, b: nat)
  {
    exists j :: Schedules(jobs, j, b)
  }

  /** No promotion is lost. */
  ghost predicate Scheduled(s: State)
  {
    forall b :: Awaits(s, b) ==> HasSchedule(s.jobs, b)
  }

  ghost predicate Inv(cfg: Config, s: State)
  {
    && Outbox.Valid(cfg.policy, s.jobs)
    && Shaped(s) && Seated(s) && Capped(cfg, s)
    && Routed(s.jobs, |s.bookings|) && Told(s) && Scheduled(s)
  }

  // ---- growing the outbox ----------------------------------------------------------------------

  function NewJobs(ps: seq<Posting>): seq<Outbox.Job<Payload, Key>>
  {
    seq(|ps|, i requires 0 <= i < |ps| => Outbox.NewJob(ps[i]))
  }

  ghost predicate Fresh(jobs: Jobs, ps: seq<Posting>)
  {
    && (forall i :: 0 <= i < |ps| && ps[i].key.Some? ==> !Outbox.HasKey(jobs, ps[i].key.value))
    && (forall i, k :: 0 <= i < k < |ps| && ps[i].key.Some? ==> ps[i].key != ps[k].key)
  }

  /** Postings under fresh keys are all inserted: none is deduplicated away. */
  lemma {:induction false} FreshAppend(jobs: Jobs, ps: seq<Posting>)
    requires Fresh(jobs, ps)
    ensures Outbox.EnqueueAll(jobs, ps) == jobs.(jobs := jobs.jobs + NewJobs(ps))
  {
    if ps == [] {
      assert jobs.jobs + NewJobs(ps) == jobs.jobs;
    } else {
      var init, last := ps[..|ps| - 1], ps[|ps| - 1];
      assert Fresh(jobs, init);
      FreshAppend(jobs, init);
      var mid := jobs.(jobs := jobs.jobs + NewJobs(init));
      if last.key.Some? && Outbox.HasKey(mid, last.key.value) {
        assert false;
      }
      assert jobs.jobs + NewJobs(ps) == mid.jobs + [Outbox.NewJob(last)];
    }
  }

  /** Appending rows can only add schedules. */
  lemma AppendKeepsSchedule(jobs: Jobs, jobs': Jobs, b: nat)
    requires jobs.jobs <= jobs'.jobs && jobs'.claims == jobs.claims && HasSchedule(jobs, b)
    ensures HasSchedule(jobs', b)
  {
    var j :| Schedules(jobs, j, b);
    forall w | Outbox.Holds(jobs', w, j)
      ensures Outbox.Holds(jobs, w, j)
    {
    }
    assert Schedules(jobs', j, b);
  }

  /** Enqueueing through the dedupe keeps the outbox valid and its rows routed. */
  lemma PostAllOk(cfg: Config, jobs: Jobs, ps: seq<Posting>, bookings: nat, bookings': nat)
    requires cfg.policy.Valid() && Outbox.Valid(cfg.policy, jobs) && Routed(jobs, bookings) && bookings <= bookings'
    requires forall i :: 0 <= i < |ps| ==> KeyFits(ps[i].key, ps[i].payload, bookings')
    ensures var jobs' := Outbox.EnqueueAll(jobs, ps);
      && Outbox.Valid(cfg.policy, jobs') && Routed(jobs', bookings')
      && jobs.jobs <= jobs'.jobs
      && (forall b :: HasSchedule(jobs, b) ==> HasSchedule(jobs', b))
  {
    Outbox.EnqueueAllAppends(jobs, ps);
    var jobs' := Outbox.EnqueueAll(jobs, ps);
    forall j | 0 <= j < |jobs'.jobs|
      ensures Outbox.JobOk(cfg.policy, jobs'.jobs[j]) && KeyFits(jobs'.jobs[j].key, jobs'.jobs[j].payload, bookings')
    {
      if j < |jobs.jobs| {
        assert jobs'.jobs[j] == jobs.jobs[j];
      } else {
        var i :| 0 <= i < |ps| && jobs'.jobs[j] == Outbox.NewJob(ps[i]);
      }
    }
    assert forall w, j: nat :: Outbox.Holds(jobs', w, j) ==> Outbox.Holds(jobs, w, j) && jobs'.jobs[j] == jobs.jobs[j];
    forall b | HasSchedule(jobs, b)
      ensures HasSchedule(jobs', b)
    {
      AppendKeepsSchedule(jobs, jobs', b);
    }
  }

  /** Postings that announce nothing leave the notifications as they are. */
  lemma QuietPost(jobs: Jobs, ps: seq<Posting>, b: nat, e: Event, r: nat)
    requires forall i :: 0 <= i < |ps| ==> !ps[i].payload.Notify?
    ensures HasNotice(Outbox.EnqueueAll(jobs, ps), b, e, r) <==> HasNotice(jobs, b, e, r)
  {
    Outbox.EnqueueAllAppends(jobs, ps);
    var jobs' := Outbox.EnqueueAll(jobs, ps);
    assert forall j :: 0 <= j < |jobs.jobs| ==> jobs'.jobs[j] == jobs.jobs[j];
  }

  /** Fresh notices add themselves and nothing else. */
  lemma LoudPost(jobs: Jobs, ps: seq<Posting>, b: nat, e: Event, r: nat)
    requires Fresh(jobs, ps)
    ensures HasNotice(Outbox.EnqueueAll(jobs, ps), b, e, r) <==>
      HasNotice(jobs, b, e, r) || exists i :: 0 <= i < |ps| && ps[i].payload == Notify(b, e, r)
  {
    FreshAppend(jobs, ps);
    NoticesAppend(jobs, Outbox.EnqueueAll(jobs, ps), ps, b, e, r);
  }

  lemma NoticesAppend(jobs: Jobs, jobs': Jobs, ps: seq<Posting>, b: nat, e: Event, r: nat)
    requires jobs'.jobs == jobs.jobs + NewJobs(ps)
    ensures HasNotice(jobs', b, e, r) <==> HasNotice(jobs, b, e, r) || exists i :: 0 <= i < |ps| && ps[i].payload == Notify(b, e, r)
  {
    var n := |jobs.jobs|;
    if HasNotice(jobs, b, e, r) {
      var j :| 0 <= j < n && jobs.jobs[j].payload == Notify(b, e, r);
      assert jobs'.jobs[j].payload == Notify(b, e, r);
    } else if i :| 0 <= i < |ps| && ps[i].payload == Notify(b, e, r) {
      assert jobs'.jobs[n + i].payload == Notify(b, e, r);
    } else {
      forall j | 0 <= j < |jobs'.jobs|
        ensures jobs'.jobs[j].payload != Notify(b, e, r)
      {
        assert jobs'.jobs[j].payload == if j < n then jobs.jobs[j].payload else ps[j - n].payload;
      }
    }
  }

  /** The notices of a transition a booking has not been through yet carry fresh keys. */
  lemma NewTransitionIsFresh(s: State, b: nat, e: Event, recipients: seq<nat>, now: int)
    requires Linked(s) && Told(s) && Routed(s.jobs, |s.bookings|)
    requires e != ListingCancelled && (b < |s.history| ==> e !in s.history[b])
    requires forall i, k :: 0 <= i < k < |recipients| ==> recipients[i] != recipients[k]
    ensures Fresh(s.jobs, Notices(b, e, recipients, now))
  {
    var ps := Notices(b, e, recipients, now);
    forall i | 0 <= i < |ps|
      ensures !Outbox.HasKey(s.jobs, ps[i].key.value)
    {
      assert !HasNotice(s.jobs, b, e, recipients[i]);
      forall j | 0 <= j < |s.jobs.jobs|
        ensures s.jobs.jobs[j].key != Some(NotificationTo(b, e, recipients[i]))
      {
        assert KeyFits(s.jobs.jobs[j].key, s.jobs.jobs[j].payload, |s.bookings|);
      }
    }
  }

  /** A change of the outbox alone that neither announces nor unschedules anything keeps the invariant. */
  lemma JobsOnly(cfg: Config, s: State, jobs: Jobs)
    requires Inv(cfg, s) && Outbox.Valid(cfg.policy, jobs) && Routed(jobs, |s.bookings|)
    requires forall b: nat, e: Event, r: nat :: HasNotice(jobs, b, e, r) <==> HasNotice(s.jobs, b, e, r)
    requires forall b :: Awaits(s, b) ==> HasSchedule(jobs, b)
    ensures Inv(cfg, s.(jobs := jobs))
  {
    var s' := s.(jobs := jobs);
    assert forall b: nat, e: Event, r: nat :: Announced(s', b, e, r) <==> Announced(s, b, e, r);
    assert forall b :: Awaits(s', b) ==> Awaits(s, b);
    SeatsFrame(s, s');
  }

  /** Seats depend on bookings, capacity, remaining seats and completions alone. */
  lemma SeatsFrame(s: State, s': State)
    requires |s.spent| == |s.listings| && Seated(s)
    requires s'.bookings == s.bookings && s'.spent == s.spent && |s'.listings| == |s.listings|
    requires forall l :: 0 <= l < |s.listings| ==>
               && s'.listings[l].capacity == s.listings[l].capacity && s'.listings[l].remaining == s.listings[l].remaining
               && s'.listings[l].active == s.listings[l].active
    ensures Seated(s')
  {
    forall l | 0 <= l < |s.listings|
      ensures SeatsAt(s', l)
    {
      assert SeatsAt(s, l);
    }
  }

  // ---- the outbox's own steps ------------------------------------------------------------------

  lemma WorkKeeps(cfg: Config, s: State, step: Step)
    requires cfg.policy.Valid() && Inv(cfg, s) && CanWork(s, step)
    ensures Inv(cfg, Apply(cfg, s, Work(step)))
  {
    var jobs := Outbox.Apply(cfg.policy, s.jobs, step);
    Outbox.ValidStep(cfg.policy, s.jobs, step);
    SamePurpose(cfg, s.jobs, step);
    forall b | Awaits(s, b)
      ensures HasSchedule(jobs, b)
    {
      var j :| Schedules(s.jobs, j, b);
      Outbox.UndeliveredStep(cfg.policy, s.jobs, step, j);
      assert Schedules(jobs, j, b);
    }
    JobsOnly(cfg, s, jobs);
  }

  /** A step that posts nothing leaves every row for what it is for. */
  lemma SamePurpose(cfg: Config, jobs: Jobs, step: Step)
    requires Outbox.ClaimsOk(jobs) && Outbox.Enabled(jobs, step) && !step.Post?
    ensures var jobs' := Outbox.Apply(cfg.policy, jobs, step);
      && |jobs'.jobs| == |jobs.jobs|
      && (forall j :: 0 <= j < |jobs.jobs| ==> jobs'.jobs[j].payload == jobs.jobs[j].payload && jobs'.jobs[j].key == jobs.jobs[j].key)
      && (forall b: nat, e: Event, r: nat :: HasNotice(jobs', b, e, r) <==> HasNotice(jobs, b, e, r))
      && (forall bookings: nat :: Routed(jobs, bookings) ==> Routed(jobs', bookings))
  {
    Outbox.ContinuesStep(cfg.policy, jobs, step);
  }

  // ---- listings --------------------------------------------------------------------------------

  lemma CreateListingKeeps(cfg: Config, s: State, row: Listing, now: int)
    requires cfg.policy.Valid() && Inv(cfg, s) && Enabled(cfg, s, CreateListing(row, now))
    ensures Inv(cfg, Apply(cfg, s, CreateListing(row, now)))
  {
    var s' := Apply(cfg, s, CreateListing(row, now));
    var l := |s.listings|;
    var ps := [Outbox.Posting(Geocode(l), None, now), Outbox.Posting(Scan(l), None, now)];
    PostAllOk(cfg, s.jobs, ps, |s.bookings|, |s.bookings|);
    forall b: nat, e: Event, r: nat
      ensures HasNotice(s'.jobs, b, e, r) <==> Announced(s', b, e, r)
    {
      QuietPost(s.jobs, ps, b, e, r);
      assert Announced(s', b, e, r) <==> Announced(s, b, e, r);
    }
    CountNone(s.bookings, SeatsOn(l));
    assert forall k :: 0 <= k < l ==> SeatsAt(s, k) && s'.listings[k] == s.listings[k];
    assert forall b :: Awaits(s', b) ==> Awaits(s, b);
  }

  lemma ModerateKeeps(cfg: Config, s: State, l: nat, verdict: Moderation)
    requires Inv(cfg, s) && Enabled(cfg, s, Moderate(l, verdict))
    ensures Inv(cfg, Apply(cfg, s, Moderate(l, verdict)))
  {
    var s' := Apply(cfg, s, Moderate(l, verdict));
    assert forall b: nat, e: Event, r: nat :: Announced(s', b, e, r) <==> Announced(s, b, e, r);
    SeatsFrame(s, s');
    assert forall b :: Awaits(s', b) ==> Awaits(s, b);
  }

  lemma UpdateKeeps(cfg: Config, s: State, l: nat, patch: Patch, late: nat, fanout: seq<nat>, now: int)
    requires cfg.policy.Valid() && Inv(cfg, s) && CanUpdate(s, l, patch, late, fanout)
    ensures Inv(cfg, Update(s, l, patch, late, fanout, now))
  {
    var s' := Update(s, l, patch, late, fanout, now);
    var ps := UpdatePostings(l, s'.listings[l], patch, fanout, now);
    forall i | 0 <= i < |ps|
      ensures KeyFits(ps[i].key, ps[i].payload, |s.bookings|) && !ps[i].payload.Notify?
    {
    }
    PostAllOk(cfg, s.jobs, ps, |s.bookings|, |s.bookings|);
    UpdateSeats(s, l, patch, late, fanout, now);
    forall b: nat, e: Event, r: nat
      ensures HasNotice(s'.jobs, b, e, r) <==> Announced(s', b, e, r)
    {
      QuietPost(s.jobs, ps, b, e, r);
      assert Announced(s', b, e, r) <==> Announced(s, b, e, r);
    }
    assert forall b :: Awaits(s', b) ==> Awaits(s, b);
  }

  /** A resize re-derives the seats left from its count; completions since then are the ones spent. */
  lemma UpdateSeats(s: State, l: nat, patch: Patch, late: nat, fanout: seq<nat>, now: int)
    requires |s.spent| == |s.listings| && Seated(s) && CanUpdate(s, l, patch, late, fanout)
    ensures Seated(Update(s, l, patch, late, fanout, now))
  {
    var s' := Update(s, l, patch, late, fanout, now);
    forall k | 0 <= k < |s.listings|
      ensures SeatsAt(s', k)
    {
      assert SeatsAt(s, k);
    }
  }

  lemma CancelListingKeeps(cfg: Config, s: State, l: nat, now: int)
    requires cfg.policy.Valid() && Inv(cfg, s) && Enabled(cfg, s, CancelListing(l, now))
    ensures Inv(cfg, Apply(cfg, s, CancelListing(l, now)))
  {
    var s' := Apply(cfg, s, CancelListing(l, now));
    var ps := Farewells(s.bookings, Affected(s.bookings, l), now);
    PostAllOk(cfg, s.jobs, ps, |s.bookings|, |s.bookings|);
    CancelListingShape(cfg, s, l, now);
    CancelListingCounts(cfg, s, l, now);
    CancelListingTold(cfg, s, l, now);
    assert forall b :: Awaits(s', b) ==> Awaits(s, b);
  }

  lemma CancelListingShape(cfg: Config, s: State, l: nat, now: int)
    requires Shaped(s) && Enabled(cfg, s, CancelListing(l, now))
    ensures Shaped(Apply(cfg, s, CancelListing(l, now)))
  {
    var s' := Apply(cfg, s, CancelListing(l, now));
    forall b | 0 <= b < |s.bookings|
      ensures StoryFits(s'.history[b], s'.bookings[b])
    {
      assert StoryFits(s.history[b], s.bookings[b]);
      assert [Created] + [ListingCancelled] == [Created, ListingCancelled];
      assert [Created, Started] + [ListingCancelled] == [Created, Started, ListingCancelled];
    }
  }

  lemma CancelListingCounts(cfg: Config, s: State, l: nat, now: int)
    requires |s.spent| == |s.listings| && Seated(s) && Capped(cfg, s) && Enabled(cfg, s, CancelListing(l, now))
    ensures var s' := Apply(cfg, s, CancelListing(l, now)); Seated(s') && Capped(cfg, s')
  {
    var s' := Apply(cfg, s, CancelListing(l, now));
    forall k | 0 <= k < |s.listings|
      ensures SeatsAt(s', k)
    {
      assert SeatsAt(s, k);
      if k != l {
        CountSame(s.bookings, s'.bookings, SeatsOn(k), SeatsOn(k));
      }
    }
    forall guest: nat
      ensures Count(s'.bookings, PendingOf(guest)) <= cfg.maxPending
    {
      CountMonotone(s'.bookings, s.bookings, PendingOf(guest), PendingOf(guest));
    }
  }

  lemma CancelListingTold(cfg: Config, s: State, l: nat, now: int)
    requires Shaped(s) && Told(s) && Routed(s.jobs, |s.bookings|) && Enabled(cfg, s, CancelListing(l, now))
    requires Linked(Apply(cfg, s, CancelListing(l, now)))
    ensures Told(Apply(cfg, s, CancelListing(l, now)))
  {
    var s' := Apply(cfg, s, CancelListing(l, now));
    var ps := Farewells(s.bookings, Affected(s.bookings, l), now);
    FarewellsAreFresh(s, l, now);
    forall b: nat, e: Event, r: nat
      ensures HasNotice(s'.jobs, b, e, r) <==> Announced(s', b, e, r)
    {
      LoudPost(s.jobs, ps, b, e, r);
      FarewellFor(s.bookings, l, now, b, e, r);
      SweepAnnounces(cfg, s, l, now, b, e, r);
    }
  }

  lemma FarewellFor(bookings: seq<Booking>, l: nat, now: int, b: nat, e: Event, r: nat)
    ensures var ps := Farewells(bookings, Affected(bookings, l), now);
      (exists i :: 0 <= i < |ps| && ps[i].payload == Notify(b, e, r)) <==>
      (b < |bookings| && SeatsOn(l)(bookings[b]) && e == ListingCancelled && r == bookings[b].guest)
  {
    var ids := Affected(bookings, l);
    var ps := Farewells(bookings, ids, now);
    assert forall i :: 0 <= i < |ps| ==> ps[i].payload == Notify(ids[i], ListingCancelled, bookings[ids[i]].guest);
    if b < |bookings| && SeatsOn(l)(bookings[b]) && e == ListingCancelled && r == bookings[b].guest {
      var i :| 0 <= i < |ids| && ids[i] == b;
      assert ps[i].payload == Notify(b, e, r);
    }
  }

  lemma SweepAnnounces(cfg: Config, s: State, l: nat, now: int, b: nat, e: Event, r: nat)
    requires Linked(s) && Enabled(cfg, s, CancelListing(l, now)) && Linked(Apply(cfg, s, CancelListing(l, now)))
    ensures Announced(Apply(cfg, s, CancelListing(l, now)), b, e, r) <==>
      Announced(s, b, e, r)
      || (b < |s.bookings| && SeatsOn(l)(s.bookings[b]) && e == ListingCancelled && r == s.bookings[b].guest)
  {
    var s' := Apply(cfg, s, CancelListing(l, now));
    assert b < |s.bookings| ==> Recipients(s', b, e) == Recipients(s, b, e);
  }

  lemma FarewellsAreFresh(s: State, l: nat, now: int)
    requires Shaped(s) && Told(s) && Routed(s.jobs, |s.bookings|)
    ensures Fresh(s.jobs, Farewells(s.bookings, Affected(s.bookings, l), now))
  {
    var ids := Affected(s.bookings, l);
    var ps := Farewells(s.bookings, ids, now);
    forall i | 0 <= i < |ps|
      ensures !Outbox.HasKey(s.jobs, ps[i].key.value)
    {
      assert StoryFits(s.history[ids[i]], s.bookings[ids[i]]);
      forall j | 0 <= j < |s.jobs.jobs|
        ensures s.jobs.jobs[j].key != Some(ListingGone(ids[i]))
      {
        var payload := s.jobs.jobs[j].payload;
        assert KeyFits(s.jobs.jobs[j].key, payload, |s.bookings|);
        assert payload.Notify? ==> !Announced(s, ids[i], ListingCancelled, payload.recipient);
        assert payload.Notify? ==> !HasNotice(s.jobs, ids[i], ListingCancelled, payload.recipient);
      }
    }
  }

  // ---- bookings --------------------------------------------------------------------------------

  lemma BookKeeps(cfg: Config, s: State, guest: nat, l: nat, now: int)
    requires cfg.policy.Valid() && Inv(cfg, s) && CanBook(cfg, s, guest, l, now)
    ensures Inv(cfg, Book(s, guest, l, now))
  {
    var s' := Book(s, guest, l, now);
    BookingIsFresh(s, guest, l, now);
    PostAllOk(cfg, s.jobs, BookPostings(s, guest, l, now), |s.bookings|, |s.bookings| + 1);
    BookCounts(cfg, s, guest, l, now);
    BookTold(s, guest, l, now);
    BookSchedules(s, guest, l, now);
    assert forall b :: Awaits(s', b) && b != |s.bookings| ==> Awaits(s, b);
  }

  function BookPostings(s: State, guest: nat, l: nat, now: int): (ps: seq<Posting>)
    requires l < |s.listings|
    ensures ps == [Notice(|s.bookings|, Created, guest, now), Notice(|s.bookings|, Created, s.listings[l].host, now),
                   Promotion(|s.bookings|, s.listings[l].start)]
  {
    Notices(|s.bookings|, Created, [guest, s.listings[l].host], now) + [Promotion(|s.bookings|, s.listings[l].start)]
  }

  lemma BookCounts(cfg: Config, s: State, guest: nat, l: nat, now: int)
    requires |s.spent| == |s.listings| && Seated(s) && Capped(cfg, s) && CanBook(cfg, s, guest, l, now)
    ensures Seated(Book(s, guest, l, now)) && Capped(cfg, Book(s, guest, l, now))
  {
    var s' := Book(s, guest, l, now);
    var bk := s'.bookings[|s.bookings|];
    forall k | 0 <= k < |s.listings|
      ensures SeatsAt(s', k)
    {
      assert SeatsAt(s, k);
    }
    forall g: nat
      ensures Count(s'.bookings, PendingOf(g)) <= cfg.maxPending
    {
    }
  }

  lemma BookTold(s: State, guest: nat, l: nat, now: int)
    requires Shaped(s) && Told(s) && l < |s.listings| && s.listings[l].host != guest
    requires Fresh(s.jobs, BookPostings(s, guest, l, now))
    ensures Linked(Book(s, guest, l, now)) && Told(Book(s, guest, l, now))
  {
    var s', b0, ps := Book(s, guest, l, now), |s.bookings|, BookPostings(s, guest, l, now);
    forall b: nat, e: Event, r: nat
      ensures HasNotice(s'.jobs, b, e, r) <==> Announced(s', b, e, r)
    {
      LoudPost(s.jobs, ps, b, e, r);
      assert b < b0 ==> (Announced(s', b, e, r) <==> Announced(s, b, e, r));
      assert ps[0].payload == Notify(b0, Created, guest) && ps[1].payload == Notify(b0, Created, s.listings[l].host);
    }
  }

  lemma BookSchedules(s: State, guest: nat, l: nat, now: int)
    requires Outbox.ClaimsOk(s.jobs) && l < |s.listings|
    requires Fresh(s.jobs, BookPostings(s, guest, l, now))
    ensures HasSchedule(Book(s, guest, l, now).jobs, |s.bookings|)
  {
    var jobs', ps, row := Book(s, guest, l, now).jobs, BookPostings(s, guest, l, now), |s.jobs.jobs| + 2;
    FreshAppend(s.jobs, ps);
    assert jobs'.jobs[row] == Outbox.NewJob(ps[2]);
    assert forall w :: Outbox.Holds(jobs', w, row) ==> Outbox.Holds(s.jobs, w, row);
    assert Schedules(jobs', row, |s.bookings|);
  }

  lemma BookingIsFresh(s: State, guest: nat, l: nat, now: int)
    requires Shaped(s) && Told(s) && Routed(s.jobs, |s.bookings|) && l < |s.listings| && s.listings[l].host != guest
    ensures Fresh(s.jobs, BookPostings(s, guest, l, now))
  {
    var b := |s.bookings|;
    NewTransitionIsFresh(s, b, Created, [guest, s.listings[l].host], now);
    forall j | 0 <= j < |s.jobs.jobs|
      ensures s.jobs.jobs[j].key != Some(PromotionAt(b, s.listings[l].start))
    {
      assert KeyFits(s.jobs.jobs[j].key, s.jobs.jobs[j].payload, b);
    }
  }

  /** A transition of one booking, announced to both participants. */
  lemma TransitionTold(s: State, s': State, b0: nat, e0: Event, now: int)
    requires Linked(s) && Told(s) && Routed(s.jobs, |s.bookings|) && Linked(s')
    requires b0 < |s.bookings| && e0 != ListingCancelled && e0 !in s.history[b0]
    requires |s'.bookings| == |s.bookings| && |s'.listings| == |s.listings|
    requires forall b :: 0 <= b < |s.bookings| ==>
               s'.bookings[b].guest == s.bookings[b].guest && s'.bookings[b].listing == s.bookings[b].listing
    requires forall l :: 0 <= l < |s.listings| ==> s'.listings[l].host == s.listings[l].host
    requires s'.history == s.history[b0 := s.history[b0] + [e0]]
    requires s'.jobs == Outbox.EnqueueAll(s.jobs, Notices(b0, e0, Participants(s, b0), now))
    ensures Told(s')
  {
    var ps := Notices(b0, e0, Participants(s, b0), now);
    NewTransitionIsFresh(s, b0, e0, Participants(s, b0), now);
    forall b: nat, e: Event, r: nat
      ensures HasNotice(s'.jobs, b, e, r) <==> Announced(s', b, e, r)
    {
      LoudPost(s.jobs, ps, b, e, r);
      assert b < |s.bookings| ==> Recipients(s', b, e) == Recipients(s, b, e);
      if b == b0 && e == e0 && r in Participants(s, b0) {
        assert ps[if r == Participants(s, b0)[0] then 0 else 1].payload == Notify(b, e, r);
      }
    }
  }

  lemma CancelKeeps(cfg: Config, s: State, b: nat, byGuest: bool, start: int, now: int)
    requires cfg.policy.Valid() && Inv(cfg, s) && Enabled(cfg, s, CancelBooking(b, byGuest, start, now))
    ensures Inv(cfg, Cancel(s, b, byGuest, now))
  {
    var s' := Cancel(s, b, byGuest, now);
    var e := if byGuest then CancelledByGuest else CancelledByHost;
    assert StoryFits(s.history[b], s.bookings[b]);
    PostAllOk(cfg, s.jobs, Notices(b, e, Participants(s, b), now), |s.bookings|, |s.bookings|);
    TransitionTold(s, s', b, e, now);
    CancelShape(s, b, byGuest, now);
    BookingUpdateCounts(cfg, s, s', b);
    CancelSeats(s, b, byGuest, now);
    assert forall c :: Awaits(s', c) ==> Awaits(s, c);
  }

  lemma CancelShape(s: State, b: nat, byGuest: bool, now: int)
    requires Shaped(s) && b < |s.bookings| && s.bookings[b].status == Pending
    ensures Shaped(Cancel(s, b, byGuest, now))
  {
    var s' := Cancel(s, b, byGuest, now);
    forall c | 0 <= c < |s.bookings|
      ensures StoryFits(s'.history[c], s'.bookings[c])
    {
      assert StoryFits(s.history[c], s.bookings[c]);
      assert forall e :: [Created] + [e] == [Created, e];
    }
  }

  /** The seat given back is one that was taken: a restore never overflows the capacity. */
  lemma CancelSeats(s: State, b: nat, byGuest: bool, now: int)
    requires Shaped(s) && Seated(s) && b < |s.bookings| && s.bookings[b].status == Pending
    ensures Seated(Cancel(s, b, byGuest, now))
  {
    var s' := Cancel(s, b, byGuest, now);
    forall k | 0 <= k < |s.listings|
      ensures SeatsAt(s', k)
    {
      assert SeatsAt(s, k);
      CountUpdate(s.bookings, b, s'.bookings[b], SeatsOn(k));
      CountPositive(s.bookings, b, SeatsOn(s.bookings[b].listing));
    }
  }

  /** Moving one booking forward keeps every guest under the cap. */
  lemma BookingUpdateCounts(cfg: Config, s: State, s': State, b: nat)
    requires Capped(cfg, s) && b < |s.bookings| && |s'.bookings| == |s.bookings|
    requires s'.bookings == s.bookings[b := s'.bookings[b]]
    requires s'.bookings[b].status == Pending ==> s'.bookings[b] == s.bookings[b]
    ensures Capped(cfg, s')
  {
    forall g: nat
      ensures Count(s'.bookings, PendingOf(g)) <= cfg.maxPending
    {
      CountUpdate(s.bookings, b, s'.bookings[b], PendingOf(g));
    }
  }

  lemma ConfirmKeeps(cfg: Config, s: State, b: nat, byGuest: bool, now: int)
    requires cfg.policy.Valid() && Inv(cfg, s) && CanConfirm(s, b, byGuest)
    ensures Inv(cfg, Confirm(s, b, byGuest, now))
  {
    var s' := Confirm(s, b, byGuest, now);
    assert StoryFits(s.history[b], s.bookings[b]);
    if s'.bookings[b].status == Completed {
      PostAllOk(cfg, s.jobs, Notices(b, Finished, Participants(s, b), now), |s.bookings|, |s.bookings|);
      TransitionTold(s, s', b, Finished, now);
    } else {
      assert forall c: nat, e: Event, r: nat :: Announced(s', c, e, r) <==> Announced(s, c, e, r);
    }
    BookingUpdateCounts(cfg, s, s', b);
    ConfirmSeats(s, b, byGuest, now);
    assert forall c :: Awaits(s', c) ==> Awaits(s, c);
  }

  lemma ConfirmSeats(s: State, b: nat, byGuest: bool, now: int)
    requires |s.spent| == |s.listings| && Seated(s) && CanConfirm(s, b, byGuest)
    ensures Seated(Confirm(s, b, byGuest, now))
  {
    var s' := Confirm(s, b, byGuest, now);
    forall k | 0 <= k < |s.listings|
      ensures SeatsAt(s', k)
    {
      assert SeatsAt(s, k);
      CountUpdate(s.bookings, b, s'.bookings[b], SeatsOn(k));
    }
  }

  // ---- promotion -------------------------------------------------------------------------------

  lemma StartKeeps(cfg: Config, s: State, b: nat, now: int)
    requires cfg.policy.Valid() && Inv(cfg, s) && Awaits(s, b)
    ensures Inv(cfg, Start(s, b, now)) && s.jobs.jobs <= Start(s, b, now).jobs.jobs
  {
    var s' := Start(s, b, now);
    assert StoryFits(s.history[b], s.bookings[b]);
    PostAllOk(cfg, s.jobs, Notices(b, Started, Participants(s, b), now), |s.bookings|, |s.bookings|);
    TransitionTold(s, s', b, Started, now);
    BookingUpdateCounts(cfg, s, s', b);
    StartSeats(s, b, now);
    assert forall c :: Awaits(s', c) ==> Awaits(s, c);
  }

  lemma StartSeats(s: State, b: nat, now: int)
    requires |s.spent| == |s.listings| && Seated(s) && Awaits(s, b)
    ensures Seated(Start(s, b, now))
  {
    var s' := Start(s, b, now);
    forall k | 0 <= k < |s.listings|
      ensures SeatsAt(s', k)
    {
      assert SeatsAt(s, k);
      CountUpdate(s.bookings, b, s'.bookings[b], SeatsOn(k));
    }
  }

  /**
   * What one attempt to secure a schedule leaves behind: the table it found or that table with the one
   * new row; and if it names a row, that row schedules the booking and is not the one being delivered.
   */
  lemma AttemptSecures(cfg: Config, jobs: Jobs, b: nat, at: int, key: Key, delivering: Option<nat>, bookings: nat)
    requires cfg.policy.Valid() && Outbox.Valid(cfg.policy, jobs) && Routed(jobs, bookings)
    requires b < bookings && key.booking == b && (key.PromotionAt? || key.PromotionAgain?)
    requires delivering.Some? ==> delivering.value < |jobs.jobs|
    ensures var a := Attempt(jobs, b, at, key, delivering);
      && a.jobs == (if a.row.None? then jobs else Outbox.EnqueueAll(jobs, [Outbox.Posting(Promote(b), Some(key), at)]))
      && (a.row.Some? ==> a.row != delivering && Outbox.IsLive(a.jobs, a.row.value) && Schedules(a.jobs, a.row.value, b))
  {
    var p := Outbox.Posting(Promote(b), Some(key), at);
    var r := Outbox.Enqueue(jobs, p);
    assert [p][..0] == [];
    assert Outbox.EnqueueAll(jobs, [p]) == r.table;
    if !r.deduped {
      assert forall w :: !Outbox.Holds(jobs, w, r.id);
      assert forall w :: Outbox.Holds(r.table, w, r.id) ==> Outbox.Holds(jobs, w, r.id);
    } else {
      assert KeyFits(jobs.jobs[r.id].key, jobs.jobs[r.id].payload, bookings);
    }
  }

  lemma SecureKeeps(cfg: Config, s: State, b: nat, at: int, delivering: Option<nat>)
    requires cfg.policy.Valid() && Inv(cfg, s) && b < |s.bookings|
    requires delivering.Some? ==> delivering.value < |s.jobs.jobs|
    ensures var r := SecureSchedule(s.jobs, b, at, delivering);
      && Inv(cfg, s.(jobs := r.jobs))
      && s.jobs.jobs <= r.jobs.jobs
      && (r.row.None? ==> r.jobs == s.jobs)
      && (r.row.Some? ==> r.row != delivering && Outbox.IsLive(r.jobs, r.row.value) && Schedules(r.jobs, r.row.value, b))
  {
    var r := SecureSchedule(s.jobs, b, at, delivering);
    var first := PromotionAt(b, at);
    AttemptSecures(cfg, s.jobs, b, at, first, delivering, |s.bookings|);
    if Attempt(s.jobs, b, at, first, delivering).row.Some? {
      PromotionPostKeeps(cfg, s, b, at, first);
    } else {
      AttemptSecures(cfg, s.jobs, b, at, PromotionAgain(b, at, delivering), delivering, |s.bookings|);
      PromotionPostKeeps(cfg, s, b, at, PromotionAgain(b, at, delivering));
    }
  }

  lemma PromotionPostKeeps(cfg: Config, s: State, b: nat, at: int, key: Key)
    requires cfg.policy.Valid() && Inv(cfg, s) && b < |s.bookings| && key.booking == b && (key.PromotionAt? || key.PromotionAgain?)
    ensures Inv(cfg, s.(jobs := Outbox.EnqueueAll(s.jobs, [Outbox.Posting(Promote(b), Some(key), at)])))
  {
    var ps := [Outbox.Posting(Promote(b), Some(key), at)];
    PostAllOk(cfg, s.jobs, ps, |s.bookings|, |s.bookings|);
    forall c: nat, e: Event, r: nat
      ensures HasNotice(Outbox.EnqueueAll(s.jobs, ps), c, e, r) <==> HasNotice(s.jobs, c, e, r)
    {
      QuietPost(s.jobs, ps, c, e, r);
    }
    JobsOnly(cfg, s, Outbox.EnqueueAll(s.jobs, ps));
  }

  lemma PromoteDueKeeps(cfg: Config, s: State, b: nat, delivering: Option<nat>, start: int, nodeNow: int, now: int)
    requires cfg.policy.Valid() && Inv(cfg, s) && (delivering.Some? ==> delivering.value < |s.jobs.jobs|)
    ensures var h := PromoteDue(s, b, delivering, start, nodeNow, now);
      && Inv(cfg, h.state)
      && (h.outcome == Unsecured ==> h.state == s)
      && s.jobs.jobs <= h.state.jobs.jobs
      && (Awaits(h.state, b) && h.outcome != Unsecured ==>
            exists j: nat :: Schedules(h.state.jobs, j, b) && Some(j) != delivering)
  {
    if Awaits(s, b) {
      if start > nodeNow {
        SecureKeeps(cfg, s, b, start, delivering);
        var r := SecureSchedule(s.jobs, b, start, delivering);
        if r.row.Some? {
          assert Schedules(r.jobs, r.row.value, b) && Some(r.row.value) != delivering;
        }
      } else {
        StartKeeps(cfg, s, b, now);
      }
    }
  }

  lemma RunPromoteKeeps(cfg: Config, s: State, w: nat, j: nat, start: int, nodeNow: int, now: int)
    requires cfg.policy.Valid() && Inv(cfg, s) && Enabled(cfg, s, RunPromote(w, j, start, nodeNow, now))
    ensures Inv(cfg, Apply(cfg, s, RunPromote(w, j, start, nodeNow, now)))
  {
    var b := s.jobs.jobs[j].payload.booking;
    var h := PromoteDue(s, b, Some(j), start, nodeNow, now);
    PromoteDueKeeps(cfg, s, b, Some(j), start, nodeNow, now);
    SettleKeeps(cfg, s, h, w, j);
  }

  /** The claimant may report success because another row then schedules the booking, or none is needed. */
  lemma SettleKeeps(cfg: Config, s: State, h: Handled, w: nat, j: nat)
    requires cfg.policy.Valid() && Inv(cfg, h.state) && Outbox.Running(h.state.jobs, w, j)
    requires j < |h.state.jobs.jobs| && h.state.jobs.jobs[j].payload.Promote?
    requires h.outcome != Unsecured && Awaits(h.state, h.state.jobs.jobs[j].payload.booking) ==>
               exists i: nat :: Schedules(h.state.jobs, i, h.state.jobs.jobs[j].payload.booking) && i != j
    ensures Inv(cfg, SettlePromote(h, w, j))
  {
    var verdict := if h.outcome == Unsecured then Outbox.Failed else Outbox.Succeeded;
    var step: Step := Outbox.Finish(w, j, verdict);
    var s0, jobs := h.state, SettlePromote(h, w, j).jobs;
    assert jobs == Outbox.Apply(cfg.policy, s0.jobs, step);
    Outbox.ValidStep(cfg.policy, s0.jobs, step);
    SamePurpose(cfg, s0.jobs, step);
    forall b | Awaits(s0, b)
      ensures HasSchedule(jobs, b)
    {
      var i :| Schedules(s0.jobs, i, b);
      if i == j && verdict == Outbox.Succeeded {
        i :| Schedules(s0.jobs, i, b) && i != j;
      }
      Outbox.UndeliveredStep(cfg.policy, s0.jobs, step, i);
      assert Schedules(jobs, i, b);
    }
    JobsOnly(cfg, s0, jobs);
  }
}
