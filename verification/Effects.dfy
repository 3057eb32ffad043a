/**
 * What each transaction of the booking protocol does, as the parties to it see it: which rows change and how, and
 * exactly which jobs are posted. And what that adds up to over a run: every write of a listing's content has a scan
 * posted for it, and its moderation status is the last verdict since.
 */
module Effects {
  import opened Tables
  import opened Bookings
  import opened BookingInvariants
  import opened BookingTheorems
  import Outbox

  // ---- one transaction -------------------------------------------------------------------------

  datatype Due = Due(payload: Payload, at: int)

  /** Exactly these jobs are added, in this order, each pending at its instant; none is suppressed as a duplicate. */
  ghost predicate Posts(s: State, s': State, due: seq<Due>)
  {
    && s'.jobs.claims == s.jobs.claims && s.jobs.jobs <= s'.jobs.jobs && |s'.jobs.jobs| == |s.jobs.jobs| + |due|
    && forall i :: 0 <= i < |due| ==>
         var job := s'.jobs.jobs[|s.jobs.jobs| + i];
         job.payload == due[i].payload && job.availableAt == due[i].at && job.status == Outbox.Pending && job.attempts == 0
  }

  lemma FreshPosts(s: State, s': State, ps: seq<Posting>, due: seq<Due>)
    requires Fresh(s.jobs, ps) && s'.jobs == Outbox.EnqueueAll(s.jobs, ps) && |ps| == |due|
    requires forall i :: 0 <= i < |ps| ==> ps[i].payload == due[i].payload && ps[i].availableAt == due[i].at
    ensures Posts(s, s', due)
  {
    FreshAppend(s.jobs, ps);
  }

  /** A new listing is one more row, with its geocode and its scan posted; nothing else changes. */
  lemma ListingIsCreated(cfg: Config, s: State, row: Listing, now: int)
    requires Enabled(cfg, s, CreateListing(row, now))
    ensures var s' := Apply(cfg, s, CreateListing(row, now)); var l := |s.listings|;
      && s'.listings == s.listings + [row] && s'.bookings == s.bookings && s'.history == s.history
      && Posts(s, s', [Due(Geocode(l), now), Due(Scan(l), now)])
  {
    var s', l := Apply(cfg, s, CreateListing(row, now)), |s.listings|;
    FreshPosts(s, s', [Outbox.Posting(Geocode(l), None, now), Outbox.Posting(Scan(l), None, now)], [Due(Geocode(l), now), Due(Scan(l), now)]);
  }

  /**
   * An update rewrites the row of its listing and no other row: the fields that are given, the seats that are left of
   * a new capacity, and the moderation status when the content is new.
   */
  lemma UpdateRewritesRow(cfg: Config, s: State, l: nat, patch: Patch, late: nat, fanout: seq<nat>, now: int)
    requires Enabled(cfg, s, UpdateListing(l, patch, late, fanout, now))
    ensures var s' := Apply(cfg, s, UpdateListing(l, patch, late, fanout, now)); var row, row' := s.listings[l], s'.listings[l];
      && |s'.listings| == |s.listings| && (forall k :: 0 <= k < |s.listings| && k != l ==> s'.listings[k] == s.listings[k])
      && s'.bookings == s.bookings && s'.history == s.history && s'.jobs.claims == s.jobs.claims && s.jobs.jobs <= s'.jobs.jobs
      && row'.host == row.host && row'.active == row.active
      && (if patch.content.Some? then row'.content == patch.content.value && row'.moderation == Unreviewed
          else row'.content == row.content && row'.moderation == row.moderation)
      && row'.address == (if patch.address.Some? then patch.address.value else row.address)
      && row'.terms == (if patch.terms.Some? then patch.terms.value else row.terms)
      && row'.start == (if patch.start.Some? then patch.start.value else row.start)
      && (if patch.capacity.Some? then
            row'.capacity == patch.capacity.value && row'.remaining + Count(s.bookings, SeatsOn(l)) + late == row'.capacity && row'.remaining >= 0
          else row'.capacity == row.capacity && row'.remaining == row.remaining)
  {
    var s' := Apply(cfg, s, UpdateListing(l, patch, late, fanout, now));
    Outbox.EnqueueAllAppends(s.jobs, UpdatePostings(l, s'.listings[l], patch, fanout, now));
  }

  /** A booking: a pending reservation of the guest, one seat less, both parties told, and the promotion due at the start. */
  lemma BookingTakesSeat(cfg: Config, s: State, guest: nat, l: nat, now: int)
    requires cfg.policy.Valid() && Inv(cfg, s) && Enabled(cfg, s, CreateBooking(guest, l, now))
    ensures var s' := Apply(cfg, s, CreateBooking(guest, l, now)); var b, row := |s.bookings|, s.listings[l];
      && |s'.bookings| == b + 1 && s.bookings <= s'.bookings
      && s'.bookings[b].guest == guest && s'.bookings[b].listing == l && s'.bookings[b].status == Pending
      && |s'.listings| == |s.listings| && s'.listings[l] == row.(remaining := s'.listings[l].remaining)
      && s'.listings[l].remaining + 1 == row.remaining
      && (forall k :: 0 <= k < |s.listings| && k != l ==> s'.listings[k] == s.listings[k])
      && Posts(s, s', [Due(Notify(b, Created, guest), now), Due(Notify(b, Created, row.host), now), Due(Promote(b), row.start)])
  {
    var s', b, row := Apply(cfg, s, CreateBooking(guest, l, now)), |s.bookings|, s.listings[l];
    BookingIsFresh(s, guest, l, now);
    FreshPosts(s, s', BookPostings(s, guest, l, now),
               [Due(Notify(b, Created, guest), now), Due(Notify(b, Created, row.host), now), Due(Promote(b), row.start)]);
  }

  /** Both parties are told of a transition. */
  function BothTold(s: State, b: nat, e: Event, now: int): seq<Due>
    requires Linked(s) && b < |s.bookings|
  {
    [Due(Notify(b, e, s.bookings[b].guest), now), Due(Notify(b, e, s.listings[s.bookings[b].listing].host), now)]
  }

  lemma TransitionPosts(s: State, s': State, b: nat, e: Event, now: int)
    requires Linked(s) && Told(s) && Routed(s.jobs, |s.bookings|) && b < |s.bookings| && e != ListingCancelled && e !in s.history[b]
    requires s'.jobs == Outbox.EnqueueAll(s.jobs, Notices(b, e, Participants(s, b), now))
    ensures Posts(s, s', BothTold(s, b, e, now))
  {
    NewTransitionIsFresh(s, b, e, Participants(s, b), now);
    FreshPosts(s, s', Notices(b, e, Participants(s, b), now), BothTold(s, b, e, now));
  }

  /** Nothing happens to any other booking, nor to its history. */
  ghost predicate OnlyBooking(s: State, s': State, b: nat)
  {
    && |s'.bookings| == |s.bookings| && |s'.history| == |s.history|
    && (forall c :: 0 <= c < |s.bookings| && c != b ==> s'.bookings[c] == s.bookings[c])
    && (forall c :: 0 <= c < |s.history| && c != b ==> s'.history[c] == s.history[c])
  }

  /** A cancellation: the seat goes back, and both parties are told, once, which of them cancelled. */
  lemma CancelGivesSeatBack(cfg: Config, s: State, b: nat, byGuest: bool, start: int, now: int)
    requires cfg.policy.Valid() && Inv(cfg, s) && Enabled(cfg, s, CancelBooking(b, byGuest, start, now))
    ensures var s' := Apply(cfg, s, CancelBooking(b, byGuest, start, now));
      var l, e := s.bookings[b].listing, if byGuest then CancelledByGuest else CancelledByHost;
      && OnlyBooking(s, s', b) && s'.bookings[b] == s.bookings[b].(status := Cancelled)
      && s'.history[b] == [Created, e]
      && |s'.listings| == |s.listings| && s'.listings[l] == s.listings[l].(remaining := s'.listings[l].remaining)
      && s'.listings[l].remaining == s.listings[l].remaining + 1 <= s.listings[l].capacity
      && (forall k :: 0 <= k < |s.listings| && k != l ==> s'.listings[k] == s.listings[k])
      && Posts(s, s', BothTold(s, b, e, now))
  {
    var s', e := Apply(cfg, s, CancelBooking(b, byGuest, start, now)), if byGuest then CancelledByGuest else CancelledByHost;
    assert StoryFits(s.history[b], s.bookings[b]);
    assert [Created] + [e] == [Created, e];
    CancelSeats(s, b, byGuest, now);
    assert SeatsAt(s', s.bookings[b].listing);
    TransitionPosts(s, s', b, e, now);
  }

  /**
   * A confirmation sets the flag of the party that confirms and no other. The second one completes the booking and
   * tells both parties; the first one tells nobody.
   */
  lemma ConfirmSetsOwnFlag(cfg: Config, s: State, b: nat, byGuest: bool, now: int)
    requires cfg.policy.Valid() && Inv(cfg, s) && Enabled(cfg, s, ConfirmBooking(b, byGuest, now))
    ensures var s' := Apply(cfg, s, ConfirmBooking(b, byGuest, now)); var bk, bk' := s.bookings[b], s'.bookings[b];
      && OnlyBooking(s, s', b) && s'.listings == s.listings
      && (if byGuest then bk'.guestConfirmed && bk'.hostConfirmed == bk.hostConfirmed
          else bk'.hostConfirmed && bk'.guestConfirmed == bk.guestConfirmed)
      && (if (if byGuest then bk.hostConfirmed else bk.guestConfirmed) then
            bk'.status == Completed && Posts(s, s', BothTold(s, b, Finished, now))
          else bk'.status == InProgress && s'.jobs == s.jobs)
  {
    var s' := Apply(cfg, s, ConfirmBooking(b, byGuest, now));
    assert StoryFits(s.history[b], s.bookings[b]);
    if s'.bookings[b].status == Completed {
      TransitionPosts(s, s', b, Finished, now);
    }
  }

  /** So once both parties have confirmed, in either order, the booking is completed; neither can confirm twice. */
  lemma BothConfirm(cfg: Config, s: State, b: nat, guestFirst: bool, now: int, later: int)
    requires cfg.policy.Valid() && Inv(cfg, s) && b < |s.bookings| && s.bookings[b].status == InProgress
    requires !s.bookings[b].guestConfirmed && !s.bookings[b].hostConfirmed
    ensures var first, second := ConfirmBooking(b, guestFirst, now), ConfirmBooking(b, !guestFirst, later);
      && Enabled(cfg, s, first) && Enabled(cfg, Apply(cfg, s, first), second) && !Enabled(cfg, Apply(cfg, s, first), first)
      && Apply(cfg, Apply(cfg, s, first), second).bookings[b].status == Completed
  {
    var first := ConfirmBooking(b, guestFirst, now);
    ConfirmSetsOwnFlag(cfg, s, b, guestFirst, now);
    StepKeeps(cfg, s, first);
    ConfirmSetsOwnFlag(cfg, Apply(cfg, s, first), b, !guestFirst, later);
  }

  /** A promotion: the booking is in progress and both parties are told. */
  lemma PromotionStarts(cfg: Config, s: State, b: nat, delivering: Option<nat>, start: int, nodeNow: int, now: int)
    requires cfg.policy.Valid() && Inv(cfg, s) && Awaits(s, b) && start <= nodeNow
    ensures var s' := PromoteDue(s, b, delivering, start, nodeNow, now).state;
      && OnlyBooking(s, s', b) && s'.listings == s.listings && s'.bookings[b] == s.bookings[b].(status := InProgress)
      && s'.history[b] == [Created, Started] && Posts(s, s', BothTold(s, b, Started, now))
  {
    var s' := PromoteDue(s, b, delivering, start, nodeNow, now).state;
    assert StoryFits(s.history[b], s.bookings[b]);
    assert [Created] + [Started] == [Created, Started];
    TransitionPosts(s, s', b, Started, now);
  }

  /** A cancelled listing: each booking that holds one of its seats is cancelled and its guest told; no other changes. */
  lemma CascadeCancels(cfg: Config, s: State, l: nat, now: int)
    requires cfg.policy.Valid() && Inv(cfg, s) && Enabled(cfg, s, CancelListing(l, now))
    ensures var s' := Apply(cfg, s, CancelListing(l, now)); var ids := Affected(s.bookings, l);
      && |s'.listings| == |s.listings| && s'.listings[l] == s.listings[l].(active := false)
      && (forall k :: 0 <= k < |s.listings| && k != l ==> s'.listings[k] == s.listings[k])
      && |s'.bookings| == |s.bookings|
      && (forall b :: 0 <= b < |s.bookings| ==>
            s'.bookings[b] == if s.bookings[b].listing == l && s.bookings[b].status in {Pending, InProgress}
                              then s.bookings[b].(status := Cancelled) else s.bookings[b])
      && Posts(s, s', seq(|ids|, i requires 0 <= i < |ids| => Due(Notify(ids[i], ListingCancelled, s.bookings[ids[i]].guest), now)))
  {
    var s', ids := Apply(cfg, s, CancelListing(l, now)), Affected(s.bookings, l);
    FarewellsAreFresh(s, l, now);
    FreshPosts(s, s', Farewells(s.bookings, ids, now),
               seq(|ids|, i requires 0 <= i < |ids| => Due(Notify(ids[i], ListingCancelled, s.bookings[ids[i]].guest), now)));
  }

  // ---- scans and geocodes ----------------------------------------------------------------------

  /** The action writes the content of listing l: it creates it, or it is a material edit. */
  predicate WritesContent(s: State, a: Action, l: nat)
  {
    (a.CreateListing? && l == |s.listings|) || (a.UpdateListing? && a.listing == l && a.patch.content.Some?)
  }

  predicate WritesAddress(s: State, a: Action, l: nat)
  {
    (a.CreateListing? && l == |s.listings|) || (a.UpdateListing? && a.listing == l && a.patch.address.Some?)
  }

  /** The action calls for a job that looks at what it wrote. */
  predicate CallsFor(s: State, a: Action, payload: Payload)
  {
    match payload
    case Scan(l) => WritesContent(s, a, l)
    case Geocode(l) => WritesAddress(s, a, l)
    case _ => false
  }

  function IsFor(payload: Payload): Outbox.Job<Payload, Key> -> bool
  {
    (job: Outbox.Job<Payload, Key>) => job.payload == payload
  }

  function AsksFor(payload: Payload): Posting -> bool
  {
    (p: Posting) => p.payload == payload
  }

  /** Postings without a key are never suppressed. */
  lemma {:induction false} KeylessPost(jobs: Jobs, ps: seq<Posting>, payload: Payload)
    requires forall i :: 0 <= i < |ps| && ps[i].payload == payload ==> ps[i].key == None
    ensures Count(Outbox.EnqueueAll(jobs, ps).jobs, IsFor(payload)) == Count(jobs.jobs, IsFor(payload)) + Count(ps, AsksFor(payload))
  {
    if ps != [] {
      KeylessPost(jobs, ps[..|ps| - 1], payload);
      var mid, last := Outbox.EnqueueAll(jobs, ps[..|ps| - 1]), ps[|ps| - 1];
      var r := Outbox.Enqueue(mid, last);
      if !r.deduped {
        assert r.table.jobs[..|mid.jobs|] == mid.jobs;
      }
    }
  }

  lemma UpdateAsks(l: nat, row: Listing, patch: Patch, fanout: seq<nat>, now: int, payload: Payload)
    requires payload.Scan? || payload.Geocode?
    ensures Count(UpdatePostings(l, row, patch, fanout, now), AsksFor(payload)) ==
            (if (payload == Scan(l) && patch.content.Some?) || (payload == Geocode(l) && patch.address.Some?) then 1 else 0)
    ensures var ps := UpdatePostings(l, row, patch, fanout, now);
      forall i :: 0 <= i < |ps| && ps[i].payload == payload ==> ps[i].key == None
  {
    var scans: seq<Posting> := if patch.content.Some? then [Outbox.Posting(Scan(l), None, now)] else [];
    var geocodes: seq<Posting> := if patch.address.Some? then [Outbox.Posting(Geocode(l), None, now)] else [];
    var promotions := if patch.start.Some? then Promotions(fanout, row.start) else [];
    CountConcat(scans + geocodes, promotions, AsksFor(payload));
    CountConcat(scans, geocodes, AsksFor(payload));
    CountNone(promotions, AsksFor(payload));
  }

  lemma NoneAsked(jobs: Jobs, ps: seq<Posting>, payload: Payload)
    requires forall i :: 0 <= i < |ps| ==> ps[i].payload != payload
    ensures Count(Outbox.EnqueueAll(jobs, ps).jobs, IsFor(payload)) == Count(jobs.jobs, IsFor(payload))
  {
    KeylessPost(jobs, ps, payload);
    CountNone(ps, AsksFor(payload));
  }

  lemma HandlerAsksNothing(cfg: Config, s: State, b: nat, delivering: Option<nat>, start: int, nodeNow: int, now: int, payload: Payload)
    requires payload.Scan? || payload.Geocode?
    ensures var s' := PromoteDue(s, b, delivering, start, nodeNow, now).state;
      && s.jobs.jobs <= s'.jobs.jobs && Count(s'.jobs.jobs, IsFor(payload)) == Count(s.jobs.jobs, IsFor(payload))
  {
    if Awaits(s, b) {
      if start <= nodeNow {
        Outbox.EnqueueAllAppends(s.jobs, Notices(b, Started, Participants(s, b), now));
        NoneAsked(s.jobs, Notices(b, Started, Participants(s, b), now), payload);
      } else {
        AttemptAsksNothing(s.jobs, b, start, PromotionAt(b, start), delivering, payload);
        AttemptAsksNothing(s.jobs, b, start, PromotionAgain(b, start, delivering), delivering, payload);
      }
    }
  }

  lemma AttemptAsksNothing(jobs: Jobs, b: nat, at: int, key: Key, delivering: Option<nat>, payload: Payload)
    requires payload.Scan? || payload.Geocode?
    ensures var jobs' := Attempt(jobs, b, at, key, delivering).jobs;
      jobs.jobs <= jobs'.jobs && Count(jobs'.jobs, IsFor(payload)) == Count(jobs.jobs, IsFor(payload))
  {
    var r := Outbox.Enqueue(jobs, Outbox.Posting(Promote(b), Some(key), at));
    if !r.deduped {
      assert r.table.jobs[..|jobs.jobs|] == jobs.jobs;
    }
  }

  /** The action posts exactly the scans and geocodes it calls for, and takes none away. */
  ghost predicate PostsWhatItCalls(cfg: Config, s: State, a: Action, payload: Payload)
    requires Enabled(cfg, s, a)
  {
    Count(Apply(cfg, s, a).jobs.jobs, IsFor(payload)) == Count(s.jobs.jobs, IsFor(payload)) + (if CallsFor(s, a, payload) then 1 else 0)
  }

  lemma CreationPosts(cfg: Config, s: State, row: Listing, now: int, payload: Payload)
    requires Enabled(cfg, s, CreateListing(row, now)) && (payload.Scan? || payload.Geocode?)
    ensures PostsWhatItCalls(cfg, s, CreateListing(row, now), payload)
  {
    var geocode: Posting, scan: Posting := Outbox.Posting(Geocode(|s.listings|), None, now), Outbox.Posting(Scan(|s.listings|), None, now);
    KeylessPost(s.jobs, [geocode, scan], payload);
    CountConcat([geocode], [scan], AsksFor(payload));
    assert [geocode, scan] == [geocode] + [scan];
    assert Count([geocode], AsksFor(payload)) == if payload == Geocode(|s.listings|) then 1 else 0;
    assert Count([scan], AsksFor(payload)) == if payload == Scan(|s.listings|) then 1 else 0;
  }

  lemma EditPosts(cfg: Config, s: State, l: nat, patch: Patch, late: nat, fanout: seq<nat>, now: int, payload: Payload)
    requires CanUpdate(s, l, patch, late, fanout) && (payload.Scan? || payload.Geocode?)
    ensures PostsWhatItCalls(cfg, s, UpdateListing(l, patch, late, fanout, now), payload)
  {
    var s' := Update(s, l, patch, late, fanout, now);
    var ps := UpdatePostings(l, s'.listings[l], patch, fanout, now);
    UpdateAsks(l, s'.listings[l], patch, fanout, now, payload);
    assert s'.jobs == Outbox.EnqueueAll(s.jobs, ps);
    KeylessPost(s.jobs, ps, payload);
  }

  lemma CascadePosts(cfg: Config, s: State, l: nat, now: int, payload: Payload)
    requires Enabled(cfg, s, CancelListing(l, now)) && !payload.Notify?
    ensures Count(Apply(cfg, s, CancelListing(l, now)).jobs.jobs, IsFor(payload)) == Count(s.jobs.jobs, IsFor(payload))
  {
    NoneAsked(s.jobs, Farewells(s.bookings, Affected(s.bookings, l), now), payload);
  }

  lemma BookPosts(cfg: Config, s: State, guest: nat, l: nat, now: int, payload: Payload)
    requires CanBook(cfg, s, guest, l, now) && (payload.Scan? || payload.Geocode?)
    ensures Count(Book(s, guest, l, now).jobs.jobs, IsFor(payload)) == Count(s.jobs.jobs, IsFor(payload))
  {
    NoneAsked(s.jobs, BookPostings(s, guest, l, now), payload);
  }

  lemma CancelPosts(s: State, b: nat, byGuest: bool, now: int, payload: Payload)
    requires b < |s.bookings| && s.bookings[b].listing < |s.listings| && (payload.Scan? || payload.Geocode?)
    ensures Count(Cancel(s, b, byGuest, now).jobs.jobs, IsFor(payload)) == Count(s.jobs.jobs, IsFor(payload))
  {
    NoneAsked(s.jobs, Notices(b, if byGuest then CancelledByGuest else CancelledByHost, Participants(s, b), now), payload);
  }

  lemma ConfirmPosts(s: State, b: nat, byGuest: bool, now: int, payload: Payload)
    requires b < |s.bookings| && s.bookings[b].listing < |s.listings| && (payload.Scan? || payload.Geocode?)
    ensures Count(Confirm(s, b, byGuest, now).jobs.jobs, IsFor(payload)) == Count(s.jobs.jobs, IsFor(payload))
  {
    NoneAsked(s.jobs, Notices(b, Finished, Participants(s, b), now), payload);
  }

  lemma WorkPosts(cfg: Config, s: State, step: Step, payload: Payload)
    requires Outbox.ClaimsOk(s.jobs) && CanWork(s, step)
    ensures Count(Outbox.Apply(cfg.policy, s.jobs, step).jobs, IsFor(payload)) == Count(s.jobs.jobs, IsFor(payload))
  {
    SamePurpose(cfg, s.jobs, step);
    CountSame(s.jobs.jobs, Outbox.Apply(cfg.policy, s.jobs, step).jobs, IsFor(payload), IsFor(payload));
  }

  lemma StepPosts(cfg: Config, s: State, a: Action, payload: Payload)
    requires Inv(cfg, s) && Enabled(cfg, s, a) && (payload.Scan? || payload.Geocode?)
    ensures PostsWhatItCalls(cfg, s, a, payload)
  {
    match a
    case CreateListing(row, now) => CreationPosts(cfg, s, row, now, payload);
    case UpdateListing(l, patch, late, fanout, now) => EditPosts(cfg, s, l, patch, late, fanout, now, payload);
    case Moderate(_, _) =>
    case CancelListing(l, now) => CascadePosts(cfg, s, l, now, payload);
    case CreateBooking(guest, l, now) => BookPosts(cfg, s, guest, l, now, payload);
    case CancelBooking(b, byGuest, _, now) => CancelPosts(s, b, byGuest, now, payload);
    case ConfirmBooking(b, byGuest, now) => ConfirmPosts(s, b, byGuest, now, payload);
    case RunPromote(_, j, start, nodeNow, now) =>
      HandlerAsksNothing(cfg, s, s.jobs.jobs[j].payload.booking, Some(j), start, nodeNow, now, payload);
    case RunDetached(b, delivering, start, nodeNow, now) => HandlerAsksNothing(cfg, s, b, delivering, start, nodeNow, now, payload);
    case Work(step) => WorkPosts(cfg, s, step, payload);
  }

  // ---- the past of a state ---------------------------------------------------------------------

  /** A run with the states it goes through. */
  datatype Past = Past(states: seq<State>, actions: seq<Action>)

  ghost predicate IsPast(cfg: Config, t: Past)
  {
    IsPastFrom(cfg, Empty(), t)
  }

  ghost predicate IsPastFrom(cfg: Config, s: State, t: Past)
  {
    && |t.states| == |t.actions| + 1 && t.states[0] == s
    && forall i :: 0 <= i < |t.actions| ==> Happens(cfg, t.states[i], t.actions[i], t.states[i + 1])
  }

  ghost predicate Happens(cfg: Config, s: State, a: Action, s': State)
  {
    Enabled(cfg, s, a) && s' == Apply(cfg, s, a)
  }

  /** Every run has one. */
  lemma {:induction false} RunHasPast(cfg: Config, s: State, run: seq<Action>) returns (t: Past)
    requires LegalRun(cfg, s, run)
    ensures IsPastFrom(cfg, s, t) && t.actions == run && t.states[|run|] == RunAll(cfg, s, run)
    decreases |run|
  {
    if run == [] {
      t := Past([s], []);
    } else {
      var rest := RunHasPast(cfg, Apply(cfg, s, run[0]), run[1..]);
      t := Past([s] + rest.states, [run[0]] + rest.actions);
      forall i | 0 <= i < |t.actions|
        ensures Happens(cfg, t.states[i], t.actions[i], t.states[i + 1])
      {
        if i > 0 {
          assert Happens(cfg, rest.states[i - 1], rest.actions[i - 1], rest.states[i]);
        }
      }
    }
  }

  lemma {:induction false} PastIsReachable(cfg: Config, t: Past, k: nat)
    requires IsPast(cfg, t) && k < |t.states|
    ensures Reachable(cfg, t.states[k])
  {
    if k == 0 {
      var none: seq<Action> := [];
      assert LegalRun(cfg, Empty(), none) && RunAll(cfg, Empty(), none) == Empty();
    } else {
      PastIsReachable(cfg, t, k - 1);
      assert Happens(cfg, t.states[k - 1], t.actions[k - 1], t.states[k]);
      ReachableNext(cfg, t.states[k - 1], t.actions[k - 1]);
    }
  }

  /** How often the first k actions called for a job. */
  ghost function Calls(t: Past, k: nat, payload: Payload): nat
    requires k <= |t.actions| <= |t.states|
  {
    if k == 0 then 0 else Calls(t, k - 1, payload) + (if CallsFor(t.states[k - 1], t.actions[k - 1], payload) then 1 else 0)
  }

  lemma CallsStep(cfg: Config, t: Past, k: nat, payload: Payload)
    requires cfg.policy.Valid() && IsPast(cfg, t) && 0 < k < |t.states| && (payload.Scan? || payload.Geocode?)
    ensures Count(t.states[k].jobs.jobs, IsFor(payload)) ==
            Count(t.states[k - 1].jobs.jobs, IsFor(payload)) + (if CallsFor(t.states[k - 1], t.actions[k - 1], payload) then 1 else 0)
  {
    var s, a := t.states[k - 1], t.actions[k - 1];
    PastIsReachable(cfg, t, k - 1);
    ReachableOk(cfg, s);
    assert Happens(cfg, s, a, t.states[k]);
    StepPosts(cfg, s, a, payload);
    assert PostsWhatItCalls(cfg, s, a, payload);
  }

  /**
   * The scan and geocode jobs match the writes: for each listing there is one scan for its creation and one for each
   * material edit, one geocode for its creation and one for each change of address, and no others.
   */
  lemma {:induction false} ScansMatchWrites(cfg: Config, t: Past, k: nat, payload: Payload)
    requires cfg.policy.Valid() && IsPast(cfg, t) && k < |t.states| && (payload.Scan? || payload.Geocode?)
    ensures Count(t.states[k].jobs.jobs, IsFor(payload)) == Calls(t, k, payload)
  {
    if k > 0 {
      ScansMatchWrites(cfg, t, k - 1, payload);
      CallsStep(cfg, t, k, payload);
    }
  }

  // ---- the last write --------------------------------------------------------------------------

  /** What the action writes. */
  function Written(a: Action): int
    requires a.CreateListing? || (a.UpdateListing? && a.patch.content.Some?)
  {
    if a.CreateListing? then a.row.content else a.patch.content.value
  }

  lemma ContentStep(cfg: Config, s: State, a: Action, l: nat)
    requires Enabled(cfg, s, a) && l < |Apply(cfg, s, a).listings|
    ensures var s' := Apply(cfg, s, a);
      if WritesContent(s, a, l) then s'.listings[l].content == Written(a) && s'.listings[l].moderation == Unreviewed
      else
        && l < |s.listings| && s'.listings[l].content == s.listings[l].content
        && s'.listings[l].moderation == if a.Moderate? && a.listing == l then a.verdict else s.listings[l].moderation
  {
  }

  /** The scan of a write is among the rows its transaction adds. */
  lemma WritePostsScan(cfg: Config, s: State, a: Action, l: nat)
    requires cfg.policy.Valid() && Inv(cfg, s) && Enabled(cfg, s, a) && WritesContent(s, a, l)
    ensures var s' := Apply(cfg, s, a);
      exists j: nat :: |s.jobs.jobs| <= j < |s'.jobs.jobs| && s'.jobs.jobs[j].payload == Scan(l)
  {
    StepPosts(cfg, s, a, Scan(l));
    RowsStay(cfg, s, a);
    var j := AddedRow(s.jobs.jobs, Apply(cfg, s, a).jobs.jobs, Scan(l));
  }

  lemma AddedRow(rows: seq<Outbox.Job<Payload, Key>>, rows': seq<Outbox.Job<Payload, Key>>, payload: Payload) returns (j: nat)
    requires |rows| <= |rows'| && forall i :: 0 <= i < |rows| ==> rows'[i].payload == rows[i].payload
    requires Count(rows, IsFor(payload)) < Count(rows', IsFor(payload))
    ensures |rows| <= j < |rows'| && rows'[j].payload == payload
  {
    var n := |rows|;
    assert rows' == rows'[..n] + rows'[n..];
    CountConcat(rows'[..n], rows'[n..], IsFor(payload));
    CountSame(rows, rows'[..n], IsFor(payload), IsFor(payload));
    if i :| n <= i < |rows'| && rows'[i].payload == payload {
      j := i;
    } else {
      CountNone(rows'[n..], IsFor(payload));
      assert false;
    }
  }

  /** No transaction drops a row of the outbox or changes what it is for. */
  lemma RowsStay(cfg: Config, s: State, a: Action)
    requires Inv(cfg, s) && Enabled(cfg, s, a)
    ensures var s' := Apply(cfg, s, a);
      |s.jobs.jobs| <= |s'.jobs.jobs| && forall j :: 0 <= j < |s.jobs.jobs| ==> s'.jobs.jobs[j].payload == s.jobs.jobs[j].payload
  {
    match a
    case CreateListing(_, now) =>
      Outbox.EnqueueAllAppends(s.jobs, [Outbox.Posting(Geocode(|s.listings|), None, now), Outbox.Posting(Scan(|s.listings|), None, now)]);
    case UpdateListing(l, patch, late, fanout, now) =>
      Outbox.EnqueueAllAppends(s.jobs, UpdatePostings(l, Apply(cfg, s, a).listings[l], patch, fanout, now));
    case Moderate(_, _) =>
    case CancelListing(l, now) => Outbox.EnqueueAllAppends(s.jobs, Farewells(s.bookings, Affected(s.bookings, l), now));
    case CreateBooking(guest, l, now) => Outbox.EnqueueAllAppends(s.jobs, BookPostings(s, guest, l, now));
    case CancelBooking(b, byGuest, _, now) =>
      Outbox.EnqueueAllAppends(s.jobs, Notices(b, if byGuest then CancelledByGuest else CancelledByHost, Participants(s, b), now));
    case ConfirmBooking(b, _, now) => Outbox.EnqueueAllAppends(s.jobs, Notices(b, Finished, Participants(s, b), now));
    case RunPromote(_, j, start, nodeNow, now) =>
      HandlerAsksNothing(cfg, s, s.jobs.jobs[j].payload.booking, Some(j), start, nodeNow, now, Scan(0));
    case RunDetached(b, delivering, start, nodeNow, now) => HandlerAsksNothing(cfg, s, b, delivering, start, nodeNow, now, Scan(0));
    case Work(step) => SamePurpose(cfg, s.jobs, step);
  }

  lemma {:induction false} RowsStayAlong(cfg: Config, t: Past, i: nat, k: nat, j: nat)
    requires cfg.policy.Valid() && IsPast(cfg, t) && i <= k < |t.states| && j < |t.states[i].jobs.jobs|
    ensures j < |t.states[k].jobs.jobs| && t.states[k].jobs.jobs[j].payload == t.states[i].jobs.jobs[j].payload
  {
    if i < k {
      RowsStayAlong(cfg, t, i, k - 1, j);
      PastIsReachable(cfg, t, k - 1);
      ReachableOk(cfg, t.states[k - 1]);
      assert Happens(cfg, t.states[k - 1], t.actions[k - 1], t.states[k]);
      RowsStay(cfg, t.states[k - 1], t.actions[k - 1]);
    }
  }

  /** The last verdict on listing l among the actions from i on, if there is one. */
  ghost function LastVerdict(t: Past, i: nat, k: nat, l: nat): Moderation
    requires i <= k <= |t.actions|
    decreases k
  {
    if k == i then Unreviewed
    else if t.actions[k - 1].Moderate? && t.actions[k - 1].listing == l then t.actions[k - 1].verdict
    else LastVerdict(t, i, k - 1, l)
  }

  /** Action i is the last that wrote the content of listing l, which says what it wrote, and has the status decided since. */
  ghost predicate LastWrite(t: Past, i: nat, k: nat, l: nat)
    requires k <= |t.actions| < |t.states|
  {
    && i < k && WritesContent(t.states[i], t.actions[i], l)
    && (forall m :: i < m < k ==> !WritesContent(t.states[m], t.actions[m], l))
    && l < |t.states[k].listings| && t.states[k].listings[l].content == Written(t.actions[i])
    && t.states[k].listings[l].moderation == LastVerdict(t, i + 1, k, l)
  }

  lemma {:induction false} HasLastWrite(cfg: Config, t: Past, k: nat, l: nat) returns (i: nat)
    requires IsPast(cfg, t) && k < |t.states| && l < |t.states[k].listings|
    ensures LastWrite(t, i, k, l)
  {
    assert k > 0;
    assert Happens(cfg, t.states[k - 1], t.actions[k - 1], t.states[k]);
    ContentStep(cfg, t.states[k - 1], t.actions[k - 1], l);
    if WritesContent(t.states[k - 1], t.actions[k - 1], l) {
      i := k - 1;
    } else {
      i := HasLastWrite(cfg, t, k - 1, l);
    }
  }

  /**
   * Whatever has happened, the content of a listing is what was last written, its moderation status is the last
   * verdict since, or none, and the transaction that wrote it also posted a scan, which is still there. So a
   * listing that is unreviewed has a scan posted after its content.
   */
  lemma LastWriteIsScanned(cfg: Config, t: Past, k: nat, l: nat) returns (i: nat, scan: nat)
    requires cfg.policy.Valid() && IsPast(cfg, t) && k < |t.states| && l < |t.states[k].listings|
    ensures LastWrite(t, i, k, l)
    ensures |t.states[i].jobs.jobs| <= scan < |t.states[i + 1].jobs.jobs| && scan < |t.states[k].jobs.jobs|
    ensures t.states[k].jobs.jobs[scan].payload == Scan(l)
  {
    i := HasLastWrite(cfg, t, k, l);
    PastIsReachable(cfg, t, i);
    ReachableOk(cfg, t.states[i]);
    assert Happens(cfg, t.states[i], t.actions[i], t.states[i + 1]);
    WritePostsScan(cfg, t.states[i], t.actions[i], l);
    scan :| |t.states[i].jobs.jobs| <= scan < |t.states[i + 1].jobs.jobs| && t.states[i + 1].jobs.jobs[scan].payload == Scan(l);
    RowsStayAlong(cfg, t, i + 1, k, scan);
  }
}
