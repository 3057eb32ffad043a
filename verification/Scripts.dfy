/**
 * The statement scripts of module Interleaving when nothing interrupts them: each runs to its commit exactly
 * when its request can be granted, and is then the action of module Bookings.
 */
module Scripts {
  import opened Tables
  import opened Bookings
  import opened BookingInvariants
  import opened Interleaving
  import Outbox

  /** The statements of a request's transaction, as its service sends them. */
  function ScriptOf(x: nat, a: Action, nodeNow: int): seq<Move>
  {
    match a
    case CreateBooking(guest, l, now) => [BeginCreate(x, guest, l, now), CountPending(x), CheckListing(x, nodeNow), Reserve(x), Move.Commit(x, nodeNow)]
    case CancelBooking(b, byGuest, _, now) => [BeginCancel(x, b, byGuest, now), Mark(x), Restore(x), Move.Commit(x, nodeNow)]
    case ConfirmBooking(b, byGuest, now) => [BeginConfirm(x, b, byGuest, now), Move.Commit(x, nodeNow)]
    case UpdateListing(l, patch, _, _, now) =>
      [BeginUpdate(x, l, patch, now)] + (if patch.capacity.Some? then [CountSeats(x)] else []) + [Plan(x), Move.Commit(x, nodeNow)]
    case CancelListing(l, now) => [BeginCancelListing(x, l, now), Sweep(x), Move.Commit(x, nodeNow)]
    case RunPromote(worker, j, _, _, now) => [BeginPromote(x, worker, j, now), Move.Commit(x, nodeNow)]
    case _ => []
  }

  /** Nothing is open, or just the one transaction. */
  function Idle(db: State): World
  {
    World(db, map[])
  }

  function Alone(db: State, x: nat, tx: Txn): World
  {
    World(db, map[x := tx])
  }

  /** With nothing in between, the script runs to its commit. */
  ghost predicate Completes(cfg: Config, db: State, script: seq<Move>)
  {
    LegalMoves(cfg, Idle(db), script)
  }

  /** The rest of a script runs to its commit, and all of it is the action. */
  ghost predicate PlaysAs(cfg: Config, w: World, rest: seq<Move>, a: Action)
  {
    && LegalMoves(cfg, w, rest) && Enabled(cfg, w.db, a)
    && Play(cfg, w, rest) == Idle(Apply(cfg, w.db, a))
  }

  // ---- one statement ---------------------------------------------------------------------------

  /** From w the rest of the script is legal exactly if ok and the rest from w' is, and then leads where that leads. */
  ghost predicate Proceeds(cfg: Config, w: World, rest: seq<Move>, ok: bool, w': World, rest': seq<Move>)
  {
    && (LegalMoves(cfg, w, rest) <==> ok && LegalMoves(cfg, w', rest'))
    && (LegalMoves(cfg, w, rest) ==> Play(cfg, w, rest) == Play(cfg, w', rest'))
  }

  lemma Unfold(cfg: Config, w: World, m: Move, rest: seq<Move>)
    requires Linked(w.db) && CanMove(cfg, w, m)
    ensures Proceeds(cfg, w, [m] + rest, true, Go(cfg, w, m), rest)
  {
    assert ([m] + rest)[1..] == rest;
  }

  /** A transaction that is closed sends no more statements. */
  lemma Stuck(cfg: Config, db: State, x: nat, rest: seq<Move>)
    requires rest != [] && (IsStatement(rest[0]) || rest[0].Commit?) && rest[0].x == x
    ensures !LegalMoves(cfg, Idle(db), rest)
  {
  }

  /** The statement m takes the open transaction from tx to tx', or closes it. */
  lemma Statement(cfg: Config, db: State, x: nat, tx: Txn, m: Move, ok: bool, tx': Txn, rest: seq<Move>)
    requires Linked(db) && CanMove(cfg, Alone(db, x, tx), m) && Go(cfg, Alone(db, x, tx), m) == (if ok then Alone(db, x, tx') else Idle(db))
    requires rest != [] && (IsStatement(rest[0]) || rest[0].Commit?) && rest[0].x == x
    ensures Proceeds(cfg, Alone(db, x, tx), [m] + rest, ok, Alone(db, x, tx'), rest)
  {
    Unfold(cfg, Alone(db, x, tx), m, rest);
    if !ok {
      Stuck(cfg, db, x, rest);
    }
  }

  /** The first statement. */
  lemma Opening(cfg: Config, db: State, x: nat, m: Move, ok: bool, tx: Txn, rest: seq<Move>)
    requires Linked(db) && CanMove(cfg, Idle(db), m) && Go(cfg, Idle(db), m) == (if ok then Alone(db, x, tx) else Idle(db))
    requires rest != [] && (IsStatement(rest[0]) || rest[0].Commit?) && rest[0].x == x
    ensures Proceeds(cfg, Idle(db), [m] + rest, ok, Alone(db, x, tx), rest)
  {
    Unfold(cfg, Idle(db), m, rest);
    if !ok {
      Stuck(cfg, db, x, rest);
    }
  }

  /** The commit. */
  lemma Conclude(cfg: Config, db: State, x: nat, tx: Txn, a: Action, nodeNow: int)
    requires Linked(db) && TxnOk(cfg, db, tx) && Ready(tx) && a == ActionOf(db, tx, nodeNow)
    requires tx.ConfirmTx? ==> CanConfirm(db, tx.booking, tx.byGuest)
    ensures PlaysAs(cfg, Alone(db, x, tx), [Move.Commit(x, nodeNow)], a)
  {
    var w, m := Alone(db, x, tx), Move.Commit(x, nodeNow);
    CommitIsAction(cfg, db, tx, nodeNow);
    assert Go(cfg, w, m).txns == map[];
    Unfold(cfg, w, m, []);
    assert [m] + [] == [m];
  }

  // ---- booking ---------------------------------------------------------------------------------

  lemma CreateBegins(cfg: Config, db: State, x: nat, guest: nat, l: nat, now: int, rest: seq<Move>)
    requires Linked(db) && rest != [] && rest[0] == CountPending(x)
    ensures Proceeds(cfg, Idle(db), [BeginCreate(x, guest, l, now)] + rest, true, Alone(db, x, CreateTx(guest, l, now, Queued)), rest)
  {
    Opening(cfg, db, x, BeginCreate(x, guest, l, now), true, CreateTx(guest, l, now, Queued), rest);
  }

  lemma CreateCounts(cfg: Config, db: State, x: nat, guest: nat, l: nat, now: int, rest: seq<Move>)
    requires Linked(db) && rest != [] && IsStatement(rest[0]) && rest[0].x == x
    ensures var n := Count(db.bookings, PendingOf(guest));
      Proceeds(cfg, Alone(db, x, CreateTx(guest, l, now, Queued)), [CountPending(x)] + rest, n < cfg.maxPending,
               Alone(db, x, CreateTx(guest, l, now, Counted(n))), rest)
  {
    var n := Count(db.bookings, PendingOf(guest));
    Statement(cfg, db, x, CreateTx(guest, l, now, Queued), CountPending(x), n < cfg.maxPending, CreateTx(guest, l, now, Counted(n)), rest);
  }

  lemma CreateChecks(cfg: Config, db: State, x: nat, guest: nat, l: nat, nodeNow: int, now: int, n: nat, rest: seq<Move>)
    requires Linked(db) && rest != [] && IsStatement(rest[0]) && rest[0].x == x
    ensures Proceeds(cfg, Alone(db, x, CreateTx(guest, l, now, Counted(n))), [CheckListing(x, nodeNow)] + rest,
                     Bookable(db, l, nodeNow) && db.listings[l].host != guest, Alone(db, x, CreateTx(guest, l, now, Checked(n))), rest)
  {
    Statement(cfg, db, x, CreateTx(guest, l, now, Counted(n)), CheckListing(x, nodeNow),
              Bookable(db, l, nodeNow) && db.listings[l].host != guest, CreateTx(guest, l, now, Checked(n)), rest);
  }

  /** What the seat statement returns: the row with one seat less. */
  function SeatTaken(db: State, l: nat): Listing
    requires l < |db.listings|
  {
    db.listings[l].(remaining := db.listings[l].remaining - 1)
  }

  lemma CreateReserves(cfg: Config, db: State, x: nat, guest: nat, l: nat, now: int, n: nat, rest: seq<Move>)
    requires Linked(db) && l < |db.listings| && rest != [] && rest[0].Commit? && rest[0].x == x
    ensures Proceeds(cfg, Alone(db, x, CreateTx(guest, l, now, Checked(n))), [Reserve(x)] + rest,
                     Bookable(db, l, now) && db.listings[l].remaining > 0,
                     Alone(db, x, CreateTx(guest, l, now, Reserved(n, SeatTaken(db, l)))), rest)
  {
    Statement(cfg, db, x, CreateTx(guest, l, now, Checked(n)), Reserve(x), Bookable(db, l, now) && db.listings[l].remaining > 0,
              CreateTx(guest, l, now, Reserved(n, SeatTaken(db, l))), rest);
  }

  lemma CreateCommits(cfg: Config, db: State, x: nat, guest: nat, l: nat, nodeNow: int, now: int)
    requires Linked(db) && CanBook(cfg, db, guest, l, now)
    ensures PlaysAs(cfg, Alone(db, x, CreateTx(guest, l, now, Reserved(Count(db.bookings, PendingOf(guest)), SeatTaken(db, l)))),
                    [Move.Commit(x, nodeNow)], Action.CreateBooking(guest, l, now))
  {
    var tx := CreateTx(guest, l, now, Reserved(Count(db.bookings, PendingOf(guest)), SeatTaken(db, l)));
    Conclude(cfg, db, x, tx, Action.CreateBooking(guest, l, now), nodeNow);
  }

  /** The booking script runs to its commit exactly when the booking can be granted, and grants it. */
  lemma CreateAlone(cfg: Config, db: State, x: nat, guest: nat, l: nat, nodeNow: int, now: int)
    requires Linked(db)
    ensures var a := Action.CreateBooking(guest, l, now); var script := ScriptOf(x, a, nodeNow);
      && (Completes(cfg, db, script) <==> CanBook(cfg, db, guest, l, now) && db.listings[l].start > nodeNow)
      && (Completes(cfg, db, script) ==> PlaysAs(cfg, Idle(db), script, a))
  {
    var n := Count(db.bookings, PendingOf(guest));
    var last := [Move.Commit(x, nodeNow)];
    CreateBegins(cfg, db, x, guest, l, now, [CountPending(x)] + ([CheckListing(x, nodeNow)] + ([Reserve(x)] + last)));
    CreateCounts(cfg, db, x, guest, l, now, [CheckListing(x, nodeNow)] + ([Reserve(x)] + last));
    CreateChecks(cfg, db, x, guest, l, nodeNow, now, n, [Reserve(x)] + last);
    if l < |db.listings| {
      CreateReserves(cfg, db, x, guest, l, now, n, last);
    }
    if CanBook(cfg, db, guest, l, now) {
      CreateCommits(cfg, db, x, guest, l, nodeNow, now);
    }
    assert ScriptOf(x, Action.CreateBooking(guest, l, now), nodeNow)
        == [BeginCreate(x, guest, l, now)] + ([CountPending(x)] + ([CheckListing(x, nodeNow)] + ([Reserve(x)] + last)));
  }

  // ---- cancelling and confirming ---------------------------------------------------------------

  lemma CancelMarks(cfg: Config, db: State, x: nat, b: nat, byGuest: bool, now: int, rest: seq<Move>)
    requires Linked(db) && b < |db.bookings| && rest != [] && rest[0] == Restore(x)
    ensures Proceeds(cfg, Alone(db, x, CancelTx(b, byGuest, now, Locked)), [Mark(x)] + rest,
                     db.bookings[b].status == Pending && StartOf(db, b) > now,
                     Alone(db, x, CancelTx(b, byGuest, now, Marked(StartOf(db, b)))), rest)
  {
    Statement(cfg, db, x, CancelTx(b, byGuest, now, Locked), Mark(x), db.bookings[b].status == Pending && StartOf(db, b) > now,
              CancelTx(b, byGuest, now, Marked(StartOf(db, b))), rest);
  }

  lemma CancelRestores(cfg: Config, db: State, x: nat, b: nat, byGuest: bool, nodeNow: int, now: int)
    requires Linked(db) && b < |db.bookings| && db.bookings[b].status == Pending && StartOf(db, b) > now
    ensures PlaysAs(cfg, Alone(db, x, CancelTx(b, byGuest, now, Marked(StartOf(db, b)))), [Restore(x)] + [Move.Commit(x, nodeNow)],
                    Action.CancelBooking(b, byGuest, StartOf(db, b), now))
  {
    var row := db.listings[db.bookings[b].listing];
    var marked, restored := CancelTx(b, byGuest, now, Marked(StartOf(db, b))),
                            CancelTx(b, byGuest, now, Restored(StartOf(db, b), row.(remaining := row.remaining + 1)));
    Statement(cfg, db, x, marked, Restore(x), true, restored, [Move.Commit(x, nodeNow)]);
    Conclude(cfg, db, x, restored, Action.CancelBooking(b, byGuest, StartOf(db, b), now), nodeNow);
  }

  /** A cancellation goes through exactly while the booking is pending and its listing has not started. */
  lemma CancelAlone(cfg: Config, db: State, x: nat, b: nat, byGuest: bool, nodeNow: int, now: int)
    requires Linked(db) && b < |db.bookings|
    ensures var a := Action.CancelBooking(b, byGuest, StartOf(db, b), now); var script := ScriptOf(x, a, nodeNow);
      && (Completes(cfg, db, script) <==> db.bookings[b].status == Pending && StartOf(db, b) > now)
      && (Completes(cfg, db, script) ==> PlaysAs(cfg, Idle(db), script, a))
  {
    var rest := [Mark(x)] + ([Restore(x)] + [Move.Commit(x, nodeNow)]);
    Opening(cfg, db, x, BeginCancel(x, b, byGuest, now), true, CancelTx(b, byGuest, now, Locked), rest);
    CancelMarks(cfg, db, x, b, byGuest, now, [Restore(x)] + [Move.Commit(x, nodeNow)]);
    if db.bookings[b].status == Pending && StartOf(db, b) > now {
      CancelRestores(cfg, db, x, b, byGuest, nodeNow, now);
    }
    assert ScriptOf(x, Action.CancelBooking(b, byGuest, StartOf(db, b), now), nodeNow) == [BeginCancel(x, b, byGuest, now)] + rest;
  }

  /** A confirmation always commits; it is the action if it is the party's turn, and writes nothing otherwise. */
  lemma ConfirmAlone(cfg: Config, db: State, x: nat, b: nat, byGuest: bool, nodeNow: int, now: int)
    requires Linked(db) && b < |db.bookings|
    ensures var a := ConfirmBooking(b, byGuest, now); var script := ScriptOf(x, a, nodeNow);
      && Completes(cfg, db, script)
      && (if CanConfirm(db, b, byGuest) then PlaysAs(cfg, Idle(db), script, a) else Play(cfg, Idle(db), script) == Idle(db))
  {
    var a, tx, last := ConfirmBooking(b, byGuest, now), ConfirmTx(b, byGuest, now), [Move.Commit(x, nodeNow)];
    Opening(cfg, db, x, BeginConfirm(x, b, byGuest, now), true, tx, last);
    assert ScriptOf(x, a, nodeNow) == [BeginConfirm(x, b, byGuest, now)] + last;
    if CanConfirm(db, b, byGuest) {
      Conclude(cfg, db, x, tx, a, nodeNow);
    } else {
      ConfirmsNothing(cfg, db, x, b, byGuest, nodeNow, now);
    }
  }

  lemma ConfirmsNothing(cfg: Config, db: State, x: nat, b: nat, byGuest: bool, nodeNow: int, now: int)
    requires Linked(db) && b < |db.bookings| && !CanConfirm(db, b, byGuest)
    ensures var w := Alone(db, x, ConfirmTx(b, byGuest, now));
      LegalMoves(cfg, w, [Move.Commit(x, nodeNow)]) && Play(cfg, w, [Move.Commit(x, nodeNow)]) == Idle(db)
  {
    var w, m := Alone(db, x, ConfirmTx(b, byGuest, now)), Move.Commit(x, nodeNow);
    assert Go(cfg, w, m).txns == map[];
    Unfold(cfg, w, m, []);
    assert [m] + [] == [m];
  }

  // ---- listings --------------------------------------------------------------------------------

  lemma SweepRuns(cfg: Config, db: State, x: nat, l: nat, nodeNow: int, now: int)
    requires Linked(db) && l < |db.listings| && db.listings[l].active
    ensures PlaysAs(cfg, Alone(db, x, CancelListingTx(l, now, None)), [Sweep(x)] + [Move.Commit(x, nodeNow)], Action.CancelListing(l, now))
  {
    var swept := CancelListingTx(l, now, Some(Affected(db.bookings, l)));
    Statement(cfg, db, x, CancelListingTx(l, now, None), Sweep(x), true, swept, [Move.Commit(x, nodeNow)]);
    Conclude(cfg, db, x, swept, Action.CancelListing(l, now), nodeNow);
  }

  /** A listing is cancelled exactly when it is active. */
  lemma CancelListingAlone(cfg: Config, db: State, x: nat, l: nat, nodeNow: int, now: int)
    requires Linked(db) && l < |db.listings|
    ensures var a := Action.CancelListing(l, now); var script := ScriptOf(x, a, nodeNow);
      && (Completes(cfg, db, script) <==> db.listings[l].active)
      && (Completes(cfg, db, script) ==> PlaysAs(cfg, Idle(db), script, a))
  {
    var rest := [Sweep(x)] + [Move.Commit(x, nodeNow)];
    Opening(cfg, db, x, BeginCancelListing(x, l, now), db.listings[l].active, CancelListingTx(l, now, None), rest);
    if db.listings[l].active {
      SweepRuns(cfg, db, x, l, nodeNow, now);
    }
    assert ScriptOf(x, Action.CancelListing(l, now), nodeNow) == [BeginCancelListing(x, l, now)] + rest;
  }

  /** From the fan-out on. */
  lemma UpdatePlans(cfg: Config, db: State, x: nat, l: nat, patch: Patch, counted: Option<nat>, nodeNow: int, now: int)
    requires Linked(db) && TxnOk(cfg, db, UpdateTx(l, patch, now, counted, 0, None)) && (patch.capacity.Some? <==> counted.Some?)
    ensures PlaysAs(cfg, Alone(db, x, UpdateTx(l, patch, now, counted, 0, None)), [Plan(x)] + [Move.Commit(x, nodeNow)],
                    Action.UpdateListing(l, patch, 0, PendingIds(db.bookings, l), now))
  {
    var planned := UpdateTx(l, patch, now, counted, 0, Some(PendingIds(db.bookings, l)));
    Statement(cfg, db, x, UpdateTx(l, patch, now, counted, 0, None), Plan(x), true, planned, [Move.Commit(x, nodeNow)]);
    Conclude(cfg, db, x, planned, Action.UpdateListing(l, patch, 0, PendingIds(db.bookings, l), now), nodeNow);
  }

  lemma UpdateCounts(cfg: Config, db: State, x: nat, l: nat, patch: Patch, now: int, rest: seq<Move>)
    requires Linked(db) && patch.capacity.Some? && rest != [] && rest[0] == Plan(x)
    ensures var n := Count(db.bookings, SeatsOn(l));
      Proceeds(cfg, Alone(db, x, UpdateTx(l, patch, now, None, 0, None)), [CountSeats(x)] + rest, n <= patch.capacity.value,
               Alone(db, x, UpdateTx(l, patch, now, Some(n), 0, None)), rest)
  {
    var n := Count(db.bookings, SeatsOn(l));
    Statement(cfg, db, x, UpdateTx(l, patch, now, None, 0, None), CountSeats(x), n <= patch.capacity.value,
              UpdateTx(l, patch, now, Some(n), 0, None), rest);
  }

  /** The guard of an update that counts 0 completions after its count. */
  predicate RoomFor(db: State, l: nat, patch: Patch)
  {
    patch.capacity.Some? ==> patch.capacity.value >= 1 && Count(db.bookings, SeatsOn(l)) <= patch.capacity.value
  }

  lemma UpdateOpens(cfg: Config, db: State, x: nat, l: nat, patch: Patch, now: int, rest: seq<Move>)
    requires Linked(db) && l < |db.listings| && rest != [] && (rest[0] == CountSeats(x) || rest[0] == Plan(x))
    ensures Proceeds(cfg, Idle(db), [BeginUpdate(x, l, patch, now)] + rest,
                     db.listings[l].active && (patch.capacity.Some? ==> patch.capacity.value >= 1),
                     Alone(db, x, UpdateTx(l, patch, now, None, 0, None)), rest)
  {
    if patch.capacity.Some? ==> patch.capacity.value >= 1 {
      Opening(cfg, db, x, BeginUpdate(x, l, patch, now), db.listings[l].active, UpdateTx(l, patch, now, None, 0, None), rest);
    }
  }

  /** An update goes through exactly when its listing is active and its capacity, if it has one, has room for the seats booked. */
  lemma UpdateAlone(cfg: Config, db: State, x: nat, l: nat, patch: Patch, nodeNow: int, now: int)
    requires Linked(db) && l < |db.listings|
    ensures var a := Action.UpdateListing(l, patch, 0, PendingIds(db.bookings, l), now); var script := ScriptOf(x, a, nodeNow);
      && (Completes(cfg, db, script) <==> db.listings[l].active && RoomFor(db, l, patch))
      && (Completes(cfg, db, script) ==> PlaysAs(cfg, Idle(db), script, a))
  {
    var script := ScriptOf(x, Action.UpdateListing(l, patch, 0, PendingIds(db.bookings, l), now), nodeNow);
    var plan := [Plan(x)] + [Move.Commit(x, nodeNow)];
    if patch.capacity.None? {
      UpdateOpens(cfg, db, x, l, patch, now, plan);
      if db.listings[l].active {
        UpdatePlans(cfg, db, x, l, patch, None, nodeNow, now);
      }
      assert script == [BeginUpdate(x, l, patch, now)] + plan;
    } else {
      UpdateOpens(cfg, db, x, l, patch, now, [CountSeats(x)] + plan);
      UpdateCounts(cfg, db, x, l, patch, now, plan);
      if db.listings[l].active && RoomFor(db, l, patch) {
        UpdatePlans(cfg, db, x, l, patch, Some(Count(db.bookings, SeatsOn(l))), nodeNow, now);
      }
      assert script == [BeginUpdate(x, l, patch, now)] + ([CountSeats(x)] + plan);
    }
  }

  // ---- promotion -------------------------------------------------------------------------------

  /** The handler transaction of a claimed promote row always commits, and decides from the start it locked. */
  lemma PromoteAlone(cfg: Config, db: State, x: nat, worker: nat, j: nat, nodeNow: int, now: int)
    requires Linked(db) && Outbox.Running(db.jobs, worker, j) && j < |db.jobs.jobs|
    requires db.jobs.jobs[j].payload.Promote? && db.jobs.jobs[j].payload.booking < |db.bookings|
    ensures var a := RunPromote(worker, j, StartOf(db, db.jobs.jobs[j].payload.booking), nodeNow, now);
      PlaysAs(cfg, Idle(db), ScriptOf(x, a, nodeNow), a)
  {
    var b := db.jobs.jobs[j].payload.booking;
    var row, a := db.listings[db.bookings[b].listing], RunPromote(worker, j, StartOf(db, b), nodeNow, now);
    var tx := PromoteTx(worker, j, b, now, db.bookings[b].status, row.start, row.active);
    Opening(cfg, db, x, BeginPromote(x, worker, j, now), true, tx, [Move.Commit(x, nodeNow)]);
    Conclude(cfg, db, x, tx, a, nodeNow);
    assert ScriptOf(x, a, nodeNow) == [BeginPromote(x, worker, j, now)] + [Move.Commit(x, nodeNow)];
  }
}
