/**
 * The same transactions split into their SQL statements and interleaved freely, with row and advisory
 * locks held to commit and each statement reading what is committed when it runs (READ COMMITTED).
 * Every commit turns out to be one action of module Bookings, whatever ran in between.
 */
module Interleaving {
  import opened Tables
  import opened Bookings
  import opened BookingInvariants
  import opened BookingTheorems
  import Outbox

  // ---- open transactions -----------------------------------------------------------------------

  datatype CreateStage = Queued | Counted(n: nat) | Checked(n: nat) | Reserved(n: nat, row: Listing)

  datatype CancelStage = Locked | Marked(start: int) | Restored(start: int, row: Listing)

  /** What each open transaction holds locked and has read so far; now is its start instant. */
  datatype Txn =
    | CreateTx(guest: nat, listing: nat, now: int, create: CreateStage)
    | CancelTx(booking: nat, byGuest: bool, now: int, cancel: CancelStage)
    | ConfirmTx(booking: nat, byGuest: bool, now: int)
    | UpdateTx(listing: nat, patch: Patch, now: int, counted: Option<nat>, late: nat, fanout: Option<seq<nat>>)
    | CancelListingTx(listing: nat, now: int, swept: Option<seq<nat>>)
    | PromoteTx(worker: nat, job: nat, booking: nat, now: int, status: BookingStatus, start: int, active: bool)

  datatype World = World(db: State, txns: map<nat, Txn>)

  /** Advisory locks on guests. */
  function GuestsOf(x: Txn): set<nat>
  {
    if x.CreateTx? then {x.guest} else {}
  }

  /** Row locks on listings. */
  function ListingsOf(db: State, x: Txn): set<nat>
  {
    match x
    case CreateTx(_, l, _, Reserved(_, _)) => {l}
    case CancelTx(b, _, _, Restored(_, _)) => if b < |db.bookings| then {db.bookings[b].listing} else {}
    case UpdateTx(l, _, _, _, _, _) => {l}
    case CancelListingTx(l, _, _) => {l}
    case _ => {}
  }

  /** Row locks on bookings. */
  function BookingsOf(x: Txn): set<nat>
  {
    match x
    case CancelTx(b, _, _, _) => {b}
    case ConfirmTx(b, _, _) => {b}
    case PromoteTx(_, _, b, _, _, _, _) => {b}
    case CancelListingTx(_, _, Some(ids)) => set b | b in ids
    case _ => {}
  }

  predicate Free(w: World, guests: set<nat>, listings: set<nat>, bookings: set<nat>, except: nat)
  {
    forall y :: y in w.txns && y != except ==>
      GuestsOf(w.txns[y]) !! guests && ListingsOf(w.db, w.txns[y]) !! listings && BookingsOf(w.txns[y]) !! bookings
  }

  // ---- statements ------------------------------------------------------------------------------

  datatype Move =
    | BeginCreate(x: nat, guest: nat, listing: nat, now: int)
    | CountPending(x: nat)
    | CheckListing(x: nat, nodeNow: int)
    | Reserve(x: nat)
    | BeginCancel(x: nat, booking: nat, byGuest: bool, now: int)
    | Mark(x: nat)
    | Restore(x: nat)
    | BeginConfirm(x: nat, booking: nat, byGuest: bool, now: int)
    | BeginUpdate(x: nat, listing: nat, patch: Patch, now: int)
    | CountSeats(x: nat)
    | Plan(x: nat)
    | BeginCancelListing(x: nat, listing: nat, now: int)
    | Sweep(x: nat)
    | BeginPromote(x: nat, worker: nat, job: nat, now: int)
    | Commit(x: nat, nodeNow: int)
    | Rollback(x: nat)
    | Direct(action: Action)

  /** A statement waits for the locks it needs; that wait is what its guard expresses. */
  predicate CanMove(cfg: Config, w: World, m: Move)
  {
    match m
    case BeginCreate(x, guest, _, _) => x !in w.txns && Free(w, {guest}, {}, {}, x)
    case CountPending(x) => x in w.txns && w.txns[x].CreateTx? && w.txns[x].create.Queued?
    case CheckListing(x, _) => x in w.txns && w.txns[x].CreateTx? && w.txns[x].create.Counted?
    case Reserve(x) => x in w.txns && w.txns[x].CreateTx? && w.txns[x].create.Checked? && Free(w, {}, {w.txns[x].listing}, {}, x)
    case BeginCancel(x, b, _, _) => x !in w.txns && b < |w.db.bookings| && Free(w, {}, {}, {b}, x)
    case Mark(x) => x in w.txns && w.txns[x].CancelTx? && w.txns[x].cancel.Locked?
    case Restore(x) =>
      && x in w.txns && w.txns[x].CancelTx? && w.txns[x].cancel.Marked? && w.txns[x].booking < |w.db.bookings|
      && Free(w, {}, {w.db.bookings[w.txns[x].booking].listing}, {}, x)
    case BeginConfirm(x, b, _, _) => x !in w.txns && b < |w.db.bookings| && Free(w, {}, {}, {b}, x)
    case BeginUpdate(x, l, patch, _) =>
      && x !in w.txns && l < |w.db.listings| && Free(w, {}, {l}, {}, x)
      && (patch.capacity.Some? ==> patch.capacity.value >= 1)
    case CountSeats(x) =>
      x in w.txns && w.txns[x].UpdateTx? && w.txns[x].patch.capacity.Some? && w.txns[x].counted.None? && w.txns[x].fanout.None?
    case Plan(x) =>
      x in w.txns && w.txns[x].UpdateTx? && (w.txns[x].patch.capacity.Some? ==> w.txns[x].counted.Some?) && w.txns[x].fanout.None?
    case BeginCancelListing(x, l, _) => x !in w.txns && l < |w.db.listings| && Free(w, {}, {l}, {}, x)
    case Sweep(x) =>
      && x in w.txns && w.txns[x].CancelListingTx? && w.txns[x].swept.None?
      && Free(w, {}, {}, (set b | b in Affected(w.db.bookings, w.txns[x].listing)), x)
    case BeginPromote(x, worker, j, _) =>
      && x !in w.txns && Outbox.Running(w.db.jobs, worker, j) && j < |w.db.jobs.jobs| && w.db.jobs.jobs[j].payload.Promote?
      && w.db.jobs.jobs[j].payload.booking < |w.db.bookings| && Free(w, {}, {}, {w.db.jobs.jobs[j].payload.booking}, x)
    case Commit(x, _) => x in w.txns && Ready(w.txns[x])
    case Rollback(x) => x in w.txns
    case Direct(a) =>
      && Enabled(cfg, w.db, a)
      && (a.CreateListing? || a.Work? || (a.Moderate? && forall y :: y in w.txns ==> a.listing !in ListingsOf(w.db, w.txns[y])))
  }

  predicate Ready(x: Txn)
  {
    match x
    case CreateTx(_, _, _, c) => c.Reserved?
    case CancelTx(_, _, _, c) => c.Restored?
    case ConfirmTx(_, _, _) => true
    case UpdateTx(_, _, _, _, _, fanout) => fanout.Some?
    case CancelListingTx(_, _, swept) => swept.Some?
    case PromoteTx(_, _, _, _, _, _, _) => true
  }

  function Open(w: World, x: nat, tx: Txn): World
  {
    w.(txns := w.txns[x := tx])
  }

  function Close(w: World, x: nat): World
  {
    w.(txns := w.txns - {x})
  }

  /** A statement whose condition fails makes the service throw, which rolls the transaction back. */
  function Go(cfg: Config, w: World, m: Move): World
    requires Linked(w.db) && CanMove(cfg, w, m)
  {
    var db := w.db;
    match m
    case BeginCreate(x, guest, l, now) => Open(w, x, CreateTx(guest, l, now, Queued))
    case CountPending(x) =>
      var n := Count(db.bookings, PendingOf(w.txns[x].guest));
      if n >= cfg.maxPending then Close(w, x) else Open(w, x, w.txns[x].(create := Counted(n)))
    case CheckListing(x, nodeNow) =>
      var tx := w.txns[x];
      if && tx.listing < |db.listings| && db.listings[tx.listing].host != tx.guest
         && db.listings[tx.listing].moderation == Approved && db.listings[tx.listing].active
         && db.listings[tx.listing].start > nodeNow
      then Open(w, x, tx.(create := Checked(tx.create.n))) else Close(w, x)
    case Reserve(x) =>
      var tx := w.txns[x];
      if && tx.listing < |db.listings| && db.listings[tx.listing].remaining > 0 && db.listings[tx.listing].active
         && db.listings[tx.listing].moderation == Approved && db.listings[tx.listing].start > tx.now
      then
        var row := db.listings[tx.listing];
        Open(w, x, tx.(create := Reserved(tx.create.n, row.(remaining := row.remaining - 1))))
      else Close(w, x)
    case BeginCancel(x, b, byGuest, now) => Open(w, x, CancelTx(b, byGuest, now, Locked))
    case Mark(x) =>
      var tx := w.txns[x];
      if tx.booking < |db.bookings| && db.bookings[tx.booking].status == Pending
         && db.listings[db.bookings[tx.booking].listing].start > tx.now
      then Open(w, x, tx.(cancel := Marked(db.listings[db.bookings[tx.booking].listing].start))) else Close(w, x)
    case Restore(x) =>
      var tx := w.txns[x];
      var row := db.listings[db.bookings[tx.booking].listing];
      Open(w, x, tx.(cancel := Restored(tx.cancel.start, row.(remaining := row.remaining + 1))))
    case BeginConfirm(x, b, byGuest, now) => Open(w, x, ConfirmTx(b, byGuest, now))
    case BeginUpdate(x, l, patch, now) =>
      if db.listings[l].active then Open(w, x, UpdateTx(l, patch, now, None, 0, None)) else w
    case CountSeats(x) =>
      var tx := w.txns[x];
      var n := Count(db.bookings, SeatsOn(tx.listing));
      if tx.patch.capacity.value < n then Close(w, x) else Open(w, x, tx.(counted := Some(n), late := 0))
    case Plan(x) => Open(w, x, w.txns[x].(fanout := Some(PendingIds(db.bookings, w.txns[x].listing))))
    case BeginCancelListing(x, l, now) =>
      if db.listings[l].active then Open(w, x, CancelListingTx(l, now, None)) else w
    case Sweep(x) => Open(w, x, w.txns[x].(swept := Some(Affected(db.bookings, w.txns[x].listing))))
    case BeginPromote(x, worker, j, now) =>
      var b := db.jobs.jobs[j].payload.booking;
      var row := db.listings[db.bookings[b].listing];
      Open(w, x, PromoteTx(worker, j, b, now, db.bookings[b].status, row.start, row.active))
    case Commit(x, nodeNow) =>
      var tx := w.txns[x];
      var db' := Effect(db, tx, nodeNow);
      World(db', map y | y in w.txns && y != x :: NoteCompletion(w.txns[y], CompletedOn(db, tx)))
    case Rollback(x) => Close(w, x)
    case Direct(a) => w.(db := Apply(cfg, db, a))
  }

  /** The listing on which committing tx completes a booking. */
  function CompletedOn(db: State, tx: Txn): Option<nat>
  {
    if tx.ConfirmTx? && CanConfirm(db, tx.booking, tx.byGuest)
       && Confirmed(db.bookings[tx.booking], tx.byGuest).status == Completed
    then Some(db.bookings[tx.booking].listing) else None
  }

  /** History variable: an update that has counted notes the completions that commit after its count. */
  function NoteCompletion(y: Txn, completed: Option<nat>): Txn
  {
    if y.UpdateTx? && y.counted.Some? && completed == Some(y.listing) then y.(late := y.late + 1) else y
  }

  /** The writes of a transaction, from what it read and locked, made visible at its commit. */
  function Effect(db: State, tx: Txn, nodeNow: int): State
    requires Linked(db)
  {
    match tx
    case CreateTx(guest, l, now, Reserved(_, row)) =>
      var b := |db.bookings|;
      db.(listings := if l < |db.listings| then db.listings[l := row] else db.listings,
          bookings := db.bookings + [Booking(l, guest, Pending, false, false)],
          jobs := Outbox.EnqueueAll(db.jobs, Notices(b, Created, [guest, row.host], now) + [Promotion(b, row.start)]),
          history := db.history + [[Created]])
    case CancelTx(b, byGuest, now, Restored(_, row)) =>
      if b >= |db.bookings| then db
      else
        var bk, e := db.bookings[b], if byGuest then CancelledByGuest else CancelledByHost;
        Record(db.(bookings := db.bookings[b := bk.(status := Cancelled)],
                   listings := db.listings[bk.listing := row],
                   jobs := Outbox.EnqueueAll(db.jobs, Notices(b, e, [bk.guest, row.host], now))), b, e)
    case ConfirmTx(b, byGuest, now) =>
      if CanConfirm(db, b, byGuest) then Confirm(db, b, byGuest, now) else db
    case UpdateTx(l, patch, now, counted, late, Some(fanout)) =>
      if l >= |db.listings| then db
      else
        var row := Patched(db.listings[l], patch, Or(counted, 0));
        db.(listings := db.listings[l := row],
            spent := if patch.capacity.Some? && l < |db.spent| then db.spent[l := late] else db.spent,
            jobs := Outbox.EnqueueAll(db.jobs, UpdatePostings(l, row, patch, fanout, now)))
    case CancelListingTx(l, now, Some(ids)) =>
      if l >= |db.listings| || exists i :: 0 <= i < |ids| && ids[i] >= |db.bookings| then db
      else
        State(db.listings[l := db.listings[l].(active := false)],
              seq(|db.bookings|, b requires 0 <= b < |db.bookings| =>
                    if b in ids then db.bookings[b].(status := Cancelled) else db.bookings[b]),
              Outbox.EnqueueAll(db.jobs, Farewells(db.bookings, ids, now)), db.spent,
              seq(|db.history|, b requires 0 <= b < |db.history| =>
                    if b in ids then db.history[b] + [ListingCancelled] else db.history[b]))
    case PromoteTx(worker, j, b, now, status, start, active) =>
      var h := PromoteRead(db, b, j, now, status, start, active, nodeNow);
      if Outbox.Running(h.state.jobs, worker, j) then SettlePromote(h, worker, j) else h.state
    case _ => db
  }

  /** The promote handler deciding from what it read when it locked the booking. */
  function PromoteRead(db: State, b: nat, j: nat, now: int, status: BookingStatus, start: int, active: bool, nodeNow: int): Handled
  {
    if b >= |db.bookings| || db.bookings[b].listing >= |db.listings| || status != Pending || !active then Handled(db, Noop)
    else if start > nodeNow then
      var secured := SecureSchedule(db.jobs, b, start, Some(j));
      if secured.row.None? then Handled(db, Unsecured) else Handled(db.(jobs := secured.jobs), Rescheduled)
    else Handled(Start(db, b, now), Promoted)
  }

  // ---- what the locks keep true ----------------------------------------------------------------

  ghost predicate TxnOk(cfg: Config, db: State, x: Txn)
    requires Linked(db)
  {
    match x
    case CreateTx(guest, l, now, c) =>
      && (!c.Queued? ==> Count(db.bookings, PendingOf(guest)) <= c.n < cfg.maxPending)
      && (c.Checked? || c.Reserved? ==> l < |db.listings| && db.listings[l].host != guest)
      && (c.Reserved? ==>
            && db.listings[l].remaining > 0 && db.listings[l].active && db.listings[l].moderation == Approved
            && db.listings[l].start > now && c.row == db.listings[l].(remaining := db.listings[l].remaining - 1))
    case CancelTx(b, _, now, c) =>
      && b < |db.bookings|
      && (!c.Locked? ==> db.bookings[b].status == Pending && c.start > now)
      && (c.Restored? ==>
            var row := db.listings[db.bookings[b].listing]; c.row == row.(remaining := row.remaining + 1))
    case ConfirmTx(b, _, _) => b < |db.bookings|
    case UpdateTx(l, patch, _, counted, late, fanout) =>
      && l < |db.listings| && db.listings[l].active
      && (patch.capacity.Some? ==> patch.capacity.value >= 1)
      && (counted.Some? && patch.capacity.Some? ==>
            Count(db.bookings, SeatsOn(l)) + late == counted.value <= patch.capacity.value)
      && (fanout.Some? ==>
            && (patch.capacity.Some? ==> counted.Some?)
            && (forall i :: 0 <= i < |fanout.value| ==>
                  fanout.value[i] < |db.bookings| && db.bookings[fanout.value[i]].listing == l)
            && (forall b :: 0 <= b < |db.bookings| && db.bookings[b].listing == l && db.bookings[b].status == Pending ==>
                  b in fanout.value))
    case CancelListingTx(l, _, swept) =>
      && l < |db.listings| && db.listings[l].active
      && (swept.Some? ==> swept.value == Affected(db.bookings, l))
    case PromoteTx(_, j, b, _, status, _, active) =>
      && b < |db.bookings| && db.bookings[b].status == status
      && j < |db.jobs.jobs| && db.jobs.jobs[j].payload == Promote(b)
      && (!active ==> !db.listings[db.bookings[b].listing].active)
      && (active && status == Pending ==> db.listings[db.bookings[b].listing].active)
  }

  /** Locks are exclusive. */
  ghost predicate Exclusive(w: World)
  {
    forall x, y :: x in w.txns && y in w.txns && x != y ==>
      && GuestsOf(w.txns[x]) !! GuestsOf(w.txns[y])
      && ListingsOf(w.db, w.txns[x]) !! ListingsOf(w.db, w.txns[y])
      && BookingsOf(w.txns[x]) !! BookingsOf(w.txns[y])
  }

  /** What the locks keep true of every open transaction. */
  ghost predicate TxnsOk(cfg: Config, w: World)
  {
    Linked(w.db) && Exclusive(w) && forall x :: x in w.txns ==> TxnOk(cfg, w.db, w.txns[x])
  }

  ghost predicate WorldOk(cfg: Config, w: World)
  {
    Inv(cfg, w.db) && TxnsOk(cfg, w)
  }

  // ---- every commit is one action --------------------------------------------------------------

  function ActionOf(db: State, tx: Txn, nodeNow: int): Action
  {
    match tx
    case CreateTx(guest, l, now, _) => CreateBooking(guest, l, now)
    case CancelTx(b, byGuest, now, c) => CancelBooking(b, byGuest, if c.Locked? then now else c.start, now)
    case ConfirmTx(b, byGuest, now) => ConfirmBooking(b, byGuest, now)
    case UpdateTx(l, patch, now, _, late, fanout) => UpdateListing(l, patch, late, Or(fanout, []), now)
    case CancelListingTx(l, now, _) => CancelListing(l, now)
    case PromoteTx(worker, j, b, now, _, start, _) =>
      if Outbox.Running(db.jobs, worker, j) then RunPromote(worker, j, start, nodeNow, now)
      else RunDetached(b, Some(j), start, nodeNow, now)
  }

  /** A confirm that has become out of turn writes nothing; every other transaction takes its action. */
  ghost predicate CommitsAs(cfg: Config, db: State, tx: Txn, nodeNow: int)
    requires Linked(db)
  {
    if tx.ConfirmTx? && !CanConfirm(db, tx.booking, tx.byGuest) then Effect(db, tx, nodeNow) == db
    else Enabled(cfg, db, ActionOf(db, tx, nodeNow)) && Effect(db, tx, nodeNow) == Apply(cfg, db, ActionOf(db, tx, nodeNow))
  }

  /** Committing a transaction is its one action of the transaction-level protocol, whatever was committed in between. */
  lemma CommitIsAction(cfg: Config, db: State, tx: Txn, nodeNow: int)
    requires Linked(db) && TxnOk(cfg, db, tx) && Ready(tx)
    ensures CommitsAs(cfg, db, tx, nodeNow)
  {
    match tx
    case CreateTx(_, _, _, _) =>
    case CancelTx(_, _, _, _) =>
    case ConfirmTx(_, _, _) =>
    case UpdateTx(_, _, _, _, _, _) => UpdateCommit(cfg, db, tx, nodeNow);
    case CancelListingTx(_, _, _) => SweepCommit(cfg, db, tx, nodeNow);
    case PromoteTx(_, _, _, _, _, _, _) => PromoteCommit(cfg, db, tx, nodeNow);
  }

  /**
   * A transaction rolls back of itself only on the statement whose condition fails: the guest is at the cap, the
   * listing cannot be booked, no seat could be taken, the booking cannot be cancelled any more, or the new capacity
   * is below the seats booked. Its other statements go through. Nothing it did before is to be undone in the tables.
   */
  lemma ClosesIff(cfg: Config, w: World, m: Move)
    requires Linked(w.db) && CanMove(cfg, w, m) && (IsStatement(m) || m.Rollback?)
    ensures var db, tx, gone := w.db, w.txns[m.x], m.x !in Go(cfg, w, m).txns;
      match m
      case CountPending(_) => gone <==> Count(db.bookings, PendingOf(tx.guest)) >= cfg.maxPending
      case CheckListing(_, nodeNow) =>
        gone <==> !Bookable(db, tx.listing, nodeNow) || db.listings[tx.listing].host == tx.guest
      case Reserve(_) => gone <==> !Bookable(db, tx.listing, tx.now) || db.listings[tx.listing].remaining <= 0
      case Mark(_) =>
        gone <==> tx.booking < |db.bookings| ==> db.bookings[tx.booking].status != Pending || StartOf(db, tx.booking) <= tx.now
      case CountSeats(_) => gone <==> tx.patch.capacity.value < Count(db.bookings, SeatsOn(tx.listing))
      case Rollback(_) => gone
      case _ => !gone
    ensures Go(cfg, w, m).db == w.db && forall y :: y != m.x ==> (y in Go(cfg, w, m).txns <==> y in w.txns)
  {
  }

  predicate Bookable(db: State, l: nat, at: int)
  {
    l < |db.listings| && db.listings[l].moderation == Approved && db.listings[l].active && db.listings[l].start > at
  }

  /** The statements between a transaction's first and its commit. */
  predicate IsStatement(m: Move)
  {
    m.CountPending? || m.CheckListing? || m.Reserve? || m.Mark? || m.Restore? || m.CountSeats? || m.Plan? || m.Sweep?
  }

  lemma UpdateCommit(cfg: Config, db: State, tx: Txn, nodeNow: int)
    requires Linked(db) && TxnOk(cfg, db, tx) && Ready(tx) && tx.UpdateTx?
    ensures CommitsAs(cfg, db, tx, nodeNow)
  {
    var n := Count(db.bookings, SeatsOn(tx.listing)) + tx.late;
    assert Patched(db.listings[tx.listing], tx.patch, Or(tx.counted, 0)) == Patched(db.listings[tx.listing], tx.patch, n);
    assert Effect(db, tx, nodeNow) == Update(db, tx.listing, tx.patch, tx.late, tx.fanout.value, tx.now);
  }

  lemma SweepCommit(cfg: Config, db: State, tx: Txn, nodeNow: int)
    requires Linked(db) && TxnOk(cfg, db, tx) && Ready(tx) && tx.CancelListingTx?
    ensures CommitsAs(cfg, db, tx, nodeNow)
  {
    var l, ids := tx.listing, tx.swept.value;
    assert forall b :: 0 <= b < |db.bookings| ==> (b in ids <==> SeatsOn(l)(db.bookings[b]));
    assert Effect(db, tx, nodeNow).bookings == Swept(db.bookings, l);
    assert Effect(db, tx, nodeNow).history == SweptHistory(db, l);
  }

  lemma PromoteCommit(cfg: Config, db: State, tx: Txn, nodeNow: int)
    requires Linked(db) && TxnOk(cfg, db, tx) && Ready(tx) && tx.PromoteTx?
    ensures CommitsAs(cfg, db, tx, nodeNow)
  {
    assert PromoteRead(db, tx.booking, tx.job, tx.now, tx.status, tx.start, tx.active, nodeNow)
        == PromoteDue(db, tx.booking, Some(tx.job), tx.start, nodeNow, tx.now);
  }

  // ---- what a commit leaves alone --------------------------------------------------------------

  /** The changes that holding these locks permits; completed is the listing on which a booking was completed. */
  ghost predicate Framed(db: State, db': State, guests: set<nat>, listings: set<nat>, bookings: set<nat>, completed: Option<nat>)
  {
    && |db.listings| <= |db'.listings| && |db.bookings| <= |db'.bookings| && |db.jobs.jobs| <= |db'.jobs.jobs|
    && (forall l :: 0 <= l < |db.listings| && l !in listings ==> db'.listings[l] == db.listings[l])
    && (forall l :: 0 <= l < |db.listings| ==>
          db'.listings[l].host == db.listings[l].host && (db'.listings[l].active ==> db.listings[l].active))
    && (forall b :: 0 <= b < |db.bookings| ==>
          && db'.bookings[b].listing == db.bookings[b].listing
          && (b !in bookings ==> db'.bookings[b] == db.bookings[b])
          && (db'.bookings[b].status == Pending ==> db.bookings[b].status == Pending)
          && (HoldsSeat(db'.bookings[b]) ==> HoldsSeat(db.bookings[b])))
    && (forall b :: |db.bookings| <= b < |db'.bookings| ==> db'.bookings[b].listing in listings)
    && (forall l: nat :: l !in listings ==>
          Count(db'.bookings, SeatsOn(l)) + (if completed == Some(l) then 1 else 0) == Count(db.bookings, SeatsOn(l)))
    && (forall g: nat :: g !in guests ==> Count(db'.bookings, PendingOf(g)) <= Count(db.bookings, PendingOf(g)))
    && (forall l, b :: 0 <= l < |db.listings| && 0 <= b < |db.bookings| ==>
          (db.listings[l].active && !db'.listings[l].active && SeatsOn(l)(db.bookings[b]) ==> b in bookings))
    && (forall j :: 0 <= j < |db.jobs.jobs| ==> db'.jobs.jobs[j].payload == db.jobs.jobs[j].payload)
  }

  /** A transaction's facts survive a commit that respects its locks. */
  lemma FrameKeepsTxn(cfg: Config, db: State, db': State, y: Txn,
                      guests: set<nat>, listings: set<nat>, bookings: set<nat>, completed: Option<nat>)
    requires Linked(db) && Linked(db') && TxnOk(cfg, db, y)
    requires Framed(db, db', guests, listings, bookings, completed)
    requires GuestsOf(y) !! guests && ListingsOf(db, y) !! listings && BookingsOf(y) !! bookings
    ensures TxnOk(cfg, db', NoteCompletion(y, completed))
    ensures ListingsOf(db', NoteCompletion(y, completed)) == ListingsOf(db, y)
    ensures GuestsOf(NoteCompletion(y, completed)) == GuestsOf(y) && BookingsOf(NoteCompletion(y, completed)) == BookingsOf(y)
  {
    match y
    case CreateTx(guest, l, now, c) =>
      assert guest in GuestsOf(y);
      assert c.Reserved? ==> l in ListingsOf(db, y);
    case CancelTx(b, _, _, c) =>
      assert b in BookingsOf(y);
      assert c.Restored? ==> db.bookings[b].listing in ListingsOf(db, y);
    case ConfirmTx(b, _, _) =>
    case UpdateTx(_, _, _, _, _, _) =>
    case CancelListingTx(_, _, _) => FrameKeepsSweep(cfg, db, db', y, guests, listings, bookings, completed);
    case PromoteTx(_, _, b, _, _, _, _) =>
      assert b in BookingsOf(y);
  }

  lemma FrameKeepsSweep(cfg: Config, db: State, db': State, y: Txn,
                        guests: set<nat>, listings: set<nat>, bookings: set<nat>, completed: Option<nat>)
    requires Linked(db) && Linked(db') && TxnOk(cfg, db, y) && y.CancelListingTx?
    requires Framed(db, db', guests, listings, bookings, completed)
    requires ListingsOf(db, y) !! listings && BookingsOf(y) !! bookings
    ensures TxnOk(cfg, db', y)
  {
    assert y.listing in ListingsOf(db, y);
    if y.swept.Some? {
      assert forall b :: b in y.swept.value ==> b in BookingsOf(y);
      AffectedFrame(db.bookings, db'.bookings, y.listing);
    }
  }

  /** Rows of other listings, and rows that hold no seat, do not enter the sweep. */
  lemma {:induction false} AffectedFrame(bookings: seq<Booking>, bookings': seq<Booking>, l: nat)
    requires |bookings| <= |bookings'|
    requires forall b :: 0 <= b < |bookings| ==> SeatsOn(l)(bookings'[b]) == SeatsOn(l)(bookings[b])
    requires forall b :: |bookings| <= b < |bookings'| ==> !SeatsOn(l)(bookings'[b])
    ensures Affected(bookings', l) == Affected(bookings, l)
    decreases |bookings'|
  {
    if bookings' == [] {
    } else if |bookings| < |bookings'| {
      AffectedFrame(bookings, bookings'[..|bookings'| - 1], l);
    } else {
      AffectedFrame(bookings[..|bookings| - 1], bookings'[..|bookings'| - 1], l);
    }
  }

  ghost predicate CommitFramed(db: State, tx: Txn, nodeNow: int)
    requires Linked(db)
  {
    Framed(db, Effect(db, tx, nodeNow), GuestsOf(tx), ListingsOf(db, tx), BookingsOf(tx), CompletedOn(db, tx))
  }

  lemma CommitIsFramed(cfg: Config, db: State, tx: Txn, nodeNow: int)
    requires Linked(db) && TxnOk(cfg, db, tx) && Ready(tx)
    ensures CommitFramed(db, tx, nodeNow)
  {
    match tx
    case CreateTx(_, _, _, _) => CreateFramed(cfg, db, tx, nodeNow);
    case CancelTx(_, _, _, _) => CancelFramed(cfg, db, tx, nodeNow);
    case ConfirmTx(_, _, _) => ConfirmFramed(cfg, db, tx, nodeNow);
    case UpdateTx(_, _, _, _, _, _) => UpdateFramed(cfg, db, tx, nodeNow);
    case CancelListingTx(_, _, _) => SweepFramed(cfg, db, tx, nodeNow);
    case PromoteTx(_, _, _, _, _, _, _) => PromoteFramed(cfg, db, tx, nodeNow);
  }

  lemma CreateFramed(cfg: Config, db: State, tx: Txn, nodeNow: int)
    requires Linked(db) && TxnOk(cfg, db, tx) && Ready(tx) && tx.CreateTx?
    ensures CommitFramed(db, tx, nodeNow)
  {
    var bk := Booking(tx.listing, tx.guest, Pending, false, false);
    Outbox.EnqueueAllAppends(db.jobs, Notices(|db.bookings|, Created, [tx.guest, tx.create.row.host], tx.now)
                                      + [Promotion(|db.bookings|, tx.create.row.start)]);
    NewBookingCounts(db, bk);
    assert Effect(db, tx, nodeNow).bookings == db.bookings + [bk];
  }

  /** A new booking, as seen from the other listings and from the other guests. */
  lemma NewBookingCounts(db: State, bk: Booking)
    ensures forall l: nat :: l != bk.listing ==> Count(db.bookings + [bk], SeatsOn(l)) == Count(db.bookings, SeatsOn(l))
    ensures forall g: nat :: g != bk.guest ==> Count(db.bookings + [bk], PendingOf(g)) == Count(db.bookings, PendingOf(g))
  {
    forall l: nat | l != bk.listing
      ensures Count(db.bookings + [bk], SeatsOn(l)) == Count(db.bookings, SeatsOn(l))
    {
    }
    forall g: nat | g != bk.guest
      ensures Count(db.bookings + [bk], PendingOf(g)) == Count(db.bookings, PendingOf(g))
    {
    }
  }

  /** Moving one booking forward, as seen from the other listings and from every guest. */
  lemma OneBookingCounts(db: State, b: nat, bk: Booking)
    requires b < |db.bookings| && bk.listing == db.bookings[b].listing && bk.guest == db.bookings[b].guest
    requires bk.status == Pending ==> db.bookings[b].status == Pending
    requires HoldsSeat(bk) ==> HoldsSeat(db.bookings[b])
    ensures forall l: nat :: l != bk.listing || HoldsSeat(bk) == HoldsSeat(db.bookings[b]) ==>
              Count(db.bookings[b := bk], SeatsOn(l)) == Count(db.bookings, SeatsOn(l))
    ensures HoldsSeat(db.bookings[b]) && !HoldsSeat(bk) ==>
              Count(db.bookings[b := bk], SeatsOn(bk.listing)) + 1 == Count(db.bookings, SeatsOn(bk.listing))
    ensures forall g: nat :: Count(db.bookings[b := bk], PendingOf(g)) <= Count(db.bookings, PendingOf(g))
  {
    forall l: nat
      ensures Count(db.bookings[b := bk], SeatsOn(l)) + (if SeatsOn(l)(db.bookings[b]) then 1 else 0)
           == Count(db.bookings, SeatsOn(l)) + (if SeatsOn(l)(bk) then 1 else 0)
    {
      CountUpdate(db.bookings, b, bk, SeatsOn(l));
    }
    forall g: nat
      ensures Count(db.bookings[b := bk], PendingOf(g)) <= Count(db.bookings, PendingOf(g))
    {
      CountUpdate(db.bookings, b, bk, PendingOf(g));
    }
  }

  lemma CancelFramed(cfg: Config, db: State, tx: Txn, nodeNow: int)
    requires Linked(db) && TxnOk(cfg, db, tx) && Ready(tx) && tx.CancelTx?
    ensures CommitFramed(db, tx, nodeNow)
  {
    var e := if tx.byGuest then CancelledByGuest else CancelledByHost;
    var bk, row := db.bookings[tx.booking].(status := Cancelled), tx.cancel.row;
    var ps := Notices(tx.booking, e, [bk.guest, row.host], tx.now);
    var db' := Effect(db, tx, nodeNow);
    Outbox.EnqueueAllAppends(db.jobs, ps);
    assert db'.bookings == db.bookings[tx.booking := bk] && db'.listings == db.listings[bk.listing := row];
    assert db'.jobs == Outbox.EnqueueAll(db.jobs, ps);
    OneBookingFramed(db, db', tx.booking, bk, {bk.listing}, None);
  }

  /** A commit that moves one booking forward, and at most changes its listing in passing. */
  lemma OneBookingFramed(db: State, db': State, b: nat, bk: Booking, listings: set<nat>, completed: Option<nat>)
    requires b < |db.bookings| && bk.listing == db.bookings[b].listing && bk.guest == db.bookings[b].guest
    requires bk.status == Pending ==> db.bookings[b].status == Pending
    requires HoldsSeat(bk) ==> HoldsSeat(db.bookings[b])
    requires bk.listing in listings || (HoldsSeat(db.bookings[b]) && !HoldsSeat(bk) <==> completed == Some(bk.listing))
    requires completed.Some? ==> completed == Some(bk.listing)
    requires db'.bookings == db.bookings[b := bk] && |db'.listings| == |db.listings|
    requires forall l :: 0 <= l < |db.listings| ==>
               && db'.listings[l].host == db.listings[l].host && db'.listings[l].active == db.listings[l].active
               && (l !in listings ==> db'.listings[l] == db.listings[l])
    requires db.jobs.jobs <= db'.jobs.jobs
    ensures Framed(db, db', {}, listings, {b}, completed)
  {
    OneBookingCounts(db, b, bk);
  }

  lemma ConfirmFramed(cfg: Config, db: State, tx: Txn, nodeNow: int)
    requires Linked(db) && TxnOk(cfg, db, tx) && tx.ConfirmTx?
    ensures CommitFramed(db, tx, nodeNow)
  {
    if CanConfirm(db, tx.booking, tx.byGuest) {
      var bk := Confirmed(db.bookings[tx.booking], tx.byGuest);
      var db' := Effect(db, tx, nodeNow);
      Outbox.EnqueueAllAppends(db.jobs, Notices(tx.booking, Finished, Participants(db, tx.booking), tx.now));
      assert db'.bookings == db.bookings[tx.booking := bk] && db'.listings == db.listings;
      OneBookingFramed(db, db', tx.booking, bk, {}, CompletedOn(db, tx));
    }
  }

  lemma UpdateFramed(cfg: Config, db: State, tx: Txn, nodeNow: int)
    requires Linked(db) && TxnOk(cfg, db, tx) && Ready(tx) && tx.UpdateTx?
    ensures CommitFramed(db, tx, nodeNow)
  {
    var row := Patched(db.listings[tx.listing], tx.patch, Or(tx.counted, 0));
    Outbox.EnqueueAllAppends(db.jobs, UpdatePostings(tx.listing, row, tx.patch, tx.fanout.value, tx.now));
  }

  lemma SweepFramed(cfg: Config, db: State, tx: Txn, nodeNow: int)
    requires Linked(db) && TxnOk(cfg, db, tx) && Ready(tx) && tx.CancelListingTx?
    ensures CommitFramed(db, tx, nodeNow)
  {
    var db', l, ids := Effect(db, tx, nodeNow), tx.listing, tx.swept.value;
    Outbox.EnqueueAllAppends(db.jobs, Farewells(db.bookings, ids, tx.now));
    assert forall b :: 0 <= b < |db.bookings| ==> (b in ids <==> SeatsOn(l)(db.bookings[b]));
    assert db'.listings == db.listings[l := db.listings[l].(active := false)];
    SweptFramed(db, db', l, BookingsOf(tx));
  }

  /** A commit that closes one listing and cancels the bookings that hold its seats. */
  lemma SweptFramed(db: State, db': State, l: nat, bookings: set<nat>)
    requires l < |db.listings| && db'.listings == db.listings[l := db.listings[l].(active := false)]
    requires |db'.bookings| == |db.bookings| && db.jobs.jobs <= db'.jobs.jobs
    requires forall b :: 0 <= b < |db.bookings| ==>
               db'.bookings[b] == if SeatsOn(l)(db.bookings[b]) then db.bookings[b].(status := Cancelled) else db.bookings[b]
    requires forall b :: 0 <= b < |db.bookings| && SeatsOn(l)(db.bookings[b]) ==> b in bookings
    ensures Framed(db, db', {}, {l}, bookings, None)
  {
    SweptCounts(db.bookings, db'.bookings, l);
  }

  /** A sweep of one listing's bookings, as seen from the other listings and from every guest. */
  lemma SweptCounts(bookings: seq<Booking>, bookings': seq<Booking>, swept: nat)
    requires |bookings'| == |bookings|
    requires forall b :: 0 <= b < |bookings| ==>
               bookings'[b] == if SeatsOn(swept)(bookings[b]) then bookings[b].(status := Cancelled) else bookings[b]
    ensures forall l: nat :: l != swept ==> Count(bookings', SeatsOn(l)) == Count(bookings, SeatsOn(l))
    ensures forall g: nat :: Count(bookings', PendingOf(g)) <= Count(bookings, PendingOf(g))
  {
    forall l: nat | l != swept
      ensures Count(bookings', SeatsOn(l)) == Count(bookings, SeatsOn(l))
    {
      CountSame(bookings', bookings, SeatsOn(l), SeatsOn(l));
    }
    forall g: nat
      ensures Count(bookings', PendingOf(g)) <= Count(bookings, PendingOf(g))
    {
      CountMonotone(bookings', bookings, PendingOf(g), PendingOf(g));
    }
  }

  lemma PromoteFramed(cfg: Config, db: State, tx: Txn, nodeNow: int)
    requires Linked(db) && TxnOk(cfg, db, tx) && tx.PromoteTx?
    ensures CommitFramed(db, tx, nodeNow)
  {
    var h := PromoteRead(db, tx.booking, tx.job, tx.now, tx.status, tx.start, tx.active, nodeNow);
    HandlerFramed(cfg, db, tx, nodeNow);
    var db' := Effect(db, tx, nodeNow);
    assert db' == h.state.(jobs := db'.jobs) && db'.jobs.jobs == h.state.jobs.jobs;
  }

  lemma HandlerFramed(cfg: Config, db: State, tx: Txn, nodeNow: int)
    requires Linked(db) && TxnOk(cfg, db, tx) && tx.PromoteTx?
    ensures Framed(db, PromoteRead(db, tx.booking, tx.job, tx.now, tx.status, tx.start, tx.active, nodeNow).state,
                   {}, {}, {tx.booking}, None)
  {
    var h := PromoteRead(db, tx.booking, tx.job, tx.now, tx.status, tx.start, tx.active, nodeNow);
    if h.outcome == Promoted {
      StartFramed(db, tx.booking, tx.now);
    } else {
      SecureAppends(db.jobs, tx.booking, tx.start, Some(tx.job));
      JobsFramed(db, h.state.jobs, tx.booking);
    }
  }

  lemma SecureAppends(jobs: Jobs, b: nat, at: int, delivering: Option<nat>)
    ensures jobs.jobs <= SecureSchedule(jobs, b, at, delivering).jobs.jobs
  {
  }

  lemma JobsFramed(db: State, jobs: Jobs, b: nat)
    requires db.jobs.jobs <= jobs.jobs
    ensures Framed(db, db.(jobs := jobs), {}, {}, {b}, None)
  {
  }

  lemma StartFramed(db: State, b: nat, now: int)
    requires Linked(db) && b < |db.bookings| && db.bookings[b].status == Pending
    ensures Framed(db, Start(db, b, now), {}, {}, {b}, None)
  {
    Outbox.EnqueueAllAppends(db.jobs, Notices(b, Started, Participants(db, b), now));
    OneBookingFramed(db, Start(db, b, now), b, db.bookings[b].(status := InProgress), {}, None);
  }

  // ---- every interleaving refines the transaction-level protocol -------------------------------

  /**
   * What a move does to the database: a commit takes the action of its transaction, unless it is a confirm out of turn,
   * and closes it; an action that is a single statement is taken; any other move does nothing that others can see.
   */
  ghost predicate Takes(cfg: Config, w: World, m: Move, w': World)
    requires Linked(w.db) && CanMove(cfg, w, m)
  {
    match m
    case Commit(x, nodeNow) =>
      && w'.txns.Keys == w.txns.Keys - {x}
      && var tx := w.txns[x];
         if tx.ConfirmTx? && !CanConfirm(w.db, tx.booking, tx.byGuest) then w'.db == w.db
         else var a := ActionOf(w.db, tx, nodeNow); Enabled(cfg, w.db, a) && w'.db == Apply(cfg, w.db, a)
    case Direct(a) => w'.db == Apply(cfg, w.db, a) && w'.txns == w.txns
    case _ => w'.db == w.db
  }

  lemma CommitTakes(cfg: Config, w: World, x: nat, nodeNow: int)
    requires cfg.policy.Valid() && WorldOk(cfg, w) && CanMove(cfg, w, Commit(x, nodeNow))
    ensures var w' := Go(cfg, w, Commit(x, nodeNow));
      w'.db == Effect(w.db, w.txns[x], nodeNow) && Inv(cfg, w'.db) && Takes(cfg, w, Commit(x, nodeNow), w')
  {
    var tx := w.txns[x];
    CommitIsAction(cfg, w.db, tx, nodeNow);
    if !(tx.ConfirmTx? && !CanConfirm(w.db, tx.booking, tx.byGuest)) {
      StepKeeps(cfg, w.db, ActionOf(w.db, tx, nodeNow));
    }
  }

  lemma CommitKeeps(cfg: Config, w: World, x: nat, nodeNow: int)
    requires cfg.policy.Valid() && WorldOk(cfg, w) && CanMove(cfg, w, Commit(x, nodeNow))
    ensures WorldOk(cfg, Go(cfg, w, Commit(x, nodeNow)))
  {
    var tx := w.txns[x];
    var w' := Go(cfg, w, Commit(x, nodeNow));
    CommitTakes(cfg, w, x, nodeNow);
    CommitIsFramed(cfg, w.db, tx, nodeNow);
    forall y | y in w'.txns
      ensures y in w.txns && y != x && TxnOk(cfg, w'.db, w'.txns[y])
      ensures GuestsOf(w'.txns[y]) == GuestsOf(w.txns[y]) && BookingsOf(w'.txns[y]) == BookingsOf(w.txns[y])
      ensures ListingsOf(w'.db, w'.txns[y]) == ListingsOf(w.db, w.txns[y])
    {
      FrameKeepsTxn(cfg, w.db, w'.db, w.txns[y], GuestsOf(tx), ListingsOf(w.db, tx), BookingsOf(tx), CompletedOn(w.db, tx));
    }
  }

  function Touched(a: Action): set<nat>
  {
    if a.Moderate? then {a.listing} else {}
  }

  lemma DirectFramed(cfg: Config, db: State, a: Action)
    requires Linked(db) && Outbox.ClaimsOk(db.jobs) && Enabled(cfg, db, a) && (a.CreateListing? || a.Work? || a.Moderate?)
    ensures Framed(db, Apply(cfg, db, a), {}, Touched(a), {}, None)
  {
    if a.Work? {
      SamePurpose(cfg, db.jobs, a.step);
    } else if a.CreateListing? {
      var l := |db.listings|;
      var ps: seq<Posting> := [Outbox.Posting(Geocode(l), None, a.now), Outbox.Posting(Scan(l), None, a.now)];
      Outbox.EnqueueAllAppends(db.jobs, ps);
    }
  }

  lemma DirectKeeps(cfg: Config, w: World, a: Action)
    requires cfg.policy.Valid() && WorldOk(cfg, w) && CanMove(cfg, w, Direct(a))
    ensures WorldOk(cfg, Go(cfg, w, Direct(a))) && Takes(cfg, w, Direct(a), Go(cfg, w, Direct(a)))
  {
    var w' := Go(cfg, w, Direct(a));
    StepKeeps(cfg, w.db, a);
    DirectFramed(cfg, w.db, a);
    AllTxnsKept(cfg, w, w'.db, Touched(a));
  }

  lemma AllTxnsKept(cfg: Config, w: World, db': State, touched: set<nat>)
    requires Linked(w.db) && Linked(db') && Framed(w.db, db', {}, touched, {}, None)
    requires forall y :: y in w.txns ==> TxnOk(cfg, w.db, w.txns[y]) && ListingsOf(w.db, w.txns[y]) !! touched
    ensures forall y :: y in w.txns ==> TxnOk(cfg, db', w.txns[y]) && ListingsOf(db', w.txns[y]) == ListingsOf(w.db, w.txns[y])
  {
    forall y | y in w.txns
      ensures TxnOk(cfg, db', w.txns[y]) && ListingsOf(db', w.txns[y]) == ListingsOf(w.db, w.txns[y])
    {
      FrameKeepsTxn(cfg, w.db, db', w.txns[y], {}, touched, {}, None);
    }
  }

  lemma OpenKeeps(cfg: Config, w: World, x: nat, tx: Txn)
    requires TxnsOk(cfg, w) && TxnOk(cfg, w.db, tx)
    requires Free(w, GuestsOf(tx), ListingsOf(w.db, tx), BookingsOf(tx), x)
    ensures TxnsOk(cfg, Open(w, x, tx))
  {
  }

  /** The statements that open a transaction. */
  lemma BeginKeeps(cfg: Config, w: World, m: Move)
    requires TxnsOk(cfg, w) && CanMove(cfg, w, m)
    requires m.BeginCreate? || m.BeginCancel? || m.BeginConfirm? || m.BeginUpdate? || m.BeginCancelListing? || m.BeginPromote?
    ensures TxnsOk(cfg, Go(cfg, w, m)) && Go(cfg, w, m).db == w.db
  {
    var w' := Go(cfg, w, m);
    if w' != w {
      OpenKeeps(cfg, w, m.x, w'.txns[m.x]);
    }
  }

  /** A later statement of an open transaction: it may ask for more locks, and roll back. */
  lemma AdvanceKeeps(cfg: Config, w: World, x: nat, tx: Txn, listings: set<nat>, bookings: set<nat>)
    requires TxnsOk(cfg, w) && x in w.txns && Free(w, {}, listings, bookings, x) && TxnOk(cfg, w.db, tx)
    requires GuestsOf(tx) <= GuestsOf(w.txns[x])
    requires ListingsOf(w.db, tx) <= ListingsOf(w.db, w.txns[x]) + listings
    requires BookingsOf(tx) <= BookingsOf(w.txns[x]) + bookings
    ensures TxnsOk(cfg, Open(w, x, tx))
  {
    OpenKeeps(cfg, w, x, tx);
  }

  lemma CreateStatementKeeps(cfg: Config, w: World, m: Move)
    requires TxnsOk(cfg, w) && CanMove(cfg, w, m) && (m.CountPending? || m.CheckListing? || m.Reserve?)
    ensures TxnsOk(cfg, Go(cfg, w, m)) && Go(cfg, w, m).db == w.db
  {
    var w' := Go(cfg, w, m);
    assert TxnOk(cfg, w.db, w.txns[m.x]);
    if m.x in w'.txns {
      AdvanceKeeps(cfg, w, m.x, w'.txns[m.x], if m.Reserve? then {w.txns[m.x].listing} else {}, {});
    }
  }

  lemma CancelStatementKeeps(cfg: Config, w: World, m: Move)
    requires TxnsOk(cfg, w) && CanMove(cfg, w, m) && (m.Mark? || m.Restore?)
    ensures TxnsOk(cfg, Go(cfg, w, m)) && Go(cfg, w, m).db == w.db
  {
    var w' := Go(cfg, w, m);
    var tx := w.txns[m.x];
    assert TxnOk(cfg, w.db, tx);
    if m.x in w'.txns {
      AdvanceKeeps(cfg, w, m.x, w'.txns[m.x], if m.Restore? then {w.db.bookings[tx.booking].listing} else {}, {});
    }
  }

  lemma UpdateStatementKeeps(cfg: Config, w: World, m: Move)
    requires TxnsOk(cfg, w) && CanMove(cfg, w, m) && (m.CountSeats? || m.Plan?)
    ensures TxnsOk(cfg, Go(cfg, w, m)) && Go(cfg, w, m).db == w.db
  {
    var w' := Go(cfg, w, m);
    assert TxnOk(cfg, w.db, w.txns[m.x]);
    if m.x in w'.txns {
      AdvanceKeeps(cfg, w, m.x, w'.txns[m.x], {}, {});
    }
  }

  lemma SweepStatementKeeps(cfg: Config, w: World, m: Move)
    requires TxnsOk(cfg, w) && CanMove(cfg, w, m) && m.Sweep?
    ensures TxnsOk(cfg, Go(cfg, w, m)) && Go(cfg, w, m).db == w.db
  {
    var tx := w.txns[m.x];
    assert TxnOk(cfg, w.db, tx);
    AdvanceKeeps(cfg, w, m.x, Go(cfg, w, m).txns[m.x], {}, set b | b in Affected(w.db.bookings, tx.listing));
  }

  predicate Begins(m: Move)
  {
    m.BeginCreate? || m.BeginCancel? || m.BeginConfirm? || m.BeginUpdate? || m.BeginCancelListing? || m.BeginPromote?
  }

  /** No statement between a transaction's first and its commit is visible to others. */
  lemma StatementKeeps(cfg: Config, w: World, m: Move)
    requires TxnsOk(cfg, w) && CanMove(cfg, w, m) && !Begins(m) && !m.Commit? && !m.Direct? && !m.Rollback?
    ensures TxnsOk(cfg, Go(cfg, w, m)) && Go(cfg, w, m).db == w.db
  {
    if m.CountPending? || m.CheckListing? || m.Reserve? {
      CreateStatementKeeps(cfg, w, m);
    } else if m.Mark? || m.Restore? {
      CancelStatementKeeps(cfg, w, m);
    } else if m.CountSeats? || m.Plan? {
      UpdateStatementKeeps(cfg, w, m);
    } else {
      SweepStatementKeeps(cfg, w, m);
    }
  }

  /** Every move keeps the locks' promises, and moves the database by exactly the action it stands for. */
  lemma MoveKeeps(cfg: Config, w: World, m: Move)
    requires cfg.policy.Valid() && WorldOk(cfg, w) && CanMove(cfg, w, m)
    ensures WorldOk(cfg, Go(cfg, w, m)) && Takes(cfg, w, m, Go(cfg, w, m))
  {
    if m.Commit? {
      CommitTakes(cfg, w, m.x, m.nodeNow);
      CommitKeeps(cfg, w, m.x, m.nodeNow);
    } else if m.Direct? {
      DirectKeeps(cfg, w, m.action);
    } else if m.Rollback? {
    } else if Begins(m) {
      BeginKeeps(cfg, w, m);
    } else {
      StatementKeeps(cfg, w, m);
    }
  }

  /** Linked only makes Go well defined here: WorldOk, which every move keeps, includes it. */
  ghost predicate LegalMoves(cfg: Config, w: World, moves: seq<Move>)
    decreases |moves|
  {
    moves == [] || (Linked(w.db) && CanMove(cfg, w, moves[0]) && LegalMoves(cfg, Go(cfg, w, moves[0]), moves[1..]))
  }

  ghost function Play(cfg: Config, w: World, moves: seq<Move>): World
    requires LegalMoves(cfg, w, moves)
    decreases |moves|
  {
    if moves == [] then w else Play(cfg, Go(cfg, w, moves[0]), moves[1..])
  }

  /**
   * Every interleaving of the statements leaves the database in a state of the transaction-level protocol,
   * so each of its guarantees holds at every commit of every interleaving.
   */
  lemma {:induction false} InterleavingsAreRuns(cfg: Config, w: World, moves: seq<Move>)
    requires cfg.policy.Valid() && WorldOk(cfg, w) && Reachable(cfg, w.db) && LegalMoves(cfg, w, moves)
    ensures WorldOk(cfg, Play(cfg, w, moves)) && Reachable(cfg, Play(cfg, w, moves).db)
    decreases |moves|
  {
    if moves != [] {
      MoveKeeps(cfg, w, moves[0]);
      var w' := Go(cfg, w, moves[0]);
      if w'.db != w.db {
        ReachableNext(cfg, w.db, if moves[0].Direct? then moves[0].action else ActionOf(w.db, w.txns[moves[0].x], moves[0].nodeNow));
      }
      InterleavingsAreRuns(cfg, w', moves[1..]);
    }
  }

  /** The headline guarantees, at every commit of every interleaving from an empty database. */
  lemma InterleavedGuarantees(cfg: Config, moves: seq<Move>, l: nat, guest: nat, b: nat)
    requires cfg.policy.Valid() && LegalMoves(cfg, World(Empty(), map[]), moves)
    ensures var s := Play(cfg, World(Empty(), map[]), moves).db;
      && Count(s.bookings, PendingOf(guest)) <= cfg.maxPending
      && |s.spent| == |s.listings|
      && (l < |s.listings| ==> 0 <= s.listings[l].remaining <= s.listings[l].capacity)
      && (l < |s.listings| && s.listings[l].active ==>
            s.listings[l].remaining + Count(s.bookings, SeatsOn(l)) + s.spent[l] == s.listings[l].capacity)
      && (Awaits(s, b) ==> HasSchedule(s.jobs, b))
  {
    var w := World(Empty(), map[]);
    var none: seq<Action> := [];
    assert LegalRun(cfg, Empty(), none) && RunAll(cfg, Empty(), none) == Empty();
    InterleavingsAreRuns(cfg, w, moves);
    var s := Play(cfg, w, moves).db;
    GuestCap(cfg, s, guest);
    if l < |s.listings| {
      SeatEquation(cfg, s, l);
    }
    ReachableOk(cfg, s);
  }
}
