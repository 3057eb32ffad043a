/**
 * The polling worker: claim, handle, record, commit, and poll again while something was claimed. A poll is
 * proved to be a run of the machine of module Bookings, and to be the poll that module Stopping is about.
 */
module WorkerProcess {
  import opened Tables
  import opened Bookings
  import opened BookingInvariants
  import opened BookingTheorems
  import opened Timely
  import opened Draining
  import opened Polling
  import opened Skew
  import opened Batches
  import opened Backend
  import Outbox

  class Worker {
    const db: Database
    const id: nat

    constructor (db: Database, id: nat)
      ensures this.db == db && this.id == id
    {
      this.db := db;
      this.id := id;
    }

    /** The claim query: the oldest due rows that nobody has locked, at most limit of them. */
    static method ClaimBatch(jobs: Jobs, now: int, limit: nat) returns (ids: seq<nat>)
      ensures IsOldestBatch(jobs, ids, limit, now)
    {
      ids := [];
      while |ids| < limit
        invariant |ids| <= limit
        invariant forall i :: 0 <= i < |ids| ==> Claimable(jobs, ids[i], now)
        invariant forall i, k :: 0 <= i < k < |ids| ==> Older(jobs, ids[i], ids[k])
        invariant forall j: nat, i :: Claimable(jobs, j, now) && j !in ids && 0 <= i < |ids| ==> Older(jobs, ids[i], j)
        decreases limit - |ids|
      {
        var next := OldestDue(jobs, now, ids);
        if next.None? {
          break;
        }
        ids := ids + [next.value];
      }
    }

    static method OldestDue(jobs: Jobs, now: int, taken: seq<nat>) returns (best: Option<nat>)
      ensures best.Some? ==> Claimable(jobs, best.value, now) && best.value !in taken
      ensures best.Some? ==> forall j: nat :: Claimable(jobs, j, now) && j !in taken && j != best.value ==> Older(jobs, best.value, j)
      ensures best.None? ==> forall j: nat :: Claimable(jobs, j, now) ==> j in taken
    {
      best := None;
      for i := 0 to |jobs.jobs|
        invariant best.Some? ==> best.value < i && Claimable(jobs, best.value, now) && best.value !in taken
        invariant best.Some? ==>
                    forall j: nat :: j < i && Claimable(jobs, j, now) && j !in taken && j != best.value ==> Older(jobs, best.value, j)
        invariant best.None? ==> forall j: nat :: j < i && Claimable(jobs, j, now) ==> j in taken
      {
        if Claimable(jobs, i, now) && i !in taken && (best.None? || Older(jobs, i, best.value)) {
          best := Some(i);
        }
      }
    }

    /**
     * Run the handler of one claimed row and note how it ended. fault says which handlers fail for reasons outside
     * these tables; what the other rows' handlers do is outside them too.
     */
    method ProcessClaimedJob(j: nat, fault: Faults, nodeNow: int, now: int) returns (outcome: JobOutcome, ghost action: Action)
      requires Outbox.Running(db.jobs, id, j) && j < |db.jobs.jobs|
      modifies db
      ensures Handles(action, id, j, nodeNow, now) && PollMove(db.cfg, old(db.View()), action, nodeNow, now)
      ensures db.View() == Apply(db.cfg, old(db.View()), action) && Obeys(old(db.View()), action, fault)
      ensures var job := old(db.jobs).jobs[j];
        if fault(j, job.payload) then
          outcome != DoneJob && db.View() == old(db.View()).(jobs := Outbox.Settle(old(db.jobs), id, j, Outbox.Failed))
        else if job.payload.Promote? then
          && action == RunPromote(id, j, StartIfAny(old(db.View()), job.payload.booking), nodeNow, now)
          && (outcome == DoneJob <==> !FailsPromotion(old(db.View()), action))
        else
          outcome == DoneJob && db.View() == old(db.View()).(jobs := Outbox.Settle(old(db.jobs), id, j, Outbox.Succeeded))
      ensures outcome == DeadLettered ==> old(db.jobs).jobs[j].attempts + 1 >= db.cfg.policy.maxAttempts
      ensures outcome == Retried ==> old(db.jobs).jobs[j].attempts + 1 < db.cfg.policy.maxAttempts
      ensures old(Outbox.ClaimsOk(db.jobs)) ==> Reports(db.cfg, old(db.View()), action, id, j, fault, nodeNow, now, outcome)
    {
      var job := db.jobs.jobs[j];
      var thrown := fault(j, job.payload);
      if thrown {
        action := Work(Outbox.Finish(id, j, Outbox.Failed));
      } else if job.payload.Promote? {
        var b := job.payload.booking;
        ghost var start := StartIfAny(db.View(), b);
        action := RunPromote(id, j, start, nodeNow, now);
        var result := db.PromoteDueBooking(b, Some(j), nodeNow, now);
        thrown := result == Unsecured;
      } else {
        action := Work(Outbox.Finish(id, j, Outbox.Succeeded));
      }
      db.jobs := Outbox.Settle(db.jobs, id, j, if thrown then Outbox.Failed else Outbox.Succeeded);
      outcome := if !thrown then DoneJob else if job.attempts + 1 >= db.cfg.policy.maxAttempts then DeadLettered else Retried;
    }

    /**
     * One poll: claim a batch, run its handlers, record their outcomes, commit. The promotions counted as failed
     * are those that no longer wait for their own instant; on one clock there are none, unless a promote handler
     * meets an outside fault.
     */
    method PollOnce(batchSize: nat, fault: Faults, nodeNow: int, now: int) returns (stats: Stats, ghost ids: seq<nat>)
      requires db.cfg.policy.Valid() && Inv(db.cfg, db.View()) && id !in db.jobs.claims && batchSize >= 1
      modifies db
      ensures Polls(db.cfg, old(db.View()), db.View(), id, batchSize, stats.claimed, fault, nodeNow, now, stats.promotionsFailed == 0)
      ensures IsOldestBatch(old(db.jobs), ids, batchSize, now) && stats.claimed == |ids|
      ensures forall o :: Tallied(stats, o) == Count(ids, HasStatus(db.jobs, StatusFor(o)))
      ensures stats.claimed == stats.delivered + stats.retried + stats.deadLettered <= batchSize
      ensures stats.promotionsFailed <= stats.retried + stats.deadLettered
      ensures Unfailed(old(db.jobs)) ==> (stats.promotionsFailed == 0 <==> Unfailed(db.jobs))
      ensures nodeNow == now && OnTime(old(db.View()), now) && SparesPromotions(fault) ==> stats.promotionsFailed == 0
      ensures Faultless(fault) && stats.promotionsFailed == 0 ==> stats.delivered == stats.claimed
    {
      var batch := ClaimBatch(db.jobs, now, batchSize);
      ids := batch;
      ghost var s0 := db.View();
      TakeBatch(db.cfg, s0, id, ids, fault, nodeNow, now);
      db.jobs := Outbox.ClaimRows(db.jobs, id, now, set j | j in batch);
      ghost var clean;
      stats, clean := RunBatch(batch, fault, nodeNow, now, s0);
      ghost var s := db.View();
      CommitBatch(db.cfg, s0, s, id, batchSize, ids, fault, nodeNow, now, clean);
      CommitTallies(db.cfg, s0, s, id, ids, fault, nodeNow, now, clean, stats);
      FailureIsExact(db.cfg, s0, s, id, ids, fault, nodeNow, now, clean);
      db.jobs := Outbox.CommitClaim(db.cfg.policy, db.jobs, id);
    }

    /** The handlers of one claimed batch, in claim order; clean as long as no promote handler has failed. */
    method RunBatch(ids: seq<nat>, fault: Faults, nodeNow: int, now: int, ghost s0: State) returns (stats: Stats, ghost clean: bool)
      requires db.cfg.policy.Valid() && Inv(db.cfg, s0) && Midway(db.cfg, s0, db.View(), id, ids, 0, fault, nodeNow, now, true)
      modifies db
      ensures Keeps(db.cfg, s0, db.View(), id, ids, |ids|, fault, nodeNow, now, clean, stats)
    {
      stats, clean := Stats(|ids|, 0, 0, 0, 0), true;
      for i := 0 to |ids|
        invariant Keeps(db.cfg, s0, db.View(), id, ids, i, fault, nodeNow, now, clean, stats)
      {
        stats, clean := RunNext(ids, i, fault, nodeNow, now, s0, clean, stats);
      }
    }

    method RunNext(ids: seq<nat>, i: nat, fault: Faults, nodeNow: int, now: int, ghost s0: State, ghost clean: bool, stats: Stats)
      returns (stats': Stats, ghost still: bool)
      requires db.cfg.policy.Valid() && Inv(db.cfg, s0) && i < |ids|
      requires Keeps(db.cfg, s0, db.View(), id, ids, i, fault, nodeNow, now, clean, stats)
      modifies db
      ensures Keeps(db.cfg, s0, db.View(), id, ids, i + 1, fault, nodeNow, now, still, stats')
    {
      ghost var s := db.View();
      MidwayHolds(db.cfg, s0, s, id, ids, i, fault, nodeNow, now, clean);
      var promotion := db.jobs.jobs[ids[i]].payload.Promote?;
      var outcome;
      ghost var action;
      outcome, action := ProcessClaimedJob(ids[i], fault, nodeNow, now);
      KeepsNext(db.cfg, s0, s, action, id, ids, i, fault, nodeNow, now, clean, stats, outcome);
      still := clean && !FailsPromotion(s, action);
      stats' := Tally(stats, outcome, promotion);
    }

    /**
     * The worker's loop at one instant of each clock: poll again at once while something was claimed. Unless a
     * booking straddles the clocks, it stops with nothing due. On one clock every booking whose listing has started
     * has then been promoted, unless a promote handler met an outside fault, now or before; what other handlers
     * meet does not matter. While a booking straddles the loop does not stop: Stopping.DrainStopsIff.
     */
    method Drain(batchSize: nat, fault: Faults, nodeNow: int, now: int) returns (promotionsFailed: nat)
      requires db.cfg.policy.Valid() && Inv(db.cfg, db.View()) && db.jobs.claims == map[] && batchSize >= 1
      requires !Straddles(db.View(), nodeNow, now)
      modifies db
      ensures Inv(db.cfg, db.View()) && Leads(db.cfg, old(db.View()), db.View()) && db.jobs.claims == map[]
      ensures Drained(db.jobs, now)
      ensures nodeNow == now && OnTime(old(db.View()), now) ==> OnTime(db.View(), now)
      ensures promotionsFailed == 0 && Unfailed(old(db.jobs)) ==> Unfailed(db.jobs)
      ensures nodeNow == now && OnTime(old(db.View()), now) && SparesPromotions(fault) ==> promotionsFailed == 0
      ensures nodeNow == now && OnTime(old(db.View()), now) && Unfailed(old(db.jobs)) && (SparesPromotions(fault) || promotionsFailed == 0) ==>
                forall b: nat :: Awaits(db.View(), b) ==> StartOf(db.View(), b) > now
    {
      ghost var s0, s := db.View(), db.View();
      ViaNowhere(db.cfg, s, nodeNow, now);
      promotionsFailed := 0;
      var claimed := true;
      while claimed
        invariant s == db.View() && Inv(db.cfg, s) && Via(db.cfg, s0, s, nodeNow, now, promotionsFailed == 0)
        invariant db.jobs.claims == map[] && !Straddles(s, nodeNow, now)
        invariant !claimed ==> NoneClaimable(db.jobs, now)
        invariant nodeNow == now && OnTime(s0, now) ==> OnTime(s, now) && (SparesPromotions(fault) ==> promotionsFailed == 0)
        decreases Load(db.jobs.jobs, now), claimed
      {
        var stats;
        ghost var ids;
        stats, ids := PollOnce(batchSize, fault, nodeNow, now);
        PollKeeps(db.cfg, s, db.View(), id, batchSize, stats.claimed, fault, nodeNow, now, stats.promotionsFailed == 0);
        ViaKeeps(db.cfg, s, db.View(), nodeNow, now, stats.promotionsFailed == 0);
        ViaTwice(db.cfg, s0, s, db.View(), nodeNow, now, promotionsFailed == 0, stats.promotionsFailed == 0);
        promotionsFailed := promotionsFailed + stats.promotionsFailed;
        claimed := stats.claimed > 0;
        s := db.View();
      }
      ViaKeeps(db.cfg, s0, s, nodeNow, now, promotionsFailed == 0);
      DrainComplete(db.cfg, s0, s, nodeNow, now, promotionsFailed == 0);
    }
  }
}
