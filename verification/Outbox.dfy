/**
 * The transactional outbox: a growing table of jobs with unique dedupe keys, and the open claim
 * transactions of the polling workers. A claim locks its rows (FOR UPDATE SKIP LOCKED) until the
 * worker's transaction ends; what a handler has already decided about a claimed row is its verdict,
 * and becomes visible in the row only when the claim commits.
 */
module Outbox {
  import opened Tables

  datatype Status = Pending | Delivered | Dead

  /** failedAt is a history variable: the instants of the failed claims committed since the last requeue. */
  datatype Job<P, K> = Job(payload: P, key: Option<K>, status: Status, attempts: nat, availableAt: int, failedAt: seq<int>)

  /** The arguments of an enqueue. */
  datatype Posting<P, K> = Posting(payload: P, key: Option<K>, availableAt: int)

  datatype Verdict = Waiting | Succeeded | Failed

  /** One open claim transaction; at is its now(), which PostgreSQL fixes when the transaction starts. */
  datatype Claim = Claim(at: int, verdicts: map<nat, Verdict>)

  datatype Table<P, K> = Table(jobs: seq<Job<P, K>>, claims: map<nat, Claim>)

  /** Retry budget and backoff; the configuration schema requires every one of them to be at least 1. */
  datatype Policy = Policy(maxAttempts: nat, baseMs: nat, capMs: nat) {
    predicate Valid() { maxAttempts >= 1 && baseMs >= 1 && capMs >= 1 }

    /** Delay before the retry that follows failed attempt number attempt: base * 2^(attempt-1), capped. */
    function Delay(attempt: nat): nat
      requires attempt >= 1
    {
      var exponential := baseMs * Pow2(attempt - 1);
      if exponential <= capMs then exponential else capMs
    }

    /** The least time that n failed attempts in a row must wait altogether. */
    function Waits(n: nat): nat
    {
      if n == 0 then 0 else Waits(n - 1) + Delay(n)
    }
  }

  function Pow2(n: nat): (r: nat)
    ensures r >= 1
  {
    if n == 0 then 1 else 2 * Pow2(n - 1)
  }

  // ---- locks and verdicts ----------------------------------------------------------------------

  /** Worker w's open claim holds the row lock. */
  predicate Holds<P, K>(t: Table<P, K>, w: nat, j: nat)
  {
    w in t.claims && j in t.claims[w].verdicts
  }

  /** Some open claim holds the row lock. */
  predicate Locked<P, K>(t: Table<P, K>, j: nat)
  {
    exists w :: w in t.claims && Holds(t, w, j)
  }

  /** Some open claim has already decided to mark the row delivered. */
  predicate Spent<P, K>(t: Table<P, K>, j: nat)
  {
    exists w :: w in t.claims && Holds(t, w, j) && t.claims[w].verdicts[j] == Succeeded
  }

  /** The liveness probe: pending, and not locked by a claim. */
  predicate IsLive<P, K>(t: Table<P, K>, j: nat)
  {
    j < |t.jobs| && t.jobs[j].status == Pending && !Locked(t, j)
  }

  /** Still due to be delivered some day: pending or dead-lettered, and no claim has settled on finishing it. */
  predicate Undelivered<P, K>(t: Table<P, K>, j: nat)
  {
    j < |t.jobs| && t.jobs[j].status != Delivered && !Spent(t, j)
  }

  // ---- enqueue ---------------------------------------------------------------------------------

  predicate HasKey<P, K(==)>(t: Table<P, K>, k: K)
  {
    exists j :: 0 <= j < |t.jobs| && t.jobs[j].key == Some(k)
  }

  /** The row a dedupe key already names. */
  function Find<P, K(==)>(jobs: seq<Job<P, K>>, k: K): (r: Option<nat>)
    ensures r.Some? ==> r.value < |jobs| && jobs[r.value].key == Some(k)
    ensures r.None? ==> forall j :: 0 <= j < |jobs| ==> jobs[j].key != Some(k)
  {
    if jobs == [] then None
    else if jobs[|jobs| - 1].key == Some(k) then Some(|jobs| - 1)
    else Find(jobs[..|jobs| - 1], k)
  }

  datatype Enqueued<P, K> = Enqueued(table: Table<P, K>, id: nat, deduped: bool)

  function NewJob<P, K>(p: Posting<P, K>): Job<P, K>
  {
    Job(p.payload, p.key, Pending, 0, p.availableAt, [])
  }

  /** INSERT ... ON CONFLICT (dedupe_key) DO NOTHING, then return the row either way. */
  function Enqueue<P, K(==)>(t: Table<P, K>, p: Posting<P, K>): (r: Enqueued<P, K>)
    ensures r.id < |r.table.jobs| && r.table.claims == t.claims
    ensures r.deduped ==> r.table == t && p.key.Some? && t.jobs[r.id].key == p.key
    ensures !r.deduped ==> r.id == |t.jobs| && r.table.jobs == t.jobs + [NewJob(p)]
    ensures !r.deduped && p.key.Some? ==> !HasKey(t, p.key.value)
  {
    var existing := if p.key.None? then None else Find(t.jobs, p.key.value);
    if existing.Some? then Enqueued(t, existing.value, true)
    else Enqueued(t.(jobs := t.jobs + [NewJob(p)]), |t.jobs|, false)
  }

  function EnqueueAll<P, K(==)>(t: Table<P, K>, ps: seq<Posting<P, K>>): (t': Table<P, K>)
    ensures t'.claims == t.claims
  {
    if ps == [] then t
    else Enqueue(EnqueueAll(t, ps[..|ps| - 1]), ps[|ps| - 1]).table
  }

  // ---- the worker's claim transaction ----------------------------------------------------------

  predicate CanClaim<P, K>(t: Table<P, K>, w: nat, at: int, ids: set<nat>)
  {
    && w !in t.claims
    && forall j :: j in ids ==> IsLive(t, j) && t.jobs[j].availableAt <= at
  }

  function ClaimRows<P, K>(t: Table<P, K>, w: nat, at: int, ids: set<nat>): Table<P, K>
  {
    t.(claims := t.claims[w := Claim(at, map j | j in ids :: Waiting)])
  }

  /** The row is claimed by w and its handler has not finished yet. */
  predicate Running<P, K>(t: Table<P, K>, w: nat, j: nat)
  {
    Holds(t, w, j) && t.claims[w].verdicts[j] == Waiting
  }

  function Settle<P, K>(t: Table<P, K>, w: nat, j: nat, v: Verdict): Table<P, K>
    requires Running(t, w, j)
  {
    var c := t.claims[w];
    t.(claims := t.claims[w := c.(verdicts := c.verdicts[j := v])])
  }

  /** What the claim's commit makes of one claimed row. */
  function AfterRun<P, K>(policy: Policy, job: Job<P, K>, v: Verdict, at: int): Job<P, K>
  {
    var attempt := job.attempts + 1;
    match v
    case Waiting => job
    case Succeeded => job.(status := Delivered, attempts := attempt)
    case Failed =>
      if attempt >= policy.maxAttempts then
        job.(status := Dead, attempts := attempt, failedAt := job.failedAt + [at])
      else
        job.(attempts := attempt, availableAt := at + policy.Delay(attempt), failedAt := job.failedAt + [at])
  }

  predicate CanCommit<P, K>(t: Table<P, K>, w: nat)
  {
    w in t.claims && forall j :: j in t.claims[w].verdicts ==> t.claims[w].verdicts[j] != Waiting
  }

  function CommitClaim<P, K>(policy: Policy, t: Table<P, K>, w: nat): (t': Table<P, K>)
    requires w in t.claims
    ensures |t'.jobs| == |t.jobs|
  {
    var c := t.claims[w];
    Table(seq(|t.jobs|, j requires 0 <= j < |t.jobs| =>
                if j in c.verdicts then AfterRun(policy, t.jobs[j], c.verdicts[j], c.at) else t.jobs[j]),
          t.claims - {w})
  }

  /** A crash (or any rollback) of the claim transaction releases its rows untouched. */
  function Crash<P, K>(t: Table<P, K>, w: nat): Table<P, K>
  {
    t.(claims := t.claims - {w})
  }

  /** Operator action: re-open a dead job with a fresh retry budget. */
  function Requeue<P, K>(t: Table<P, K>, j: nat, now: int): Table<P, K>
    requires j < |t.jobs|
  {
    if t.jobs[j].status == Dead then
      t.(jobs := t.jobs[j := t.jobs[j].(status := Pending, attempts := 0, availableAt := now, failedAt := [])])
    else t
  }

  // ---- the outbox as a state machine -----------------------------------------------------------

  datatype Step<P, K> =
    | Post(posting: Posting<P, K>)
    | Take(worker: nat, at: int, ids: set<nat>)
    | Finish(worker: nat, id: nat, verdict: Verdict)
    | Commit(worker: nat)
    | Abort(worker: nat)
    | Reopen(id: nat, now: int)

  predicate Enabled<P, K>(t: Table<P, K>, s: Step<P, K>)
  {
    match s
    case Post(_) => true
    case Take(w, at, ids) => CanClaim(t, w, at, ids)
    case Finish(w, j, v) => Running(t, w, j) && v != Waiting
    case Commit(w) => CanCommit(t, w)
    case Abort(w) => true
    case Reopen(j, _) => j < |t.jobs|
  }

  function Apply<P, K(==)>(policy: Policy, t: Table<P, K>, s: Step<P, K>): Table<P, K>
    requires Enabled(t, s)
  {
    match s
    case Post(p) => Enqueue(t, p).table
    case Take(w, at, ids) => ClaimRows(t, w, at, ids)
    case Finish(w, j, v) => Settle(t, w, j, v)
    case Commit(w) => CommitClaim(policy, t, w)
    case Abort(w) => Crash(t, w)
    case Reopen(j, now) => Requeue(t, j, now)
  }

  /** Retry accounting of one row. */
  ghost predicate JobOk<P, K>(policy: Policy, job: Job<P, K>)
  {
    && (job.status == Pending ==> job.attempts < policy.maxAttempts && job.attempts == |job.failedAt|)
    && (job.status == Dead ==> job.attempts == policy.maxAttempts && job.attempts == |job.failedAt|)
    && (job.status == Delivered ==> job.attempts == |job.failedAt| + 1 && job.attempts <= policy.maxAttempts)
    && (forall k :: 0 < k < |job.failedAt| ==> job.failedAt[k - 1] + policy.Delay(k) <= job.failedAt[k])
    && (job.status == Pending && job.failedAt != [] ==>
          job.availableAt == job.failedAt[|job.failedAt| - 1] + policy.Delay(|job.failedAt|))
  }

  ghost predicate UniqueKeys<P, K>(jobs: seq<Job<P, K>>)
  {
    forall i, j :: 0 <= i < j < |jobs| && jobs[i].key.Some? ==> jobs[i].key != jobs[j].key
  }

  /** Claims lock due pending rows, and no two of them share a row. */
  ghost predicate ClaimsOk<P, K>(t: Table<P, K>)
  {
    && (forall w: nat, j: nat :: Holds(t, w, j) ==>
          j < |t.jobs| && t.jobs[j].status == Pending && t.jobs[j].availableAt <= t.claims[w].at)
    && (forall w: nat, w': nat, j: nat :: Holds(t, w, j) && Holds(t, w', j) ==> w == w')
  }

  ghost predicate JobsOk<P, K>(policy: Policy, t: Table<P, K>)
  {
    forall j :: 0 <= j < |t.jobs| ==> JobOk(policy, t.jobs[j])
  }

  ghost predicate Valid<P, K>(policy: Policy, t: Table<P, K>)
  {
    JobsOk(policy, t) && UniqueKeys(t.jobs) && ClaimsOk(t)
  }

  /** A claim's commit keeps the accounting of each of its rows. */
  lemma AfterRunOk<P, K>(policy: Policy, job: Job<P, K>, v: Verdict, at: int)
    requires policy.Valid() && JobOk(policy, job) && job.status == Pending && job.availableAt <= at
    ensures JobOk(policy, AfterRun(policy, job, v, at))
  {
  }

  lemma JobsStep<P, K>(policy: Policy, t: Table<P, K>, s: Step<P, K>)
    requires policy.Valid() && Valid(policy, t) && Enabled(t, s)
    ensures JobsOk(policy, Apply(policy, t, s))
  {
    var t' := Apply(policy, t, s);
    if s.Commit? {
      var c := t.claims[s.worker];
      forall j | 0 <= j < |t'.jobs|
        ensures JobOk(policy, t'.jobs[j])
      {
        if j in c.verdicts {
          assert Holds(t, s.worker, j);
          AfterRunOk(policy, t.jobs[j], c.verdicts[j], c.at);
        }
      }
    }
  }

  lemma ClaimsStep<P, K>(policy: Policy, t: Table<P, K>, s: Step<P, K>)
    requires ClaimsOk(t) && Enabled(t, s)
    ensures ClaimsOk(Apply(policy, t, s))
  {
    var t' := Apply(policy, t, s);
    match s
    case Take(w, at, ids) =>
      forall v: nat, j: nat | Holds(t', v, j)
        ensures if v == w then IsLive(t, j) && t.jobs[j].availableAt <= at else Holds(t, v, j)
      {
        if v == w {
          assert j in ids;
        }
      }
    case Commit(w) =>
      assert forall v: nat, j: nat :: Holds(t', v, j) ==> Holds(t, v, j) && v != w;
      assert forall v: nat, j: nat :: Holds(t, w, j) && Holds(t, v, j) ==> v == w;
    case _ =>
      assert forall v: nat, j: nat :: Holds(t', v, j) ==> Holds(t, v, j);
  }

  /** Every step of any number of workers, producers and operators keeps the outbox valid. */
  lemma ValidStep<P, K>(policy: Policy, t: Table<P, K>, s: Step<P, K>)
    requires policy.Valid() && Valid(policy, t) && Enabled(t, s)
    ensures Valid(policy, Apply(policy, t, s))
  {
    JobsStep(policy, t, s);
    ClaimsStep(policy, t, s);
  }

  // ---- what runs guarantee ---------------------------------------------------------------------

  ghost predicate LegalRun<P, K>(policy: Policy, t: Table<P, K>, run: seq<Step<P, K>>)
    decreases |run|
  {
    run == [] || (Enabled(t, run[0]) && LegalRun(policy, Apply(policy, t, run[0]), run[1..]))
  }

  ghost function RunAll<P, K>(policy: Policy, t: Table<P, K>, run: seq<Step<P, K>>): Table<P, K>
    requires LegalRun(policy, t, run)
    decreases |run|
  {
    if run == [] then t else RunAll(policy, Apply(policy, t, run[0]), run[1..])
  }

  lemma {:induction false} ValidRun<P, K>(policy: Policy, t: Table<P, K>, run: seq<Step<P, K>>)
    requires policy.Valid() && Valid(policy, t) && LegalRun(policy, t, run)
    ensures Valid(policy, RunAll(policy, t, run))
    decreases |run|
  {
    if run != [] {
      ValidStep(policy, t, run[0]);
      ValidRun(policy, Apply(policy, t, run[0]), run[1..]);
    }
  }

  /** Retry accounting in every run: no two claims share a row, and a status says how many attempts have failed. */
  lemma RetryAccounting<P, K>(policy: Policy, run: seq<Step<P, K>>, j: nat, w: nat, w': nat)
    requires policy.Valid() && LegalRun(policy, Table([], map[]), run) && j < |RunAll(policy, Table([], map[]), run).jobs|
    ensures var t := RunAll(policy, Table([], map[]), run); var job := t.jobs[j];
      && (Holds(t, w, j) && Holds(t, w', j) ==> w == w')
      && (job.status == Pending ==> job.attempts == |job.failedAt| < policy.maxAttempts)
      && (job.status == Dead ==> job.attempts == |job.failedAt| == policy.maxAttempts)
      && (job.status == Delivered ==> job.attempts == |job.failedAt| + 1 <= policy.maxAttempts && !Locked(t, j))
  {
    ValidRun(policy, Table([], map[]), run);
    assert JobOk(policy, RunAll(policy, Table([], map[]), run).jobs[j]);
  }

  /** Rows are never dropped, and never change what they are for; a delivered row never changes at all. */
  ghost predicate Continues<P, K>(t: Table<P, K>, t': Table<P, K>)
  {
    && |t.jobs| <= |t'.jobs|
    && forall j :: 0 <= j < |t.jobs| ==>
         && t'.jobs[j].payload == t.jobs[j].payload
         && t'.jobs[j].key == t.jobs[j].key
         && (t.jobs[j].status == Delivered ==> t'.jobs[j] == t.jobs[j])
  }

  lemma ContinuesStep<P, K>(policy: Policy, t: Table<P, K>, s: Step<P, K>)
    requires ClaimsOk(t) && Enabled(t, s)
    ensures Continues(t, Apply(policy, t, s))
  {
    if s.Commit? {
      assert forall j :: j in t.claims[s.worker].verdicts ==> Holds(t, s.worker, j);
    }
  }

  /** Delivery is final in every run. */
  lemma {:induction false} DeliveredIsFinal<P, K>(policy: Policy, t: Table<P, K>, run: seq<Step<P, K>>)
    requires policy.Valid() && Valid(policy, t) && LegalRun(policy, t, run)
    ensures Continues(t, RunAll(policy, t, run))
    decreases |run|
  {
    if run != [] {
      ValidStep(policy, t, run[0]);
      ContinuesStep(policy, t, run[0]);
      DeliveredIsFinal(policy, Apply(policy, t, run[0]), run[1..]);
    }
  }

  /** Only a handler that reports success can take an undelivered row out of the schedule. */
  lemma UndeliveredStep<P, K>(policy: Policy, t: Table<P, K>, s: Step<P, K>, i: nat)
    requires ClaimsOk(t) && Enabled(t, s) && Undelivered(t, i)
    requires !(s.Finish? && s.id == i && s.verdict == Succeeded)
    ensures Undelivered(Apply(policy, t, s), i)
  {
    var t' := Apply(policy, t, s);
    forall w | Holds(t', w, i) && t'.claims[w].verdicts[i] == Succeeded
      ensures Holds(t, w, i) && t.claims[w].verdicts[i] == Succeeded
    {
    }
    if s.Commit? && i in t.claims[s.worker].verdicts {
      assert Holds(t, s.worker, i);
    }
  }

  /** Enqueueing a list only appends fresh rows, and leaves a row under every key it was given. */
  lemma {:induction false} EnqueueAllAppends<P, K>(t: Table<P, K>, ps: seq<Posting<P, K>>)
    ensures var t' := EnqueueAll(t, ps);
      && t'.claims == t.claims
      && t.jobs <= t'.jobs
      && (forall j :: |t.jobs| <= j < |t'.jobs| ==> exists i :: 0 <= i < |ps| && t'.jobs[j] == NewJob(ps[i]))
      && (forall i :: 0 <= i < |ps| && ps[i].key.Some? ==> HasKey(t', ps[i].key.value))
      && (UniqueKeys(t.jobs) ==> UniqueKeys(t'.jobs))
  {
    if ps != [] {
      var init, last := ps[..|ps| - 1], ps[|ps| - 1];
      EnqueueAllAppends(t, init);
      var mid := EnqueueAll(t, init);
      var r := Enqueue(mid, last);
      assert mid.jobs <= r.table.jobs;
      forall j | |t.jobs| <= j < |r.table.jobs|
        ensures exists i :: 0 <= i < |ps| && r.table.jobs[j] == NewJob(ps[i])
      {
        if j < |mid.jobs| {
          var i :| 0 <= i < |init| && mid.jobs[j] == NewJob(init[i]);
          assert ps[i] == init[i];
        } else {
          assert r.table.jobs[j] == NewJob(ps[|ps| - 1]);
        }
      }
      forall i | 0 <= i < |ps| && ps[i].key.Some?
        ensures HasKey(r.table, ps[i].key.value)
      {
        if i < |init| {
          assert HasKey(mid, init[i].key.value);
          var j :| 0 <= j < |mid.jobs| && mid.jobs[j].key == ps[i].key;
          assert r.table.jobs[j].key == ps[i].key;
        } else {
          assert r.table.jobs[r.id].key == last.key;
        }
      }
    }
  }

  /** After a crash of its claim a row is as it was, and there for any worker to claim. */
  lemma CrashReleases<P, K>(policy: Policy, t: Table<P, K>, w: nat, j: nat, w': nat, now: int)
    requires Valid(policy, t) && Holds(t, w, j) && w' !in Apply(policy, t, Abort(w)).claims && now >= t.claims[w].at
    ensures var t' := Apply(policy, t, Abort(w)); t'.jobs == t.jobs && IsLive(t', j) && CanClaim(t', w', now, {j})
  {
    assert forall v :: Holds(Apply(policy, t, Abort(w)), v, j) ==> Holds(t, v, j) && v != w;
  }

  /** A requeued dead row is there to claim at once, with its whole budget, and no other row changes. */
  lemma RequeueRestarts<P, K>(policy: Policy, t: Table<P, K>, j: nat, now: int)
    requires policy.Valid() && Valid(policy, t) && j < |t.jobs| && t.jobs[j].status == Dead
    ensures var t' := Apply(policy, t, Reopen(j, now));
      && IsLive(t', j) && t'.jobs[j].availableAt == now && t'.jobs[j].attempts == 0
      && t'.jobs[j].payload == t.jobs[j].payload && t'.jobs[j].key == t.jobs[j].key
      && |t'.jobs| == |t.jobs| && t'.claims == t.claims && forall i :: 0 <= i < |t.jobs| && i != j ==> t'.jobs[i] == t.jobs[i]
  {
    assert forall w :: Holds(Requeue(t, j, now), w, j) ==> Holds(t, w, j);
  }

  // ---- time to dead letter ---------------------------------------------------------------------

  lemma {:induction false} Pow2Monotone(m: nat, n: nat)
    requires m <= n
    ensures Pow2(m) <= Pow2(n)
  {
    if m < n {
      Pow2Monotone(m, n - 1);
    }
  }

  /** The first retry waits the base delay, and each further one twice as long as the one before it, up to the cap. */
  lemma DelayDoubles(policy: Policy, attempt: nat)
    requires policy.Valid() && attempt >= 1
    ensures policy.Delay(1) == Least(policy.baseMs, policy.capMs)
    ensures policy.Delay(attempt + 1) == Least(2 * policy.Delay(attempt), policy.capMs)
    ensures 1 <= policy.Delay(attempt) <= policy.capMs
  {
    assert Pow2(0) == 1;
    Doubled(policy.baseMs, Pow2(attempt - 1));
    Scale(policy.baseMs, 1, Pow2(attempt - 1));
  }

  function Least(a: nat, b: nat): nat
  {
    if a <= b then a else b
  }

  lemma Doubled(k: nat, x: nat)
    ensures k * (2 * x) == 2 * (k * x)
  {
  }

  /** Backoff never shortens from one attempt to the next. */
  lemma DelayMonotone(policy: Policy, a: nat, b: nat)
    requires 1 <= a <= b
    ensures policy.Delay(a) <= policy.Delay(b)
  {
    Pow2Monotone(a - 1, b - 1);
    Scale(policy.baseMs, Pow2(a - 1), Pow2(b - 1));
  }

  lemma Scale(k: nat, x: nat, y: nat)
    requires x <= y
    ensures k * x <= k * y
  {
  }

  /** While the cap is not reached, n failures in a row wait base * (2^n - 1). */
  lemma {:induction false} WaitsUncapped(policy: Policy, n: nat)
    requires n >= 1 ==> policy.baseMs * Pow2(n - 1) <= policy.capMs
    ensures policy.Waits(n) == policy.baseMs * (Pow2(n) - 1)
  {
    if n >= 2 {
      Pow2Monotone(n - 2, n - 1);
      Scale(policy.baseMs, Pow2(n - 2), Pow2(n - 1));
    }
    if n >= 1 {
      WaitsUncapped(policy, n - 1);
      Distribute(policy.baseMs, Pow2(n - 1) - 1, Pow2(n - 1));
    }
  }

  lemma Distribute(k: nat, x: nat, y: nat)
    ensures k * x + k * y == k * (x + y)
  {
  }

  lemma {:induction false} FailuresSpread<P, K>(policy: Policy, job: Job<P, K>, k: nat)
    requires JobOk(policy, job) && k < |job.failedAt|
    ensures job.failedAt[0] + policy.Waits(k) <= job.failedAt[k]
  {
    if k > 0 {
      FailuresSpread(policy, job, k - 1);
    }
  }

  /** In every run a dead row has failed maxAttempts times, spread over at least the whole backoff. */
  lemma DeadLetterTakesTime<P, K>(policy: Policy, run: seq<Step<P, K>>, j: nat)
    requires policy.Valid() && LegalRun(policy, Table([], map[]), run)
    requires j < |RunAll(policy, Table([], map[]), run).jobs|
    requires RunAll(policy, Table([], map[]), run).jobs[j].status == Dead
    ensures var failedAt := RunAll(policy, Table([], map[]), run).jobs[j].failedAt;
      && |failedAt| == policy.maxAttempts
      && failedAt[|failedAt| - 1] - failedAt[0] >= policy.Waits(policy.maxAttempts - 1)
      && (policy.maxAttempts >= 2 && policy.baseMs * Pow2(policy.maxAttempts - 2) <= policy.capMs ==>
            failedAt[|failedAt| - 1] - failedAt[0] >= policy.baseMs * (Pow2(policy.maxAttempts - 1) - 1))
  {
    ValidRun(policy, Table([], map[]), run);
    var job := RunAll(policy, Table([], map[]), run).jobs[j];
    FailuresSpread(policy, job, policy.maxAttempts - 1);
    if policy.maxAttempts >= 2 && policy.baseMs * Pow2(policy.maxAttempts - 2) <= policy.capMs {
      WaitsUncapped(policy, policy.maxAttempts - 1);
    }
  }
}
