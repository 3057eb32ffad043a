/**
 * The moderation pipeline: content waits for a scan job or a human. A scan reads its content in one step
 * and records its outcome in a later one; edits, human decisions, other scans, crashes and retries may come
 * in between, and a scan whose worker lost its claim may still record.
 */
module Moderation {
  import opened Tables
  import Outbox

  datatype Status = Pending | Approved | Rejected

  /**
   * text stands for what a scan judges. writes and decidedBefore are history variables: the writes to the
   * row, and how many decisions had been recorded when its text was last written.
   */
  datatype Content = Content(text: int, status: Status, writes: nat, decidedBefore: nat)

  datatype DecidedBy = PreFilter | Llm(judged: int, confidence: real) | Human

  datatype Outcome = Approve | Reject | Escalate

  datatype Decision = Decision(content: nat, outcome: Outcome, judge: DecidedBy)

  datatype Item = Item(content: nat, resolved: bool, decision: nat)

  type Jobs = Outbox.Table<nat, nat>
  type Step = Outbox.Step<nat, nat>

  datatype Owner = Owner(worker: nat, job: nat)

  /** A scan between its read and its outcome; owner is the claim that still waits for it. */
  datatype Flight = Flight(content: nat, sawPending: bool, text: int, writes: nat, owner: Option<Owner>)

  datatype State = State(contents: seq<Content>, decisions: seq<Decision>, queue: seq<Item>, jobs: Jobs, flights: map<nat, Flight>)

  datatype Config = Config(threshold: real, policy: Outbox.Policy)

  // ---- the scan's route ------------------------------------------------------------------------

  datatype Answer = Answer(benign: bool, confidence: real)

  /** What the deterministic checks and the classifier said; no answer is a provider failure. */
  datatype Judgement = Judgement(blocked: bool, limited: bool, gated: bool, answer: Option<Answer>)

  datatype Route = Decided(outcome: Outcome, judge: DecidedBy) | Throws

  function RouteOf(threshold: real, text: int, judgement: Judgement): Route
  {
    if judgement.blocked then Decided(Reject, PreFilter)
    else if judgement.limited then Decided(Escalate, PreFilter)
    else if judgement.gated then Decided(Escalate, PreFilter)
    else if judgement.answer.None? then Throws
    else
      var answer := judgement.answer.value;
      var judge := Llm(text, answer.confidence);
      if answer.benign && answer.confidence >= threshold then Decided(Approve, judge) else Decided(Escalate, judge)
  }

  // ---- statements ------------------------------------------------------------------------------

  function InsertDecision(s: State, d: Decision): State
  {
    s.(decisions := s.decisions + [d])
  }

  /** The flip does not look at the status it replaces. */
  function SetModerationStatus(s: State, c: nat, status: Status): State
  {
    if c < |s.contents| then
      s.(contents := s.contents[c := s.contents[c].(status := status, writes := s.contents[c].writes + 1)])
    else s
  }

  predicate IsOpenItem(queue: seq<Item>, i: nat, c: nat)
  {
    i < |queue| && queue[i].content == c && !queue[i].resolved
  }

  predicate HasOpenItem(queue: seq<Item>, c: nat)
  {
    exists i :: 0 <= i < |queue| && IsOpenItem(queue, i, c)
  }

  /** Insert, unless an unresolved item exists for the content. */
  function InsertQueueItem(s: State, c: nat, decision: nat): State
  {
    if HasOpenItem(s.queue, c) then s else s.(queue := s.queue + [Item(c, false, decision)])
  }

  function Submit(s: State, text: int, now: int): State
  {
    var c := |s.contents|;
    s.(contents := s.contents + [Content(text, Pending, 0, |s.decisions|)], jobs := PostScan(s.jobs, c, now))
  }

  function PostScan(jobs: Jobs, c: nat, now: int): Jobs
  {
    Outbox.Enqueue(jobs, Outbox.Posting(c, None, now)).table
  }

  /** A material edit: new text, unreviewed again, and a scan job, in one transaction. */
  function Edit(s: State, c: nat, text: int, now: int): State
    requires c < |s.contents|
  {
    var row := Content(text, Pending, s.contents[c].writes + 1, |s.decisions|);
    s.(contents := s.contents[c := row], jobs := PostScan(s.jobs, c, now))
  }

  /** The transaction in which a scan that read pending content records its decision. */
  function RecordDecision(s: State, c: nat, outcome: Outcome, judge: DecidedBy): State
  {
    var s1 := InsertDecision(s, Decision(c, outcome, judge));
    match outcome
    case Approve => SetModerationStatus(s1, c, Approved)
    case Reject => SetModerationStatus(s1, c, Rejected)
    case Escalate => InsertQueueItem(s1, c, |s.decisions|)
  }

  function SettleOwner(s: State, owner: Option<Owner>, v: Outbox.Verdict): State
  {
    if owner.Some? && Outbox.Running(s.jobs, owner.value.worker, owner.value.job) then
      s.(jobs := Outbox.Settle(s.jobs, owner.value.worker, owner.value.job, v))
    else s
  }

  /** The end of a scan: nothing to do, an outcome recorded, or a throw. */
  function Record(cfg: Config, s: State, k: nat, judgement: Judgement): State
    requires k in s.flights
  {
    var f := s.flights[k];
    var s1 := s.(flights := s.flights - {k});
    if !f.sawPending then SettleOwner(s1, f.owner, Outbox.Succeeded)
    else
      var route := RouteOf(cfg.threshold, f.text, judgement);
      if route.Throws? then SettleOwner(s1, f.owner, Outbox.Failed)
      else SettleOwner(RecordDecision(s1, f.content, route.outcome, route.judge), f.owner, Outbox.Succeeded)
  }

  /** A moderator settles one unresolved queue item. */
  function Decide(s: State, i: nat, approve: bool): State
    requires i < |s.queue|
  {
    var c, d := s.queue[i].content, |s.decisions|;
    var s1 := InsertDecision(s, Decision(c, if approve then Approve else Reject, Human));
    var s2 := SetModerationStatus(s1, c, if approve then Approved else Rejected);
    s2.(queue := s2.queue[i := s2.queue[i].(resolved := true, decision := d)])
  }

  function Read(s: State, k: nat, w: nat, j: nat): State
    requires j < |s.jobs.jobs|
  {
    var c := s.jobs.jobs[j].payload;
    if c >= |s.contents| then s
    else
      var row := s.contents[c];
      s.(flights := s.flights[k := Flight(c, row.status == Pending, row.text, row.writes, Some(Owner(w, j)))])
  }

  /** The flights of a worker that lost its claim go on without it. */
  function Detached(flights: map<nat, Flight>, w: nat): map<nat, Flight>
  {
    map k | k in flights ::
      if flights[k].owner.Some? && flights[k].owner.value.worker == w then flights[k].(owner := None) else flights[k]
  }

  // ---- the machine -----------------------------------------------------------------------------

  datatype Action =
    | SubmitContent(text: int, now: int)
    | EditContent(content: nat, newText: int, now: int)
    | DecideItem(item: nat, approve: bool)
    | ReadContent(flight: nat, worker: nat, job: nat)
    | RecordScan(flight: nat, judgement: Judgement)
    | Work(step: Step)

  predicate Owns(s: State, k: nat, w: nat, j: nat)
  {
    k in s.flights && s.flights[k].owner == Some(Owner(w, j))
  }

  predicate Unread(s: State, w: nat, j: nat)
  {
    forall k :: k in s.flights ==> !Owns(s, k, w, j)
  }

  predicate Enabled(s: State, a: Action)
  {
    match a
    case SubmitContent(_, _) => true
    case EditContent(c, _, _) => c < |s.contents|
    case DecideItem(i, _) => i < |s.queue| && !s.queue[i].resolved
    case ReadContent(k, w, j) => k !in s.flights && Outbox.Running(s.jobs, w, j) && j < |s.jobs.jobs| && Unread(s, w, j)
    case RecordScan(k, _) => k in s.flights
    case Work(step) =>
      && Outbox.Enabled(s.jobs, step) && !step.Post?
      && (step.Finish? ==> step.verdict == Outbox.Failed && Unread(s, step.worker, step.id))
  }

  function Apply(cfg: Config, s: State, a: Action): State
    requires Enabled(s, a)
  {
    match a
    case SubmitContent(text, now) => Submit(s, text, now)
    case EditContent(c, text, now) => Edit(s, c, text, now)
    case DecideItem(i, approve) => Decide(s, i, approve)
    case ReadContent(k, w, j) => Read(s, k, w, j)
    case RecordScan(k, judgement) => Record(cfg, s, k, judgement)
    case Work(step) =>
      s.(jobs := Outbox.Apply(cfg.policy, s.jobs, step),
         flights := if step.Abort? then Detached(s.flights, step.worker) else s.flights)
  }

  function Empty(): State
  {
    State([], [], [], Outbox.Table([], map[]), map[])
  }

  ghost predicate LegalRun(cfg: Config, s: State, run: seq<Action>)
    decreases |run|
  {
    run == [] || (Enabled(s, run[0]) && LegalRun(cfg, Apply(cfg, s, run[0]), run[1..]))
  }

  ghost function RunAll(cfg: Config, s: State, run: seq<Action>): State
    requires LegalRun(cfg, s, run)
    decreases |run|
  {
    if run == [] then s else RunAll(cfg, Apply(cfg, s, run[0]), run[1..])
  }

  // ---- no content is orphaned ------------------------------------------------------------------

  /** A scan job that will still look at its content: no scan in flight for it saw the content decided. */
  ghost predicate Awaited(s: State, j: nat, c: nat)
  {
    && Outbox.Undelivered(s.jobs, j) && s.jobs.jobs[j].payload == c
    && forall k, w :: Owns(s, k, w, j) ==> s.flights[k].sawPending
  }

  ghost predicate Attended(s: State, c: nat)
  {
    HasOpenItem(s.queue, c) || exists j :: Awaited(s, j, c)
  }

  ghost predicate Linked(s: State)
  {
    && (forall j :: 0 <= j < |s.jobs.jobs| ==> s.jobs.jobs[j].payload < |s.contents|)
    && (forall i :: 0 <= i < |s.queue| ==> s.queue[i].content < |s.contents|)
    && (forall k :: k in s.flights ==> s.flights[k].content < |s.contents|)
  }

  /** A flight that has an owner is the one the owner waits for. */
  ghost predicate Flown(s: State)
  {
    && (forall k, w, j: nat :: Owns(s, k, w, j) ==>
          Outbox.Running(s.jobs, w, j) && j < |s.jobs.jobs| && s.jobs.jobs[j].payload == s.flights[k].content)
    && (forall k, k', w, j: nat :: Owns(s, k, w, j) && Owns(s, k', w, j) ==> k == k')
  }

  ghost predicate OneOpenItem(queue: seq<Item>)
  {
    forall i: nat, i': nat, c: nat :: IsOpenItem(queue, i, c) && IsOpenItem(queue, i', c) ==> i == i'
  }

  ghost predicate NoneOrphaned(s: State)
  {
    forall c: nat :: c < |s.contents| && s.contents[c].status == Pending ==> Attended(s, c)
  }

  ghost predicate Inv(s: State)
  {
    Outbox.ClaimsOk(s.jobs) && Linked(s) && Flown(s) && OneOpenItem(s.queue) && NoneOrphaned(s)
  }

  // ---- posting a scan --------------------------------------------------------------------------

  lemma PostedScan(jobs: Jobs, c: nat, now: int)
    requires Outbox.ClaimsOk(jobs)
    ensures var jobs' := PostScan(jobs, c, now);
      && jobs'.claims == jobs.claims && jobs'.jobs == jobs.jobs + [Outbox.NewJob(Outbox.Posting(c, None, now))]
      && Outbox.ClaimsOk(jobs') && Outbox.Undelivered(jobs', |jobs.jobs|)
      && (forall j :: Outbox.Undelivered(jobs, j) ==> Outbox.Undelivered(jobs', j))
      && (forall w, j: nat :: Outbox.Holds(jobs', w, j) <==> Outbox.Holds(jobs, w, j))
  {
    var jobs' := PostScan(jobs, c, now);
    assert forall w, j: nat :: Outbox.Holds(jobs', w, j) <==> Outbox.Holds(jobs, w, j);
    assert forall w :: !Outbox.Holds(jobs', w, |jobs.jobs|);
  }

  /** Writing content c with a fresh scan job keeps everyone attended. */
  lemma PostKeeps(s: State, s': State, c: nat, now: int)
    requires Inv(s) && s'.jobs == PostScan(s.jobs, c, now)
    requires s'.queue == s.queue && s'.flights == s.flights && |s.contents| <= |s'.contents| && c < |s'.contents|
    requires forall d: nat :: d < |s'.contents| && d != c ==> d < |s.contents| && s'.contents[d] == s.contents[d]
    ensures Inv(s')
  {
    PostedScan(s.jobs, c, now);
    var newest := |s.jobs.jobs|;
    assert forall k, w :: Owns(s', k, w, newest) ==> Owns(s, k, w, newest);
    assert Awaited(s', newest, c);
    forall k, w, j: nat | Owns(s', k, w, j)
      ensures Owns(s, k, w, j) && Outbox.Running(s'.jobs, w, j)
    {
      assert Owns(s, k, w, j);
    }
    forall d: nat | d < |s'.contents| && s'.contents[d].status == Pending && d != c && !HasOpenItem(s.queue, d)
      ensures Attended(s', d)
    {
      assert Attended(s, d);
      var j :| Awaited(s, j, d);
      assert forall k, w :: Owns(s', k, w, j) ==> Owns(s, k, w, j);
      assert Awaited(s', j, d);
    }
  }

  // ---- the outbox's own steps ------------------------------------------------------------------

  lemma WorkKeeps(cfg: Config, s: State, step: Step)
    requires Inv(s) && Enabled(s, Work(step))
    ensures Inv(Apply(cfg, s, Work(step)))
  {
    var s' := Apply(cfg, s, Work(step));
    Outbox.ClaimsStep(cfg.policy, s.jobs, step);
    Outbox.ContinuesStep(cfg.policy, s.jobs, step);
    assert forall k, w, j :: Owns(s', k, w, j) ==> Owns(s, k, w, j) && s'.flights[k] == s.flights[k];
    forall k, w, j: nat | Owns(s', k, w, j)
      ensures Outbox.Running(s'.jobs, w, j)
    {
      assert Owns(s, k, w, j) && Outbox.Running(s.jobs, w, j);
    }
    forall c: nat | c < |s.contents| && s.contents[c].status == Pending && !HasOpenItem(s.queue, c)
      ensures Attended(s', c)
    {
      assert Attended(s, c);
      var j :| Awaited(s, j, c);
      Outbox.UndeliveredStep(cfg.policy, s.jobs, step, j);
      assert Awaited(s', j, c);
    }
  }

  lemma ReadKeeps(s: State, k: nat, w: nat, j: nat)
    requires Inv(s) && Enabled(s, ReadContent(k, w, j))
    ensures Inv(Read(s, k, w, j))
  {
    var s' := Read(s, k, w, j);
    assert forall k', w', j' :: Owns(s', k', w', j') ==> Owns(s, k', w', j') || (k' == k && w' == w && j' == j);
    forall c: nat | c < |s.contents| && s.contents[c].status == Pending && !HasOpenItem(s.queue, c)
      ensures Attended(s', c)
    {
      assert Attended(s, c);
      var i :| Awaited(s, i, c);
      assert Awaited(s', i, c);
    }
  }

  // ---- outcomes --------------------------------------------------------------------------------

  /** Changing content c and its items so that c is no longer pending, or waits in the queue. */
  lemma AttendedKeeps(s: State, s': State, c: nat)
    requires Inv(s) && s'.jobs == s.jobs && s'.flights == s.flights
    requires |s'.contents| == |s.contents| && OneOpenItem(s'.queue)
    requires forall i :: 0 <= i < |s'.queue| ==> s'.queue[i].content < |s.contents|
    requires forall d: nat :: d < |s.contents| && d != c ==>
               s'.contents[d] == s.contents[d] && (HasOpenItem(s.queue, d) ==> HasOpenItem(s'.queue, d))
    requires c < |s.contents| ==> s'.contents[c].status != Pending || HasOpenItem(s'.queue, c)
    ensures Inv(s')
  {
    assert forall k, w, j :: Owns(s', k, w, j) <==> Owns(s, k, w, j);
    forall d: nat | d < |s.contents| && s'.contents[d].status == Pending && !HasOpenItem(s'.queue, d)
      ensures Attended(s', d)
    {
      assert d != c && Attended(s, d);
      var j :| Awaited(s, j, d);
      assert Awaited(s', j, d);
    }
  }

  lemma RecordDecisionKeeps(s: State, c: nat, outcome: Outcome, judge: DecidedBy)
    requires Inv(s) && c < |s.contents|
    ensures Inv(RecordDecision(s, c, outcome, judge))
    ensures var s' := RecordDecision(s, c, outcome, judge); s'.contents[c].status != Pending || HasOpenItem(s'.queue, c)
  {
    var s' := RecordDecision(s, c, outcome, judge);
    if outcome == Escalate && !HasOpenItem(s.queue, c) {
      assert IsOpenItem(s'.queue, |s.queue|, c);
      forall d: nat, i: nat | IsOpenItem(s.queue, i, d)
        ensures IsOpenItem(s'.queue, i, d)
      {
      }
      assert forall i: nat, d: nat :: IsOpenItem(s'.queue, i, d) ==> IsOpenItem(s.queue, i, d) || (i == |s.queue| && d == c);
    }
    AttendedKeeps(s, s', c);
  }

  lemma DecideKeeps(s: State, i: nat, approve: bool)
    requires Inv(s) && Enabled(s, DecideItem(i, approve))
    ensures Inv(Decide(s, i, approve))
  {
    var s' := Decide(s, i, approve);
    assert forall i': nat, d: nat :: IsOpenItem(s'.queue, i', d) ==> IsOpenItem(s.queue, i', d);
    forall d: nat | d != s.queue[i].content && HasOpenItem(s.queue, d)
      ensures HasOpenItem(s'.queue, d)
    {
      var i' :| 0 <= i' < |s.queue| && IsOpenItem(s.queue, i', d);
      assert IsOpenItem(s'.queue, i', d);
    }
    AttendedKeeps(s, s', s.queue[i].content);
  }

  /** A finished flight leaves; its claim notes the verdict. Success needs the content to be attended without it. */
  lemma LandKeeps(cfg: Config, s: State, k: nat, v: Outbox.Verdict)
    requires Inv(s) && k in s.flights && v != Outbox.Waiting
    requires var f := s.flights[k];
      v == Outbox.Succeeded && f.sawPending ==> s.contents[f.content].status != Pending || HasOpenItem(s.queue, f.content)
    ensures Inv(SettleOwner(s.(flights := s.flights - {k}), s.flights[k].owner, v))
  {
    var f := s.flights[k];
    var s1 := s.(flights := s.flights - {k});
    var s' := SettleOwner(s1, f.owner, v);
    assert forall k', w, j :: Owns(s', k', w, j) ==> Owns(s, k', w, j) && k' != k;
    if f.owner.Some? {
      assert Owns(s, k, f.owner.value.worker, f.owner.value.job);
      var step: Step := Outbox.Finish(f.owner.value.worker, f.owner.value.job, v);
      assert s'.jobs == Outbox.Apply(cfg.policy, s.jobs, step);
      Outbox.ClaimsStep(cfg.policy, s.jobs, step);
      forall c: nat | c < |s.contents| && s.contents[c].status == Pending && !HasOpenItem(s.queue, c)
        ensures Attended(s', c)
      {
        assert Attended(s, c);
        var j :| Awaited(s, j, c);
        assert j == f.owner.value.job ==> f.content == c && f.sawPending;
        Outbox.UndeliveredStep(cfg.policy, s.jobs, step, j);
        assert Awaited(s', j, c);
      }
    } else {
      forall c: nat | c < |s.contents| && s.contents[c].status == Pending && !HasOpenItem(s.queue, c)
        ensures Attended(s', c)
      {
        assert Attended(s, c);
        var j :| Awaited(s, j, c);
        assert Awaited(s', j, c);
      }
    }
  }

  lemma RecordKeeps(cfg: Config, s: State, k: nat, judgement: Judgement)
    requires Inv(s) && k in s.flights
    ensures Inv(Record(cfg, s, k, judgement))
  {
    var f := s.flights[k];
    if f.sawPending {
      var route := RouteOf(cfg.threshold, f.text, judgement);
      if route.Throws? {
        LandKeeps(cfg, s, k, Outbox.Failed);
      } else {
        RecordDecisionKeeps(s, f.content, route.outcome, route.judge);
        LandKeeps(cfg, RecordDecision(s, f.content, route.outcome, route.judge), k, Outbox.Succeeded);
      }
    } else {
      LandKeeps(cfg, s, k, Outbox.Succeeded);
    }
  }

  lemma StepKeeps(cfg: Config, s: State, a: Action)
    requires Inv(s) && Enabled(s, a)
    ensures Inv(Apply(cfg, s, a))
  {
    match a
    case SubmitContent(text, now) => PostKeeps(s, Submit(s, text, now), |s.contents|, now);
    case EditContent(c, text, now) => PostKeeps(s, Edit(s, c, text, now), c, now);
    case DecideItem(i, approve) => DecideKeeps(s, i, approve);
    case ReadContent(k, w, j) => ReadKeeps(s, k, w, j);
    case RecordScan(k, judgement) => RecordKeeps(cfg, s, k, judgement);
    case Work(step) => WorkKeeps(cfg, s, step);
  }

  lemma {:induction false} RunKeeps(cfg: Config, s: State, run: seq<Action>)
    requires Inv(s) && LegalRun(cfg, s, run)
    ensures Inv(RunAll(cfg, s, run))
    decreases |run|
  {
    if run != [] {
      StepKeeps(cfg, s, run[0]);
      RunKeeps(cfg, Apply(cfg, s, run[0]), run[1..]);
    }
  }

  /**
   * No content is ever orphaned: in every run, pending content has an unresolved queue item, or a scan job
   * that is pending or dead-lettered, that no claim has decided to finish and whose scan, if one is in
   * flight, saw the content pending. No content ever has two unresolved items.
   */
  lemma NeverOrphaned(cfg: Config, run: seq<Action>, c: nat)
    requires LegalRun(cfg, Empty(), run)
    requires var s := RunAll(cfg, Empty(), run); c < |s.contents| && s.contents[c].status == Pending
    ensures var s := RunAll(cfg, Empty(), run); HasOpenItem(s.queue, c) || exists j :: Awaited(s, j, c)
  {
    RunKeeps(cfg, Empty(), run);
  }

  lemma AtMostOneOpenItem(cfg: Config, run: seq<Action>, i: nat, i': nat)
    requires LegalRun(cfg, Empty(), run)
    requires var q := RunAll(cfg, Empty(), run).queue;
      i < |q| && i' < |q| && q[i].content == q[i'].content && !q[i].resolved && !q[i'].resolved
    ensures i == i'
  {
    RunKeeps(cfg, Empty(), run);
    var q := RunAll(cfg, Empty(), run).queue;
    assert IsOpenItem(q, i, q[i].content) && IsOpenItem(q, i', q[i].content);
  }
}
