/**
 * What stands behind a publication: an approving decision recorded after the text was last written. It
 * holds in runs where nothing writes to a content row between a scan's read and its record, and the exact
 * condition under which a single scan's approval is sound is that the text it judged is the current one.
 */
module Publication {
  import opened Tables
  import opened Moderation
  import Outbox

  /** Decision d approves the current text of c: made by a human, or by the classifier on exactly that text. */
  ghost predicate Backs(cfg: Config, s: State, c: nat, d: nat)
  {
    && c < |s.contents| && s.contents[c].decidedBefore <= d < |s.decisions|
    && s.decisions[d].content == c && s.decisions[d].outcome == Approve
    && (s.decisions[d].judge == Human
        || (s.decisions[d].judge.Llm? && s.decisions[d].judge.judged == s.contents[c].text
            && s.decisions[d].judge.confidence >= cfg.threshold))
  }

  ghost predicate Backed(cfg: Config, s: State, c: nat)
  {
    exists d :: Backs(cfg, s, c, d)
  }

  ghost predicate Sound(cfg: Config, s: State)
  {
    forall c: nat :: c < |s.contents| && s.contents[c].status == Approved ==> Backed(cfg, s, c)
  }

  /** Nothing wrote to the content between the scan's read and now. */
  predicate Current(s: State, f: Flight)
  {
    f.content < |s.contents| && s.contents[f.content].writes == f.writes
  }

  predicate Undisturbed(s: State, a: Action)
  {
    a.RecordScan? && a.flight in s.flights && s.flights[a.flight].sawPending ==> Current(s, s.flights[a.flight])
  }

  /** What a flight remembers is what the row still says, unless the row was written since. */
  ghost predicate Remembers(s: State, f: Flight)
  {
    && f.content < |s.contents| && f.writes <= s.contents[f.content].writes
    && (Current(s, f) ==> f.text == s.contents[f.content].text && (f.sawPending <==> s.contents[f.content].status == Pending))
  }

  /** Since the text of pending content was written, nobody has decided it. */
  ghost predicate Undecided(s: State, c: nat)
  {
    c < |s.contents| && s.contents[c].status == Pending ==>
      forall d :: s.contents[c].decidedBefore <= d < |s.decisions| && s.decisions[d].content == c ==> s.decisions[d].outcome == Escalate
  }

  ghost predicate Orderly(s: State)
  {
    && (forall c: nat :: c < |s.contents| ==> s.contents[c].decidedBefore <= |s.decisions|)
    && (forall k :: k in s.flights ==> Remembers(s, s.flights[k]))
    && (forall c: nat :: Undecided(s, c))
  }

  // ---- one step --------------------------------------------------------------------------------

  /** A decision of which content c's status follows, and possibly a write to c. */
  lemma DecisionOrderly(s: State, s': State, c: nat, d: Decision)
    requires Orderly(s) && c < |s.contents| && d.content == c && s'.decisions == s.decisions + [d]
    requires s'.flights == s.flights || exists k :: s'.flights == s.flights - {k}
    requires d.outcome == Escalate ==> s'.contents == s.contents
    requires d.outcome != Escalate ==>
               |s'.contents| == |s.contents| && s'.contents[c].status != Pending
               && s'.contents == s.contents[c := s.contents[c].(status := s'.contents[c].status, writes := s.contents[c].writes + 1)]
    ensures Orderly(s')
  {
    forall k | k in s'.flights
      ensures Remembers(s', s'.flights[k])
    {
      assert Remembers(s, s.flights[k]);
    }
    forall e: nat
      ensures Undecided(s', e)
    {
      assert Undecided(s, e);
    }
  }

  lemma WriteOrderly(s: State, s': State, c: nat, text: int)
    requires Orderly(s) && c <= |s.contents| && s'.decisions == s.decisions && s'.flights == s.flights
    requires c < |s.contents| ==> s'.contents == s.contents[c := Content(text, Pending, s.contents[c].writes + 1, |s.decisions|)]
    requires c == |s.contents| ==> s'.contents == s.contents + [Content(text, Pending, 0, |s.decisions|)]
    ensures Orderly(s')
  {
    forall k | k in s'.flights
      ensures Remembers(s', s'.flights[k])
    {
      assert Remembers(s, s.flights[k]);
    }
    forall e: nat
      ensures Undecided(s', e)
    {
      assert Undecided(s, e);
    }
  }

  lemma RecordOrderly(cfg: Config, s: State, k: nat, judgement: Judgement)
    requires Orderly(s) && k in s.flights
    ensures Orderly(Record(cfg, s, k, judgement))
  {
    var f, s' := s.flights[k], Record(cfg, s, k, judgement);
    assert Remembers(s, f);
    var route := RouteOf(cfg.threshold, f.text, judgement);
    if f.sawPending && route.Decided? {
      DecisionOrderly(s, s', f.content, Decision(f.content, route.outcome, route.judge));
    } else {
      SameContents(s, s');
    }
  }

  lemma SameContents(s: State, s': State)
    requires Orderly(s) && s'.contents == s.contents && s'.decisions == s.decisions
    requires forall k :: k in s'.flights ==> k in s.flights && s'.flights[k] == s.flights[k].(owner := s'.flights[k].owner)
    ensures Orderly(s')
  {
    forall k | k in s'.flights
      ensures Remembers(s', s'.flights[k])
    {
      assert Remembers(s, s.flights[k]);
    }
    assert forall e: nat :: Undecided(s, e) ==> Undecided(s', e);
  }

  lemma StepOrderly(cfg: Config, s: State, a: Action)
    requires Inv(s) && Orderly(s) && Enabled(s, a)
    ensures Orderly(Apply(cfg, s, a))
  {
    match a
    case SubmitContent(text, now) => WriteOrderly(s, Submit(s, text, now), |s.contents|, text);
    case EditContent(c, text, now) => WriteOrderly(s, Edit(s, c, text, now), c, text);
    case DecideItem(i, approve) =>
      DecisionOrderly(s, Decide(s, i, approve), s.queue[i].content,
                      Decision(s.queue[i].content, if approve then Approve else Reject, Human));
    case ReadContent(k, w, j) =>
      var s' := Read(s, k, w, j);
      forall k' | k' in s'.flights
        ensures Remembers(s', s'.flights[k'])
      {
        assert k' in s.flights ==> Remembers(s, s.flights[k']);
      }
      assert forall e: nat :: Undecided(s, e) ==> Undecided(s', e);
    case RecordScan(k, judgement) => RecordOrderly(cfg, s, k, judgement);
    case Work(step) => SameContents(s, Apply(cfg, s, Work(step)));
  }

  /** A scan that finds its content as it read it never touches content that is already decided. */
  lemma ScanLeavesDecidedAlone(cfg: Config, s: State, k: nat, judgement: Judgement, c: nat)
    requires Orderly(s) && k in s.flights && Undisturbed(s, RecordScan(k, judgement))
    requires c < |s.contents| && s.contents[c].status != Pending
    ensures Record(cfg, s, k, judgement).contents[c] == s.contents[c]
  {
    assert Remembers(s, s.flights[k]);
  }

  // ---- soundness -------------------------------------------------------------------------------

  lemma StillBacked(cfg: Config, s: State, s': State, c: nat)
    requires c < |s.contents| && c < |s'.contents| && Backed(cfg, s, c) && s.decisions <= s'.decisions
    requires s'.contents[c].text == s.contents[c].text && s'.contents[c].decidedBefore == s.contents[c].decidedBefore
    ensures Backed(cfg, s', c)
  {
    var d :| Backs(cfg, s, c, d);
    assert Backs(cfg, s', c, d);
  }

  lemma StepSound(cfg: Config, s: State, a: Action)
    requires Inv(s) && Orderly(s) && Sound(cfg, s) && Enabled(s, a) && Undisturbed(s, a)
    ensures Sound(cfg, Apply(cfg, s, a))
  {
    var s' := Apply(cfg, s, a);
    forall c: nat | c < |s'.contents| && s'.contents[c].status == Approved
      ensures Backed(cfg, s', c)
    {
      if c < |s.contents| && s.contents[c].status == Approved && s'.contents[c].text == s.contents[c].text
         && s'.contents[c].decidedBefore == s.contents[c].decidedBefore {
        StillBacked(cfg, s, s', c);
      } else {
        NewlyApproved(cfg, s, a, c);
      }
    }
  }

  /** Content becomes approved only by a decision that backs it. */
  lemma NewlyApproved(cfg: Config, s: State, a: Action, c: nat)
    requires Inv(s) && Orderly(s) && Enabled(s, a) && Undisturbed(s, a)
    requires var s' := Apply(cfg, s, a);
      && c < |s'.contents| && s'.contents[c].status == Approved
      && !(c < |s.contents| && s.contents[c].status == Approved && s'.contents[c].text == s.contents[c].text
           && s'.contents[c].decidedBefore == s.contents[c].decidedBefore)
    ensures Backs(cfg, Apply(cfg, s, a), c, |s.decisions|)
  {
    if a.RecordScan? {
      assert Remembers(s, s.flights[a.flight]);
    }
  }

  ghost predicate UndisturbedRun(cfg: Config, s: State, run: seq<Action>)
    requires LegalRun(cfg, s, run)
    decreases |run|
  {
    run == [] || (Undisturbed(s, run[0]) && UndisturbedRun(cfg, Apply(cfg, s, run[0]), run[1..]))
  }

  lemma {:induction false} RunSound(cfg: Config, s: State, run: seq<Action>)
    requires Inv(s) && Orderly(s) && Sound(cfg, s) && LegalRun(cfg, s, run) && UndisturbedRun(cfg, s, run)
    ensures Orderly(RunAll(cfg, s, run)) && Sound(cfg, RunAll(cfg, s, run))
    decreases |run|
  {
    if run != [] {
      StepKeeps(cfg, s, run[0]);
      StepOrderly(cfg, s, run[0]);
      StepSound(cfg, s, run[0]);
      RunSound(cfg, Apply(cfg, s, run[0]), run[1..]);
    }
  }

  /** In every undisturbed run, published content has an approval recorded after its text was last written. */
  lemma PublishedIsBacked(cfg: Config, run: seq<Action>, c: nat)
    requires LegalRun(cfg, Empty(), run) && UndisturbedRun(cfg, Empty(), run)
    requires var s := RunAll(cfg, Empty(), run); c < |s.contents| && s.contents[c].status == Approved
    ensures exists d :: Backs(cfg, RunAll(cfg, Empty(), run), c, d)
  {
    RunSound(cfg, Empty(), run);
  }

  /**
   * Without that hypothesis: after an approving scan the content is soundly published exactly when the scan judged
   * the current text, or an earlier approval of that text stands; for content still pending, exactly in the first case.
   */
  lemma ApprovalIsSoundIff(cfg: Config, s: State, k: nat, judgement: Judgement)
    requires Orderly(s) && k in s.flights && s.flights[k].sawPending && s.flights[k].content < |s.contents|
    requires RouteOf(cfg.threshold, s.flights[k].text, judgement).Decided?
    requires RouteOf(cfg.threshold, s.flights[k].text, judgement).outcome == Approve
    ensures var c := s.flights[k].content; var s' := Record(cfg, s, k, judgement);
      && s'.contents[c].status == Approved
      && (Backed(cfg, s', c) <==> s.flights[k].text == s.contents[c].text || Backed(cfg, s, c))
      && (s.contents[c].status == Pending ==> (Backed(cfg, s', c) <==> s.flights[k].text == s.contents[c].text))
  {
    var c := s.flights[k].content;
    var s' := Record(cfg, s, k, judgement);
    assert forall d: nat :: d < |s.decisions| ==> s'.decisions[d] == s.decisions[d];
    if s.flights[k].text == s.contents[c].text {
      assert Backs(cfg, s', c, |s.decisions|);
    } else {
      forall d: nat
        ensures Backs(cfg, s', c, d) <==> Backs(cfg, s, c, d)
      {
      }
      assert Undecided(s, c);
    }
  }

  /**
   * A scan overrides a decision exactly when it saw the content pending and its outcome is the opposite one; then
   * somebody has written to the content since the scan read it.
   */
  lemma ScanOverridesIff(cfg: Config, s: State, k: nat, judgement: Judgement)
    requires Orderly(s) && k in s.flights && s.flights[k].content < |s.contents| && s.contents[s.flights[k].content].status != Pending
    ensures var f := s.flights[k]; var before, after := s.contents[f.content].status, Record(cfg, s, k, judgement).contents[f.content].status;
      var route := RouteOf(cfg.threshold, f.text, judgement);
      && (after != before <==>
            f.sawPending && route.Decided? && route.outcome == (if before == Approved then Reject else Approve))
      && (after != before ==> !Current(s, f))
  {
    assert Remembers(s, s.flights[k]);
  }

  /** Such an edit is possible: a scan approves the old text, and the new text is published unreviewed. */
  lemma StaleApproval(cfg: Config)
    ensures var run := StaleRun(cfg);
      && LegalRun(cfg, Empty(), run)
      && var s := RunAll(cfg, Empty(), run);
         |s.contents| == 1 && s.contents[0].status == Approved && s.contents[0].text == 2 && !Backed(cfg, s, 0)
  {
    var a := StaleRun(cfg);
    var s1 := Apply(cfg, Empty(), a[0]);
    var s2 := Apply(cfg, s1, a[1]);
    var s3 := Apply(cfg, s2, a[2]);
    var s4 := Apply(cfg, s3, a[3]);
    assert Outbox.Running(s2.jobs, 0, 0) && s3.flights[0] == Flight(0, true, 1, 0, Some(Owner(0, 0)));
    assert s4.contents == [Content(2, Pending, 1, 0)] && s4.decisions == [];
    var s5 := Apply(cfg, s4, a[4]);
    assert s5.contents == [Content(2, Approved, 2, 0)] && s5.decisions == [Decision(0, Approve, Llm(1, cfg.threshold))];
    RunSteps(cfg, [Empty(), s1, s2, s3, s4, s5], a);
  }

  function StaleRun(cfg: Config): seq<Action>
  {
    [SubmitContent(1, 0), Work(Outbox.Take(0, 0, {0})), ReadContent(0, 0, 0), EditContent(0, 2, 0),
     RecordScan(0, Judgement(false, false, false, Some(Answer(true, cfg.threshold))))]
  }

  /**
   * Decided content is overridden by such a run: two scans of an edited row read it pending, one sends it to a
   * human, who rejects it, and the other, recording last, approves it.
   */
  lemma OverriddenRejection(cfg: Config)
    ensures var run := OverrideRun(cfg);
      && LegalRun(cfg, Empty(), run[..7]) && LegalRun(cfg, Empty(), run)
      && RunAll(cfg, Empty(), run[..7]).contents == [Content(1, Rejected, 2, 0)]
      && RunAll(cfg, Empty(), run).contents == [Content(1, Approved, 3, 0)]
  {
    var states := OverrideSteps(cfg);
    RunSteps(cfg, states, OverrideRun(cfg));
    RunSteps(cfg, states[..8], OverrideRun(cfg)[..7]);
  }

  lemma OverrideSteps(cfg: Config) returns (states: seq<State>)
    ensures AreSteps(cfg, states, OverrideRun(cfg)) && states[0] == Empty()
    ensures states[7].contents == [Content(1, Rejected, 2, 0)] && states[8].contents == [Content(1, Approved, 3, 0)]
  {
    var a := OverrideRun(cfg);
    var read := TwoReads(cfg);
    var s6 := Apply(cfg, read[5], a[5]);
    var s7 := Apply(cfg, s6, a[6]);
    states := read + [s6] + [s7] + [Apply(cfg, s7, a[7])];
    assert a[..5] + [a[5]] == a[..6] && a[..6] + [a[6]] == a[..7] && a[..7] + [a[7]] == a;
  }

  /** Each state of a sequence is the one before it after the next action. */
  ghost predicate AreSteps(cfg: Config, states: seq<State>, actions: seq<Action>)
  {
    && |states| == |actions| + 1
    && forall i :: 0 <= i < |actions| ==> Enabled(states[i], actions[i]) && states[i + 1] == Apply(cfg, states[i], actions[i])
  }

  lemma TwoReads(cfg: Config) returns (states: seq<State>)
    ensures AreSteps(cfg, states, OverrideRun(cfg)[..5]) && states[0] == Empty()
    ensures var s := states[5];
      && s.contents == [Content(1, Pending, 1, 0)] && s.decisions == [] && s.queue == []
      && s.flights == map[0 := Flight(0, true, 1, 1, Some(Owner(0, 0))), 1 := Flight(0, true, 1, 1, Some(Owner(0, 1)))]
  {
    var a := OverrideRun(cfg);
    var s1 := Apply(cfg, Empty(), a[0]);
    var s2 := Apply(cfg, s1, a[1]);
    TwoJobs(cfg);
    var s3 := Apply(cfg, s2, a[2]);
    var s4 := Apply(cfg, s3, a[3]);
    var s5 := Apply(cfg, s4, a[4]);
    states := [Empty(), s1, s2, s3, s4, s5];
    assert s5.flights == map[0 := Flight(0, true, 1, 1, Some(Owner(0, 0))), 1 := Flight(0, true, 1, 1, Some(Owner(0, 1)))];
  }

  function OverrideRun(cfg: Config): seq<Action>
  {
    [SubmitContent(1, 0), EditContent(0, 1, 0), Work(Outbox.Take(0, 0, {0, 1})), ReadContent(0, 0, 0), ReadContent(1, 0, 1),
     RecordScan(1, Judgement(false, true, false, None)), DecideItem(0, false),
     RecordScan(0, Judgement(false, false, false, Some(Answer(true, cfg.threshold))))]
  }

  lemma TwoJobs(cfg: Config)
    ensures var a := OverrideRun(cfg); var s2 := Edit(Submit(Empty(), 1, 0), 0, 1, 0);
      && Apply(cfg, Apply(cfg, Empty(), a[0]), a[1]) == s2 && Enabled(s2, a[2])
      && var s3 := Apply(cfg, s2, a[2]);
         s3.contents == [Content(1, Pending, 1, 0)] && s3.decisions == [] && s3.queue == [] && s3.flights == map[]
         && Outbox.Running(s3.jobs, 0, 0) && Outbox.Running(s3.jobs, 0, 1) && |s3.jobs.jobs| == 2
         && s3.jobs.jobs[0].payload == 0 && s3.jobs.jobs[1].payload == 0
  {
    var s2 := Edit(Submit(Empty(), 1, 0), 0, 1, 0);
    assert s2.jobs.jobs == [Outbox.NewJob(Outbox.Posting(0, None, 0)), Outbox.NewJob(Outbox.Posting(0, None, 0))];
    assert s2.jobs.claims == map[];
  }

  lemma {:induction false} RunSteps(cfg: Config, states: seq<State>, actions: seq<Action>)
    requires AreSteps(cfg, states, actions)
    ensures LegalRun(cfg, states[0], actions) && RunAll(cfg, states[0], actions) == states[|actions|]
    decreases |actions|
  {
    if actions != [] {
      RunSteps(cfg, states[1..], actions[1..]);
    }
  }
}
