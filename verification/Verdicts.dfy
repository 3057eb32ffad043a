/**
 * What the status of moderated content means: in every run, however scans, edits and human decisions interleave,
 * it is the last decision recorded since the text was written. And what each step decides.
 */
module Verdicts {
  import opened Tables
  import opened Moderation
  import Outbox

  /** What the decisions from one on make of content c: the last that is not an escalation, or none. */
  function Since(decisions: seq<Decision>, from: nat, c: nat): Status
  {
    if |decisions| <= from then Pending
    else
      var n := |decisions| - 1;
      if decisions[n].content == c && decisions[n].outcome == Approve then Approved
      else if decisions[n].content == c && decisions[n].outcome == Reject then Rejected
      else Since(decisions[..n], from, c)
  }

  ghost predicate FollowsAt(s: State, c: nat)
    requires c < |s.contents|
  {
    && s.contents[c].decidedBefore <= |s.decisions|
    && s.contents[c].status == Since(s.decisions, s.contents[c].decidedBefore, c)
  }

  ghost predicate Follows(s: State)
  {
    forall c: nat :: c < |s.contents| ==> FollowsAt(s, c)
  }

  /** A decision and the status it sets. */
  lemma DecisionFollows(s: State, s': State, d: Decision)
    requires Follows(s) && s'.decisions == s.decisions + [d] && |s'.contents| == |s.contents|
    requires forall c: nat :: c < |s.contents| ==> s'.contents[c].decidedBefore == s.contents[c].decidedBefore
    requires forall c: nat :: c < |s.contents| ==>
               s'.contents[c].status == if d.content != c || d.outcome == Escalate then s.contents[c].status
                                        else if d.outcome == Approve then Approved else Rejected
    ensures Follows(s')
  {
    assert s'.decisions[..|s.decisions|] == s.decisions;
    forall c: nat | c < |s'.contents|
      ensures FollowsAt(s', c)
    {
      assert FollowsAt(s, c);
    }
  }

  lemma RecordFollows(cfg: Config, s: State, k: nat, judgement: Judgement)
    requires Follows(s) && k in s.flights
    ensures Follows(Record(cfg, s, k, judgement))
  {
    var f, s' := s.flights[k], Record(cfg, s, k, judgement);
    var route := RouteOf(cfg.threshold, f.text, judgement);
    if f.sawPending && route.Decided? {
      DecisionFollows(s, s', Decision(f.content, route.outcome, route.judge));
    } else {
      assert forall c: nat :: c < |s.contents| && FollowsAt(s, c) ==> FollowsAt(s', c);
    }
  }

  lemma StepFollows(cfg: Config, s: State, a: Action)
    requires Follows(s) && Enabled(s, a)
    ensures Follows(Apply(cfg, s, a))
  {
    var s' := Apply(cfg, s, a);
    match a
    case DecideItem(i, approve) =>
      DecisionFollows(s, s', Decision(s.queue[i].content, if approve then Approve else Reject, Human));
    case RecordScan(k, judgement) => RecordFollows(cfg, s, k, judgement);
    case _ =>
      assert s'.decisions == s.decisions;
      assert forall c: nat :: c < |s.contents| && FollowsAt(s, c) && s'.contents[c] == s.contents[c] ==> FollowsAt(s', c);
  }

  lemma {:induction false} RunFollows(cfg: Config, s: State, run: seq<Action>)
    requires Follows(s) && LegalRun(cfg, s, run)
    ensures Follows(RunAll(cfg, s, run))
    decreases |run|
  {
    if run != [] {
      StepFollows(cfg, s, run[0]);
      RunFollows(cfg, Apply(cfg, s, run[0]), run[1..]);
    }
  }

  /**
   * In every run the status of content is what the last decision on it says, of those recorded since its text was
   * written: approved or rejected by a human or a scan, and pending if there is none but escalations.
   */
  lemma StatusIsLastDecision(cfg: Config, run: seq<Action>, c: nat)
    requires LegalRun(cfg, Empty(), run) && c < |RunAll(cfg, Empty(), run).contents|
    ensures var s := RunAll(cfg, Empty(), run);
      s.contents[c].decidedBefore <= |s.decisions| && s.contents[c].status == Since(s.decisions, s.contents[c].decidedBefore, c)
  {
    RunFollows(cfg, Empty(), run);
    assert FollowsAt(RunAll(cfg, Empty(), run), c);
  }

  // ---- one step --------------------------------------------------------------------------------

  /** No other content, and no other queue item, changes. */
  ghost predicate OnlyContent(s: State, s': State, c: nat)
  {
    |s'.contents| == |s.contents| && forall d: nat :: d < |s.contents| && d != c ==> s'.contents[d] == s.contents[d]
  }

  /** A moderator's approval approves and a rejection rejects; the decision is on record and the item points to it. */
  lemma ModeratorDecides(cfg: Config, s: State, i: nat, approve: bool)
    requires Linked(s) && Enabled(s, DecideItem(i, approve))
    ensures var s', c := Apply(cfg, s, DecideItem(i, approve)), s.queue[i].content;
      && OnlyContent(s, s', c) && s'.contents[c].text == s.contents[c].text
      && s'.contents[c].status == (if approve then Approved else Rejected)
      && s'.decisions == s.decisions + [Decision(c, if approve then Approve else Reject, Human)]
      && s'.queue == s.queue[i := Item(c, true, |s.decisions|)] && s'.jobs == s.jobs && s'.flights == s.flights
  {
  }

  /** A scan's last step leaves the content and the queue alone. */
  ghost predicate Undecided(s: State, s': State)
  {
    s'.contents == s.contents && s'.queue == s.queue && s'.decisions == s.decisions
  }

  /** It hands the content over to a human: an open item, old or new, and an escalation on record. */
  ghost predicate HandsOver(s: State, s': State, c: nat, judge: DecidedBy)
  {
    && s'.contents == s.contents && s'.decisions == s.decisions + [Decision(c, Escalate, judge)]
    && HasOpenItem(s'.queue, c)
    && s'.queue == s.queue + if HasOpenItem(s.queue, c) then [] else [Item(c, false, |s.decisions|)]
  }

  ghost predicate Settles(s: State, s': State, c: nat, outcome: Outcome, judge: DecidedBy)
  {
    && c < |s.contents| && OnlyContent(s, s', c) && s'.queue == s.queue && s'.decisions == s.decisions + [Decision(c, outcome, judge)]
    && s'.contents[c].text == s.contents[c].text && s'.contents[c].status == (if outcome == Approve then Approved else Rejected)
  }

  /**
   * What a scan that read pending content comes to. A blocked text is rejected. One that the checks limit or gate goes
   * to a human. Otherwise the classifier decides: benign with enough confidence is approved, anything else goes to a
   * human, and without an answer nothing is decided and the job is to be tried again.
   */
  lemma ScanDecides(cfg: Config, s: State, k: nat, judgement: Judgement)
    requires Linked(s) && k in s.flights
    ensures var f := s.flights[k]; var s', c := Apply(cfg, s, RecordScan(k, judgement)), f.content;
      if !f.sawPending then Undecided(s, s')
      else if judgement.blocked then Settles(s, s', c, Reject, PreFilter)
      else if judgement.limited || judgement.gated then HandsOver(s, s', c, PreFilter)
      else match judgement.answer
        case None => Undecided(s, s')
        case Some(answer) =>
          if answer.benign && answer.confidence >= cfg.threshold then Settles(s, s', c, Approve, Llm(f.text, answer.confidence))
          else HandsOver(s, s', c, Llm(f.text, answer.confidence))
  {
    var f, s' := s.flights[k], Apply(cfg, s, RecordScan(k, judgement));
    var route := RouteOf(cfg.threshold, f.text, judgement);
    if f.sawPending && route.Decided? && route.outcome == Escalate && !HasOpenItem(s.queue, f.content) {
      assert IsOpenItem(s'.queue, |s.queue|, f.content);
    }
  }

  /** Its claim learns of it: done, unless the classifier gave no answer. */
  lemma ScanReports(cfg: Config, s: State, k: nat, judgement: Judgement)
    requires Inv(s) && k in s.flights && s.flights[k].owner.Some?
    ensures var f, o := s.flights[k], s.flights[k].owner.value; var s' := Apply(cfg, s, RecordScan(k, judgement));
      && s'.flights == s.flights - {k} && s'.jobs.jobs == s.jobs.jobs && Outbox.Holds(s'.jobs, o.worker, o.job)
      && (s'.jobs.claims[o.worker].verdicts[o.job] == Outbox.Failed <==>
            f.sawPending && !judgement.blocked && !judgement.limited && !judgement.gated && judgement.answer.None?)
      && s'.jobs.claims[o.worker].verdicts[o.job] != Outbox.Waiting
  {
    assert Owns(s, k, s.flights[k].owner.value.worker, s.flights[k].owner.value.job);
  }

  /** An edit makes the content pending again, whatever was decided before, and posts a scan of it. */
  lemma EditStartsOver(cfg: Config, s: State, c: nat, text: int, now: int)
    requires Inv(s) && Enabled(s, EditContent(c, text, now))
    ensures var s' := Apply(cfg, s, EditContent(c, text, now));
      && OnlyContent(s, s', c) && s'.contents[c].text == text && s'.contents[c].status == Pending
      && s'.decisions == s.decisions && s'.queue == s.queue && Since(s'.decisions, s'.contents[c].decidedBefore, c) == Pending
      && s'.jobs.claims == s.jobs.claims && s'.jobs.jobs == s.jobs.jobs + [Outbox.NewJob(Outbox.Posting(c, None, now))]
  {
    PostedScan(s.jobs, c, now);
  }
}
