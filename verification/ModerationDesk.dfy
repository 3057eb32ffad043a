/**
 * The moderation tables updated in place: the statements of the moderation repository and the two
 * transactions built from them, each proved to be its step of module Moderation.
 */
module ModerationDesk {
  import opened Tables
  import opened Moderation
  import Outbox

  datatype DecideResult = Settled(item: Item) | ItemNotFound | ItemResolved

  class Desk {
    const cfg: Config
    var contents: seq<Content>
    var decisions: seq<Decision>
    var queue: seq<Item>
    var jobs: Jobs
    var flights: map<nat, Flight>

    ghost function View(): State
      reads this
    {
      State(contents, decisions, queue, jobs, flights)
    }

    constructor (cfg: Config)
      ensures this.cfg == cfg && View() == Empty()
    {
      this.cfg := cfg;
      contents, decisions, queue, jobs, flights := [], [], [], Outbox.Table([], map[]), map[];
    }

    method InsertDecision(d: Decision) returns (id: nat)
      modifies this`decisions
      ensures id == |old(decisions)| && decisions == old(decisions) + [d]
    {
      id := |decisions|;
      decisions := decisions + [d];
    }

    /** Reports whether the content row exists. */
    method SetModerationStatus(c: nat, status: Status) returns (flipped: bool)
      modifies this`contents
      ensures flipped <==> c < |old(contents)|
      ensures View() == Moderation.SetModerationStatus(old(View()), c, status)
    {
      flipped := c < |contents|;
      if flipped {
        contents := contents[c := contents[c].(status := status, writes := contents[c].writes + 1)];
      }
    }

    /** The open item either way: the one inserted, or the one that was already there. */
    method InsertQueueItem(c: nat, decision: nat) returns (id: nat, created: bool)
      modifies this`queue
      ensures View() == Moderation.InsertQueueItem(old(View()), c, decision)
      ensures created <==> !HasOpenItem(old(queue), c)
      ensures IsOpenItem(queue, id, c)
    {
      for i := 0 to |queue|
        invariant forall k :: 0 <= k < i ==> !IsOpenItem(queue, k, c)
        invariant queue == old(queue)
      {
        if queue[i].content == c && !queue[i].resolved {
          assert IsOpenItem(queue, i, c);
          return i, false;
        }
      }
      id, created := |queue|, true;
      queue := queue + [Item(c, false, decision)];
    }

    method ResolveQueueItem(i: nat, decision: nat) returns (item: Option<Item>)
      modifies this`queue
      ensures item.Some? <==> i < |old(queue)| && !old(queue)[i].resolved
      ensures item.None? ==> queue == old(queue)
      ensures item.Some? ==> item.value == old(queue)[i].(resolved := true, decision := decision) && queue == old(queue)[i := item.value]
    {
      if i < |queue| && !queue[i].resolved {
        queue := queue[i := queue[i].(resolved := true, decision := decision)];
        item := Some(queue[i]);
      } else {
        item := None;
      }
    }

    /** The human decision: decision row, status flip, item resolved; or a refusal that changes nothing. */
    method Decide(i: nat, approve: bool) returns (r: DecideResult)
      modifies this`contents, this`decisions, this`queue
      ensures match r
        case ItemNotFound => i >= |old(queue)| && View() == old(View())
        case ItemResolved => i < |old(queue)| && old(queue)[i].resolved && View() == old(View())
        case Settled(item) =>
          && Enabled(old(View()), DecideItem(i, approve)) && View() == Apply(cfg, old(View()), DecideItem(i, approve))
          && item == queue[i] && item.resolved
    {
      if i >= |queue| {
        return ItemNotFound;
      }
      var locked := queue[i];
      if locked.resolved {
        return ItemResolved;
      }
      var d := InsertDecision(Decision(locked.content, if approve then Approve else Reject, Human));
      var _ := SetModerationStatus(locked.content, if approve then Approved else Rejected);
      var resolved := ResolveQueueItem(i, d);
      return Settled(resolved.value);
    }

    method SendToHuman(c: nat, judge: DecidedBy)
      modifies this`decisions, this`queue
      ensures View() == RecordDecision(old(View()), c, Escalate, judge)
    {
      var d := InsertDecision(Decision(c, Escalate, judge));
      var _, _ := InsertQueueItem(c, d);
    }

    method Publish(c: nat, approve: bool, judge: DecidedBy)
      modifies this`decisions, this`contents
      ensures View() == RecordDecision(old(View()), c, if approve then Approve else Reject, judge)
    {
      var _ := InsertDecision(Decision(c, if approve then Approve else Reject, judge));
      var _ := SetModerationStatus(c, if approve then Approved else Rejected);
    }

    /** The rest of a scan once its content has been read: stage by stage, one decision at most, or a throw. */
    method ProcessScan(k: nat, judgement: Judgement) returns (thrown: bool)
      requires k in flights
      modifies this
      ensures View() == Apply(cfg, old(View()), RecordScan(k, judgement))
      ensures thrown <==> old(flights)[k].sawPending && RouteOf(cfg.threshold, old(flights)[k].text, judgement).Throws?
      ensures |decisions| == |old(decisions)| + (if old(flights)[k].sawPending && !thrown then 1 else 0)
    {
      var content := flights[k];
      flights := flights - {k};
      thrown := false;
      if content.sawPending {
        if judgement.blocked {
          Publish(content.content, false, PreFilter);
        } else if judgement.limited || judgement.gated {
          SendToHuman(content.content, PreFilter);
        } else if judgement.answer.None? {
          thrown := true;
        } else {
          var result := judgement.answer.value;
          var judge := Llm(content.text, result.confidence);
          if result.benign && result.confidence >= cfg.threshold {
            Publish(content.content, true, judge);
          } else {
            SendToHuman(content.content, judge);
          }
        }
      }
      Report(content.owner, if thrown then Outbox.Failed else Outbox.Succeeded);
    }

    /** The claim that waits for the scan, if it still does, notes its verdict. */
    method Report(owner: Option<Owner>, v: Outbox.Verdict)
      modifies this`jobs
      ensures View() == SettleOwner(old(View()), owner, v)
    {
      if owner.Some? && Outbox.Running(jobs, owner.value.worker, owner.value.job) {
        jobs := Outbox.Settle(jobs, owner.value.worker, owner.value.job, v);
      }
    }
  }
}
