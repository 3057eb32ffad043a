/**
 * Sending one notification: the attempt row, the bounded retry loop whose timed-out tries leave their row
 * updates in flight, and the terminal status. How each try would end is an input; when an update in flight
 * lands, and whether one that was abandoned fails, are arbitrary.
 */
module Transport {
  import opened Tables

  datatype Status = Queued | Retrying | Sent | Failed

  datatype Row = Row(key: Option<nat>, status: Status, attempts: nat, lastError: Option<string>)

  /** A try whose row update has not settled yet, or that has gone on to the adapter. */
  datatype Phase = Writing(lastError: Option<string>) | Delivering

  datatype Try = Try(row: nat, phase: Phase)

  datatype Reason = NoReason | PushDisabled | NoRecipientEmail

  datatype Reply = Reply(status: Status, attempt: nat, deduped: bool, reason: Reason)

  datatype Settings = Settings(retries: nat, pushEnabled: bool)

  datatype Request = Request(key: Option<nat>, push: bool, hasAddress: bool)

  /** recordTry: one more attempt; retrying from the second on; the error is kept unless a new one is given. */
  function OneMoreTry(row: Row, lastError: Option<string>): Row
  {
    row.(attempts := row.attempts + 1,
         status := if row.attempts + 1 > 1 then Retrying else row.status,
         lastError := if lastError.Some? then lastError else row.lastError)
  }

  /** The tries whose update of some row, or of one row, has not settled yet. */
  function Unsettled(tries: map<nat, Try>): set<nat>
  {
    set t | t in tries && tries[t].phase.Writing?
  }

  function InFlight(tries: map<nat, Try>, row: nat): set<nat>
  {
    set t | t in tries && tries[t].phase.Writing? && tries[t].row == row
  }

  lemma {:induction false} SubsetSize<T>(a: set<T>, b: set<T>)
    requires a <= b
    ensures |a| <= |b|
  {
    if a != {} {
      var x :| x in a;
      SubsetSize(a - {x}, b - {x});
    }
  }

  predicate Refused(settings: Settings, request: Request)
  {
    (request.push && !settings.pushEnabled) || !request.hasAddress
  }

  // ---- how the tries end -----------------------------------------------------------------------

  /** A try is accepted, refused by the adapter, fails on its row update, or runs out of its time wherever it is. */
  datatype TryEnd =
    | Accepted
    | Errored(error: string, retryable: bool)
    | Unwritten(error: string, retryable: bool)
    | TimedOut(error: string)

  /** How the first try of a send would end, the second, and so on. */
  type Ends = nat -> TryEnd

  /** A failure after which the loop tries again; a timeout is one. */
  predicate TriesAgain(end: TryEnd)
  {
    end.TimedOut? || ((end.Errored? || end.Unwritten?) && end.retryable)
  }

  /** The loop gets as far as try number k. */
  ghost predicate ComesTo(retries: nat, ends: Ends, k: nat)
  {
    1 <= k <= retries + 1 && forall i: nat :: 1 <= i < k ==> TriesAgain(ends(i))
  }

  /** Some try among the first retries + 1 is accepted, with only retryable failures before it. */
  ghost predicate GetsThrough(retries: nat, ends: Ends)
  {
    exists k: nat :: ComesTo(retries, ends, k) && ends(k) == Accepted
  }

  /** The tries among the first n that were certainly handed to the adapter. */
  function HandedOver(ends: Ends, n: nat): nat
  {
    if n == 0 then 0 else HandedOver(ends, n - 1) + (if ends(n).Accepted? || ends(n).Errored? then 1 else 0)
  }

  /**
   * The tries a send makes: at least one, all but the last failing retryably; the last is accepted, or not to be
   * retried, or the last there is.
   */
  ghost predicate Tries(retries: nat, ends: Ends, tries: nat, delivered: bool)
  {
    && ComesTo(retries, ends, tries)
    && (delivered <==> ends(tries) == Accepted)
    && (!delivered ==> tries == retries + 1 || !TriesAgain(ends(tries)))
  }

  /** Hence a send gets through if and only if one of the tries it may make does. */
  lemma DeliversIff(retries: nat, ends: Ends, tries: nat, delivered: bool)
    requires Tries(retries, ends, tries, delivered)
    ensures delivered <==> GetsThrough(retries, ends)
  {
    if GetsThrough(retries, ends) {
      var k: nat :| ComesTo(retries, ends, k) && ends(k) == Accepted;
      assert !TriesAgain(ends(k));
      assert k == tries;
    }
  }

  /**
   * What one send does to its row, tries being the number of tries it made, and landed the number of its row
   * updates that succeeded, and so of its tries that went on to the adapter.
   */
  ghost predicate Behaves(settings: Settings, request: Request, ends: Ends, before: Option<Row>, after: Row, reply: Reply, tries: nat, landed: nat)
  {
    if before.Some? && before.value.status == Sent then
      after == before.value && reply.status == Sent && reply.deduped && tries == landed == 0
    else
      && !reply.deduped && after.key == request.key
      && (reply.status == Sent || reply.status == Failed) && after.status == reply.status
      && after.attempts == (if before.Some? then before.value.attempts else 0) + landed
      && if Refused(settings, request) then
           && reply.status == Failed && tries == landed == 0 && after.lastError.Some?
           && reply.reason == (if request.push && !settings.pushEnabled then PushDisabled else NoRecipientEmail)
         else
           && Tries(settings.retries, ends, tries, reply.status == Sent) && reply.reason == NoReason
           && (reply.status == Sent <==> GetsThrough(settings.retries, ends))
           && HandedOver(ends, tries) <= landed <= tries
           && after.lastError == (if reply.status == Sent then None else ErrorOf(ends(tries)))
  }

  function ErrorOf(end: TryEnd): Option<string>
  {
    if end.Accepted? then None else Some(end.error)
  }

  ghost predicate UniqueKeys(rows: seq<Row>)
  {
    forall i, j :: 0 <= i < j < |rows| && rows[i].key.Some? ==> rows[i].key != rows[j].key
  }

  /** The row a key names, if any. */
  function RowOf(rows: seq<Row>, key: Option<nat>): (r: Option<nat>)
    ensures r.Some? ==> r.value < |rows| && key.Some? && rows[r.value].key == key
    ensures r.None? && key.Some? ==> forall i :: 0 <= i < |rows| ==> rows[i].key != key
  {
    if key.None? || rows == [] then None
    else if rows[|rows| - 1].key == key then Some(|rows| - 1)
    else RowOf(rows[..|rows| - 1], key)
  }

  function At(rows: seq<Row>, i: Option<nat>): Option<Row>
  {
    if i.Some? && i.value < |rows| then Some(rows[i.value]) else None
  }

  // ---- what happens to rows while updates are in flight ----------------------------------------

  /** landed counts, for each row, its updates that have landed. */
  datatype Shot = Shot(rows: seq<Row>, tries: map<nat, Try>, landed: seq<nat>)

  ghost predicate WellFormed(a: Shot)
  {
    UniqueKeys(a.rows) && |a.landed| == |a.rows| && forall t :: t in a.tries ==> a.tries[t].row < |a.rows|
  }

  /** Row i after up to n more tries of it: each update that landed counted once, and none counted that did not. */
  ghost predicate RowProgress(a: Shot, b: Shot, i: nat, n: nat)
  {
    && i < |a.rows| == |b.rows| && |a.landed| == |b.landed| == |a.rows|
    && b.rows[i].key == a.rows[i].key && a.landed[i] <= b.landed[i]
    && b.rows[i].attempts == a.rows[i].attempts + (b.landed[i] - a.landed[i])
    && b.landed[i] + |InFlight(b.tries, i)| <= a.landed[i] + |InFlight(a.tries, i)| + n
    && (n == 0 && InFlight(a.tries, i) == {} ==> b.rows[i] == a.rows[i] && InFlight(b.tries, i) == {})
  }

  function Spared(spare: Option<nat>): set<nat>
  {
    if spare.Some? then {spare.value} else {}
  }

  /** n more tries of row id; of the other rows at most updates that were already in flight have settled. */
  ghost predicate Progress(a: Shot, b: Shot, id: nat, n: nat)
  {
    && |a.rows| == |b.rows| == |a.landed| == |b.landed| && RowProgress(a, b, id, n)
    && forall i: nat :: i < |a.rows| && i != id ==> RowProgress(a, b, i, 0)
  }

  lemma RowTwice(a: Shot, b: Shot, c: Shot, i: nat, m: nat, n: nat)
    requires RowProgress(a, b, i, m) && RowProgress(b, c, i, n)
    ensures RowProgress(a, c, i, m + n)
  {
  }

  lemma ProgressTwice(a: Shot, b: Shot, c: Shot, id: nat, m: nat, n: nat)
    requires Progress(a, b, id, m) && Progress(b, c, id, n)
    ensures Progress(a, c, id, m + n)
  {
    RowTwice(a, b, c, id, m, n);
    forall i: nat | i < |a.rows| && i != id
      ensures RowProgress(a, c, i, 0)
    {
      RowTwice(a, b, c, i, 0, 0);
    }
  }

  /** Updates that were in flight have settled, and a try went on to the adapter only when one of its row landed. */
  ghost predicate Moved(a: Shot, b: Shot)
  {
    && |a.rows| == |b.rows| == |a.landed| == |b.landed|
    && (forall i: nat :: i < |a.rows| ==> RowProgress(a, b, i, 0))
    && (forall t :: t in b.tries ==> WentOnOnlyIfLanded(a, b, t))
  }

  ghost predicate WentOnOnlyIfLanded(a: Shot, b: Shot, t: nat)
    requires t in b.tries
  {
    && t in a.tries && b.tries[t].row == a.tries[t].row && b.tries[t].row < |a.landed| == |b.landed|
    && (b.landed[b.tries[t].row] == a.landed[b.tries[t].row] ==> b.tries[t] == a.tries[t])
  }

  lemma MovedTwice(a: Shot, b: Shot, c: Shot)
    requires Moved(a, b) && Moved(b, c)
    ensures Moved(a, c)
  {
    forall i: nat | i < |a.rows|
      ensures RowProgress(a, c, i, 0)
    {
      RowTwice(a, b, c, i, 0, 0);
    }
    forall t | t in c.tries
      ensures WentOnOnlyIfLanded(a, c, t)
    {
      assert WentOnOnlyIfLanded(b, c, t) && WentOnOnlyIfLanded(a, b, t);
      assert RowProgress(a, b, c.tries[t].row, 0) && RowProgress(b, c, c.tries[t].row, 0);
    }
  }

  lemma ThenMoved(a: Shot, b: Shot, c: Shot, id: nat, n: nat)
    requires Progress(a, b, id, n) && Moved(b, c)
    ensures Progress(a, c, id, n)
  {
    RowTwice(a, b, c, id, n, 0);
    forall i: nat | i < |a.rows| && i != id
      ensures RowProgress(a, c, i, 0)
    {
      RowTwice(a, b, c, i, 0, 0);
    }
  }

  /** A new try of row id. */
  lemma TryAdded(a: Shot, b: Shot, t: nat, id: nat, lastError: Option<string>)
    requires WellFormed(a) && t !in a.tries && id < |a.rows|
    requires b == a.(tries := a.tries[t := Try(id, Writing(lastError))])
    ensures Progress(a, b, id, 1)
  {
    assert InFlight(b.tries, id) == InFlight(a.tries, id) + {t};
    forall i: nat | i < |a.rows| && i != id
      ensures RowProgress(a, b, i, 0)
    {
      assert InFlight(b.tries, i) == InFlight(a.tries, i);
    }
  }

  lemma TryEnded(a: Shot, b: Shot, t: nat)
    requires WellFormed(a) && b == a.(tries := a.tries - {t})
    ensures Moved(a, b)
  {
    forall i: nat | i < |a.rows|
      ensures RowProgress(a, b, i, 0)
    {
      assert InFlight(b.tries, i) == InFlight(a.tries, i) - {t};
      SubsetSize(InFlight(b.tries, i), InFlight(a.tries, i));
    }
  }

  lemma TryLanded(a: Shot, b: Shot, t: nat, id: nat)
    requires WellFormed(a) && t in Unsettled(a.tries) && id == a.tries[t].row
    requires b == Shot(a.rows[id := OneMoreTry(a.rows[id], a.tries[t].phase.lastError)], a.tries[t := Try(id, Delivering)],
                       a.landed[id := a.landed[id] + 1])
    ensures Moved(a, b) && UniqueKeys(b.rows)
  {
    forall i: nat | i < |a.rows|
      ensures RowProgress(a, b, i, 0)
    {
      assert InFlight(b.tries, i) == InFlight(a.tries, i) - {t};
    }
  }

  /** n tries of row id, as far as its row and the adapter are concerned. */
  ghost predicate Tried(a: Shot, b: Shot, id: nat, ends: Ends, n: nat)
  {
    Progress(a, b, id, n) && b.landed[id] >= a.landed[id] + HandedOver(ends, n)
  }

  lemma TriedAgain(a: Shot, b: Shot, c: Shot, id: nat, ends: Ends, n: nat)
    requires n >= 1 && Tried(a, b, id, ends, n - 1) && Progress(b, c, id, 1)
    requires ends(n).Accepted? || ends(n).Errored? ==> c.landed[id] > b.landed[id]
    ensures Tried(a, c, id, ends, n)
  {
    ProgressTwice(a, b, c, id, n - 1, 1);
  }

  lemma TriedThenMoved(a: Shot, b: Shot, c: Shot, id: nat, ends: Ends, n: nat)
    requires Tried(a, b, id, ends, n) && Moved(b, c)
    ensures Tried(a, c, id, ends, n)
  {
    ThenMoved(a, b, c, id, n);
    assert RowProgress(b, c, id, 0);
  }

  class Notifier {
    const settings: Settings
    var rows: seq<Row>
    var tries: map<nat, Try>
    var nextTry: nat
    ghost var landed: seq<nat>

    ghost function Now(): Shot
      reads this
    {
      Shot(rows, tries, landed)
    }

    ghost predicate Valid()
      reads this
    {
      WellFormed(Now()) && forall t :: t in tries ==> t < nextTry
    }

    constructor (settings: Settings)
      ensures Valid() && this.settings == settings && rows == [] && tries == map[]
    {
      this.settings := settings;
      rows, tries, nextTry, landed := [], map[], 0, [];
    }

    // ---- row statements ------------------------------------------------------------------------

    method CreateAttempt(key: Option<nat>) returns (id: nat, created: bool)
      requires Valid()
      modifies this`rows, this`landed
      ensures Valid()
      ensures created <==> RowOf(old(rows), key).None?
      ensures !created ==> rows == old(rows) && landed == old(landed) && Some(id) == RowOf(rows, key)
      ensures created ==> id == |old(rows)| && rows == old(rows) + [Row(key, Queued, 0, None)] && landed == old(landed) + [0]
    {
      var existing := RowOf(rows, key);
      if existing.Some? {
        return existing.value, false;
      }
      id, created := |rows|, true;
      rows := rows + [Row(key, Queued, 0, None)];
      landed := landed + [0];
    }

    method MarkSent(id: nat)
      requires id < |rows|
      modifies this`rows
      ensures rows == old(rows)[id := old(rows)[id].(status := Sent, lastError := None)]
    {
      rows := rows[id := rows[id].(status := Sent, lastError := None)];
    }

    method MarkFailed(id: nat, error: string)
      requires id < |rows|
      modifies this`rows
      ensures rows == old(rows)[id := old(rows)[id].(status := Failed, lastError := Some(error))]
    {
      rows := rows[id := rows[id].(status := Failed, lastError := Some(error))];
    }

    // ---- tries in flight -----------------------------------------------------------------------

    /** One update in flight settles: it lands and its try goes on to the adapter, or it fails and its try is over. */
    method Land(t: nat, fails: bool)
      requires Valid() && t in Unsettled(tries)
      modifies this`rows, this`tries, this`landed
      ensures Valid() && Moved(old(Now()), Now())
      ensures Unsettled(tries) < Unsettled(old(tries)) && t !in Unsettled(tries)
      ensures forall u :: u in Unsettled(old(tries)) && u != t ==> u in Unsettled(tries)
      ensures !fails ==> landed[old(tries)[t].row] > old(landed)[old(tries)[t].row]
    {
      ghost var before := Now();
      var id := tries[t].row;
      if fails {
        tries := tries - {t};
        TryEnded(before, Now(), t);
      } else {
        rows := rows[id := OneMoreTry(rows[id], tries[t].phase.lastError)];
        tries := tries[t := Try(id, Delivering)];
        landed := landed[id := landed[id] + 1];
        TryLanded(before, Now(), t, id);
      }
      assert Unsettled(tries) == Unsettled(before.tries) - {t};
    }

    /** Time passes: any number of updates in flight settle, of whichever rows, in any order; that of spare does not. */
    method Drift(spare: Option<nat>)
      requires Valid()
      modifies this`rows, this`tries, this`landed
      ensures Valid() && Moved(old(Now()), Now())
      ensures spare.Some? && spare.value in Unsettled(old(tries)) ==> spare.value in Unsettled(tries)
    {
      ghost var start := Now();
      var more: bool := *;
      while more && Unsettled(tries) - Spared(spare) != {}
        invariant Valid() && Moved(start, Now())
        invariant spare.Some? && spare.value in Unsettled(start.tries) ==> spare.value in Unsettled(tries)
        decreases Unsettled(tries)
      {
        ghost var before := Now();
        var t :| t in Unsettled(tries) - Spared(spare);
        var fails: bool := *;
        Land(t, fails);
        MovedTwice(start, before, Now());
        more := *;
      }
    }

    /** settleTryWrites: wait until no update of the row is in flight; those of other rows may settle meanwhile. */
    method SettleTryWrites(id: nat)
      requires Valid() && id < |rows|
      modifies this`rows, this`tries, this`landed
      ensures Valid() && Moved(old(Now()), Now()) && InFlight(tries, id) == {}
    {
      Drift(None);
      while InFlight(tries, id) != {}
        invariant Valid() && Moved(old(Now()), Now())
        decreases Unsettled(tries)
      {
        ghost var before := Now();
        var t :| t in InFlight(tries, id);
        assert t in Unsettled(tries);
        var fails: bool := *;
        Land(t, fails);
        MovedTwice(old(Now()), before, Now());
      }
    }

    /** withResilience around the tries: each a fresh update, then the adapter; a timeout abandons a try where it stands. */
    method DeliverWithRetries(id: nat, ends: Ends) returns (delivered: bool, error: string, made: nat)
      requires Valid() && id < |rows| && InFlight(tries, id) == {}
      modifies this`rows, this`tries, this`nextTry, this`landed
      ensures Valid() && Tried(old(Now()), Now(), id, ends, made)
      ensures Tries(settings.retries, ends, made, delivered)
      ensures !delivered ==> ErrorOf(ends(made)) == Some(error)
    {
      ghost var first := Now();
      var lastError: Option<string> := None;
      for attempt := 1 to settings.retries + 2
        invariant Valid() && Tried(first, Now(), id, ends, attempt - 1) && ComesTo(settings.retries, ends, attempt)
      {
        TryOnce(id, if attempt > 1 then lastError else None, ends, attempt, first);
        if ends(attempt) == Accepted {
          return true, "", attempt;
        }
        error := ends(attempt).error;
        if attempt >= settings.retries + 1 || !TriesAgain(ends(attempt)) {
          return false, error, attempt;
        }
        lastError := Some(error);
        Sleep(id, ends, attempt, first);
      }
      assert false;
    }

    method TryOnce(id: nat, lastError: Option<string>, ends: Ends, attempt: nat, ghost first: Shot)
      requires Valid() && attempt >= 1 && Tried(first, Now(), id, ends, attempt - 1)
      modifies this`rows, this`tries, this`nextTry, this`landed
      ensures Valid() && Tried(first, Now(), id, ends, attempt)
    {
      ghost var before := Now();
      StartTry(id, lastError, ends(attempt));
      TriedAgain(first, before, Now(), id, ends, attempt);
    }

    /** The backoff between two tries, however long. */
    method Sleep(id: nat, ends: Ends, attempt: nat, ghost first: Shot)
      requires Valid() && Tried(first, Now(), id, ends, attempt)
      modifies this`rows, this`tries, this`landed
      ensures Valid() && Tried(first, Now(), id, ends, attempt)
    {
      ghost var before := Now();
      Drift(None);
      TriedThenMoved(first, before, Now(), id, ends, attempt);
    }

    /** One try: its row update, then the adapter. */
    method StartTry(id: nat, lastError: Option<string>, end: TryEnd)
      requires Valid() && id < |rows|
      modifies this`rows, this`tries, this`nextTry, this`landed
      ensures Valid() && Progress(old(Now()), Now(), id, 1)
      ensures end.Accepted? || end.Errored? ==> landed[id] > old(landed)[id]
    {
      var t := nextTry;
      nextTry := nextTry + 1;
      tries := tries[t := Try(id, Writing(lastError))];
      ghost var started := Now();
      TryAdded(old(Now()), started, t, id, lastError);
      Drift(if end.TimedOut? then None else Some(t));
      assert RowProgress(started, Now(), id, 0);
      if !end.TimedOut? {
        assert tries[t].row == id;
        FinishTry(t, end, started);
      }
      ThenMoved(old(Now()), started, Now(), id, 1);
    }

    /** The update of a try that is not abandoned lands, unless that is what fails, and the try comes to its end. */
    method FinishTry(t: nat, end: TryEnd, ghost started: Shot)
      requires Valid() && t in Unsettled(tries) && Moved(started, Now())
      modifies this`rows, this`tries, this`landed
      ensures Valid() && Moved(started, Now())
      ensures !end.Unwritten? ==> landed[old(tries)[t].row] > old(landed)[old(tries)[t].row]
    {
      ghost var before := Now();
      Land(t, end.Unwritten?);
      MovedTwice(started, before, Now());
      before := Now();
      Drift(None);
      MovedTwice(started, before, Now());
      assert RowProgress(before, Now(), old(tries)[t].row, 0);
      before := Now();
      tries := tries - {t};
      TryEnded(before, Now(), t);
      MovedTwice(started, before, Now());
    }

    // ---- send ----------------------------------------------------------------------------------

    /**
     * One send. Updates of other rows may be in flight, and settle meanwhile; sends with one key do not
     * overlap, so none of its own row is.
     */
    method Send(request: Request, ends: Ends) returns (reply: Reply, made: nat, ghost count: nat)
      requires Valid() && forall i :: RowOf(rows, request.key) == Some(i) ==> InFlight(tries, i) == {}
      modifies this`rows, this`tries, this`nextTry, this`landed
      ensures Valid() && reply.attempt < |rows| && InFlight(tries, reply.attempt) == {}
      ensures RowOf(old(rows), request.key) == (if reply.attempt < |old(rows)| then Some(reply.attempt) else None)
      ensures |rows| == (if reply.attempt < |old(rows)| then |old(rows)| else reply.attempt + 1) >= |old(rows)|
      ensures reply.attempt <= |old(rows)|
      ensures forall i: nat :: i < |old(rows)| && i != reply.attempt ==> Bystander(old(Now()), Now(), i)
      ensures Behaves(settings, request, ends, At(old(rows), RowOf(old(rows), request.key)), rows[reply.attempt], reply, made, count)
      ensures landed[reply.attempt] == (if reply.attempt < |old(rows)| then old(landed)[reply.attempt] else 0) + count
    {
      var id, created := CreateAttempt(request.key);
      ghost var fetched := Now();
      if !created && rows[id].status == Sent {
        reply, made, count := Reply(Sent, id, true, NoReason), 0, 0;
      } else {
        reply, made, count := Attempt(id, request, ends);
        Appended(old(Now()), fetched, Now(), id);
      }
    }

    /** A send whose row has been fetched, and that is no duplicate. */
    method Attempt(id: nat, request: Request, ends: Ends) returns (reply: Reply, made: nat, ghost count: nat)
      requires Valid() && id < |rows| && InFlight(tries, id) == {} && rows[id].key == request.key && rows[id].status != Sent
      modifies this`rows, this`tries, this`nextTry, this`landed
      ensures Valid() && reply.attempt == id && InFlight(tries, id) == {} && |rows| == |old(rows)|
      ensures forall i: nat :: i < |rows| && i != id ==> Bystander(old(Now()), Now(), i)
      ensures landed[id] == old(landed)[id] + count
      ensures Behaves(settings, request, ends, Some(old(rows)[id]), rows[id], reply, made, count)
    {
      if Refused(settings, request) {
        made, count := 0, 0;
        reply := Refuse(id, request);
      } else {
        var delivered;
        delivered, made := DeliverAndMark(id, ends);
        DeliversIff(settings.retries, ends, made, delivered);
        count := landed[id] - old(landed)[id];
        reply := Reply(if delivered then Sent else Failed, id, false, NoReason);
      }
    }

    /** A push without the push channel, or nobody to send to: failed without a try. */
    method Refuse(id: nat, request: Request) returns (reply: Reply)
      requires Valid() && id < |rows| && InFlight(tries, id) == {} && Refused(settings, request)
      modifies this`rows
      ensures Valid() && rows[id].(lastError := None) == old(rows)[id].(status := Failed, lastError := None) && rows[id].lastError.Some?
      ensures rows == old(rows)[id := rows[id]]
      ensures reply == Reply(Failed, id, false, if request.push && !settings.pushEnabled then PushDisabled else NoRecipientEmail)
      ensures forall i: nat :: i < |rows| && i != id ==> Bystander(old(Now()), Now(), i)
    {
      if request.push && !settings.pushEnabled {
        MarkFailed(id, "push channel refused");
        reply := Reply(Failed, id, false, PushDisabled);
      } else {
        MarkFailed(id, "recipient has no deliverable email address");
        reply := Reply(Failed, id, false, NoRecipientEmail);
      }
    }

    /** The delivery loop, then the wait for every update of the row in flight, then the terminal status. */
    method DeliverAndMark(id: nat, ends: Ends) returns (delivered: bool, made: nat)
      requires Valid() && id < |rows| && InFlight(tries, id) == {}
      modifies this`rows, this`tries, this`nextTry, this`landed
      ensures Valid() && InFlight(tries, id) == {} && |rows| == |old(rows)|
      ensures forall i: nat :: i < |rows| && i != id ==> Bystander(old(Now()), Now(), i)
      ensures rows[id].key == old(rows)[id].key && rows[id].status == (if delivered then Sent else Failed)
      ensures Tries(settings.retries, ends, made, delivered)
      ensures rows[id].lastError == (if delivered then None else ErrorOf(ends(made)))
      ensures old(landed)[id] + HandedOver(ends, made) <= landed[id] <= old(landed)[id] + made
      ensures rows[id].attempts == old(rows)[id].attempts + (landed[id] - old(landed)[id])
    {
      var error;
      delivered, error, made := DeliverWithRetries(id, ends);
      ghost var before := Now();
      SettleTryWrites(id);
      ghost var settled := Now();
      ThenMoved(old(Now()), before, settled, id, made);
      assert RowProgress(before, settled, id, 0) && RowProgress(old(Now()), settled, id, made);
      if delivered {
        MarkSent(id);
      } else {
        MarkFailed(id, error);
      }
      Marked(old(Now()), settled, Now(), id, made);
    }

    /**
     * Any sequence of requests, one after the other: each key has one row, and its sends are in a row: each finds
     * the row as the one before it left it. A request without a key has a row of its own, as its send left it.
     */
    method SendAll(requests: seq<Request>, ends: nat -> Ends) returns (replies: seq<Reply>, ghost log: seq<Sending>)
      requires Valid() && forall i: nat :: i < |rows| ==> InFlight(tries, i) == {}
      modifies this`rows, this`tries, this`nextTry, this`landed
      ensures Valid() && UniqueKeys(rows) && |log| == |replies| == |requests|
      ensures forall i :: 0 <= i < |log| ==> log[i].request == requests[i] && log[i].ends == ends(i) && log[i].reply == replies[i]
      ensures forall i :: 0 <= i < |log| ==> Sends(settings, log[i])
      ensures forall k: nat :: KeyLog(settings, log, k, old(rows), rows)
      ensures forall i :: 0 <= i < |log| ==> OwnRow(log, i, old(rows), rows)
    {
      replies, log := [], [];
      for i := 0 to |requests|
        invariant Valid() && |log| == |replies| == i && forall k: nat :: k < |rows| ==> InFlight(tries, k) == {}
        invariant forall k :: 0 <= k < i ==> log[k].request == requests[k] && log[k].ends == ends(k) && log[k].reply == replies[k]
        invariant |old(rows)| <= |rows| && forall k :: 0 <= k < i ==> Sends(settings, log[k]) && log[k].reply.attempt < |rows|
        invariant forall k: nat :: KeyLog(settings, log, k, old(rows), rows)
        invariant forall k :: 0 <= k < i ==> OwnRow(log, k, old(rows), rows)
      {
        ghost var before := Now();
        var reply, made;
        ghost var count;
        reply, made, count := Send(requests[i], ends(i));
        ghost var was := At(before.rows, RowOf(before.rows, requests[i].key));
        ghost var x := Sending(requests[i], ends(i), was, rows[reply.attempt], reply, made, count);
        SendExtends(settings, log, old(rows), before, Now(), x);
        OwnRowsStay(settings, log, old(rows), before, Now(), x);
        StillSettled(before, Now(), reply.attempt);
        replies, log := replies + [reply], log + [x];
      }
    }
  }

  /** Another key's row during a send: its updates in flight may settle; with none in flight it stays as it was. */
  ghost predicate Bystander(a: Shot, b: Shot, i: nat)
  {
    && i < |a.rows| <= |b.rows| && i < |a.landed| && i < |b.landed|
    && b.rows[i].key == a.rows[i].key && b.rows[i].attempts + a.landed[i] == a.rows[i].attempts + b.landed[i]
    && a.landed[i] <= b.landed[i] <= a.landed[i] + |InFlight(a.tries, i)|
    && (InFlight(a.tries, i) == {} ==> b.rows[i] == a.rows[i] && InFlight(b.tries, i) == {})
  }

  lemma Marked(a: Shot, b: Shot, c: Shot, id: nat, n: nat)
    requires Progress(a, b, id, n) && id < |b.rows| && id < |c.rows| && c == b.(rows := b.rows[id := c.rows[id]])
    ensures forall i: nat :: i < |a.rows| && i != id ==> Bystander(a, c, i)
  {
    forall i: nat | i < |a.rows| && i != id
      ensures Bystander(a, c, i)
    {
      assert RowProgress(a, b, i, 0);
    }
  }

  lemma Appended(a: Shot, b: Shot, c: Shot, id: nat)
    requires a.rows <= b.rows && a.landed <= b.landed && |a.rows| == |a.landed| && b.tries == a.tries && |b.rows| == |c.rows|
    requires forall i: nat :: i < |b.rows| && i != id ==> Bystander(b, c, i)
    ensures forall i: nat :: i < |a.rows| && i != id ==> Bystander(a, c, i)
  {
    forall i: nat | i < |a.rows| && i != id
      ensures Bystander(a, c, i)
    {
      assert Bystander(b, c, i);
    }
  }

  lemma StillSettled(a: Shot, b: Shot, id: nat)
    requires WellFormed(b) && InFlight(b.tries, id) == {} && id < |b.rows|
    requires forall i: nat :: i < |a.rows| ==> InFlight(a.tries, i) == {}
    requires forall i: nat :: i < |a.rows| && i != id ==> Bystander(a, b, i)
    requires |b.rows| == |a.rows| || (|b.rows| == |a.rows| + 1 && id == |a.rows|)
    ensures forall i: nat :: i < |b.rows| ==> InFlight(b.tries, i) == {}
  {
    forall i: nat | i < |b.rows|
      ensures InFlight(b.tries, i) == {}
    {
      assert i != id ==> Bystander(a, b, i);
    }
  }

  // ---- sends in a row --------------------------------------------------------------------------

  /** One send with a given key: the row before (if any) and after it. */
  datatype Sending = Sending(request: Request, ends: Ends, before: Option<Row>, after: Row, reply: Reply, tries: nat, landed: nat)

  ghost predicate Sends(settings: Settings, x: Sending)
  {
    Behaves(settings, x.request, x.ends, x.before, x.after, x.reply, x.tries, x.landed)
  }

  /** Non-overlapping sends with one key: each finds the row as the one before left it. */
  ghost predicate InARow(settings: Settings, log: seq<Sending>)
  {
    && (forall i :: 0 <= i < |log| ==> Sends(settings, log[i]))
    && (forall i :: 0 < i < |log| ==> log[i].before == Some(log[i - 1].after))
  }

  // ---- the log of one key ----------------------------------------------------------------------

  function ForKey(log: seq<Sending>, key: nat): seq<Sending>
  {
    if log == [] then []
    else
      var last := log[|log| - 1];
      ForKey(log[..|log| - 1], key) + (if last.request.key == Some(key) then [last] else [])
  }

  /** The sends of one key are in a row, from the row as it was to the row as it is. */
  ghost predicate KeyLog(settings: Settings, log: seq<Sending>, key: nat, first: seq<Row>, last: seq<Row>)
  {
    var mine, was, now := ForKey(log, key), At(first, RowOf(first, Some(key))), At(last, RowOf(last, Some(key)));
    && InARow(settings, mine)
    && (if mine == [] then now == was else mine[0].before == was && now == Some(mine[|mine| - 1].after))
  }

  /** One more send leaves every key's log in a row. */
  lemma SendExtends(settings: Settings, log: seq<Sending>, first: seq<Row>, a: Shot, b: Shot, x: Sending)
    requires WellFormed(a) && WellFormed(b) && x.reply.attempt < |b.rows| && x.after == b.rows[x.reply.attempt]
    requires x.before == At(a.rows, RowOf(a.rows, x.request.key))
    requires RowOf(a.rows, x.request.key) == (if x.reply.attempt < |a.rows| then Some(x.reply.attempt) else None)
    requires |b.rows| == (if x.reply.attempt < |a.rows| then |a.rows| else x.reply.attempt + 1) && x.reply.attempt <= |a.rows|
    requires forall i: nat :: i < |a.rows| ==> InFlight(a.tries, i) == {}
    requires forall i: nat :: i < |a.rows| && i != x.reply.attempt ==> Bystander(a, b, i)
    requires Sends(settings, x)
    requires forall k: nat :: KeyLog(settings, log, k, first, a.rows)
    ensures forall k: nat :: KeyLog(settings, log + [x], k, first, b.rows)
  {
    assert (log + [x])[..|log|] == log;
    forall k: nat
      ensures KeyLog(settings, log + [x], k, first, b.rows)
    {
      assert KeyLog(settings, log, k, first, a.rows);
      if x.request.key == Some(k) {
        KeyLogNext(settings, log, k, first, a.rows, b.rows, x);
      } else {
        SameRow(a, b, x.reply.attempt, k);
        assert ForKey(log + [x], k) == ForKey(log, k);
      }
    }
  }

  /** The row of a send without a key: new, not that of an earlier one, and as the send left it. */
  ghost predicate OwnRow(log: seq<Sending>, i: nat, first: seq<Row>, last: seq<Row>)
    requires i < |log|
  {
    log[i].request.key.None? ==>
      && |first| <= log[i].reply.attempt < |last| && last[log[i].reply.attempt] == log[i].after && log[i].before.None?
      && forall k :: 0 <= k < i ==> log[k].reply.attempt != log[i].reply.attempt
  }

  lemma OwnRowsStay(settings: Settings, log: seq<Sending>, first: seq<Row>, a: Shot, b: Shot, x: Sending)
    requires WellFormed(a) && WellFormed(b) && x.reply.attempt < |b.rows| && x.after == b.rows[x.reply.attempt] && |first| <= |a.rows|
    requires x.before == At(a.rows, RowOf(a.rows, x.request.key))
    requires RowOf(a.rows, x.request.key) == (if x.reply.attempt < |a.rows| then Some(x.reply.attempt) else None)
    requires |b.rows| >= |a.rows| && x.reply.attempt <= |a.rows|
    requires forall i: nat :: i < |a.rows| ==> InFlight(a.tries, i) == {}
    requires forall i: nat :: i < |a.rows| && i != x.reply.attempt ==> Bystander(a, b, i)
    requires forall i :: 0 <= i < |log| ==> Sends(settings, log[i]) && log[i].reply.attempt < |a.rows| && OwnRow(log, i, first, a.rows)
    ensures forall i :: 0 <= i <= |log| ==> (log + [x])[i].reply.attempt < |b.rows| && OwnRow(log + [x], i, first, b.rows)
  {
    forall i | 0 <= i < |log|
      ensures OwnRow(log + [x], i, first, b.rows)
    {
      assert OwnRow(log, i, first, a.rows) && Sends(settings, log[i]);
      if log[i].request.key.None? && log[i].reply.attempt != x.reply.attempt {
        assert Bystander(a, b, log[i].reply.attempt);
      }
    }
  }

  /** One more send with the key itself. */
  lemma KeyLogNext(settings: Settings, log: seq<Sending>, k: nat, first: seq<Row>, last: seq<Row>, last': seq<Row>, x: Sending)
    requires KeyLog(settings, log, k, first, last) && Sends(settings, x) && x.request.key == Some(k)
    requires x.before == At(last, RowOf(last, Some(k))) && At(last', RowOf(last', Some(k))) == Some(x.after)
    ensures KeyLog(settings, log + [x], k, first, last')
  {
    assert (log + [x])[..|log|] == log;
    assert ForKey(log + [x], k) == ForKey(log, k) + [x];
  }

  /** The row of another key is where it was, and as it was. */
  lemma SameRow(a: Shot, b: Shot, id: nat, k: nat)
    requires WellFormed(a) && WellFormed(b) && id < |b.rows| && b.rows[id].key != Some(k) && (id < |a.rows| ==> a.rows[id].key != Some(k))
    requires |b.rows| == (if id < |a.rows| then |a.rows| else id + 1) && id <= |a.rows|
    requires forall i: nat :: i < |a.rows| ==> InFlight(a.tries, i) == {}
    requires forall i: nat :: i < |a.rows| && i != id ==> Bystander(a, b, i)
    ensures At(b.rows, RowOf(b.rows, Some(k))) == At(a.rows, RowOf(a.rows, Some(k)))
  {
    var was := RowOf(a.rows, Some(k));
    if was.Some? {
      assert Bystander(a, b, was.value);
    } else {
      forall i: nat | i < |b.rows|
        ensures b.rows[i].key != Some(k)
      {
        assert i < |a.rows| && i != id ==> Bystander(a, b, i);
      }
    }
  }

  /**
   * Once a send has reported sent, every later send with its key reports a duplicate, changes nothing and
   * hands nothing to the adapter, whatever failed before.
   */
  lemma {:induction false} NothingAfterSent(settings: Settings, log: seq<Sending>, i: nat, j: nat)
    requires InARow(settings, log) && i < j < |log| && log[i].reply.status == Sent
    ensures log[j].reply.status == Sent && log[j].reply.deduped && log[j].landed == 0 && log[j].after == log[i].after
  {
    if i + 1 < j {
      NothingAfterSent(settings, log, i, j - 1);
    }
  }

  /** At most one send per key reports sent without being a duplicate, and the row then stays sent. */
  lemma OneRealSend(settings: Settings, log: seq<Sending>, i: nat, j: nat)
    requires InARow(settings, log) && i < |log| && j < |log|
    requires log[i].reply.status == Sent && !log[i].reply.deduped && log[j].reply.status == Sent && !log[j].reply.deduped
    ensures i == j && log[|log| - 1].after.status == Sent
  {
    if i < j {
      NothingAfterSent(settings, log, i, j);
    } else if j < i {
      NothingAfterSent(settings, log, j, i);
    } else if i < |log| - 1 {
      NothingAfterSent(settings, log, i, |log| - 1);
    }
  }

  /** The attempts recorded on the row are all the tries that reached the adapter, at most retries + 1 a send. */
  lemma {:induction false} AttemptsAddUp(settings: Settings, log: seq<Sending>)
    requires InARow(settings, log) && log != [] && log[0].before == None
    ensures log[|log| - 1].after.attempts == Landed(log) <= |log| * (settings.retries + 1)
  {
    var n := |log| - 1;
    SendAdds(settings, log[n]);
    if n > 0 {
      AttemptsAddUp(settings, log[..n]);
      OneMore(n, settings.retries + 1);
    } else {
      assert log[..n] == [];
    }
  }

  lemma SendAdds(settings: Settings, x: Sending)
    requires Sends(settings, x)
    ensures x.after.attempts == (if x.before.Some? then x.before.value.attempts else 0) + x.landed && x.landed <= settings.retries + 1
  {
  }

  lemma OneMore(n: nat, k: nat)
    ensures (n + 1) * k == n * k + k
  {
  }

  function Landed(log: seq<Sending>): nat
  {
    if log == [] then 0 else Landed(log[..|log| - 1]) + log[|log| - 1].landed
  }
}
