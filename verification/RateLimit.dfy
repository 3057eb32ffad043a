/**
 * The login limiter: expiring counters per account and per source address, a window that starts at its
 * first failure and is not extended, and the order check, verify, then record or reset. Times are in
 * milliseconds; a counter is gone from the instant it expires.
 */
module RateLimit {
  import opened Tables

  datatype Key = Account(account: nat) | Source(ip: nat)

  datatype Counter = Counter(count: nat, expiresAt: int)

  type Counters = map<Key, Counter>

  datatype Config = Config(maxAttempts: nat, window: nat) {
    predicate Valid() { maxAttempts >= 1 && window >= 1 }
  }

  const IpAttemptMultiplier := 10

  function Threshold(cfg: Config, k: Key): nat
  {
    if k.Account? then cfg.maxAttempts else cfg.maxAttempts * IpAttemptMultiplier
  }

  predicate IsLive(counters: Counters, k: Key, t: int)
  {
    k in counters && t < counters[k].expiresAt
  }

  function CountAt(counters: Counters, k: Key, t: int): nat
  {
    if IsLive(counters, k, t) then counters[k].count else 0
  }

  predicate AtLimit(cfg: Config, counters: Counters, k: Key, t: int)
  {
    CountAt(counters, k, t) >= Threshold(cfg, k)
  }

  predicate Limited(cfg: Config, counters: Counters, account: nat, ip: nat, t: int)
  {
    AtLimit(cfg, counters, Account(account), t) || AtLimit(cfg, counters, Source(ip), t)
  }

  /** INCR, then EXPIRE NX: only the first failure of a window sets when it ends. */
  function Incremented(cfg: Config, counters: Counters, k: Key, t: int): Counters
  {
    if IsLive(counters, k, t) then counters[k := counters[k].(count := counters[k].count + 1)]
    else counters[k := Counter(1, t + cfg.window)]
  }

  function Recorded(cfg: Config, counters: Counters, account: nat, ip: nat, t: int): Counters
  {
    Incremented(cfg, Incremented(cfg, counters, Account(account), t), Source(ip), t)
  }

  /** One login: checked at one instant, verified, and recorded or reset at a later one. */
  datatype Attempt = Attempt(account: nat, ip: nat, checkedAt: int, endedAt: int, valid: bool)

  datatype Outcome = RateLimited | InvalidCredentials | LoggedIn

  function OutcomeOf(cfg: Config, counters: Counters, a: Attempt): Outcome
  {
    if Limited(cfg, counters, a.account, a.ip, a.checkedAt) then RateLimited
    else if a.valid then LoggedIn
    else InvalidCredentials
  }

  function AfterLogin(cfg: Config, counters: Counters, a: Attempt): Counters
  {
    match OutcomeOf(cfg, counters, a)
    case RateLimited => counters
    case InvalidCredentials => Recorded(cfg, counters, a.account, a.ip, a.endedAt)
    case LoggedIn => counters - {Account(a.account)}
  }

  // ---- runs ------------------------------------------------------------------------------------

  function After(cfg: Config, run: seq<Attempt>): Counters
  {
    if run == [] then map[] else AfterLogin(cfg, After(cfg, run[..|run| - 1]), run[|run| - 1])
  }

  predicate Touches(a: Attempt, k: Key)
  {
    k == Account(a.account) || k == Source(a.ip)
  }

  /**
   * The failed verifications on a key, on an account those since its last successful login: when each was recorded,
   * and which of them opened its window.
   */
  datatype Failure = Failure(at: int, opener: nat)

  function Failures(cfg: Config, run: seq<Attempt>, k: Key): seq<Failure>
  {
    if run == [] then []
    else
      var before := run[..|run| - 1];
      WithFailure(cfg, After(cfg, before), Failures(cfg, before, k), run[|run| - 1], k)
  }

  function WithFailure(cfg: Config, counters: Counters, earlier: seq<Failure>, a: Attempt, k: Key): seq<Failure>
  {
    if k == Account(a.account) && OutcomeOf(cfg, counters, a) == LoggedIn then []
    else if Touches(a, k) && OutcomeOf(cfg, counters, a) == InvalidCredentials then
      var opener := if IsLive(counters, k, a.endedAt) && earlier != [] then earlier[|earlier| - 1].opener else |earlier|;
      earlier + [Failure(a.endedAt, opener)]
    else earlier
  }

  /** Sequential logins: each ends after it began, and before the next begins. */
  predicate Sequential(run: seq<Attempt>)
  {
    && (forall i :: 0 <= i < |run| ==> run[i].checkedAt <= run[i].endedAt)
    && (forall i, j :: 0 <= i < j < |run| ==> run[i].endedAt <= run[j].checkedAt)
  }

  ghost predicate Sorted(fs: seq<Failure>)
  {
    forall i, j :: 0 <= i < j < |fs| ==> fs[i].at <= fs[j].at
  }

  ghost predicate InWindow(fs: seq<Failure>, i: nat, limit: nat, window: nat)
  {
    && i < |fs| && fs[i].opener <= i < fs[i].opener + limit
    && fs[fs[i].opener].opener == fs[i].opener && fs[i].at < fs[fs[i].opener].at + window
  }

  /** Failure i belongs to the window before it, or opens one after that window is over. */
  ghost predicate Follows(fs: seq<Failure>, i: nat, window: nat)
  {
    0 < i < |fs| && fs[i - 1].opener < |fs| ==>
      fs[i].opener == fs[i - 1].opener || (fs[i].opener == i && fs[fs[i - 1].opener].at + window <= fs[i].at)
  }

  /** Failures come in order, in windows of at most limit, each at least a window after the last began. */
  ghost predicate InWindows(fs: seq<Failure>, limit: nat, window: nat)
  {
    && Sorted(fs)
    && (forall i: nat :: i < |fs| ==> InWindow(fs, i, limit, window))
    && (forall i: nat :: i < |fs| ==> Follows(fs, i, window))
  }

  /** The counter of a key is the length of its last window. */
  ghost predicate Counts(counters: Counters, k: Key, fs: seq<Failure>, window: nat)
  {
    && (k in counters <==> fs != [])
    && (fs != [] ==>
          var last := |fs| - 1;
          && fs[last].opener <= last
          && counters[k] == Counter(last - fs[last].opener + 1, fs[fs[last].opener].at + window))
  }

  ghost predicate Tracked(cfg: Config, counters: Counters, k: Key, fs: seq<Failure>, now: int)
  {
    && InWindows(fs, Threshold(cfg, k), cfg.window) && Counts(counters, k, fs, cfg.window)
    && (fs != [] ==> fs[|fs| - 1].at <= now)
  }

  lemma LoginTracked(cfg: Config, counters: Counters, fs: seq<Failure>, a: Attempt, k: Key)
    requires cfg.Valid() && a.checkedAt <= a.endedAt && Tracked(cfg, counters, k, fs, a.checkedAt)
    ensures Tracked(cfg, AfterLogin(cfg, counters, a), k, WithFailure(cfg, counters, fs, a, k), a.endedAt)
  {
    if Touches(a, k) && OutcomeOf(cfg, counters, a) == InvalidCredentials {
      OneMoreFailure(cfg, counters, fs, a, k);
    } else if !(k == Account(a.account) && OutcomeOf(cfg, counters, a) == LoggedIn) {
      Untouched(cfg, counters, a, k);
    }
  }

  /** In every sequential run the counter of a key is the length of its last window, and windows are disjoint. */
  lemma {:induction false} RunTracked(cfg: Config, run: seq<Attempt>, k: Key)
    requires cfg.Valid() && Sequential(run)
    ensures Tracked(cfg, After(cfg, run), k, Failures(cfg, run, k), if run == [] then 0 else run[|run| - 1].endedAt)
  {
    if run != [] {
      var before, a := run[..|run| - 1], run[|run| - 1];
      RunTracked(cfg, before, k);
      if before != [] {
        assert before[|before| - 1] == run[|run| - 2];
        assert run[|run| - 2].endedAt <= a.checkedAt;
      }
      LoginTracked(cfg, After(cfg, before), Failures(cfg, before, k), a, k);
    }
  }

  lemma Untouched(cfg: Config, counters: Counters, a: Attempt, k: Key)
    requires !(Touches(a, k) && OutcomeOf(cfg, counters, a) == InvalidCredentials)
    requires !(k == Account(a.account) && OutcomeOf(cfg, counters, a) == LoggedIn)
    ensures k in AfterLogin(cfg, counters, a) <==> k in counters
    ensures k in counters ==> AfterLogin(cfg, counters, a)[k] == counters[k]
  {
  }

  lemma OneMoreFailure(cfg: Config, counters: Counters, fs: seq<Failure>, a: Attempt, k: Key)
    requires cfg.Valid() && a.checkedAt <= a.endedAt && Touches(a, k) && OutcomeOf(cfg, counters, a) == InvalidCredentials
    requires InWindows(fs, Threshold(cfg, k), cfg.window) && Counts(counters, k, fs, cfg.window)
    requires fs != [] ==> fs[|fs| - 1].at <= a.checkedAt
    ensures var opener := if IsLive(counters, k, a.endedAt) && fs != [] then fs[|fs| - 1].opener else |fs|;
      var fs' := fs + [Failure(a.endedAt, opener)];
      InWindows(fs', Threshold(cfg, k), cfg.window) && Counts(AfterLogin(cfg, counters, a), k, fs', cfg.window)
  {
    var n, limit := |fs|, Threshold(cfg, k);
    var opener := if IsLive(counters, k, a.endedAt) && fs != [] then fs[n - 1].opener else n;
    var fs' := fs + [Failure(a.endedAt, opener)];
    assert !AtLimit(cfg, counters, k, a.checkedAt);
    assert AfterLogin(cfg, counters, a)[k] == Incremented(cfg, counters, k, a.endedAt)[k];
    if fs != [] {
      assert InWindow(fs, n - 1, limit, cfg.window);
    }
    assert InWindow(fs', n, limit, cfg.window) && Follows(fs', n, cfg.window);
    PrefixInWindows(fs, fs', limit, cfg.window);
  }

  lemma PrefixInWindows(fs: seq<Failure>, fs': seq<Failure>, limit: nat, window: nat)
    requires InWindows(fs, limit, window) && |fs'| == |fs| + 1 && fs'[..|fs|] == fs
    requires fs != [] ==> fs[|fs| - 1].at <= fs'[|fs|].at
    requires InWindow(fs', |fs|, limit, window) && Follows(fs', |fs|, window)
    ensures InWindows(fs', limit, window)
  {
    assert forall i :: 0 <= i < |fs| ==> fs'[i] == fs[i];
    forall i: nat | i < |fs|
      ensures InWindow(fs', i, limit, window) && Follows(fs', i, window)
    {
      assert InWindow(fs, i, limit, window) && Follows(fs, i, window);
      if i > 0 {
        assert InWindow(fs, i - 1, limit, window);
      }
    }
    forall i, j | 0 <= i < j < |fs'|
      ensures fs'[i].at <= fs'[j].at
    {
      if j == |fs| && i < |fs| - 1 {
        assert fs[i].at <= fs[|fs| - 1].at;
      }
    }
  }

  // ---- the sliding bound -----------------------------------------------------------------------

  /** The failure that opens the window after i's, when there are enough failures for one. */
  lemma {:induction false} NextWindow(fs: seq<Failure>, limit: nat, window: nat, i: nat) returns (next: nat)
    requires InWindows(fs, limit, window) && i < |fs| && fs[i].opener + limit < |fs|
    ensures i < next <= fs[i].opener + limit && next < |fs| && fs[next].opener == next
    ensures fs[i].opener < |fs| && fs[next].at >= fs[fs[i].opener].at + window
    decreases |fs| - i
  {
    assert InWindow(fs, i, limit, window);
    assert InWindow(fs, i + 1, limit, window) && Follows(fs, i + 1, window);
    if fs[i + 1].opener == fs[i].opener {
      next := NextWindow(fs, limit, window, i + 1);
    } else {
      next := i + 1;
    }
  }

  /** Any 2 * limit failures in a row span at least a whole window. */
  lemma FailuresSpan(fs: seq<Failure>, limit: nat, window: nat, i: nat)
    requires InWindows(fs, limit, window) && limit >= 1 && i + 2 * limit - 1 < |fs|
    ensures fs[i + 2 * limit - 1].at >= fs[i].at + window
  {
    assert InWindow(fs, i, limit, window);
    var next := NextWindow(fs, limit, window, i);
    if fs[i].opener < i {
      var second := NextWindow(fs, limit, window, next);
    }
  }

  function Within(from: int, window: nat): Failure -> bool
  {
    (f: Failure) => from <= f.at < from + window
  }

  /** The failures inside a half-open window are at most k, when any k + 1 in a row span a whole window. */
  lemma {:induction false} CountWithin(fs: seq<Failure>, from: int, window: nat, k: nat)
    requires forall i, j :: 0 <= i < j < |fs| ==> fs[i].at <= fs[j].at
    requires forall i :: 0 <= i && i + k < |fs| ==> fs[i + k].at >= fs[i].at + window
    ensures Count(fs, Within(from, window)) <= k
  {
    if fs != [] {
      var n := |fs| - 1;
      if !Within(from, window)(fs[n]) {
        CountWithin(fs[..n], from, window, k);
      } else {
        var cut := if |fs| > k then |fs| - k else 0;
        if cut > 0 {
          assert fs[cut - 1 + k].at >= fs[cut - 1].at + window;
        }
        CountTail(fs, cut, Within(from, window));
      }
    }
  }

  /**
   * The sliding bound: over sequential logins, any half-open window-long interval holds at most
   * 2 * threshold - 1 failed verifications, on an account since its last success, and on a source, whose threshold
   * is ten times that of an account, in any case.
   */
  lemma SlidingBound(cfg: Config, run: seq<Attempt>, k: Key, from: int)
    requires cfg.Valid() && Sequential(run)
    ensures Count(Failures(cfg, run, k), Within(from, cfg.window)) <= 2 * Threshold(cfg, k) - 1
    ensures Count(Failures(cfg, run, k), Within(from, cfg.window)) <= (if k.Account? then 2 else 20) * cfg.maxAttempts - 1
  {
    RunTracked(cfg, run, k);
    var fs, limit := Failures(cfg, run, k), Threshold(cfg, k);
    forall i | 0 <= i && i + (2 * limit - 1) < |fs|
      ensures fs[i + (2 * limit - 1)].at >= fs[i].at + cfg.window
    {
      FailuresSpan(fs, limit, cfg.window, i);
    }
    CountWithin(fs, from, cfg.window, 2 * limit - 1);
  }

  // ---- the bound is reached --------------------------------------------------------------------

  /** One failure at 0, the rest of the first window just before it ends, a full window from then on. */
  function TightAttempt(cfg: Config, i: nat): Attempt
  {
    var t := if i == 0 then 0 else if i < cfg.maxAttempts then cfg.window - 1 else cfg.window as int;
    Attempt(0, i, t, t, false)
  }

  function TightRun(cfg: Config, n: nat): seq<Attempt>
  {
    seq(n, i requires 0 <= i < n => TightAttempt(cfg, i))
  }

  ghost predicate TightCounters(cfg: Config, n: nat, counters: Counters)
  {
    && (forall ip: nat :: Source(ip) in counters ==> ip < n)
    && (Account(0) in counters <==> n > 0)
    && (0 < n <= cfg.maxAttempts ==> counters[Account(0)] == Counter(n, cfg.window))
    && (cfg.maxAttempts < n ==> counters[Account(0)] == Counter(n - cfg.maxAttempts, 2 * cfg.window))
  }

  lemma TightStep(cfg: Config, n: nat, counters: Counters)
    requires cfg.Valid() && n < 2 * cfg.maxAttempts && TightCounters(cfg, n, counters)
    ensures OutcomeOf(cfg, counters, TightAttempt(cfg, n)) == InvalidCredentials
    ensures TightCounters(cfg, n + 1, AfterLogin(cfg, counters, TightAttempt(cfg, n)))
  {
    var a := TightAttempt(cfg, n);
    assert Source(n) !in counters;
    assert !AtLimit(cfg, counters, Source(n), a.checkedAt) && !AtLimit(cfg, counters, Account(0), a.checkedAt);
  }

  lemma {:induction false} TightFailures(cfg: Config, n: nat)
    requires cfg.Valid() && n <= 2 * cfg.maxAttempts
    ensures TightCounters(cfg, n, After(cfg, TightRun(cfg, n)))
    ensures var fs := Failures(cfg, TightRun(cfg, n), Account(0));
      |fs| == n && forall i :: 0 <= i < n ==> fs[i].at == TightAttempt(cfg, i).endedAt
  {
    if n > 0 {
      TightFailures(cfg, n - 1);
      assert TightRun(cfg, n)[..n - 1] == TightRun(cfg, n - 1);
      TightStep(cfg, n - 1, After(cfg, TightRun(cfg, n - 1)));
    }
  }

  /** The bound is tight for every configuration whose window is longer than one instant. */
  lemma SlidingBoundIsTight(cfg: Config)
    requires cfg.Valid() && cfg.window >= 2
    ensures var run := TightRun(cfg, 2 * cfg.maxAttempts);
      && Sequential(run) && (forall i :: 0 <= i < |run| ==> !run[i].valid)
      && Count(Failures(cfg, run, Account(0)), Within(cfg.window - 1, cfg.window)) == 2 * cfg.maxAttempts - 1
  {
    TightFailures(cfg, 2 * cfg.maxAttempts);
    AllButFirst(Failures(cfg, TightRun(cfg, 2 * cfg.maxAttempts), Account(0)), Within(cfg.window - 1, cfg.window));
  }

  // ---- lockout ---------------------------------------------------------------------------------

  /** The last window of failures on a key has reached its threshold and is not over at t. */
  ghost predicate FullAt(cfg: Config, k: Key, fs: seq<Failure>, t: int)
  {
    && fs != [] && fs[|fs| - 1].opener < |fs|
    && |fs| - fs[|fs| - 1].opener >= Threshold(cfg, k) && t < fs[fs[|fs| - 1].opener].at + cfg.window
  }

  /**
   * After any sequential logins, an attempt is refused if and only if the last window of failures on its account, or
   * that on its source, is full and not yet over when it is checked.
   */
  lemma RefusedIff(cfg: Config, run: seq<Attempt>, a: Attempt)
    requires cfg.Valid() && Sequential(run + [a])
    ensures OutcomeOf(cfg, After(cfg, run), a) == RateLimited <==>
              FullAt(cfg, Account(a.account), Failures(cfg, run, Account(a.account)), a.checkedAt)
              || FullAt(cfg, Source(a.ip), Failures(cfg, run, Source(a.ip)), a.checkedAt)
  {
    PrefixSequential(run, [a]);
    RunTracked(cfg, run, Account(a.account));
    RunTracked(cfg, run, Source(a.ip));
  }

  /** A login that succeeds starts its account over, and leaves every other account and every source as it was. */
  lemma SuccessStartsOver(cfg: Config, run: seq<Attempt>, a: Attempt)
    requires OutcomeOf(cfg, After(cfg, run), a) == LoggedIn
    ensures var before, after := After(cfg, run), After(cfg, run + [a]);
      && (forall t :: CountAt(after, Account(a.account), t) == 0)
      && (forall k, t :: k != Account(a.account) ==> CountAt(after, k, t) == CountAt(before, k, t))
  {
    assert (run + [a])[..|run|] == run;
  }

  ghost predicate Locked(cfg: Config, counters: Counters, account: nat, t: int)
  {
    && Account(account) in counters && counters[Account(account)].count >= cfg.maxAttempts
    && t < counters[Account(account)].expiresAt
  }

  /** The last window of failures on the account holds as many as the threshold. */
  ghost predicate WindowIsFull(cfg: Config, fs: seq<Failure>)
  {
    |fs| >= cfg.maxAttempts >= 1 && fs[|fs| - 1].opener == |fs| - cfg.maxAttempts
  }

  /**
   * Once a window holds the threshold of failures, every later attempt on the account is refused until the window
   * ends, whatever its credentials and whatever attempts on other accounts come in between.
   */
  lemma LockedUntilExpiry(cfg: Config, run: seq<Attempt>, more: seq<Attempt>, account: nat)
    requires cfg.Valid() && Sequential(run + more)
    requires WindowIsFull(cfg, Failures(cfg, run, Account(account)))
    ensures var fs := Failures(cfg, run, Account(account)); var expiry := fs[|fs| - cfg.maxAttempts].at + cfg.window;
      forall i :: 0 <= i < |more| && more[i].account == account && more[i].checkedAt < expiry ==>
        OutcomeOf(cfg, After(cfg, run + more[..i]), more[i]) == RateLimited
  {
    var fs := Failures(cfg, run, Account(account));
    var expiry := fs[|fs| - cfg.maxAttempts].at + cfg.window;
    PrefixSequential(run, more);
    RunTracked(cfg, run, Account(account));
    forall i | 0 <= i < |more| && more[i].account == account && more[i].checkedAt < expiry
      ensures OutcomeOf(cfg, After(cfg, run + more[..i]), more[i]) == RateLimited
    {
      forall j | 0 <= j < i
        ensures more[j].checkedAt < expiry
      {
        assert (run + more)[|run| + j] == more[j] && (run + more)[|run| + i] == more[i];
      }
      StaysLocked(cfg, run, more[..i], account, expiry);
    }
  }

  lemma PrefixSequential(run: seq<Attempt>, more: seq<Attempt>)
    requires Sequential(run + more)
    ensures Sequential(run)
  {
    assert forall i :: 0 <= i < |run| ==> run[i] == (run + more)[i];
  }

  /** The counter of a locked account is as it was, whoever tries to log in. */
  lemma {:induction false} StaysLocked(cfg: Config, run: seq<Attempt>, more: seq<Attempt>, account: nat, expiry: int)
    requires Account(account) in After(cfg, run) && After(cfg, run)[Account(account)].count >= cfg.maxAttempts
    requires After(cfg, run)[Account(account)].expiresAt == expiry
    requires forall i :: 0 <= i < |more| ==> more[i].checkedAt < expiry
    ensures Account(account) in After(cfg, run + more) && After(cfg, run + more)[Account(account)] == After(cfg, run)[Account(account)]
  {
    if more == [] {
      assert run + more == run;
    } else {
      var n := |more| - 1;
      StaysLocked(cfg, run, more[..n], account, expiry);
      assert (run + more)[..|run + more| - 1] == run + more[..n] && (run + more)[|run + more| - 1] == more[n];
      if more[n].account != account {
        Untouched(cfg, After(cfg, run + more[..n]), more[n], Account(account));
      }
    }
  }

  // ---- in its own form -------------------------------------------------------------------------

  class Limiter {
    const cfg: Config
    var counters: Counters

    constructor (cfg: Config)
      ensures this.cfg == cfg && counters == map[]
    {
      this.cfg := cfg;
      counters := map[];
    }

    /** The TTL Redis reports, in whole seconds; -2 for a missing key. */
    function Ttl(k: Key, t: int): int
      reads this
    {
      if IsLive(counters, k, t) then (counters[k].expiresAt - t + 500) / 1000 else -2
    }

    /** The longest positive TTL among the keys, or the whole window. */
    method LongestTtl(keys: seq<Key>, t: int) returns (longest: int)
      requires cfg.Valid()
      ensures forall i :: 0 <= i < |keys| ==> Ttl(keys[i], t) <= longest
      ensures longest == cfg.window / 1000 || exists i :: 0 <= i < |keys| && Ttl(keys[i], t) == longest
      ensures (exists i :: 0 <= i < |keys| && Ttl(keys[i], t) > 0) ==> exists i :: 0 <= i < |keys| && Ttl(keys[i], t) == longest
      ensures longest >= 0
    {
      var max := 0;
      for i := 0 to |keys|
        invariant max >= 0 && forall j :: 0 <= j < i ==> Ttl(keys[j], t) <= max
        invariant max == 0 || exists j :: 0 <= j < i && Ttl(keys[j], t) == max
      {
        var ttl := Ttl(keys[i], t);
        if ttl > max {
          max := ttl;
        }
      }
      longest := if max > 0 then max else cfg.window / 1000;
    }

    /** A key whose TTL was at most wait seconds is no longer at its limit half a second after that. */
    lemma OverBy(k: Key, t: int, later: int, wait: int)
      requires cfg.Valid() && wait >= 0 && later >= t + 1000 * wait + 500
      requires AtLimit(cfg, counters, k, t) ==> Ttl(k, t) <= wait
      ensures !AtLimit(cfg, counters, k, later)
    {
    }

    /** Limited exactly at a threshold; whoever waits the retry delay, with nothing recorded meanwhile, is let through. */
    method Check(account: nat, ip: nat, t: int) returns (limited: bool, retryAfter: Option<int>)
      requires cfg.Valid()
      ensures limited <==> Limited(cfg, counters, account, ip, t)
      ensures limited <==> retryAfter.Some?
      ensures limited && AtLimit(cfg, counters, Account(account), t) ==> Ttl(Account(account), t) <= retryAfter.value
      ensures limited && AtLimit(cfg, counters, Source(ip), t) ==> Ttl(Source(ip), t) <= retryAfter.value
      ensures limited ==> forall later :: later >= t + 1000 * retryAfter.value + 500 ==> !Limited(cfg, counters, account, ip, later)
    {
      var accountLimited, ipLimited := AtLimit(cfg, counters, Account(account), t), AtLimit(cfg, counters, Source(ip), t);
      if !accountLimited && !ipLimited {
        return false, None;
      }
      var keys: seq<Key> := (if accountLimited then [Account(account)] else []) + (if ipLimited then [Source(ip)] else []);
      assert accountLimited ==> keys[0] == Account(account);
      assert ipLimited ==> keys[|keys| - 1] == Source(ip);
      var longest := LongestTtl(keys, t);
      forall later | later >= t + 1000 * longest + 500
        ensures !Limited(cfg, counters, account, ip, later)
      {
        OverBy(Account(account), t, later, longest);
        OverBy(Source(ip), t, later, longest);
      }
      return true, Some(longest);
    }

    method RecordFailure(account: nat, ip: nat, t: int) returns (accountFailures: nat, ipFailures: nat)
      modifies this
      ensures counters == Recorded(cfg, old(counters), account, ip, t)
      ensures accountFailures == CountAt(old(counters), Account(account), t) + 1
      ensures ipFailures == CountAt(old(counters), Source(ip), t) + 1
    {
      accountFailures := Incr(Account(account), t);
      ipFailures := Incr(Source(ip), t);
    }

    method Incr(k: Key, t: int) returns (count: nat)
      modifies this
      ensures counters == Incremented(cfg, old(counters), k, t)
      ensures count == CountAt(old(counters), k, t) + 1
    {
      if IsLive(counters, k, t) {
        counters := counters[k := counters[k].(count := counters[k].count + 1)];
      } else {
        counters := counters[k := Counter(1, t + cfg.window)];
      }
      count := counters[k].count;
    }

    method ResetAccount(account: nat)
      modifies this
      ensures counters == old(counters) - {Account(account)}
    {
      counters := counters - {Account(account)};
    }

    /** Check, then verify, then record the failure or reset the account. */
    method Login(a: Attempt) returns (outcome: Outcome)
      requires cfg.Valid()
      modifies this
      ensures outcome == OutcomeOf(cfg, old(counters), a) && counters == AfterLogin(cfg, old(counters), a)
    {
      var limited, _ := Check(a.account, a.ip, a.checkedAt);
      if limited {
        return RateLimited;
      }
      if !a.valid {
        var _, _ := RecordFailure(a.account, a.ip, a.endedAt);
        return InvalidCredentials;
      }
      ResetAccount(a.account);
      return LoggedIn;
    }
  }
}
