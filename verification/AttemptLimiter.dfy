// The attempt limit on a secret: five tries, then fifteen minutes in which
// nothing is evaluated. Times are seconds; calls take effect in the order their
// atomic UPDATEs commit, each on the clock it started with.
module AttemptLimiter {
  import opened Prelude

  const MAX_FAILED_ATTEMPTS := 5
  const LOCKOUT_SECONDS := 15 * 60

  datatype Lock = Open | Until(at: int)

  datatype Counter = Counter(attempts: nat, lock: Lock)

  predicate Expired(c: Counter, now: int) { c.lock.Until? && c.lock.at <= now }

  predicate Admits(c: Counter, now: int) { c.lock.Open? || Expired(c, now) }

  // The columns after an admitted attempt.
  function Reserved(c: Counter, now: int): Counter {
    var next := if Expired(c, now) then 1 else c.attempts + 1;
    Counter(next, if next >= MAX_FAILED_ATTEMPTS then Until(now + LOCKOUT_SECONDS) else Open)
  }

  // A row the service can have: it is unlocked below the limit.
  predicate Reachable(c: Counter) { c.lock.Open? ==> c.attempts < MAX_FAILED_ATTEMPTS }

  // ---- The services ----------------------------------------------------------

  datatype Verdict = TooManyAttempts | Wrong | Right

  class Secret {
    var attempts: nat
    var lock: Lock

    constructor ()
      ensures State() == Counter(0, Open)
    {
      attempts, lock := 0, Open;
    }

    function State(): Counter
      reads this
    {
      Counter(attempts, lock)
    }

    // The single conditional UPDATE, as the staff sign-in uses it.
    method ReserveAttempt(now: int) returns (allowed: bool, justLocked: bool)
      modifies this
      ensures allowed <==> Admits(old(State()), now)
      ensures State() == if allowed then Reserved(old(State()), now) else old(State())
      ensures justLocked <==> allowed && State().lock.Until?
    {
      if lock.Until? && lock.at > now {
        return false, false;
      }
      var next := if lock.Until? then 1 else attempts + 1;
      attempts := next;
      lock := if next >= MAX_FAILED_ATTEMPTS then Until(now + LOCKOUT_SECONDS) else Open;
      return true, next >= MAX_FAILED_ATTEMPTS;
    }

    // The customer's secrets: the check runs only once the attempt is counted; a
    // right answer clears the counter; the alert fires on the wrong answer that
    // trips the lock. `meanwhile` is the row as other calls left it while this
    // one was checking, if any did.
    method GuardedVerify(now: int, matches: bool, meanwhile: Option<Counter>)
      returns (verdict: Verdict, alerted: bool)
      modifies this
      ensures verdict.TooManyAttempts? <==> !Admits(old(State()), now)
      ensures !verdict.TooManyAttempts? ==> (verdict.Right? <==> matches)
      ensures State() == match verdict {
                case TooManyAttempts => old(State())
                case Wrong => if meanwhile.Some? then meanwhile.value else Reserved(old(State()), now)
                case Right => Counter(0, Open)
              }
      ensures alerted <==> verdict.Wrong? && Reserved(old(State()), now).lock.Until?
    {
      var allowed, justLocked := ReserveAttempt(now);
      if !allowed {
        return TooManyAttempts, false;
      }
      if meanwhile.Some? {
        attempts, lock := meanwhile.value.attempts, meanwhile.value.lock;
      }
      if matches {
        attempts, lock := 0, Open;
        return Right, false;
      }
      return Wrong, justLocked;
    }
  }

  // ---- All runs of calls -----------------------------------------------------

  // What became of a series of calls with no right answer and no reset: the
  // times of those that were evaluated, and how many said they tripped the lock.
  datatype History = History(counter: Counter, guesses: seq<int>, trips: nat)

  function Calls(start: Counter, calls: seq<int>): History {
    if |calls| == 0 then History(start, [], 0)
    else
      var h := Calls(start, calls[..|calls| - 1]);
      var now := calls[|calls| - 1];
      if Admits(h.counter, now) then
        var c := Reserved(h.counter, now);
        History(c, h.guesses + [now], h.trips + if c.lock.Until? then 1 else 0)
      else h
  }

  // No call commits behind one whose clock is more than `d` ahead of its own.
  predicate SkewAtMost(times: seq<int>, d: nat) {
    forall i, k | 0 <= i < k < |times| :: times[i] <= times[k] + d
  }

  // Six guesses, the first and the last included, take at least `gap`.
  predicate SpacedOut(guesses: seq<int>, gap: int) {
    forall i, k | 0 <= i && i + MAX_FAILED_ATTEMPTS <= k < |guesses| :: guesses[k] - guesses[i] >= gap
  }

  // The guess before the current round, if there is one, is a lockout earlier
  // than the round's first.
  predicate RoundStartsLate(h: History) {
    var n := |h.guesses|;
    var r := h.counter.attempts;
    h.counter.lock.Open? && 0 < r < n ==> h.guesses[n - r] - h.guesses[n - r - 1] >= LOCKOUT_SECONDS
  }

  predicate LockDatesFromLastGuess(h: History) {
    h.counter.lock.Until? && |h.guesses| > 0 ==>
      h.counter.lock.at == h.guesses[|h.guesses| - 1] + LOCKOUT_SECONDS
  }

  // Guesses since the last trip, counting those the row started with.
  function SinceTrip(c: Counter): nat { if c.lock.Until? then 0 else c.attempts }

  predicate Counted(start: Counter, h: History) {
    && Reachable(h.counter)
    && |h.guesses| + SinceTrip(start) == MAX_FAILED_ATTEMPTS * h.trips + SinceTrip(h.counter)
    && (|h.guesses| > 0 && h.counter.lock.Open? ==> h.counter.attempts > 0)
  }

  function AfterGuess(h: History, now: int): History {
    var c := Reserved(h.counter, now);
    History(c, h.guesses + [now], h.trips + if c.lock.Until? then 1 else 0)
  }

  lemma LastCall(start: Counter, calls: seq<int>)
    requires |calls| > 0
    ensures var h := Calls(start, calls[..|calls| - 1]);
            var now := calls[|calls| - 1];
            Calls(start, calls) == if Admits(h.counter, now) then AfterGuess(h, now) else h
  {
  }

  // ---- Counting --------------------------------------------------------------

  lemma {:induction false} CallsAreCounted(start: Counter, calls: seq<int>)
    requires Reachable(start)
    ensures Counted(start, Calls(start, calls))
  {
    if |calls| > 0 {
      CallsAreCounted(start, calls[..|calls| - 1]);
      LastCall(start, calls);
    }
  }

  // The lock is reported tripped once for every five guesses, and never twice
  // in a round, whatever the clocks say.
  lemma OneTripPerRound(start: Counter, calls: seq<int>)
    requires Reachable(start)
    ensures var h := Calls(start, calls);
            h.trips == (|h.guesses| + SinceTrip(start)) / 5
  {
    CallsAreCounted(start, calls);
  }

  // ---- Spacing ---------------------------------------------------------------

  // Guesses are some of the calls, in their order.
  lemma {:induction false} GuessesAreCalls(start: Counter, calls: seq<int>, d: nat)
    requires SkewAtMost(calls, d)
    ensures var g := Calls(start, calls).guesses;
            SkewAtMost(g, d) && forall x | x in g :: x in calls
  {
    if |calls| > 0 {
      var front := calls[..|calls| - 1];
      GuessesAreCalls(start, front, d);
      LastCall(start, calls);
      GuessKeepsSkew(Calls(start, front).guesses, calls, d);
    }
  }

  lemma GuessKeepsSkew(g: seq<int>, calls: seq<int>, d: nat)
    requires |calls| > 0 && SkewAtMost(calls, d) && SkewAtMost(g, d)
    requires forall x | x in g :: x in calls[..|calls| - 1]
    ensures SkewAtMost(g + [calls[|calls| - 1]], d)
    ensures forall x | x in g :: x in calls && x <= calls[|calls| - 1] + d
  {
    forall x | x in g ensures x in calls && x <= calls[|calls| - 1] + d {
      var i :| 0 <= i < |calls| - 1 && calls[..|calls| - 1][i] == x;
      assert calls[i] == x;
    }
    forall i | 0 <= i < |g| ensures g[i] <= calls[|calls| - 1] + d {
      assert g[i] in g;
    }
  }

  // Between a guess and one five behind it the lock was tripped; the lock lasts
  // a lockout by the clock of the guess that tripped it, and that clock and the
  // one that found it run out may each be off by the skew.
  lemma GuessComesLate(h: History, now: int, d: nat, i: nat)
    requires SkewAtMost(h.guesses, d) && forall x | x in h.guesses :: x <= now + d
    requires Admits(h.counter, now) && Reachable(h.counter)
    requires RoundStartsLate(h) && LockDatesFromLastGuess(h)
    requires |h.guesses| > 0 && h.counter.lock.Open? ==> h.counter.attempts > 0
    requires i + MAX_FAILED_ATTEMPTS <= |h.guesses|
    ensures now - h.guesses[i] >= LOCKOUT_SECONDS - 2 * d
  {
    var n := |h.guesses|;
    var r := h.counter.attempts;
    if h.counter.lock.Until? {
      assert i == n - 1 || h.guesses[i] <= h.guesses[n - 1] + d;
    } else {
      assert i == n - r - 1 || h.guesses[i] <= h.guesses[n - r - 1] + d;
      assert h.guesses[n - r] in h.guesses;
    }
  }

  lemma GuessKeepsRound(h: History, now: int)
    requires Admits(h.counter, now) && RoundStartsLate(h) && LockDatesFromLastGuess(h) && Reachable(h.counter)
    requires |h.guesses| > 0 && h.counter.lock.Open? ==> h.counter.attempts > 0
    ensures RoundStartsLate(AfterGuess(h, now)) && LockDatesFromLastGuess(AfterGuess(h, now))
  {
    var h' := AfterGuess(h, now);
    var n := |h.guesses|;
    var r := h'.counter.attempts;
    if h'.counter.lock.Open? && 0 < r < n + 1 {
      if r == 1 {
        assert h'.guesses[n] == now && h'.guesses[n - 1] == h.guesses[n - 1];
      } else {
        assert h'.guesses[n + 1 - r] == h.guesses[n + 1 - r] && h'.guesses[n - r] == h.guesses[n - r];
      }
    }
  }

  lemma GuessKeepsSpacing(g: seq<int>, now: int, gap: int)
    requires SpacedOut(g, gap)
    requires forall i: nat | i + MAX_FAILED_ATTEMPTS <= |g| :: now - g[i] >= gap
    ensures SpacedOut(g + [now], gap)
  {
  }

  predicate WellSpaced(h: History, d: nat) {
    SpacedOut(h.guesses, LOCKOUT_SECONDS - 2 * d) && RoundStartsLate(h) && LockDatesFromLastGuess(h)
  }

  lemma CallKeepsWellSpaced(start: Counter, h: History, now: int, d: nat)
    requires SkewAtMost(h.guesses, d) && forall x | x in h.guesses :: x <= now + d
    requires WellSpaced(h, d) && Counted(start, h) && Admits(h.counter, now)
    ensures WellSpaced(AfterGuess(h, now), d)
  {
    forall i: nat | i + MAX_FAILED_ATTEMPTS <= |h.guesses|
      ensures now - h.guesses[i] >= LOCKOUT_SECONDS - 2 * d
    {
      GuessComesLate(h, now, d, i);
    }
    GuessKeepsSpacing(h.guesses, now, LOCKOUT_SECONDS - 2 * d);
    GuessKeepsRound(h, now);
  }

  lemma {:induction false} CallsAreSpacedOut(start: Counter, calls: seq<int>, d: nat)
    requires Reachable(start) && SkewAtMost(calls, d)
    ensures WellSpaced(Calls(start, calls), d)
  {
    if |calls| > 0 {
      var front, now := calls[..|calls| - 1], calls[|calls| - 1];
      var h := Calls(start, front);
      CallsAreSpacedOut(start, front, d);
      CallsAreCounted(start, front);
      GuessesAreCalls(start, front, d);
      GuessKeepsSkew(h.guesses, calls, d);
      LastCall(start, calls);
      if Admits(h.counter, now) { CallKeepsWellSpaced(start, h, now, d); }
    }
  }

  // ---- Windows ---------------------------------------------------------------

  // How many guesses fall into the `length` seconds from `from`, the end left
  // out.
  function InWindow(guesses: seq<int>, from: int, length: int): nat {
    if |guesses| == 0 then 0
    else InWindow(guesses[..|guesses| - 1], from, length)
         + if from <= guesses[|guesses| - 1] < from + length then 1 else 0
  }

  lemma WindowOfOneMore(g: seq<int>, x: int, from: int, length: int)
    ensures InWindow(g + [x], from, length) == InWindow(g, from, length) + if from <= x < from + length then 1 else 0
  {
    assert (g + [x])[..|g|] == g;
  }

  lemma {:induction false} NoneBeforeTheWindow(g: seq<int>, from: int, length: int, n: nat)
    requires n <= |g| && forall i | 0 <= i < n :: g[i] < from
    ensures InWindow(g[..n], from, length) == 0
  {
    if n > 0 {
      assert g[..n][..n - 1] == g[..n - 1];
      NoneBeforeTheWindow(g, from, length, n - 1);
    }
  }

  lemma {:induction false} WindowGrowsByOnes(g: seq<int>, from: int, length: int, m: nat, n: nat)
    requires m <= n <= |g|
    ensures InWindow(g[..n], from, length) <= InWindow(g[..m], from, length) + n - m
  {
    if m < n {
      assert g[..n][..n - 1] == g[..n - 1];
      WindowGrowsByOnes(g, from, length, m, n - 1);
    }
  }

  lemma {:induction false} SpacedOutWindow(g: seq<int>, from: int, gap: int)
    requires SpacedOut(g, gap)
    ensures InWindow(g, from, gap) <= MAX_FAILED_ATTEMPTS
  {
    var n := |g|;
    if n <= MAX_FAILED_ATTEMPTS {
      WindowGrowsByOnes(g, from, gap, 0, n);
      assert g[..n] == g;
    } else if from <= g[n - 1] < from + gap {
      NoneBeforeTheWindow(g, from, gap, n - MAX_FAILED_ATTEMPTS);
      WindowGrowsByOnes(g, from, gap, n - MAX_FAILED_ATTEMPTS, n);
      assert g[..n] == g;
    } else {
      SpacedOutWindow(g[..n - 1], from, gap);
    }
  }

  // However calls interleave, with clocks at most `d` seconds out of commit
  // order, any 15 minutes less twice `d` hold at most five evaluated guesses;
  // with clocks in order, any 15 minutes do.
  lemma AnyWindowHoldsFive(start: Counter, calls: seq<int>, d: nat, from: int)
    requires Reachable(start) && SkewAtMost(calls, d)
    ensures InWindow(Calls(start, calls).guesses, from, 900 - 2 * d) <= 5
  {
    CallsAreSpacedOut(start, calls, d);
    SpacedOutWindow(Calls(start, calls).guesses, from, LOCKOUT_SECONDS - 2 * d);
  }

  // ---- The bound is the best there is ----------------------------------------

  function Times(x: int, k: nat): seq<int> { if k == 0 then [] else Times(x, k - 1) + [x] }

  // Four guesses whose clocks are `d` ahead, the fifth, which trips the lock,
  // on time; when that has run out a sixth, and two more whose clocks are `d`
  // behind.
  function Skewed(d: nat): seq<int> {
    Times(d, 4) + [0] + [LOCKOUT_SECONDS] + [LOCKOUT_SECONDS - d] + [LOCKOUT_SECONDS - d]
  }

  lemma OneMoreCall(start: Counter, calls: seq<int>, now: int)
    ensures var h := Calls(start, calls);
            Calls(start, calls + [now]) == if Admits(h.counter, now) then AfterGuess(h, now) else h
  {
    assert (calls + [now])[..|calls|] == calls;
  }

  lemma OneMoreBelowTheLimit(calls: seq<int>, k: nat, now: int)
    requires Calls(Counter(0, Open), calls) == History(Counter(k, Open), calls, 0) && k + 1 < MAX_FAILED_ATTEMPTS
    ensures Calls(Counter(0, Open), calls + [now]) == History(Counter(k + 1, Open), calls + [now], 0)
  {
    OneMoreCall(Counter(0, Open), calls, now);
  }

  lemma {:induction false} FirstGuesses(d: nat, k: nat)
    requires k < MAX_FAILED_ATTEMPTS
    ensures Calls(Counter(0, Open), Times(d, k)) == History(Counter(k, Open), Times(d, k), 0)
  {
    if k > 0 {
      var before := Times(d, k - 1);
      FirstGuesses(d, k - 1);
      OneMoreBelowTheLimit(before, k - 1, d);
      assert Times(d, k) == before + [d];
    }
  }

  lemma {:induction false} TimesInWindow(d: nat, k: nat, length: int)
    requires length > 0
    ensures InWindow(Times(d, k), d, length) == k && |Times(d, k)| == k && forall x | x in Times(d, k) :: x == d
  {
    if k > 0 {
      TimesInWindow(d, k - 1, length);
      WindowOfOneMore(Times(d, k - 1), d, d, length);
    }
  }

  lemma AllAreGuesses(d: nat)
    ensures Calls(Counter(0, Open), Skewed(d)).guesses == Skewed(d)
  {
    var start := Counter(0, Open);
    var c4 := Times(d, 4);
    var c5 := c4 + [0];
    var c6 := c5 + [LOCKOUT_SECONDS];
    var c7 := c6 + [LOCKOUT_SECONDS - d];
    FirstGuesses(d, 4);
    OneMoreCall(start, c4, 0);
    assert Calls(start, c5) == History(Counter(5, Until(LOCKOUT_SECONDS)), c5, 1);
    OneMoreCall(start, c5, LOCKOUT_SECONDS);
    assert Calls(start, c6) == History(Counter(1, Open), c6, 1);
    OneMoreCall(start, c6, LOCKOUT_SECONDS - d);
    assert Calls(start, c7) == History(Counter(2, Open), c7, 1);
    OneMoreCall(start, c7, LOCKOUT_SECONDS - d);
  }

  // For every skew there are calls with no more of it that put six guesses into
  // one second more: with any skew at all, into less than 15 minutes.
  lemma WindowCannotBeLonger(d: nat)
    requires 2 * d <= 900
    ensures SkewAtMost(Skewed(d), d)
    ensures InWindow(Calls(Counter(0, Open), Skewed(d)).guesses, d, 901 - 2 * d) > 5
  {
    var c4 := Times(d, 4);
    AllAreGuesses(d);
    TimesInWindow(d, 4, LOCKOUT_SECONDS - 2 * d + 1);
    SkewOfTheRest(d, c4);
    TwoMoreInWindow(d, c4);
  }

  lemma TwoMoreInWindow(d: nat, c4: seq<int>)
    requires 2 * d <= LOCKOUT_SECONDS && InWindow(c4, d, LOCKOUT_SECONDS - 2 * d + 1) == 4
    ensures InWindow(c4 + [0] + [LOCKOUT_SECONDS] + [LOCKOUT_SECONDS - d] + [LOCKOUT_SECONDS - d],
                     d, LOCKOUT_SECONDS - 2 * d + 1) >= 6
  {
    var length := LOCKOUT_SECONDS - 2 * d + 1;
    var c5 := c4 + [0];
    var c6 := c5 + [LOCKOUT_SECONDS];
    var c7 := c6 + [LOCKOUT_SECONDS - d];
    WindowOfOneMore(c4, 0, d, length);
    WindowOfOneMore(c5, LOCKOUT_SECONDS, d, length);
    WindowOfOneMore(c6, LOCKOUT_SECONDS - d, d, length);
    WindowOfOneMore(c7, LOCKOUT_SECONDS - d, d, length);
  }

  lemma SkewOfTheRest(d: nat, c4: seq<int>)
    requires 2 * d <= LOCKOUT_SECONDS && |c4| == 4 && forall x | x in c4 :: x == d
    ensures SkewAtMost(c4 + [0] + [LOCKOUT_SECONDS] + [LOCKOUT_SECONDS - d] + [LOCKOUT_SECONDS - d], d)
  {
    assert forall i | 0 <= i < 4 :: c4[i] in c4;
  }

  // ---- The rate --------------------------------------------------------------

  lemma {:induction false} EveryFifthIsAGapLater(g: seq<int>, gap: int, k: nat)
    requires SpacedOut(g, gap) && MAX_FAILED_ATTEMPTS * k < |g|
    ensures g[MAX_FAILED_ATTEMPTS * k] - g[0] >= gap * k
  {
    if k > 0 {
      EveryFifthIsAGapLater(g, gap, k - 1);
      assert g[MAX_FAILED_ATTEMPTS * k] - g[MAX_FAILED_ATTEMPTS * (k - 1)] >= gap;
      assert gap * (k - 1) + gap == gap * k;
    }
  }

  // n guesses take time: at most five for every gap begun.
  lemma GuessRateIsBounded(start: Counter, calls: seq<int>, d: nat)
    requires Reachable(start) && SkewAtMost(calls, d) && 2 * d < 900
    requires |Calls(start, calls).guesses| > 0
    ensures var g := Calls(start, calls).guesses;
            && g[|g| - 1] - g[0] + d >= 0
            && |g| <= 5 * ((g[|g| - 1] - g[0] + d) / (900 - 2 * d) + 1)
  {
    CallsAreSpacedOut(start, calls, d);
    GuessesAreCalls(start, calls, d);
    SpacedGuessesTakeTime(Calls(start, calls).guesses, d, LOCKOUT_SECONDS - 2 * d);
  }

  lemma SpacedGuessesTakeTime(g: seq<int>, d: nat, gap: int)
    requires |g| > 0 && SkewAtMost(g, d) && SpacedOut(g, gap) && gap > 0
    ensures g[|g| - 1] - g[0] + d >= 0
    ensures |g| <= MAX_FAILED_ATTEMPTS * ((g[|g| - 1] - g[0] + d) / gap + 1)
  {
    var k := (|g| - 1) / MAX_FAILED_ATTEMPTS;
    EveryFifthIsAGapLater(g, gap, k);
    assert MAX_FAILED_ATTEMPTS * k == |g| - 1 || g[MAX_FAILED_ATTEMPTS * k] <= g[|g| - 1] + d;
    assert gap * k >= 0;
    QuotientAtLeast(g[|g| - 1] - g[0] + d, gap, k);
  }

  lemma QuotientAtLeast(span: int, gap: int, k: nat)
    requires gap > 0 && span >= gap * k
    ensures span / gap >= k
  {
    var q := span / gap;
    assert span < gap * q + gap;
    assert q + 1 <= k ==> gap * (q + 1) <= gap * k;
  }
}
