/** The retry wrapper of src/utils.py: the delay generator
    `default_backoff_gen` and the `Backoff` decorator that re-invokes a
    function after each caught failure.  Delays are whole numbers. */
module Retry {
  import opened Wrappers

  /** The value the generator gives `start_delay` before its first yield. */
  function AdjustedStart(start: int): int { if start == 0 then 1 else start }

  /** The delay the generator moves to after yielding `d`. */
  function NextDelay(d: int, limit: int): int { if d < limit then 2 * d else limit }

  /** The n-th value (counting from 0) yielded by `default_backoff_gen(start, limit)`. */
  function DelayAt(start: int, limit: int, n: nat): int
  {
    if n == 0 then AdjustedStart(start) else NextDelay(DelayAt(start, limit, n - 1), limit)
  }

  function Pow2(n: nat): nat { if n == 0 then 1 else 2 * Pow2(n - 1) }

  /** The first `count` values of the infinite generator, produced by its own loop. */
  method DefaultBackoffGen(start: int, limit: int, count: nat) returns (delays: seq<int>)
    ensures |delays| == count
    ensures count > 0 ==> delays[0] == (if start == 0 then 1 else start)
    ensures forall i :: 0 <= i < count - 1 ==>
              delays[i + 1] == (if delays[i] < limit then 2 * delays[i] else limit)
    ensures forall i :: 0 <= i < count ==> delays[i] == DelayAt(start, limit, i)
  {
    var startDelay := start;
    if startDelay == 0 {
      startDelay := 1;
    }
    delays := [];
    while |delays| < count
      invariant |delays| <= count
      invariant startDelay == DelayAt(start, limit, |delays|)
      invariant forall i :: 0 <= i < |delays| ==> delays[i] == DelayAt(start, limit, i)
    {
      ghost var before := delays;
      delays := delays + [startDelay];
      assert forall i :: 0 <= i < |before| ==> delays[i] == before[i];
      if startDelay < limit {
        startDelay := startDelay * 2;
      } else {
        startDelay := limit;
      }
    }
    forall i | 0 <= i < count - 1
      ensures delays[i + 1] == (if delays[i] < limit then 2 * delays[i] else limit)
    {
      assert delays[i + 1] == NextDelay(DelayAt(start, limit, i), limit);
    }
  }

  /** Once a delay at or above the limit has been produced, every later delay is the limit. */
  lemma {:induction false} SaturatedStaysAtLimit(start: int, limit: int, n: nat, m: nat)
    requires DelayAt(start, limit, n) >= limit
    requires n < m
    ensures DelayAt(start, limit, m) == limit
  {
    if m > n + 1 {
      SaturatedStaysAtLimit(start, limit, n, m - 1);
    }
  }

  /** With a non-negative start whose adjusted value is within the limit,
      every delay is positive and below twice the limit. */
  lemma {:induction false} DelayBounded(start: int, limit: int, n: nat)
    requires 0 <= start && AdjustedStart(start) <= limit
    ensures 0 < DelayAt(start, limit, n) < 2 * limit
  {
    if n > 0 {
      DelayBounded(start, limit, n - 1);
    }
  }

  /** While every earlier delay is below the limit, the delay is the
      adjusted start doubled once per step. */
  lemma {:induction false} DelayDoubles(start: int, limit: int, n: nat)
    requires forall k :: 0 <= k < n ==> DelayAt(start, limit, k) < limit
    ensures DelayAt(start, limit, n) == AdjustedStart(start) * Pow2(n)
  {
    if n > 0 {
      DelayDoubles(start, limit, n - 1);
    }
  }

  /** The generator does not produce min(initial * 2^k, limit): a doubling
      can overshoot the limit once before it is clamped (3, 6, 12, 10, ...). */
  lemma OvershootBeforeClamp()
    ensures DelayAt(3, 10, 2) == 12 > 10
    ensures DelayAt(3, 10, 3) == 10
  {
  }

  /** What one attempt of the wrapped function does. */
  datatype Attempt<T> = Returned(value: T) | Raised

  /** What a call of the wrapper gives its caller. */
  datatype CallResult<T> = Value(value: T) | Propagated

  /** The i-th attempt; a function that has run out of scripted outcomes keeps raising. */
  function AttemptAt<T>(func: seq<Attempt<T>>, i: nat): Attempt<T>
  {
    if i < |func| then func[i] else Raised
  }

  /** The number of guarded attempts a call makes at most when it starts with `tries`. */
  function Guarded(tries: int, maxTries: int): nat
  {
    if tries <= maxTries then maxTries - tries + 1 else 0
  }

  /** The index of the first attempt in [i, n) that returns, or n. */
  function FirstReturn<T>(func: seq<Attempt<T>>, i: nat, n: nat): (r: nat)
    requires i <= n
    decreases n - i
    ensures i <= r <= n
    ensures forall j :: i <= j < r ==> AttemptAt(func, j).Raised?
    ensures r < n ==> AttemptAt(func, r).Returned?
  {
    if i == n then n
    else if AttemptAt(func, i).Returned? then i
    else FirstReturn(func, i + 1, n)
  }

  /** The arguments of the `time.sleep` calls made by k caught failures
      when the call started with `delay` == d. */
  function Sleeps(d: int, limit: int, k: nat): (s: seq<int>)
    ensures |s| == k
    ensures k > 0 ==> s[0] == d
    ensures forall j :: 0 < j < k ==> s[j] == DelayAt(d, limit, j - 1)
  {
    if k == 0 then [] else Sleeps(d, limit, k - 1) + [if k == 1 then d else DelayAt(d, limit, k - 2)]
  }

  /** `tries` as the `finally` block sees it. */
  function TriesAtExit<T>(func: seq<Attempt<T>>, tries: int, maxTries: int): int
  {
    tries + FirstReturn(func, 0, Guarded(tries, maxTries))
  }

  /** The condition the source logs "Retry limit exceeded" under. */
  predicate NoticeAsWritten(triesAtExit: int, maxTries: int) { triesAtExit == maxTries }

  /** The condition the notice is meant for: the guarded attempts ran out. */
  predicate NoticeCorrected(triesAtExit: int, maxTries: int) { triesAtExit > maxTries }

  /** As written, the notice is not logged when every guarded attempt failed ... */
  lemma AsWrittenNoticeMissed<T>(func: seq<Attempt<T>>, maxTries: nat)
    requires forall i :: 0 <= i <= maxTries ==> AttemptAt(func, i).Raised?
    ensures !NoticeAsWritten(TriesAtExit(func, 0, maxTries), maxTries)
  {
  }

  /** ... and it is logged when the last guarded attempt succeeds. */
  lemma AsWrittenNoticeSpurious<T>(func: seq<Attempt<T>>, maxTries: nat)
    requires forall i :: 0 <= i < maxTries ==> AttemptAt(func, i).Raised?
    requires AttemptAt(func, maxTries).Returned?
    ensures NoticeAsWritten(TriesAtExit(func, 0, maxTries), maxTries)
  {
  }

  /** The corrected notice is logged exactly when every guarded attempt failed. */
  lemma CorrectedNoticeExactlyOnExhaustion<T>(func: seq<Attempt<T>>, maxTries: nat)
    ensures NoticeCorrected(TriesAtExit(func, 0, maxTries), maxTries)
            <==> forall i :: 0 <= i <= maxTries ==> AttemptAt(func, i).Raised?
  {
  }

  /** The `Backoff` object: its settings and the two fields its calls update. */
  class Backoff {
    var delay: int
    const delayLimit: int
    const maxTries: int
    var tries: int
    /** Every `time.sleep` argument, in order. */
    ghost var sleeps: seq<int>

    constructor (startDelay: int, delayLimit: int, numOfTries: int)
      ensures delay == startDelay && this.delayLimit == delayLimit && maxTries == numOfTries
      ensures tries == 0 && sleeps == []
    {
      delay := startDelay;
      this.delayLimit := delayLimit;
      maxTries := numOfTries;
      tries := 0;
      sleeps := [];
    }

    /** One call of the decorated function (`repeater`): `func` scripts what
        each attempt does.  `attempts` counts the calls of `func`; `notice`
        says whether "Retry limit exceeded" is logged. */
    method Call<T>(func: seq<Attempt<T>>) returns (r: CallResult<T>, attempts: nat, notice: bool)
      modifies this
      ensures var g := Guarded(old(tries), maxTries);
              var k := FirstReturn(func, 0, g);
              && (k < g ==> r == Value(AttemptAt(func, k).value) && attempts == k + 1)
              && (k == g ==>
                    && attempts == g + 1
                    && r == (if AttemptAt(func, g).Returned? then Value(AttemptAt(func, g).value) else Propagated))
              && delay == (if k == 0 then old(delay) else DelayAt(old(delay), delayLimit, k - 1))
              && sleeps == old(sleeps) + Sleeps(old(delay), delayLimit, k)
              && notice == NoticeAsWritten(old(tries) + k, maxTries)
      ensures notice == NoticeAsWritten(TriesAtExit(func, old(tries), maxTries), maxTries)
      ensures tries == 0
    {
      ghost var d0 := delay;
      ghost var g := Guarded(tries, maxTries);
      ghost var k := FirstReturn(func, 0, g);
      // the generator `backoff_gen`: the value its next `next()` yields
      var genNext := AdjustedStart(delay);
      var n: nat := 0;
      while tries <= maxTries
        invariant tries == old(tries) + n
        invariant n <= g
        invariant tries <= maxTries <==> n < g
        invariant forall j :: 0 <= j < n ==> AttemptAt(func, j).Raised?
        invariant genNext == DelayAt(d0, delayLimit, n)
        invariant delay == if n == 0 then d0 else DelayAt(d0, delayLimit, n - 1)
        invariant sleeps == old(sleeps) + Sleeps(d0, delayLimit, n)
        decreases g - n
      {
        var a := AttemptAt(func, n);
        if a.Returned? {
          assert k == n;
          notice := NoticeAsWritten(tries, maxTries);
          tries := 0;
          return Value(a.value), n + 1, notice;
        }
        sleeps := sleeps + [delay];
        delay := genNext;
        genNext := NextDelay(genNext, delayLimit);
        tries := tries + 1;
        n := n + 1;
      }
      assert k == g;
      var a := AttemptAt(func, n);
      r := if a.Returned? then Value(a.value) else Propagated;
      attempts := n + 1;
      notice := NoticeAsWritten(tries, maxTries);
      tries := 0;
    }
  }

  /** Scenario: the run fails once and then succeeds; the wrapper sleeps
      once, for the initial delay, and its counter is back to zero. */
  method FailOnceThenSucceed()
  {
    var b := new Backoff(1, 10, 10);
    var r, attempts, notice := b.Call([Raised, Returned(7)]);
    assert r == Value(7) && attempts == 2 && !notice;
    assert b.sleeps == [1] && b.delay == 1 && b.tries == 0;
    var twice := [Raised, Raised, Returned(8)];
    assert AttemptAt(twice, 0) == AttemptAt(twice, 1) == Raised;
    assert FirstReturn(twice, 2, 11) == 2;
    r, attempts, notice := b.Call(twice);
    assert r == Value(8) && attempts == 3;
    assert b.sleeps == [1, 1, 1] && b.delay == 2;
  }
}
