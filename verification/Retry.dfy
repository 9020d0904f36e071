/** Delays and the retry budget (internal/resilience/retry.go). Durations are nanoseconds. */
module Retry {
  import opened Base

  /** Go's `int` and `time.Duration`: Dafny proves that no operation leaves this range. */
  newtype int64 = x: int | -0x8000_0000_0000_0000 <= x < 0x8000_0000_0000_0000

  const MILLISECOND: int := 1_000_000
  const SECOND: int := 1_000_000_000

  function Pow2(n: nat): (p: nat)
    ensures p >= 1
  {
    if n == 0 then 1 else 2 * Pow2(n - 1)
  }

  /** `b` doubled `n` times. */
  function Doubled(b: nat, n: nat): (r: nat)
    ensures r >= b
  {
    if n == 0 then b else 2 * Doubled(b, n - 1)
  }

  /** The exponential delay of an attempt, never above the limit. */
  function CappedDelay(attempt: int, base: int, limit: int): (d: int)
    ensures Max(base, 1) <= d <= Max(limit, Max(base, 1))
  {
    var b := Max(base, 1);
    Min(Max(limit, b), Doubled(b, Max(attempt, 1) - 1))
  }

  lemma {:induction false} DoubledIsScaled(b: nat, n: nat)
    ensures Doubled(b, n) == b * Pow2(n)
  {
    if n > 0 {
      DoubledIsScaled(b, n - 1);
      assert b * Pow2(n) == 2 * (b * Pow2(n - 1));
    }
  }

  /** Closed form: min(limit, base * 2^(max(attempt,1)-1)) after normalising base and limit. */
  lemma CappedDelayClosedForm(attempt: int, base: int, limit: int)
    ensures var b := Max(base, 1);
            CappedDelay(attempt, base, limit) == Min(Max(limit, b), b * Pow2(Max(attempt, 1) - 1))
  {
    DoubledIsScaled(Max(base, 1), Max(attempt, 1) - 1);
  }

  /** What `Jitter` returns when the random source yields `draw` modulo its bound. */
  function JitterValue(attempt: int, base: int, limit: int, draw: nat): (r: int)
    ensures CappedDelay(attempt, base, limit) / 2 <= r < CappedDelay(attempt, base, limit)
  {
    var d := CappedDelay(attempt, base, limit);
    d / 2 + draw % (d - d / 2)
  }

  function BackoffValue(attempt: int, draw: nat): (r: int)
    ensures SECOND / 2 <= r < 30 * SECOND
    ensures var cap := Min(30 * SECOND, SECOND * Pow2(Max(attempt, 1) - 1)); cap / 2 <= r < cap
  {
    CappedDelayClosedForm(attempt, SECOND, 30 * SECOND);
    JitterValue(attempt, SECOND, 30 * SECOND, draw)
  }

  /** `time.Duration.Milliseconds`: truncation, exact for the non-negative delays used here. */
  function Milliseconds(ns: nat): nat { ns / MILLISECOND }

  lemma {:induction false} DoubledMonotone(b: nat, m: nat, n: nat)
    requires m <= n
    ensures Doubled(b, m) <= Doubled(b, n)
  {
    if m < n {
      DoubledMonotone(b, m, n - 1);
    }
  }

  /** Every value of the promised interval can be drawn, and nothing else. */
  lemma JitterCoversItsInterval(attempt: int, base: int, limit: int, v: int)
    ensures (exists draw: nat :: JitterValue(attempt, base, limit, draw) == v)
       <==> CappedDelay(attempt, base, limit) / 2 <= v < CappedDelay(attempt, base, limit)
  {
    var d := CappedDelay(attempt, base, limit);
    if d / 2 <= v < d {
      var draw: nat := v - d / 2;
      assert JitterValue(attempt, base, limit, draw) == v;
    }
  }

  /** The doubling loop computes the closed form inside 64 bits, in logarithmically many rounds. */
  method ExponentialDelay(attempt: int64, base: int64, limit: int64) returns (delay: int64, ghost rounds: nat)
    ensures delay as int == CappedDelay(attempt as int, base as int, limit as int)
    ensures rounds <= 1 || Doubled(Max(base as int, 1), rounds - 1) <= Max(limit as int, Max(base as int, 1))
  {
    var b: int64 := if base < 1 then 1 else base;
    var l: int64 := if limit < b then b else limit;
    delay := b;
    var n: int64 := 1;
    rounds := 0;
    ghost var top := Max(attempt as int, 1);
    while n < attempt && delay < l
      invariant 1 <= n as int <= top
      invariant rounds == n as int - 1
      invariant b <= delay <= l
      invariant delay as int == Doubled(b as int, n as int - 1)
      decreases top - n as int
    {
      rounds := rounds + 1;
      DoubledMonotone(b as int, n as int, top - 1);
      if delay > l / 2 {
        delay := l;
        break;
      }
      delay := delay * 2;
      n := n + 1;
    }
    DoubledMonotone(b as int, n as int - 1, top - 1);
  }

  method Jitter(attempt: int64, base: int64, limit: int64, draw: nat) returns (r: int64)
    ensures r as int == JitterValue(attempt as int, base as int, limit as int, draw)
  {
    var delay, _ := ExponentialDelay(attempt, base, limit);
    var half := delay / 2;
    r := half + (draw % ((delay - half) as int)) as int64;
  }

  method Backoff(attempt: int64, draw: nat) returns (r: int64)
    ensures r as int == BackoffValue(attempt as int, draw)
  {
    r := Jitter(attempt, 1_000_000_000, 30_000_000_000, draw);
  }

  // ----- Policy.Do -----

  datatype Policy = Policy(attempts: int64, base: int64, max: int64) {
    function Budget(): (n: nat)
      ensures 1 <= n < 0x8000_0000_0000_0000
    {
      Max(attempts as int, 1)
    }
  }

  datatype CtxError = Canceled | DeadlineExceeded

  datatype CallOutcome<+E> = CallOk | CallErr(error: E, retryable: bool)

  /** What attempt number k meets: the context before and after the call, the call, the pause. */
  datatype Attempt<+E> = Attempt(before: Option<CtxError>, outcome: CallOutcome<E>, after: Option<CtxError>,
                                 draw: nat, pause: Option<CtxError>)

  datatype Outcome<+E> = Success | Failed(error: E) | CtxEnded(reason: CtxError)

  /** The calls made, the two metrics, the pauses asked for, and the returned error. */
  datatype Report<+E> = Report(calls: nat, retried: nat, exhausted: nat, pauses: seq<int>, result: Outcome<E>) {
    function After(c: nat, n: nat, earlier: seq<int>): Report<E> {
      Report(c + calls, n + retried, exhausted, earlier + pauses, result)
    }
  }

  /** The attempt ends with a pause after which the loop goes round again. */
  predicate GoesOn<E>(p: Policy, k: nat, a: Attempt<E>) {
    && a.before.None? && a.outcome.CallErr? && a.outcome.retryable && a.after.None?
    && k < p.Budget() && a.pause.None?
  }

  function Pause<E>(p: Policy, k: nat, a: Attempt<E>): int {
    JitterValue(k, p.base as int, p.max as int, a.draw)
  }

  /** The report of the attempts from number k on, for an environment that answers every attempt. */
  function RunFrom<E>(p: Policy, env: nat -> Attempt<E>, k: nat): (r: Report<E>)
    requires 1 <= k <= p.Budget()
    decreases p.Budget() - k
  {
    var a := env(k);
    var again := if k > 1 then 1 else 0;
    if a.before.Some? then Report(0, 0, 0, [], CtxEnded(a.before.value))
    else if a.outcome.CallOk? then Report(1, again, 0, [], Success)
    else if !a.outcome.retryable then Report(1, again, 0, [], Failed(a.outcome.error))
    else if a.after.Some? then Report(1, again, 0, [], CtxEnded(a.after.value))
    else if k >= p.Budget() then Report(1, again, 1, [], Failed(a.outcome.error))
    else if a.pause.Some? then Report(1, again, 0, [Pause(p, k, a)], CtxEnded(a.pause.value))
    else
      var rest := RunFrom(p, env, k + 1);
      Report(1 + rest.calls, again + rest.retried, rest.exhausted, [Pause(p, k, a)] + rest.pauses, rest.result)
  }

  function Sum(s: seq<int>): int {
    if s == [] then 0 else s[0] + Sum(s[1..])
  }

  /** The capped exponential delays of attempts k, k+1, ..., k+n-1 added up. */
  function SumOfCaps(p: Policy, k: nat, n: nat): int
    decreases n
  {
    if n == 0 then 0 else CappedDelay(k, p.base as int, p.max as int) + SumOfCaps(p, k + 1, n - 1)
  }

  lemma StepBefore<E>(p: Policy, env: nat -> Attempt<E>, k: nat, calls: nat, retried: nat, pauses: seq<int>)
    requires 1 <= k < p.Budget() && GoesOn(p, k, env(k))
    ensures RunFrom(p, env, k).After(calls, retried, pauses)
         == RunFrom(p, env, k + 1).After(calls + 1, retried + (if k > 1 then 1 else 0), pauses + [Pause(p, k, env(k))])
  {
    var rest := RunFrom(p, env, k + 1);
    assert pauses + ([Pause(p, k, env(k))] + rest.pauses) == (pauses + [Pause(p, k, env(k))]) + rest.pauses;
  }

  /** The loop of `Policy.Do`, as one run over the environment's answers. */
  method DoWithRetries<E>(p: Policy, env: nat -> Attempt<E>) returns (r: Report<E>)
    ensures r == RunFrom(p, env, 1)
  {
    var attempt := 1;
    var calls, retried := 0, 0;
    var pauses: seq<int> := [];
    while true
      invariant 1 <= attempt <= p.Budget()
      invariant calls == attempt - 1 && retried == Max(calls - 1, 0)
      invariant RunFrom(p, env, 1) == RunFrom(p, env, attempt).After(calls, retried, pauses)
      decreases p.Budget() - attempt
    {
      var a := env(attempt);
      if a.before.Some? {
        return Report(calls, retried, 0, pauses, CtxEnded(a.before.value));
      }
      if attempt > 1 {
        retried := retried + 1;
      }
      calls := calls + 1;
      match a.outcome {
        case CallOk => return Report(calls, retried, 0, pauses, Success);
        case CallErr(error, retryable) =>
          if !retryable {
            return Report(calls, retried, 0, pauses, Failed(error));
          }
          if a.after.Some? {
            return Report(calls, retried, 0, pauses, CtxEnded(a.after.value));
          }
          if attempt >= p.Budget() {
            return Report(calls, retried, 1, pauses, Failed(error));
          }
      }
      var pause := Jitter(attempt as int64, p.base, p.max, a.draw);
      if a.pause.Some? {
        return Report(calls, retried, 0, pauses + [pause as int], CtxEnded(a.pause.value));
      }
      StepBefore(p, env, attempt, calls - 1, retried - (if attempt > 1 then 1 else 0), pauses);
      pauses := pauses + [pause as int];
      attempt := attempt + 1;
    }
  }

  /** Retry accounting for the attempts from k on. */
  lemma {:induction false} AccountingFrom<E>(p: Policy, env: nat -> Attempt<E>, k: nat)
    requires 1 <= k <= p.Budget()
    ensures var r := RunFrom(p, env, k);
            && k + r.calls <= p.Budget() + 1
            && r.retried == (if k > 1 then r.calls else Max(r.calls - 1, 0))
            && r.exhausted <= 1
            && (r.exhausted == 1 <==>
                 var last := env(p.Budget());
                 && k + r.calls == p.Budget() + 1
                 && last.outcome.CallErr? && last.outcome.retryable && last.after.None?)
            && (forall j :: k <= j < k + r.calls - 1 ==> GoesOn(p, j, env(j)))
            && (r.result.Success? <==> r.calls > 0 && env(k + r.calls - 1).outcome.CallOk?)
            && (r.result.Failed? ==> r.calls > 0 && env(k + r.calls - 1).outcome.CallErr?
                                     && env(k + r.calls - 1).outcome.error == r.result.error)
    decreases p.Budget() - k
  {
    if GoesOn(p, k, env(k)) {
      AccountingFrom(p, env, k + 1);
    }
  }

  /** Why the attempts from k on ended where they did, and with what result. */
  ghost predicate EndsWith<E>(p: Policy, env: nat -> Attempt<E>, k: nat, calls: nat, result: Outcome<E>)
    requires 1 <= k <= p.Budget()
  {
    var n: int := k + calls - 1;
    && n <= p.Budget()
    && (forall j :: k <= j <= n ==> env(j).before.None?)
    && (forall j :: k <= j < n ==> GoesOn(p, j, env(j)))
    && if calls > 0 && !GoesOn(p, n, env(n)) then
         match env(n).outcome
         case CallOk => result == Success
         case CallErr(error, retryable) =>
           if !retryable then result == Failed(error)
           else if env(n).after.Some? then result == CtxEnded(env(n).after.value)
           else if n == p.Budget() then result == Failed(error)
           else env(n).pause.Some? && result == CtxEnded(env(n).pause.value)
       else n < p.Budget() && env(n + 1).before.Some? && result == CtxEnded(env(n + 1).before.value)
  }

  lemma {:induction false} EndingFrom<E>(p: Policy, env: nat -> Attempt<E>, k: nat)
    requires 1 <= k <= p.Budget()
    ensures var r := RunFrom(p, env, k); EndsWith(p, env, k, r.calls, r.result)
    decreases p.Budget() - k
  {
    if GoesOn(p, k, env(k)) {
      EndingFrom(p, env, k + 1);
    }
  }

  /** Exactly when `Policy.Do` stops and what it returns: the first attempt that does not go on decides. */
  lemma RetryEnding<E>(p: Policy, env: nat -> Attempt<E>)
    ensures var r := RunFrom(p, env, 1); EndsWith(p, env, 1, r.calls, r.result)
  {
    EndingFrom(p, env, 1);
  }

  /** The pauses asked for stay under the capped exponential delays. */
  lemma {:induction false} PausesFrom<E>(p: Policy, env: nat -> Attempt<E>, k: nat)
    requires 1 <= k <= p.Budget()
    ensures var r := RunFrom(p, env, k);
            && Sum(r.pauses) <= SumOfCaps(p, k, |r.pauses|)
            && r.calls - 1 <= |r.pauses| <= r.calls && |r.pauses| <= p.Budget() - k
    decreases p.Budget() - k
  {
    if GoesOn(p, k, env(k)) {
      PausesFrom(p, env, k + 1);
      var rest := RunFrom(p, env, k + 1);
      assert ([Pause(p, k, env(k))] + rest.pauses)[1..] == rest.pauses;
    }
  }

  /** Each pause is at least half of its capped exponential delay. */
  lemma {:induction false} PauseFrom<E>(p: Policy, env: nat -> Attempt<E>, k: nat, i: nat)
    requires 1 <= k <= p.Budget() && i < |RunFrom(p, env, k).pauses|
    ensures var cap := CappedDelay(k + i, p.base as int, p.max as int);
            cap / 2 <= RunFrom(p, env, k).pauses[i] < cap
    decreases p.Budget() - k
  {
    if GoesOn(p, k, env(k)) && i > 0 {
      PauseFrom(p, env, k + 1, i - 1);
    }
  }

  /** Retry accounting of one whole `Policy.Do`. */
  lemma RetryAccounting<E>(p: Policy, env: nat -> Attempt<E>)
    ensures var r := RunFrom(p, env, 1);
            && r.calls <= p.Budget()
            && r.retried == Max(r.calls - 1, 0)
            && r.exhausted <= 1
            && (r.exhausted == 1 <==>
                 var last := env(p.Budget());
                 && r.calls == p.Budget()
                 && last.outcome.CallErr? && last.outcome.retryable && last.after.None?)
            && (forall j :: 1 <= j < r.calls ==> GoesOn(p, j, env(j)))
            && (r.result.Success? <==> r.calls > 0 && env(r.calls).outcome.CallOk?)
            && (r.result.Failed? ==> r.calls > 0 && env(r.calls).outcome.CallErr?
                                     && env(r.calls).outcome.error == r.result.error)
            && r.calls - 1 <= |r.pauses| <= r.calls && |r.pauses| <= p.Budget() - 1
            && Sum(r.pauses) <= SumOfCaps(p, 1, |r.pauses|)
            && (forall i :: 0 <= i < |r.pauses| ==>
                  var base := Max(p.base as int, 1);
                  var cap := Min(Max(p.max as int, base), base * Pow2(i));
                  cap / 2 <= r.pauses[i] < cap)
  {
    AccountingFrom(p, env, 1);
    PausesFrom(p, env, 1);
    forall i: nat | i < |RunFrom(p, env, 1).pauses|
      ensures var base := Max(p.base as int, 1);
              var cap := Min(Max(p.max as int, base), base * Pow2(i));
              cap / 2 <= RunFrom(p, env, 1).pauses[i] < cap
    {
      PauseFrom(p, env, 1, i);
      CappedDelayClosedForm(1 + i, p.base as int, p.max as int);
    }
  }
}
