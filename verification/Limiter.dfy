/** The fixed-window rate limiter (internal/ratelimit/ratelimit.go). Times are milliseconds. */
module Limiter {
  import opened Base

  datatype Key = Key(client: string, window: int)

  datatype Counter = Counter(count: nat, expiresAt: int)

  type Counters = map<Key, Counter>

  /** The number of whole seconds in the window, as the key formula uses it. */
  function Seconds(windowMs: int): int { windowMs / 1000 }

  /** `time.Now().Unix() / int64(window.Seconds())`. */
  function WindowOf(at: int, windowMs: int): int
    requires windowMs >= 1000
  {
    (at / 1000) / Seconds(windowMs)
  }

  /** The first moment after the window. */
  function WindowEnd(window: int, windowMs: int): int { (window + 1) * Seconds(windowMs) * 1000 }

  predicate Live(v: Counters, k: Key, now: int) { k in v && now < v[k].expiresAt }

  /** The hit script: INCR, and PEXPIRE on the first hit. */
  function HitCount(v: Counters, k: Key, now: int): nat { if Live(v, k, now) then v[k].count + 1 else 1 }

  function HitStore(v: Counters, k: Key, now: int, windowMs: int): Counters {
    v[k := Counter(HitCount(v, k, now), if Live(v, k, now) then v[k].expiresAt else now + windowMs)]
  }

  class Valkey {
    var counters: Counters

    predicate Valid()
      reads this
    {
      forall k :: k in counters ==> counters[k].count >= 1
    }

    constructor ()
      ensures Valid() && counters == map[]
    {
      counters := map[];
    }

    method Hit(k: Key, now: int, windowMs: int) returns (count: nat)
      requires Valid()
      modifies this
      ensures Valid()
      ensures count == HitCount(old(counters), k, now) && counters == HitStore(old(counters), k, now, windowMs)
    {
      var expiresAt := now;
      count := 1;
      if k in counters && now < counters[k].expiresAt {
        count, expiresAt := counters[k].count + 1, counters[k].expiresAt;
      }
      if count == 1 {
        expiresAt := now + windowMs;
      }
      counters := counters[k := Counter(count, expiresAt)];
    }
  }

  /** How the counter call went: answered, executed with the reply lost, or never executed. */
  datatype Reach = Answered | ReplyLost | NotExecuted

  class RateLimiter {
    const store: Valkey
    const windowMs: int
    var limit: int

    constructor (store: Valkey, limit: int, windowMs: int)
      requires windowMs >= 1000
      ensures this.store == store && this.limit == limit && this.windowMs == windowMs
    {
      this.store, this.limit, this.windowMs := store, limit, windowMs;
    }

    method SetLimit(n: int)
      modifies this
      ensures limit == if n <= 0 then old(limit) else n
    {
      if n > 0 {
        limit := n;
      }
    }

    /** The middleware, with the key formed at `at` and the hit executed at `counted`. */
    method Serve(client: string, at: int, counted: int, reach: Reach) returns (v: Verdict)
      requires store.Valid() && windowMs >= 1000
      modifies store
      ensures store.Valid()
      ensures v == VerdictOf(old(store.counters), client, at, counted, reach, limit, windowMs)
      ensures store.counters == CountersAfter(old(store.counters), client, at, counted, reach, windowMs)
    {
      var key := Key(client, WindowOf(at, windowMs));
      var count := 0;
      if reach != NotExecuted {
        count := store.Hit(key, counted, windowMs);
      }
      if reach != Answered {
        var hit := if reach == NotExecuted then None else Some(counted);
        return Verdict(key, at, limit, hit, None, true); // the limiter is unavailable: let the request through
      }
      v := Verdict(key, at, limit, Some(counted), Some(count), count <= limit);
    }
  }

  /**
    One served request: its key, when the key was formed, the limit in force, when its hit was executed if it was, its
    count if known, and whether it passed.
   */
  datatype Verdict = Verdict(key: Key, at: int, limit: int, hit: Option<int>, count: Option<nat>, passed: bool)

  function VerdictOf(v: Counters, client: string, at: int, counted: int, reach: Reach, limit: int, windowMs: int)
    : Verdict
    requires windowMs >= 1000
  {
    var key := Key(client, WindowOf(at, windowMs));
    if reach == Answered
    then Verdict(key, at, limit, Some(counted), Some(HitCount(v, key, counted)), HitCount(v, key, counted) <= limit)
    else Verdict(key, at, limit, if reach == NotExecuted then None else Some(counted), None, true)
  }

  function CountersAfter(v: Counters, client: string, at: int, counted: int, reach: Reach, windowMs: int): Counters
    requires windowMs >= 1000
  {
    if reach == NotExecuted then v else HitStore(v, Key(client, WindowOf(at, windowMs)), counted, windowMs)
  }

  // ----- Runs -----

  /** One request: hits are executed in the order of the run, each with the limit it then reads. */
  datatype Request = Request(client: string, at: int, counted: int, reach: Reach, limit: int)

  datatype State = State(counters: Counters, now: int, hist: seq<Verdict>)

  predicate Enabled(s: State, r: Request) { s.now <= r.counted && r.at <= r.counted }

  function Apply(s: State, r: Request, windowMs: int): State
    requires windowMs >= 1000
  {
    State(CountersAfter(s.counters, r.client, r.at, r.counted, r.reach, windowMs), r.counted,
          s.hist + [VerdictOf(s.counters, r.client, r.at, r.counted, r.reach, r.limit, windowMs)])
  }

  function Exec(start: int, run: seq<Request>, windowMs: int): Option<State>
    requires windowMs >= 1000
  {
    if run == [] then Some(State(map[], start, []))
    else
      var s := Exec(start, Init(run), windowMs);
      if s.Some? && Enabled(s.value, Last(run)) then Some(Apply(s.value, Last(run), windowMs)) else None
  }

  /** Every hit is executed before the window named in its key is over. */
  predicate InTime(run: seq<Request>, windowMs: int)
    requires windowMs >= 1000
  {
    forall i :: 0 <= i < |run| ==> run[i].counted < WindowEnd(WindowOf(run[i].at, windowMs), windowMs)
  }

  /** The executed hits of the key. */
  function Hits(h: seq<Verdict>, k: Key): nat {
    if h == [] then 0 else Hits(Init(h), k) + if Last(h).key == k && Last(h).hit.Some? then 1 else 0
  }

  /** When the first hit of the key was executed. */
  function FirstHit(h: seq<Verdict>, k: Key): Option<int> {
    if h == [] then None
    else if FirstHit(Init(h), k).Some? then FirstHit(Init(h), k)
    else if Last(h).key == k then Last(h).hit else None
  }

  /** No hit of the key was executed one window length or more after its first. */
  predicate Sustained(h: seq<Verdict>, k: Key, windowMs: int) {
    forall i :: 0 <= i < |h| && h[i].key == k && h[i].hit.Some? && FirstHit(h, k).Some? ==>
      h[i].hit.value < FirstHit(h, k).value + windowMs
  }

  /** Requests of the key that passed on their count. */
  function CountedPasses(h: seq<Verdict>, k: Key): nat {
    if h == [] then 0
    else CountedPasses(Init(h), k) + if Last(h).key == k && Last(h).count.Some? && Last(h).passed then 1 else 0
  }

  /** Requests of the key that passed because the limiter was unavailable. */
  function WavedThrough(h: seq<Verdict>, k: Key): nat {
    if h == [] then 0 else WavedThrough(Init(h), k) + if Last(h).key == k && Last(h).count.None? then 1 else 0
  }

  function Passes(h: seq<Verdict>, k: Key): nat {
    if h == [] then 0 else Passes(Init(h), k) + if Last(h).key == k && Last(h).passed then 1 else 0
  }

  /** The largest limit any counted request of the key was judged by. */
  function LargestLimit(h: seq<Verdict>, k: Key): nat {
    if h == [] then 0
    else if Last(h).key == k && Last(h).count.Some? then Max(Last(h).limit, LargestLimit(Init(h), k))
    else LargestLimit(Init(h), k)
  }

  /** The counter is exact exactly while the hits are sustained; then it bounds the passes. */
  ghost predicate KeyInv(s: State, k: Key, windowMs: int)
    requires windowMs >= 1000
  {
    && (k in s.counters <==> Hits(s.hist, k) > 0) && (FirstHit(s.hist, k).Some? <==> Hits(s.hist, k) > 0)
    && (k in s.counters && Sustained(s.hist, k, windowMs) ==>
          s.counters[k] == Counter(Hits(s.hist, k), FirstHit(s.hist, k).value + windowMs))
    && (k in s.counters && !Sustained(s.hist, k, windowMs) ==> s.counters[k].count < Hits(s.hist, k))
    && (k in s.counters ==> WindowEnd(k.window, windowMs) <= s.counters[k].expiresAt)
  }

  ghost predicate PassInv(s: State, k: Key, windowMs: int)
    requires windowMs >= 1000
  {
    && (Sustained(s.hist, k, windowMs) ==>
          CountedPasses(s.hist, k) <= LargestLimit(s.hist, k) && CountedPasses(s.hist, k) <= Hits(s.hist, k))
    && Passes(s.hist, k) <= CountedPasses(s.hist, k) + WavedThrough(s.hist, k)
  }

  /** A window is as long as its seconds, and contains the moments that name it. */
  lemma WindowContains(at: int, windowMs: int)
    requires windowMs >= 1000
    ensures var w := WindowOf(at, windowMs);
            WindowEnd(w, windowMs) - Seconds(windowMs) * 1000 <= at < WindowEnd(w, windowMs)
  {
    var x, n := at / 1000, Seconds(windowMs);
    var w := x / n;
    assert x == w * n + x % n;
    assert (w + 1) * n == w * n + n;
  }

  /** Forming the key and counting at one clock reading is always in time. */
  lemma OneReadingIsInTime(run: seq<Request>, windowMs: int)
    requires windowMs >= 1000 && forall i :: 0 <= i < |run| ==> run[i].counted == run[i].at
    ensures InTime(run, windowMs)
  {
    forall i | 0 <= i < |run| ensures run[i].counted < WindowEnd(WindowOf(run[i].at, windowMs), windowMs) {
      WindowContains(run[i].at, windowMs);
    }
  }

  /** A counter started in its window outlives that window. */
  lemma OutlivesWindow(at: int, counted: int, windowMs: int)
    requires windowMs >= 1000 && at <= counted
    ensures WindowEnd(WindowOf(at, windowMs), windowMs) <= counted + windowMs
  {
    WindowContains(at, windowMs);
  }

  lemma SustainedSnoc(h: seq<Verdict>, v: Verdict, k: Key, windowMs: int)
    requires windowMs >= 1000
    requires FirstHit(h, k).Some? <==> Hits(h, k) > 0
    ensures Sustained(h + [v], k, windowMs)
            <==> Sustained(h, k, windowMs)
                 && (v.key == k && v.hit.Some? && FirstHit(h, k).Some? ==>
                       v.hit.value < FirstHit(h, k).value + windowMs)
  {
    InitLast(h, v);
    NoHits(h, k);
    if Sustained(h + [v], k, windowMs) {
      forall i | 0 <= i < |h| && h[i].key == k && h[i].hit.Some? && FirstHit(h, k).Some?
        ensures h[i].hit.value < FirstHit(h, k).value + windowMs
      {
        assert (h + [v])[i] == h[i];
      }
      assert (h + [v])[|h|] == v;
    }
  }

  lemma {:induction false} NoHits(h: seq<Verdict>, k: Key)
    ensures Hits(h, k) == 0 ==> forall i :: 0 <= i < |h| && h[i].key == k ==> h[i].hit.None?
  {
    if h != [] {
      NoHits(Init(h), k);
    }
  }

  lemma KeyStep(s: State, r: Request, windowMs: int, k: Key)
    requires windowMs >= 1000 && KeyInv(s, k, windowMs) && Enabled(s, r)
    ensures KeyInv(Apply(s, r, windowMs), k, windowMs)
  {
    OutlivesWindow(r.at, r.counted, windowMs);
    var v := VerdictOf(s.counters, r.client, r.at, r.counted, r.reach, r.limit, windowMs);
    InitLast(s.hist, v);
    SustainedSnoc(s.hist, v, k, windowMs);
  }

  lemma PassStep(s: State, r: Request, windowMs: int, k: Key)
    requires windowMs >= 1000 && KeyInv(s, k, windowMs) && PassInv(s, k, windowMs) && Enabled(s, r)
    ensures PassInv(Apply(s, r, windowMs), k, windowMs)
  {
    var v := VerdictOf(s.counters, r.client, r.at, r.counted, r.reach, r.limit, windowMs);
    InitLast(s.hist, v);
    SustainedSnoc(s.hist, v, k, windowMs);
  }

  lemma {:induction false} EveryRun(start: int, run: seq<Request>, windowMs: int, k: Key)
    requires windowMs >= 1000 && Exec(start, run, windowMs).Some?
    ensures KeyInv(Exec(start, run, windowMs).value, k, windowMs)
    ensures PassInv(Exec(start, run, windowMs).value, k, windowMs)
  {
    if run != [] {
      EveryRun(start, Init(run), windowMs, k);
      KeyStep(Exec(start, Init(run), windowMs).value, Last(run), windowMs, k);
      PassStep(Exec(start, Init(run), windowMs).value, Last(run), windowMs, k);
    }
  }

  /** A key's counter equals the number of its executed hits exactly when they all came within one window length. */
  lemma CounterIsExactIff(start: int, run: seq<Request>, windowMs: int, k: Key)
    requires windowMs >= 1000 && Exec(start, run, windowMs).Some? && k in Exec(start, run, windowMs).value.counters
    ensures var s := Exec(start, run, windowMs).value;
            s.counters[k].count == Hits(s.hist, k) <==> Sustained(s.hist, k, windowMs)
  {
    EveryRun(start, run, windowMs, k);
  }

  /**
    Per client and window, when the hits are sustained, at most the largest limit in force plus the requests waved
    through pass; and in any case a counter never expires inside the window it names.
   */
  lemma LimitHolds(start: int, run: seq<Request>, windowMs: int, k: Key)
    requires windowMs >= 1000 && Exec(start, run, windowMs).Some?
    ensures var s := Exec(start, run, windowMs).value;
            && (Sustained(s.hist, k, windowMs) ==>
                  && CountedPasses(s.hist, k) <= LargestLimit(s.hist, k)
                  && Passes(s.hist, k) <= LargestLimit(s.hist, k) + WavedThrough(s.hist, k))
            && (k in s.counters ==> WindowEnd(k.window, windowMs) <= s.counters[k].expiresAt)
  {
    EveryRun(start, run, windowMs, k);
  }

  /** Every executed hit of the key was answered and judged by the limit n. */
  ghost predicate JudgedBy(h: seq<Verdict>, k: Key, n: int) {
    forall i :: 0 <= i < |h| && h[i].key == k && (h[i].hit.Some? || h[i].count.Some?) ==>
      h[i].hit.Some? && h[i].count.Some? && h[i].limit == n
  }

  lemma JudgedSnoc(h: seq<Verdict>, v: Verdict, k: Key, n: int)
    requires JudgedBy(h + [v], k, n)
    ensures JudgedBy(h, k, n)
    ensures v.key == k && (v.hit.Some? || v.count.Some?) ==> v.hit.Some? && v.count.Some? && v.limit == n
  {
    assert (h + [v])[|h|] == v;
    assert forall i :: 0 <= i < |h| ==> (h + [v])[i] == h[i];
  }

  /** The counted passes fill the limit, and a restarted counter lets one more through. */
  ghost predicate FillInv(s: State, k: Key, n: int, windowMs: int) {
    var passes, late := CountedPasses(s.hist, k), !Sustained(s.hist, k, windowMs);
    && LargestLimit(s.hist, k) <= Max(n, 0) && passes <= Hits(s.hist, k) && (n <= 0 ==> passes == 0)
    && (n > 0 && k in s.counters ==> passes >= Min(s.counters[k].count, n) + if late then 1 else 0)
    && (n > 0 && late ==> passes >= Min(n + 1, Hits(s.hist, k)))
  }

  lemma FillStep(s: State, r: Request, windowMs: int, k: Key, n: int)
    requires windowMs >= 1000 && KeyInv(s, k, windowMs) && FillInv(s, k, n, windowMs) && Enabled(s, r)
    requires JudgedBy(Apply(s, r, windowMs).hist, k, n)
    ensures FillInv(Apply(s, r, windowMs), k, n, windowMs)
  {
    var v := VerdictOf(s.counters, r.client, r.at, r.counted, r.reach, r.limit, windowMs);
    InitLast(s.hist, v);
    JudgedSnoc(s.hist, v, k, n);
    SustainedSnoc(s.hist, v, k, windowMs);
  }

  lemma {:induction false} EveryRunFills(start: int, run: seq<Request>, windowMs: int, k: Key, n: int)
    requires windowMs >= 1000 && Exec(start, run, windowMs).Some?
    requires JudgedBy(Exec(start, run, windowMs).value.hist, k, n)
    ensures FillInv(Exec(start, run, windowMs).value, k, n, windowMs)
  {
    if run != [] {
      var s, r := Exec(start, Init(run), windowMs).value, Last(run);
      JudgedSnoc(s.hist, VerdictOf(s.counters, r.client, r.at, r.counted, r.reach, r.limit, windowMs), k, n);
      EveryRunFills(start, Init(run), windowMs, k, n);
      EveryRun(start, Init(run), windowMs, k);
      FillStep(s, r, windowMs, k, n);
    }
  }

  /**
    Exactly when a limit is kept: when the hits of the key are sustained, or there are no more of them than the limit,
    or the limit lets nothing through.
   */
  lemma LimitHoldsIff(start: int, run: seq<Request>, windowMs: int, k: Key, n: int)
    requires windowMs >= 1000 && Exec(start, run, windowMs).Some?
    requires JudgedBy(Exec(start, run, windowMs).value.hist, k, n)
    ensures var h := Exec(start, run, windowMs).value.hist;
            CountedPasses(h, k) <= Max(n, 0) <==> Sustained(h, k, windowMs) || Hits(h, k) <= n || n <= 0
  {
    EveryRun(start, run, windowMs, k);
    EveryRunFills(start, run, windowMs, k, n);
  }

  /** Executing every hit before the window named in its key is over is enough. */
  lemma {:induction false} InTimeIsSustained(start: int, run: seq<Request>, windowMs: int, k: Key)
    requires windowMs >= 1000 && Exec(start, run, windowMs).Some? && InTime(run, windowMs)
    ensures var h := Exec(start, run, windowMs).value.hist;
            && Sustained(h, k, windowMs)
            && (FirstHit(h, k).Some? ==> WindowEnd(k.window, windowMs) <= FirstHit(h, k).value + windowMs)
  {
    if run != [] {
      var s, r := Exec(start, Init(run), windowMs).value, Last(run);
      var v := VerdictOf(s.counters, r.client, r.at, r.counted, r.reach, r.limit, windowMs);
      assert InTime(Init(run), windowMs) && run[|run| - 1] == r;
      InTimeIsSustained(start, Init(run), windowMs, k);
      EveryRun(start, Init(run), windowMs, k);
      OutlivesWindow(r.at, r.counted, windowMs);
      InitLast(s.hist, v);
      SustainedSnoc(s.hist, v, k, windowMs);
    }
  }

  /** Requests of the key served so far. */
  function Requests(h: seq<Verdict>, k: Key): nat {
    if h == [] then 0 else Requests(Init(h), k) + if Last(h).key == k then 1 else 0
  }

  lemma {:induction false} CountsAreEarned(start: int, run: seq<Request>, windowMs: int, k: Key)
    requires windowMs >= 1000 && Exec(start, run, windowMs).Some?
    ensures var s := Exec(start, run, windowMs).value; k in s.counters ==> s.counters[k].count <= Requests(s.hist, k)
  {
    if run != [] {
      CountsAreEarned(start, Init(run), windowMs, k);
      var s := Exec(start, Init(run), windowMs).value;
      InitLast(s.hist, VerdictOf(s.counters, Last(run).client, Last(run).at, Last(run).counted, Last(run).reach,
                                 Last(run).limit, windowMs));
    }
  }

  /** A request is refused only after as many requests of its client and window as the limit allows. */
  lemma RefusedOnlyWhenFull(start: int, run: seq<Request>, windowMs: int, r: Request)
    requires windowMs >= 1000 && Exec(start, run, windowMs).Some? && Enabled(Exec(start, run, windowMs).value, r)
    ensures var s := Exec(start, run, windowMs).value;
            var v := VerdictOf(s.counters, r.client, r.at, r.counted, r.reach, r.limit, windowMs);
            !v.passed ==> r.limit <= Requests(s.hist, Key(r.client, WindowOf(r.at, windowMs)))
  {
    CountsAreEarned(start, run, windowMs, Key(r.client, WindowOf(r.at, windowMs)));
  }

  /** Two hits of one key, the second one window length after the first. */
  const LATE_RUN: seq<Request> := [Request("c", 0, 0, Answered, 1), Request("c", 999, 1000, Answered, 1)]

  lemma LateHistory()
    ensures Exec(0, LATE_RUN, 1000).Some?
    ensures var k := Key("c", 0);
            Exec(0, LATE_RUN, 1000).value.hist
            == [Verdict(k, 0, 1, Some(0), Some(1), true), Verdict(k, 999, 1, Some(1000), Some(1), true)]
  {
    var a, b := LATE_RUN[0], LATE_RUN[1];
    assert Init(LATE_RUN) == [a] && Init([a]) == [];
    var s0 := State(map[], 0, []);
    assert Exec(0, [], 1000) == Some(s0);
    var s1 := Apply(s0, a, 1000);
    assert Exec(0, [a], 1000) == Some(s1);
    assert s1.counters == map[Key("c", 0) := Counter(1, 1000)];
    assert Exec(0, LATE_RUN, 1000) == Some(Apply(s1, b, 1000));
  }

  /** Counting one window length after the first hit restarts the counter: two requests pass a limit of one. */
  lemma LateCountingBreaksTheLimit()
    ensures Exec(0, LATE_RUN, 1000).Some?
    ensures var h, k := Exec(0, LATE_RUN, 1000).value.hist, Key("c", 0);
            && !Sustained(h, k, 1000)
            && Passes(h, k) == 2 && LargestLimit(h, k) == 1 && WavedThrough(h, k) == 0
  {
    LateHistory();
    var h, k := Exec(0, LATE_RUN, 1000).value.hist, Key("c", 0);
    var a, b := h[0], h[1];
    assert h == [] + [a] + [b];
    InitLast([], a);
    InitLast([] + [a], b);
    assert FirstHit([] + [a], k) == Some(0) && h[1].hit == Some(1000);
    assert Passes([] + [a], k) == 1 + Passes([], k) == 1;
    assert LargestLimit([] + [a], k) == Max(1, LargestLimit([], k)) == 1;
    assert WavedThrough([] + [a], k) == WavedThrough([], k) == 0;
  }

  // ----- Any stretch of one window length -----

  /** Counted passes of the client whose key was formed in [from, to). */
  function PassesBetween(h: seq<Verdict>, client: string, from: int, to: int): nat {
    if h == [] then 0
    else
      PassesBetween(Init(h), client, from, to)
      + (var v := Last(h);
         if v.key.client == client && v.count.Some? && v.passed && from <= v.at < to then 1 else 0)
  }

  ghost predicate Dated(h: seq<Verdict>, windowMs: int)
    requires windowMs >= 1000
  {
    forall v :: v in h ==> v.key.window == WindowOf(v.at, windowMs)
  }

  lemma Cancel(x: int, y: int, n: int)
    requires n > 0 && x * n < y * n
    ensures x < y
  {
  }

  lemma QuotientsWithin(x: int, y: int, n: int)
    requires n > 0 && x <= y <= x + n
    ensures x / n <= y / n <= x / n + 1
  {
    var q, q' := x / n, y / n;
    assert x == q * n + x % n && y == q' * n + y % n;
    assert (q' + 1) * n == q' * n + n && (q + 2) * n == q * n + 2 * n;
    Cancel(q, q' + 1, n);
    Cancel(q', q + 2, n);
  }

  lemma TwoWindows(a: int, at: int, windowMs: int)
    requires windowMs >= 1000 && a <= at < a + Seconds(windowMs) * 1000
    ensures WindowOf(a, windowMs) <= WindowOf(at, windowMs) <= WindowOf(a, windowMs) + 1
  {
    QuotientsWithin(a / 1000, at / 1000, Seconds(windowMs));
  }

  lemma {:induction false} StretchSplits(h: seq<Verdict>, client: string, a: int, windowMs: int)
    requires windowMs >= 1000 && Dated(h, windowMs)
    ensures var w := WindowOf(a, windowMs);
            PassesBetween(h, client, a, a + Seconds(windowMs) * 1000)
              <= CountedPasses(h, Key(client, w)) + CountedPasses(h, Key(client, w + 1))
  {
    if h != [] {
      assert Last(h) in h;
      StretchSplits(Init(h), client, a, windowMs);
      if a <= Last(h).at < a + Seconds(windowMs) * 1000 {
        TwoWindows(a, Last(h).at, windowMs);
      }
    }
  }

  lemma {:induction false} RunsAreDated(start: int, run: seq<Request>, windowMs: int)
    requires windowMs >= 1000 && Exec(start, run, windowMs).Some?
    ensures Dated(Exec(start, run, windowMs).value.hist, windowMs)
  {
    if run != [] {
      RunsAreDated(start, Init(run), windowMs);
    }
  }

  lemma {:induction false} LimitsBound(h: seq<Verdict>, k: Key, top: nat)
    requires forall v :: v in h ==> v.limit <= top
    ensures LargestLimit(h, k) <= top
  {
    if h != [] {
      assert Last(h) in h;
      LimitsBound(Init(h), k, top);
    }
  }

  lemma KeptBelow(start: int, run: seq<Request>, windowMs: int, k: Key, top: nat)
    requires windowMs >= 1000 && Exec(start, run, windowMs).Some?
    requires Sustained(Exec(start, run, windowMs).value.hist, k, windowMs)
    requires forall v :: v in Exec(start, run, windowMs).value.hist ==> v.limit <= top
    ensures CountedPasses(Exec(start, run, windowMs).value.hist, k) <= top
  {
    EveryRun(start, run, windowMs, k);
    LimitsBound(Exec(start, run, windowMs).value.hist, k, top);
  }

  /** Any stretch of one window length passes at most twice the largest limit of counted requests. */
  lemma StretchHolds(start: int, run: seq<Request>, windowMs: int, client: string, a: int, top: nat)
    requires windowMs >= 1000 && Exec(start, run, windowMs).Some?
    requires var w, h := WindowOf(a, windowMs), Exec(start, run, windowMs).value.hist;
             Sustained(h, Key(client, w), windowMs) && Sustained(h, Key(client, w + 1), windowMs)
    requires forall v :: v in Exec(start, run, windowMs).value.hist ==> v.limit <= top
    ensures PassesBetween(Exec(start, run, windowMs).value.hist, client, a, a + Seconds(windowMs) * 1000) <= 2 * top
  {
    var h := Exec(start, run, windowMs).value.hist;
    var w := WindowOf(a, windowMs);
    RunsAreDated(start, run, windowMs);
    StretchSplits(h, client, a, windowMs);
    KeptBelow(start, run, windowMs, Key(client, w), top);
    KeptBelow(start, run, windowMs, Key(client, w + 1), top);
  }
}
