/** The circuit breaker (internal/resilience/breaker.go). Times are nanoseconds. */
module CircuitBreaker {
  import opened Base
  import opened Retry

  datatype Mode = Closed | Open | HalfOpen

  /** The mutable fields of `Breaker`, as one value. */
  datatype State = State(mode: Mode, failures: nat, generation: nat, probe: bool, until: int)

  /** How a call ended, as `complete` tells errors apart. */
  datatype Ending = Succeeded | Cancelled | Errored

  const THRESHOLD: nat := 3
  const COOLDOWN: int := 10 * SECOND

  const FRESH: State := State(Closed, 0, 0, false, 0)

  function Transition(s: State, next: Mode): State {
    s.(mode := next, generation := s.generation + 1)
  }

  /** `admit`: the new state, and the generation stamped on an admitted call. */
  function Admit(s: State, now: int): (State, Option<nat>) {
    if s.mode == Open && now < s.until then (s, None)
    else
      var t := if s.mode == Open then Transition(s, HalfOpen) else s;
      if t.mode == HalfOpen && t.probe then (t, None)
      else if t.mode == HalfOpen then (t.(probe := true), Some(t.generation))
      else (t, Some(t.generation))
  }

  /** `complete` of a call stamped `generation`, ending at `now`. */
  function Complete(s: State, generation: nat, ending: Ending, now: int, draw: nat): State {
    if generation != s.generation then s
    else
      var t := s.(probe := false);
      match ending
      case Cancelled => t
      case Succeeded =>
        var u := t.(failures := 0);
        if u.mode == HalfOpen then Transition(u, Closed) else u
      case Errored =>
        var u := t.(failures := t.failures + 1);
        if u.mode == HalfOpen || u.failures >= THRESHOLD
        then Transition(u.(until := now + JitterValue(1, COOLDOWN, COOLDOWN, draw)), Open)
        else u
  }

  /** What another call does to the breaker: it asks to enter, or leaves with the generation it was stamped with. */
  datatype Visit = Enters(at: int) | Leaves(stamp: nat, ending: Ending, at: int, draw: nat)

  function Visited(s: State, visits: seq<Visit>): State {
    if visits == [] then s
    else
      var t := Visited(s, Init(visits));
      match Last(visits)
      case Enters(at) => Admit(t, at).0
      case Leaves(stamp, ending, at, draw) => Complete(t, stamp, ending, at, draw)
  }

  /** The calls metric, by result. */
  datatype Tally = Tally(rejected: nat, succeeded: nat, cancelled: nat, errored: nat)

  /** The breaker object; `rejected` .. `errored` are the labels of the calls metric. */
  class Breaker {
    var mode: Mode
    var failures: nat
    var generation: nat
    var probe: bool
    var until: int
    var rejected: nat
    var succeeded: nat
    var cancelled: nat
    var errored: nat

    function Abs(): State
      reads this
    {
      State(mode, failures, generation, probe, until)
    }

    function Counts(): Tally
      reads this
    {
      Tally(rejected, succeeded, cancelled, errored)
    }

    constructor ()
      ensures Abs() == FRESH && Counts() == Tally(0, 0, 0, 0)
    {
      mode, failures, generation, probe, until := Closed, 0, 0, false, 0;
      rejected, succeeded, cancelled, errored := 0, 0, 0, 0;
    }

    method MoveTo(next: Mode)
      modifies this`mode, this`generation
      ensures Abs() == Transition(old(Abs()), next)
    {
      mode := next;
      generation := generation + 1;
    }

    method TryAdmit(now: int) returns (stamp: nat, allowed: bool)
      modifies this`mode, this`generation, this`probe
      ensures (Abs(), if allowed then Some(stamp) else None) == Admit(old(Abs()), now)
    {
      if mode == Open {
        if now < until {
          return 0, false;
        }
        MoveTo(HalfOpen);
      }
      if mode == HalfOpen {
        if probe {
          return 0, false;
        }
        probe := true;
      }
      return generation, true;
    }

    method Settle(stamp: nat, ending: Ending, now: int, draw: nat)
      modifies this`mode, this`failures, this`generation, this`probe, this`until
      ensures Abs() == Complete(old(Abs()), stamp, ending, now, draw)
    {
      if stamp != generation {
        return;
      }
      probe := false;
      if ending == Cancelled {
        return;
      }
      if ending == Succeeded {
        failures := 0;
        if mode == HalfOpen {
          MoveTo(Closed);
        }
        return;
      }
      failures := failures + 1;
      if mode == HalfOpen || failures >= THRESHOLD {
        var pause := Jitter(1, 10_000_000_000, 10_000_000_000, draw);
        until := now + pause as int;
        MoveTo(Open);
      }
    }

    /** Other calls come and go. */
    method Overlap(visits: seq<Visit>)
      modifies this`mode, this`failures, this`generation, this`probe, this`until
      ensures Abs() == Visited(old(Abs()), visits)
    {
      for n := 0 to |visits|
        invariant Abs() == Visited(old(Abs()), visits[..n])
      {
        assert visits[..n + 1] == visits[..n] + [visits[n]];
        InitLast(visits[..n], visits[n]);
        match visits[n]
        case Enters(at) => var _, _ := TryAdmit(at);
        case Leaves(stamp, ending, at, draw) => Settle(stamp, ending, at, draw);
      }
      assert visits[..|visits|] == visits;
    }

    /** The metric increment of `Do` after an admitted call. */
    method Record(ending: Ending)
      modifies this`succeeded, this`cancelled, this`errored
      ensures succeeded == old(succeeded) + (if ending == Succeeded then 1 else 0)
      ensures cancelled == old(cancelled) + (if ending == Cancelled then 1 else 0)
      ensures errored == old(errored) + (if ending == Errored then 1 else 0)
    {
      match ending
      case Succeeded => succeeded := succeeded + 1;
      case Cancelled => cancelled := cancelled + 1;
      case Errored => errored := errored + 1;
    }

    /** The end of `Do`: record the outcome, then complete. */
    method Finish(stamp: nat, ending: Ending, now: int, draw: nat)
      modifies this
      ensures Abs() == Complete(old(Abs()), stamp, ending, now, draw)
      ensures rejected == old(rejected)
      ensures succeeded == old(succeeded) + (if ending == Succeeded then 1 else 0)
      ensures cancelled == old(cancelled) + (if ending == Cancelled then 1 else 0)
      ensures errored == old(errored) + (if ending == Errored then 1 else 0)
    {
      Record(ending);
      Settle(stamp, ending, now, draw);
    }
  }

  // ----- Overlapping calls -----

  /** What the history remembers of each event, in order. */
  datatype Mark =
    | Admitted(call: nat, stamp: nat, at: int)
    | Refused(at: int)
    | Finished(call: nat, stamp: nat, current: nat, ending: Ending, at: int)
    | Moved(from: Mode, to: Mode, at: int)

  /** The breaker with its unfinished calls, each carrying the generation it was admitted under. */
  datatype World = World(b: State, calls: map<nat, nat>, now: int, hist: seq<Mark>)

  datatype Action = Enter(call: nat, at: int) | Leave(call: nat, ending: Ending, at: int, draw: nat)

  predicate Enabled(w: World, a: Action) {
    && w.now <= a.at
    && (a.Enter? ==> a.call !in w.calls)
    && (a.Leave? ==> a.call in w.calls)
  }

  function Moves(before: State, after: State, at: int): seq<Mark> {
    if before.mode != after.mode then [Moved(before.mode, after.mode, at)] else []
  }

  function Step(w: World, a: Action): World
    requires Enabled(w, a)
  {
    match a
    case Enter(call, at) =>
      var (b, stamp) := Admit(w.b, at);
      World(b, if stamp.Some? then w.calls[call := stamp.value] else w.calls, at,
            w.hist + Moves(w.b, b, at) + [if stamp.Some? then Admitted(call, stamp.value, at) else Refused(at)])
    case Leave(call, ending, at, draw) =>
      var b := Complete(w.b, w.calls[call], ending, at, draw);
      World(b, w.calls - {call}, at,
            w.hist + [Finished(call, w.calls[call], w.b.generation, ending, at)] + Moves(w.b, b, at))
  }

  function Start(at: int): World { World(FRESH, map[], at, []) }

  /** The world after a run of overlapping calls started at time `at`; None when a step was not possible. */
  function Exec(at: int, run: seq<Action>): Option<World> {
    if run == [] then Some(Start(at))
    else
      var w := Exec(at, Init(run));
      if w.Some? && Enabled(w.value, Last(run)) then Some(Step(w.value, Last(run))) else None
  }

  // ----- Single probe -----

  /** The unfinished calls admitted under generation g. */
  function Holders(calls: map<nat, nat>, g: nat): set<nat> {
    set c | c in calls && calls[c] == g
  }

  ghost predicate ProbeInv(w: World) {
    && (w.b.probe ==> w.b.mode == HalfOpen)
    && (w.b.mode == HalfOpen ==> |Holders(w.calls, w.b.generation)| == if w.b.probe then 1 else 0)
    && (forall c :: c in w.calls ==> w.calls[c] <= w.b.generation)
    && (w.b.mode == Open ==> Holders(w.calls, w.b.generation) == {})
  }

  lemma HoldersAdded(calls: map<nat, nat>, c: nat, stamp: nat, g: nat)
    requires c !in calls
    ensures Holders(calls[c := stamp], g) == Holders(calls, g) + (if stamp == g then {c} else {})
  {
  }

  lemma HoldersRemoved(calls: map<nat, nat>, c: nat, g: nat)
    ensures Holders(calls - {c}, g) == Holders(calls, g) - {c}
  {
  }

  lemma NoHoldersAhead(calls: map<nat, nat>, g: nat)
    requires forall c :: c in calls ==> calls[c] <= g
    ensures Holders(calls, g + 1) == {}
  {
  }

  lemma ProbeEnter(w: World, call: nat, at: int)
    requires ProbeInv(w) && Enabled(w, Enter(call, at))
    ensures ProbeInv(Step(w, Enter(call, at)))
  {
    var g := w.b.generation;
    NoHoldersAhead(w.calls, g);
    HoldersAdded(w.calls, call, g, g);
    HoldersAdded(w.calls, call, g + 1, g + 1);
  }

  lemma ProbeLeave(w: World, call: nat, ending: Ending, at: int, draw: nat)
    requires ProbeInv(w) && Enabled(w, Leave(call, ending, at, draw))
    ensures ProbeInv(Step(w, Leave(call, ending, at, draw)))
  {
    var g := w.b.generation;
    HoldersRemoved(w.calls, call, g);
    NoHoldersAhead(w.calls - {call}, g);
    assert w.calls[call] == g <==> call in Holders(w.calls, g);
    var b := Complete(w.b, w.calls[call], ending, at, draw);
    if w.calls[call] != g {
      assert Holders(w.calls - {call}, g) == Holders(w.calls, g);
      assert b == w.b;
    } else {
      assert b.generation == g || b.generation == g + 1;
    }
  }

  // ----- The failure counter -----

  /** The completion counts for generation g: not stale when it arrived, and not a cancellation. */
  predicate Counts(m: Mark, g: nat) {
    m.Finished? && m.stamp == g && m.current == g && m.ending != Cancelled
  }

  /** The length of the trailing run of errors among the completions that count for g. */
  function TrailingErrors(h: seq<Mark>, g: nat): nat {
    if h == [] then 0
    else if !Counts(Last(h), g) then TrailingErrors(Init(h), g)
    else if Last(h).ending == Errored then 1 + TrailingErrors(Init(h), g)
    else 0
  }

  lemma TrailingSnoc(h: seq<Mark>, m: Mark, g: nat)
    ensures TrailingErrors(h + [m], g) ==
            if !Counts(m, g) then TrailingErrors(h, g)
            else if m.ending == Errored then 1 + TrailingErrors(h, g)
            else 0
  {
    InitLast(h, m);
  }

  lemma TrailingMoves(h: seq<Mark>, before: State, after: State, at: int, g: nat)
    ensures TrailingErrors(h + Moves(before, after, at), g) == TrailingErrors(h, g)
  {
    if before.mode == after.mode {
      assert h + [] == h;
    } else {
      TrailingSnoc(h, Moved(before.mode, after.mode, at), g);
    }
  }

  lemma {:induction false} NothingCountsAhead(h: seq<Mark>, g: nat)
    requires forall m :: m in h && m.Finished? ==> m.current < g
    ensures TrailingErrors(h, g) == 0
  {
    if h != [] {
      assert Last(h) in h;
      NothingCountsAhead(Init(h), g);
    }
  }

  ghost predicate CounterInv(w: World) {
    && (forall m :: m in w.hist && m.Finished? ==> m.current <= w.b.generation)
    && (w.b.mode == Closed ==> w.b.failures == TrailingErrors(w.hist, w.b.generation) < THRESHOLD)
  }

  lemma CounterEnter(w: World, call: nat, at: int)
    requires CounterInv(w) && Enabled(w, Enter(call, at))
    ensures CounterInv(Step(w, Enter(call, at)))
  {
    var b := Admit(w.b, at).0;
    var m := Last(Step(w, Enter(call, at)).hist);
    assert b.generation >= w.b.generation && (b.mode == Closed ==> b == w.b);
    assert Step(w, Enter(call, at)).hist == w.hist + Moves(w.b, b, at) + [m];
    TrailingMoves(w.hist, w.b, b, at, b.generation);
    TrailingSnoc(w.hist + Moves(w.b, b, at), m, b.generation);
  }

  /** What one completion does to the trailing run of the generation it met. */
  lemma TrailingLeave(w: World, call: nat, ending: Ending, at: int, draw: nat, g: nat)
    requires Enabled(w, Leave(call, ending, at, draw))
    ensures TrailingErrors(Step(w, Leave(call, ending, at, draw)).hist, g) ==
            if !(w.calls[call] == w.b.generation == g && ending != Cancelled) then TrailingErrors(w.hist, g)
            else if ending == Errored then 1 + TrailingErrors(w.hist, g)
            else 0
  {
    var b := Complete(w.b, w.calls[call], ending, at, draw);
    var m := Finished(call, w.calls[call], w.b.generation, ending, at);
    TrailingSnoc(w.hist, m, g);
    TrailingMoves(w.hist + [m], w.b, b, at, g);
  }

  /** A completion that leaves the circuit closed. */
  lemma ClosedAfter(b: State, stamp: nat, ending: Ending, at: int, draw: nat)
    ensures var b' := Complete(b, stamp, ending, at, draw);
            && b.generation <= b'.generation
            && (b'.mode == Closed ==>
                  if b.mode == Closed then
                    && b'.generation == b.generation
                    && b'.failures == (if stamp != b.generation || ending == Cancelled then b.failures
                                       else if ending == Errored then b.failures + 1 else 0)
                    && (stamp == b.generation && ending == Errored ==> b'.failures < THRESHOLD)
                  else b'.generation == b.generation + 1 && b'.failures == 0 && ending == Succeeded)
  {
  }

  lemma CounterLeave(w: World, call: nat, ending: Ending, at: int, draw: nat)
    requires CounterInv(w) && Enabled(w, Leave(call, ending, at, draw))
    ensures CounterInv(Step(w, Leave(call, ending, at, draw)))
  {
    var g := w.b.generation;
    ClosedAfter(w.b, w.calls[call], ending, at, draw);
    TrailingLeave(w, call, ending, at, draw, g);
    TrailingLeave(w, call, ending, at, draw, g + 1);
    NothingCountsAhead(w.hist, g + 1);
  }

  // ----- The transitions -----

  predicate LegalMove(from: Mode, to: Mode) {
    || (from == Closed && to == Open)
    || (from == Open && to == HalfOpen)
    || (from == HalfOpen && to != HalfOpen)
  }

  /** The mode a history of moves leads to, starting closed. */
  function ModeAfter(h: seq<Mark>): Mode {
    if h == [] then Closed else if Last(h).Moved? then Last(h).to else ModeAfter(Init(h))
  }

  function MoveCount(h: seq<Mark>): nat {
    if h == [] then 0 else MoveCount(Init(h)) + if Last(h).Moved? then 1 else 0
  }

  /** Every move is one of the four, and leaves the mode the previous move led to. */
  predicate LegalHistory(h: seq<Mark>) {
    h == [] || (LegalHistory(Init(h))
                && (Last(h).Moved? ==> Last(h).from == ModeAfter(Init(h)) && LegalMove(Last(h).from, Last(h).to)))
  }

  ghost predicate MovesInv(w: World) {
    && LegalHistory(w.hist)
    && ModeAfter(w.hist) == w.b.mode
    && MoveCount(w.hist) == w.b.generation
  }

  lemma MoveSnoc(h: seq<Mark>, m: Mark)
    ensures ModeAfter(h + [m]) == if m.Moved? then m.to else ModeAfter(h)
    ensures MoveCount(h + [m]) == MoveCount(h) + if m.Moved? then 1 else 0
    ensures LegalHistory(h + [m]) ==
            (LegalHistory(h) && (m.Moved? ==> m.from == ModeAfter(h) && LegalMove(m.from, m.to)))
  {
    InitLast(h, m);
  }

  lemma MovesAppended(h: seq<Mark>, before: State, after: State, at: int)
    requires LegalHistory(h) && ModeAfter(h) == before.mode
    requires before.mode != after.mode ==> LegalMove(before.mode, after.mode)
    ensures var h' := h + Moves(before, after, at);
            && LegalHistory(h') && ModeAfter(h') == after.mode
            && MoveCount(h') == MoveCount(h) + if before.mode != after.mode then 1 else 0
  {
    if before.mode == after.mode {
      assert h + [] == h;
    } else {
      MoveSnoc(h, Moved(before.mode, after.mode, at));
    }
  }

  lemma MovesEnter(w: World, call: nat, at: int)
    requires MovesInv(w) && Enabled(w, Enter(call, at))
    ensures MovesInv(Step(w, Enter(call, at)))
  {
    var b := Admit(w.b, at).0;
    var stamp := Admit(w.b, at).1;
    assert b.generation == w.b.generation + if b.mode != w.b.mode then 1 else 0;
    MovesAppended(w.hist, w.b, b, at);
    MoveSnoc(w.hist + Moves(w.b, b, at), if stamp.Some? then Admitted(call, stamp.value, at) else Refused(at));
  }

  /** An open breaker has no call of its own generation left, so nothing can complete into it. */
  lemma OpenMeansStale(w: World, call: nat)
    requires ProbeInv(w) && call in w.calls && w.b.mode == Open
    ensures w.calls[call] != w.b.generation
  {
    assert call !in Holders(w.calls, w.b.generation);
  }

  lemma MovesLeave(w: World, call: nat, ending: Ending, at: int, draw: nat)
    requires MovesInv(w) && ProbeInv(w) && Enabled(w, Leave(call, ending, at, draw))
    ensures MovesInv(Step(w, Leave(call, ending, at, draw)))
  {
    var b := Complete(w.b, w.calls[call], ending, at, draw);
    var m := Finished(call, w.calls[call], w.b.generation, ending, at);
    MoveSnoc(w.hist, m);
    if w.b.mode == Open {
      OpenMeansStale(w, call);
    }
    MovesAppended(w.hist + [m], w.b, b, at);
  }

  // ----- The cool-down window -----

  /** When the breaker last tripped. */
  function LastTrip(h: seq<Mark>): Option<int> {
    if h == [] then None
    else if Last(h).Moved? && Last(h).to == Open then Some(Last(h).at)
    else LastTrip(Init(h))
  }

  lemma TripSnoc(h: seq<Mark>, m: Mark)
    ensures LastTrip(h + [m]) == if m.Moved? && m.to == Open then Some(m.at) else LastTrip(h)
  {
    InitLast(h, m);
  }

  /** No call of the history was admitted less than five seconds after an earlier trip. */
  ghost predicate Cooled(h: seq<Mark>) {
    forall i, j :: 0 <= i < j < |h| && h[i].Moved? && h[i].to == Open && h[j].Admitted?
                   ==> h[i].at + 5 * SECOND <= h[j].at
  }

  ghost predicate CoolInv(w: World) { CoolState(w.hist, w.b, w.now) }

  ghost predicate CoolState(h: seq<Mark>, b: State, now: int) {
    && Cooled(h)
    && (b.mode == Open ==>
          && LastTrip(h).Some?
          && LastTrip(h).value + 5 * SECOND <= b.until < LastTrip(h).value + 10 * SECOND)
    && (forall m :: m in h && m.Moved? && m.to == Open ==>
          m.at + 5 * SECOND <= now || (b.mode == Open && m.at + 5 * SECOND <= b.until))
  }

  lemma CoolAsked(h: seq<Mark>, b: State, now: int, m: Mark, b': State, at: int)
    requires CoolState(h, b, now) && now <= at && (m.Refused? || (m.Admitted? && m.at == at))
    requires if b'.mode == Open then b' == b && m.Refused? else b.mode == Open ==> b.until <= at
    ensures CoolState(h + Moves(b, b', at) + [m], b', at)
  {
    if b.mode != b'.mode {
      TripSnoc(h, Moved(b.mode, b'.mode, at));
    } else {
      assert h + [] == h;
    }
    TripSnoc(h + Moves(b, b', at), m);
  }

  lemma CoolEnter(w: World, call: nat, at: int)
    requires CoolInv(w) && Enabled(w, Enter(call, at))
    ensures CoolInv(Step(w, Enter(call, at)))
  {
    var (b, stamp) := Admit(w.b, at);
    CoolAsked(w.hist, w.b, w.now, if stamp.Some? then Admitted(call, stamp.value, at) else Refused(at), b, at);
  }

  /** A completion that trips the breaker keeps it open for at least five and less than ten seconds. */
  lemma TripAfter(b: State, stamp: nat, ending: Ending, at: int, draw: nat)
    ensures var b' := Complete(b, stamp, ending, at, draw);
            && (stamp != b.generation ==> b' == b)
            && (b.mode != Open && b'.mode == Open ==> at + 5 * SECOND <= b'.until < at + 10 * SECOND)
  {
  }

  lemma CoolAfter(h: seq<Mark>, b: State, now: int, m: Mark, b': State, at: int)
    requires CoolState(h, b, now) && now <= at && m.Finished?
    requires if b.mode == Open then b' == b else b'.mode == Open ==> at + 5 * SECOND <= b'.until < at + 10 * SECOND
    ensures CoolState(h + [m] + Moves(b, b', at), b', at)
  {
    TripSnoc(h, m);
    if b.mode != b'.mode {
      TripSnoc(h + [m], Moved(b.mode, b'.mode, at));
    } else {
      assert (h + [m]) + [] == h + [m];
    }
  }

  lemma CoolLeave(w: World, call: nat, ending: Ending, at: int, draw: nat)
    requires CoolInv(w) && ProbeInv(w) && Enabled(w, Leave(call, ending, at, draw))
    ensures CoolInv(Step(w, Leave(call, ending, at, draw)))
  {
    if w.b.mode == Open {
      OpenMeansStale(w, call);
    }
    TripAfter(w.b, w.calls[call], ending, at, draw);
    var m := Finished(call, w.calls[call], w.b.generation, ending, at);
    CoolAfter(w.hist, w.b, w.now, m, Complete(w.b, w.calls[call], ending, at, draw), at);
  }

  // ----- Whole runs -----

  /** Every state of every run of overlapping calls keeps all four invariants. */
  lemma {:induction false} EveryRun(at: int, run: seq<Action>)
    requires Exec(at, run).Some?
    ensures var w := Exec(at, run).value; ProbeInv(w) && CounterInv(w) && MovesInv(w) && CoolInv(w)
  {
    if run == [] {
      assert Holders(map[], 0) == {};
    } else {
      EveryRun(at, Init(run));
      var w := Exec(at, Init(run)).value;
      match Last(run)
      case Enter(call, t) =>
        ProbeEnter(w, call, t);
        CounterEnter(w, call, t);
        MovesEnter(w, call, t);
        CoolEnter(w, call, t);
      case Leave(call, ending, t, draw) =>
        ProbeLeave(w, call, ending, t, draw);
        CounterLeave(w, call, ending, t, draw);
        MovesLeave(w, call, ending, t, draw);
        CoolLeave(w, call, ending, t, draw);
    }
  }

  /** In half-open the calls holding the current generation number one if the probe is out, else none. */
  lemma SingleProbe(at: int, run: seq<Action>)
    requires Exec(at, run).Some?
    ensures var w := Exec(at, run).value;
            && (w.b.probe ==> w.b.mode == HalfOpen)
            && (w.b.mode == HalfOpen ==> |Holders(w.calls, w.b.generation)| == if w.b.probe then 1 else 0)
  {
    EveryRun(at, run);
  }

  /** A completion changes the breaker only if its call was admitted after the latest move, and never an open one. */
  lemma OldAnswersChangeNothing(at: int, run: seq<Action>, a: Action)
    requires Exec(at, run).Some? && a.Leave? && Enabled(Exec(at, run).value, a)
    ensures var w := Exec(at, run).value;
            Step(w, a).b != w.b ==> w.calls[a.call] == MoveCount(w.hist) && w.b.mode != Open
  {
    EveryRun(at, run);
    var w := Exec(at, run).value;
    if w.b.mode == Open {
      OpenMeansStale(w, a.call);
    }
  }

  /** The circuit leaves closed on exactly the step that makes the trailing run three errors long. */
  lemma LeavesClosedOnThirdError(at: int, run: seq<Action>, a: Action)
    requires Exec(at, run).Some? && Exec(at, run).value.b.mode == Closed
    requires Enabled(Exec(at, run).value, a)
    ensures var w := Exec(at, run).value;
            && w.b.failures == TrailingErrors(w.hist, w.b.generation) < 3
            && (Step(w, a).b.mode != Closed <==> TrailingErrors(Step(w, a).hist, w.b.generation) == 3)
            && (Step(w, a).b.mode != Closed ==> Step(w, a).b.mode == Open)
  {
    EveryRun(at, run);
    var w := Exec(at, run).value;
    match a
    case Enter(call, t) =>
      assert w.hist + [] == w.hist;
      TrailingSnoc(w.hist, Last(Step(w, a).hist), w.b.generation);
    case Leave(call, ending, t, draw) => TrailingLeave(w, call, ending, t, draw, w.b.generation);
  }

  /**
    The answer of the probe decides: a success closes the circuit with a clean count, an error opens it again, a
    cancellation leaves it half-open and frees the probe for another call.
   */
  lemma ProbeDecides(at: int, run: seq<Action>, a: Action)
    requires Exec(at, run).Some? && a.Leave? && Enabled(Exec(at, run).value, a)
    requires var w := Exec(at, run).value; w.b.mode == HalfOpen && w.calls[a.call] == MoveCount(w.hist)
    ensures var b := Step(Exec(at, run).value, a).b;
            && !b.probe
            && (a.ending == Succeeded ==> b.mode == Closed && b.failures == 0)
            && (a.ending == Errored ==> b.mode == Open && a.at + 5 * SECOND <= b.until < a.at + 10 * SECOND)
            && (a.ending == Cancelled ==> b.mode == HalfOpen)
  {
    EveryRun(at, run);
    var w := Exec(at, run).value;
    TripAfter(w.b, w.calls[a.call], a.ending, a.at, a.draw);
  }

  /** The call was let in. */
  predicate LetIn(w: World, call: nat, t: int)
    requires Enabled(w, Enter(call, t))
  {
    call in Step(w, Enter(call, t)).calls
  }

  /**
    Who is let in: everybody while closed, nobody while the probe is out, one probe at the end of the cool-down. Only
    that last entry moves the circuit, and a refused call changes nothing.
   */
  lemma AdmissionDecides(at: int, run: seq<Action>, call: nat, t: int)
    requires Exec(at, run).Some? && Enabled(Exec(at, run).value, Enter(call, t))
    ensures var w := Exec(at, run).value;
            var b := Step(w, Enter(call, t)).b;
            && (LetIn(w, call, t) <==> match w.b.mode
                                       case Closed => true
                                       case HalfOpen => Holders(w.calls, MoveCount(w.hist)) == {}
                                       case Open => w.b.until <= t)
            && (w.b.mode == Closed || !LetIn(w, call, t) ==> b == w.b)
            && (w.b.mode != Closed && LetIn(w, call, t) ==> b.mode == HalfOpen && b.probe)
  {
    EveryRun(at, run);
    var w := Exec(at, run).value;
    var holders := Holders(w.calls, w.b.generation);
    assert |holders| == 0 <==> holders == {};
  }

  /** The generation is the number of moves made, each one legal and leaving the mode before it. */
  lemma GenerationCountsMoves(at: int, run: seq<Action>)
    requires Exec(at, run).Some?
    ensures var w := Exec(at, run).value;
            MoveCount(w.hist) == w.b.generation && LegalHistory(w.hist) && ModeAfter(w.hist) == w.b.mode
  {
    EveryRun(at, run);
  }

  /**
    After a trip at T nothing is admitted before T + 5 s, and a call that finds the breaker still open
    at or after T + 10 s is admitted, as the only probe.
   */
  lemma CoolDownWindow(at: int, run: seq<Action>, call: nat, t: int)
    requires Exec(at, run).Some? && Enabled(Exec(at, run).value, Enter(call, t))
    ensures Cooled(Step(Exec(at, run).value, Enter(call, t)).hist)
    ensures var w := Exec(at, run).value;
            w.b.mode == Open && LastTrip(w.hist).Some? && LastTrip(w.hist).value + 10 * SECOND <= t ==>
              var w' := Step(w, Enter(call, t));
              call in w'.calls && w'.b.probe && Holders(w'.calls, w'.b.generation) == {call}
  {
    EveryRun(at, run);
    var w := Exec(at, run).value;
    CoolEnter(w, call, t);
    if w.b.mode == Open && LastTrip(w.hist).value + 10 * SECOND <= t {
      NoHoldersAhead(w.calls, w.b.generation);
      HoldersAdded(w.calls, call, w.b.generation + 1, w.b.generation + 1);
      assert w.b.until <= t;
      assert !w.b.probe;
    }
  }
}
