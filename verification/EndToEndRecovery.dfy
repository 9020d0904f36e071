/** Convergence is always within reach: every state of every run has a continuation that settles all brokers. */
module EndToEndRecovery {
  import opened Base
  import opened Messaging
  import opened OutboxTable
  import P = OutboxProtocol
  import I = OutboxInvariants
  import W = OutboxWorker
  import R = OutboxRecovery
  import C = Consumer
  import S = Projections
  import opened EndToEnd

  /** The whole system after more steps. */
  function Continue(u: Setup, w: Whole, steps: seq<Action>): Option<Whole> {
    if steps == [] then Some(w)
    else
      var w' := Continue(u, w, Init(steps));
      if w'.Some? && Enabled(u, w'.value, Last(steps)) then Some(Apply(u, w'.value, Last(steps))) else None
  }

  lemma {:induction false} ContinueJoins(u: Setup, w: Whole, a: seq<Action>, b: seq<Action>)
    requires Continue(u, w, a).Some? && Continue(u, Continue(u, w, a).value, b).Some?
    ensures Continue(u, w, a + b) == Continue(u, Continue(u, w, a).value, b)
  {
    if b == [] {
      assert a + b == a;
    } else {
      assert Init(a + b) == a + Init(b) && Last(a + b) == Last(b);
      ContinueJoins(u, w, a, Init(b));
    }
  }

  lemma {:induction false} ContinueIsARun(u: Setup, at: Time, run: seq<Action>, steps: seq<Action>)
    requires Exec(u, at, run).Some? && Continue(u, Exec(u, at, run).value, steps).Some?
    ensures Exec(u, at, run + steps) == Continue(u, Exec(u, at, run).value, steps)
  {
    if steps == [] {
      assert run + steps == run;
    } else {
      assert Init(run + steps) == run + Init(steps) && Last(run + steps) == Last(steps);
      ContinueIsARun(u, at, run, Init(steps));
    }
  }

  lemma OneStep(u: Setup, w: Whole, steps: seq<Action>, a: Action) returns (steps': seq<Action>, w': Whole)
    requires Continue(u, w, steps).Some? && Enabled(u, Continue(u, w, steps).value, a)
    ensures steps' == steps + [a] && w' == Apply(u, Continue(u, w, steps).value, a)
    ensures Continue(u, w, steps') == Some(w')
  {
    InitLast(steps, a);
    steps', w' := steps + [a], Apply(u, Continue(u, w, steps).value, a);
  }

  // ----- The outbox half -----

  function Lift(steps: seq<P.Action>): seq<Action> { seq(|steps|, i requires 0 <= i < |steps| => Outbox(steps[i])) }

  lemma {:induction false} LiftContinues(u: Setup, w: Whole, steps: seq<P.Action>)
    requires R.Continue(w.o, steps, u.hash).Some?
    ensures Continue(u, w, Lift(steps)) == Some(w.(o := R.Continue(w.o, steps, u.hash).value))
  {
    if steps != [] {
      LiftContinues(u, w, Init(steps));
      assert Init(Lift(steps)) == Lift(Init(steps)) && Last(Lift(steps)) == Outbox(Last(steps));
    }
  }

  /** Nothing is pending for these targets. */
  ghost predicate Drained(t: Table, targets: set<string>) {
    forall target :: target in targets ==> W.PendingKeys(t, target) == {}
  }

  lemma {:induction false} DrainAll(u: Setup, w: Whole, v: nat, targets: set<string>)
    returns (steps: seq<Action>, w': Whole)
    requires P.PhaseOf(w.o, v).Idle? && forall t :: W.Ripe(w.o.db.rows, t, w.o.now)
    ensures Continue(u, w, steps) == Some(w') && w' == w.(o := w'.o) && Drained(w'.o.db.rows, targets)
    ensures P.PhaseOf(w'.o, v).Idle? && forall t :: W.Ripe(w'.o.db.rows, t, w'.o.now)
  {
    if targets == {} {
      return [], w;
    }
    var t :| t in targets;
    var first, w1 := DrainAll(u, w, v, targets - {t});
    var inner, o', order := R.DrainFrom(w1.o, v, t, u.hash);
    LiftContinues(u, w1, inner);
    ContinueJoins(u, w, first, Lift(inner));
    steps, w' := first + Lift(inner), w1.(o := o');
    forall x ensures W.PendingKeys(o'.db.rows, x) == if x == t then {} else W.PendingKeys(w1.o.db.rows, x) {
    }
    forall x ensures W.Ripe(o'.db.rows, x, o'.now) {
      assert W.Ripe(w1.o.db.rows, x, w1.o.now);
    }
  }

  // ----- The consumer half -----

  /** Only the group of this broker and the stores may differ. */
  ghost predicate OnlyConsumed(w: Whole, w': Whole, target: string) {
    w'.o == w.o && forall t :: t != target ==> GroupOf(w', t) == GroupOf(w, t)
  }

  /** Position i is acknowledged in the broker's own way. */
  predicate Passed(target: string, log: C.Log, g: C.Group, i: nat)
    requires i < |log|
  {
    if target == "kafka" then i < C.CommittedAt(g, log[i].part) else i in g.acked
  }

  /** Everything below position n is acknowledged. */
  ghost predicate Caught(target: string, log: C.Log, g: C.Group, n: nat) {
    n <= |log| && forall i :: 0 <= i < n ==> Passed(target, log, g, i)
  }

  ghost predicate FreeReader(w: Whole, target: string, r: nat) {
    r in GroupOf(w, target).readers && GroupOf(w, target).readers[r].job.Free?
  }

  ghost predicate Holding(w: Whole, target: string, r: nat, i: nat) {
    r in GroupOf(w, target).readers && GroupOf(w, target).readers[r].job == C.Working(i, target != "kafka")
  }

  function WriteSteps(u: Setup, target: string, i: nat, save: S.Fate, index: S.Fate): seq<Action> {
    (if u.cassandra && save != S.NotApplied then [Save(target, i)] else [])
    + (if S.Reindexes(u.cassandra, u.elastic, save, index) then [Index(target, i)] else [])
  }

  /** The writes of the handler. */
  lemma HandlerWrites(u: Setup, w: Whole, target: string, i: nat, save: S.Fate, index: S.Fate)
    returns (steps: seq<Action>, w': Whole)
    requires target in u.consumed && Decodes(w.o.logs, target, i)
    ensures steps == WriteSteps(u, target, i, save, index)
    ensures Continue(u, w, steps) == Some(w') && w'.o == w.o && w'.groups == w.groups
    ensures w'.stores
            == S.HandledStores(w.stores, u.cassandra, u.elastic, EventAt(w.o.logs, target, i), target, save, index)
    ensures S.AllConfirmed(u.cassandra, u.elastic, save, index) ==>
              (u.cassandra ==> (target, i) in w'.saved) && (u.elastic ==> (target, i) in w'.indexed)
  {
    steps, w' := [], w;
    if u.cassandra && save != S.NotApplied {
      steps, w' := OneStep(u, w, steps, Save(target, i));
    }
    if S.Reindexes(u.cassandra, u.elastic, save, index) {
      steps, w' := OneStep(u, w, steps, Index(target, i));
    }
  }

  /** What the handler does with the record at position i, as steps of this machine. */
  function HandlerSteps(u: Setup, target: string, r: nat, i: nat, save: S.Fate, index: S.Fate): seq<Action> {
    WriteSteps(u, target, i, save, index)
    + (if S.AllConfirmed(u.cassandra, u.elastic, save, index) then [Consume(target, C.Succeed(r))] else [])
  }

  /**
    Whatever becomes of the two writes, `Handle` on the record in hand is a run of Save, Index and Succeed steps: the
    stores end as the handler leaves them, and the record is marked handled exactly when the handler returns nil.
   */
  lemma HandleIsARun(u: Setup, w: Whole, target: string, r: nat, i: nat, save: S.Fate, index: S.Fate)
    requires target in u.consumed && Decodes(w.o.logs, target, i) && Holding(w, target, r, i)
    ensures Continue(u, w, HandlerSteps(u, target, r, i, save, index)).Some?
    ensures var w' := Continue(u, w, HandlerSteps(u, target, r, i, save, index)).value;
            var ok := S.AllConfirmed(u.cassandra, u.elastic, save, index);
            && w'.o == w.o
            && w'.stores
               == S.HandledStores(w.stores, u.cassandra, u.elastic, EventAt(w.o.logs, target, i), target, save, index)
            && GroupOf(w', target).handled == GroupOf(w, target).handled + (if ok then {i} else {})
            && r in GroupOf(w', target).readers
            && GroupOf(w', target).readers[r].job
               == if ok then C.Handled(i, target != "kafka") else GroupOf(w, target).readers[r].job
  {
    var ok := S.AllConfirmed(u.cassandra, u.elastic, save, index);
    var writes, w1 := HandlerWrites(u, w, target, i, save, index);
    if ok {
      var steps, w' := OneStep(u, w, writes, Consume(target, C.Succeed(r)));
    } else {
      assert writes + [] == writes;
    }
  }

  /** Kafka resumes at the committed offset and fetches the next record; a queue delivers the record again. */
  lemma TakeOne(u: Setup, w: Whole, target: string, r: nat, i: nat) returns (steps: seq<Action>, w': Whole)
    requires target in u.consumed && i < |LogOf(w, target)| && FreeReader(w, target, r)
    requires Caught(target, LogOf(w, target), GroupOf(w, target), i)
    requires !Passed(target, LogOf(w, target), GroupOf(w, target), i)
    ensures Continue(u, w, steps) == Some(w') && OnlyConsumed(w, w', target) && Holding(w', target, r, i)
    ensures var g, g' := GroupOf(w, target), GroupOf(w', target); g'.committed == g.committed && g'.acked == g.acked
  {
    if target == "kafka" {
      var part := LogOf(w, target)[i].part;
      steps, w' := OneStep(u, w, [], Consume(target, C.Assign(r, part)));
      forall j | C.CommittedAt(GroupOf(w, target), part) <= j < i ensures LogOf(w, target)[j].part != part {
        assert Passed(target, LogOf(w, target), GroupOf(w, target), j);
      }
      steps, w' := OneStep(u, w, steps, Consume(target, C.Fetch(r, part, i)));
    } else {
      steps, w' := OneStep(u, w, [], Consume(target, C.Deliver(r, i)));
    }
  }

  /** The record at position i was handled and is still in hand. */
  ghost predicate HandledInHand(w: Whole, target: string, r: nat, i: nat) {
    r in GroupOf(w, target).readers && GroupOf(w, target).readers[r].job == C.Handled(i, target != "kafka")
  }

  lemma SucceedOne(u: Setup, w: Whole, target: string, r: nat, i: nat) returns (w': Whole)
    requires target in u.consumed && Decodes(w.o.logs, target, i) && Holding(w, target, r, i)
    requires (u.cassandra ==> (target, i) in w.saved) && (u.elastic ==> (target, i) in w.indexed)
    ensures Continue(u, w, [Consume(target, C.Succeed(r))]) == Some(w')
    ensures OnlyConsumed(w, w', target) && HandledInHand(w', target, r, i)
    ensures var g, g' := GroupOf(w, target), GroupOf(w', target); g'.committed == g.committed && g'.acked == g.acked
  {
    var steps;
    steps, w' := OneStep(u, w, [], Consume(target, C.Succeed(r)));
    assert steps == [Consume(target, C.Succeed(r))];
  }

  lemma CommitOne(u: Setup, w: Whole, r: nat, i: nat) returns (steps: seq<Action>, w': Whole)
    requires "kafka" in u.consumed && i < |LogOf(w, "kafka")| && HandledInHand(w, "kafka", r, i)
    ensures Continue(u, w, steps) == Some(w') && OnlyConsumed(w, w', "kafka") && FreeReader(w', "kafka", r)
    ensures GroupOf(w', "kafka").committed == GroupOf(w, "kafka").committed[LogOf(w, "kafka")[i].part := i + 1]
  {
    steps, w' := OneStep(u, w, [], Consume("kafka", C.Commit(r)));
    steps, w' := OneStep(u, w, steps, Consume("kafka", C.ApplyCommit(LogOf(w, "kafka")[i].part, i + 1)));
  }

  lemma AckOne(u: Setup, w: Whole, target: string, r: nat, i: nat) returns (steps: seq<Action>, w': Whole)
    requires target in u.consumed && target != "kafka" && HandledInHand(w, target, r, i)
    ensures Continue(u, w, steps) == Some(w') && OnlyConsumed(w, w', target) && FreeReader(w', target, r)
    ensures GroupOf(w', target).acked == GroupOf(w, target).acked + {i}
  {
    steps, w' := OneStep(u, w, [], Consume(target, C.Ack(r)));
  }

  /** The handler returned nil: acknowledge, and let the acknowledgement take effect. */
  lemma PassOne(u: Setup, w: Whole, target: string, r: nat, i: nat) returns (steps: seq<Action>, w': Whole)
    requires target in u.consumed && Decodes(w.o.logs, target, i) && Holding(w, target, r, i)
    requires (u.cassandra ==> (target, i) in w.saved) && (u.elastic ==> (target, i) in w.indexed)
    ensures Continue(u, w, steps) == Some(w') && OnlyConsumed(w, w', target) && FreeReader(w', target, r)
    ensures var g, g' := GroupOf(w, target), GroupOf(w', target);
            if target == "kafka" then g'.committed == g.committed[LogOf(w, target)[i].part := i + 1]
            else g'.acked == g.acked + {i}
  {
    var w1 := SucceedOne(u, w, target, r, i);
    var rest;
    if target == "kafka" {
      rest, w' := CommitOne(u, w1, r, i);
    } else {
      rest, w' := AckOne(u, w1, target, r, i);
    }
    steps := [Consume(target, C.Succeed(r))] + rest;
    ContinueJoins(u, w, [Consume(target, C.Succeed(r))], rest);
  }

  /** One more position acknowledged. */
  lemma CatchOne(u: Setup, w: Whole, target: string, r: nat, i: nat) returns (steps: seq<Action>, w': Whole)
    requires target in u.consumed && Decodes(w.o.logs, target, i) && FreeReader(w, target, r)
    requires Caught(target, LogOf(w, target), GroupOf(w, target), i)
    ensures Continue(u, w, steps) == Some(w') && OnlyConsumed(w, w', target) && FreeReader(w', target, r)
    ensures Caught(target, LogOf(w', target), GroupOf(w', target), i + 1)
  {
    if Passed(target, LogOf(w, target), GroupOf(w, target), i) {
      return [], w;
    }
    var take, w1 := TakeOne(u, w, target, r, i);
    var write, w2 := HandlerWrites(u, w1, target, i, S.Confirmed, S.Confirmed);
    var pass, w3 := PassOne(u, w2, target, r, i);
    ContinueJoins(u, w1, write, pass);
    ContinueJoins(u, w, take, write + pass);
    steps, w' := take + (write + pass), w3;
    forall j | 0 <= j < i + 1 ensures Passed(target, LogOf(w', target), GroupOf(w', target), j) {
      assert j == i || Passed(target, LogOf(w, target), GroupOf(w, target), j);
    }
  }

  lemma {:induction false} CatchUp(u: Setup, w: Whole, target: string, r: nat, n: nat)
    returns (steps: seq<Action>, w': Whole)
    requires target in u.consumed && FreeReader(w, target, r) && n <= |LogOf(w, target)|
    requires forall i :: 0 <= i < |LogOf(w, target)| ==> Decodes(w.o.logs, target, i)
    ensures Continue(u, w, steps) == Some(w') && OnlyConsumed(w, w', target) && FreeReader(w', target, r)
    ensures Caught(target, LogOf(w', target), GroupOf(w', target), n)
  {
    if n == 0 {
      return [], w;
    }
    var first, w1 := CatchUp(u, w, target, r, n - 1);
    var last, w2 := CatchOne(u, w1, target, r, n - 1);
    ContinueJoins(u, w, first, last);
    steps, w' := first + last, w2;
  }

  /** A new reader of this broker acknowledges the whole log; an entry that does not decode is never acknowledged. */
  lemma CatchUpBroker(u: Setup, w: Whole, target: string) returns (steps: seq<Action>, w': Whole)
    requires target in u.consumed && forall i :: 0 <= i < |LogOf(w, target)| ==> Decodes(w.o.logs, target, i)
    ensures Continue(u, w, steps) == Some(w') && OnlyConsumed(w, w', target)
    ensures Caught(target, LogOf(w', target), GroupOf(w', target), |LogOf(w', target)|)
  {
    var r := W.FreshToken(GroupOf(w, target).readers.Keys);
    var join, w1 := OneStep(u, w, [], Consume(target, C.Join(r)));
    var rest, w2 := CatchUp(u, w1, target, r, |LogOf(w1, target)|);
    ContinueJoins(u, w, join, rest);
    steps, w' := join + rest, w2;
  }

  lemma {:induction false} CatchUpAll(u: Setup, w: Whole, targets: set<string>) returns (steps: seq<Action>, w': Whole)
    requires targets <= u.consumed
    requires forall t, i :: 0 <= i < |LogOf(w, t)| ==> Decodes(w.o.logs, t, i)
    ensures Continue(u, w, steps) == Some(w') && w'.o == w.o
    ensures forall t :: t in targets ==> Caught(t, LogOf(w', t), GroupOf(w', t), |LogOf(w', t)|)
  {
    if targets == {} {
      return [], w;
    }
    var t :| t in targets;
    var first, w1 := CatchUpAll(u, w, targets - {t});
    var last, w2 := CatchUpBroker(u, w1, t);
    ContinueJoins(u, w, first, last);
    steps, w' := first + last, w2;
    forall x | x in targets ensures Caught(x, LogOf(w', x), GroupOf(w', x), |LogOf(w', x)|) {
      assert x == t || x in targets - {t};
    }
  }

  // ----- Both halves -----

  /** Let one lease pass: everything undelivered is available again. */
  lemma WaitOneLease(u: Setup, w: Whole, v: nat) returns (steps: seq<Action>, w': Whole)
    requires I.TimeInv(w.o)
    ensures Continue(u, w, steps) == Some(w') && w'.groups == w.groups
    ensures P.PhaseOf(w'.o, v).Idle? && forall t :: W.Ripe(w'.o.db.rows, t, w'.o.now)
  {
    steps, w' := OneStep(u, w, [], Outbox(P.GiveUp(v)));
    steps, w' := OneStep(u, w, steps, Outbox(P.Tick(P.LEASE)));
  }

  lemma CaughtSettles(w: Whole, target: string)
    requires Caught(target, LogOf(w, target), GroupOf(w, target), |LogOf(w, target)|)
    requires W.PendingKeys(w.o.db.rows, target) == {}
    ensures Settled(w, target)
  {
    forall k ensures !Pending(w.o.db.rows, target, k) {
      assert k !in W.PendingKeys(w.o.db.rows, target);
    }
    forall i | 0 <= i < |LogOf(w, target)| ensures C.Acknowledged(LogOf(w, target), GroupOf(w, target), i) {
      assert Passed(target, LogOf(w, target), GroupOf(w, target), i);
    }
  }

  lemma Basics(u: Setup, at: Time, run: seq<Action>)
    requires Exec(u, at, run).Some?
    ensures var w := Exec(u, at, run).value;
            I.TimeInv(w.o) && forall t, i :: 0 <= i < |LogOf(w, t)| ==> Decodes(w.o.logs, t, i)
  {
    EveryRun(u, at, run);
    var w := Exec(u, at, run).value;
    forall t, i | 0 <= i < |LogOf(w, t)| ensures Decodes(w.o.logs, t, i) {
      assert I.Backed(w.o.db, t, P.Log(w.o.logs, t)[i].payload);
    }
  }

  /** The continuation: wait one lease, drain every outbox queue, catch up with every log. */
  lemma Settle(u: Setup, at: Time, run: seq<Action>) returns (steps: seq<Action>, w': Whole)
    requires Exec(u, at, run).Some?
    ensures Continue(u, Exec(u, at, run).value, steps) == Some(w')
    ensures forall t :: t in u.consumed ==> Settled(w', t)
  {
    var w := Exec(u, at, run).value;
    Basics(u, at, run);
    var pause, w1 := WaitOneLease(u, w, 0);
    var drain, w2 := DrainAll(u, w1, 0, u.consumed);
    ContinueJoins(u, w, pause, drain);
    ContinueIsARun(u, at, run, pause + drain);
    Basics(u, at, run + (pause + drain));
    var catch, w3 := CatchUpAll(u, w2, u.consumed);
    ContinueJoins(u, w, pause + drain, catch);
    steps, w' := pause + drain + catch, w3;
    forall t | t in u.consumed ensures Settled(w', t) {
      CaughtSettles(w', t);
    }
  }

  /**
    Every state of every run, whatever failed on the way, has a continuation after which all consumed brokers have
    settled and the stores have converged.
   */
  lemma ConvergenceIsAlwaysReachable(u: Setup, at: Time, run: seq<Action>) returns (steps: seq<Action>)
    requires Exec(u, at, run).Some?
    ensures Exec(u, at, run + steps).Some?
    ensures forall t :: t in u.consumed ==> Settled(Exec(u, at, run + steps).value, t)
    ensures Converged(u, Exec(u, at, run + steps).value)
  {
    var w';
    steps, w' := Settle(u, at, run);
    ContinueIsARun(u, at, run, steps);
    Convergence(u, at, run + steps);
  }
}
