/** The consuming loops, run in the middle of everything else that happens to the broker. */
module ConsumerLoops {
  import opened Base
  import opened Messaging
  import opened Consumer

  /** Steps only the reader's own code takes; joining, assigning and revoking are the group's. */
  predicate Drives(a: Action, r: nat) {
    match a
    case Fetch(q, _, _) => q == r
    case Deliver(q, _) => q == r
    case Succeed(q) => q == r
    case Commit(q) => q == r
    case Ack(q) => q == r
    case Leave(q) => q == r
    case _ => false
  }

  /** Steps of the others, taken from those listed. */
  ghost predicate OnlyOthers(taken: seq<Action>, r: nat, steps: seq<Action>) {
    forall a :: a in taken ==> a in steps && !Drives(a, r)
  }

  /** The others can take these steps, one after the other. */
  ghost predicate Possible(run: seq<Action>, r: nat, steps: seq<Action>) {
    && (forall a :: a in steps ==> !Drives(a, r))
    && (forall i :: 0 <= i <= |steps| ==> Exec(run + steps[..i]).Some?)
  }

  /** Steps of the others from those listed; all of them, if they can be taken. */
  ghost predicate Interleaved(run: seq<Action>, taken: seq<Action>, r: nat, steps: seq<Action>) {
    OnlyOthers(taken, r, steps) && (Possible(run, r, steps) ==> taken == steps)
  }

  lemma NotPossible(run: seq<Action>, r: nat, steps: seq<Action>, i: nat, log: Log, g: Group)
    requires i < |steps| && (Drives(steps[i], r) || !Enabled(log, g, steps[i]))
    requires Possible(run, r, steps) ==> Exec(run + steps[..i]) == Some((log, g))
    ensures !Possible(run, r, steps)
  {
    assert run + steps[..i + 1] == run + steps[..i] + [steps[i]];
    InitLast(run + steps[..i], steps[i]);
  }

  /** Nothing is forgotten. */
  ghost predicate Remembers(log: Log, g: Group, log': Log, g': Group) {
    log <= log' && g.handled <= g'.handled && g.acked <= g'.acked && g.commits <= g'.commits
  }

  lemma StepRemembers(log: Log, g: Group, a: Action)
    requires Enabled(log, g, a)
    ensures Remembers(log, g, LogAfter(log, a), Apply(log, g, a))
  {
  }

  /** A broker's log with its consumer group, and the run that led there. */
  class Channel {
    var log: Log
    var g: Group
    ghost var run: seq<Action>

    ghost predicate Valid()
      reads this
    {
      Exec(run) == Some((log, g))
    }

    constructor ()
      ensures Valid() && log == [] && g == NO_GROUP && run == []
    {
      log, g, run := [], NO_GROUP, [];
    }

    method Do(a: Action)
      requires Valid() && Enabled(log, g, a)
      modifies this
      ensures Valid() && run == old(run) + [a] && log == LogAfter(old(log), a) && g == Apply(old(log), old(g), a)
    {
      InitLast(run, a);
      g, log := Apply(log, g, a), LogAfter(log, a);
      run := run + [a];
    }

    /** Everybody but reader r takes the steps listed; the group may also move r's partitions about. */
    method Meanwhile(r: nat, steps: seq<Action>) returns (ghost taken: seq<Action>)
      requires Valid() && r in g.readers
      modifies this
      ensures Valid() && run == old(run) + taken && Remembers(old(log), old(g), log, g)
      ensures Interleaved(old(run), taken, r, steps)
      ensures r in g.readers && g.readers[r].job == old(g).readers[r].job
    {
      taken := [];
      for n := 0 to |steps|
        invariant Valid() && run == old(run) + taken && Remembers(old(log), old(g), log, g)
        invariant OnlyOthers(taken, r, steps) && (Possible(old(run), r, steps) ==> taken == steps[..n])
        invariant r in g.readers && g.readers[r].job == old(g).readers[r].job
      {
        assert steps[..n + 1] == steps[..n] + [steps[n]];
        if !Drives(steps[n], r) && Enabled(log, g, steps[n]) {
          StepRemembers(log, g, steps[n]);
          Do(steps[n]);
          taken := taken + [steps[n]];
        } else {
          NotPossible(old(run), r, steps, n, log, g);
        }
      }
      assert steps[..|steps|] == steps;
    }
  }

  /**
    What one turn of a loop meets: the next message (a partition and position, or a queue delivery), whether the handler
    and the acknowledgement succeed (a failed one may still be effective), and what everybody else does before
    and during the handling and the acknowledgement.
   */
  datatype Turn = Turn(before: seq<Action>, part: nat, next: Option<nat>, during: seq<Action>, handled: bool,
                       acknowledging: seq<Action>, acknowledged: bool, effective: bool, canceled: bool)

  datatype Exit = Stopped | FailedWith

  /** How a turn ended: whether the loop ends with it, and whether the handler returned nil. */
  datatype End = End(exit: Option<Exit>, done: bool)

  /** What the others did before the turn, during its handling and during its acknowledgement. */
  datatype Trace = Trace(waiting: seq<Action>, handling: seq<Action>, acknowledging: seq<Action>)

  /** The step that takes the next message. */
  function Take(kafka: bool, r: nat, t: Turn): Action
    requires t.next.Some?
  {
    if kafka then Fetch(r, t.part, t.next.value) else Deliver(r, t.next.value)
  }

  /** How the reader acknowledges: a commit for Kafka, an acknowledgement of the one delivery for the queues. */
  function Acknowledging(kafka: bool, r: nat, t: Turn, others: seq<Action>): seq<Action> {
    if kafka then [Commit(r)] + others else if t.acknowledged || t.effective then [Ack(r)] else []
  }

  /** Position i was handled, and its acknowledgement is with the broker. */
  predicate HandledAndAcknowledged(kafka: bool, log: Log, g: Group, t: Turn, i: nat) {
    && i < |log| && i in g.handled
    && (if kafka then (log[i].part, i + 1) in g.commits else t.acknowledged || t.effective ==> i in g.acked)
  }

  /** The turn between two points of the run, once its message could be taken at position i. */
  ghost predicate TookTurn(kafka: bool, took: seq<Action>, after: seq<Action>, r: nat, t: Turn, decodes: bool, i: nat,
                           end: End, tr: Trace)
  {
    && end.done == (decodes && t.handled)
    && (end.exit == Some(FailedWith) <==> !decodes || !t.handled || !t.acknowledged) && end.exit != Some(Stopped)
    && (decodes ==> Interleaved(took, tr.handling, r, t.during))
    && if !decodes then after == took
       else if !t.handled then after == took + tr.handling
       else
         && after == took + tr.handling + [Succeed(r)] + Acknowledging(kafka, r, t, tr.acknowledging)
         && (kafka ==> Interleaved(took + tr.handling + [Succeed(r)] + [Commit(r)], tr.acknowledging, r,
                                   t.acknowledging))
         && Exec(after).Some? && HandledAndAcknowledged(kafka, Exec(after).value.0, Exec(after).value.1, t, i)
  }

  /**
    The turn between two points of the run. If a message could be taken, it was: it was handled and acknowledged when it
    decodes and its handler succeeds, and anything else ends the loop with a failure.
   */
  ghost predicate TurnDid(kafka: bool, before: seq<Action>, after: seq<Action>, r: nat, t: Turn, end: End, tr: Trace) {
    && Interleaved(before, tr.waiting, r, t.before) && Exec(before + tr.waiting).Some?
    && var (log, g) := Exec(before + tr.waiting).value;
    if t.next.Some? && Enabled(log, g, Take(kafka, r, t)) then
      t.next.value < |log|
      && TookTurn(kafka, before + tr.waiting + [Take(kafka, r, t)], after, r, t,
                  Decode(log[t.next.value].payload).Some?, t.next.value, end, tr)
    else after == before + tr.waiting && end == End(if t.canceled then Some(Stopped) else None, false)
  }

  /** Handle the record in hand; false when it does not decode or the handler fails. */
  method HandleOne(ch: Channel, r: nat, t: Turn) returns (ok: bool, ghost others: seq<Action>)
    requires ch.Valid() && r in ch.g.readers && ch.g.readers[r].job.Working? && ch.g.readers[r].job.i < |ch.log|
    modifies ch
    ensures ch.Valid() && Remembers(old(ch.log), old(ch.g), ch.log, ch.g) && r in ch.g.readers
    ensures var decodes := Decode(old(ch.log)[old(ch.g).readers[r].job.i].payload).Some?;
            && (ok <==> decodes && t.handled) && (decodes ==> Interleaved(old(ch.run), others, r, t.during))
            && ch.run == old(ch.run) + (if decodes then others else []) + (if ok then [Succeed(r)] else [])
    ensures var job := old(ch.g).readers[r].job;
            && ch.g.readers[r].job == (if ok then Handled(job.i, job.queue) else job)
            && (ok ==> job.i in ch.g.handled)
  {
    others := [];
    var i := ch.g.readers[r].job.i;
    if Decode(ch.log[i].payload).None? {
      return false, [];
    }
    others := ch.Meanwhile(r, t.during);
    if !t.handled {
      return false, others;
    }
    ch.Do(Succeed(r));
    ok := true;
  }

  /** Ask for the commit of the record just handled; the reply may be lost. */
  method CommitOne(ch: Channel, r: nat, t: Turn) returns (ghost others: seq<Action>)
    requires ch.Valid() && r in ch.g.readers && Enabled(ch.log, ch.g, Commit(r))
    modifies ch
    ensures ch.Valid() && Remembers(old(ch.log), old(ch.g), ch.log, ch.g)
    ensures ch.run == old(ch.run) + [Commit(r)] + others
    ensures Interleaved(old(ch.run) + [Commit(r)], others, r, t.acknowledging)
    ensures r in ch.g.readers && ch.g.readers[r].job.Free?
    ensures var i := old(ch.g).readers[r].job.i; (old(ch.log)[i].part, i + 1) in ch.g.commits
  {
    StepRemembers(ch.log, ch.g, Commit(r));
    ch.Do(Commit(r));
    others := ch.Meanwhile(r, t.acknowledging);
  }

  /** The turn once a record was fetched: handle it, commit it. */
  method FinishFetched(ch: Channel, r: nat, t: Turn, ghost waiting: seq<Action>) returns (end: End, ghost tr: Trace)
    requires ch.Valid() && r in ch.g.readers && ch.g.readers[r].job.Working?
    requires !ch.g.readers[r].job.queue && ch.g.readers[r].job.i < |ch.log|
    modifies ch
    ensures ch.Valid() && tr.waiting == waiting
    ensures var i := old(ch.g).readers[r].job.i;
            TookTurn(true, old(ch.run), ch.run, r, t, Decode(old(ch.log)[i].payload).Some?, i, end, tr)
    ensures r in ch.g.readers && (end.exit != Some(FailedWith) ==> ch.g.readers[r].job.Free?)
  {
    var ok;
    ghost var handling, acknowledging;
    ok, handling := HandleOne(ch, r, t);
    tr := Trace(waiting, handling, []);
    if !ok {
      return End(Some(FailedWith), false), tr; // uncommitted: it will come again
    }
    acknowledging := CommitOne(ch, r, t);
    tr := Trace(waiting, handling, acknowledging);
    end := End(if t.acknowledged then None else Some(FailedWith), true);
    assert ch.run == old(ch.run) + handling + [Succeed(r)] + ([Commit(r)] + acknowledging);
  }

  /** One turn of the Kafka loop: fetch, handle, commit. */
  method KafkaTurn(ch: Channel, r: nat, t: Turn) returns (end: End, ghost tr: Trace)
    requires ch.Valid() && r in ch.g.readers && ch.g.readers[r].job.Free?
    modifies ch
    ensures ch.Valid() && TurnDid(true, old(ch.run), ch.run, r, t, end, tr)
    ensures r in ch.g.readers && (end.exit != Some(FailedWith) ==> ch.g.readers[r].job.Free?)
  {
    ghost var waiting := ch.Meanwhile(r, t.before);
    if t.next.None? || !Enabled(ch.log, ch.g, Fetch(r, t.part, t.next.value)) { // there was nothing to take
      return End(if t.canceled then Some(Stopped) else None, false), Trace(waiting, [], []);
    }
    ch.Do(Fetch(r, t.part, t.next.value));
    end, tr := FinishFetched(ch, r, t, waiting);
  }

  /** The turn once a delivery was taken: handle it, acknowledge it. */
  method FinishDelivered(ch: Channel, r: nat, t: Turn, ghost waiting: seq<Action>) returns (end: End, ghost tr: Trace)
    requires ch.Valid() && r in ch.g.readers && ch.g.readers[r].job.Working?
    requires ch.g.readers[r].job.queue && ch.g.readers[r].job.i < |ch.log|
    modifies ch
    ensures ch.Valid() && tr.waiting == waiting
    ensures var i := old(ch.g).readers[r].job.i;
            TookTurn(false, old(ch.run), ch.run, r, t, Decode(old(ch.log)[i].payload).Some?, i, end, tr)
    ensures r in ch.g.readers && (end.exit != Some(FailedWith) ==> ch.g.readers[r].job.Free?)
  {
    var ok;
    ghost var handling;
    ok, handling := HandleOne(ch, r, t);
    tr := Trace(waiting, handling, []);
    if !ok {
      return End(Some(FailedWith), false), tr; // unacknowledged: it will come again
    }
    if t.acknowledged || t.effective {
      ch.Do(Ack(r));
    }
    end := End(if t.acknowledged then None else Some(FailedWith), true);
  }

  /** One turn of the RabbitMQ and NATS loops: take a delivery, handle it, acknowledge that one delivery. */
  method QueueTurn(ch: Channel, r: nat, t: Turn) returns (end: End, ghost tr: Trace)
    requires ch.Valid() && r in ch.g.readers && ch.g.readers[r].job.Free?
    modifies ch
    ensures ch.Valid() && TurnDid(false, old(ch.run), ch.run, r, t, end, tr)
    ensures r in ch.g.readers && (end.exit != Some(FailedWith) ==> ch.g.readers[r].job.Free?)
  {
    ghost var waiting := ch.Meanwhile(r, t.before);
    if t.next.None? || !Enabled(ch.log, ch.g, Deliver(r, t.next.value)) { // there was nothing to take
      return End(if t.canceled then Some(Stopped) else None, false), Trace(waiting, [], []);
    }
    ch.Do(Deliver(r, t.next.value));
    end, tr := FinishDelivered(ch, r, t, waiting);
  }

  // ----- The loops -----

  /** The turns taken, one after the other, led from one run to another. */
  ghost predicate TurnsDid(kafka: bool, r: nat, turns: seq<Turn>, ends: seq<End>, trs: seq<Trace>,
                           points: seq<seq<Action>>, from: seq<Action>, to: seq<Action>)
  {
    && |ends| == |trs| <= |turns| && |points| == |ends| + 1 && points[0] == from && Last(points) == to
    && forall i :: 0 <= i < |ends| ==> TurnDid(kafka, points[i], points[i + 1], r, turns[i], ends[i], trs[i])
  }

  lemma OneMoreTurn(kafka: bool, r: nat, turns: seq<Turn>, ends: seq<End>, trs: seq<Trace>, points: seq<seq<Action>>,
                    from: seq<Action>, to: seq<Action>, end: End, tr: Trace, run: seq<Action>)
    requires TurnsDid(kafka, r, turns, ends, trs, points, from, to) && |ends| < |turns|
    requires TurnDid(kafka, to, run, r, turns[|ends|], end, tr)
    ensures TurnsDid(kafka, r, turns, ends + [end], trs + [tr], points + [run], from, run)
  {
    var ends', trs', points' := ends + [end], trs + [tr], points + [run];
    forall i | 0 <= i < |ends'| ensures TurnDid(kafka, points'[i], points'[i + 1], r, turns[i], ends'[i], trs'[i]) {
      if i < |ends| {
        assert TurnDid(kafka, points[i], points[i + 1], r, turns[i], ends[i], trs[i]);
      }
    }
  }

  /** The loop goes round until a turn ends it: exactly the last turn taken may end it. */
  predicate LoopEnds(turns: seq<Turn>, ends: seq<End>, exit: Exit) {
    && |ends| <= |turns| && (forall i :: 0 <= i < |ends| - 1 ==> ends[i].exit.None?)
    && (if ends != [] && Last(ends).exit.Some? then exit == Last(ends).exit.value
        else |ends| == |turns| && exit == Stopped)
  }

  /** `Consume`: one turn after the other; the first failure ends the reader. */
  method Consume(kafka: bool, ch: Channel, r: nat, turns: seq<Turn>)
    returns (exit: Exit, ends: seq<End>, ghost trs: seq<Trace>, ghost points: seq<seq<Action>>)
    requires ch.Valid() && r in ch.g.readers && ch.g.readers[r].job.Free?
    modifies ch
    ensures ch.Valid() && TurnsDid(kafka, r, turns, ends, trs, points, old(ch.run), ch.run)
    ensures LoopEnds(turns, ends, exit)
    ensures r in ch.g.readers && (exit == Stopped ==> ch.g.readers[r].job.Free?)
  {
    ends, trs, points := [], [], [ch.run];
    for n := 0 to |turns|
      invariant ch.Valid() && r in ch.g.readers && ch.g.readers[r].job.Free?
      invariant |ends| == n && TurnsDid(kafka, r, turns, ends, trs, points, old(ch.run), ch.run)
      invariant forall i :: 0 <= i < n ==> ends[i].exit.None?
    {
      ghost var before := ch.run;
      var end;
      ghost var tr;
      if kafka {
        end, tr := KafkaTurn(ch, r, turns[n]);
      } else {
        end, tr := QueueTurn(ch, r, turns[n]);
      }
      OneMoreTurn(kafka, r, turns, ends, trs, points, old(ch.run), before, end, tr, ch.run);
      ends, trs, points := ends + [end], trs + [tr], points + [ch.run];
      if end.exit.Some? {
        return end.exit.value, ends, trs, points;
      }
    }
    exit := Stopped;
  }

  /** One life of a reader under the supervisor: whether the factory succeeds, and the turns until it ends. */
  datatype Life = Life(created: bool, turns: seq<Turn>, canceled: bool)

  /** What a life left behind. */
  datatype Past = Past(exit: Exit, ends: seq<End>, trs: seq<Trace>, points: seq<seq<Action>>)

  /** The life between two points of the run: the reader joins, consumes and leaves. */
  ghost predicate LifeDid(kafka: bool, before: seq<Action>, after: seq<Action>, r: nat, life: Life, past: Past) {
    if !life.created then after == before && past.ends == []
    else
      && past.points != [] && after == Last(past.points) + [Leave(r)]
      && TurnsDid(kafka, r, life.turns, past.ends, past.trs, past.points, before + [Join(r)], Last(past.points))
      && LoopEnds(life.turns, past.ends, past.exit)
  }

  /** Create the reader, let it consume, close it. */
  method LiveOnce(ch: Channel, r: nat, kafka: bool, life: Life) returns (ghost past: Past, ends: seq<End>)
    requires ch.Valid() && r !in ch.g.readers
    modifies ch
    ensures ch.Valid() && r !in ch.g.readers && past.ends == ends
    ensures LifeDid(kafka, old(ch.run), ch.run, r, life, past)
  {
    past, ends := Past(Stopped, [], [], []), [];
    if life.created {
      ch.Do(Join(r));
      var exit;
      ghost var trs, points;
      exit, ends, trs, points := Consume(kafka, ch, r, life.turns);
      past := Past(exit, ends, trs, points);
      ch.Do(Leave(r)); // Close
    }
  }

  /** The handler returned nil at least once. */
  predicate Served(ends: seq<End>) { exists i :: 0 <= i < |ends| && ends[i].done }

  /** The lives, one after the other, led from one run to another. */
  ghost predicate LivesDid(kafka: bool, r: nat, lives: seq<Life>, pasts: seq<Past>, points: seq<seq<Action>>,
                           from: seq<Action>, to: seq<Action>)
  {
    && |pasts| <= |lives| && |points| == |pasts| + 1 && points[0] == from && Last(points) == to
    && forall i :: 0 <= i < |pasts| ==> LifeDid(kafka, points[i], points[i + 1], r, lives[i], pasts[i])
  }

  lemma OneMoreLife(kafka: bool, r: nat, lives: seq<Life>, pasts: seq<Past>, points: seq<seq<Action>>,
                    from: seq<Action>, to: seq<Action>, past: Past, run: seq<Action>)
    requires LivesDid(kafka, r, lives, pasts, points, from, to) && |pasts| < |lives|
    requires LifeDid(kafka, to, run, r, lives[|pasts|], past)
    ensures LivesDid(kafka, r, lives, pasts + [past], points + [run], from, run)
  {
    var pasts', points' := pasts + [past], points + [run];
    forall i | 0 <= i < |pasts'| ensures LifeDid(kafka, points'[i], points'[i + 1], r, lives[i], pasts'[i]) {
      if i < |pasts| {
        assert LifeDid(kafka, points[i], points[i + 1], r, lives[i], pasts[i]);
      }
    }
  }

  /** The attempt numbers the supervisor waits by: one more for every restart since the handler last succeeded. */
  ghost predicate Waits(pasts: seq<Past>, attempts: seq<nat>) {
    && |attempts| <= |pasts| <= |attempts| + 1
    && forall i :: 0 <= i < |attempts| ==> WaitAt(pasts, attempts, i)
  }

  ghost predicate WaitAt(pasts: seq<Past>, attempts: seq<nat>, i: nat)
    requires i < |attempts| <= |pasts|
  {
    attempts[i] == 1 + if i == 0 || Served(pasts[i].ends) then 0 else attempts[i - 1]
  }

  lemma WaitsMore(pasts: seq<Past>, attempts: seq<nat>, past: Past, attempt: nat)
    requires Waits(pasts, attempts) && |pasts| == |attempts|
    requires attempt == 1 + if attempts == [] || Served(past.ends) then 0 else Last(attempts)
    ensures Waits(pasts + [past], attempts) && Waits(pasts + [past], attempts + [attempt])
  {
    forall i | 0 <= i < |attempts|
      ensures WaitAt(pasts + [past], attempts, i) && WaitAt(pasts + [past], attempts + [attempt], i)
    {
      assert WaitAt(pasts, attempts, i);
    }
  }

  lemma AllAcknowledgedHandled(run: seq<Action>)
    requires Exec(run).Some?
    ensures var (log, g) := Exec(run).value;
            forall i :: 0 <= i < |log| && Acknowledged(log, g, i) ==> i in g.handled
  {
    forall i: nat | i < |Exec(run).value.0| && Acknowledged(Exec(run).value.0, Exec(run).value.1, i)
      ensures i in Exec(run).value.1.handled
    {
      AcknowledgedMeansHandled(run, i);
    }
  }

  /** `supervise`: restart the reader from the last committed position until the context ends. */
  method Supervise(ch: Channel, r: nat, kafka: bool, lives: seq<Life>)
    returns (attempts: seq<nat>, ghost pasts: seq<Past>, ghost points: seq<seq<Action>>)
    requires ch.Valid() && r !in ch.g.readers
    modifies ch
    ensures ch.Valid() && LivesDid(kafka, r, lives, pasts, points, old(ch.run), ch.run)
    ensures forall i :: 0 <= i < |pasts| - 1 ==> !lives[i].canceled
    ensures |pasts| < |lives| ==> pasts != [] && lives[|pasts| - 1].canceled
    ensures Waits(pasts, attempts)
    ensures forall i :: 0 <= i < |ch.log| && Acknowledged(ch.log, ch.g, i) ==> i in ch.g.handled
  {
    attempts, pasts, points := [], [], [ch.run];
    var attempt := 0;
    for n := 0 to |lives|
      invariant ch.Valid() && r !in ch.g.readers
      invariant |pasts| == n == |attempts| && LivesDid(kafka, r, lives, pasts, points, old(ch.run), ch.run)
      invariant Waits(pasts, attempts) && attempt == (if n == 0 then 0 else attempts[n - 1])
      invariant forall i :: 0 <= i < n ==> !lives[i].canceled
    {
      ghost var before := ch.run;
      ghost var past;
      var ends;
      past, ends := LiveOnce(ch, r, kafka, lives[n]);
      OneMoreLife(kafka, r, lives, pasts, points, old(ch.run), before, past, ch.run);
      if Served(ends) {
        attempt := 0;
      }
      WaitsMore(pasts, attempts, past, attempt + 1);
      pasts, points := pasts + [past], points + [ch.run];
      if lives[n].canceled {
        break;
      }
      attempt := attempt + 1;
      attempts := attempts + [attempt];
    }
    AllAcknowledgedHandled(ch.run);
  }
}
