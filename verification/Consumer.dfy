/**
  Consumers (internal/broker/kafka.go, rabbit.go, nats.go, cmd/consumer/main.go): a group of readers works through a
  broker's log. Offsets are positions in the log; a Kafka partition is the positions whose record carries its number.
 */
module Consumer {
  import opened Base
  import opened Messaging

  type Log = seq<Record>

  /** The record a reader is busy with; `queue` tells a RabbitMQ or NATS delivery from a Kafka fetch. */
  datatype Job = Free | Working(i: nat, queue: bool) | Handled(i: nat, queue: bool)

  /** A reader: the next position in each partition it owns, and its current job. */
  datatype Reader = Reader(pos: map<nat, nat>, job: Job)

  datatype Group = Group(
    committed: map<nat, nat>,   // Kafka: per partition, everything below was acknowledged
    acked: set<nat>,            // queues: deliveries acknowledged one by one
    readers: map<nat, Reader>,
    commits: set<(nat, nat)>,   // commit requests that may take effect now or later
    handled: set<nat>)          // positions whose event was handled successfully at least once

  const NO_GROUP: Group := Group(map[], {}, map[], {}, {})

  datatype Action =
    | Append(record: Record)
    | Join(r: nat)
    | Assign(r: nat, part: nat)
    | Revoke(r: nat, part: nat)
    | Fetch(r: nat, part: nat, i: nat)
    | Deliver(r: nat, i: nat)
    | Succeed(r: nat)
    | Commit(r: nat)
    | ApplyCommit(part: nat, upTo: nat)
    | Ack(r: nat)
    | Leave(r: nat)

  function CommittedAt(g: Group, part: nat): nat { if part in g.committed then g.committed[part] else 0 }

  /** The first record of the partition at or after `from`. */
  predicate IsNext(log: Log, part: nat, from: nat, i: nat) {
    from <= i < |log| && log[i].part == part && forall j :: from <= j < i ==> log[j].part != part
  }

  predicate Enabled(log: Log, g: Group, a: Action) {
    match a
    case Append(_) => true
    case Join(r) => r !in g.readers
    case Assign(r, _) => r in g.readers
    case Revoke(r, _) => r in g.readers
    case Fetch(r, part, i) =>
      && r in g.readers && g.readers[r].job.Free? && part in g.readers[r].pos
      && IsNext(log, part, g.readers[r].pos[part], i)
    case Deliver(r, i) => r in g.readers && g.readers[r].job.Free? && i < |log| && i !in g.acked
    case Succeed(r) =>
      && r in g.readers && g.readers[r].job.Working? && g.readers[r].job.i < |log|
      && Decode(log[g.readers[r].job.i].payload).Some?
    case Commit(r) =>
      r in g.readers && g.readers[r].job.Handled? && !g.readers[r].job.queue && g.readers[r].job.i < |log|
    case ApplyCommit(part, upTo) => (part, upTo) in g.commits
    case Ack(r) => r in g.readers && g.readers[r].job.Handled? && g.readers[r].job.queue
    case Leave(r) => true
  }

  function Apply(log: Log, g: Group, a: Action): Group
    requires Enabled(log, g, a)
  {
    match a
    case Append(_) => g
    case Join(r) => g.(readers := g.readers[r := Reader(map[], Free)])
    case Assign(r, part) =>
      var rd := g.readers[r];
      g.(readers := g.readers[r := rd.(pos := rd.pos[part := CommittedAt(g, part)])])
    case Revoke(r, part) =>
      var rd := g.readers[r];
      g.(readers := g.readers[r := rd.(pos := rd.pos - {part})])
    case Fetch(r, part, i) =>
      var rd := g.readers[r];
      g.(readers := g.readers[r := Reader(rd.pos[part := i + 1], Working(i, false))])
    case Deliver(r, i) => g.(readers := g.readers[r := g.readers[r].(job := Working(i, true))])
    case Succeed(r) =>
      var job := g.readers[r].job;
      g.(handled := g.handled + {job.i}, readers := g.readers[r := g.readers[r].(job := Handled(job.i, job.queue))])
    case Commit(r) =>
      var i := g.readers[r].job.i;
      g.(commits := g.commits + {(log[i].part, i + 1)}, readers := g.readers[r := g.readers[r].(job := Free)])
    case ApplyCommit(part, upTo) => g.(committed := g.committed[part := upTo])
    case Ack(r) =>
      g.(acked := g.acked + {g.readers[r].job.i}, readers := g.readers[r := g.readers[r].(job := Free)])
    case Leave(r) => g.(readers := g.readers - {r})
  }

  function LogAfter(log: Log, a: Action): Log { if a.Append? then log + [a.record] else log }

  /** The log and the group after a run; None when a step was not possible. */
  function Exec(run: seq<Action>): Option<(Log, Group)> {
    if run == [] then Some(([], NO_GROUP))
    else
      var s := Exec(Init(run));
      if s.Some? && Enabled(s.value.0, s.value.1, Last(run))
      then Some((LogAfter(s.value.0, Last(run)), Apply(s.value.0, s.value.1, Last(run))))
      else None
  }

  // ----- Acknowledged means handled -----

  /** Every record of the partition below `upTo` was handled, except possibly the one in hand. */
  predicate Covered(log: Log, handled: set<nat>, part: nat, upTo: nat, inHand: Option<nat>) {
    upTo <= |log| && forall i :: 0 <= i < upTo && log[i].part == part && Some(i) != inHand ==> i in handled
  }

  function InHand(job: Job): Option<nat> { if job.Working? then Some(job.i) else None }

  ghost predicate ReaderInv(log: Log, handled: set<nat>, rd: Reader) {
    && (forall p :: p in rd.pos ==> Covered(log, handled, p, rd.pos[p], InHand(rd.job)))
    && (!rd.job.Free? ==> rd.job.i < |log|)
    && (!rd.job.Free? && !rd.job.queue ==> Covered(log, handled, log[rd.job.i].part, rd.job.i, None))
    && (rd.job.Handled? ==> rd.job.i in handled)
  }

  ghost predicate Inv(log: Log, g: Group) {
    && (forall i :: i in g.handled ==> i < |log| && Decode(log[i].payload).Some?)
    && g.acked <= g.handled
    && (forall c :: c in g.commits ==> Covered(log, g.handled, c.0, c.1, None))
    && (forall p :: p in g.committed ==> Covered(log, g.handled, p, g.committed[p], None))
    && (forall r :: r in g.readers ==> ReaderInv(log, g.handled, g.readers[r]))
  }

  /** The position was acknowledged to the broker. */
  predicate Acknowledged(log: Log, g: Group, i: nat)
    requires i < |log|
  {
    i in g.acked || i < CommittedAt(g, log[i].part)
  }

  lemma ReaderGrows(log: Log, log': Log, handled: set<nat>, handled': set<nat>, rd: Reader)
    requires ReaderInv(log, handled, rd) && log <= log' && handled <= handled'
    ensures ReaderInv(log', handled', rd)
  {
  }

  lemma ReadersStep(log: Log, g: Group, a: Action)
    requires Inv(log, g) && Enabled(log, g, a)
    ensures var log', g' := LogAfter(log, a), Apply(log, g, a);
            forall r :: r in g'.readers ==> ReaderInv(log', g'.handled, g'.readers[r])
  {
    var g' := Apply(log, g, a);
    var log' := LogAfter(log, a);
    forall r | r in g'.readers ensures ReaderInv(log', g'.handled, g'.readers[r]) {
      if r in g.readers {
        ReaderGrows(log, log', g.handled, g'.handled, g.readers[r]);
      }
    }
  }

  lemma InvStep(log: Log, g: Group, a: Action)
    requires Inv(log, g) && Enabled(log, g, a)
    ensures Inv(LogAfter(log, a), Apply(log, g, a))
  {
    ReadersStep(log, g, a);
    if a.Commit? {
      assert ReaderInv(log, g.handled, g.readers[a.r]);
    }
  }

  lemma {:induction false} EveryRun(run: seq<Action>)
    requires Exec(run).Some?
    ensures Inv(Exec(run).value.0, Exec(run).value.1)
  {
    if run != [] {
      EveryRun(Init(run));
      var (log, g) := Exec(Init(run)).value;
      InvStep(log, g, Last(run));
    }
  }

  /**
    Whatever fails, restarts or is rebalanced: every record below a partition's committed offset, and every delivery
    acknowledged to a queue, was handled successfully.
   */
  lemma AcknowledgedMeansHandled(run: seq<Action>, i: nat)
    requires Exec(run).Some? && i < |Exec(run).value.0|
    ensures var (log, g) := Exec(run).value;
            Acknowledged(log, g, i) ==> i in g.handled && Decode(log[i].payload).Some?
  {
    EveryRun(run);
  }

  /** The steps that place or remove a reader in a partition. */
  predicate Places(a: Action, r: nat, part: nat) {
    match a
    case Join(q) => q == r
    case Leave(q) => q == r
    case Assign(q, p) => q == r && p == part
    case Revoke(q, p) => q == r && p == part
    case Fetch(q, p, _) => q == r && p == part
    case _ => false
  }

  /** The reader's place in the partition stays where it is while nobody places it. */
  lemma {:induction false} PlaceKept(run: seq<Action>, more: seq<Action>, r: nat, part: nat, pos: nat)
    requires Exec(run).Some? && Exec(run + more).Some? && forall a :: a in more ==> !Places(a, r, part)
    requires var g := Exec(run).value.1; r in g.readers && part in g.readers[r].pos && g.readers[r].pos[part] == pos
    ensures var (log', g') := Exec(run + more).value;
            && r in g'.readers && part in g'.readers[r].pos && g'.readers[r].pos[part] == pos
            && Exec(run).value.0 <= log'
  {
    if more == [] {
      assert run + more == run;
    } else {
      assert Init(run + more) == run + Init(more) && Last(run + more) == Last(more) && Last(more) in more;
      assert forall a :: a in Init(more) ==> a in more;
      PlaceKept(run, Init(more), r, part, pos);
    }
  }

  lemma {:induction false} PrefixesRun(run: seq<Action>, more: seq<Action>)
    requires Exec(run + more).Some?
    ensures Exec(run).Some?
  {
    if more == [] {
      assert run + more == run;
    } else {
      assert Init(run + more) == run + Init(more);
      PrefixesRun(run, Init(more));
    }
  }

  /**
    A reader goes through a partition record by record: of two fetches with no placing between them the second takes the
    next record of the partition, skipping none and repeating none.
   */
  lemma FetchesAreConsecutive(run: seq<Action>, more: seq<Action>, r: nat, part: nat, i: nat, j: nat)
    requires Exec(run + [Fetch(r, part, i)] + more + [Fetch(r, part, j)]).Some?
    requires forall a :: a in more ==> !Places(a, r, part)
    ensures var log := Exec(run + [Fetch(r, part, i)] + more + [Fetch(r, part, j)]).value.0;
            i < j < |log| && log[j].part == part && forall n :: i < n < j ==> log[n].part != part
  {
    var first := run + [Fetch(r, part, i)];
    PrefixesRun(first + more, [Fetch(r, part, j)]);
    PrefixesRun(first, more);
    PrefixesRun(run, [Fetch(r, part, i)]);
    InitLast(run, Fetch(r, part, i));
    InitLast(first + more, Fetch(r, part, j));
    PlaceKept(first, more, r, part, i + 1);
  }
}
