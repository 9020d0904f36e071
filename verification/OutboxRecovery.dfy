/**
  Nothing is ever stuck: from every state any run can reach, however many workers crashed and replies were lost, one
  more worker drains a broker's queue within one lease.
 */
module OutboxRecovery {
  import opened Base
  import opened Messaging
  import opened OutboxTable
  import opened MessageStore
  import opened OutboxProtocol
  import opened OutboxInvariants
  import opened OutboxTheorems
  import opened OutboxWorker

  /** The system after more steps. */
  function Continue(s: Sys, steps: seq<Action>, hash: string -> string): Option<Sys> {
    if steps == [] then Some(s)
    else
      var s' := Continue(s, Init(steps), hash);
      if s'.Some? && Enabled(s'.value, Last(steps)) then Some(Apply(s'.value, Last(steps), hash)) else None
  }

  lemma {:induction false} ContinueJoins(s: Sys, a: seq<Action>, b: seq<Action>, hash: string -> string)
    requires Continue(s, a, hash).Some? && Continue(Continue(s, a, hash).value, b, hash).Some?
    ensures Continue(s, a + b, hash) == Continue(Continue(s, a, hash).value, b, hash)
  {
    if b == [] {
      assert a + b == a;
    } else {
      assert Init(a + b) == a + Init(b) && Last(a + b) == Last(b);
      ContinueJoins(s, a, Init(b), hash);
    }
  }

  lemma {:induction false} ContinueIsARun(at: Time, run: seq<Action>, steps: seq<Action>, hash: string -> string)
    requires Exec(at, run, hash).Some? && Continue(Exec(at, run, hash).value, steps, hash).Some?
    ensures Exec(at, run + steps, hash) == Continue(Exec(at, run, hash).value, steps, hash)
  {
    if steps == [] {
      assert run + steps == run;
    } else {
      assert Init(run + steps) == run + Init(steps) && Last(run + steps) == Last(steps);
      ContinueIsARun(at, run, Init(steps), hash);
    }
  }

  lemma OneStep(s: Sys, steps: seq<Action>, s1: Sys, a: Action, hash: string -> string)
    requires Continue(s, steps, hash) == Some(s1) && Enabled(s1, a)
    ensures Continue(s, steps + [a], hash) == Some(Apply(s1, a, hash))
  {
    InitLast(steps, a);
  }

  /** What one successful round leaves behind. */
  ghost predicate Delivered(s: Sys, s': Sys, w: nat, k: Key)
    requires k in s.db.rows
  {
    && s'.now == s.now && PhaseOf(s', w).Idle? && s'.db.messages == s.db.messages
    && k in s'.db.rows && s'.db.rows == s.db.rows[k := s'.db.rows[k]]
    && s'.db.rows[k].deliveredAt == Some(s.now)
    && s'.logs == Append(s.logs, k.target, Record(0, Encode(s.db.rows[k].payload)))
  }

  /** The claim half of the round. */
  lemma ClaimHalf(s: Sys, w: nat, k: Key, token: Token, hash: string -> string) returns (s': Sys)
    requires PhaseOf(s, w).Idle? && token !in s.issued && Eligible(s.db.rows, k.target, s.now, k)
    ensures var steps := [SendClaim(w, k.target, token), ExecClaim(k.target, token, Some(k)), RecvClaim(w)];
            Continue(s, steps, hash) == Some(s')
    ensures var d := DeliveryOf(s.db.rows, k, token);
            && s'.now == s.now && s'.logs == s.logs && PhaseOf(s', w) == Publishing(d, s.now, s.now)
            && PublishS(d) in s'.sent
            && s'.db == s.db.(rows := s.db.rows[k := ClaimRow(s.db.rows[k], token, s.now, LEASE_MS)])
  {
    var a, b, c := SendClaim(w, k.target, token), ExecClaim(k.target, token, Some(k)), RecvClaim(w);
    assert [] + [a] == [a] && [a] + [b] == [a, b] && [a, b] + [c] == [a, b, c];
    OneStep(s, [], s, a, hash);
    var s1 := Apply(s, a, hash);
    OneStep(s, [a], s1, b, hash);
    var s2 := Apply(s1, b, hash);
    OneStep(s, [a, b], s2, c, hash);
    s' := Apply(s2, c, hash);
  }

  /** The publish-and-complete half. */
  lemma PublishHalf(s: Sys, w: nat, d: Delivery, at: Time, hash: string -> string) returns (s': Sys)
    requires PhaseOf(s, w) == Publishing(d, at, at) && PublishS(d) in s.sent && Holds(s.db.rows, d)
    ensures var steps := [ExecPublish(d, 0, true), RecvPublish(w, true, 0, 0), ExecComplete(d), GiveUp(w)];
            Continue(s, steps, hash) == Some(s')
    ensures s'.now == s.now && PhaseOf(s', w).Idle?
    ensures s'.db == s.db.(rows := Completed(s.db.rows, d, s.now))
    ensures s'.logs == Append(s.logs, d.target, Record(0, Encode(d.event)))
  {
    var a, b, c, e := ExecPublish(d, 0, true), RecvPublish(w, true, 0, 0), ExecComplete(d), GiveUp(w);
    assert [] + [a] == [a] && [a] + [b] == [a, b] && [a, b] + [c] == [a, b, c] && [a, b, c] + [e] == [a, b, c, e];
    OneStep(s, [], s, a, hash);
    var s1 := Apply(s, a, hash);
    OneStep(s, [a], s1, b, hash);
    var s2 := Apply(s1, b, hash);
    OneStep(s, [a, b], s2, c, hash);
    var s3 := Apply(s2, c, hash);
    OneStep(s, [a, b, c], s3, e, hash);
    s' := Apply(s3, e, hash);
  }

  /** The steps of one round of worker w that delivers row k. */
  ghost predicate IsRound(steps: seq<Action>, w: nat, k: Key) {
    exists d: Delivery ::
      d.RowKey() == k
      && steps == [SendClaim(w, k.target, d.token), ExecClaim(k.target, d.token, Some(k)), RecvClaim(w),
                   ExecPublish(d, 0, true), RecvPublish(w, true, 0, 0), ExecComplete(d), GiveUp(w)]
  }

  /** One round of worker w for each row, in this order, and no other step. */
  ghost predicate Rounds(steps: seq<Action>, w: nat, order: seq<Key>) {
    if order == [] then steps == []
    else |steps| >= 7 && IsRound(steps[..7], w, order[0]) && Rounds(steps[7..], w, order[1..])
  }

  lemma DeliverRound(s: Sys, w: nat, k: Key, hash: string -> string) returns (steps: seq<Action>, s': Sys)
    requires PhaseOf(s, w).Idle? && Eligible(s.db.rows, k.target, s.now, k)
    ensures Continue(s, steps, hash) == Some(s') && Delivered(s, s', w, k) && |steps| == 7 && IsRound(steps, w, k)
  {
    var token := FreshToken(s.issued);
    var mid := ClaimHalf(s, w, k, token, hash);
    var d := DeliveryOf(s.db.rows, k, token);
    s' := PublishHalf(mid, w, d, s.now, hash);
    var half := [SendClaim(w, k.target, token), ExecClaim(k.target, token, Some(k)), RecvClaim(w)];
    var rest := [ExecPublish(d, 0, true), RecvPublish(w, true, 0, 0), ExecComplete(d), GiveUp(w)];
    ContinueJoins(s, half, rest, hash);
    steps := half + rest;
    assert d.RowKey() == k;
  }

  /** A new message can be delivered at once: one round of any idle worker publishes and completes it without a wait. */
  lemma DeliverableAtOnce(at: Time, run: seq<Action>, hash: string -> string, a: Action, w: nat, target: string)
    returns (steps: seq<Action>, s': Sys)
    requires Exec(at, run, hash).Some? && a.Create? && Enabled(Exec(at, run, hash).value, a) && target in a.targets
    requires Inserts(Exec(at, run, hash).value.db, a.targets, a.text, a.idemKey, a.fate)
    requires PhaseOf(Exec(at, run, hash).value, w).Idle?
    ensures var k := Key(a.fate.id, target);
            var s := Apply(Exec(at, run, hash).value, a, hash);
            && k in s.db.rows && Continue(s, steps, hash) == Some(s') && IsRound(steps, w, k) && Delivered(s, s', w, k)
  {
    NewMessagesAreClaimable(at, run, hash, a, target);
    steps, s' := DeliverRound(Apply(Exec(at, run, hash).value, a, hash), w, Key(a.fate.id, target), hash);
  }

  lemma RoundLeaves(s: Sys, s': Sys, w: nat, k: Key)
    requires k in PendingKeys(s.db.rows, k.target) && Delivered(s, s', w, k) && Ripe(s.db.rows, k.target, s.now)
    ensures PendingKeys(s'.db.rows, k.target) == PendingKeys(s.db.rows, k.target) - {k}
    ensures Ripe(s'.db.rows, k.target, s'.now)
    ensures forall j :: j in PendingKeys(s.db.rows, k.target) && j != k ==> s'.db.rows[j] == s.db.rows[j]
    ensures Log(s'.logs, k.target) == Log(s.logs, k.target) + [Record(0, Encode(s.db.rows[k].payload))]
  {
  }

  lemma PublishedCons(t: Table, t1: Table, k: Key, later: seq<Key>)
    requires k in t && forall j :: j in later ==> j in t && j in t1 && t1[j] == t[j]
    ensures Published(t, [k] + later) == [Record(0, Encode(t[k].payload))] + Published(t1, later)
  {
    assert forall i :: 0 <= i < |later| ==> ([k] + later)[i + 1] == later[i] && later[i] in later;
  }

  lemma OrderExtends(t: Table, t1: Table, target: string, pending: set<Key>, k: Key, later: seq<Key>)
    requires pending <= t.Keys && k in pending && forall j :: j in pending ==> Before(t, k, j) && j.target == target
    requires forall j :: j in later <==> j in pending && j != k
    requires forall j :: j in later ==> j in t1 && t1[j] == t[j]
    requires SortedBy(t1, later)
    ensures SortedBy(t, [k] + later) && forall j :: j in [k] + later <==> j in pending
  {
    var order := [k] + later;
    forall i, j | 0 <= i < j < |order| ensures Precedes(t, order[i], order[j]) {
      assert order[j] == later[j - 1] && later[j - 1] in later;
      if i == 0 {
        assert Before(t, k, order[j]);
      } else {
        assert order[i] == later[i - 1] && later[i - 1] in later && Precedes(t1, order[i], order[j]);
      }
    }
  }

  /** One delivered row in front of a drained rest. */
  lemma DrainJoins(t: Table, t1: Table, log: seq<Record>, log2: seq<Record>, target: string, pending: set<Key>, k: Key,
                   later: seq<Key>)
    requires pending <= t.Keys && k in pending && forall j :: j in pending ==> Before(t, k, j) && j.target == target
    requires forall j :: j in later <==> j in pending && j != k
    requires forall j :: j in later ==> j in t1 && t1[j] == t[j]
    requires SortedBy(t1, later) && log2 == log + [Record(0, Encode(t[k].payload))] + Published(t1, later)
    ensures SortedBy(t, [k] + later) && forall j :: j in [k] + later <==> j in pending
    ensures log2 == log + Published(t, [k] + later)
  {
    OrderExtends(t, t1, target, pending, k, later);
    PublishedCons(t, t1, k, later);
  }

  /** Everything pending is ripe: as many rounds as there are rows deliver them in order. */
  lemma {:induction false} DrainFrom(s: Sys, w: nat, target: string, hash: string -> string)
    returns (steps: seq<Action>, s': Sys, order: seq<Key>)
    requires PhaseOf(s, w).Idle? && Ripe(s.db.rows, target, s.now)
    ensures Continue(s, steps, hash) == Some(s') && s'.now == s.now && PhaseOf(s', w).Idle?
    ensures Rounds(steps, w, order)
    ensures (forall k :: k in order <==> k in PendingKeys(s.db.rows, target))
    ensures |order| == |PendingKeys(s.db.rows, target)| && SortedBy(s.db.rows, order)
    ensures Log(s'.logs, target) == Log(s.logs, target) + Published(s.db.rows, order)
    ensures PendingKeys(s'.db.rows, target) == {}
    ensures forall k: Key :: k.target != target ==> (k in s'.db.rows <==> k in s.db.rows)
    ensures forall k :: k in s.db.rows && k.target != target ==> s'.db.rows[k] == s.db.rows[k]
    decreases |PendingKeys(s.db.rows, target)|
  {
    var pending := PendingKeys(s.db.rows, target);
    if pending == {} {
      return [], s, [];
    }
    var k := FirstExists(s.db.rows, pending);
    var first, s1 := DeliverRound(s, w, k, hash);
    RoundLeaves(s, s1, w, k);
    var rest, s2, later := DrainFrom(s1, w, target, hash);
    ContinueJoins(s, first, rest, hash);
    steps, s', order := first + rest, s2, [k] + later;
    assert steps[..7] == first && steps[7..] == rest && order[1..] == later;
    DrainJoins(s.db.rows, s1.db.rows, Log(s.logs, target), Log(s2.logs, target), target, pending, k, later);
  }

  /**
    From every reachable state, for every broker: let one lease pass, then let one idle worker run undisturbed. The n
    undelivered rows are delivered in n rounds, in order, and none is left.
   */
  lemma AlwaysDrains(at: Time, run: seq<Action>, hash: string -> string, w: nat, target: string)
    returns (steps: seq<Action>, order: seq<Key>)
    requires Exec(at, run, hash).Some?
    ensures |steps| >= 2 && steps[..2] == [GiveUp(w), Tick(LEASE)] && Rounds(steps[2..], w, order)
    ensures Exec(at, run + steps, hash).Some?
    ensures var s, s' := Exec(at, run, hash).value, Exec(at, run + steps, hash).value;
            && s'.now == s.now + LEASE
            && (forall k :: k in order <==> Pending(s.db.rows, target, k))
            && SortedBy(s.db.rows, order) && |order| == |PendingKeys(s.db.rows, target)|
            && Log(s'.logs, target) == Log(s.logs, target) + Published(s.db.rows, order)
            && (forall k :: !Pending(s'.db.rows, target, k))
  {
    var s := Exec(at, run, hash).value;
    EveryRun(at, run, hash);
    var drop, tick := GiveUp(w), Tick(LEASE);
    OneStep(s, [], s, drop, hash);
    var s1 := Apply(s, drop, hash);
    OneStep(s, [drop], s1, tick, hash);
    var s2 := Apply(s1, tick, hash);
    assert [] + [drop] == [drop] && [drop] + [tick] == [drop, tick];
    var rest, s3;
    rest, s3, order := DrainFrom(s2, w, target, hash);
    ContinueJoins(s, [drop, tick], rest, hash);
    steps := [drop, tick] + rest;
    assert steps[2..] == rest;
    ContinueIsARun(at, run, steps, hash);
    forall k ensures k in order <==> Pending(s.db.rows, target, k) {
      assert k in PendingKeys(s.db.rows, target) <==> Pending(s.db.rows, target, k);
    }
    forall k ensures !Pending(s3.db.rows, target, k) {
      assert k !in PendingKeys(s3.db.rows, target);
    }
  }
}
