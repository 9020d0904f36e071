/** The worker loop (internal/outbox/worker.go): in the middle of everything else, and alone on a quiet system. */
module OutboxWorker {
  import opened Base
  import opened Messaging
  import opened OutboxTable
  import opened OutboxProtocol
  import opened OutboxInvariants

  /** Steps of the others, taken from those listed. */
  ghost predicate OnlyOthers(taken: seq<Action>, w: nat, steps: seq<Action>) {
    forall a :: a in taken ==> a in steps && Mover(a) != Some(w)
  }

  /** A running system together with the run that led to it. */
  class World {
    const at: Time
    const hash: string -> string
    var s: Sys
    ghost var run: seq<Action>

    ghost predicate Valid()
      reads this
    {
      Exec(at, run, hash) == Some(s)
    }

    constructor (at: Time, hash: string -> string)
      ensures Valid() && s == Empty(at) && run == []
    {
      this.at, this.hash, s, run := at, hash, Empty(at), [];
    }

    method Do(a: Action)
      requires Valid() && Enabled(s, a)
      modifies this
      ensures Valid() && s == Apply(old(s), a, hash) && run == old(run) + [a]
    {
      InitLast(run, a);
      s := Apply(s, a, hash);
      run := run + [a];
    }

    /** Everybody but worker w takes the steps listed, as far as they are possible. */
    method Meanwhile(w: nat, steps: seq<Action>) returns (ghost taken: seq<Action>)
      requires Valid()
      modifies this
      ensures Valid() && run == old(run) + taken && PhaseOf(s, w) == PhaseOf(old(s), w)
      ensures Interleaved(at, hash, old(run), taken, w, steps)
    {
      taken := [];
      for i := 0 to |steps|
        invariant Valid() && run == old(run) + taken && PhaseOf(s, w) == PhaseOf(old(s), w)
        invariant OnlyOthers(taken, w, steps)
        invariant Possible(at, hash, old(run), w, steps) ==> taken == steps[..i]
      {
        assert steps[..i + 1] == steps[..i] + [steps[i]];
        if Mover(steps[i]) != Some(w) && Enabled(s, steps[i]) {
          OthersStay(s, steps[i], hash);
          Do(steps[i]);
          taken := taken + [steps[i]];
        } else {
          NotPossible(at, hash, old(run), w, steps, i, s);
        }
      }
      assert steps[..|steps|] == steps;
    }
  }

  /** The others can take these steps, one after the other. */
  ghost predicate Possible(at: Time, hash: string -> string, run: seq<Action>, w: nat, steps: seq<Action>) {
    && (forall a :: a in steps ==> Mover(a) != Some(w))
    && (forall i :: 0 <= i <= |steps| ==> Exec(at, run + steps[..i], hash).Some?)
  }

  /** Steps of the others from those listed; all of them, if they can be taken. */
  ghost predicate Interleaved(at: Time, hash: string -> string, run: seq<Action>, taken: seq<Action>, w: nat,
                              steps: seq<Action>)
  {
    OnlyOthers(taken, w, steps) && (Possible(at, hash, run, w, steps) ==> taken == steps)
  }

  lemma NotPossible(at: Time, hash: string -> string, run: seq<Action>, w: nat, steps: seq<Action>, i: nat, s: Sys)
    requires i < |steps| && (Mover(steps[i]) == Some(w) || !Enabled(s, steps[i]))
    requires Possible(at, hash, run, w, steps) ==> Exec(at, run + steps[..i], hash) == Some(s)
    ensures !Possible(at, hash, run, w, steps)
  {
    assert run + steps[..i + 1] == run + steps[..i] + [steps[i]];
    InitLast(run + steps[..i], steps[i]);
  }

  /** A token never used before. */
  method NewToken(issued: set<Token>) returns (token: Token)
    ensures token !in issued
  {
    ghost var unused := FreshToken(issued);
    assert unused !in issued;
    token :| token !in issued;
  }

  lemma {:induction false} FreshToken(used: set<Token>) returns (t: Token)
    ensures forall u :: u in used ==> u < t
  {
    if used == {} {
      t := 0;
    } else {
      var u :| u in used;
      var t' := FreshToken(used - {u});
      t := if u < t' then t' else u + 1;
      assert forall v :: v in used ==> v == u || v in used - {u};
    }
  }

  /** How a round ended: no answer to the claim, nothing to claim, delivered, or given back. */
  datatype Did = ClaimFailed | NothingThere | Delivered | GivenBack

  datatype Factory = Built | NotConfigured | BuildError

  /** What one round of the loop meets; the three lists are the steps everybody else takes during its calls. */
  datatype Meeting = Meeting(duringClaim: seq<Action>, claimAnswered: bool, factory: Factory,
                             duringPublish: seq<Action>, published: bool, draw: nat,
                             duringFinish: seq<Action>, canceled: bool)

  predicate IsClaim(a: Action, w: nat, target: string) { a.SendClaim? && a.w == w && a.target == target }

  /** What a worker makes of its claim when it stops waiting; None when a row was leased. */
  predicate ClaimAnswer(s: Sys, tok: Token, m: Meeting, did: Option<Did>) {
    && (did == Some(ClaimFailed) <==> !m.claimAnswered || tok !in s.replies)
    && (did == Some(NothingThere) <==> m.claimAnswered && tok in s.replies && s.replies[tok].Nothing?)
    && (did.Some? ==> did.value == ClaimFailed || did.value == NothingThere)
  }

  /** What a worker makes of its publication: a success exactly when it has a publisher and the broker confirmed. */
  predicate PublishAnswer(s: Sys, w: nat, publisher: bool, m: Meeting, ok: bool) {
    && PhaseOf(s, w).Publishing?
    && (ok <==> (publisher || m.factory == Built) && m.published && PhaseOf(s, w).d.token in s.confirmed)
  }

  /** The claim half of a round that started after `before`: the claim, and what the others did meanwhile. */
  ghost predicate ClaimDid(at: Time, hash: string -> string, before: seq<Action>, w: nat, target: string, m: Meeting,
                           did: Option<Did>, tok: Token, others: seq<Action>)
  {
    var run := before + [SendClaim(w, target, tok)] + others;
    && Interleaved(at, hash, before + [SendClaim(w, target, tok)], others, w, m.duringClaim)
    && Exec(at, run, hash).Some? && ClaimAnswer(Exec(at, run, hash).value, tok, m, did)
  }

  /** The publishing half, up to the report. */
  ghost predicate PublishDid(at: Time, hash: string -> string, before: seq<Action>, w: nat, publisher: bool, m: Meeting,
                             ok: bool, others: seq<Action>)
  {
    && Interleaved(at, hash, before, others, w, m.duringPublish)
    && Exec(at, before + others, hash).Some?
    && PublishAnswer(Exec(at, before + others, hash).value, w, publisher, m, ok)
  }

  /** The token of a round's claim, and what the others did during its three calls. */
  datatype Trace = Trace(tok: Token, claiming: seq<Action>, publishing: seq<Action>, finishing: seq<Action>)

  /** The round between two points of the run. */
  ghost predicate RoundDid(at: Time, hash: string -> string, before: seq<Action>, after: seq<Action>, w: nat,
                           target: string, publisher: bool, attempt: nat, m: Meeting, did: Did, tr: Trace)
  {
    var asked := before + [SendClaim(w, target, tr.tok)] + tr.claiming;
    match did
    case ClaimFailed =>
      ClaimDid(at, hash, before, w, target, m, Some(did), tr.tok, tr.claiming) && after == asked + [GiveUp(w)]
    case NothingThere =>
      ClaimDid(at, hash, before, w, target, m, Some(did), tr.tok, tr.claiming) && after == asked + [RecvClaim(w)]
    case _ =>
      && ClaimDid(at, hash, before, w, target, m, None, tr.tok, tr.claiming)
      && PublishDid(at, hash, asked + [RecvClaim(w)], w, publisher, m, did == Delivered, tr.publishing)
      && Interleaved(at, hash, asked + [RecvClaim(w)] + tr.publishing
                               + [RecvPublish(w, did == Delivered, attempt, m.draw)], tr.finishing, w, m.duringFinish)
      && after == asked + [RecvClaim(w)] + tr.publishing + [RecvPublish(w, did == Delivered, attempt, m.draw)]
                  + tr.finishing + [GiveUp(w)]
  }

  lemma RoundOfClaim(at: Time, hash: string -> string, before: seq<Action>, after: seq<Action>, w: nat, target: string,
                     publisher: bool, attempt: nat, m: Meeting, did: Did, tr: Trace)
    requires ClaimDid(at, hash, before, w, target, m, Some(did), tr.tok, tr.claiming)
    requires after == before + [SendClaim(w, target, tr.tok)] + tr.claiming
                      + [if did == ClaimFailed then GiveUp(w) else RecvClaim(w)]
    ensures before <= after && RoundDid(at, hash, before, after, w, target, publisher, attempt, m, did, tr)
  {
  }

  lemma RoundOfTwoHalves(at: Time, hash: string -> string, before: seq<Action>, mid: seq<Action>, after: seq<Action>,
                         w: nat, target: string, publisher: bool, attempt: nat, m: Meeting, ok: bool, tr: Trace)
    requires ClaimDid(at, hash, before, w, target, m, None, tr.tok, tr.claiming)
    requires mid == before + [SendClaim(w, target, tr.tok)] + tr.claiming + [RecvClaim(w)]
    requires PublishDid(at, hash, mid, w, publisher, m, ok, tr.publishing)
    requires Interleaved(at, hash, mid + tr.publishing + [RecvPublish(w, ok, attempt, m.draw)], tr.finishing, w,
                         m.duringFinish)
    requires after == mid + tr.publishing + [RecvPublish(w, ok, attempt, m.draw)] + tr.finishing + [GiveUp(w)]
    ensures before <= after
    ensures RoundDid(at, hash, before, after, w, target, publisher, attempt, m, if ok then Delivered else GivenBack, tr)
  {
  }

  /** Publications given back since the last one delivered, on top of `start`. */
  function FailedStreak(start: nat, dids: seq<Did>): nat {
    if dids == [] then start
    else match Last(dids)
      case Delivered => 0
      case GivenBack => FailedStreak(start, Init(dids)) + 1
      case _ => FailedStreak(start, Init(dids))
  }

  /** Claims without an answer since the last answered one. */
  function ClaimStreak(start: nat, dids: seq<Did>): nat {
    if dids == [] then start else if Last(dids) == ClaimFailed then ClaimStreak(start, Init(dids)) + 1 else 0
  }

  /** Whether the loop holds a publisher: a delivery keeps it, a failed publication closes it. */
  function HasPublisher(start: bool, dids: seq<Did>): bool {
    if dids == [] then start
    else match Last(dids)
      case Delivered => true
      case GivenBack => false
      case _ => HasPublisher(start, Init(dids))
  }

  lemma StreaksSnoc(dids: seq<Did>, did: Did, attempt: nat, claims: nat, publisher: bool)
    ensures FailedStreak(attempt, dids + [did]) == FailedStreak(FailedStreak(attempt, dids), [did])
    ensures ClaimStreak(claims, dids + [did]) == if did == ClaimFailed then ClaimStreak(claims, dids) + 1 else 0
    ensures HasPublisher(publisher, dids + [did]) == HasPublisher(HasPublisher(publisher, dids), [did])
  {
    InitLast(dids, did);
    assert Init([did]) == [];
  }

  /** Where and with what a loop of rounds started, and what its rounds met. */
  datatype Loop = Loop(at: Time, hash: string -> string, w: nat, target: string, publisher: bool, attempt: nat,
                       meetings: seq<Meeting>)

  /** Round i of the loop led from one point of the run to the next. */
  ghost predicate RoundAt(l: Loop, dids: seq<Did>, trs: seq<Trace>, points: seq<seq<Action>>, i: nat)
    requires i < |dids| == |trs| <= |l.meetings| && |points| == |dids| + 1
  {
    RoundDid(l.at, l.hash, points[i], points[i + 1], l.w, l.target, HasPublisher(l.publisher, dids[..i]),
             FailedStreak(l.attempt, dids[..i]), l.meetings[i], dids[i], trs[i])
  }

  /** These rounds, one after the other, led from one run to another. */
  ghost predicate RoundsMade(l: Loop, dids: seq<Did>, trs: seq<Trace>, from: seq<Action>, to: seq<Action>,
                             points: seq<seq<Action>>)
  {
    && |dids| == |trs| <= |l.meetings| && |points| == |dids| + 1 && points[0] == from && Last(points) == to
    && forall i :: 0 <= i < |dids| ==> RoundAt(l, dids, trs, points, i)
  }

  lemma RoundStays(l: Loop, dids: seq<Did>, trs: seq<Trace>, points: seq<seq<Action>>, did: Did, tr: Trace,
                   run: seq<Action>, i: nat)
    requires i < |dids| == |trs| < |l.meetings| && |points| == |dids| + 1 && RoundAt(l, dids, trs, points, i)
    ensures RoundAt(l, dids + [did], trs + [tr], points + [run], i)
  {
    assert (dids + [did])[..i] == dids[..i];
  }

  lemma OneMoreRound(l: Loop, dids: seq<Did>, trs: seq<Trace>, from: seq<Action>, to: seq<Action>,
                     points: seq<seq<Action>>, did: Did, tr: Trace, run: seq<Action>)
    requires RoundsMade(l, dids, trs, from, to, points) && |dids| < |l.meetings|
    requires RoundDid(l.at, l.hash, to, run, l.w, l.target, HasPublisher(l.publisher, dids),
                      FailedStreak(l.attempt, dids), l.meetings[|dids|], did, tr)
    ensures RoundsMade(l, dids + [did], trs + [tr], from, run, points + [run])
  {
    forall i | 0 <= i < |dids| + 1 ensures RoundAt(l, dids + [did], trs + [tr], points + [run], i) {
      if i < |dids| {
        RoundStays(l, dids, trs, points, did, tr, run, i);
      } else {
        assert (dids + [did])[..i] == dids;
      }
    }
  }

  class Worker {
    const w: nat
    const target: string
    var publisher: bool
    var attempt: nat
    var claimAttempt: nat
    var built: nat
    var closed: nat

    /** Every publisher built was closed, except the one in use. */
    predicate Tidy()
      reads this
    {
      built == closed + if publisher then 1 else 0
    }

    constructor (w: nat, target: string)
      ensures this.w == w && this.target == target && Tidy() && built == 0
    {
      this.w, this.target := w, target;
      publisher, attempt, claimAttempt, built, closed := false, 0, 0, 0, 0;
    }

    /** Obtain a publisher if there is none and publish; the error of either counts as a failed publication. */
    method Publish(m: Meeting) returns (ok: bool)
      requires Tidy()
      modifies this`publisher, this`built
      ensures Tidy() && publisher == (old(publisher) || m.factory == Built) && (ok <==> publisher && m.published)
    {
      if !publisher && m.factory == Built {
        publisher := true;
        built := built + 1;
      }
      ok := publisher && m.published;
    }

    /** The first half of a round: claim a row. */
    method Claim(world: World, m: Meeting) returns (did: Option<Did>, ghost tok: Token, ghost others: seq<Action>)
      requires world.Valid() && PhaseOf(world.s, w).Idle?
      modifies this`claimAttempt, world
      ensures world.Valid() && ClaimDid(world.at, world.hash, old(world.run), w, target, m, did, tok, others)
      ensures world.run == old(world.run) + [SendClaim(w, target, tok)] + others
                           + [if did == Some(ClaimFailed) then GiveUp(w) else RecvClaim(w)]
      ensures claimAttempt == if did == Some(ClaimFailed) then old(claimAttempt) + 1 else 0
      ensures if did.None? then PhaseOf(world.s, w).Publishing? else PhaseOf(world.s, w).Idle?
    {
      var token := NewToken(world.s.issued);
      tok := token;
      world.Do(SendClaim(w, target, token));
      others := world.Meanwhile(w, m.duringClaim);
      if !m.claimAnswered || token !in world.s.replies {
        did := Some(ClaimFailed);
        world.Do(GiveUp(w));
        claimAttempt := claimAttempt + 1;
        return;
      }
      did := if world.s.replies[token].Nothing? then Some(NothingThere) else None;
      world.Do(RecvClaim(w));
      claimAttempt := 0;
    }

    /** Send Complete or Retry and wait for its reply. */
    method Report(world: World, m: Meeting, ok: bool) returns (ghost others: seq<Action>)
      requires world.Valid() && Enabled(world.s, RecvPublish(w, ok, attempt, m.draw))
      modifies world
      ensures world.Valid() && PhaseOf(world.s, w).Idle?
      ensures Interleaved(world.at, world.hash, old(world.run) + [RecvPublish(w, ok, attempt, m.draw)], others, w,
                          m.duringFinish)
      ensures world.run == old(world.run) + [RecvPublish(w, ok, attempt, m.draw)] + others + [GiveUp(w)]
    {
      world.Do(RecvPublish(w, ok, attempt, m.draw));
      others := world.Meanwhile(w, m.duringFinish);
      world.Do(GiveUp(w));
    }

    /** Obtain a publisher, publish, and close the publisher if that failed. */
    method TryPublish(m: Meeting, confirmed: bool) returns (ok: bool)
      requires Tidy()
      modifies this`publisher, this`built, this`closed
      ensures Tidy() && publisher == ok
      ensures ok <==> (old(publisher) || m.factory == Built) && m.published && confirmed
    {
      ok := Publish(m);
      ok := ok && confirmed; // nil only if the broker holds the event
      if !ok && publisher {
        publisher := false;
        closed := closed + 1;
      }
    }

    /** The second half: publish, then complete or give the row back. */
    method Finish(world: World, m: Meeting)
      returns (ok: bool, ghost publishing: seq<Action>, ghost finishing: seq<Action>)
      requires world.Valid() && Tidy() && PhaseOf(world.s, w).Publishing?
      modifies this, world
      ensures world.Valid() && Tidy() && PhaseOf(world.s, w).Idle?
      ensures PublishDid(world.at, world.hash, old(world.run), w, old(publisher), m, ok, publishing)
      ensures Interleaved(world.at, world.hash,
                          old(world.run) + publishing + [RecvPublish(w, ok, old(attempt), m.draw)], finishing, w,
                          m.duringFinish)
      ensures world.run == old(world.run) + publishing + [RecvPublish(w, ok, old(attempt), m.draw)] + finishing
                           + [GiveUp(w)]
      ensures attempt == (if ok then 0 else old(attempt) + 1) && publisher == ok
      ensures claimAttempt == old(claimAttempt)
    {
      publishing := world.Meanwhile(w, m.duringPublish);
      ok := TryPublish(m, PhaseOf(world.s, w).d.token in world.s.confirmed);
      finishing := Report(world, m, ok);
      attempt := if ok then 0 else attempt + 1;
    }

    /**
      One round, whatever happens meanwhile: a claim first, and after a granted one the report of its publication. How
      it ends is decided by what the round met.
     */
    method Round(world: World, m: Meeting) returns (did: Did, ghost tr: Trace)
      requires world.Valid() && Tidy() && PhaseOf(world.s, w).Idle?
      modifies this, world
      ensures world.Valid() && old(world.run) <= world.run && Tidy() && PhaseOf(world.s, w).Idle?
      ensures RoundDid(world.at, world.hash, old(world.run), world.run, w, target, old(publisher), old(attempt), m, did,
                       tr)
      ensures claimAttempt == if did == ClaimFailed then old(claimAttempt) + 1 else 0
      ensures attempt == FailedStreak(old(attempt), [did]) && publisher == HasPublisher(old(publisher), [did])
    {
      var ended;
      ghost var tok, claiming;
      ended, tok, claiming := Claim(world, m);
      if ended.Some? { // the claim failed, or there is nothing to claim: wait
        did, tr := ended.value, Trace(tok, claiming, [], []);
        assert Init([did]) == [];
        RoundOfClaim(world.at, world.hash, old(world.run), world.run, w, target, publisher, attempt, m, did, tr);
        return;
      }
      ghost var mid := world.run;
      var ok;
      ghost var publishing, finishing;
      ok, publishing, finishing := Finish(world, m);
      did, tr := if ok then Delivered else GivenBack, Trace(tok, claiming, publishing, finishing);
      assert Init([did]) == [];
      RoundOfTwoHalves(world.at, world.hash, old(world.run), mid, world.run, w, target, old(publisher), old(attempt), m,
                       ok, tr);
    }

    /** One more round of a loop. */
    method NextRound(world: World, m: Meeting, ghost l: Loop, ghost dids: seq<Did>, ghost trs: seq<Trace>,
                     ghost from: seq<Action>, ghost points: seq<seq<Action>>)
      returns (did: Did, ghost tr: Trace)
      requires world.Valid() && Tidy() && PhaseOf(world.s, w).Idle?
      requires l == Loop(world.at, world.hash, w, target, l.publisher, l.attempt, l.meetings)
      requires |dids| < |l.meetings| && m == l.meetings[|dids|] && RoundsMade(l, dids, trs, from, world.run, points)
      requires publisher == HasPublisher(l.publisher, dids) && attempt == FailedStreak(l.attempt, dids)
      modifies this, world
      ensures world.Valid() && old(world.run) <= world.run && Tidy() && PhaseOf(world.s, w).Idle?
      ensures RoundsMade(l, dids + [did], trs + [tr], from, world.run, points + [world.run])
      ensures publisher == HasPublisher(l.publisher, dids + [did]) && attempt == FailedStreak(l.attempt, dids + [did])
      ensures claimAttempt == if did == ClaimFailed then old(claimAttempt) + 1 else 0
    {
      did, tr := Round(world, m);
      OneMoreRound(l, dids, trs, from, old(world.run), points, did, tr, world.run);
      StreaksSnoc(dids, did, l.attempt, 0, l.publisher);
    }

    /**
      The loop: one round after the other up to the first that meets the end of the context. Its two counters are the
      current streaks of failed publications and of failed claims; every publisher is closed on the way out.
     */
    method Run(world: World, meetings: seq<Meeting>)
      returns (dids: seq<Did>, ghost trs: seq<Trace>, ghost points: seq<seq<Action>>)
      requires world.Valid() && Tidy() && PhaseOf(world.s, w).Idle?
      modifies this, world
      ensures world.Valid() && old(world.run) <= world.run && PhaseOf(world.s, w).Idle?
      ensures RoundsMade(Loop(world.at, world.hash, w, target, old(publisher), old(attempt), meetings), dids, trs,
                         old(world.run), world.run, points)
      ensures built == closed && !publisher
      ensures |dids| <= |meetings| && forall i :: 0 <= i < |dids| - 1 ==> !meetings[i].canceled
      ensures |dids| < |meetings| ==> dids != [] && meetings[|dids| - 1].canceled
      ensures attempt == FailedStreak(old(attempt), dids) && claimAttempt == ClaimStreak(old(claimAttempt), dids)
    {
      dids, trs, points := [], [], [world.run];
      ghost var l := Loop(world.at, world.hash, w, target, publisher, attempt, meetings);
      for i := 0 to |meetings|
        invariant world.Valid() && old(world.run) <= world.run && Tidy() && PhaseOf(world.s, w).Idle?
        invariant |dids| == i && forall j :: 0 <= j < i ==> !meetings[j].canceled
        invariant RoundsMade(l, dids, trs, old(world.run), world.run, points)
        invariant attempt == FailedStreak(old(attempt), dids) && claimAttempt == ClaimStreak(old(claimAttempt), dids)
        invariant publisher == HasPublisher(old(publisher), dids)
      {
        var did;
        ghost var tr;
        did, tr := NextRound(world, meetings[i], l, dids, trs, old(world.run), points);
        StreaksSnoc(dids, did, old(attempt), old(claimAttempt), old(publisher));
        dids, trs, points := dids + [did], trs + [tr], points + [world.run];
        if meetings[i].canceled {
          break;
        }
      }
      if publisher {
        publisher := false;
        closed := closed + 1;
      }
    }
  }

  // ----- Draining -----

  /** Strictly ascending by available_at, then by message_id. */
  predicate Precedes(t: Table, a: Key, b: Key) {
    && a in t && b in t
    && (t[a].availableAt < t[b].availableAt || (t[a].availableAt == t[b].availableAt && a.id < b.id))
  }

  ghost predicate SortedBy(t: Table, order: seq<Key>) {
    forall i, j :: 0 <= i < j < |order| ==> Precedes(t, order[i], order[j])
  }

  /** What publishing the events of these rows appends to the log. */
  function Published(t: Table, order: seq<Key>): seq<Record>
    requires forall k :: k in order ==> k in t
  {
    seq(|order|, i requires 0 <= i < |order| && order[i] in t => Record(0, Encode(t[order[i]].payload)))
  }

  ghost function PendingKeys(t: Table, target: string): set<Key> { set k | k in t && Pending(t, target, k) }

  /** Every pending row is available. */
  ghost predicate Ripe(t: Table, target: string, now: Time) {
    forall k :: k in PendingKeys(t, target) ==> t[k].availableAt <= now
  }

  /** One successful round on a quiet system: claim, publish, complete. */
  method Deliver(store: Outbox, log: seq<Record>, target: string, token: Token, now: Time)
    returns (d: Option<Delivery>, log': seq<Record>)
    requires Ripe(store.rows, target, now)
    modifies store
    ensures d.None? ==> store.rows == old(store.rows) && PendingKeys(store.rows, target) == {} && log' == log
    ensures d.Some? ==>
              var k := d.value.RowKey();
              && k in PendingKeys(old(store.rows), target)
              && (forall j :: j in PendingKeys(old(store.rows), target) ==> Before(old(store.rows), k, j))
              && log' == log + [Record(0, Encode(old(store.rows)[k].payload))]
              && k in store.rows && store.rows == old(store.rows)[k := store.rows[k]]
              && store.rows[k].deliveredAt == Some(now)
  {
    assert forall k :: k in PendingKeys(store.rows, target) ==> Eligible(store.rows, target, now, k);
    d := store.Claim(target, token, LEASE_MS, now, {});
    log' := log;
    if d.Some? {
      log' := log' + [Record(0, Encode(d.value.event))];
      var lost := store.Complete(d.value, now);
      assert !lost;
    }
  }

  /** `order` lists the part of `all` that was delivered so far, sorted, and everything left comes later. */
  ghost predicate Progress(t0: Table, all: set<Key>, left: set<Key>, order: seq<Key>) {
    && all <= t0.Keys && left <= all
    && (forall k :: k in order <==> k in all && k !in left)
    && |order| + |left| == |all|
    && SortedBy(t0, order)
    && (forall i, k :: 0 <= i < |order| && k in left ==> Precedes(t0, order[i], k))
  }

  /** Rows not listed in `order` are as they were. */
  ghost predicate Untouched(t0: Table, t: Table, order: seq<Key>) {
    t.Keys == t0.Keys && forall k :: k in t0 && k !in order ==> t[k] == t0[k]
  }

  lemma PublishedSnoc(t: Table, order: seq<Key>, k: Key)
    requires (forall j :: j in order ==> j in t) && k in t
    ensures Published(t, order + [k]) == Published(t, order) + [Record(0, Encode(t[k].payload))]
  {
    assert forall i :: 0 <= i < |order| ==> (order + [k])[i] == order[i] && order[i] in order;
  }

  lemma ProgressStep(t0: Table, all: set<Key>, left: set<Key>, order: seq<Key>, k: Key)
    requires Progress(t0, all, left, order) && k in left && forall j :: j in left && j != k ==> Precedes(t0, k, j)
    ensures Progress(t0, all, left - {k}, order + [k])
  {
    assert forall i :: 0 <= i < |order| ==> (order + [k])[i] == order[i];
    assert forall i :: 0 <= i < |order| ==> order[i] in order;
  }

  /** The state of a drain that started from t0 and delivered `order`. */
  ghost predicate Draining(t0: Table, t: Table, target: string, order: seq<Key>) {
    Progress(t0, PendingKeys(t0, target), PendingKeys(t, target), order) && Untouched(t0, t, order)
  }

  lemma DrainingStep(t0: Table, t: Table, target: string, order: seq<Key>, k: Key, r: Row)
    requires Draining(t0, t, target, order) && k in PendingKeys(t, target) && r.deliveredAt.Some?
    requires forall j :: j in PendingKeys(t, target) ==> Before(t, k, j)
    ensures Draining(t0, t[k := r], target, order + [k]) && t[k] == t0[k]
    ensures |PendingKeys(t[k := r], target)| < |PendingKeys(t, target)|
  {
    var left := PendingKeys(t, target);
    forall j | j in left && j != k ensures Precedes(t0, k, j) {
      assert Before(t, k, j) && t[j] == t0[j] && t[k] == t0[k];
    }
    ProgressStep(t0, PendingKeys(t0, target), left, order, k);
    assert PendingKeys(t[k := r], target) == left - {k};
  }

  lemma StillRipe(t0: Table, t: Table, target: string, order: seq<Key>, now: Time)
    requires Draining(t0, t, target, order) && Ripe(t0, target, now)
    ensures Ripe(t, target, now)
  {
  }

  /**
    One worker, nobody else, every call succeeding, the clock past every `available_at`: each round delivers one row,
    in (available_at, message_id) order, until a claim finds nothing.
   */
  method Drain(store: Outbox, log: seq<Record>, target: string, token: nat -> Token, clock: nat -> Time)
    returns (log': seq<Record>, order: seq<Key>)
    requires forall i: nat :: Ripe(store.rows, target, clock(i))
    modifies store
    ensures (set k | k in order) == PendingKeys(old(store.rows), target)
    ensures |order| == |PendingKeys(old(store.rows), target)| && SortedBy(old(store.rows), order)
    ensures (forall k :: k in order ==> k in old(store.rows)) && log' == log + Published(old(store.rows), order)
    ensures PendingKeys(store.rows, target) == {} && Untouched(old(store.rows), store.rows, order)
  {
    log', order := log, [];
    ghost var t0 := store.rows;
    while true
      invariant Draining(t0, store.rows, target, order)
      invariant log' == log + Published(t0, order)
      decreases |PendingKeys(store.rows, target)|
    {
      ghost var t := store.rows;
      StillRipe(t0, t, target, order, clock(|order|));
      var d;
      d, log' := Deliver(store, log', target, token(|order|), clock(|order|));
      if d.None? {
        break;
      }
      var k := d.value.RowKey();
      DrainingStep(t0, t, target, order, k, store.rows[k]);
      PublishedSnoc(t0, order, k);
      order := order + [k];
    }
    assert (set k | k in order) == PendingKeys(t0, target);
  }
}
