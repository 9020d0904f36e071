/** What holds in every run of the outbox protocol. */
module OutboxTheorems {
  import opened Base
  import opened Messaging
  import opened OutboxTable
  import opened MessageStore
  import opened OutboxProtocol
  import opened OutboxInvariants
  import opened Retry

  ghost predicate Inv(s: Sys) {
    && DataInv(s.db, s.logs) && ReplyInv(s) && SentInv(s) && WorkerInv(s) && ConfirmInv(s)
    && HistInv(s) && FenceInv(s.hist, s.db.rows) && TimeInv(s) && EndInv(s) && LeaseInv(s)
    && SpaceInv(s.hist, s.db.rows) && RestInv(s.hist, s.db.rows, s.now)
    && AttemptInv(s.hist, s.db.rows, s.replies)
  }

  lemma InvStep(s: Sys, a: Action, hash: string -> string)
    requires Inv(s) && Enabled(s, a)
    ensures Inv(Apply(s, a, hash))
  {
    DataStep(s, a, hash);
    ReplyStep(s, a, hash);
    SentStep(s, a, hash);
    WorkerStep(s, a, hash);
    ConfirmStep(s, a, hash);
    HistStep(s, a, hash);
    FenceStep(s, a, hash);
    TimeStep(s, a, hash);
    EndStep(s, a, hash);
    LeaseStep(s, a, hash);
    SpaceStep(s, a, hash);
    RestStep(s, a, hash);
    AttemptStep(s, a, hash);
  }

  /** Every state of every run keeps the invariants. */
  lemma {:induction false} EveryRun(at: Time, run: seq<Action>, hash: string -> string)
    requires Exec(at, run, hash).Some?
    ensures Inv(Exec(at, run, hash).value)
  {
    if run != [] {
      EveryRun(at, Init(run), hash);
      InvStep(Exec(at, Init(run), hash).value, Last(run), hash);
    }
  }

  /**
    No loss and no phantom: a row is undelivered or its exact event is in its broker's log, and everything in a log is
    the creation event of a committed message that has a job for that broker.
   */
  lemma NoLossNoPhantom(at: Time, run: seq<Action>, hash: string -> string)
    requires Exec(at, run, hash).Some?
    ensures var s := Exec(at, run, hash).value;
            && (forall k :: k in s.db.rows ==>
                  && k.id in s.db.messages && s.db.rows[k].payload == CreatedEvent(s.db.messages[k.id].msg)
                  && (s.db.rows[k].deliveredAt.None? || InLog(s.logs, k.target, s.db.rows[k].payload)))
            && (forall t, i :: 0 <= i < |Log(s.logs, t)| ==> Backed(s.db, t, Log(s.logs, t)[i].payload))
  {
    EveryRun(at, run, hash);
  }

  /** A delivered row stays exactly as it is for the rest of the run. */
  lemma {:induction false} DeliveredForever(at: Time, run: seq<Action>, more: seq<Action>, hash: string -> string,
                                            k: Key)
    requires Exec(at, run + more, hash).Some?
    requires Exec(at, run, hash).Some? && k in Exec(at, run, hash).value.db.rows
    requires Exec(at, run, hash).value.db.rows[k].deliveredAt.Some?
    ensures var s' := Exec(at, run + more, hash).value;
            k in s'.db.rows && s'.db.rows[k] == Exec(at, run, hash).value.db.rows[k]
  {
    if more == [] {
      assert run + more == run;
    } else {
      assert Init(run + more) == run + Init(more);
      DeliveredForever(at, run, Init(more), hash, k);
      EveryRun(at, run + Init(more), hash);
      RowsPersist(Exec(at, run + Init(more), hash).value, Last(more), hash);
    }
  }

  /**
    Fencing: `attempts` is the number of claims that took effect, the token is empty or the latest claim's, and a
    Complete or Retry under any other token changes nothing and reports the lease lost.
   */
  lemma Fencing(at: Time, run: seq<Action>, hash: string -> string, d: Delivery)
    requires Exec(at, run, hash).Some?
    ensures var s := Exec(at, run, hash).value;
            && (forall k :: k in s.db.rows ==>
                  && s.db.rows[k].attempts == Claims(s.hist, k)
                  && (s.db.rows[k].token == None || s.db.rows[k].token == LatestToken(s.hist, k)))
            && (LatestToken(s.hist, d.RowKey()) != Some(d.token) ==>
                  && !Holds(s.db.rows, d)
                  && Completed(s.db.rows, d, s.now) == s.db.rows
                  && forall delayMs :: Retried(s.db.rows, d, s.now, delayMs) == s.db.rows)
  {
    EveryRun(at, run, hash);
  }

  /** Two claims of one row with no effective retry between them are at least 45 seconds apart. */
  lemma LeasesDoNotOverlap(at: Time, run: seq<Action>, hash: string -> string, i: nat, j: nat)
    requires Exec(at, run, hash).Some?
    requires var h := Exec(at, run, hash).value.hist;
             && i < j < |h| && h[i].ClaimMark? && h[j].ClaimMark? && h[i].key == h[j].key
             && forall m :: i < m < j && h[m].RetryMark? ==> h[m].key != h[i].key
    ensures var h := Exec(at, run, hash).value.hist; h[i].at + 45_000_000 <= h[j].at
  {
    EveryRun(at, run, hash);
    var h := Exec(at, run, hash).value.hist;
    assert Unretried(h[..j], i);
  }

  lemma EveryRunRests(at: Time, run: seq<Action>, hash: string -> string)
    requires Exec(at, run, hash).Some?
    ensures Rested(Exec(at, run, hash).value.hist)
  {
    EveryRun(at, run, hash);
  }

  lemma RestInNumbers(h: seq<Mark>, i: nat, j: nat)
    requires Rested(h) && i < j < |h| && h[i].RetryMark? && h[j].ClaimMark? && h[i].key == h[j].key
    ensures h[i].at + 500_000 <= h[j].at
    ensures h[i].at + Min(15_000_000, 500_000 * Pow2(Max(Claims(h[..i], h[i].key), 1) - 1)) <= h[j].at
  {
    var p := Pow2(Max(Claims(h[..i], h[i].key), 1) - 1);
    assert RestUntil(h, i) <= h[j].at && Min(15_000, 500 * p) * MS == Min(15_000_000, 500_000 * p);
  }

  /**
    Retries back off: a row given back after its n-th claim is not claimed again for at least half of
    min(30 s, 2^(n-1) s), which is never less than half a second.
   */
  lemma RetriesAreSpaced(at: Time, run: seq<Action>, hash: string -> string, i: nat, j: nat)
    requires Exec(at, run, hash).Some?
    requires var h := Exec(at, run, hash).value.hist;
             i < j < |h| && h[i].RetryMark? && h[j].ClaimMark? && h[i].key == h[j].key
    ensures var h := Exec(at, run, hash).value.hist;
            && h[i].at + 500_000 <= h[j].at
            && h[i].at + Min(15_000_000, 500_000 * Pow2(Max(Claims(h[..i], h[i].key), 1) - 1)) <= h[j].at
  {
    EveryRunRests(at, run, hash);
    RestInNumbers(Exec(at, run, hash).value.hist, i, j);
  }

  /** The attempt number a claim hands to its worker is the number of claims of the row up to and with this one. */
  lemma AttemptsCountClaims(at: Time, run: seq<Action>, hash: string -> string, tok: Token) returns (i: nat)
    requires Exec(at, run, hash).Some? && tok in Exec(at, run, hash).value.replies
    requires Exec(at, run, hash).value.replies[tok].Leased?
    ensures var s := Exec(at, run, hash).value;
            var d := s.replies[tok].d;
            && i < |s.hist| && s.hist[i] == ClaimMark(d.RowKey(), tok, s.replies[tok].at)
            && d.attempts == Claims(s.hist[..i + 1], d.RowKey())
  {
    EveryRun(at, run, hash);
    var s := Exec(at, run, hash).value;
    i :| 0 <= i < |s.hist| && s.hist[i] == ClaimMark(s.replies[tok].d.RowKey(), tok, s.replies[tok].at);
    assert ToldOf(s.hist, s.replies, i);
  }

  /** A message is claimable from the moment it is created, for every target, in every run. */
  lemma NewMessagesAreClaimable(at: Time, run: seq<Action>, hash: string -> string, a: Action, target: string)
    requires Exec(at, run, hash).Some? && a.Create? && Enabled(Exec(at, run, hash).value, a) && target in a.targets
    requires Inserts(Exec(at, run, hash).value.db, a.targets, a.text, a.idemKey, a.fate)
    ensures var s' := Apply(Exec(at, run, hash).value, a, hash);
            && a.fate.id in s'.db.messages && s'.now == Exec(at, run, hash).value.now
            && NewJob(s'.db.rows, s'.db.messages[a.fate.id].msg, target, s'.now)
  {
    EveryRun(at, run, hash);
    NewJobsAreClaimable(Exec(at, run, hash).value.db, a.targets, a.text, a.idemKey, hash, a.fate);
  }

  /** Whatever crashed or was lost, an undelivered row becomes available within 45 seconds. */
  lemma BoundedUnavailability(at: Time, run: seq<Action>, hash: string -> string, k: Key)
    requires Exec(at, run, hash).Some? && k in Exec(at, run, hash).value.db.rows
    requires Exec(at, run, hash).value.db.rows[k].deliveredAt.None?
    ensures var s := Exec(at, run, hash).value; s.db.rows[k].availableAt <= s.now + 45_000_000
  {
    EveryRun(at, run, hash);
  }

  // ----- Workers that meet their deadlines -----

  /** The worker is not past the deadline of the call it waits for. */
  predicate Prompt(s: Sys, w: nat) {
    match PhaseOf(s, w)
    case Idle => true
    case Claiming(_, _, since) => s.now <= since + CLAIM_TIMEOUT
    case Publishing(_, since, _) => s.now <= since + PUBLISH_TIMEOUT
    case Finishing(_, since, _) => s.now <= since + FINISH_TIMEOUT
  }

  /** The worker met its deadlines all along; the others are free to stall. */
  ghost predicate PromptRun(at: Time, run: seq<Action>, hash: string -> string, w: nat)
    requires Exec(at, run, hash).Some?
  {
    Prompt(Exec(at, run, hash).value, w) && (run != [] ==> PromptRun(at, Init(run), hash, w))
  }

  /** The worker's phase started within the sum of the deadlines before it. */
  ghost predicate Paced(s: Sys, w: nat) {
    match PhaseOf(s, w)
    case Idle => true
    case Claiming(_, tok, since) =>
      since <= s.now && (tok in s.replies && s.replies[tok].Leased? ==> since <= s.replies[tok].at)
    case Publishing(_, since, leasedAt) => since <= leasedAt + 3_000_000
    case Finishing(_, since, leasedAt) => since <= leasedAt + 3_000_000 + 10_000_000
  }

  lemma PaceStep(s: Sys, a: Action, hash: string -> string, w: nat)
    requires ReplyInv(s) && SentInv(s) && WorkerInv(s) && Paced(s, w) && Prompt(s, w) && Enabled(s, a)
    ensures Paced(Apply(s, a, hash), w)
  {
    OthersStay(s, a, hash);
  }

  lemma {:induction false} PromptRunsKeepPace(at: Time, run: seq<Action>, hash: string -> string, w: nat)
    requires Exec(at, run, hash).Some? && PromptRun(at, run, hash, w)
    ensures Paced(Exec(at, run, hash).value, w)
  {
    if run != [] {
      PromptRunsKeepPace(at, Init(run), hash, w);
      EveryRun(at, Init(run), hash);
      PaceStep(Exec(at, Init(run), hash).value, Last(run), hash, w);
    }
  }

  /**
    When a worker meets its deadlines (3 s + 10 s + 3 s against a 45 s lease), whatever the others do, its finishing
    statement finds its own lease in place: no newer claim, no lost lease.
   */
  lemma LiveWorkersKeepTheirLease(at: Time, run: seq<Action>, hash: string -> string, w: nat, a: Action)
    requires Exec(at, run, hash).Some? && PromptRun(at, run, hash, w)
    requires PhaseOf(Exec(at, run, hash).value, w).Finishing?
    requires a.ExecComplete? || a.ExecRetry?
    requires Enabled(Exec(at, run, hash).value, a) && a.d == PhaseOf(Exec(at, run, hash).value, w).d
    ensures var s := Exec(at, run, hash).value;
            && Holds(s.db.rows, a.d) && LatestToken(s.hist, a.d.RowKey()) == Some(a.d.token)
            && s.now + 29_000_000 <= s.db.rows[a.d.RowKey()].availableAt
  {
    EveryRun(at, run, hash);
    PromptRunsKeepPace(at, run, hash, w);
    var s := Exec(at, run, hash).value;
    assert !Done(s.hist, a.d.token);
    assert LeaseStands(s.db.rows, a.d, s.replies[a.d.token].at);
  }
}
