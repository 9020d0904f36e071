/**
  Many workers on many replicas deliver the outbox (internal/outbox/worker.go, internal/storage/outbox.go).

  A worker sends a statement and waits. The statement takes effect at a moment of the database's choosing: before the
  reply, after the worker gave up or crashed, or never. Publishing is the same towards a broker, and a broker may store
  an event it never confirms.
 */
module OutboxProtocol {
  import opened Base
  import opened Messaging
  import opened OutboxTable
  import opened MessageStore
  import opened Retry

  const LEASE_MS: int := 45_000
  const CLAIM_TIMEOUT: Time := 3_000_000
  const PUBLISH_TIMEOUT: Time := 10_000_000
  const FINISH_TIMEOUT: Time := 3_000_000
  const LEASE: Time := LEASE_MS * MS

  datatype Phase =
    | Idle
    | Claiming(target: string, token: Token, since: Time)
    | Publishing(d: Delivery, since: Time, leasedAt: Time)
    | Finishing(d: Delivery, since: Time, leasedAt: Time)

  datatype Statement =
    | ClaimS(target: string, token: Token)
    | PublishS(d: Delivery)
    | CompleteS(d: Delivery)
    | RetryS(d: Delivery, delayMs: int)

  /** The reply to a claim. */
  datatype Reply = Nothing | Leased(d: Delivery, at: Time)

  /** The history of statements that changed a row. */
  datatype Mark =
    | ClaimMark(key: Key, token: Token, at: Time)
    | RetryMark(key: Key, token: Token, at: Time)
    | CompleteMark(key: Key, token: Token, at: Time)

  datatype Sys = Sys(
    now: Time,
    db: Db,
    logs: Logs,
    workers: map<nat, Phase>,
    sent: set<Statement>,           // statements that may still take effect
    replies: map<Token, Reply>,     // claims that took effect
    confirmed: set<Token>,          // deliveries whose event the broker holds and may confirm
    issued: set<Token>,             // tokens ever generated
    ended: set<Token>,              // deliveries for which Complete or Retry was sent
    hist: seq<Mark>)

  function PhaseOf(s: Sys, w: nat): Phase { if w in s.workers then s.workers[w] else Idle }

  type Logs = map<string, seq<Record>>

  function Log(logs: Logs, target: string): seq<Record> { if target in logs then logs[target] else [] }

  predicate InLog(logs: Logs, target: string, e: Event) {
    exists i :: 0 <= i < |Log(logs, target)| && Log(logs, target)[i].payload == Encode(e)
  }

  function Append(logs: Logs, target: string, r: Record): Logs { logs[target := Log(logs, target) + [r]] }

  /** The least delay of a retry after this many attempts: half of min(30 s, 2^(attempts-1) s). */
  function FloorMs(attempts: int): (ms: int)
    ensures 500 <= ms <= 15_000
  {
    Min(15_000, 500 * Pow2(Max(attempts, 1) - 1))
  }

  lemma {:induction false} PowersGrow(m: nat, n: nat)
    requires m <= n
    ensures Pow2(m) <= Pow2(n)
  {
    if m < n {
      PowersGrow(m, n - 1);
    }
  }

  /** The larger of the row's and the worker's own count of attempts decides the delay. */
  function RetryDelayMs(d: Delivery, attempt: nat, draw: nat): (ms: int)
    ensures 500 <= ms < 30_000
    ensures var cap := Min(30_000, 1000 * Pow2(Max(d.attempts, attempt + 1) - 1)); cap / 2 <= ms < cap
    ensures FloorMs(d.attempts) <= ms
  {
    PowersGrow(Max(d.attempts, 1) - 1, Max(d.attempts, attempt + 1) - 1);
    Milliseconds(BackoffValue(Max(d.attempts, attempt + 1), draw))
  }

  datatype Action =
    | Create(text: string, idemKey: string, targets: seq<string>, fate: Fate)
    | Tick(dt: nat)
    | SendClaim(w: nat, target: string, token: Token)
    | ExecClaim(target: string, token: Token, row: Option<Key>)
    | RecvClaim(w: nat)
    | ExecPublish(d: Delivery, part: nat, append: bool)
    | RecvPublish(w: nat, ok: bool, attempt: nat, draw: nat)
    | ExecComplete(d: Delivery)
    | ExecRetry(d: Delivery, delayMs: int)
    | GiveUp(w: nat)

  predicate Enabled(s: Sys, a: Action) {
    match a
    case Create(text, idemKey, targets, fate) => fate.id !in s.db.messages && fate.now == s.now
    case Tick(dt) => true
    case SendClaim(w, target, token) => PhaseOf(s, w).Idle? && token !in s.issued
    case ExecClaim(target, token, row) =>
      && ClaimS(target, token) in s.sent
      && (row.Some? ==> Eligible(s.db.rows, target, s.now, row.value))
    case RecvClaim(w) => PhaseOf(s, w).Claiming? && PhaseOf(s, w).token in s.replies
    case ExecPublish(d, part, append) => PublishS(d) in s.sent && (append || InLog(s.logs, d.target, d.event))
    case RecvPublish(w, ok, attempt, draw) =>
      PhaseOf(s, w).Publishing? && (ok ==> PhaseOf(s, w).d.token in s.confirmed)
    case ExecComplete(d) => CompleteS(d) in s.sent
    case ExecRetry(d, delayMs) => RetryS(d, delayMs) in s.sent
    case GiveUp(w) => true
  }

  function Apply(s: Sys, a: Action, hash: string -> string): Sys
    requires Enabled(s, a)
  {
    match a
    case Create(text, idemKey, targets, fate) => s.(db := AfterCreate(s.db, targets, text, idemKey, hash, fate))
    case Tick(dt) => s.(now := s.now + dt)
    case SendClaim(w, target, token) =>
      s.(workers := s.workers[w := Claiming(target, token, s.now)], sent := s.sent + {ClaimS(target, token)},
         issued := s.issued + {token})
    case ExecClaim(target, token, row) =>
      var s1 := s.(sent := s.sent - {ClaimS(target, token)});
      if row.None? then s1.(replies := s.replies[token := Nothing])
      else
        var k := row.value;
        s1.(db := s.db.(rows := s.db.rows[k := ClaimRow(s.db.rows[k], token, s.now, LEASE_MS)]),
            replies := s.replies[token := Leased(DeliveryOf(s.db.rows, k, token), s.now)],
            hist := s.hist + [ClaimMark(k, token, s.now)])
    case RecvClaim(w) =>
      (match s.replies[PhaseOf(s, w).token]
       case Nothing => s.(workers := s.workers[w := Idle])
       case Leased(d, at) =>
         s.(workers := s.workers[w := Publishing(d, s.now, at)], sent := s.sent + {PublishS(d)}))
    case ExecPublish(d, part, append) =>
      s.(logs := if append then Append(s.logs, d.target, Record(part, Encode(d.event))) else s.logs,
         confirmed := s.confirmed + {d.token})
    case RecvPublish(w, ok, attempt, draw) =>
      var p := PhaseOf(s, w);
      s.(workers := s.workers[w := Finishing(p.d, s.now, p.leasedAt)],
         sent := s.sent + {if ok then CompleteS(p.d) else RetryS(p.d, RetryDelayMs(p.d, attempt, draw))},
         ended := s.ended + {p.d.token})
    case ExecComplete(d) =>
      s.(db := s.db.(rows := Completed(s.db.rows, d, s.now)), sent := s.sent - {CompleteS(d)},
         hist := if Holds(s.db.rows, d) then s.hist + [CompleteMark(d.RowKey(), d.token, s.now)] else s.hist)
    case ExecRetry(d, delayMs) =>
      s.(db := s.db.(rows := Retried(s.db.rows, d, s.now, delayMs)), sent := s.sent - {RetryS(d, delayMs)},
         hist := if Holds(s.db.rows, d) then s.hist + [RetryMark(d.RowKey(), d.token, s.now)] else s.hist)
    case GiveUp(w) => s.(workers := s.workers[w := Idle])
  }

  function Empty(at: Time): Sys {
    Sys(at, Db(map[], map[]), map[], map[], {}, map[], {}, {}, {}, [])
  }

  /** The system after a run; None when a step was not possible. */
  function Exec(at: Time, run: seq<Action>, hash: string -> string): Option<Sys> {
    if run == [] then Some(Empty(at))
    else
      var s := Exec(at, Init(run), hash);
      if s.Some? && Enabled(s.value, Last(run)) then Some(Apply(s.value, Last(run), hash)) else None
  }
}
