/** What every step of the outbox protocol keeps. */
module OutboxInvariants {
  import opened Base
  import opened Messaging
  import opened OutboxTable
  import opened MessageStore
  import opened OutboxProtocol

  // ----- Rows, messages and logs -----

  /** Rows carry the event of their message, delivered rows are in the log, and the log holds nothing else. */
  ghost predicate DataInv(db: Db, logs: Logs) {
    && (forall i :: i in db.messages ==> db.messages[i].msg.id == i)
    && (forall k :: k in db.rows ==> k.id in db.messages && db.rows[k].payload == CreatedEvent(db.messages[k.id].msg))
    && (forall k :: k in db.rows && db.rows[k].deliveredAt.Some? ==> InLog(logs, k.target, db.rows[k].payload))
    && (forall t, i :: 0 <= i < |Log(logs, t)| ==> Backed(db, t, Log(logs, t)[i].payload))
  }

  /** The payload is the event of a committed message that has a job for this target. */
  predicate Backed(db: Db, target: string, p: Payload) {
    p.Json? && Key(p.event.id, target) in db.rows && db.rows[Key(p.event.id, target)].payload == p.event
  }

  lemma InLogAppended(logs: Logs, target: string, r: Record, t: string, e: Event)
    ensures InLog(logs, t, e) ==> InLog(Append(logs, target, r), t, e)
    ensures r.payload == Encode(e) ==> InLog(Append(logs, target, r), target, e)
  {
    var logs' := Append(logs, target, r);
    if InLog(logs, t, e) {
      var i :| 0 <= i < |Log(logs, t)| && Log(logs, t)[i].payload == Encode(e);
      assert Log(logs', t)[i].payload == Encode(e);
    }
    assert Log(logs', target)[|Log(logs, target)|] == r;
  }

  lemma DataAppend(db: Db, logs: Logs, target: string, r: Record)
    requires DataInv(db, logs) && Backed(db, target, r.payload)
    ensures DataInv(db, Append(logs, target, r))
  {
    var logs' := Append(logs, target, r);
    assert forall t :: Log(logs', t) == if t == target then Log(logs, t) + [r] else Log(logs, t);
    forall k | k in db.rows && db.rows[k].deliveredAt.Some?
      ensures InLog(Append(logs, target, r), k.target, db.rows[k].payload)
    {
      InLogAppended(logs, target, r, k.target, db.rows[k].payload);
    }
  }

  /** Claims, completions and retries leave the payload alone and deliver only what the log holds. */
  lemma DataUpdate(db: Db, logs: Logs, k: Key, r: Row)
    requires DataInv(db, logs) && k in db.rows && r.payload == db.rows[k].payload
    requires r.deliveredAt.Some? ==> InLog(logs, k.target, r.payload)
    ensures DataInv(db.(rows := db.rows[k := r]), logs)
  {
  }

  lemma DataCreate(db: Db, logs: Logs, targets: seq<string>, text: string, idemKey: string,
                   hash: string -> string, f: Fate)
    requires DataInv(db, logs) && f.id !in db.messages
    ensures DataInv(AfterCreate(db, targets, text, idemKey, hash, f), logs)
  {
    var db' := AfterCreate(db, targets, text, idemKey, hash, f);
    assert forall k :: k in db.rows ==> k in db'.rows && db'.rows[k] == db.rows[k];
  }

  // ----- Deliveries in circulation -----

  predicate Granted(replies: map<Token, Reply>, d: Delivery) {
    d.token in replies && replies[d.token].Leased? && replies[d.token].d == d
  }

  /** Replies describe claims that took effect; their events are the payloads of existing rows. */
  ghost predicate ReplyInv(s: Sys) {
    forall tok :: tok in s.replies && s.replies[tok].Leased? ==>
      var d := s.replies[tok].d;
      && d.token == tok && s.replies[tok].at <= s.now
      && d.RowKey() in s.db.rows && s.db.rows[d.RowKey()].payload == d.event
  }

  /** Statements under way carry granted deliveries, or a token no claim has used yet. */
  ghost predicate SentInv(s: Sys) {
    && (forall st :: st in s.sent && !st.ClaimS? ==> Granted(s.replies, st.d))
    && (forall target, tok :: ClaimS(target, tok) in s.sent ==> tok in s.issued && tok !in s.replies)
    && (forall t1, t2, tok :: ClaimS(t1, tok) in s.sent && ClaimS(t2, tok) in s.sent ==> t1 == t2)
    && (forall tok :: tok in s.replies ==> tok in s.issued)
  }

  /** Workers hold granted deliveries. */
  ghost predicate WorkerInv(s: Sys) {
    && (forall w :: PhaseOf(s, w).Publishing? || PhaseOf(s, w).Finishing? ==>
          Granted(s.replies, PhaseOf(s, w).d) && s.replies[PhaseOf(s, w).d.token].at == PhaseOf(s, w).leasedAt)
    && (forall w :: PhaseOf(s, w).Claiming? ==> PhaseOf(s, w).token in s.issued)
  }

  /** What a broker confirmed, and what is about to be completed, is in the log. */
  ghost predicate ConfirmInv(s: Sys) {
    && (forall tok :: tok in s.confirmed ==>
          tok in s.replies && s.replies[tok].Leased? && InLog(s.logs, s.replies[tok].d.target, s.replies[tok].d.event))
    && (forall d :: CompleteS(d) in s.sent ==> InLog(s.logs, d.target, d.event))
  }

  lemma DataClaim(s: Sys, target: string, token: Token, row: Option<Key>, hash: string -> string)
    requires DataInv(s.db, s.logs) && Enabled(s, ExecClaim(target, token, row))
    ensures var s' := Apply(s, ExecClaim(target, token, row), hash); DataInv(s'.db, s'.logs)
  {
    if row.Some? {
      DataUpdate(s.db, s.logs, row.value, ClaimRow(s.db.rows[row.value], token, s.now, LEASE_MS));
    }
  }

  lemma DataPublish(s: Sys, d: Delivery, part: nat, append: bool, hash: string -> string)
    requires DataInv(s.db, s.logs) && ReplyInv(s) && Granted(s.replies, d) && Enabled(s, ExecPublish(d, part, append))
    ensures var s' := Apply(s, ExecPublish(d, part, append), hash); DataInv(s'.db, s'.logs)
  {
    if append {
      DataAppend(s.db, s.logs, d.target, Record(part, Encode(d.event)));
    }
  }

  lemma DataComplete(s: Sys, d: Delivery, hash: string -> string)
    requires DataInv(s.db, s.logs) && ReplyInv(s) && Granted(s.replies, d) && InLog(s.logs, d.target, d.event)
    requires Enabled(s, ExecComplete(d))
    ensures var s' := Apply(s, ExecComplete(d), hash); DataInv(s'.db, s'.logs)
  {
    if Holds(s.db.rows, d) {
      DataUpdate(s.db, s.logs, d.RowKey(), s.db.rows[d.RowKey()].(deliveredAt := Some(s.now), token := None));
    }
  }

  lemma DataRetry(s: Sys, d: Delivery, delayMs: int, hash: string -> string)
    requires DataInv(s.db, s.logs) && Enabled(s, ExecRetry(d, delayMs))
    ensures var s' := Apply(s, ExecRetry(d, delayMs), hash); DataInv(s'.db, s'.logs)
  {
    if Holds(s.db.rows, d) {
      DataUpdate(s.db, s.logs, d.RowKey(), Retried(s.db.rows, d, s.now, delayMs)[d.RowKey()]);
    }
  }

  lemma DataStep(s: Sys, a: Action, hash: string -> string)
    requires DataInv(s.db, s.logs) && ReplyInv(s) && SentInv(s) && ConfirmInv(s) && Enabled(s, a)
    ensures var s' := Apply(s, a, hash); DataInv(s'.db, s'.logs)
  {
    match a
    case Create(text, idemKey, targets, fate) => DataCreate(s.db, s.logs, targets, text, idemKey, hash, fate);
    case ExecClaim(target, token, row) => DataClaim(s, target, token, row, hash);
    case ExecPublish(d, part, append) =>
      assert Granted(s.replies, d);
      DataPublish(s, d, part, append, hash);
    case ExecComplete(d) =>
      assert Granted(s.replies, d);
      DataComplete(s, d, hash);
    case ExecRetry(d, delayMs) => DataRetry(s, d, delayMs, hash);
    case _ =>
  }

  /** A creation adds rows of a new message and touches no other. */
  lemma CreateAdds(db: Db, logs: Logs, targets: seq<string>, text: string, idemKey: string,
                   hash: string -> string, f: Fate)
    requires DataInv(db, logs) && f.id !in db.messages
    ensures var db' := AfterCreate(db, targets, text, idemKey, hash, f);
            && (forall k :: k in db.rows ==> k in db'.rows && db'.rows[k] == db.rows[k])
            && (forall k :: k in db'.rows && k !in db.rows ==> db'.rows[k].attempts == 0 && db'.rows[k].token.None?)
  {
  }

  /** What a step that leaves a mark does: it changes the one row it marks. */
  ghost predicate Marked(s: Sys, a: Action, s': Sys) {
    && s'.hist != [] && s'.now == s.now
    && var m := Last(s'.hist);
    && s'.hist == s.hist + [m] && m.key in s.db.rows && m.at == s.now && s.db.rows[m.key].deliveredAt.None?
    && m.key in s'.db.rows && s'.db.rows == s.db.rows[m.key := s'.db.rows[m.key]]
    && var r, r' := s.db.rows[m.key], s'.db.rows[m.key];
    && r'.payload == r.payload
    && match m
       case ClaimMark(k, tok, at) =>
         && a.ExecClaim? && a.token == tok
         && s'.replies == s.replies[tok := Leased(DeliveryOf(s.db.rows, k, tok), s.now)]
         && r.availableAt <= s.now && r' == ClaimRow(r, tok, s.now, LEASE_MS)
       case CompleteMark(_, tok, _) =>
         && a.ExecComplete? && a.d.token == tok && r.token == Some(tok) && s'.replies == s.replies
         && r' == r.(deliveredAt := Some(s.now), token := None)
       case RetryMark(_, tok, _) =>
         && a.ExecRetry? && a.d.token == tok && a.d.RowKey() == m.key && r.token == Some(tok) && s'.replies == s.replies
         && r' == r.(availableAt := s.now + a.delayMs * MS, token := None)
  }

  /** Every other step: rows may be added, none is changed. */
  ghost predicate Unmarked(s: Sys, s': Sys) {
    && s'.hist == s.hist && s.now <= s'.now
    && (forall k :: k in s.db.rows ==> k in s'.db.rows && s'.db.rows[k] == s.db.rows[k])
    && (forall k :: k in s'.db.rows && k !in s.db.rows ==> s'.db.rows[k].attempts == 0 && s'.db.rows[k].token.None?)
    && (forall tok :: tok in s'.replies && s'.replies[tok].Leased? ==>
          tok in s.replies && s'.replies[tok] == s.replies[tok])
  }

  lemma MarkedClaim(s: Sys, target: string, token: Token, k: Key, hash: string -> string)
    requires Enabled(s, ExecClaim(target, token, Some(k)))
    ensures Marked(s, ExecClaim(target, token, Some(k)), Apply(s, ExecClaim(target, token, Some(k)), hash))
  {
    assert Last(s.hist + [ClaimMark(k, token, s.now)]) == ClaimMark(k, token, s.now);
  }

  lemma MarkedFinish(s: Sys, a: Action, hash: string -> string)
    requires Enabled(s, a) && (a.ExecComplete? || a.ExecRetry?) && Holds(s.db.rows, a.d)
    ensures Marked(s, a, Apply(s, a, hash))
  {
  }

  lemma MarkedOrNot(s: Sys, a: Action, hash: string -> string)
    requires DataInv(s.db, s.logs) && Enabled(s, a)
    ensures var s' := Apply(s, a, hash); if |s'.hist| > |s.hist| then Marked(s, a, s') else Unmarked(s, s')
  {
    match a
    case Create(text, idemKey, targets, fate) => CreateAdds(s.db, s.logs, targets, text, idemKey, hash, fate);
    case ExecClaim(target, token, row) =>
      if row.Some? {
        MarkedClaim(s, target, token, row.value, hash);
      }
    case ExecComplete(d) =>
      if Holds(s.db.rows, d) {
        MarkedFinish(s, a, hash);
      }
    case ExecRetry(d, _) =>
      if Holds(s.db.rows, d) {
        MarkedFinish(s, a, hash);
      }
    case _ =>
  }

  /** Rows are never removed and never change their payload; `delivered_at` once set is never cleared. */
  lemma RowsPersist(s: Sys, a: Action, hash: string -> string)
    requires DataInv(s.db, s.logs) && Enabled(s, a)
    ensures var s' := Apply(s, a, hash);
            forall k :: k in s.db.rows ==>
              && k in s'.db.rows && s'.db.rows[k].payload == s.db.rows[k].payload
              && (s.db.rows[k].deliveredAt.Some? ==> s'.db.rows[k] == s.db.rows[k])
  {
    MarkedOrNot(s, a, hash);
  }

  lemma ReplyStep(s: Sys, a: Action, hash: string -> string)
    requires ReplyInv(s) && DataInv(s.db, s.logs) && Enabled(s, a)
    ensures ReplyInv(Apply(s, a, hash))
  {
    RowsPersist(s, a, hash);
  }

  lemma SentStep(s: Sys, a: Action, hash: string -> string)
    requires SentInv(s) && WorkerInv(s) && ReplyInv(s) && Enabled(s, a)
    ensures SentInv(Apply(s, a, hash))
  {
  }

  /** A step changes the phase of at most the worker it names. */
  function Mover(a: Action): Option<nat> {
    match a
    case SendClaim(w, _, _) => Some(w)
    case RecvClaim(w) => Some(w)
    case RecvPublish(w, _, _, _) => Some(w)
    case GiveUp(w) => Some(w)
    case _ => None
  }

  lemma OthersStay(s: Sys, a: Action, hash: string -> string)
    requires Enabled(s, a)
    ensures forall v: nat :: Mover(a) != Some(v) ==> PhaseOf(Apply(s, a, hash), v) == PhaseOf(s, v)
  {
  }

  lemma WorkerStep(s: Sys, a: Action, hash: string -> string)
    requires WorkerInv(s) && SentInv(s) && ReplyInv(s) && Enabled(s, a)
    ensures WorkerInv(Apply(s, a, hash))
  {
    OthersStay(s, a, hash);
    var s' := Apply(s, a, hash);
    assert forall tok :: tok in s.replies ==> tok in s'.replies && s'.replies[tok] == s.replies[tok];
  }

  lemma ConfirmStep(s: Sys, a: Action, hash: string -> string)
    requires ConfirmInv(s) && SentInv(s) && WorkerInv(s) && Enabled(s, a)
    ensures ConfirmInv(Apply(s, a, hash))
  {
    var s' := Apply(s, a, hash);
    if a.ExecPublish? && a.append {
      var r := Record(a.part, Encode(a.d.event));
      forall tok | tok in s.confirmed ensures InLog(s'.logs, s.replies[tok].d.target, s.replies[tok].d.event) {
        InLogAppended(s.logs, a.d.target, r, s.replies[tok].d.target, s.replies[tok].d.event);
      }
      forall d | CompleteS(d) in s.sent ensures InLog(s'.logs, d.target, d.event) {
        InLogAppended(s.logs, a.d.target, r, d.target, d.event);
      }
      InLogAppended(s.logs, a.d.target, r, a.d.target, a.d.event);
    }
  }

  // ----- The history of claims -----

  /** How many claims took effect on the row. */
  function Claims(h: seq<Mark>, k: Key): nat {
    if h == [] then 0 else Claims(Init(h), k) + if Last(h).ClaimMark? && Last(h).key == k then 1 else 0
  }

  /** The token of the latest claim of the row. */
  function LatestToken(h: seq<Mark>, k: Key): Option<Token> {
    if h == [] then None
    else if Last(h).ClaimMark? && Last(h).key == k then Some(Last(h).token)
    else LatestToken(Init(h), k)
  }

  lemma ClaimsSnoc(h: seq<Mark>, m: Mark, k: Key)
    ensures Claims(h + [m], k) == Claims(h, k) + if m.ClaimMark? && m.key == k then 1 else 0
    ensures LatestToken(h + [m], k) == if m.ClaimMark? && m.key == k then Some(m.token) else LatestToken(h, k)
  {
    InitLast(h, m);
  }

  lemma {:induction false} NoMarksNoClaims(h: seq<Mark>, k: Key)
    requires forall m :: m in h ==> m.key != k
    ensures Claims(h, k) == 0 && LatestToken(h, k) == None
  {
    if h != [] {
      assert Last(h) in h;
      NoMarksNoClaims(Init(h), k);
    }
  }

  ghost predicate HistInv(s: Sys) {
    forall m :: m in s.hist ==>
      && m.key in s.db.rows && m.at <= s.now
      && (m.ClaimMark? ==> m.token in s.replies && s.replies[m.token].Leased? && s.replies[m.token].at == m.at
                           && s.replies[m.token].d.RowKey() == m.key)
  }

  /** `attempts` counts the claims; the token is empty or the latest claim's. */
  ghost predicate FenceInv(h: seq<Mark>, t: Table) {
    forall k :: k in t ==>
      && t[k].attempts == Claims(h, k)
      && (t[k].token.Some? ==> t[k].token == LatestToken(h, k))
  }

  lemma HistStep(s: Sys, a: Action, hash: string -> string)
    requires HistInv(s) && DataInv(s.db, s.logs) && SentInv(s) && Enabled(s, a)
    ensures HistInv(Apply(s, a, hash))
  {
    RowsPersist(s, a, hash);
  }

  lemma FenceSnoc(h: seq<Mark>, t: Table, m: Mark, r: Row)
    requires FenceInv(h, t) && m.key in t
    requires if m.ClaimMark? then r.token == Some(m.token) && r.attempts == t[m.key].attempts + 1
             else r.token == None && r.attempts == t[m.key].attempts
    ensures FenceInv(h + [m], t[m.key := r])
  {
    forall k | k in t
      ensures Claims(h + [m], k) == Claims(h, k) + if m.ClaimMark? && m.key == k then 1 else 0
      ensures LatestToken(h + [m], k) == if m.ClaimMark? && m.key == k then Some(m.token) else LatestToken(h, k)
    {
      ClaimsSnoc(h, m, k);
    }
  }

  lemma FenceUnmarked(s: Sys, s': Sys)
    requires FenceInv(s.hist, s.db.rows) && HistInv(s) && Unmarked(s, s')
    ensures FenceInv(s'.hist, s'.db.rows)
  {
    forall k | k in s'.db.rows && k !in s.db.rows ensures Claims(s.hist, k) == 0 {
      NoMarksNoClaims(s.hist, k);
    }
  }

  lemma FenceStep(s: Sys, a: Action, hash: string -> string)
    requires FenceInv(s.hist, s.db.rows) && HistInv(s) && DataInv(s.db, s.logs) && Enabled(s, a)
    ensures var s' := Apply(s, a, hash); FenceInv(s'.hist, s'.db.rows)
  {
    var s' := Apply(s, a, hash);
    MarkedOrNot(s, a, hash);
    if |s'.hist| > |s.hist| {
      FenceSnoc(s.hist, s.db.rows, Last(s'.hist), s'.db.rows[Last(s'.hist).key]);
    } else {
      FenceUnmarked(s, s');
    }
  }

  /** What a claim told its worker: the number of claims so far; the row agrees while it carries the token. */
  ghost predicate AttemptInv(h: seq<Mark>, t: Table, replies: map<Token, Reply>) {
    && (forall tok :: tok in replies && replies[tok].Leased? ==> AttemptsAgree(t, replies[tok].d))
    && (forall i :: 0 <= i < |h| && h[i].ClaimMark? ==> ToldOf(h, replies, i))
    && (forall tok :: tok in replies && replies[tok].Leased? ==>
          ClaimMark(replies[tok].d.RowKey(), tok, replies[tok].at) in h)
  }

  predicate AttemptsAgree(t: Table, d: Delivery) {
    d.RowKey() in t && t[d.RowKey()].token == Some(d.token) ==> t[d.RowKey()].attempts == d.attempts
  }

  predicate ToldOf(h: seq<Mark>, replies: map<Token, Reply>, i: nat)
    requires i < |h| && h[i].ClaimMark?
  {
    && h[i].token in replies && replies[h[i].token].Leased?
    && replies[h[i].token].d.attempts == Claims(h[..i + 1], h[i].key)
  }

  lemma AttemptMarked(s: Sys, a: Action, s': Sys)
    requires AttemptInv(s.hist, s.db.rows, s.replies) && FenceInv(s.hist, s.db.rows) && ReplyInv(s) && Marked(s, a, s')
    requires a.ExecClaim? ==> a.token !in s.replies
    ensures AttemptInv(s'.hist, s'.db.rows, s'.replies)
  {
    var m := Last(s'.hist);
    ClaimsSnoc(s.hist, m, m.key);
    forall i | 0 <= i < |s'.hist| && s'.hist[i].ClaimMark? ensures ToldOf(s'.hist, s'.replies, i) {
      if i < |s.hist| {
        assert ToldOf(s.hist, s.replies, i) && s'.hist[..i + 1] == s.hist[..i + 1];
      } else {
        assert s'.hist[..i + 1] == s.hist + [m];
      }
    }
    forall tok | tok in s'.replies && s'.replies[tok].Leased? ensures AttemptsAgree(s'.db.rows, s'.replies[tok].d) {
      assert tok in s.replies ==> AttemptsAgree(s.db.rows, s.replies[tok].d);
    }
  }

  lemma AttemptStep(s: Sys, a: Action, hash: string -> string)
    requires AttemptInv(s.hist, s.db.rows, s.replies) && FenceInv(s.hist, s.db.rows)
    requires ReplyInv(s) && SentInv(s) && DataInv(s.db, s.logs) && Enabled(s, a)
    ensures var s' := Apply(s, a, hash); AttemptInv(s'.hist, s'.db.rows, s'.replies)
  {
    var s' := Apply(s, a, hash);
    MarkedOrNot(s, a, hash);
    if |s'.hist| > |s.hist| {
      AttemptMarked(s, a, s');
    } else {
      AttemptUnmarked(s, s');
    }
  }

  lemma AttemptUnmarked(s: Sys, s': Sys)
    requires AttemptInv(s.hist, s.db.rows, s.replies) && ReplyInv(s) && Unmarked(s, s')
    requires forall tok :: tok in s.replies ==> tok in s'.replies && s'.replies[tok] == s.replies[tok]
    ensures AttemptInv(s'.hist, s'.db.rows, s'.replies)
  {
    forall i | 0 <= i < |s'.hist| && s'.hist[i].ClaimMark? ensures ToldOf(s'.hist, s'.replies, i) {
      assert ToldOf(s.hist, s.replies, i);
    }
    forall tok | tok in s'.replies && s'.replies[tok].Leased? ensures AttemptsAgree(s'.db.rows, s'.replies[tok].d) {
      assert AttemptsAgree(s.db.rows, s.replies[tok].d);
    }
  }

  // ----- Time -----

  /** An undelivered row becomes available within one lease; retries wait from half a second to thirty seconds. */
  ghost predicate TimeInv(s: Sys) {
    && (forall k :: k in s.db.rows && s.db.rows[k].deliveredAt.None? ==> s.db.rows[k].availableAt <= s.now + LEASE)
    && (forall d, delayMs :: RetryS(d, delayMs) in s.sent ==> FloorMs(d.attempts) <= delayMs < 30_000)
  }

  lemma TimeStep(s: Sys, a: Action, hash: string -> string)
    requires TimeInv(s) && Enabled(s, a)
    ensures TimeInv(Apply(s, a, hash))
  {
  }

  // ----- Leases -----

  predicate Done(h: seq<Mark>, tok: Token) { exists m :: m in h && !m.ClaimMark? && m.token == tok }

  predicate Finishes(st: Statement) { st.CompleteS? || st.RetryS? }

  /** The token a busy worker works under. */
  function TokenOf(p: Phase): Token
    requires !p.Idle?
  {
    if p.Claiming? then p.token else p.d.token
  }

  /** Each delivery is finished by at most one statement, sent by its own worker. */
  ghost predicate EndInv(s: Sys) {
    && (forall v, w :: v != w && !PhaseOf(s, v).Idle? && !PhaseOf(s, w).Idle? ==>
          TokenOf(PhaseOf(s, v)) != TokenOf(PhaseOf(s, w)))
    && (forall w :: PhaseOf(s, w).Claiming? || PhaseOf(s, w).Publishing? ==> TokenOf(PhaseOf(s, w)) !in s.ended)
    && (forall st :: st in s.sent && Finishes(st) ==> st.d.token in s.ended && !Done(s.hist, st.d.token))
    && (forall st, st' ::
          st in s.sent && st' in s.sent && Finishes(st) && Finishes(st') && st.d.token == st'.d.token ==> st == st')
    && s.ended <= s.issued
    && (forall m :: m in s.hist && !m.ClaimMark? ==> m.token in s.ended)
  }

  lemma EndReceive(s: Sys, w: nat, ok: bool, attempt: nat, draw: nat, hash: string -> string)
    requires EndInv(s) && WorkerInv(s) && SentInv(s) && Enabled(s, RecvPublish(w, ok, attempt, draw))
    ensures EndInv(Apply(s, RecvPublish(w, ok, attempt, draw), hash))
  {
    OthersStay(s, RecvPublish(w, ok, attempt, draw), hash);
    assert Granted(s.replies, PhaseOf(s, w).d);
    assert !Done(s.hist, PhaseOf(s, w).d.token);
  }

  lemma EndExec(s: Sys, a: Action, hash: string -> string)
    requires EndInv(s) && Enabled(s, a) && (a.ExecComplete? || a.ExecRetry?)
    ensures EndInv(Apply(s, a, hash))
  {
    OthersStay(s, a, hash);
    var s' := Apply(s, a, hash);
    forall st | st in s'.sent && Finishes(st) ensures !Done(s'.hist, st.d.token) {
      assert st.d.token != a.d.token;
    }
  }

  lemma EndClaim(s: Sys, a: Action, hash: string -> string)
    requires EndInv(s) && WorkerInv(s) && SentInv(s) && ReplyInv(s) && Enabled(s, a) && (a.SendClaim? || a.RecvClaim?)
    ensures EndInv(Apply(s, a, hash))
  {
    OthersStay(s, a, hash);
  }

  lemma EndRest(s: Sys, a: Action, hash: string -> string)
    requires EndInv(s) && Enabled(s, a)
    requires a.Create? || a.Tick? || a.ExecClaim? || a.ExecPublish? || a.GiveUp?
    ensures EndInv(Apply(s, a, hash))
  {
    OthersStay(s, a, hash);
  }

  lemma EndStep(s: Sys, a: Action, hash: string -> string)
    requires EndInv(s) && WorkerInv(s) && SentInv(s) && ReplyInv(s) && Enabled(s, a)
    ensures EndInv(Apply(s, a, hash))
  {
    match a
    case RecvPublish(w, ok, attempt, draw) => EndReceive(s, w, ok, attempt, draw, hash);
    case ExecComplete(_) => EndExec(s, a, hash);
    case ExecRetry(_, _) => EndExec(s, a, hash);
    case SendClaim(_, _, _) => EndClaim(s, a, hash);
    case RecvClaim(_) => EndClaim(s, a, hash);
    case _ => EndRest(s, a, hash);
  }

  /** Until it is finished or expires, a granted lease still holds its row. */
  ghost predicate LeaseInv(s: Sys) {
    forall tok :: tok in s.replies && s.replies[tok].Leased? ==>
      || Done(s.hist, tok)
      || s.replies[tok].at + LEASE <= s.now
      || LeaseStands(s.db.rows, s.replies[tok].d, s.replies[tok].at)
  }

  predicate LeaseStands(t: Table, d: Delivery, at: Time) {
    Holds(t, d) && t[d.RowKey()].availableAt == at + LEASE
  }

  lemma LeaseOfToken(s: Sys, a: Action, s': Sys, tok: Token)
    requires LeaseInv(s) && ReplyInv(s) && Marked(s, a, s') && tok in s'.replies && s'.replies[tok].Leased?
    ensures || Done(s'.hist, tok) || s'.replies[tok].at + LEASE <= s'.now
            || LeaseStands(s'.db.rows, s'.replies[tok].d, s'.replies[tok].at)
  {
    var m := Last(s'.hist);
    assert m in s'.hist;
    if !(m.ClaimMark? && m.token == tok) {
      assert s.replies[tok] == s'.replies[tok];
      if Done(s.hist, tok) {
        var x :| x in s.hist && !x.ClaimMark? && x.token == tok;
        assert x in s'.hist;
      }
    }
  }

  lemma LeaseMarked(s: Sys, a: Action, s': Sys)
    requires LeaseInv(s) && ReplyInv(s) && Marked(s, a, s')
    ensures LeaseInv(s')
  {
    forall tok | tok in s'.replies && s'.replies[tok].Leased?
      ensures || Done(s'.hist, tok) || s'.replies[tok].at + LEASE <= s'.now
              || LeaseStands(s'.db.rows, s'.replies[tok].d, s'.replies[tok].at)
    {
      LeaseOfToken(s, a, s', tok);
    }
  }

  lemma LeaseStep(s: Sys, a: Action, hash: string -> string)
    requires LeaseInv(s) && ReplyInv(s) && SentInv(s) && DataInv(s.db, s.logs) && Enabled(s, a)
    ensures LeaseInv(Apply(s, a, hash))
  {
    var s' := Apply(s, a, hash);
    MarkedOrNot(s, a, hash);
    if |s'.hist| > |s.hist| {
      LeaseMarked(s, a, s');
    }
  }

  /** Claim number i of the history was not followed by a retry of its row. */
  predicate Unretried(h: seq<Mark>, i: nat)
    requires i < |h|
  {
    h[i].ClaimMark? && forall m :: i < m < |h| && h[m].RetryMark? ==> h[m].key != h[i].key
  }

  /** Two claims of a row with no retry between them are at least one lease apart. */
  ghost predicate Spaced(h: seq<Mark>) {
    forall i, j :: 0 <= i < j < |h| && h[j].ClaimMark? && h[i].key == h[j].key && Unretried(h[..j], i) ==>
      h[i].at + LEASE <= h[j].at
  }

  ghost predicate SpaceInv(h: seq<Mark>, t: Table) {
    && Spaced(h)
    && (forall i :: 0 <= i < |h| && Unretried(h, i) ==> h[i].key in t && h[i].at + LEASE <= t[h[i].key].availableAt)
  }

  /** One more mark: the last claim is spaced from those before it, and only a retry may move the row closer. */
  lemma SpaceSnoc(h: seq<Mark>, t: Table, m: Mark, r: Row)
    requires SpaceInv(h, t) && m.key in t
    requires m.ClaimMark? ==> t[m.key].availableAt <= m.at && r.availableAt == m.at + LEASE
    requires m.CompleteMark? ==> r.availableAt == t[m.key].availableAt
    ensures SpaceInv(h + [m], t[m.key := r])
  {
    var h' := h + [m];
    forall i | 0 <= i < |h| && Unretried(h', i)
      ensures Unretried(h, i) && !(m.RetryMark? && m.key == h[i].key)
    {
      assert h'[|h|] == m;
      assert forall j :: i < j < |h| ==> h'[j] == h[j];
    }
    forall i, j | 0 <= i < j < |h'| && h'[j].ClaimMark? && h'[i].key == h'[j].key && Unretried(h'[..j], i)
      ensures h'[i].at + LEASE <= h'[j].at
    {
      if j < |h| {
        assert h'[..j] == h[..j];
      } else {
        assert h'[..j] == h;
      }
    }
  }

  lemma SpaceStep(s: Sys, a: Action, hash: string -> string)
    requires SpaceInv(s.hist, s.db.rows) && DataInv(s.db, s.logs) && Enabled(s, a)
    ensures var s' := Apply(s, a, hash); SpaceInv(s'.hist, s'.db.rows)
  {
    var s' := Apply(s, a, hash);
    MarkedOrNot(s, a, hash);
    if |s'.hist| > |s.hist| {
      SpaceSnoc(s.hist, s.db.rows, Last(s'.hist), s'.db.rows[Last(s'.hist).key]);
    }
  }

  /** Until when the retry number i of the history keeps its row from being claimed, by the claims before it. */
  function RestUntil(h: seq<Mark>, i: nat): Time
    requires i < |h|
  {
    h[i].at + FloorMs(Claims(h[..i], h[i].key)) * MS
  }

  lemma {:induction false} FewerClaimsBefore(h: seq<Mark>, i: nat, k: Key)
    requires i <= |h|
    ensures Claims(h[..i], k) <= Claims(h, k)
  {
    if i < |h| {
      assert Init(h)[..i] == h[..i];
      FewerClaimsBefore(Init(h), i, k);
    } else {
      assert h[..i] == h;
    }
  }

  lemma FloorGrows(m: nat, n: nat)
    requires m <= n
    ensures FloorMs(m) <= FloorMs(n)
  {
    PowersGrow(Max(m, 1) - 1, Max(n, 1) - 1);
  }

  /** After a retry of a row, the next claims of it keep that distance. */
  ghost predicate Rested(h: seq<Mark>) {
    forall i, j :: 0 <= i < j < |h| && h[i].RetryMark? && h[j].ClaimMark? && h[i].key == h[j].key ==>
      RestUntil(h, i) <= h[j].at
  }

  ghost predicate RestInv(h: seq<Mark>, t: Table, now: Time) {
    && Rested(h)
    && (forall i :: 0 <= i < |h| && h[i].RetryMark? ==>
          && h[i].at <= now
          && (RestUntil(h, i) <= now || (h[i].key in t && RestUntil(h, i) <= t[h[i].key].availableAt)))
  }

  lemma RestSnoc(h: seq<Mark>, t: Table, m: Mark, r: Row, now: Time)
    requires RestInv(h, t, now) && m.key in t && m.at == now
    requires m.ClaimMark? ==> t[m.key].availableAt <= now
    requires m.CompleteMark? ==> r.availableAt == t[m.key].availableAt
    requires m.RetryMark? ==> now + FloorMs(Claims(h, m.key)) * MS <= r.availableAt
    ensures RestInv(h + [m], t[m.key := r], now)
  {
    var h' := h + [m];
    assert h'[..|h|] == h;
    forall i | 0 <= i < |h| && h[i].RetryMark?
      ensures RestUntil(h', i) == RestUntil(h, i)
      ensures h[i].key == m.key && m.RetryMark? ==> RestUntil(h, i) <= r.availableAt
    {
      assert h'[..i] == h[..i];
      FewerClaimsBefore(h, i, h[i].key);
      FloorGrows(Claims(h[..i], h[i].key), Claims(h, h[i].key));
    }
  }

  /** An effective retry waits as long as the claims of its row demand. */
  lemma RetryWaits(s: Sys, a: Action)
    requires AttemptInv(s.hist, s.db.rows, s.replies) && FenceInv(s.hist, s.db.rows) && TimeInv(s) && SentInv(s)
    requires Enabled(s, a) && a.ExecRetry? && Holds(s.db.rows, a.d)
    ensures FloorMs(Claims(s.hist, a.d.RowKey())) <= a.delayMs
  {
    assert Granted(s.replies, a.d) && AttemptsAgree(s.db.rows, a.d);
  }

  lemma RestMarked(s: Sys, a: Action, s': Sys)
    requires RestInv(s.hist, s.db.rows, s.now) && Marked(s, a, s')
    requires a.ExecRetry? ==> FloorMs(Claims(s.hist, Last(s'.hist).key)) <= a.delayMs
    ensures RestInv(s'.hist, s'.db.rows, s'.now)
  {
    var m := Last(s'.hist);
    RestSnoc(s.hist, s.db.rows, m, s'.db.rows[m.key], s.now);
  }

  lemma RestUnmarked(s: Sys, s': Sys)
    requires RestInv(s.hist, s.db.rows, s.now) && Unmarked(s, s')
    ensures RestInv(s'.hist, s'.db.rows, s'.now)
  {
  }

  lemma RestStep(s: Sys, a: Action, hash: string -> string)
    requires RestInv(s.hist, s.db.rows, s.now) && TimeInv(s) && DataInv(s.db, s.logs) && Enabled(s, a)
    requires AttemptInv(s.hist, s.db.rows, s.replies) && FenceInv(s.hist, s.db.rows) && SentInv(s)
    ensures var s' := Apply(s, a, hash); RestInv(s'.hist, s'.db.rows, s'.now)
  {
    var s' := Apply(s, a, hash);
    MarkedOrNot(s, a, hash);
    if |s'.hist| > |s.hist| {
      if a.ExecRetry? {
        RetryWaits(s, a);
      }
      RestMarked(s, a, s');
    } else {
      RestUnmarked(s, s');
    }
  }
}
