/** Creating messages (internal/storage/postgres.go): idempotency keys and the atomic fan-out to the outbox. */
module MessageStore {
  import opened Base
  import opened Messaging
  import opened OutboxTable

  /** A row of `messages`; an empty idempotency key is stored as NULL. */
  datatype Stored = Stored(msg: Message, key: Option<string>)

  datatype Db = Db(messages: map<int, Stored>, rows: Table)

  datatype Answer = BadText | Created(m: Message) | Found(m: Message) | Conflict | DbError

  datatype Commit = Confirmed | AppliedUnconfirmed | RolledBack

  /**
    What one call meets: the identifier the sequence hands out, the clock, after how many statements the connection
    breaks (if it does), and the fate of the commit.
   */
  datatype Fate = Fate(id: int, now: Time, breaksAfter: Option<nat>, commit: Commit)

  const BROKERS: set<string> := {"kafka", "rabbitmq", "nats"}

  function KeyColumn(idemKey: string): Option<string> { if idemKey == "" then None else Some(idemKey) }

  predicate Owns(db: Db, key: string, id: int) { id in db.messages && db.messages[id].key == Some(key) }

  function FreshRow(m: Message, now: Time): Row { Row(CreatedEvent(m), now, now, None, 0, None) }

  function FanOut(m: Message, targets: seq<string>, now: Time): Table {
    map t | t in targets :: Key(m.id, t) := FreshRow(m, now)
  }

  /** The fault strikes before statement number n (begin is number 0). */
  predicate Broken(f: Fate, n: nat) { f.breaksAfter.Some? && f.breaksAfter.value <= n }

  /** The transaction gets as far as its commit: no broken connection, no target the table's CHECK refuses. */
  predicate Reaches(targets: seq<string>, f: Fate) {
    !Broken(f, |targets| + 1) && forall t :: t in targets ==> t in BROKERS
  }

  /** A call with these arguments would insert a new message. */
  predicate Inserts(db: Db, targets: seq<string>, text: string, idemKey: string, f: Fate) {
    && ValidText(text) && Reaches(targets, f) && f.commit != RolledBack
    && (idemKey == "" || !exists id :: id in db.messages && Owns(db, idemKey, id))
  }

  function NewMessage(text: string, hash: string -> string, f: Fate): Message {
    Message(f.id, text, hash(text), f.now)
  }

  /** The database after a call of `Create`, whatever the caller is told. */
  function AfterCreate(db: Db, targets: seq<string>, text: string, idemKey: string, hash: string -> string, f: Fate)
    : Db
  {
    if Inserts(db, targets, text, idemKey, f) then
      var m := NewMessage(text, hash, f);
      Db(db.messages[f.id := Stored(m, KeyColumn(idemKey))], db.rows + FanOut(m, targets, f.now))
    else db
  }

  /** The row is the message's new job for this target: as the table's defaults have it, claimable at once. */
  predicate NewJob(rows: Table, m: Message, target: string, now: Time) {
    var k := Key(m.id, target);
    && k in rows && rows[k].payload == CreatedEvent(m) && rows[k].createdAt == now
    && rows[k].attempts == 0 && rows[k].token.None? && rows[k].deliveredAt.None?
    && Eligible(rows, target, now, k)
  }

  /** Nothing goes wrong before the commit: the targets are among the three brokers and the connection holds. */
  predicate Undisturbed(targets: seq<string>, f: Fate, taken: bool) {
    && (!taken ==> forall t :: t in targets ==> t == "kafka" || t == "rabbitmq" || t == "nats")
    && (f.breaksAfter.Some? ==> f.breaksAfter.value > if taken then 2 else |targets| + 1)
  }

  /** The UNIQUE index on the idempotency key. */
  ghost predicate UniqueKeys(db: Db) { forall key, i, j :: Owns(db, key, i) && Owns(db, key, j) ==> i == j }

  ghost predicate Taken(db: Db, key: string) { key != "" && exists id :: Owns(db, key, id) }

  ghost function OwnerOf(db: Db, key: string): (id: int)
    requires Taken(db, key)
    ensures Owns(db, key, id)
  {
    var id :| Owns(db, key, id);
    id
  }

  /** What a transaction that got to its commit tells its caller. */
  function Heard(f: Fate, a: Answer): Answer { if f.commit == Confirmed then a else DbError }

  /** What the caller of `Create` is told. A taken key costs one more statement, the SELECT of its owner. */
  ghost function AnswerTo(db: Db, targets: seq<string>, text: string, idemKey: string, hash: string -> string, f: Fate)
    : Answer
  {
    if !ValidText(text) then BadText
    else if Broken(f, 1) then DbError
    else if Taken(db, idemKey) then
      var m := db.messages[OwnerOf(db, idemKey)].msg;
      if Broken(f, 2) then DbError else if m.text != text then Conflict else Heard(f, Found(m))
    else if !Reaches(targets, f) then DbError
    else Heard(f, Created(NewMessage(text, hash, f)))
  }

  class Postgres {
    var messages: map<int, Stored>
    var rows: Table
    const targets: seq<string>
    const hash: string -> string

    function Abs(): Db
      reads this
    {
      Db(messages, rows)
    }

    constructor (db: Db, targets: seq<string>, hash: string -> string)
      ensures Abs() == db && this.targets == targets && this.hash == hash
    {
      messages, rows, this.targets, this.hash := db.messages, db.rows, targets, hash;
    }

    /** One transaction: its effect is `AfterCreate`, its answer `AnswerTo`. */
    method Create(text: string, idemKey: string, f: Fate) returns (a: Answer)
      requires f.id !in messages && UniqueKeys(Abs())
      modifies this
      ensures UniqueKeys(Abs()) && Abs() == AfterCreate(old(Abs()), targets, text, idemKey, hash, f)
      ensures a == AnswerTo(old(Abs()), targets, text, idemKey, hash, f)
      ensures a == BadText <==> !ValidText(text)
      ensures a.Created? ==>
                && a.m.id == f.id && a.m.text == text && a.m.checksum == hash(text) && a.m.createdAt == f.now
                && messages == old(messages)[f.id := Stored(a.m, if idemKey == "" then None else Some(idemKey))]
                && (forall t :: t in targets ==> NewJob(rows, a.m, t, f.now))
                && (forall k :: k in rows && k !in old(rows) ==> k.id == f.id && k.target in targets)
      ensures f.commit == RolledBack || a.BadText? || a.Found? || a.Conflict? ==> Abs() == old(Abs())
      ensures f.commit != Confirmed ==> !a.Created? && !a.Found?
      ensures f.breaksAfter.Some? && ValidText(text) ==>
                var last := if Taken(old(Abs()), idemKey) then 2 else |targets| + 1;
                f.breaksAfter.value <= last ==> a.DbError? && Abs() == old(Abs())
      ensures var taken := Taken(old(Abs()), idemKey);
              Undisturbed(targets, f, taken) && ValidText(text) ==>
                && (f.commit == Confirmed ==> if taken then a.Found? || a.Conflict? else a.Created?)
                && (f.commit == AppliedUnconfirmed && !taken ==> // stored, and the caller does not know
                      a.DbError? && f.id in messages && messages[f.id].msg.text == text)
      ensures a.Found? ==>
                idemKey != "" && a.m.text == text
                && exists id :: Owns(old(Abs()), idemKey, id) && old(messages)[id].msg == a.m
      ensures a.Conflict? ==>
                idemKey != "" && exists id :: Owns(old(Abs()), idemKey, id) && old(messages)[id].msg.text != text
      ensures a.DbError? ==> f.commit != Confirmed || Broken(f, 2) || !Reaches(targets, f)
    {
      CreateKeepsUnique(Abs(), targets, text, idemKey, hash, f);
      if !ValidText(text) {
        return BadText;
      }
      if Broken(f, 0) || Broken(f, 1) {
        return DbError;
      }
      if idemKey != "" && exists id :: id in messages && messages[id].key == Some(idemKey) {
        // ON CONFLICT DO NOTHING returned no row: read the owner of the key.
        var id :| id in messages && messages[id].key == Some(idemKey);
        assert Owns(Abs(), idemKey, id);
        if Broken(f, 2) {
          return DbError;
        }
        var m := messages[id].msg;
        if m.text != text {
          return Conflict;
        }
        return if f.commit == Confirmed then Found(m) else DbError;
      }
      var m := NewMessage(text, hash, f);
      var ok, jobs := InsertJobs(m, f);
      if !ok {
        return DbError;
      }
      assert forall id :: !Owns(Abs(), idemKey, id) || idemKey == "";
      if f.commit != RolledBack {
        messages, rows := messages[f.id := Stored(m, KeyColumn(idemKey))], rows + jobs;
      }
      return if f.commit == Confirmed then Created(m) else DbError;
    }

    /** The loop over the targets, inside the open transaction. */
    method InsertJobs(m: Message, f: Fate) returns (ok: bool, jobs: Table)
      requires !Broken(f, 1)
      ensures ok <==> Reaches(targets, f)
      ensures ok ==> jobs == FanOut(m, targets, f.now)
    {
      jobs := map[];
      var i := 0;
      while i < |targets|
        invariant 0 <= i <= |targets|
        invariant jobs == FanOut(m, targets[..i], f.now)
        invariant !Broken(f, i + 1) && forall t :: t in targets[..i] ==> t in BROKERS
      {
        var target := targets[i];
        if Broken(f, i + 2) || target !in BROKERS {
          return false, jobs;
        }
        var k := Key(m.id, target);
        assert targets[..i + 1] == targets[..i] + [target];
        if k !in jobs { // ON CONFLICT (message_id, target) DO NOTHING
          jobs := jobs[k := FreshRow(m, f.now)];
        }
        assert jobs == FanOut(m, targets[..i + 1], f.now);
        i := i + 1;
      }
      assert targets[..i] == targets;
      ok := true;
    }
  }

  /** A creation that inserts leaves one claimable job for each target, and changes no row that was there. */
  lemma NewJobsAreClaimable(db: Db, targets: seq<string>, text: string, idemKey: string, hash: string -> string,
                            f: Fate)
    requires Inserts(db, targets, text, idemKey, f)
    requires forall k :: k in db.rows ==> k.id in db.messages
    requires f.id !in db.messages
    ensures var rows := AfterCreate(db, targets, text, idemKey, hash, f).rows;
            && (forall t :: t in targets ==> NewJob(rows, NewMessage(text, hash, f), t, f.now))
            && (forall k :: k in rows <==> k in db.rows || (k.id == f.id && k.target in targets))
            && (forall k :: k in db.rows ==> rows[k] == db.rows[k])
  {
  }

  /** If nothing else is pending for the target, the next claim takes the new job, from its creation on. */
  lemma NewJobIsNext(db: Db, targets: seq<string>, text: string, idemKey: string, hash: string -> string, f: Fate,
                     target: string)
    requires Inserts(db, targets, text, idemKey, f) && target in targets && f.id !in db.messages
    requires forall k :: k in db.rows ==> k.id in db.messages && !Pending(db.rows, target, k)
    ensures var rows := AfterCreate(db, targets, text, idemKey, hash, f).rows;
            forall k :: Candidate(rows, target, f.now, {}, k) <==> k == Key(f.id, target)
  {
    NewJobsAreClaimable(db, targets, text, idemKey, hash, f);
  }

  // ----- Sequences of calls -----

  datatype Call = Call(text: string, idemKey: string, fate: Fate)

  /** The database after a sequence of calls, in order. */
  function AfterCalls(db: Db, targets: seq<string>, hash: string -> string, calls: seq<Call>): Db {
    if calls == [] then db
    else
      var c := Last(calls);
      AfterCreate(AfterCalls(db, targets, hash, Init(calls)), targets, c.text, c.idemKey, hash, c.fate)
  }

  /** The sequence hands out a fresh identifier every time. */
  ghost predicate FreshIds(db: Db, targets: seq<string>, hash: string -> string, calls: seq<Call>) {
    calls == [] ||
    (FreshIds(db, targets, hash, Init(calls))
     && Last(calls).fate.id !in AfterCalls(db, targets, hash, Init(calls)).messages)
  }

  /** Each key owns at most one message, messages match their identifier and hash, and rows match messages. */
  ghost predicate Sound(db: Db, targets: seq<string>, hash: string -> string) {
    && UniqueKeys(db)
    && (forall i :: i in db.messages ==>
          db.messages[i].msg.id == i && db.messages[i].msg.checksum == hash(db.messages[i].msg.text)
          && db.messages[i].key != Some(""))
    && (forall k :: k in db.rows <==> k.id in db.messages && k.target in targets)
    && (forall k :: k in db.rows ==> db.rows[k].payload == CreatedEvent(db.messages[k.id].msg))
  }

  lemma CreateKeepsUnique(db: Db, targets: seq<string>, text: string, idemKey: string, hash: string -> string, f: Fate)
    requires UniqueKeys(db) && f.id !in db.messages
    ensures UniqueKeys(AfterCreate(db, targets, text, idemKey, hash, f))
  {
    var db' := AfterCreate(db, targets, text, idemKey, hash, f);
    forall key, i, j | Owns(db', key, i) && Owns(db', key, j) ensures i == j {
      assert i in db.messages ==> Owns(db, key, i);
      assert j in db.messages ==> Owns(db, key, j);
    }
  }

  lemma CreateKeepsSound(db: Db, targets: seq<string>, hash: string -> string, c: Call)
    requires Sound(db, targets, hash) && c.fate.id !in db.messages
    ensures Sound(AfterCreate(db, targets, c.text, c.idemKey, hash, c.fate), targets, hash)
  {
    CreateKeepsUnique(db, targets, c.text, c.idemKey, hash, c.fate);
  }

  /** The database implements the key-to-message map `km`. */
  ghost predicate Implements(db: Db, km: map<string, Message>) {
    && (forall key, id :: Owns(db, key, id) ==> key in km && km[key] == db.messages[id].msg)
    && (forall key :: key in km ==> exists id :: Owns(db, key, id))
  }

  /** `Create` on the map alone: a new non-empty key is bound once, nothing else changes; with the answer. */
  function SpecCreate(km: map<string, Message>, targets: seq<string>, hash: string -> string, c: Call)
    : (map<string, Message>, Answer)
  {
    var f, m := c.fate, NewMessage(c.text, hash, c.fate);
    if !ValidText(c.text) then (km, BadText)
    else if Broken(f, 1) then (km, DbError)
    else if c.idemKey != "" && c.idemKey in km then
      (km, if Broken(f, 2) then DbError
           else if km[c.idemKey].text != c.text then Conflict
           else Heard(f, Found(km[c.idemKey])))
    else if !Reaches(targets, f) then (km, DbError)
    else (if f.commit != RolledBack && c.idemKey != "" then km[c.idemKey := m] else km, Heard(f, Created(m)))
  }

  function SpecCalls(km: map<string, Message>, targets: seq<string>, hash: string -> string, calls: seq<Call>)
    : (map<string, Message>, seq<Answer>)
  {
    if calls == [] then (km, [])
    else
      var (km1, answers) := SpecCalls(km, targets, hash, Init(calls));
      var (km2, a) := SpecCreate(km1, targets, hash, Last(calls));
      (km2, answers + [a])
  }

  /** What the callers of a sequence of calls are told. */
  ghost function AnswersTo(db: Db, targets: seq<string>, hash: string -> string, calls: seq<Call>): seq<Answer> {
    if calls == [] then []
    else
      var c := Last(calls);
      AnswersTo(db, targets, hash, Init(calls))
      + [AnswerTo(AfterCalls(db, targets, hash, Init(calls)), targets, c.text, c.idemKey, hash, c.fate)]
  }

  lemma CreateRefines(db: Db, km: map<string, Message>, targets: seq<string>, hash: string -> string, c: Call)
    requires Sound(db, targets, hash) && Implements(db, km) && c.fate.id !in db.messages
    ensures Implements(AfterCreate(db, targets, c.text, c.idemKey, hash, c.fate), SpecCreate(km, targets, hash, c).0)
    ensures AnswerTo(db, targets, c.text, c.idemKey, hash, c.fate) == SpecCreate(km, targets, hash, c).1
  {
    var db' := AfterCreate(db, targets, c.text, c.idemKey, hash, c.fate);
    var km' := SpecCreate(km, targets, hash, c).0;
    assert Taken(db, c.idemKey) <==> c.idemKey != "" && c.idemKey in km;
    if Inserts(db, targets, c.text, c.idemKey, c.fate) {
      forall key, id | Owns(db', key, id) ensures key in km' && km'[key] == db'.messages[id].msg {
        if id != c.fate.id {
          assert Owns(db, key, id);
        }
      }
      forall key | key in km' ensures exists id :: Owns(db', key, id) {
        if key in km {
          var id :| Owns(db, key, id);
          assert Owns(db', key, id);
        } else {
          assert Owns(db', key, c.fate.id);
        }
      }
    }
  }

  /** Idempotent creation refines the map, answer by answer, over any sequence of calls and faults. */
  lemma {:induction false} CallsRefine(db: Db, km: map<string, Message>, targets: seq<string>, hash: string -> string,
                                       calls: seq<Call>)
    requires Sound(db, targets, hash) && Implements(db, km) && FreshIds(db, targets, hash, calls)
    ensures Implements(AfterCalls(db, targets, hash, calls), SpecCalls(km, targets, hash, calls).0)
    ensures AnswersTo(db, targets, hash, calls) == SpecCalls(km, targets, hash, calls).1
  {
    if calls != [] {
      CallsRefine(db, km, targets, hash, Init(calls));
      CallsKeepSound(db, targets, hash, Init(calls));
      CreateRefines(AfterCalls(db, targets, hash, Init(calls)), SpecCalls(km, targets, hash, Init(calls)).0,
                    targets, hash, Last(calls));
    }
  }

  /** Over any sequence of calls: keys keep their message, messages never change, and the fan-out is exact. */
  lemma {:induction false} CallsKeepSound(db: Db, targets: seq<string>, hash: string -> string, calls: seq<Call>)
    requires Sound(db, targets, hash) && FreshIds(db, targets, hash, calls)
    ensures var db' := AfterCalls(db, targets, hash, calls);
            && Sound(db', targets, hash)
            && (forall i :: i in db.messages ==> i in db'.messages && db'.messages[i] == db.messages[i])
            && (forall k :: k in db.rows ==> k in db'.rows && db'.rows[k] == db.rows[k])
  {
    if calls != [] {
      CallsKeepSound(db, targets, hash, Init(calls));
      CreateKeepsSound(AfterCalls(db, targets, hash, Init(calls)), targets, hash, Last(calls));
    }
  }

  /**
    A key that was once committed, even if the caller never heard of it, answers every later call: the same text
    finds the very same message, any other text is a conflict, and neither changes anything.
   */
  lemma KeyAnswersForever(db: Db, targets: seq<string>, hash: string -> string,
                          first: Call, between: seq<Call>, again: Call)
    requires Sound(db, targets, hash) && first.fate.id !in db.messages
    requires Inserts(db, targets, first.text, first.idemKey, first.fate) && first.idemKey != ""
    requires var db1 := AfterCreate(db, targets, first.text, first.idemKey, hash, first.fate);
             FreshIds(db1, targets, hash, between)
    requires again.idemKey == first.idemKey
    ensures var db1 := AfterCreate(db, targets, first.text, first.idemKey, hash, first.fate);
            var db2 := AfterCalls(db1, targets, hash, between);
            && AfterCreate(db2, targets, again.text, again.idemKey, hash, again.fate) == db2
            && (forall id :: Owns(db2, again.idemKey, id) <==> id == first.fate.id)
            && first.fate.id in db2.messages
            && db2.messages[first.fate.id].msg == NewMessage(first.text, hash, first.fate)
            && AnswerTo(db2, targets, again.text, again.idemKey, hash, again.fate)
               == if !ValidText(again.text) then BadText
                  else if Broken(again.fate, 2) then DbError
                  else if again.text != first.text then Conflict
                  else Heard(again.fate, Found(NewMessage(first.text, hash, first.fate)))
  {
    CreateKeepsSound(db, targets, hash, first);
    var db1 := AfterCreate(db, targets, first.text, first.idemKey, hash, first.fate);
    CallsKeepSound(db1, targets, hash, between);
    var db2 := AfterCalls(db1, targets, hash, between);
    assert Owns(db2, again.idemKey, first.fate.id);
  }
}
