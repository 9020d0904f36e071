/** The whole way of a message: from the transaction that created it to the stores it is read from. */
module EndToEnd {
  import opened Base
  import opened Messaging
  import opened OutboxTable
  import opened MessageStore
  import P = OutboxProtocol
  import I = OutboxInvariants
  import T = OutboxTheorems
  import C = Consumer
  import S = Projections

  /** The brokers whose consumers write to these stores, and which stores are configured. */
  datatype Setup = Setup(consumed: set<string>, cassandra: bool, elastic: bool, hash: string -> string)

  datatype Whole = Whole(
    o: P.Sys,
    groups: Groups,
    stores: S.Stores,
    saved: set<(string, nat)>,      // log positions whose batch was applied to Cassandra
    indexed: set<(string, nat)>)    // log positions whose document was applied to the index

  datatype Action =
    | Outbox(a: P.Action)
    | Consume(target: string, c: C.Action)
    | Save(target: string, i: nat)
    | Index(target: string, i: nat)

  type Groups = map<string, C.Group>

  function GroupIn(groups: Groups, target: string): C.Group { if target in groups then groups[target] else C.NO_GROUP }

  function LogOf(w: Whole, target: string): C.Log { P.Log(w.o.logs, target) }

  function GroupOf(w: Whole, target: string): C.Group { GroupIn(w.groups, target) }

  predicate Decodes(logs: P.Logs, target: string, i: nat) {
    i < |P.Log(logs, target)| && P.Log(logs, target)[i].payload.Json?
  }

  function EventAt(logs: P.Logs, target: string, i: nat): Event
    requires Decodes(logs, target, i)
  {
    P.Log(logs, target)[i].payload.event
  }

  /** Kafka consumers fetch and commit offsets; RabbitMQ and NATS consumers take and acknowledge deliveries. */
  predicate Speaks(target: string, c: C.Action) {
    && !c.Append?
    && (if target == "kafka" then !c.Deliver? && !c.Ack?
        else !c.Assign? && !c.Revoke? && !c.Fetch? && !c.Commit? && !c.ApplyCommit?)
  }

  predicate Enabled(u: Setup, w: Whole, a: Action) {
    match a
    case Outbox(a) => P.Enabled(w.o, a)
    case Consume(target, c) =>
      && target in u.consumed && Speaks(target, c) && C.Enabled(LogOf(w, target), GroupOf(w, target), c)
      && (c.Succeed? ==> // the handler returned nil
            var i := GroupOf(w, target).readers[c.r].job.i;
            (u.cassandra ==> (target, i) in w.saved) && (u.elastic ==> (target, i) in w.indexed))
    case Save(target, i) => target in u.consumed && u.cassandra && Decodes(w.o.logs, target, i)
    case Index(target, i) => target in u.consumed && u.elastic && Decodes(w.o.logs, target, i)
  }

  function Apply(u: Setup, w: Whole, a: Action): Whole
    requires Enabled(u, w, a)
  {
    match a
    case Outbox(a) => w.(o := P.Apply(w.o, a, u.hash))
    case Consume(target, c) => w.(groups := w.groups[target := C.Apply(LogOf(w, target), GroupOf(w, target), c)])
    case Save(target, i) =>
      w.(stores := S.Saved(w.stores, EventAt(w.o.logs, target, i), target), saved := w.saved + {(target, i)})
    case Index(target, i) =>
      w.(stores := S.Indexed(w.stores, EventAt(w.o.logs, target, i), target), indexed := w.indexed + {(target, i)})
  }

  function Exec(u: Setup, at: Time, run: seq<Action>): Option<Whole> {
    if run == [] then Some(Whole(P.Empty(at), map[], S.NO_STORES, {}, {}))
    else
      var w := Exec(u, at, Init(run));
      if w.Some? && Enabled(u, w.value, Last(run)) then Some(Apply(u, w.value, Last(run))) else None
  }

  // ----- The stores hold true copies -----

  /** The creation event of a committed message. */
  function Fact(db: Db, id: int): Event
    requires id in db.messages
  {
    CreatedEvent(db.messages[id].msg)
  }

  /** The message was committed and has a job for this broker, whose consumer writes here. */
  predicate Sourced(u: Setup, db: Db, id: int, broker: string) {
    id in db.messages && broker in u.consumed && Key(id, broker) in db.rows
  }

  /** Everything in the stores is a true copy of a committed message's event. */
  ghost predicate StoreInv(u: Setup, db: Db, st: S.Stores) {
    && (forall id :: id in st.byId ==>
          Sourced(u, db, id, st.byId[id].producer) && st.byId[id] == S.RowOf(Fact(db, id), st.byId[id].producer))
    && (forall k :: k in st.byDay ==>
          && Sourced(u, db, k.id, st.byDay[k].producer)
          && k == S.DayKeyOf(Fact(db, k.id)) && st.byDay[k] == S.RowOf(Fact(db, k.id), st.byDay[k].producer))
    && (forall id :: id in st.index ==>
          && Sourced(u, db, id, st.index[id].producer)
          && st.index[id] == S.DocumentOf(Fact(db, id), st.index[id].producer))
  }

  lemma StoreKept(u: Setup, db: Db, db': Db, st: S.Stores)
    requires StoreInv(u, db, st)
    requires forall i :: i in db.messages ==> i in db'.messages && db'.messages[i] == db.messages[i]
    requires forall k :: k in db.rows ==> k in db'.rows
    ensures StoreInv(u, db', st)
  {
  }

  lemma StoreWritten(u: Setup, db: Db, st: S.Stores, e: Event, target: string)
    requires StoreInv(u, db, st) && Sourced(u, db, e.id, target) && e == Fact(db, e.id)
    ensures StoreInv(u, db, S.Saved(st, e, target)) && StoreInv(u, db, S.Indexed(st, e, target))
  {
  }

  /** The event in a log is the fact it claims to be. */
  lemma LogTellsFacts(u: Setup, db: Db, logs: P.Logs, target: string, i: nat)
    requires I.DataInv(db, logs) && target in u.consumed && Decodes(logs, target, i)
    ensures var e := EventAt(logs, target, i);
            && Sourced(u, db, e.id, target) && e == Fact(db, e.id)
            && var m := db.messages[e.id].msg;
            && e.text == m.text && e.checksum == m.checksum && e.createdAt == m.createdAt && e.producer == "otus-app"
  {
    assert I.Backed(db, target, P.Log(logs, target)[i].payload);
  }

  // ----- What was handled was written -----

  ghost predicate SavedInv(logs: P.Logs, st: S.Stores, saved: set<(string, nat)>) {
    forall p :: p in saved ==>
      && Decodes(logs, p.0, p.1)
      && EventAt(logs, p.0, p.1).id in st.byId && S.DayKeyOf(EventAt(logs, p.0, p.1)) in st.byDay
  }

  ghost predicate IndexedInv(logs: P.Logs, st: S.Stores, indexed: set<(string, nat)>) {
    forall p :: p in indexed ==> Decodes(logs, p.0, p.1) && EventAt(logs, p.0, p.1).id in st.index
  }

  ghost predicate HandledInv(u: Setup, groups: Groups, saved: set<(string, nat)>, indexed: set<(string, nat)>) {
    forall t, i :: i in GroupIn(groups, t).handled ==>
      (u.cassandra ==> (t, i) in saved) && (u.elastic ==> (t, i) in indexed)
  }

  ghost predicate GroupsInv(logs: P.Logs, groups: Groups) {
    forall t :: C.Inv(P.Log(logs, t), GroupIn(groups, t))
  }

  ghost predicate LogsGrow(logs: P.Logs, logs': P.Logs) { forall t :: P.Log(logs, t) <= P.Log(logs', t) }

  lemma WrittenKept(logs: P.Logs, logs': P.Logs, st: S.Stores, saved: set<(string, nat)>, indexed: set<(string, nat)>)
    requires SavedInv(logs, st, saved) && IndexedInv(logs, st, indexed) && LogsGrow(logs, logs')
    ensures SavedInv(logs', st, saved) && IndexedInv(logs', st, indexed)
  {
    assert forall t :: P.Log(logs, t) <= P.Log(logs', t);
  }

  lemma WrittenStep(logs: P.Logs, st: S.Stores, saved: set<(string, nat)>, indexed: set<(string, nat)>,
                    target: string, i: nat)
    requires SavedInv(logs, st, saved) && IndexedInv(logs, st, indexed) && Decodes(logs, target, i)
    ensures var st' := S.Saved(st, EventAt(logs, target, i), target);
            SavedInv(logs, st', saved + {(target, i)}) && IndexedInv(logs, st', indexed)
    ensures var st' := S.Indexed(st, EventAt(logs, target, i), target);
            SavedInv(logs, st', saved) && IndexedInv(logs, st', indexed + {(target, i)})
  {
  }

  lemma GroupsKept(logs: P.Logs, logs': P.Logs, groups: Groups)
    requires GroupsInv(logs, groups) && LogsGrow(logs, logs')
    ensures GroupsInv(logs', groups)
  {
    forall t ensures C.Inv(P.Log(logs', t), GroupIn(groups, t)) {
      assert C.Inv(P.Log(logs, t), GroupIn(groups, t)) && P.Log(logs, t) <= P.Log(logs', t);
      GroupGrows(P.Log(logs, t), P.Log(logs', t), GroupIn(groups, t));
    }
  }

  lemma GroupGrows(log: C.Log, log': C.Log, g: C.Group)
    requires C.Inv(log, g) && log <= log'
    ensures C.Inv(log', g)
  {
    forall r | r in g.readers ensures C.ReaderInv(log', g.handled, g.readers[r]) {
      C.ReaderGrows(log, log', g.handled, g.handled, g.readers[r]);
    }
  }

  lemma GroupsStep(logs: P.Logs, groups: Groups, target: string, c: C.Action)
    requires GroupsInv(logs, groups) && !c.Append? && C.Enabled(P.Log(logs, target), GroupIn(groups, target), c)
    ensures GroupsInv(logs, groups[target := C.Apply(P.Log(logs, target), GroupIn(groups, target), c)])
  {
    var groups' := groups[target := C.Apply(P.Log(logs, target), GroupIn(groups, target), c)];
    forall t ensures C.Inv(P.Log(logs, t), GroupIn(groups', t)) {
      assert C.Inv(P.Log(logs, t), GroupIn(groups, t));
      if t == target {
        C.InvStep(P.Log(logs, target), GroupIn(groups, target), c);
      }
    }
  }

  lemma HandledStep(u: Setup, w: Whole, target: string, c: C.Action)
    requires HandledInv(u, w.groups, w.saved, w.indexed) && Enabled(u, w, Consume(target, c))
    ensures HandledInv(u, Apply(u, w, Consume(target, c)).groups, w.saved, w.indexed)
  {
    var g, g' := GroupOf(w, target), C.Apply(LogOf(w, target), GroupOf(w, target), c);
    assert g'.handled == if c.Succeed? then g.handled + {g.readers[c.r].job.i} else g.handled;
    forall t, i | i in GroupIn(Apply(u, w, Consume(target, c)).groups, t).handled
      ensures (u.cassandra ==> (t, i) in w.saved) && (u.elastic ==> (t, i) in w.indexed)
    {
      assert t == target || i in GroupIn(w.groups, t).handled;
    }
  }

  // ----- Every run -----

  ghost predicate Inv(u: Setup, w: Whole) {
    && T.Inv(w.o) && StoreInv(u, w.o.db, w.stores) && GroupsInv(w.o.logs, w.groups)
    && SavedInv(w.o.logs, w.stores, w.saved) && IndexedInv(w.o.logs, w.stores, w.indexed)
    && HandledInv(u, w.groups, w.saved, w.indexed)
  }

  /** A step of the outbox loses no message, no row and no log entry. */
  lemma OutboxKeeps(s: P.Sys, a: P.Action, hash: string -> string)
    requires P.Enabled(s, a)
    ensures var s' := P.Apply(s, a, hash);
            && (forall i :: i in s.db.messages ==> i in s'.db.messages && s'.db.messages[i] == s.db.messages[i])
            && (forall k :: k in s.db.rows ==> k in s'.db.rows)
            && LogsGrow(s.logs, s'.logs)
  {
  }

  lemma OutboxStep(u: Setup, w: Whole, a: P.Action)
    requires Inv(u, w) && P.Enabled(w.o, a)
    ensures Inv(u, Apply(u, w, Outbox(a)))
  {
    var o' := P.Apply(w.o, a, u.hash);
    T.InvStep(w.o, a, u.hash);
    OutboxKeeps(w.o, a, u.hash);
    StoreKept(u, w.o.db, o'.db, w.stores);
    GroupsKept(w.o.logs, o'.logs, w.groups);
    WrittenKept(w.o.logs, o'.logs, w.stores, w.saved, w.indexed);
  }

  lemma StoreStep(u: Setup, w: Whole, a: Action)
    requires Inv(u, w) && Enabled(u, w, a) && (a.Save? || a.Index?)
    ensures Inv(u, Apply(u, w, a))
  {
    LogTellsFacts(u, w.o.db, w.o.logs, a.target, a.i);
    StoreWritten(u, w.o.db, w.stores, EventAt(w.o.logs, a.target, a.i), a.target);
    WrittenStep(w.o.logs, w.stores, w.saved, w.indexed, a.target, a.i);
  }

  lemma {:induction false} EveryRun(u: Setup, at: Time, run: seq<Action>)
    requires Exec(u, at, run).Some?
    ensures Inv(u, Exec(u, at, run).value)
  {
    if run == [] {
      T.EveryRun(at, [], u.hash);
    } else {
      EveryRun(u, at, Init(run));
      var w := Exec(u, at, Init(run)).value;
      match Last(run)
      case Outbox(a) => OutboxStep(u, w, a);
      case Consume(target, c) =>
        GroupsStep(w.o.logs, w.groups, target, c);
        HandledStep(u, w, target, c);
      case Save(_, _) => StoreStep(u, w, Last(run));
      case Index(_, _) => StoreStep(u, w, Last(run));
    }
  }

  // ----- Convergence -----

  /** The broker has no undelivered rows and its consumers acknowledged the whole log. */
  ghost predicate Settled(w: Whole, target: string) {
    && (forall k :: !Pending(w.o.db.rows, target, k))
    && (forall i :: 0 <= i < |LogOf(w, target)| ==> C.Acknowledged(LogOf(w, target), GroupOf(w, target), i))
  }

  /** The messages that have a job for at least one of the consumed brokers. */
  ghost predicate Wanted(u: Setup, db: Db, id: int) { exists t :: t in u.consumed && Key(id, t) in db.rows }

  /** The Cassandra row repeats the message; its timestamp is the creation time to the millisecond. */
  predicate RowRepeats(u: Setup, db: Db, r: S.Row, m: Message) {
    && r.text == m.text && r.checksum == m.checksum && r.createdMs == m.createdAt / 1000
    && r.producer in u.consumed && Key(m.id, r.producer) in db.rows
  }

  predicate DocumentRepeats(u: Setup, db: Db, d: S.Document, m: Message) {
    && d.text == m.text && d.checksum == m.checksum && d.createdAt == m.createdAt
    && d.producer in u.consumed && Key(m.id, d.producer) in db.rows
  }

  /** The one place of the message in the feed: its UTC day, its creation time to the millisecond, its identifier. */
  predicate IsFeedKey(k: S.DayKey, m: Message) {
    k.id == m.id && k.createdMs == m.createdAt / 1000 && k.day == m.createdAt / (24 * 3600 * 1_000_000)
  }

  /** The message is committed and present in every configured store. */
  predicate Present(u: Setup, w: Whole, id: int) {
    && id in w.o.db.messages
    && (u.cassandra ==> id in w.stores.byId && S.DayKeyOf(Fact(w.o.db, id)) in w.stores.byDay)
    && (u.elastic ==> id in w.stores.index)
  }

  /** And every entry repeats it, in its one place of the feed. */
  predicate Stored(u: Setup, w: Whole, id: int) {
    && Present(u, w, id)
    && var db, m := w.o.db, w.o.db.messages[id].msg;
    && m.id == id
    && (u.cassandra ==>
          var k := S.DayKeyOf(Fact(db, id));
          && RowRepeats(u, db, w.stores.byId[id], m)
          && IsFeedKey(k, m) && RowRepeats(u, db, w.stores.byDay[k], m))
    && (u.elastic ==> DocumentRepeats(u, db, w.stores.index[id], m))
  }

  /** Once a broker has settled, every message with a job for it is in every configured store, with its contents. */
  lemma SettledMeansStored(u: Setup, at: Time, run: seq<Action>, target: string, id: int)
    requires Exec(u, at, run).Some?
    requires target in u.consumed && Settled(Exec(u, at, run).value, target)
    requires Key(id, target) in Exec(u, at, run).value.o.db.rows
    ensures Stored(u, Exec(u, at, run).value, id)
  {
    EveryRun(u, at, run);
    var w := Exec(u, at, run).value;
    var k := Key(id, target);
    assert !Pending(w.o.db.rows, target, k);
    assert P.InLog(w.o.logs, target, w.o.db.rows[k].payload);
    var i :| 0 <= i < |LogOf(w, target)| && LogOf(w, target)[i].payload == Encode(w.o.db.rows[k].payload);
    assert C.Acknowledged(LogOf(w, target), GroupOf(w, target), i);
    assert i in GroupOf(w, target).handled;
  }

  /** The table by identifier: one row per wanted message, repeating it, and nothing else. */
  ghost predicate ByIdConverged(u: Setup, db: Db, byId: map<int, S.Row>) {
    && (forall id :: id in byId <==> Wanted(u, db, id))
    && (forall id :: id in byId ==> id in db.messages && RowRepeats(u, db, byId[id], db.messages[id].msg))
  }

  /** The feed: each wanted message in its one place, and nothing else. */
  ghost predicate FeedConverged(u: Setup, db: Db, byDay: map<S.DayKey, S.Row>) {
    && (forall k :: k in byDay <==> Wanted(u, db, k.id) && k.id in db.messages && IsFeedKey(k, db.messages[k.id].msg))
    && (forall k :: k in byDay ==> RowRepeats(u, db, byDay[k], db.messages[k.id].msg))
  }

  ghost predicate IndexConverged(u: Setup, db: Db, index: map<int, S.Document>) {
    && (forall id :: id in index <==> Wanted(u, db, id))
    && (forall id :: id in index ==> id in db.messages && DocumentRepeats(u, db, index[id], db.messages[id].msg))
  }

  /** Each configured store holds exactly one entry per wanted message, repeating it, and nothing else. */
  ghost predicate Converged(u: Setup, w: Whole) {
    var db := w.o.db;
    && (forall id :: Wanted(u, db, id) ==> id in db.messages && db.messages[id].msg.id == id)
    && (u.cassandra ==> ByIdConverged(u, db, w.stores.byId) && FeedConverged(u, db, w.stores.byDay))
    && (u.elastic ==> IndexConverged(u, db, w.stores.index))
  }

  lemma SourcedIsWanted(u: Setup, db: Db)
    ensures forall id, broker :: Sourced(u, db, id, broker) ==> Wanted(u, db, id)
  {
  }

  lemma FeedKeyIsUnique(db: Db)
    requires forall i :: i in db.messages ==> db.messages[i].msg.id == i
    ensures forall k: S.DayKey :: k.id in db.messages ==>
              (IsFeedKey(k, db.messages[k.id].msg) <==> k == S.DayKeyOf(Fact(db, k.id)))
  {
  }

  lemma FeedConverges(u: Setup, w: Whole)
    requires StoreInv(u, w.o.db, w.stores) && u.cassandra
    requires forall i :: i in w.o.db.messages ==> w.o.db.messages[i].msg.id == i
    requires forall id :: Wanted(u, w.o.db, id) ==> Present(u, w, id)
    ensures FeedConverged(u, w.o.db, w.stores.byDay)
  {
    SourcedIsWanted(u, w.o.db);
    FeedKeyIsUnique(w.o.db);
  }

  /** True copies of everything wanted are a converged state. */
  lemma TrueCopiesConverge(u: Setup, w: Whole)
    requires StoreInv(u, w.o.db, w.stores)
    requires forall i :: i in w.o.db.messages ==> w.o.db.messages[i].msg.id == i
    requires forall id :: Wanted(u, w.o.db, id) ==> Present(u, w, id)
    ensures Converged(u, w)
  {
    SourcedIsWanted(u, w.o.db);
    if u.cassandra {
      FeedConverges(u, w);
    }
  }

  /**
    End-to-end convergence. Whatever interleaving of creations, crashes, lost replies, duplicate publications, failed
    writes and restarts led here: once the consumed brokers have settled, the stores have converged.
   */
  lemma Convergence(u: Setup, at: Time, run: seq<Action>)
    requires Exec(u, at, run).Some?
    requires forall t :: t in u.consumed ==> Settled(Exec(u, at, run).value, t)
    ensures Converged(u, Exec(u, at, run).value)
  {
    EveryRun(u, at, run);
    var w := Exec(u, at, run).value;
    forall id | Wanted(u, w.o.db, id) ensures Present(u, w, id) {
      var t :| t in u.consumed && Key(id, t) in w.o.db.rows;
      SettledMeansStored(u, at, run, t, id);
    }
    TrueCopiesConverge(u, w);
  }
}
