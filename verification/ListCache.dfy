/**
  The message list and its cache (internal/handlers/handlers.go, internal/tcache/tcache.go). Times are milliseconds.

  The cache is a replicated cell: writes go to the leader and reach each copy later, in order, possibly with gaps; a
  read is answered by any copy. Requests overlap freely.
 */
module ListCache {
  import opened Base
  import opened Messaging

  const TTL: int := 10_000
  const PAGE: nat := 100

  /** The table `messages`, by identifier; a BIGSERIAL is never negative. */
  type Store = map<nat, Message>

  lemma {:induction false} GreatestExists(ids: set<nat>) returns (m: nat)
    requires ids != {}
    ensures m in ids && forall j :: j in ids ==> j <= m
  {
    var x :| x in ids;
    if ids == {x} {
      m := x;
    } else {
      var y := GreatestExists(ids - {x});
      assert forall j :: j in ids ==> j == x || j in ids - {x};
      m := if x < y then y else x;
    }
  }

  function Greatest(ids: set<nat>): (m: nat)
    requires ids != {}
    ensures m in ids && forall j :: j in ids ==> j <= m
  {
    assert exists m :: m in ids && forall j :: j in ids ==> j <= m by {
      var m := GreatestExists(ids);
    }
    var m :| m in ids && forall j :: j in ids ==> j <= m;
    m
  }

  /** The n greatest identifiers, greatest first. */
  function Top(ids: set<nat>, n: nat): seq<nat> {
    if n == 0 || ids == {} then [] else [Greatest(ids)] + Top(ids - {Greatest(ids)}, n - 1)
  }

  lemma {:induction false} TopWithin(ids: set<nat>, n: nat)
    ensures forall i :: 0 <= i < |Top(ids, n)| ==> Top(ids, n)[i] in ids
  {
    if n > 0 && ids != {} {
      TopWithin(ids - {Greatest(ids)}, n - 1);
    }
  }

  /** The top is as long as it can be, descends, and nothing left out is above anything in it. */
  lemma {:induction false} TopIsTheTop(ids: set<nat>, n: nat)
    ensures var top := Top(ids, n);
            && |top| == Min(n, |ids|)
            && (forall i :: 0 <= i < |top| ==> top[i] in ids)
            && (forall i, j :: 0 <= i < j < |top| ==> top[j] < top[i])
            && (forall x, i :: x in ids && x !in top && 0 <= i < |top| ==> x < top[i])
  {
    if n > 0 && ids != {} {
      TopIsTheTop(ids - {Greatest(ids)}, n - 1);
      TopWithin(ids - {Greatest(ids)}, n - 1);
    }
  }

  /** More identifiers leave the top as it was exactly when none of the new ones is in it. */
  lemma {:induction false} TopUnchangedIff(ids: set<nat>, more: set<nat>, n: nat)
    requires ids <= more
    ensures Top(ids, n) == Top(more, n) <==> forall x :: x in more && x !in ids ==> x !in Top(more, n)
  {
    TopWithin(ids, n);
    if n > 0 && more != {} {
      var m := Greatest(more);
      if m in ids {
        assert Greatest(ids) == m;
        TopUnchangedIff(ids - {m}, more - {m}, n - 1);
        TopWithin(more - {m}, n - 1);
      } else {
        assert Top(more, n)[0] == m;
      }
    }
  }

  /** SELECT ... ORDER BY id DESC LIMIT 100. */
  function Newest(store: Store): seq<Message> {
    TopWithin(store.Keys, PAGE);
    var top := Top(store.Keys, PAGE);
    seq(|top|, i requires 0 <= i < |top| => store[top[i]])
  }

  /** The greatest identifier left comes next. */
  lemma TopMoves(ids: seq<nat>, left: set<nat>, n: nat)
    requires left != {} && |ids| < n
    ensures var id := Greatest(left); ids + Top(left, n - |ids|) == ids + [id] + Top(left - {id}, n - |ids| - 1)
  {
  }

  lemma RowsAreNewest(store: Store, ids: seq<nat>, list: seq<Message>)
    requires ids == Top(store.Keys, PAGE) && |list| == |ids|
    requires forall i :: 0 <= i < |ids| ==> ids[i] in store && list[i] == store[ids[i]]
    ensures list == Newest(store)
  {
  }

  /** The list: min(100, stored) messages, newest first, and every message left out is older than all of them. */
  lemma NewestIsTheNewest(store: Store)
    requires Keyed(store)
    ensures var list := Newest(store);
            && |list| == Min(100, |store|)
            && (forall i :: 0 <= i < |list| ==> list[i] in store.Values)
            && (forall i, j :: 0 <= i < j < |list| ==> list[j].id < list[i].id)
            && (forall x, i :: x in store && store[x] !in list && 0 <= i < |list| ==> x < list[i].id)
  {
    TopIsTheTop(store.Keys, PAGE);
    assert |store.Keys| == |store|;
    var top, list := Top(store.Keys, PAGE), Newest(store);
    forall x | x in top ensures x in store && store[x] in list {
      var j :| 0 <= j < |top| && top[j] == x;
      assert list[j] == store[x];
    }
  }

  function Restrict(store: Store, ids: set<nat>): Store { map id | id in ids && id in store :: store[id] }

  predicate Keyed(store: Store) { forall id :: id in store ==> store[id].id == id }

  /** A message among the newest hundred. */
  predicate Visible(store: Store, id: nat) { id in Top(store.Keys, PAGE) }

  /** The list as of an earlier moment is still the list exactly when no later message is among the newest hundred. */
  lemma OldPageIsCurrentIff(store: Store, seen: set<nat>)
    requires Keyed(store) && seen <= store.Keys
    ensures Newest(Restrict(store, seen)) == Newest(store)
            <==> forall id :: id in store && id !in seen ==> !Visible(store, id)
  {
    var old_, now := Top(seen, PAGE), Top(store.Keys, PAGE);
    assert Restrict(store, seen).Keys == seen;
    TopWithin(seen, PAGE);
    TopWithin(store.Keys, PAGE);
    TopUnchangedIff(seen, store.Keys, PAGE);
    if Newest(Restrict(store, seen)) == Newest(store) {
      assert |old_| == |now|;
      forall i | 0 <= i < |old_| ensures old_[i] == now[i] {
        assert Newest(Restrict(store, seen))[i].id == old_[i] && Newest(store)[i].id == now[i];
      }
    }
  }

  // ----- Expiry -----

  /** `time.Unix`: whole seconds. */
  function Unix(ms: int): int { ms / 1000 }

  function ExpiryAt(now: int): int { Unix(now + TTL) }

  predicate Live(expires: int, now: int) { Unix(now) <= expires }

  /** An entry lives for its ten seconds, and for less than eleven. */
  lemma LifeOfAnEntry(s: int, t: int)
    ensures t <= s + 10_000 ==> Live(ExpiryAt(s), t)
    ensures Live(ExpiryAt(s), t) ==> t < s + 11_000
  {
  }

  // ----- Overlapping requests, failing and lagging cache operations -----

  /** A list read from the store: what it shows, when, and how many cache operations had been executed by then. */
  datatype Page = Page(list: seq<Message>, seen: set<nat>, readAt: int, readLen: nat)

  /** A page ready to be cached, with the moment its expiry was computed from. */
  datatype Tuple = Tuple(read: Page, at: int)

  /** What the leader executes; a Delete is marked with the message whose request issued it. */
  datatype Op = Put(t: Tuple) | Del(id: nat)

  /** A HIT: the copy that answered, the tuple it held, when, and the store at that moment. */
  datatype Served = Served(node: nat, t: Tuple, at: int, store: Store)

  datatype World = World(
    now: int,
    store: Store,
    since: map<nat, nat>,     // for each message, how many cache operations had been executed when it was committed
    asked: set<nat>,          // messages for which a Delete was issued
    pages: map<nat, Page>,    // lists read, by request
    tuples: map<nat, Tuple>,  // Sets issued, by request
    executed: seq<Op>,        // operations executed by the leader, in order
    cells: map<nat, nat>,     // for each copy, the latest operation it has applied
    served: seq<Served>)

  /**
    The steps: a creation commits, a request issues a Delete or reads the list or issues a Set; the leader executes a
    Set or a Delete, at once, late or never; a copy catches up; a copy answers a Get with a HIT.
   */
  datatype Action =
    | Commit(m: Message, at: int)
    | AskDelete(id: nat, at: int)
    | Read(r: nat, at: int)
    | AskSet(r: nat, at: int)
    | ExecSet(r: nat, at: int)
    | ExecDelete(id: nat, at: int)
    | Copy(node: nat, i: nat, at: int)
    | Serve(node: nat, at: int)

  function Cell(w: World, node: nat): Option<Tuple> {
    if node in w.cells && w.cells[node] < |w.executed| && w.executed[w.cells[node]].Put?
    then Some(w.executed[w.cells[node]].t) else None
  }

  /** `Get` on the copy finds a tuple that has not expired. */
  predicate Hit(w: World, node: nat, at: int) {
    Cell(w, node).Some? && Live(ExpiryAt(Cell(w, node).value.at), at)
  }

  predicate Enabled(w: World, a: Action) {
    && w.now <= a.at
    && match a
       case Commit(m, _) => m.id >= 0 && m.id !in w.store
       case AskDelete(id, _) => id in w.store
       case Read(_, _) => true
       case AskSet(r, _) => r in w.pages
       case ExecSet(r, _) => r in w.tuples
       case ExecDelete(id, _) => id in w.asked
       case Copy(node, i, _) => i < |w.executed| && (node in w.cells ==> w.cells[node] < i)
       case Serve(node, at) => Hit(w, node, at)
  }

  function Apply(w: World, a: Action): World
    requires Enabled(w, a)
  {
    match a
    case Commit(m, at) =>
      w.(now := at, store := w.store[m.id as nat := m], since := w.since[m.id as nat := |w.executed|])
    case AskDelete(id, at) => w.(now := at, asked := w.asked + {id})
    case Read(r, at) => w.(now := at, pages := w.pages[r := Page(Newest(w.store), w.store.Keys, at, |w.executed|)])
    case AskSet(r, at) => w.(now := at, tuples := w.tuples[r := Tuple(w.pages[r], at)])
    case ExecSet(r, at) => w.(now := at, executed := w.executed + [Put(w.tuples[r])])
    case ExecDelete(id, at) => w.(now := at, executed := w.executed + [Del(id)])
    case Copy(node, i, at) => w.(now := at, cells := w.cells[node := i])
    case Serve(node, at) => w.(now := at, served := w.served + [Served(node, Cell(w, node).value, at, w.store)])
  }

  function Start(at: int): World { World(at, map[], map[], {}, map[], map[], [], map[], []) }

  function Exec(start: int, run: seq<Action>): Option<World> {
    if run == [] then Some(Start(start))
    else
      var w := Exec(start, Init(run));
      if w.Some? && Enabled(w.value, Last(run)) then Some(Apply(w.value, Last(run))) else None
  }

  /** The page is the list of the store as it was when read; everything newer was committed after that. */
  ghost predicate PageInv(w: World, p: Page) {
    && p.seen <= w.store.Keys && p.list == Newest(Restrict(w.store, p.seen))
    && p.readAt <= w.now && p.readLen <= |w.executed|
    && (forall id :: id in w.store && id !in p.seen ==> id in w.since && p.readLen <= w.since[id])
  }

  ghost predicate TupleInv(w: World, t: Tuple) { PageInv(w, t.read) && t.read.readAt <= t.at <= w.now }

  /** What is known of a HIT when it is given. */
  ghost predicate ServedInv(executed: seq<Op>, x: Served) {
    && Keyed(x.store) && x.t.read.seen <= x.store.Keys && x.t.read.list == Newest(Restrict(x.store, x.t.read.seen))
    && x.t.read.readAt <= x.t.at <= x.at && Live(ExpiryAt(x.t.at), x.at) && Put(x.t) in executed
  }

  ghost predicate StoreInv(w: World) {
    && Keyed(w.store) && w.since.Keys == w.store.Keys && w.asked <= w.store.Keys
    && (forall id :: id in w.since ==> w.since[id] <= |w.executed|)
  }

  ghost predicate PagesInv(w: World) { forall r :: r in w.pages ==> PageInv(w, w.pages[r]) }

  ghost predicate TuplesInv(w: World) { forall r :: r in w.tuples ==> TupleInv(w, w.tuples[r]) }

  ghost predicate OpInv(w: World, i: nat)
    requires i < |w.executed|
  {
    match w.executed[i]
    case Put(t) => TupleInv(w, t) && t.read.readLen <= i
    case Del(id) => id in w.asked
  }

  ghost predicate OpsInv(w: World) { forall i :: 0 <= i < |w.executed| ==> OpInv(w, i) }

  ghost predicate HitsInv(w: World) { forall i :: 0 <= i < |w.served| ==> ServedInv(w.executed, w.served[i]) }

  ghost predicate Inv(w: World) { StoreInv(w) && PagesInv(w) && TuplesInv(w) && OpsInv(w) && HitsInv(w) }

  lemma PageKept(w: World, a: Action, p: Page)
    requires StoreInv(w) && PageInv(w, p) && Enabled(w, a)
    ensures PageInv(Apply(w, a), p)
  {
    var w' := Apply(w, a);
    assert Restrict(w'.store, p.seen) == Restrict(w.store, p.seen);
  }

  lemma PagesStep(w: World, a: Action)
    requires StoreInv(w) && PagesInv(w) && Enabled(w, a)
    ensures PagesInv(Apply(w, a))
  {
    var w' := Apply(w, a);
    assert Restrict(w.store, w.store.Keys) == w.store;
    forall r | r in w'.pages ensures PageInv(w', w'.pages[r]) {
      if r in w.pages && w'.pages[r] == w.pages[r] {
        PageKept(w, a, w.pages[r]);
      }
    }
  }

  lemma TuplesStep(w: World, a: Action)
    requires StoreInv(w) && PagesInv(w) && TuplesInv(w) && Enabled(w, a)
    ensures TuplesInv(Apply(w, a))
  {
    var w' := Apply(w, a);
    forall r | r in w'.tuples ensures TupleInv(w', w'.tuples[r]) {
      PageKept(w, a, w'.tuples[r].read);
    }
  }

  lemma OpsStep(w: World, a: Action)
    requires StoreInv(w) && TuplesInv(w) && OpsInv(w) && Enabled(w, a)
    ensures OpsInv(Apply(w, a))
  {
    var w' := Apply(w, a);
    forall i | 0 <= i < |w'.executed| ensures OpInv(w', i) {
      if i < |w.executed| {
        assert OpInv(w, i);
      }
      if w'.executed[i].Put? {
        PageKept(w, a, w'.executed[i].t.read);
      }
    }
  }

  lemma HitsStep(w: World, a: Action)
    requires StoreInv(w) && OpsInv(w) && HitsInv(w) && Enabled(w, a)
    ensures HitsInv(Apply(w, a))
  {
    var w' := Apply(w, a);
    forall i | 0 <= i < |w'.served| ensures ServedInv(w'.executed, w'.served[i]) {
      if i < |w.served| {
        assert ServedInv(w.executed, w.served[i]);
      } else {
        assert OpInv(w, w.cells[a.node]);
      }
    }
  }

  lemma InvStep(w: World, a: Action)
    requires Inv(w) && Enabled(w, a)
    ensures Inv(Apply(w, a))
  {
    PagesStep(w, a);
    TuplesStep(w, a);
    OpsStep(w, a);
    HitsStep(w, a);
  }

  lemma {:induction false} EveryRun(start: int, run: seq<Action>)
    requires Exec(start, run).Some?
    ensures Inv(Exec(start, run).value)
  {
    if run != [] {
      EveryRun(start, Init(run));
      InvStep(Exec(start, Init(run)).value, Last(run));
    }
  }

  /**
    Every HIT of every interleaving, from whichever copy: its tuple was written, with its expiry computed at some s with
    t < s + 11 s; its list is the one of the moment it was read; and it is the current list if and only if no message
    committed since that read is among the newest hundred.
   */
  lemma EveryHit(start: int, run: seq<Action>, i: nat)
    requires Exec(start, run).Some? && i < |Exec(start, run).value.served|
    ensures var x := Exec(start, run).value.served[i];
            && Put(x.t) in Exec(start, run).value.executed
            && x.t.read.readAt <= x.t.at <= x.at < x.t.at + 11_000
            && x.t.read.list == Newest(Restrict(x.store, x.t.read.seen))
            && (x.t.read.list == Newest(x.store)
                <==> forall id :: id in x.store && id !in x.t.read.seen ==> !Visible(x.store, id))
  {
    EveryRun(start, run);
    var x := Exec(start, run).value.served[i];
    assert ServedInv(Exec(start, run).value.executed, x);
    LifeOfAnEntry(x.t.at, x.at);
    OldPageIsCurrentIff(x.store, x.t.read.seen);
  }

  /** When commits come in the order of their identifiers: if and only if nothing was committed since that read. */
  lemma EveryHitInOrder(start: int, run: seq<Action>, i: nat)
    requires Exec(start, run).Some? && i < |Exec(start, run).value.served|
    requires var x := Exec(start, run).value.served[i];
             forall id, old_ :: id in x.store && id !in x.t.read.seen && old_ in x.t.read.seen ==> old_ < id
    ensures var x := Exec(start, run).value.served[i];
            x.t.read.list == Newest(x.store) <==> x.store.Keys == x.t.read.seen
  {
    EveryRun(start, run);
    EveryHit(start, run, i);
    var x := Exec(start, run).value.served[i];
    assert ServedInv(Exec(start, run).value.executed, x);
    if x.store.Keys != x.t.read.seen {
      var id :| id in x.store && id !in x.t.read.seen;
      var top := Greatest(x.store.Keys);
      assert top !in x.t.read.seen;
      assert Top(x.store.Keys, PAGE)[0] == top;
    }
  }

  /** Some Delete issued for the message was executed at a position from `lo` up to, excluding, `hi`. */
  ghost predicate ClearedWithin(w: World, id: nat, lo: nat, hi: nat) {
    exists q :: lo <= q < hi <= |w.executed| && w.executed[q] == Del(id)
  }

  /**
    A message missing from the list a copy shows was committed after that list was read, by the count of operations
    executed at either moment. Its Delete then is one of three: not executed since, executed before the list was
    written, or not yet applied by the copy.
   */
  lemma WhyAMessageIsMissing(start: int, run: seq<Action>, node: nat, at: int, id: nat)
    requires Exec(start, run).Some? && Hit(Exec(start, run).value, node, at)
    requires id in Exec(start, run).value.store && id !in Cell(Exec(start, run).value, node).value.read.seen
    ensures var w := Exec(start, run).value;
            var p := w.cells[node];
            && id in w.since && w.executed[p].t.read.readLen <= w.since[id]
            && (|| !ClearedWithin(w, id, w.since[id], |w.executed|)
                || ClearedWithin(w, id, w.since[id], p)
                || ClearedWithin(w, id, p + 1, |w.executed|))
  {
    EveryRun(start, run);
    var w := Exec(start, run).value;
    assert OpInv(w, w.cells[node]);
    if ClearedWithin(w, id, w.since[id], |w.executed|) {
      var q :| w.since[id] <= q < |w.executed| && w.executed[q] == Del(id);
      assert q != w.cells[node];
    }
  }

  /** The copy has applied everything, no operation came between a page's read and its write, no Delete is missing. */
  ghost predicate Calm(w: World, node: nat) {
    && (if node in w.cells then w.cells[node] + 1 == |w.executed| else w.executed == [])
    && (forall p :: 0 <= p < |w.executed| && w.executed[p].Put? ==> w.executed[p].t.read.readLen == p)
    && (forall id :: id in w.asked ==> id in w.since && ClearedWithin(w, id, w.since[id], |w.executed|))
  }

  /** Then only messages whose requests issued no Delete can be missing, and they alone can make a HIT stale. */
  lemma CalmHitIsCurrentIff(start: int, run: seq<Action>, node: nat, at: int)
    requires Exec(start, run).Some? && Hit(Exec(start, run).value, node, at) && Calm(Exec(start, run).value, node)
    ensures var w := Exec(start, run).value;
            var p := Cell(w, node).value.read;
            p.list == Newest(w.store)
            <==> forall id :: id in w.store && id !in p.seen && id !in w.asked ==> !Visible(w.store, id)
  {
    EveryRun(start, run);
    var w := Exec(start, run).value;
    var p := Cell(w, node).value.read;
    assert OpInv(w, w.cells[node]);
    forall id | id in w.store && id !in p.seen ensures id !in w.asked {
      WhyAMessageIsMissing(start, run, node, at, id);
    }
    OldPageIsCurrentIff(w.store, p.seen);
  }

  // ----- One request at a time, one copy, and no failing Delete -----

  /**
    A creation that answered with success, one that stored its message and issued no Delete (its reply was lost, or it
    came over gRPC), a repeated one that found its message, one that stored nothing; and a list request, with
    whether the Get, the store and the Set did their work.
   */
  datatype Request =
    | Created(m: Message, at: int)
    | CreatedSilently(m: Message, at: int)
    | Found(id: nat, at: int)
    | NotCreated(at: int)
    | Listed(reached: bool, answered: bool, written: bool, at: int)

  predicate MayCome(w: World, q: Request) {
    && w.now <= q.at
    && (q.Created? || q.CreatedSilently? ==> q.m.id >= 0 && q.m.id !in w.store)
    && (q.Found? ==> q.id in w.store)
  }

  function Clearing(w: World, id: nat, at: int): seq<Action> {
    [AskDelete(id, at), ExecDelete(id, at), Copy(0, |w.executed|, at)]
  }

  function Filling(w: World, at: int): seq<Action> {
    [Read(0, at), AskSet(0, at), ExecSet(0, at), Copy(0, |w.executed|, at)]
  }

  /** What a request does when nothing else happens meanwhile; copy 0 applies each operation at once. */
  function StepsOf(w: World, q: Request): seq<Action>
    requires MayCome(w, q)
  {
    match q
    case Created(m, at) => [Commit(m, at)] + Clearing(w, m.id as nat, at)
    case CreatedSilently(m, at) => [Commit(m, at)]
    case Found(id, at) => Clearing(w, id, at)
    case NotCreated(_) => []
    case Listed(reached, answered, written, at) =>
      if reached && Hit(w, 0, at) then [Serve(0, at)]
      else if !answered then []
      else if !written then [Read(0, at)]
      else Filling(w, at)
  }

  /** The run made by requests one at a time. */
  function RunOf(start: int, qs: seq<Request>): Option<seq<Action>> {
    if qs == [] then Some([])
    else
      var run := RunOf(start, Init(qs));
      if run.Some? && Exec(start, run.value).Some? && MayCome(Exec(start, run.value).value, Last(qs))
      then Some(run.value + StepsOf(Exec(start, run.value).value, Last(qs))) else None
  }

  ghost predicate CalmRun(start: int, run: seq<Action>) {
    Exec(start, run).Some? && Calm(Exec(start, run).value, 0)
  }

  lemma OneMore(start: int, run: seq<Action>, a: Action)
    requires Exec(start, run).Some? && Enabled(Exec(start, run).value, a)
    ensures Exec(start, run + [a]) == Some(Apply(Exec(start, run).value, a))
  {
    InitLast(run, a);
  }

  lemma StillCleared(w: World, w': World, id: nat, lo: nat)
    requires ClearedWithin(w, id, lo, |w.executed|) && w.executed <= w'.executed
    ensures ClearedWithin(w', id, lo, |w'.executed|)
  {
    var q :| lo <= q < |w.executed| && w.executed[q] == Del(id);
    assert w'.executed[q] == Del(id);
  }

  /** An operation executed and applied by the copy at once. */
  lemma CalmWith(w: World, w': World, op: Op)
    requires Calm(w, 0) && w'.executed == w.executed + [op] && w'.since == w.since
    requires 0 in w'.cells && w'.cells[0] == |w.executed|
    requires op.Put? ==> w'.asked == w.asked && op.t.read.readLen == |w.executed|
    requires op.Del? ==> w'.asked == w.asked + {op.id} && op.id in w.since && w.since[op.id] <= |w.executed|
    ensures Calm(w', 0)
  {
    forall id | id in w'.asked ensures id in w'.since && ClearedWithin(w', id, w'.since[id], |w'.executed|) {
      if id in w.asked {
        StillCleared(w, w', id, w.since[id]);
      } else {
        assert w'.executed[|w.executed|] == Del(id);
      }
    }
  }

  lemma ClearingStaysCalm(start: int, run: seq<Action>, id: nat, at: int)
    requires CalmRun(start, run) && Exec(start, run).value.now <= at && id in Exec(start, run).value.store
    ensures CalmRun(start, run + Clearing(Exec(start, run).value, id, at))
  {
    EveryRun(start, run);
    var w := Exec(start, run).value;
    var a, b, c := AskDelete(id, at), ExecDelete(id, at), Copy(0, |w.executed|, at);
    OneMore(start, run, a);
    OneMore(start, run + [a], b);
    OneMore(start, run + [a] + [b], c);
    assert run + [a] + [b] + [c] == run + Clearing(w, id, at);
    CalmWith(w, Exec(start, run + [a] + [b] + [c]).value, Del(id));
  }

  /** The steps that execute no operation and issue no Delete. */
  lemma RestStaysCalm(start: int, run: seq<Action>, a: Action)
    requires CalmRun(start, run) && Enabled(Exec(start, run).value, a)
    requires a.Read? || a.AskSet? || a.Serve? || a.Commit?
    ensures CalmRun(start, run + [a])
  {
    OneMore(start, run, a);
    EveryRun(start, run);
    var w, w' := Exec(start, run).value, Exec(start, run + [a]).value;
    forall x | x in w'.asked ensures x in w'.since && ClearedWithin(w', x, w'.since[x], |w'.executed|) {
      StillCleared(w, w', x, w.since[x]);
    }
  }

  /** A page read and not overtaken is written. */
  lemma WritingStaysCalm(start: int, run: seq<Action>, at: int)
    requires CalmRun(start, run) && Exec(start, run).value.now <= at && 0 in Exec(start, run).value.tuples
    requires var w := Exec(start, run).value; w.tuples[0].read.readLen == |w.executed|
    ensures CalmRun(start, run + [ExecSet(0, at)] + [Copy(0, |Exec(start, run).value.executed|, at)])
  {
    var w := Exec(start, run).value;
    var a, b := ExecSet(0, at), Copy(0, |w.executed|, at);
    OneMore(start, run, a);
    OneMore(start, run + [a], b);
    CalmWith(w, Exec(start, run + [a] + [b]).value, Put(w.tuples[0]));
  }

  /** A page is read and its Set issued. */
  lemma AskingStaysCalm(start: int, run: seq<Action>, at: int)
    requires CalmRun(start, run) && Exec(start, run).value.now <= at
    ensures CalmRun(start, run + [Read(0, at)] + [AskSet(0, at)])
    ensures var w, w' := Exec(start, run).value, Exec(start, run + [Read(0, at)] + [AskSet(0, at)]).value;
            && w'.now == at && w'.executed == w.executed
            && 0 in w'.tuples && w'.tuples[0].read.readLen == |w.executed|
  {
    var a, b := Read(0, at), AskSet(0, at);
    OneMore(start, run, a);
    RestStaysCalm(start, run, a);
    OneMore(start, run + [a], b);
    RestStaysCalm(start, run + [a], b);
  }

  lemma FillingSplits(w: World, run: seq<Action>, at: int)
    ensures run + Filling(w, at)
            == run + [Read(0, at)] + [AskSet(0, at)] + [ExecSet(0, at)] + [Copy(0, |w.executed|, at)]
  {
  }

  lemma FillingStaysCalm(start: int, run: seq<Action>, at: int)
    requires CalmRun(start, run) && Exec(start, run).value.now <= at
    ensures CalmRun(start, run + Filling(Exec(start, run).value, at))
  {
    var w := Exec(start, run).value;
    AskingStaysCalm(start, run, at);
    WritingStaysCalm(start, run + [Read(0, at)] + [AskSet(0, at)], at);
    FillingSplits(w, run, at);
  }

  lemma CreatedStaysCalm(start: int, run: seq<Action>, q: Request)
    requires CalmRun(start, run) && MayCome(Exec(start, run).value, q) && q.Created?
    ensures CalmRun(start, run + StepsOf(Exec(start, run).value, q))
  {
    var w := Exec(start, run).value;
    var a := Commit(q.m, q.at);
    OneMore(start, run, a);
    RestStaysCalm(start, run, a);
    var w1 := Exec(start, run + [a]).value;
    ClearingStaysCalm(start, run + [a], q.m.id as nat, q.at);
    assert run + [a] + Clearing(w1, q.m.id as nat, q.at) == run + StepsOf(w, q);
  }

  lemma RequestStaysCalm(start: int, run: seq<Action>, q: Request)
    requires CalmRun(start, run) && MayCome(Exec(start, run).value, q)
    ensures CalmRun(start, run + StepsOf(Exec(start, run).value, q))
  {
    var w := Exec(start, run).value;
    assert run + [] == run;
    match q
    case Created(_, _) => CreatedStaysCalm(start, run, q);
    case CreatedSilently(m, at) => RestStaysCalm(start, run, Commit(m, at));
    case Found(id, at) => ClearingStaysCalm(start, run, id, at);
    case NotCreated(_) =>
    case Listed(reached, answered, written, at) =>
      if reached && Hit(w, 0, at) {
        RestStaysCalm(start, run, Serve(0, at));
      } else if answered && written {
        FillingStaysCalm(start, run, at);
      } else if answered {
        RestStaysCalm(start, run, Read(0, at));
      }
  }

  lemma {:induction false} OneAtATimeIsCalm(start: int, qs: seq<Request>)
    requires RunOf(start, qs).Some?
    ensures CalmRun(start, RunOf(start, qs).value)
  {
    if qs != [] {
      OneAtATimeIsCalm(start, Init(qs));
      RequestStaysCalm(start, RunOf(start, Init(qs)).value, Last(qs));
    }
  }

  /**
    One request at a time, one copy, no Delete failing: a HIT is the current list if and only if no visible message was
    stored since its read by a request that issued no Delete.
   */
  lemma OneAtATimeHitIsCurrentIff(start: int, qs: seq<Request>, at: int)
    requires RunOf(start, qs).Some? && Exec(start, RunOf(start, qs).value).Some?
    requires Hit(Exec(start, RunOf(start, qs).value).value, 0, at)
    ensures var w := Exec(start, RunOf(start, qs).value).value;
            var p := Cell(w, 0).value.read;
            p.list == Newest(w.store)
            <==> forall id :: id in w.store && id !in p.seen && id !in w.asked ==> !Visible(w.store, id)
  {
    OneAtATimeIsCalm(start, qs);
    CalmHitIsCurrentIff(start, RunOf(start, qs).value, 0, at);
  }

  lemma {:induction false} AskedGrows(start: int, run: seq<Action>, more: seq<Action>, id: nat)
    requires Exec(start, run).Some? && Exec(start, run + more).Some?
    requires id in Exec(start, run).value.asked || exists a :: a in more && a.AskDelete? && a.id == id
    ensures id in Exec(start, run + more).value.asked
  {
    if more == [] {
      assert run + more == run;
    } else {
      assert Init(run + more) == run + Init(more) && Last(run + more) == Last(more);
      if !(Last(more).AskDelete? && Last(more).id == id) {
        assert forall a :: a in more ==> a in Init(more) || a == Last(more);
        AskedGrows(start, run, Init(more), id);
      }
    }
  }

  lemma {:induction false} StoreGrows(start: int, run: seq<Action>, more: seq<Action>, id: nat)
    requires Exec(start, run).Some? && Exec(start, run + more).Some? && id in Exec(start, run + more).value.store
    ensures id in Exec(start, run).value.store || exists a :: a in more && a.Commit? && a.m.id == id
  {
    if more == [] {
      assert run + more == run;
    } else {
      assert Init(run + more) == run + Init(more) && Last(run + more) == Last(more) && Last(more) in more;
      if id in Exec(start, run + Init(more)).value.store {
        StoreGrows(start, run, Init(more), id);
        assert forall a :: a in Init(more) ==> a in more;
      }
    }
  }

  /** The only message a request commits is the one it then issues a Delete for. */
  lemma CommitsAreAsked(w: World, q: Request)
    requires MayCome(w, q) && !q.CreatedSilently?
    ensures forall a :: a in StepsOf(w, q) && a.Commit? ==>
              q.Created? && a.m == q.m && AskDelete(q.m.id as nat, q.at) in StepsOf(w, q)
  {
    if q.Created? {
      assert StepsOf(w, q)[1] == AskDelete(q.m.id as nat, q.at);
    }
  }

  lemma KeysStayAsked(start: int, run: seq<Action>, q: Request)
    requires Exec(start, run).Some? && MayCome(Exec(start, run).value, q) && !q.CreatedSilently?
    requires Exec(start, run).value.store.Keys <= Exec(start, run).value.asked
    requires Exec(start, run + StepsOf(Exec(start, run).value, q)).Some?
    ensures var w' := Exec(start, run + StepsOf(Exec(start, run).value, q)).value; w'.store.Keys <= w'.asked
  {
    var w, steps := Exec(start, run).value, StepsOf(Exec(start, run).value, q);
    CommitsAreAsked(w, q);
    forall id | id in Exec(start, run + steps).value.store ensures id in Exec(start, run + steps).value.asked {
      if id !in w.store {
        StoreGrows(start, run, steps, id);
        var a :| a in steps && a.Commit? && a.m.id == id;
        assert AskDelete(id, q.at) in steps;
      }
      AskedGrows(start, run, steps, id);
    }
  }

  lemma {:induction false} NothingSilent(start: int, qs: seq<Request>)
    requires RunOf(start, qs).Some? && forall q :: q in qs ==> !q.CreatedSilently?
    ensures CalmRun(start, RunOf(start, qs).value)
    ensures var w := Exec(start, RunOf(start, qs).value).value; w.store.Keys <= w.asked
  {
    OneAtATimeIsCalm(start, qs);
    if qs != [] {
      assert Last(qs) in qs && forall q :: q in Init(qs) ==> q in qs;
      NothingSilent(start, Init(qs));
      KeysStayAsked(start, RunOf(start, Init(qs)).value, Last(qs));
    }
  }

  /** With no creation that stores its message silently, every HIT is the current list. */
  lemma OneAtATimeAgrees(start: int, qs: seq<Request>, at: int)
    requires RunOf(start, qs).Some? && forall q :: q in qs ==> !q.CreatedSilently?
    requires Exec(start, RunOf(start, qs).value).Some? && Hit(Exec(start, RunOf(start, qs).value).value, 0, at)
    ensures var w := Exec(start, RunOf(start, qs).value).value; Cell(w, 0).value.read.list == Newest(w.store)
  {
    NothingSilent(start, qs);
    OneAtATimeHitIsCurrentIff(start, qs, at);
  }

  // ----- The four ways to serve an old list -----

  predicate EndsStale(start: int, run: seq<Action>) {
    && Exec(start, run).Some? && Exec(start, run).value.served != []
    && Last(Exec(start, run).value.served).t.read.list != Newest(Last(Exec(start, run).value.served).store)
  }

  /** Serving, at copy `node`, the empty list although the store holds one message. */
  lemma ServesOld(start: int, run: seq<Action>, node: nat, m: Message, at: int)
    requires Exec(start, run).Some? && m.id >= 0
    requires var w := Exec(start, run).value;
             w.now <= at && w.store == map[m.id as nat := m] && Hit(w, node, at) && Cell(w, node).value.read.list == []
    ensures EndsStale(start, run + [Serve(node, at)])
  {
    OneMore(start, run, Serve(node, at));
    var w := Exec(start, run).value;
    assert m.id as nat in w.store.Keys;
    assert Newest(w.store) != [];
    assert Last(w.served + [Served(node, Cell(w, node).value, at, w.store)]).store == w.store;
  }

  /** Copies 0 and 1 hold the empty list. */
  const FILLED: seq<Action> := [Read(0, 0), AskSet(0, 0), ExecSet(0, 0), Copy(0, 0, 0), Copy(1, 0, 0)]

  const EMPTY_TUPLE: Tuple := Tuple(Page([], {}, 0, 0), 0)

  lemma Filled()
    ensures Exec(0, FILLED) == Some(World(0, map[], map[], {}, map[0 := EMPTY_TUPLE.read], map[0 := EMPTY_TUPLE],
                                          [Put(EMPTY_TUPLE)], map[0 := 0, 1 := 0], []))
  {
    var a, b, c, d, e := Read(0, 0), AskSet(0, 0), ExecSet(0, 0), Copy(0, 0, 0), Copy(1, 0, 0);
    var p, t := EMPTY_TUPLE.read, EMPTY_TUPLE;
    assert [] + [a] == [a] && Newest(map[]) == [];
    OneMore(0, [], a);
    assert Exec(0, [a]) == Some(World(0, map[], map[], {}, map[0 := p], map[], [], map[], []));
    OneMore(0, [a], b);
    OneMore(0, [a] + [b], c);
    OneMore(0, [a] + [b] + [c], d);
    OneMore(0, [a] + [b] + [c] + [d], e);
    assert [a] + [b] + [c] + [d] + [e] == FILLED;
    var w := Exec(0, FILLED).value;
    assert w.pages == map[0 := p] && w.tuples == map[0 := t];
    assert w.executed == [Put(t)] && w.cells == map[0 := 0, 1 := 0];
  }

  /** The reply to the commit was lost, so no Delete was issued; or it was issued and failed. */
  lemma LostReplyServesOldList(m: Message)
    requires m.id >= 0
    ensures EndsStale(0, FILLED + [Commit(m, 1)] + [Serve(0, 2)])
    ensures EndsStale(0, FILLED + [Commit(m, 1)] + [AskDelete(m.id as nat, 1)] + [Serve(0, 2)])
  {
    Filled();
    var run := FILLED + [Commit(m, 1)];
    OneMore(0, FILLED, Commit(m, 1));
    OneMore(0, run, AskDelete(m.id as nat, 1));
    ServesOld(0, run, 0, m, 2);
    ServesOld(0, run + [AskDelete(m.id as nat, 1)], 0, m, 2);
  }

  /** Nothing failed and nothing overlapped: the Delete reached copy 0 and not yet copy 1. */
  lemma LaggingCopyServesOldList(m: Message)
    requires m.id >= 0
    ensures EndsStale(0, FILLED + [Commit(m, 1)] + [AskDelete(m.id as nat, 1)] + [ExecDelete(m.id as nat, 1)]
                         + [Copy(0, 1, 1)] + [Serve(1, 2)])
  {
    Filled();
    var run1 := FILLED + [Commit(m, 1)];
    var run2 := run1 + [AskDelete(m.id as nat, 1)];
    var run3 := run2 + [ExecDelete(m.id as nat, 1)];
    OneMore(0, FILLED, Commit(m, 1));
    OneMore(0, run1, AskDelete(m.id as nat, 1));
    OneMore(0, run2, ExecDelete(m.id as nat, 1));
    OneMore(0, run3, Copy(0, 1, 1));
    ServesOld(0, run3 + [Copy(0, 1, 1)], 1, m, 2);
  }

  /** A list was read, then a creation committed and cleared the cache. */
  lemma Overtaken(m: Message)
    requires m.id >= 0
    ensures Exec(0, [Read(0, 0)] + [Commit(m, 1)] + [AskDelete(m.id as nat, 1)] + [ExecDelete(m.id as nat, 1)])
            == Some(World(1, map[m.id as nat := m], map[m.id as nat := 0], {m.id as nat},
                          map[0 := EMPTY_TUPLE.read], map[], [Del(m.id as nat)], map[], []))
  {
    var id := m.id as nat;
    var run1 := [Read(0, 0)] + [Commit(m, 1)];
    assert [] + [Read(0, 0)] == [Read(0, 0)] && Newest(map[]) == [];
    OneMore(0, [], Read(0, 0));
    OneMore(0, [Read(0, 0)], Commit(m, 1));
    OneMore(0, run1, AskDelete(id, 1));
    OneMore(0, run1 + [AskDelete(id, 1)], ExecDelete(id, 1));
    var w := Exec(0, run1 + [AskDelete(id, 1)] + [ExecDelete(id, 1)]).value;
    assert w.store == map[id := m] && w.since == map[id := 0] && w.asked == {id};
    assert w.pages == map[0 := EMPTY_TUPLE.read] && w.executed == [Del(id)];
  }

  /** The creation commits and clears the cache while a list request is between its read and its write. */
  lemma OverlapServesOldList(m: Message)
    requires m.id >= 0
    ensures EndsStale(0, [Read(0, 0)] + [Commit(m, 1)] + [AskDelete(m.id as nat, 1)] + [ExecDelete(m.id as nat, 1)]
                         + [AskSet(0, 1)] + [ExecSet(0, 1)] + [Copy(0, 1, 1)] + [Serve(0, 2)])
  {
    var run := [Read(0, 0)] + [Commit(m, 1)] + [AskDelete(m.id as nat, 1)] + [ExecDelete(m.id as nat, 1)];
    Overtaken(m);
    OneMore(0, run, AskSet(0, 1));
    OneMore(0, run + [AskSet(0, 1)], ExecSet(0, 1));
    OneMore(0, run + [AskSet(0, 1)] + [ExecSet(0, 1)], Copy(0, 1, 1));
    ServesOld(0, run + [AskSet(0, 1)] + [ExecSet(0, 1)] + [Copy(0, 1, 1)], 0, m, 2);
  }

  // ----- The handlers -----

  /** How `store.Create` ended for `createMessage`. */
  datatype Outcome =
    | Inserted(m: Message)
    | AlreadyThere(id: nat)
    | StoredUnheard(m: Message)
    | NothingStored

  /** The others can take these steps, one after the other. */
  ghost predicate Possible(start: int, run: seq<Action>, r: nat, steps: seq<Action>) {
    && (forall a :: a in steps ==> a != Read(r, a.at) && a != AskSet(r, a.at))
    && (forall i :: 0 <= i <= |steps| ==> Exec(start, run + steps[..i]).Some?)
  }

  lemma NotPossible(start: int, run: seq<Action>, r: nat, steps: seq<Action>, i: nat, w: World)
    requires i < |steps|
    requires var a := steps[i]; a == Read(r, a.at) || a == AskSet(r, a.at) || !Enabled(w, a)
    requires Possible(start, run, r, steps) ==> Exec(start, run + steps[..i]) == Some(w)
    ensures !Possible(start, run, r, steps)
  {
    assert run + steps[..i + 1] == run + steps[..i] + [steps[i]];
    InitLast(run + steps[..i], steps[i]);
  }

  /** Everyone's shared state, as one run of the steps above. */
  class Site {
    const start: int
    var w: World
    ghost var run: seq<Action>

    ghost predicate Valid()
      reads this
    {
      Exec(start, run) == Some(w)
    }

    constructor (start: int)
      ensures Valid() && w == Start(start) && run == []
    {
      this.start, w, run := start, Start(start), [];
    }

    method Do(a: Action)
      requires Valid() && Enabled(w, a)
      modifies this
      ensures Valid() && w == Apply(old(w), a) && run == old(run) + [a]
    {
      InitLast(run, a);
      w := Apply(w, a);
      run := run + [a];
    }

    /** Everything else: other requests, the leader, the copies. Only request r itself reads and issues its Set. */
    method Meanwhile(r: nat, steps: seq<Action>) returns (ghost taken: seq<Action>)
      requires Valid()
      modifies this
      ensures Valid() && run == old(run) + taken && old(w).now <= w.now && old(w).store.Keys <= w.store.Keys
      ensures forall a :: a in taken ==> a in steps && a != Read(r, a.at) && a != AskSet(r, a.at)
      ensures Possible(start, old(run), r, steps) ==> taken == steps
      ensures r in old(w).pages ==> r in w.pages && w.pages[r] == old(w).pages[r]
      ensures r in old(w).tuples ==> r in w.tuples && w.tuples[r] == old(w).tuples[r]
    {
      taken := [];
      for n := 0 to |steps|
        invariant Valid() && run == old(run) + taken && old(w).now <= w.now && old(w).store.Keys <= w.store.Keys
        invariant forall a :: a in taken ==> a in steps && a != Read(r, a.at) && a != AskSet(r, a.at)
        invariant Possible(start, old(run), r, steps) ==> taken == steps[..n]
        invariant r in old(w).pages ==> r in w.pages && w.pages[r] == old(w).pages[r]
        invariant r in old(w).tuples ==> r in w.tuples && w.tuples[r] == old(w).tuples[r]
      {
        var a := steps[n];
        assert steps[..n + 1] == steps[..n] + [a];
        if a != Read(r, a.at) && a != AskSet(r, a.at) && Enabled(w, a) {
          Do(a);
          taken := taken + [a];
        } else {
          NotPossible(start, old(run), r, steps, n, w);
        }
      }
      assert steps[..|steps|] == steps;
    }

    /** `createMessage`: a Delete is issued after a successful answer of the store, and only then. */
    method CreateMessage(r: nat, o: Outcome, others: seq<Action>)
      returns (ok: bool, ghost taken: seq<Action>)
      requires Valid()
      requires o.Inserted? || o.StoredUnheard? ==> o.m.id >= 0 && o.m.id !in w.store
      requires o.AlreadyThere? ==> o.id in w.store
      modifies this
      ensures Valid() && (ok <==> o.Inserted? || o.AlreadyThere?)
      ensures var commit := if o.Inserted? || o.StoredUnheard? then [Commit(o.m, old(w).now)] else [];
              var ask := if o.Inserted? then [AskDelete(o.m.id as nat, w.now)]
                         else if o.AlreadyThere? then [AskDelete(o.id, w.now)] else [];
              run == old(run) + commit + taken + ask
      ensures forall a :: a in taken ==> a in others
    {
      if o.Inserted? || o.StoredUnheard? {
        Do(Commit(o.m, w.now));
      }
      taken := Meanwhile(r, others);
      ok := o.Inserted? || o.AlreadyThere?;
      if ok {
        Do(AskDelete(if o.Inserted? then o.m.id as nat else o.id, w.now));
      }
    }

    /** `List`: the rows in the order of the query. */
    method List() returns (list: seq<Message>)
      ensures list == Newest(w.store)
    {
      list := [];
      var left := w.store.Keys;
      ghost var ids: seq<nat> := [];
      while left != {} && |list| < PAGE
        invariant left <= w.store.Keys && |ids| == |list| <= PAGE
        invariant ids + Top(left, PAGE - |ids|) == Top(w.store.Keys, PAGE)
        invariant forall i :: 0 <= i < |ids| ==> ids[i] in w.store && list[i] == w.store[ids[i]]
        decreases left
      {
        var id := Greatest(left);
        TopMoves(ids, left, PAGE);
        list, left, ids := list + [w.store[id]], left - {id}, ids + [id];
      }
      RowsAreNewest(w.store, ids, list);
    }

    /**
      `listMessages`. The Get is answered by copy `node`, or by none when it fails; the Set may be executed at once,
      later or never. A HIT is the tuple of the copy that answered; a MISS is the list of the store at the moment of the
      read.
     */
    method ListMessages(r: nat, node: Option<nat>, answered: bool,
                        first: seq<Action>, second: seq<Action>, third: seq<Action>)
      returns (hit: bool, reply: Option<seq<Message>>, ghost a: seq<Action>, ghost b: seq<Action>, ghost c: seq<Action>)
      requires Valid()
      modifies this
      ensures Valid() && (hit <==> node.Some? && Hit(old(w), node.value, old(w).now))
      ensures hit ==> run == old(run) + [Serve(node.value, old(w).now)]
                      && reply == Some(Last(w.served).t.read.list) && Last(w.served).store == old(w).store
      ensures !hit && !answered ==> run == old(run) + a && reply == None
      ensures !hit && Possible(start, old(run), r, first) ==> a == first
      ensures !hit && answered ==>
                && Exec(start, old(run) + a).Some?
                && var read := Exec(start, old(run) + a).value;
                && reply == Some(Newest(read.store))
                && r in w.tuples
                && w.tuples[r].read == Page(Newest(read.store), read.store.Keys, read.now, |read.executed|)
                && exists t :: run == old(run) + a + [Read(r, read.now)] + b + [AskSet(r, t)] + c
    {
      hit, reply, a, b, c := false, None, [], [], [];
      if node.Some? && Hit(w, node.value, w.now) {
        hit, reply := true, Some(Cell(w, node.value).value.read.list);
        Do(Serve(node.value, w.now));
        return;
      }
      a := Meanwhile(r, first);
      if !answered {
        return;
      }
      var list := List();
      reply := Some(list);
      Do(Read(r, w.now));
      b := Meanwhile(r, second);
      Do(AskSet(r, w.now));
      c := Meanwhile(r, third);
    }
  }
}
