/** The table `message_outbox` and its three statements (internal/storage/outbox.go). */
module OutboxTable {
  import opened Base
  import opened Messaging

  /** Lease tokens: random UUIDs, of which only equality matters. */
  type Token = nat

  datatype Key = Key(id: int, target: string)

  datatype Row = Row(payload: Event, createdAt: Time, availableAt: Time, token: Option<Token>, attempts: nat,
                     deliveredAt: Option<Time>)

  type Table = map<Key, Row>

  datatype Delivery = Delivery(id: int, target: string, token: Token, attempts: nat, event: Event) {
    function RowKey(): Key { Key(id, target) }
  }

  const MS: int := 1000 // microseconds per millisecond

  predicate Pending(t: Table, target: string, k: Key) {
    k in t && k.target == target && t[k].deliveredAt.None?
  }

  predicate Eligible(t: Table, target: string, now: Time, k: Key) {
    Pending(t, target, k) && t[k].availableAt <= now
  }

  /** ORDER BY available_at, message_id. */
  predicate Before(t: Table, a: Key, b: Key)
    requires a in t && b in t
  {
    t[a].availableAt < t[b].availableAt || (t[a].availableAt == t[b].availableAt && a.id <= b.id)
  }

  /** The row a claim picks: first among the eligible rows that no other transaction has locked. */
  ghost predicate Candidate(t: Table, target: string, now: Time, locked: set<Key>, k: Key) {
    && Eligible(t, target, now, k) && k !in locked
    && forall j :: Eligible(t, target, now, j) && j !in locked ==> Before(t, k, j)
  }

  function ClaimRow(r: Row, token: Token, now: Time, leaseMs: int): Row {
    r.(token := Some(token), availableAt := now + leaseMs * MS, attempts := r.attempts + 1)
  }

  function DeliveryOf(t: Table, k: Key, token: Token): Delivery
    requires k in t
  {
    Delivery(k.id, k.target, token, t[k].attempts + 1, t[k].payload)
  }

  /** WHERE message_id, target and lease_token match AND delivered_at IS NULL. */
  predicate Holds(t: Table, d: Delivery) {
    d.RowKey() in t && t[d.RowKey()].token == Some(d.token) && t[d.RowKey()].deliveredAt.None?
  }

  function Completed(t: Table, d: Delivery, now: Time): Table {
    if Holds(t, d) then t[d.RowKey() := t[d.RowKey()].(deliveredAt := Some(now), token := None)] else t
  }

  function Retried(t: Table, d: Delivery, now: Time, delayMs: int): Table {
    if Holds(t, d) then t[d.RowKey() := t[d.RowKey()].(availableAt := now + delayMs * MS, token := None)] else t
  }

  lemma {:induction false} FirstExists(t: Table, ks: set<Key>) returns (k: Key)
    requires ks != {} && ks <= t.Keys
    ensures k in ks && forall j :: j in ks ==> Before(t, k, j)
  {
    var x :| x in ks;
    if ks == {x} {
      k := x;
    } else {
      var rest := ks - {x};
      var y := FirstExists(t, rest);
      assert forall j :: j in ks ==> j == x || j in rest;
      k := if Before(t, x, y) then x else y;
    }
  }

  /** The table as the store object sees it; every method is one SQL statement. */
  class Outbox {
    var rows: Table

    constructor (t: Table)
      ensures rows == t
    {
      rows := t;
    }

    method Claim(target: string, token: Token, leaseMs: int, now: Time, locked: set<Key>) returns (d: Option<Delivery>)
      modifies this
      ensures d.None? <==> forall k :: Eligible(old(rows), target, now, k) ==> k in locked
      ensures d.None? ==> rows == old(rows)
      ensures d.Some? ==>
                var k := d.value.RowKey();
                && Candidate(old(rows), target, now, locked, k)
                && d.value == DeliveryOf(old(rows), k, token)
                && rows == old(rows)[k := ClaimRow(old(rows)[k], token, now, leaseMs)]
    {
      var free := set k | k in rows && Eligible(rows, target, now, k) && k !in locked;
      if free == {} {
        forall k | Eligible(rows, target, now, k) ensures k in locked {
          assert k !in free;
        }
        return None;
      }
      ghost var first := FirstExists(rows, free);
      assert first in free;
      var k :| k in free && forall j :: j in free ==> Before(rows, k, j);
      forall j | Eligible(rows, target, now, j) && j !in locked ensures Before(rows, k, j) {
        assert j in free;
      }
      d := Some(DeliveryOf(rows, k, token));
      rows := rows[k := ClaimRow(rows[k], token, now, leaseMs)];
    }

    method Complete(d: Delivery, now: Time) returns (leaseLost: bool)
      modifies this
      ensures rows == Completed(old(rows), d, now) && (leaseLost <==> !Holds(old(rows), d))
    {
      leaseLost := !Holds(rows, d);
      if !leaseLost {
        rows := rows[d.RowKey() := rows[d.RowKey()].(deliveredAt := Some(now), token := None)];
      }
    }

    method Retry(d: Delivery, delayMs: int, now: Time) returns (leaseLost: bool)
      modifies this
      ensures rows == Retried(old(rows), d, now, delayMs) && (leaseLost <==> !Holds(old(rows), d))
    {
      leaseLost := !Holds(rows, d);
      if !leaseLost {
        rows := rows[d.RowKey() := rows[d.RowKey()].(availableAt := now + delayMs * MS, token := None)];
      }
    }
  }
}
