/** The two projections of an event (internal/cstore/cstore.go, internal/search/search.go). */
module Projections {
  import opened Base
  import opened Messaging

  /** Cassandra timestamps have millisecond resolution. */
  function Millis(t: Time): int { t / 1000 }

  /** The UTC day of a time, as a day number; its text form is one-to-one. */
  function Day(t: Time): int { t / 86_400_000_000 }

  /** PRIMARY KEY ((day), created_at, id). */
  datatype DayKey = DayKey(day: int, createdMs: int, id: int)

  datatype Row = Row(text: string, checksum: string, producer: string, createdMs: int)

  datatype Document = Document(text: string, checksum: string, producer: string, createdAt: Time)

  datatype Stores = Stores(byDay: map<DayKey, Row>, byId: map<int, Row>, index: map<int, Document>)

  const NO_STORES: Stores := Stores(map[], map[], map[])

  function DayKeyOf(e: Event): DayKey { DayKey(Day(e.createdAt), Millis(e.createdAt), e.id) }

  function RowOf(e: Event, producer: string): Row { Row(e.text, e.checksum, producer, Millis(e.createdAt)) }

  function DocumentOf(e: Event, producer: string): Document { Document(e.text, e.checksum, producer, e.createdAt) }

  /** The logged batch of `Save`: both tables or neither. */
  function Saved(st: Stores, e: Event, producer: string): Stores {
    st.(byDay := st.byDay[DayKeyOf(e) := RowOf(e, producer)], byId := st.byId[e.id := RowOf(e, producer)])
  }

  /** `IndexMessage`: overwrite the document stored under the message's identifier. */
  function Indexed(st: Stores, e: Event, producer: string): Stores {
    st.(index := st.index[e.id := DocumentOf(e, producer)])
  }

  /** A write's fate: applied and confirmed, applied but reported as failed, or not applied. */
  datatype Fate = Confirmed | AppliedUnconfirmed | NotApplied

  /** An event with the broker it came through. */
  type Write = (Event, string)

  function SavedAll(st: Stores, ws: seq<Write>): Stores {
    if ws == [] then st else Saved(SavedAll(st, Init(ws)), Last(ws).0, Last(ws).1)
  }

  function IndexedAll(st: Stores, ws: seq<Write>): Stores {
    if ws == [] then st else Indexed(IndexedAll(st, Init(ws)), Last(ws).0, Last(ws).1)
  }

  /** Each write is for another message, or repeats this one. */
  predicate OthersOrRepeats(ws: seq<Write>, e: Event, producer: string) {
    forall x :: x in ws ==> x.0.id != e.id || x == (e, producer)
  }

  lemma {:induction false} WrittenStays(st: Stores, e: Event, producer: string, ws: seq<Write>)
    requires OthersOrRepeats(ws, e, producer)
    ensures var saved, indexed := SavedAll(Saved(st, e, producer), ws), IndexedAll(Indexed(st, e, producer), ws);
            && DayKeyOf(e) in saved.byDay && saved.byDay[DayKeyOf(e)] == RowOf(e, producer)
            && e.id in saved.byId && saved.byId[e.id] == RowOf(e, producer)
            && e.id in indexed.index && indexed.index[e.id] == DocumentOf(e, producer)
  {
    if ws != [] {
      assert Last(ws) in ws;
      WrittenStays(st, e, producer, Init(ws));
    }
  }

  /** A redelivered event leaves the stores as they were, however much was written for other messages meanwhile. */
  lemma DuplicatesCollapse(st: Stores, e: Event, producer: string, ws: seq<Write>)
    requires OthersOrRepeats(ws, e, producer)
    ensures var saved := SavedAll(Saved(st, e, producer), ws); Saved(saved, e, producer) == saved
    ensures var indexed := IndexedAll(Indexed(st, e, producer), ws); Indexed(indexed, e, producer) == indexed
  {
    WrittenStays(st, e, producer, ws);
    var saved, indexed := SavedAll(Saved(st, e, producer), ws), IndexedAll(Indexed(st, e, producer), ws);
    assert saved.byDay[DayKeyOf(e) := RowOf(e, producer)] == saved.byDay;
    assert saved.byId[e.id := RowOf(e, producer)] == saved.byId;
    assert indexed.index[e.id := DocumentOf(e, producer)] == indexed.index;
  }

  /** The document is written only after Cassandra confirmed. */
  predicate Reindexes(cassandra: bool, elastic: bool, save: Fate, index: Fate) {
    elastic && index != NotApplied && (cassandra ==> save == Confirmed)
  }

  function HandledStores(st: Stores, cassandra: bool, elastic: bool, e: Event, broker: string, save: Fate, index: Fate)
    : Stores
  {
    var s1 := if cassandra && save != NotApplied then Saved(st, e, broker) else st;
    if Reindexes(cassandra, elastic, save, index) then Indexed(s1, e, broker) else s1
  }

  /** Every configured write was confirmed. */
  predicate AllConfirmed(cassandra: bool, elastic: bool, save: Fate, index: Fate) {
    (cassandra ==> save == Confirmed) && (elastic ==> index == Confirmed)
  }

  /** The handler's two stores; either may be switched off. */
  class Handler {
    const cassandra: bool
    const elastic: bool
    const broker: string
    var stores: Stores

    constructor (cassandra: bool, elastic: bool, broker: string)
      ensures this.cassandra == cassandra && this.elastic == elastic && this.broker == broker && stores == NO_STORES
    {
      this.cassandra, this.elastic, this.broker, stores := cassandra, elastic, broker, NO_STORES;
    }

    /** The `handle` closure: Cassandra first, then the index; nil only when every configured write was confirmed. */
    method Handle(e: Event, save: Fate, index: Fate) returns (ok: bool)
      modifies this
      ensures ok <==> AllConfirmed(cassandra, elastic, save, index)
      ensures stores == HandledStores(old(stores), cassandra, elastic, e, broker, save, index)
      ensures ok && cassandra ==> e.id in stores.byId && stores.byId[e.id].text == e.text
      ensures ok && elastic ==> e.id in stores.index && stores.index[e.id].text == e.text
      ensures !cassandra || save == NotApplied ==> stores.byId == old(stores).byId && stores.byDay == old(stores).byDay
      ensures !elastic || (cassandra && save != Confirmed) || index == NotApplied ==> stores.index == old(stores).index
    {
      if cassandra {
        if save != NotApplied {
          stores := Saved(stores, e, broker);
        }
        if save != Confirmed {
          return false;
        }
      }
      if elastic {
        if index != NotApplied {
          stores := Indexed(stores, e, broker);
        }
        return index == Confirmed;
      }
      return true;
    }
  }
}
