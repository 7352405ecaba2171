/** The per-table row buffer of the rebuild, and the loop that fills and flushes it. */
module RowBuffer {
  import opened Basics
  import opened CanonicalTables

  const ALL: set<Table> := set t | t in Order()

  lemma AllTables(t: Table)
    ensures t in ALL
  {
    OrderFollowsKeys(t);
  }

  /** A buffer seen as a total map: a table without an entry has no rows. */
  function Full(m: Store): Store {
    map t | t in ALL :: if t in m then m[t] else []
  }

  lemma FullIsTotal(m: Store)
    ensures Total(Full(m))
    ensures forall t :: Full(m)[t] == if t in m then m[t] else []
  {
    forall t ensures t in Full(m) { AllTables(t); }
  }

  class Connection {
    var store: Store

    ghost predicate Valid() reads this { Total(store) }

    constructor (store: Store)
      requires Total(store)
      ensures this.store == store && Valid()
    {
      this.store := store;
    }

    /** One INSERT of at most 500 rows; on an error the enclosing transaction is lost. */
    method Insert(t: Table, chunk: seq<Row>) returns (ok: bool)
      requires Valid()
      modifies this
      ensures Valid()
      ensures ok <==> Execute(old(store), t, chunk).Done?
      ensures ok ==> store == Execute(old(store), t, chunk).store
    {
      if IsUpserted(t) && exists i, j :: 0 <= i < j < |chunk| && chunk[i].id == chunk[j].id { return false; }
      var after := Put(t, store[t], chunk);
      store := store[t := after];
      return forall r :: r in chunk && r in after ==> KeysHold(store, r);
    }
  }

  class Rows {
    var pending: Store

    constructor ()
      ensures pending == map[]
    {
      pending := map[];
    }

    method Add(r: Row)
      modifies this
      ensures pending == old(pending)[r.table := (if r.table in old(pending) then old(pending)[r.table] else []) + [r]]
    {
      pending := pending[r.table := (if r.table in pending then pending[r.table] else []) + [r]];
    }

    /** The rows of one table, at most 500 a statement. */
    method InsertChunks(conn: Connection, t: Table, rows: seq<Row>) returns (ok: bool)
      requires conn.Valid()
      modifies conn
      ensures conn.Valid()
      ensures ok <==> ExecuteChunks(old(conn.store), t, rows, 0).Done?
      ensures ok ==> conn.store == ExecuteChunks(old(conn.store), t, rows, 0).store
    {
      hide Execute;
      ghost var target := ExecuteChunks(conn.store, t, rows, 0);
      var offset := 0;
      while offset < |rows|
        invariant 0 <= offset <= |rows| && conn.Valid()
        invariant ExecuteChunks(conn.store, t, rows, offset) == target
      {
        var end := if offset + CHUNK <= |rows| then offset + CHUNK else |rows|;
        var inserted := conn.Insert(t, rows[offset..end]);
        if !inserted { return false; }
        offset := end;
      }
      return true;
    }

    /** Popping one table and inserting its batch. */
    method FlushTable(conn: Connection, t: Table) returns (ok: bool)
      requires conn.Valid() && t in Full(pending)
      modifies this, conn
      ensures conn.Valid() && pending == old(pending) - {t}
      ensures ok <==> ExecuteChunks(old(conn.store), t, Batch(t, Full(old(pending))[t]), 0).Done?
      ensures ok ==> conn.store == ExecuteChunks(old(conn.store), t, Batch(t, Full(old(pending))[t]), 0).store
    {
      hide ExecuteChunks, LastPerId;
      var rows := if t in pending then pending[t] else [];
      pending := pending - {t};
      if IsUpserted(t) { rows := LastPerId(rows); }
      ok := InsertChunks(conn, t, rows);
    }

    /** Flushing pops every table in foreign-key order; a completed flush leaves the buffer
        empty and in the store what the popped rows, one at a time, would have left. */
    method Flush(conn: Connection) returns (ok: bool)
      requires conn.Valid()
      modifies this, conn
      ensures conn.Valid()
      ensures Total(Full(old(pending)))
      ensures ok <==> FlushFrom(old(conn.store), Full(old(pending)), 0).Done?
      ensures ok ==> conn.store == PutAll(old(conn.store), Full(old(pending)))
      ensures ok ==> pending == map[]
    {
      ghost var all := Full(pending);
      ghost var before := pending;
      FullIsTotal(pending);
      assert Left(pending, before, 0);
      ghost var target := FlushFrom(conn.store, all, 0);
      var i := 0;
      hide ExecuteChunks, FlushFrom, Full, PutAll, Total, Left, Order, Batch;
      while i < |Order()|
        invariant 0 <= i <= |Order()|
        invariant conn.Valid()
        invariant Left(pending, before, i)
        invariant FlushFrom(conn.store, all, i) == target
      {
        LeftHasNext(pending, before, i);
        FlushNext(conn.store, all, i);
        var inserted := FlushTable(conn, Order()[i]);
        if !inserted { return false; }
        i := i + 1;
      }
      NothingLeftOver(pending, before);
      FlushEnd(conn.store, all);
      FlushIsSequential(old(conn.store), all);
      return true;
    }
  }

  lemma FlushNext(s: Store, pending: Store, i: nat)
    requires Total(s) && Total(pending) && i < |Order()|
    ensures var e := ExecuteChunks(s, Order()[i], Batch(Order()[i], pending[Order()[i]]), 0);
            && (e.Done? ==> Total(e.store))
            && FlushFrom(s, pending, i) == if e.Done? && Total(e.store) then FlushFrom(e.store, pending, i + 1) else e
  {
    var rows := Batch(Order()[i], pending[Order()[i]]);
    if ExecuteChunks(s, Order()[i], rows, 0).Done? { ChunksAreOnePut(s, Order()[i], rows, 0); }
  }

  lemma FlushEnd(s: Store, pending: Store)
    requires Total(s) && Total(pending)
    ensures FlushFrom(s, pending, |Order()|) == Done(s)
  {
  }

  /** The buffer after the first tables of the order have been popped. */
  ghost predicate Left(pending: Store, before: Store, i: nat) {
    && (forall t :: t in pending <==> t in before && Rank(t) >= i)
    && (forall t :: t in pending ==> pending[t] == before[t])
  }

  /** The next table pops its own rows, as they were buffered. */
  lemma LeftHasNext(pending: Store, before: Store, i: nat)
    requires i < |Order()| && Left(pending, before, i)
    ensures var t := Order()[i];
      && t in Full(pending) && t in Full(before) && Full(pending)[t] == Full(before)[t]
      && Left(pending - {t}, before, i + 1)
  {
    RankOfOrder(i);
    forall t ensures Rank(t) == i ==> t == Order()[i] { OrderFollowsKeys(t); }
    hide Rank, Order;
  }

  lemma NothingLeftOver(pending: Store, before: Store)
    requires Left(pending, before, |Order()|)
    ensures pending == map[]
  {
    forall t ensures t !in pending { OrderFollowsKeys(t); }
    hide Rank;
  }

  // ------------------------------------------------------------ any schedule of flushes

  lemma SameTables(a: Store, b: Store)
    requires Total(a) && Total(b) && forall t :: a[t] == b[t]
    ensures a == b
  {
  }

  function OfTable(rows: seq<Row>, t: Table): seq<Row> {
    if rows == [] then []
    else (if rows[0].table == t then [rows[0]] else []) + OfTable(rows[1..], t)
  }

  /** No buffer at all: each row goes to its table as it comes. */
  ghost function RowAtATime(s: Store, rows: seq<Row>): Store
    requires Total(s)
    decreases |rows|
  {
    if rows == [] then s
    else
      var t := rows[0].table;
      RowAtATime(s[t := PutOne(t, s[t], rows[0])], rows[1..])
  }

  ghost function Buffered(pending: Store, rows: seq<Row>): Store
    requires Total(pending)
  {
    map t | t in pending :: pending[t] + OfTable(rows, t)
  }

  /** The loading loop: the rows of one source row are added, then the buffer is flushed or not. */
  ghost function Load(s: Store, pending: Store, units: seq<seq<Row>>, flush: seq<bool>): Execution
    requires Total(s) && Total(pending) && |units| == |flush|
    decreases |units|
  {
    if units == [] then Done(s)
    else
      var added := Buffered(pending, units[0]);
      if !flush[0] then Load(s, added, units[1..], flush[1..])
      else
        var e := FlushFrom(s, added, 0);
        if !e.Done? || !Total(e.store) then e
        else
          FullIsTotal(map[]);
          Load(e.store, Full(map[]), units[1..], flush[1..])
  }

  function Flatten(units: seq<seq<Row>>): seq<Row> {
    if units == [] then [] else units[0] + Flatten(units[1..])
  }

  lemma {:induction false} OfTableConcat(a: seq<Row>, b: seq<Row>, t: Table)
    ensures OfTable(a + b, t) == OfTable(a, t) + OfTable(b, t)
    decreases |a|
  {
    if a == [] {
      assert a + b == b;
    } else {
      assert (a + b)[1..] == a[1..] + b;
      OfTableConcat(a[1..], b, t);
    }
  }

  lemma {:induction false} OfTableMembers(rows: seq<Row>, t: Table)
    ensures forall r :: r in OfTable(rows, t) <==> r in rows && r.table == t
  {
    if rows != [] { OfTableMembers(rows[1..], t); }
  }

  /** Row at a time, each table sees exactly its own rows in order. */
  lemma {:induction false} RowAtATimePerTable(s: Store, rows: seq<Row>)
    requires Total(s)
    ensures Total(RowAtATime(s, rows))
    ensures forall t :: RowAtATime(s, rows)[t] == Put(t, s[t], OfTable(rows, t))
    decreases |rows|
  {
    if rows == [] {
      forall t ensures Put(t, s[t], []) == s[t] { PutNothing(t, s[t]); }
    } else {
      var u := rows[0].table;
      var s1 := s[u := PutOne(u, s[u], rows[0])];
      RowAtATimePerTable(s1, rows[1..]);
      forall t ensures RowAtATime(s, rows)[t] == Put(t, s[t], OfTable(rows, t)) {
        if t == u {
          assert OfTable(rows, t)[0] == rows[0] && OfTable(rows, t)[1..] == OfTable(rows[1..], t);
        } else {
          assert OfTable(rows, t) == OfTable(rows[1..], t);
        }
      }
    }
  }

  lemma AddedThenRest(pending: Store, units: seq<seq<Row>>, t: Table)
    requires Total(pending) && units != []
    ensures pending[t] + OfTable(Flatten(units), t) == Buffered(pending, units[0])[t] + OfTable(Flatten(units[1..]), t)
  {
    OfTableConcat(units[0], Flatten(units[1..]), t);
  }

  lemma LoadStep(s: Store, pending: Store, units: seq<seq<Row>>, flush: seq<bool>)
    requires Total(s) && Total(pending) && units != [] && |units| == |flush| && Load(s, pending, units, flush).Done?
    ensures var added := Buffered(pending, units[0]);
            && Total(added) && Total(Full(map[]))
            && (!flush[0] ==> Load(s, pending, units, flush) == Load(s, added, units[1..], flush[1..]))
            && (flush[0] ==>
                  var e := FlushFrom(s, added, 0);
                  && e.Done? && Total(e.store) && (forall t :: e.store[t] == Put(t, s[t], added[t]))
                  && Load(s, pending, units, flush) == Load(e.store, Full(map[]), units[1..], flush[1..]))
  {
    FullIsTotal(map[]);
    var added := Buffered(pending, units[0]);
    if flush[0] { FlushPutsFrom(s, added, 0); }
  }

  /** Whatever the schedule, a completed load that ends in a flush leaves the row-at-a-time result. */
  lemma {:induction false} LoadIsRowAtATime(s: Store, pending: Store, units: seq<seq<Row>>, flush: seq<bool>)
    requires Total(s) && Total(pending) && |units| == |flush| && Load(s, pending, units, flush).Done?
    requires units == [] ==> forall t :: pending[t] == []
    requires units != [] ==> flush[|flush| - 1]
    ensures Total(Load(s, pending, units, flush).store)
    ensures forall t :: Load(s, pending, units, flush).store[t] == Put(t, s[t], pending[t] + OfTable(Flatten(units), t))
    decreases |units|
  {
    hide FlushFrom, PutAll, Full, Put, OfTable, Buffered, Flatten;
    if units == [] {
      forall t ensures Put(t, s[t], pending[t] + OfTable(Flatten(units), t)) == s[t] {
        NothingLeft(t);
        assert pending[t] + OfTable(Flatten(units), t) == [];
        PutNothing(t, s[t]);
      }
    } else {
      LoadStep(s, pending, units, flush);
      var added := Buffered(pending, units[0]);
      if !flush[0] {
        LoadIsRowAtATime(s, added, units[1..], flush[1..]);
        forall t ensures pending[t] + OfTable(Flatten(units), t) == added[t] + OfTable(Flatten(units[1..]), t) {
          AddedThenRest(pending, units, t);
        }
      } else {
        var s1 := FlushFrom(s, added, 0).store;
        FullIsTotal(map[]);
        LoadIsRowAtATime(s1, Full(map[]), units[1..], flush[1..]);
        forall t
          ensures Load(s1, Full(map[]), units[1..], flush[1..]).store[t] == Put(t, s[t], pending[t] + OfTable(Flatten(units), t))
        {
          var rest := OfTable(Flatten(units[1..]), t);
          AddedThenRest(pending, units, t);
          PutConcat(t, s[t], added[t], rest);
          assert [] + rest == rest;
        }
      }
    }
  }

  lemma NothingLeft(t: Table)
    ensures OfTable(Flatten([]), t) == []
  {
  }

  /** Batching refines row-at-a-time: two schedules of the same rows, each ending in a flush,
      that both complete leave the same tables, namely those of no buffering at all. */
  lemma BatchingRefinesRowAtATime(s: Store, units: seq<seq<Row>>, flush: seq<bool>)
    requires Total(s) && units != [] && |units| == |flush| && flush[|flush| - 1]
    requires Total(Full(map[])) && Load(s, Full(map[]), units, flush).Done?
    ensures Load(s, Full(map[]), units, flush).store == RowAtATime(s, Flatten(units))
  {
    FullIsTotal(map[]);
    LoadPerTable(s, units, flush);
    RowAtATimePerTable(s, Flatten(units));
    hide Load, FlushFrom, Put, PutOne, RowAtATime, OfTable, Full, Flatten;
    SameTables(Load(s, Full(map[]), units, flush).store, RowAtATime(s, Flatten(units)));
  }

  lemma LoadPerTable(s: Store, units: seq<seq<Row>>, flush: seq<bool>)
    requires Total(s) && units != [] && |units| == |flush| && flush[|flush| - 1]
    requires Total(Full(map[])) && Load(s, Full(map[]), units, flush).Done?
    ensures Total(Load(s, Full(map[]), units, flush).store)
    ensures forall t :: Load(s, Full(map[]), units, flush).store[t] == Put(t, s[t], OfTable(Flatten(units), t))
  {
    LoadIsRowAtATime(s, Full(map[]), units, flush);
    hide Load, FlushFrom, Put, OfTable, Full, Flatten;
    forall t ensures Load(s, Full(map[]), units, flush).store[t] == Put(t, s[t], OfTable(Flatten(units), t)) {
      FullOfNothing(t);
      assert [] + OfTable(Flatten(units), t) == OfTable(Flatten(units), t);
    }
  }

  lemma FullOfNothing(t: Table)
    ensures t in Full(map[]) && Full(map[])[t] == []
  {
  }

  // ------------------------------------------------------------ when no statement can fail

  /** A reference names a parent table and a row of it that is stored initially or already produced. */
  ghost predicate Referable(s0: Store, seen: seq<Row>, r: Row)
    requires Total(s0)
  {
    forall k :: k in r.refs ==> k.0 in Parents(r.table) && Offers(s0[k.0] + OfTable(seen, k.0), k.1)
  }

  /** Each source row's rows refer only to rows of the same or earlier source rows. */
  ghost predicate SelfContained(s0: Store, seen: seq<Row>, units: seq<seq<Row>>)
    requires Total(s0)
    decreases |units|
  {
    units != [] ==>
      && AllReferable(s0, seen + units[0], units[0])
      && SelfContained(s0, seen + units[0], units[1..])
  }

  /** Rows of parent tables that share a unique value agree on all of them, over the whole load. */
  ghost predicate CoherentLoad(s0: Store, all: seq<Row>)
    requires Total(s0)
  {
    forall p :: IsParent(p) ==> Coherent(s0[p], OfTable(all, p))
  }

  ghost predicate Within(a: seq<Row>, b: seq<Row>) {
    forall x :: x in a ==> x in b
  }

  ghost predicate OffersAll(a: seq<Row>, b: seq<Row>) {
    forall v :: Offers(b, v) ==> Offers(a, v)
  }

  ghost predicate AllReferable(s0: Store, seen: seq<Row>, rows: seq<Row>)
    requires Total(s0)
  {
    forall r :: r in rows ==> Referable(s0, seen, r)
  }

  /** The store and buffer between two source rows. */
  ghost predicate Midway(s0: Store, seen: seq<Row>, s: Store, pending: Store) {
    && Total(s0) && Total(s) && Total(pending)
    && (forall t :: Within(s[t], s0[t] + OfTable(seen, t)))
    && (forall t :: Within(pending[t], OfTable(seen, t)))
    && (forall t :: AllReferable(s0, seen, pending[t]))
    && (forall t :: IsParent(t) ==> OffersAll(s[t] + pending[t], s0[t] + OfTable(seen, t)))
  }

  lemma OffersConcat(a: seq<Row>, b: seq<Row>, v: string)
    ensures Offers(a + b, v) <==> Offers(a, v) || Offers(b, v)
  {
    if Offers(a, v) { var r :| r in a && v in r.uniques; assert r in a + b; }
    if Offers(b, v) { var r :| r in b && v in r.uniques; assert r in a + b; }
  }

  lemma ReferableLater(s0: Store, seen: seq<Row>, more: seq<Row>, r: Row)
    requires Total(s0) && Referable(s0, seen, r)
    ensures Referable(s0, seen + more, r)
  {
    forall k | k in r.refs ensures Offers(s0[k.0] + OfTable(seen + more, k.0), k.1) {
      OfTableConcat(seen, more, k.0);
      OffersConcat(s0[k.0], OfTable(seen, k.0), k.1);
      OffersConcat(s0[k.0], OfTable(seen + more, k.0), k.1);
      OffersConcat(OfTable(seen, k.0), OfTable(more, k.0), k.1);
    }
  }

  lemma AddUnit(s0: Store, seen: seq<Row>, s: Store, pending: Store, unit: seq<Row>)
    requires Midway(s0, seen, s, pending) && AllReferable(s0, seen + unit, unit)
    ensures Midway(s0, seen + unit, s, Buffered(pending, unit))
  {
    hide Referable, Offers, Put, IsParent;
    var added := Buffered(pending, unit);
    forall t
      ensures Within(s[t], s0[t] + OfTable(seen + unit, t)) && Within(added[t], OfTable(seen + unit, t))
      ensures AllReferable(s0, seen + unit, added[t])
      ensures IsParent(t) ==> OffersAll(s[t] + added[t], s0[t] + OfTable(seen + unit, t))
    {
      AddUnitTo(s0, seen, s, pending, unit, t);
    }
  }

  lemma AddUnitTo(s0: Store, seen: seq<Row>, s: Store, pending: Store, unit: seq<Row>, t: Table)
    requires Midway(s0, seen, s, pending) && AllReferable(s0, seen + unit, unit)
    ensures var more := pending[t] + OfTable(unit, t);
            && Within(s[t], s0[t] + OfTable(seen + unit, t)) && Within(more, OfTable(seen + unit, t))
            && AllReferable(s0, seen + unit, more)
            && (IsParent(t) ==> OffersAll(s[t] + more, s0[t] + OfTable(seen + unit, t)))
  {
    hide Referable, Offers, Put, IsParent;
    var own := OfTable(unit, t);
    var more := pending[t] + own;
    OfTableConcat(seen, unit, t);
    OfTableMembers(unit, t);
    assert Within(s[t], s0[t] + OfTable(seen, t)) && Within(pending[t], OfTable(seen, t)) && AllReferable(s0, seen, pending[t]);
    forall x | x in more ensures Referable(s0, seen + unit, x) {
      if x in pending[t] { ReferableLater(s0, seen, unit, x); }
    }
    if IsParent(t) {
      assert OffersAll(s[t] + pending[t], s0[t] + OfTable(seen, t));
      forall v | Offers(s0[t] + OfTable(seen + unit, t), v) ensures Offers(s[t] + more, v) {
        assert s0[t] + OfTable(seen + unit, t) == (s0[t] + OfTable(seen, t)) + own;
        assert s[t] + more == (s[t] + pending[t]) + own;
        OffersConcat(s0[t] + OfTable(seen, t), own, v);
        OffersConcat(s[t] + pending[t], own, v);
      }
    }
  }

  lemma MidwayCoherent(s0: Store, seen: seq<Row>, more: seq<Row>, s: Store, pending: Store, p: Table)
    requires Midway(s0, seen, s, pending) && CoherentLoad(s0, seen + more) && IsParent(p)
    ensures Coherent(s[p], pending[p])
  {
    hide Referable, Offers, Put, Parents, IsParent;
    OfTableConcat(seen, more, p);
    var all := OfTable(seen + more, p);
    assert Coherent(s0[p], all);
    assert Within(s[p], s0[p] + OfTable(seen, p)) && Within(pending[p], OfTable(seen, p));
  }

  lemma MidwayClosed(s0: Store, seen: seq<Row>, more: seq<Row>, s: Store, pending: Store)
    requires Midway(s0, seen, s, pending) && CoherentLoad(s0, seen + more)
    ensures Closed(s, pending)
  {
    hide Offers, Put, Coherent, CoherentLoad, IsParent, Parents;
    forall p | IsParent(p) ensures Coherent(s[p], pending[p]) {
      MidwayCoherent(s0, seen, more, s, pending, p);
    }
    forall t, r, k | r in pending[t] && k in r.refs
      ensures k.0 in Parents(t) && Offers(s[k.0] + pending[k.0], k.1)
    {
      OfTableMembers(seen, t);
      assert Within(pending[t], OfTable(seen, t)) && AllReferable(s0, seen, pending[t]);
      assert Referable(s0, seen, r);
      OrderFollowsKeys(t);
      assert OffersAll(s[k.0] + pending[k.0], s0[k.0] + OfTable(seen, k.0));
    }
  }

  lemma FlushMidway(s0: Store, seen: seq<Row>, more: seq<Row>, s: Store, pending: Store, empty: Store)
    requires Midway(s0, seen, s, pending) && CoherentLoad(s0, seen + more)
    requires Total(empty) && forall t :: empty[t] == []
    ensures Midway(s0, seen, PutAll(s, pending), empty)
  {
    hide Referable, Parents, CoherentLoad, Coherent, IsParent, Put;
    var after := PutAll(s, pending);
    forall t
      ensures Within(after[t], s0[t] + OfTable(seen, t)) && Within(empty[t], OfTable(seen, t))
      ensures AllReferable(s0, seen, empty[t])
    {
      assert Within(s[t], s0[t] + OfTable(seen, t)) && Within(pending[t], OfTable(seen, t));
      PutMembers(t, s[t], pending[t]);
    }
    forall t | IsParent(t) ensures OffersAll(after[t] + empty[t], s0[t] + OfTable(seen, t)) {
      MidwayCoherent(s0, seen, more, s, pending, t);
      ParentNotUpserted(t);
      assert OffersAll(s[t] + pending[t], s0[t] + OfTable(seen, t));
      assert after[t] + empty[t] == after[t];
      forall v | Offers(s0[t] + OfTable(seen, t), v) ensures Offers(after[t], v) {
        PutOffers(t, s[t], pending[t], v);
      }
    }
  }

  lemma ParentNotUpserted(t: Table)
    requires IsParent(t)
    ensures !IsUpserted(t)
  {
  }

  lemma {:induction false} LoadSucceeds(s0: Store, seen: seq<Row>, s: Store, pending: Store, units: seq<seq<Row>>, flush: seq<bool>)
    requires Midway(s0, seen, s, pending) && |units| == |flush|
    requires SelfContained(s0, seen, units) && CoherentLoad(s0, seen + Flatten(units))
    ensures Load(s, pending, units, flush).Done?
    decreases |units|
  {
    hide Midway, CoherentLoad, FlushFrom, Full, PutAll, Buffered, Closed;
    if units != [] {
      var seen1, rest := seen + units[0], Flatten(units[1..]);
      assert seen + Flatten(units) == seen1 + rest;
      AddUnit(s0, seen, s, pending, units[0]);
      MidwayTotal(s0, seen, s, pending);
      var added := Buffered(pending, units[0]);
      MidwayTotal(s0, seen1, s, added);
      if flush[0] {
        MidwayClosed(s0, seen1, rest, s, added);
        FlushSucceeds(s, added);
        FullIsTotal(map[]);
        FlushMidway(s0, seen1, rest, s, added, Full(map[]));
        LoadSucceeds(s0, seen1, PutAll(s, added), Full(map[]), units[1..], flush[1..]);
      } else {
        LoadSucceeds(s0, seen1, s, added, units[1..], flush[1..]);
      }
    }
  }

  lemma MidwayTotal(s0: Store, seen: seq<Row>, s: Store, pending: Store)
    requires Midway(s0, seen, s, pending)
    ensures Total(s0) && Total(s) && Total(pending)
  {
  }

  /** For every schedule of flushes that ends in one, a load whose source rows refer only to
      what is stored or already produced violates no foreign key, repeats no upsert key in a
      statement, and leaves exactly the row-at-a-time tables. */
  lemma EveryScheduleLoads(s: Store, units: seq<seq<Row>>, flush: seq<bool>)
    requires Total(s) && units != [] && |units| == |flush| && flush[|flush| - 1]
    requires SelfContained(s, [], units) && CoherentLoad(s, Flatten(units))
    ensures Total(Full(map[]))
    ensures Load(s, Full(map[]), units, flush) == Done(RowAtATime(s, Flatten(units)))
  {
    hide Load, Full, RowAtATime, Put, CoherentLoad, SelfContained;
    FullIsTotal(map[]);
    assert [] + Flatten(units) == Flatten(units);
    forall t ensures s[t] + OfTable([], t) == s[t] + Full(map[])[t] == s[t] { assert OfTable([], t) == []; }
    assert Midway(s, [], s, Full(map[]));
    LoadSucceeds(s, [], s, Full(map[]), units, flush);
    BatchingRefinesRowAtATime(s, units, flush);
  }

  // ------------------------------------------------------------ the loading loop itself

  /** Whether the buffer is flushed after the `i`-th source row. */
  function FlushAfter(i: nat, count: nat, batchSize: nat, fileEnds: set<nat>): bool
    requires batchSize > 0
  {
    (i + 1) % batchSize == 0 || i in fileEnds || i + 1 == count
  }

  function Schedule(count: nat, batchSize: nat, fileEnds: set<nat>): seq<bool>
    requires batchSize > 0
  {
    seq(count, i requires 0 <= i < count => FlushAfter(i, count, batchSize, fileEnds))
  }

  lemma {:induction false} BufferedGrows(pending: Store, rows: seq<Row>, r: Row)
    requires Total(pending)
    ensures Total(Buffered(pending, rows + [r]))
    ensures forall t :: Buffered(pending, rows + [r])[t] == Buffered(pending, rows)[t] + (if t == r.table then [r] else [])
  {
    forall t ensures OfTable(rows + [r], t) == OfTable(rows, t) + (if t == r.table then [r] else []) {
      OfTableConcat(rows, [r], t);
      assert [r][1..] == [];
    }
  }

  /** Appending one row to the buffer is appending it to the rows buffered so far. */
  lemma AppendedRow(pending: Store, before: Store, rows: seq<Row>, r: Row)
    requires Total(before) && Full(pending) == Buffered(before, rows)
    ensures Full(pending[r.table := (if r.table in pending then pending[r.table] else []) + [r]]) == Buffered(before, rows + [r])
  {
    hide Full, Buffered;
    var after := pending[r.table := (if r.table in pending then pending[r.table] else []) + [r]];
    FullIsTotal(pending);
    FullIsTotal(after);
    BufferedGrows(before, rows, r);
    SameTables(Full(after), Buffered(before, rows + [r]));
  }

  method AddUnitRows(rows: Rows, unit: seq<Row>)
    modifies rows
    ensures Total(Full(old(rows.pending))) && Full(rows.pending) == Buffered(Full(old(rows.pending)), unit)
  {
    hide Full, Buffered, Total;
    FullIsTotal(rows.pending);
    ghost var before := Full(rows.pending);
    NothingBuffered(before);
    var j := 0;
    while j < |unit|
      invariant 0 <= j <= |unit|
      invariant Full(rows.pending) == Buffered(before, unit[..j])
    {
      AppendedRow(rows.pending, before, unit[..j], unit[j]);
      assert unit[..j] + [unit[j]] == unit[..j + 1];
      rows.Add(unit[j]);
      j := j + 1;
    }
    assert unit[..j] == unit;
  }

  lemma NothingBuffered(pending: Store)
    requires Total(pending)
    ensures Buffered(pending, []) == pending
  {
    forall t ensures pending[t] + OfTable([], t) == pending[t] {
      assert OfTable([], t) == [];
    }
  }

  lemma LoadNext(s: Store, pending: Store, units: seq<seq<Row>>, flush: seq<bool>, i: nat)
    requires Total(s) && Total(pending) && |units| == |flush| && i < |units|
    ensures Total(Full(map[]))
    ensures var added := Buffered(pending, units[i]);
            var e := FlushFrom(s, added, 0);
            && (e.Done? ==> Total(e.store) && e.store == PutAll(s, added))
            && Load(s, pending, units[i..], flush[i..]) ==
                 if !flush[i] then Load(s, added, units[i + 1..], flush[i + 1..])
                 else if !e.Done? then e
                 else Load(e.store, Full(map[]), units[i + 1..], flush[i + 1..])
  {
    hide FlushFrom, Full, PutAll;
    FullIsTotal(map[]);
    assert units[i..][1..] == units[i + 1..] && flush[i..][1..] == flush[i + 1..];
    var added := Buffered(pending, units[i]);
    if FlushFrom(s, added, 0).Done? {
      FlushPutsFrom(s, added, 0);
      FlushIsSequential(s, added);
    }
  }

  /** The rebuild's loop over source rows: flush at every batch, at each file's end and at the end. */
  method LoadAll(conn: Connection, rows: Rows, units: seq<seq<Row>>, batchSize: nat, fileEnds: set<nat>) returns (ok: bool)
    requires conn.Valid() && rows.pending == map[] && batchSize > 0
    modifies conn, rows
    ensures conn.Valid() && Total(Full(map[]))
    ensures ok <==> Load(old(conn.store), Full(map[]), units, Schedule(|units|, batchSize, fileEnds)).Done?
    ensures ok ==> conn.store == Load(old(conn.store), Full(map[]), units, Schedule(|units|, batchSize, fileEnds)).store
  {
    hide FlushFrom, Full, Buffered, PutAll, Total;
    ghost var flush := Schedule(|units|, batchSize, fileEnds);
    FullIsTotal(map[]);
    ghost var target := Load(conn.store, Full(map[]), units, flush);
    var i := 0;
    while i < |units|
      invariant 0 <= i <= |units| && conn.Valid()
      invariant Total(Full(rows.pending))
      invariant Load(conn.store, Full(rows.pending), units[i..], flush[i..]) == target
    {
      LoadNext(conn.store, Full(rows.pending), units, flush, i);
      AddUnitRows(rows, units[i]);
      FullIsTotal(rows.pending);
      if FlushAfter(i, |units|, batchSize, fileEnds) {
        var flushed := rows.Flush(conn);
        if !flushed { return false; }
        FullIsTotal(map[]);
      }
      i := i + 1;
    }
    return true;
  }
}
