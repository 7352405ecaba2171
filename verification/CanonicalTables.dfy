/** The canonical tables as the rebuild writes them: one statement at a time, with the
    conflict policies and foreign keys of the schema. */
module CanonicalTables {
  import opened Basics

  /** The tables that the row buffer knows, in the order in which it flushes them. */
  datatype Table =
    | SourceRecords | QuarantineRecords | CanonicalEntities
    | FinancialProducts | Bonds | ExchangeTradedProducts | Funds
    | FundShareClasses | SaleLots | Organizations | Indices
    | OntologyConcepts | EntityAliases | EntityIdentifiers
    | SourceFieldAssertions | SourceRecordEntities | CanonicalFacts
    | CanonicalScalarFacts | EntityRelations | OrganizationRelations
    | IndexRelations | EntityClassifications | SourceClassificationValues
    | MetricObservations | FactEvidenceLinks | IdentityResolutionCases
    | FactConflictCases | IdentifierCollisionCases | EntityIdCrosswalk

  function Order(): seq<Table> {
    [SourceRecords, QuarantineRecords, CanonicalEntities,
    FinancialProducts, Bonds, ExchangeTradedProducts, Funds,
    FundShareClasses, SaleLots, Organizations, Indices,
    OntologyConcepts, EntityAliases, EntityIdentifiers,
    SourceFieldAssertions, SourceRecordEntities, CanonicalFacts,
    CanonicalScalarFacts, EntityRelations, OrganizationRelations,
    IndexRelations, EntityClassifications, SourceClassificationValues,
    MetricObservations, FactEvidenceLinks, IdentityResolutionCases,
    FactConflictCases, IdentifierCollisionCases, EntityIdCrosswalk]
  }

  /** The buffered tables a table's foreign keys point at. */
  function Parents(t: Table): set<Table> {
    match t
    case FinancialProducts => {CanonicalEntities}
    case Bonds => {FinancialProducts}
    case ExchangeTradedProducts => {FinancialProducts}
    case Funds => {FinancialProducts}
    case FundShareClasses => {Funds, CanonicalEntities}
    case SaleLots => {Bonds, CanonicalEntities}
    case Organizations => {CanonicalEntities}
    case Indices => {CanonicalEntities}
    case EntityAliases => {CanonicalEntities, SourceRecords}
    case EntityIdentifiers => {CanonicalEntities, SourceRecords}
    case SourceFieldAssertions => {SourceRecords}
    case SourceRecordEntities => {SourceRecords, CanonicalEntities}
    case CanonicalFacts => {CanonicalEntities}
    case CanonicalScalarFacts => {CanonicalFacts}
    case EntityRelations => {CanonicalFacts, CanonicalEntities}
    case OrganizationRelations => {CanonicalFacts, FinancialProducts, Organizations}
    case IndexRelations => {CanonicalFacts, FinancialProducts, Indices}
    case EntityClassifications => {CanonicalFacts, CanonicalEntities, OntologyConcepts}
    case SourceClassificationValues => {SourceFieldAssertions, OntologyConcepts}
    case MetricObservations => {CanonicalFacts, CanonicalEntities}
    case FactEvidenceLinks => {CanonicalFacts, SourceFieldAssertions}
    case IdentityResolutionCases => {SourceRecords, CanonicalEntities}
    case FactConflictCases => {CanonicalEntities, CanonicalFacts}
    case EntityIdCrosswalk => {CanonicalEntities}
    case _ => {}
  }

  /** The tables that foreign keys of buffered tables point at. */
  predicate IsParent(t: Table) {
    t in {SourceRecords, CanonicalEntities, FinancialProducts, Bonds, Funds, Organizations, Indices,
          OntologyConcepts, SourceFieldAssertions, CanonicalFacts}
  }

  function Rank(t: Table): nat {
    match t
    case SourceRecords => 0 case QuarantineRecords => 1 case CanonicalEntities => 2
    case FinancialProducts => 3 case Bonds => 4 case ExchangeTradedProducts => 5 case Funds => 6
    case FundShareClasses => 7 case SaleLots => 8 case Organizations => 9 case Indices => 10
    case OntologyConcepts => 11 case EntityAliases => 12 case EntityIdentifiers => 13
    case SourceFieldAssertions => 14 case SourceRecordEntities => 15 case CanonicalFacts => 16
    case CanonicalScalarFacts => 17 case EntityRelations => 18 case OrganizationRelations => 19
    case IndexRelations => 20 case EntityClassifications => 21 case SourceClassificationValues => 22
    case MetricObservations => 23 case FactEvidenceLinks => 24 case IdentityResolutionCases => 25
    case FactConflictCases => 26 case IdentifierCollisionCases => 27 case EntityIdCrosswalk => 28
  }

  /** Every table is flushed once, after the tables its foreign keys point at. */
  lemma OrderFollowsKeys(t: Table)
    ensures Rank(t) < |Order()| && Order()[Rank(t)] == t
    ensures forall p :: p in Parents(t) ==> Rank(p) < Rank(t)
    ensures forall p :: p in Parents(t) ==> IsParent(p) && !IsUpserted(p)
  {
  }

  lemma RankOfOrder(i: nat)
    requires i < |Order()|
    ensures Rank(Order()[i]) == i
  {
  }

  /** A row carries its primary key, the values of all its unique constraints, and the
      unique values of other tables that its foreign keys name. */
  datatype Row = Row(table: Table, id: string, uniques: set<string>, refs: set<(Table, string)>, data: string)

  predicate IsUpserted(t: Table) {
    t == MetricObservations
  }

  predicate Clashes(stored: seq<Row>, r: Row) {
    exists s :: s in stored && s.uniques * r.uniques != {}
  }

  function InsertOne(stored: seq<Row>, r: Row): seq<Row> {
    if Clashes(stored, r) then stored else stored + [r]
  }

  function UpsertOne(stored: seq<Row>, r: Row): seq<Row> {
    if stored == [] then [r]
    else if stored[0].id == r.id then [r] + stored[1..]
    else [stored[0]] + UpsertOne(stored[1..], r)
  }

  /** One row on its own, under the table's conflict policy. */
  function PutOne(t: Table, stored: seq<Row>, r: Row): seq<Row> {
    if IsUpserted(t) then UpsertOne(stored, r) else InsertOne(stored, r)
  }

  /** The rows one after the other: the meaning every batching has to keep. */
  function Put(t: Table, stored: seq<Row>, rows: seq<Row>): seq<Row>
    decreases |rows|
  {
    if rows == [] then stored else Put(t, PutOne(t, stored, rows[0]), rows[1..])
  }

  lemma PutNothing(t: Table, stored: seq<Row>)
    ensures Put(t, stored, []) == stored
  {
  }

  lemma {:induction false} PutConcat(t: Table, stored: seq<Row>, a: seq<Row>, b: seq<Row>)
    ensures Put(t, stored, a + b) == Put(t, Put(t, stored, a), b)
    decreases |a|
  {
    if a == [] {
      assert a + b == b;
    } else {
      assert (a + b)[1..] == a[1..] + b;
      PutConcat(t, PutOne(t, stored, a[0]), a[1..], b);
    }
  }

  // ------------------------------------------------------------ keeping the last row per key

  /** `{row["fact_id"]: row for row in rows}.values()`: first position, last value. */
  function LastPerId(rows: seq<Row>): seq<Row> {
    Put(MetricObservations, [], rows)
  }

  ghost predicate DistinctIds(rows: seq<Row>) {
    forall i, j :: 0 <= i < j < |rows| ==> rows[i].id != rows[j].id
  }

  ghost predicate HasId(rows: seq<Row>, id: string) {
    exists r :: r in rows && r.id == id
  }

  lemma {:induction false} UpsertIds(stored: seq<Row>, r: Row)
    ensures forall id :: HasId(UpsertOne(stored, r), id) <==> HasId(stored, id) || id == r.id
    ensures DistinctIds(stored) ==> DistinctIds(UpsertOne(stored, r))
  {
    var u := UpsertOne(stored, r);
    if stored == [] {
      assert u[0] == r;
    } else if stored[0].id == r.id {
      assert u == [r] + stored[1..];
      assert forall s :: s in u <==> s == r || s in stored[1..];
      assert forall s :: s in stored <==> s == stored[0] || s in stored[1..];
    } else {
      UpsertIds(stored[1..], r);
      var rest := UpsertOne(stored[1..], r);
      assert u == [stored[0]] + rest;
      assert forall s :: s in u <==> s == stored[0] || s in rest;
      assert forall s :: s in stored <==> s == stored[0] || s in stored[1..];
      forall id ensures HasId(u, id) <==> HasId(stored, id) || id == r.id {
        assert HasId(rest, id) <==> HasId(stored[1..], id) || id == r.id;
        assert HasId(u, id) <==> id == stored[0].id || HasId(rest, id);
        assert HasId(stored, id) <==> id == stored[0].id || HasId(stored[1..], id);
      }
      if DistinctIds(stored) {
        assert !HasId(stored[1..], stored[0].id);
        assert !HasId(rest, stored[0].id);
      }
    }
  }

  lemma {:induction false} LastPerIdDistinct(stored: seq<Row>, rows: seq<Row>)
    requires DistinctIds(stored)
    ensures DistinctIds(Put(MetricObservations, stored, rows))
    decreases |rows|
  {
    if rows != [] {
      UpsertIds(stored, rows[0]);
      LastPerIdDistinct(UpsertOne(stored, rows[0]), rows[1..]);
    }
  }

  lemma {:induction false} UpsertTwice(stored: seq<Row>, a: Row, b: Row)
    requires a.id == b.id
    ensures UpsertOne(UpsertOne(stored, a), b) == UpsertOne(stored, b)
  {
    if stored != [] && stored[0].id != a.id {
      UpsertTwice(stored[1..], a, b);
      assert UpsertOne(stored, a)[1..] == UpsertOne(stored[1..], a);
    }
  }

  lemma {:induction false} UpsertCommutes(stored: seq<Row>, a: Row, b: Row)
    requires a.id != b.id && HasId(stored, b.id)
    ensures UpsertOne(UpsertOne(stored, a), b) == UpsertOne(UpsertOne(stored, b), a)
  {
    if stored[0].id == b.id {
      assert UpsertOne(stored, a) == [stored[0]] + UpsertOne(stored[1..], a);
      assert UpsertOne(stored, b)[1..] == stored[1..];
    } else {
      var s :| s in stored && s.id == b.id;
      assert s in stored[1..];
      if stored[0].id == a.id {
        assert UpsertOne(stored, a)[1..] == stored[1..];
        assert UpsertOne(stored, b)[1..] == UpsertOne(stored[1..], b);
      } else {
        UpsertCommutes(stored[1..], a, b);
        assert UpsertOne(stored, a)[1..] == UpsertOne(stored[1..], a);
        assert UpsertOne(stored, b)[1..] == UpsertOne(stored[1..], b);
      }
    }
  }

  /** A row already stored under its key may be upserted before or after rows with other keys. */
  lemma {:induction false} UpsertLast(stored: seq<Row>, rows: seq<Row>, r: Row)
    requires HasId(stored, r.id) && !HasId(rows, r.id)
    ensures UpsertOne(Put(MetricObservations, stored, rows), r) == Put(MetricObservations, UpsertOne(stored, r), rows)
    decreases |rows|
  {
    if rows != [] {
      assert rows[0] in rows;
      UpsertCommutes(stored, rows[0], r);
      UpsertIds(stored, rows[0]);
      assert forall s :: s in rows[1..] ==> s in rows;
      UpsertLast(UpsertOne(stored, rows[0]), rows[1..], r);
    }
  }

  lemma {:induction false} UpsertIntoBatch(stored: seq<Row>, batch: seq<Row>, r: Row)
    requires DistinctIds(batch)
    ensures Put(MetricObservations, stored, UpsertOne(batch, r)) == UpsertOne(Put(MetricObservations, stored, batch), r)
    decreases |batch|
  {
    if batch == [] {
    } else if batch[0].id == r.id {
      var rest := batch[1..];
      assert UpsertOne(batch, r)[1..] == rest;
      UpsertIds(stored, batch[0]);
      UpsertTwice(stored, batch[0], r);
      forall s | s in rest ensures s.id != r.id {
        var i :| 0 <= i < |rest| && rest[i] == s;
        assert batch[i + 1] == s;
      }
      UpsertLast(UpsertOne(stored, batch[0]), rest, r);
    } else {
      assert UpsertOne(batch, r)[1..] == UpsertOne(batch[1..], r);
      UpsertIntoBatch(UpsertOne(stored, batch[0]), batch[1..], r);
    }
  }

  /** Upserting only the last row per key leaves what upserting all of them would. */
  lemma {:induction false} LastPerIdSuffices(stored: seq<Row>, rows: seq<Row>)
    ensures Put(MetricObservations, stored, LastPerId(rows)) == Put(MetricObservations, stored, rows)
    decreases |rows|
  {
    if rows != [] {
      var front, last := rows[..|rows| - 1], rows[|rows| - 1];
      assert rows == front + [last];
      PutConcat(MetricObservations, [], front, [last]);
      PutConcat(MetricObservations, stored, front, [last]);
      LastPerIdSuffices(stored, front);
      LastPerIdDistinct([], front);
      UpsertIntoBatch(stored, LastPerId(front), last);
    }
  }

  // ------------------------------------------------------------ foreign keys

  type Store = map<Table, seq<Row>>

  ghost predicate Total(s: Store) {
    forall t :: t in s
  }

  predicate Offers(rows: seq<Row>, value: string) {
    exists r :: r in rows && value in r.uniques
  }

  predicate KeysHold(s: Store, r: Row) {
    forall k :: k in r.refs ==> k.0 in s && Offers(s[k.0], k.1)
  }

  datatype Execution = Done(store: Store) | RepeatedKey | MissingParent

  /** One INSERT statement. An upsert may not name a key twice, and every row it stores must find its parents. */
  ghost function Execute(s: Store, t: Table, chunk: seq<Row>): Execution
    requires t in s
  {
    var after := Put(t, s[t], chunk);
    if IsUpserted(t) && !DistinctIds(chunk) then RepeatedKey
    else if exists r :: r in chunk && r in after && !KeysHold(s[t := after], r) then MissingParent
    else Done(s[t := after])
  }

  const CHUNK := 500

  /** The statements of one table from `offset` on. */
  ghost function ExecuteChunks(s: Store, t: Table, rows: seq<Row>, offset: nat): Execution
    requires t in s && offset <= |rows|
    decreases |rows| - offset
  {
    if offset == |rows| then Done(s)
    else
      var end := if offset + CHUNK <= |rows| then offset + CHUNK else |rows|;
      var e := Execute(s, t, rows[offset..end]);
      if e.Done? then ExecuteChunks(e.store, t, rows, end) else e
  }

  ghost function Batch(t: Table, rows: seq<Row>): seq<Row> {
    if IsUpserted(t) then LastPerId(rows) else rows
  }

  /** A flush from the `i`-th table on. */
  ghost function FlushFrom(s: Store, pending: Store, i: nat): Execution
    requires Total(s) && Total(pending) && i <= |Order()|
    decreases |Order()| - i
  {
    if i == |Order()| then Done(s)
    else
      var t := Order()[i];
      var e := ExecuteChunks(s, t, Batch(t, pending[t]), 0);
      if e.Done? && Total(e.store) then FlushFrom(e.store, pending, i + 1) else e
  }

  lemma {:induction false} ChunksAreOnePut(s: Store, t: Table, rows: seq<Row>, offset: nat)
    requires t in s && offset <= |rows| && ExecuteChunks(s, t, rows, offset).Done?
    ensures ExecuteChunks(s, t, rows, offset).store == s[t := Put(t, s[t], rows[offset..])]
    decreases |rows| - offset
  {
    hide Put, KeysHold, DistinctIds;
    PutNothing(t, s[t]);
    assert rows[|rows|..] == [];
    if offset < |rows| {
      var end := if offset + CHUNK <= |rows| then offset + CHUNK else |rows|;
      var e := Execute(s, t, rows[offset..end]);
      ChunksAreOnePut(e.store, t, rows, end);
      PutConcat(t, s[t], rows[offset..end], rows[end..]);
      assert rows[offset..] == rows[offset..end] + rows[end..];
    }
  }

  ghost function PutAll(s: Store, pending: Store): Store
    requires Total(s) && Total(pending)
  {
    map t | t in s :: Put(t, s[t], pending[t])
  }

  /** One table of a flush that completes: its batch is put, and the rest follows. */
  lemma FlushPutsOne(s: Store, pending: Store, i: nat)
    requires Total(s) && Total(pending) && i < |Order()| && FlushFrom(s, pending, i).Done?
    ensures var t := Order()[i]; var s' := s[t := Put(t, s[t], pending[t])];
      Total(s') && FlushFrom(s', pending, i + 1).Done? && FlushFrom(s, pending, i) == FlushFrom(s', pending, i + 1)
  {
    var t := Order()[i];
    var rows := Batch(t, pending[t]);
    ChunksAreOnePut(s, t, rows, 0);
    assert rows[0..] == rows;
    if IsUpserted(t) { LastPerIdSuffices(s[t], pending[t]); }
    hide Put, ExecuteChunks, Order;
  }

  lemma OneRankPerTable(i: nat)
    requires i < |Order()|
    ensures forall u :: Rank(u) < |Order()| && (Rank(u) == i <==> u == Order()[i])
  {
    RankOfOrder(i);
    forall u ensures Rank(u) < |Order()| && (Rank(u) == i <==> u == Order()[i]) { OrderFollowsKeys(u); }
  }

  lemma FlushedAll(s: Store, pending: Store)
    requires Total(s) && Total(pending)
    ensures FlushFrom(s, pending, |Order()|) == Done(s) && forall t :: Rank(t) < |Order()|
  {
    forall t ensures Rank(t) < |Order()| { OrderFollowsKeys(t); }
  }

  lemma {:induction false} FlushPutsFrom(s: Store, pending: Store, i: nat)
    requires Total(s) && Total(pending) && i <= |Order()| && FlushFrom(s, pending, i).Done?
    ensures Total(FlushFrom(s, pending, i).store)
    ensures forall t :: FlushFrom(s, pending, i).store[t] == if i <= Rank(t) then Put(t, s[t], pending[t]) else s[t]
    decreases |Order()| - i
  {
    hide FlushFrom, Put, Rank, Order;
    if i < |Order()| {
      var t := Order()[i];
      OneRankPerTable(i);
      FlushPutsOne(s, pending, i);
      FlushPutsFrom(s[t := Put(t, s[t], pending[t])], pending, i + 1);
    } else {
      FlushedAll(s, pending);
    }
  }

  /** A flush that completes leaves in every table what its rows, one at a time, would have left. */
  lemma FlushIsSequential(s: Store, pending: Store)
    requires Total(s) && Total(pending) && FlushFrom(s, pending, 0).Done?
    ensures FlushFrom(s, pending, 0).store == PutAll(s, pending)
  {
    FlushPutsFrom(s, pending, 0);
  }

  // ------------------------------------------------------------ when every statement succeeds

  /** Rows of one table that share a unique value agree on all of them. */
  ghost predicate Coherent(a: seq<Row>, b: seq<Row>) {
    forall x, y :: x in a + b && y in a + b && x.uniques * y.uniques != {} ==> x.uniques == y.uniques
  }

  /** Every foreign key of a pending row names a parent table, and a row stored or pending
      there; rows of parent tables clash only with rows offering the same values. */
  ghost predicate Closed(s: Store, pending: Store)
    requires Total(s) && Total(pending)
  {
    && (forall p :: IsParent(p) ==> Coherent(s[p], pending[p]))
    && (forall t, r, k :: r in pending[t] && k in r.refs ==> k.0 in Parents(t) && Offers(s[k.0] + pending[k.0], k.1))
  }

  lemma {:induction false} PutKeeps(t: Table, stored: seq<Row>, rows: seq<Row>, value: string)
    requires !IsUpserted(t) && Offers(stored, value)
    ensures Offers(Put(t, stored, rows), value)
    decreases |rows|
  {
    if rows != [] {
      var r :| r in stored && value in r.uniques;
      assert r in PutOne(t, stored, rows[0]);
      PutKeeps(t, PutOne(t, stored, rows[0]), rows[1..], value);
    }
  }

  lemma {:induction false} PutOffers(t: Table, stored: seq<Row>, rows: seq<Row>, value: string)
    requires !IsUpserted(t) && Coherent(stored, rows) && Offers(stored + rows, value)
    ensures Offers(Put(t, stored, rows), value)
    decreases |rows|
  {
    if rows == [] {
      assert stored + rows == stored;
    } else {
      var after := PutOne(t, stored, rows[0]);
      assert rows[0] in stored + rows;
      assert forall x :: x in after + rows[1..] ==> x in stored + rows;
      if value in rows[0].uniques {
        FirstOffers(t, stored, rows[0], value);
        PutKeeps(t, after, rows[1..], value);
      } else if Offers(stored, value) {
        PutKeeps(t, stored, rows, value);
      } else {
        var r :| r in stored + rows && value in r.uniques;
        assert r in after + rows[1..];
        PutOffers(t, after, rows[1..], value);
      }
    }
  }

  lemma FirstOffers(t: Table, stored: seq<Row>, r: Row, value: string)
    requires !IsUpserted(t) && value in r.uniques
    requires forall s :: s in stored && s.uniques * r.uniques != {} ==> s.uniques == r.uniques
    ensures Offers(PutOne(t, stored, r), value)
  {
    if Clashes(stored, r) {
      var s :| s in stored && s.uniques * r.uniques != {};
      assert value in s.uniques;
    } else {
      assert (stored + [r])[|stored|] == r;
    }
  }

  /** The store while table `i` is being flushed: the tables before it hold their pending rows. */
  ghost predicate FlushedUpTo(s0: Store, s: Store, pending: Store, i: nat)
    requires Total(s0) && Total(pending)
  {
    Total(s) && forall t :: Rank(t) < i ==> s[t] == Put(t, s0[t], pending[t])
  }

  lemma ParentsPresent(s0: Store, s: Store, pending: Store, i: nat, r: Row)
    requires Total(s0) && Total(pending) && Closed(s0, pending) && i < |Order()|
    requires FlushedUpTo(s0, s, pending, i) && r in pending[Order()[i]]
    ensures KeysHold(s, r)
  {
    RankOfOrder(i);
    forall k | k in r.refs ensures k.0 in s && Offers(s[k.0], k.1) {
      OrderFollowsKeys(Order()[i]);
      PutOffers(k.0, s0[k.0], pending[k.0], k.1);
    }
  }

  lemma {:induction false} UpsertMembers(stored: seq<Row>, r: Row)
    ensures forall x :: x in UpsertOne(stored, r) ==> x in stored || x == r
  {
    if stored != [] && stored[0].id != r.id { UpsertMembers(stored[1..], r); }
  }

  lemma {:induction false} PutMembers(t: Table, stored: seq<Row>, rows: seq<Row>)
    ensures forall x :: x in Put(t, stored, rows) ==> x in stored || x in rows
    decreases |rows|
  {
    if rows != [] {
      UpsertMembers(stored, rows[0]);
      PutMembers(t, PutOne(t, stored, rows[0]), rows[1..]);
    }
  }

  lemma {:induction false} ChunksSucceed(s0: Store, s: Store, pending: Store, i: nat, rows: seq<Row>, offset: nat)
    requires Total(s0) && Total(pending) && Closed(s0, pending) && i < |Order()| && FlushedUpTo(s0, s, pending, i)
    requires offset <= |rows| && (forall r :: r in rows ==> r in pending[Order()[i]])
    requires IsUpserted(Order()[i]) ==> DistinctIds(rows)
    ensures ExecuteChunks(s, Order()[i], rows, offset).Done?
    decreases |rows| - offset
  {
    hide Put, KeysHold, Closed;
    if offset < |rows| {
      var t := Order()[i];
      var end := if offset + CHUNK <= |rows| then offset + CHUNK else |rows|;
      var chunk := rows[offset..end];
      var after := s[t := Put(t, s[t], chunk)];
      RankOfOrder(i);
      assert FlushedUpTo(s0, after, pending, i);
      forall r | r in chunk ensures KeysHold(after, r) {
        ParentsPresent(s0, after, pending, i, r);
      }
      ChunksSucceed(s0, after, pending, i, rows, end);
    }
  }

  /** The statements of the next table succeed and leave its batch put. */
  lemma NextSucceeds(s0: Store, s: Store, pending: Store, i: nat)
    requires Total(s0) && Total(pending) && Closed(s0, pending) && i < |Order()| && FlushedUpTo(s0, s, pending, i)
    ensures var t := Order()[i];
      ExecuteChunks(s, t, Batch(t, pending[t]), 0) == Done(s[t := Put(t, s[t], pending[t])])
  {
    hide Closed, Put, Order, Rank, ExecuteChunks, FlushedUpTo;
    var t := Order()[i];
    var rows := Batch(t, pending[t]);
    PutMembers(MetricObservations, [], pending[t]);
    LastPerIdDistinct([], pending[t]);
    assert Total(s) by { assert FlushedUpTo(s0, s, pending, i); StillTotal(s0, s, pending, i); }
    ChunksSucceed(s0, s, pending, i, rows, 0);
    ChunksAreOnePut(s, t, rows, 0);
    assert rows[0..] == rows;
    if IsUpserted(t) { LastPerIdSuffices(s[t], pending[t]); }
  }

  lemma StillTotal(s0: Store, s: Store, pending: Store, i: nat)
    requires Total(s0) && Total(pending) && FlushedUpTo(s0, s, pending, i)
    ensures Total(s)
  {
  }

  lemma {:induction false} FlushSucceedsFrom(s0: Store, s: Store, pending: Store, i: nat)
    requires Total(s0) && Total(pending) && Closed(s0, pending) && i <= |Order()| && FlushedUpTo(s0, s, pending, i)
    requires forall t :: i <= Rank(t) ==> s[t] == s0[t]
    ensures FlushFrom(s, pending, i).Done?
    decreases |Order()| - i
  {
    hide Closed, Put, Order, Rank, ExecuteChunks;
    if i < |Order()| {
      var t := Order()[i];
      OneRankPerTable(i);
      NextSucceeds(s0, s, pending, i);
      FlushSucceedsFrom(s0, s[t := Put(t, s[t], pending[t])], pending, i + 1);
    }
  }

  /** When every reference of the pending rows is stored or pending, no statement of the flush
      repeats an upsert key or misses a parent. */
  lemma FlushSucceeds(s: Store, pending: Store)
    requires Total(s) && Total(pending) && Closed(s, pending)
    ensures FlushFrom(s, pending, 0).Done? && FlushFrom(s, pending, 0).store == PutAll(s, pending)
  {
    FlushSucceedsFrom(s, s, pending, 0);
    FlushIsSequential(s, pending);
  }
}
