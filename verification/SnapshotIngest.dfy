/** The ingestion of one workbook and of several, as the loop runs it, proved to replace exactly what
    the dataset and snapshot held, for every batch size and whatever was there before. */
module SnapshotIngest {
  import opened Basics
  import opened ReplaceSnapshot

  // ------------------------------------------------------------ what an ingestion leaves

  /** The database after the workbook with this fingerprint has replaced the snapshot. */
  function Ingested(db: Db, ds: Dataset, snapshot: string, rows: seq<Row>, fingerprint: string): Db
    requires AllMapped(ds, rows)
  {
    Others(db, ds, snapshot) + Entries(ds, snapshot, rows) + map[DatasetRow(ds, snapshot) := Plain(fingerprint)]
  }

  /** Deleting what a dataset and snapshot own leaves no orphan. */
  lemma OthersAreValid(db: Db, ds: Dataset, snapshot: string)
    requires Valid(db)
    ensures Valid(Others(db, ds, snapshot))
  {
    var rest := Others(db, ds, snapshot);
    forall k | k in rest ensures Attached(rest, k, rest[k]) {
      assert Attached(db, k, db[k]);
    }
  }

  lemma UnionIsValid(ds: Dataset, snapshot: string, db: Db, entries: Db)
    requires Valid(Others(db, ds, snapshot)) && Proper(ds, snapshot, entries)
    ensures Valid(Others(db, ds, snapshot) + entries) && AllNew(entries, Others(db, ds, snapshot))
  {
    var rest := Others(db, ds, snapshot);
    hide Others;
    assert AllNew(entries, rest) by { EntriesAreNotOthers(ds, snapshot, db, entries); }
    forall k | k in rest + entries ensures Attached(rest + entries, k, (rest + entries)[k]) {
      if k in entries {
        assert ProperAt(ds, snapshot, entries, k);
        AttachedAbove(rest, entries, k);
      } else {
        AttachedBelow(rest, entries, k);
      }
    }
  }

  lemma EntriesAreNotOthers(ds: Dataset, snapshot: string, db: Db, entries: Db)
    requires Proper(ds, snapshot, entries)
    ensures AllNew(entries, Others(db, ds, snapshot))
  {
    forall k | k in entries ensures k !in Others(db, ds, snapshot) {
      assert ProperAt(ds, snapshot, entries, k);
    }
  }

  lemma AttachedAbove(rest: Db, entries: Db, k: Key)
    requires k in entries && Attached(entries, k, entries[k])
    ensures Attached(rest + entries, k, (rest + entries)[k])
  {
  }

  lemma AttachedBelow(rest: Db, entries: Db, k: Key)
    requires k in rest && Attached(rest, k, rest[k]) && AllNew(entries, rest)
    ensures Attached(rest + entries, k, (rest + entries)[k])
  {
  }

  /** Of the dataset and snapshot, the database then holds what the rows give and nothing else, in
      whatever state it was; of the rest, exactly what it held, but for the conflicts of the snapshot. */
  lemma OnlyTheInputCounts(db: Db, ds: Dataset, snapshot: string, rows: seq<Row>, fingerprint: string, k: Key)
    requires AllMapped(ds, rows) && DistinctNumbers(rows)
    ensures var after := Ingested(db, ds, snapshot, rows, fingerprint);
      var given := Entries(ds, snapshot, rows)[DatasetRow(ds, snapshot) := Plain(fingerprint)];
      if OwnedBy(k, ds, snapshot) then (k in after <==> k in given) && (k in after ==> after[k] == given[k])
      else (k in after <==> k in db && !IsConflictOf(k, snapshot)) && (k in after ==> after[k] == db[k])
  {
    EntriesAreProper(ds, snapshot, rows);
    hide Entries, Proper;
    EntriesCount(db, ds, snapshot, Entries(ds, snapshot, rows), Plain(fingerprint), k);
  }

  lemma EntriesCount(db: Db, ds: Dataset, snapshot: string, entries: Db, v: Payload, k: Key)
    requires Proper(ds, snapshot, entries)
    ensures var after, given := Others(db, ds, snapshot) + entries + map[DatasetRow(ds, snapshot) := v], entries[DatasetRow(ds, snapshot) := v];
      if OwnedBy(k, ds, snapshot) then (k in after <==> k in given) && (k in after ==> after[k] == given[k])
      else (k in after <==> k in db && !IsConflictOf(k, snapshot)) && (k in after ==> after[k] == db[k])
  {
    assert k in entries ==> ProperAt(ds, snapshot, entries, k);
    hide Proper;
  }

  lemma IngestedIsValid(db: Db, ds: Dataset, snapshot: string, rows: seq<Row>, fingerprint: string)
    requires Valid(db) && AllMapped(ds, rows) && DistinctNumbers(rows)
    ensures Valid(Ingested(db, ds, snapshot, rows, fingerprint))
  {
    OthersAreValid(db, ds, snapshot);
    EntriesAreProper(ds, snapshot, rows);
    var entries := Entries(ds, snapshot, rows);
    UnionIsValid(ds, snapshot, db, entries);
    DatasetRowIsValid(Others(db, ds, snapshot) + entries, ds, snapshot, Plain(fingerprint));
    hide Others, Entries, Proper, Valid;
  }

  lemma DatasetRowIsValid(all: Db, ds: Dataset, snapshot: string, v: Payload)
    requires Valid(all)
    ensures Valid(all + map[DatasetRow(ds, snapshot) := v])
  {
    var more := all + map[DatasetRow(ds, snapshot) := v];
    forall k | k in more ensures Attached(more, k, more[k]) {
      if !k.DatasetRow? {
        assert Attached(all, k, all[k]);
      }
    }
  }

  // ------------------------------------------------------------ what the loop has seen

  datatype SeenSets = SeenSets(
    keys: set<string>, products: set<Product>, funds: set<string>, identifiers: set<(Product, string, string)>)

  const NOTHING_SEEN := SeenSets({}, {}, {}, {})

  /** The sets say which keys of the snapshot the entries hold. */
  ghost predicate Tracks(seen: SeenSets, ds: Dataset, snapshot: string, entries: Db) {
    && TracksKeys(seen.keys, ds, snapshot, entries) && TracksProducts(seen.products, snapshot, entries)
    && TracksFunds(seen.funds, snapshot, entries) && TracksIdentifiers(seen.identifiers, snapshot, entries)
  }

  /** Which records, products and funds an accepted row adds. */
  lemma LoadAdds(ds: Dataset, snapshot: string, entries: Db, row: Row, more: Db, k: Key)
    requires IsLoad(ds, snapshot, entries, row, more)
    ensures var m, all := row.mapped.value, entries + more;
      && (k.RecordRow? ==> (k in all <==> k in entries || k.record == RecordOf(ds, snapshot, row)))
      && (k.ProductRow? && k.snapshot == snapshot ==> (k in all <==> k in entries || k.product == Product(ds, m.code)))
      && (k.FundRow? && k.snapshot == snapshot ==> (k in all <==> k in entries || m.fund == Some(k.fund)))
  {
    if k in more {
      assert Given(ds, snapshot, row, k, more[k]);
    }
    hide AllGiven;
  }

  ghost predicate NoIdentifiers(part: Db) {
    forall k :: k in part ==> !k.OntologyIdentifier?
  }

  lemma RecordPartHasNone(ds: Dataset, snapshot: string, row: Row, m: Mapped)
    requires row.key.Some?
    ensures NoIdentifiers(RecordEntries(ds, snapshot, row, m))
  {
    forall k | k in RecordEntries(ds, snapshot, row, m) ensures !k.OntologyIdentifier? {}
  }

  lemma ProductPartHasNone(p: Product, snapshot: string, m: Mapped)
    ensures NoIdentifiers(ProductEntries(p, snapshot, m))
  {
    forall k | k in ProductEntries(p, snapshot, m) ensures !k.OntologyIdentifier? {}
  }

  lemma FundPartHasNone(p: Product, snapshot: string, fund: string, known: bool)
    ensures NoIdentifiers(FundEntries(p, snapshot, fund, known))
  {
  }

  lemma LoadedIdentifiers(ds: Dataset, snapshot: string, entries: Db, row: Row, k: Key)
    requires WellMapped(ds, row) && row.mapped.Some? && k.OntologyIdentifier?
    ensures k in LoadedEntries(ds, snapshot, entries, row) <==>
      k in NewIdentifiers(Product(ds, row.mapped.value.code), snapshot, RecordOf(ds, snapshot, row), row.mapped.value.ontology, entries)
  {
    var m, p := row.mapped.value, Product(ds, row.mapped.value.code);
    var fund := m.fund.GetOr("");
    RecordPartHasNone(ds, snapshot, row, m);
    ProductPartHasNone(p, snapshot, m);
    FundPartHasNone(p, snapshot, fund, FundRow(fund, snapshot) in entries);
    hide NewIdentifiers, RecordEntries, ProductEntries, FundEntries;
  }

  ghost predicate TracksKeys(keys: set<string>, ds: Dataset, snapshot: string, entries: Db) {
    forall key :: key in keys <==> RecordRow(RecordId(ds, snapshot, key)) in entries
  }

  ghost predicate TracksProducts(products: set<Product>, snapshot: string, entries: Db) {
    forall p :: p in products <==> ProductRow(p, snapshot) in entries
  }

  ghost predicate TracksFunds(funds: set<string>, snapshot: string, entries: Db) {
    forall f :: f in funds <==> FundRow(f, snapshot) in entries
  }

  ghost predicate TracksIdentifiers(identifiers: set<(Product, string, string)>, snapshot: string, entries: Db) {
    forall p, kind, value :: (p, kind, value) in identifiers <==> OntologyIdentifier(p, snapshot, kind, value) in entries
  }

  lemma LoadTracks(seen: SeenSets, ds: Dataset, snapshot: string, entries: Db, row: Row, more: Db)
    requires IsLoad(ds, snapshot, entries, row, more)
    ensures TracksKeys(seen.keys, ds, snapshot, entries) ==> TracksKeys(seen.keys + {row.key.value}, ds, snapshot, entries + more)
    ensures TracksProducts(seen.products, snapshot, entries) ==>
      TracksProducts(seen.products + {Product(ds, row.mapped.value.code)}, snapshot, entries + more)
    ensures TracksFunds(seen.funds, snapshot, entries) ==>
      TracksFunds(seen.funds + Optional(row.mapped.value.fund), snapshot, entries + more)
  {
    var all := entries + more;
    assert row.mapped.Some? && row.key.Some?;
    hide IsLoad;
    forall key ensures RecordRow(RecordId(ds, snapshot, key)) in all <==>
      RecordRow(RecordId(ds, snapshot, key)) in entries || key == row.key.value
    {
      LoadAdds(ds, snapshot, entries, row, more, RecordRow(RecordId(ds, snapshot, key)));
    }
    forall p ensures ProductRow(p, snapshot) in all <==> ProductRow(p, snapshot) in entries || p == Product(ds, row.mapped.value.code) {
      LoadAdds(ds, snapshot, entries, row, more, ProductRow(p, snapshot));
    }
    forall f ensures FundRow(f, snapshot) in all <==> FundRow(f, snapshot) in entries || row.mapped.value.fund == Some(f) {
      LoadAdds(ds, snapshot, entries, row, more, FundRow(f, snapshot));
    }
  }

  function Optional(x: Option<string>): set<string> {
    if x.Some? then {x.value} else {}
  }

  lemma LoadedTracksIdentifiers(ds: Dataset, snapshot: string, entries: Db, row: Row, identifiers: set<(Product, string, string)>)
    requires WellMapped(ds, row) && row.mapped.Some?
    requires var unseen := NewIdentifiers(Product(ds, row.mapped.value.code), snapshot, RecordOf(ds, snapshot, row), row.mapped.value.ontology, entries);
      forall q, kind, value :: (q, kind, value) in identifiers <==>
        OntologyIdentifier(q, snapshot, kind, value) in entries || OntologyIdentifier(q, snapshot, kind, value) in unseen
    ensures TracksIdentifiers(identifiers, snapshot, entries + LoadedEntries(ds, snapshot, entries, row))
  {
    forall q, kind, value { LoadedIdentifiers(ds, snapshot, entries, row, OntologyIdentifier(q, snapshot, kind, value)); }
    hide LoadedEntries, NewIdentifiers;
  }

  lemma QuarantineTracks(seen: SeenSets, ds: Dataset, snapshot: string, entries: Db, number: nat, v: Payload)
    requires Tracks(seen, ds, snapshot, entries)
    ensures Tracks(seen, ds, snapshot, entries + map[QuarantineRow(ds, snapshot, number) := v])
  {
  }

  /** The identifiers of a row that have not been seen. */
  method StageIdentifiers(p: Product, snapshot: string, r: RecordId, items: seq<Identifier>,
                          seen: set<(Product, string, string)>, ghost entries: Db)
    returns (more: Db, seen': set<(Product, string, string)>)
    requires TracksIdentifiers(seen, snapshot, entries)
    ensures more == NewIdentifiers(p, snapshot, r, items, entries)
    ensures forall q, kind, value :: (q, kind, value) in seen' <==>
      OntologyIdentifier(q, snapshot, kind, value) in entries || OntologyIdentifier(q, snapshot, kind, value) in more
  {
    more, seen' := map[], seen;
    for i := 0 to |items|
      invariant more == NewIdentifiers(p, snapshot, r, items[..i], entries)
      invariant forall q, kind, value :: (q, kind, value) in seen' <==>
        OntologyIdentifier(q, snapshot, kind, value) in entries || OntologyIdentifier(q, snapshot, kind, value) in more
    {
      assert items[..i + 1][..i] == items[..i];
      var x := items[i];
      if (p, x.kind, x.value) !in seen' {
        more := more[OntologyIdentifier(p, snapshot, x.kind, x.value) := Identifying(r, x.namespace, x.wellFormed)];
        seen' := seen' + {(p, x.kind, x.value)};
      }
    }
    assert items[..|items|] == items;
  }

  /** `_stage_valid_row` and the evidence of the row. */
  method StageRow(ds: Dataset, snapshot: string, row: Row, seen: SeenSets, ghost entries: Db) returns (more: Db, seen': SeenSets)
    requires WellMapped(ds, row) && row.mapped.Some? && Tracks(seen, ds, snapshot, entries)
    ensures more == LoadedEntries(ds, snapshot, entries, row)
    ensures Tracks(seen', ds, snapshot, entries + more)
  {
    var m, r := row.mapped.value, RecordOf(ds, snapshot, row);
    var p := Product(ds, m.code);
    var identifiers, seenIdentifiers := StageIdentifiers(p, snapshot, r, m.ontology, seen.identifiers, entries);
    LoadedIsLoad(ds, snapshot, entries, row);
    LoadTracks(seen, ds, snapshot, entries, row, LoadedEntries(ds, snapshot, entries, row));
    LoadedTracksIdentifiers(ds, snapshot, entries, row, seenIdentifiers);
    assert p in seen.products <==> ProductRow(p, snapshot) in entries;
    assert m.fund.Some? ==> (m.fund.value in seen.funds <==> FundRow(m.fund.value, snapshot) in entries);
    hide IsLoad, TracksKeys, TracksProducts, TracksFunds, TracksIdentifiers, NewIdentifiers, RecordEntries, ProductEntries, FundEntries;
    more := RecordEntries(ds, snapshot, row, m);
    more := more + (if p in seen.products then map[] else ProductEntries(p, snapshot, m));
    more := more + (if m.fund.Some? then FundEntries(p, snapshot, m.fund.value, m.fund.value in seen.funds) else map[]);
    more := more + identifiers;
    seen' := SeenSets(seen.keys + {row.key.value}, seen.products + {p},
                      seen.funds + Optional(m.fund), seenIdentifiers);
  }

  /** One row of the loop: loaded or quarantined, and counted. */
  method ReadRow(ds: Dataset, snapshot: string, row: Row, seen: SeenSets, c: Counters, ghost entries: Db)
    returns (more: Db, seen': SeenSets, c': Counters)
    requires WellMapped(ds, row) && Tracks(seen, ds, snapshot, entries)
    ensures more == RowEntries(ds, snapshot, entries, row) && Tracks(seen', ds, snapshot, entries + more)
    ensures var again := Seen(ds, snapshot, entries, row);
      c' == Counters(c.source + 1, if Accepted(again, row) then c.loaded + 1 else c.loaded,
                     if Accepted(again, row) then c.quarantined else c.quarantined + 1,
                     if again then c.duplicates + 1 else c.duplicates)
  {
    hide LoadedEntries;
    c' := c.(source := c.source + 1);
    var reason := row.typeError;
    if row.key.Some? && row.key.value in seen.keys {
      reason := Some("DUPLICATE_SOURCE_KEY");
      c' := c'.(duplicates := c'.duplicates + 1);
    }
    if reason.None? {
      reason := row.invalid;
    }
    if reason.None? && row.mapped.Some? {
      more, seen' := StageRow(ds, snapshot, row, seen, entries);
      c' := c'.(loaded := c'.loaded + 1);
    } else {
      var text := Plain(reason.GetOr(row.unmapped));
      QuarantineTracks(seen, ds, snapshot, entries, row.number, text);
      more, seen' := map[QuarantineRow(ds, snapshot, row.number) := text], seen;
      c' := c'.(quarantined := c'.quarantined + 1);
    }
  }

  // ------------------------------------------------------------ the ingestor

  datatype Report = Unchanged | Loaded(counters: Counters)

  /** What the delete statements remove, each found through the rows that are there. */
  predicate FoundBy(db: Db, k: Key, v: Payload, ds: Dataset, snapshot: string) {
    match k
    case ConflictRow(s, _, _, _) => s == snapshot
    case ChildRow(r, _, _) => RecordRow(r) in db && r.dataset == ds && r.snapshot == snapshot
    case OntologyIdentifier(_, _, _, _) => v.Identifying? && RecordRow(v.record) in db && v.record.dataset == ds && v.record.snapshot == snapshot
    case AttributeRow(p, s) => s == snapshot && ProductRow(p, snapshot) in db && p.dataset == ds
    case ClassRow(p, s) => s == snapshot && ProductRow(p, snapshot) in db && p.dataset == ds
    case _ => OwnedBy(k, ds, snapshot)
  }

  /** In a valid database the statements find exactly what is owned. */
  lemma FoundIsOwned(db: Db, k: Key, ds: Dataset, snapshot: string)
    requires Valid(db) && k in db
    ensures FoundBy(db, k, db[k], ds, snapshot) <==> OwnedBy(k, ds, snapshot) || IsConflictOf(k, snapshot)
  {
    assert Attached(db, k, db[k]);
  }

  predicate IsChild(k: Key) {
    k.ConflictRow? || k.ChildRow? || k.OntologyIdentifier? || k.AttributeRow? || k.ClassRow?
  }

  class Ingestor {
    const batchSize: nat
    var db: Db

    constructor (batchSize: nat, db: Db)
      ensures this.batchSize == batchSize && this.db == db
    {
      this.batchSize, this.db := batchSize, db;
    }

    /** `_delete_existing`: children through their parents first, then everything that carries the
        dataset and snapshot. */
    method DeleteExisting(ds: Dataset, snapshot: string)
      requires Valid(db)
      modifies `db
      ensures db == Others(old(db), ds, snapshot)
    {
      ghost var before := db;
      forall k | k in before ensures FoundBy(before, k, before[k], ds, snapshot) <==> OwnedBy(k, ds, snapshot) || IsConflictOf(k, snapshot) {
        FoundIsOwned(before, k, ds, snapshot);
      }
      hide Valid, FoundBy, OwnedBy;
      db := db - set k | k in db && IsChild(k) && FoundBy(db, k, db[k], ds, snapshot);
      db := db - set k | k in db && !IsChild(k) && OwnedBy(k, ds, snapshot);
      forall k ensures k in db <==> k in Others(before, ds, snapshot) {
      }
    }

    /** A plain insert of the pending rows: no key of theirs may be there. */
    method Flush(pending: Db)
      requires AllNew(pending, db)
      modifies `db
      ensures db == old(db) + pending
    {
      db := db + pending;
    }

    /** `ingest_dataset`: skipped when the same workbook is there; otherwise the snapshot is replaced,
        in batches of any size. */
    method Ingest(ds: Dataset, snapshot: string, rows: seq<Row>, fingerprint: string) returns (report: Report)
      requires Valid(db) && AllMapped(ds, rows) && DistinctNumbers(rows)
      modifies `db
      ensures Valid(db)
      ensures var key := DatasetRow(ds, snapshot);
        if key in old(db) && old(db)[key] == Plain(fingerprint) then report == Unchanged && db == old(db)
        else report == Loaded(Counts(ds, snapshot, rows)) && db == Ingested(old(db), ds, snapshot, rows, fingerprint)
    {
      ghost var before := db;
      var key := DatasetRow(ds, snapshot);
      if key in db && db[key] == Plain(fingerprint) {
        return Unchanged;
      }
      DeleteExisting(ds, snapshot);
      var c := LoadRows(ds, snapshot, rows, before);
      IngestedIsValid(before, ds, snapshot, rows, fingerprint);
      hide Entries, Others, Valid;
      db := db + map[key := Plain(fingerprint)];
      return Loaded(c);
    }

    method LoadRows(ds: Dataset, snapshot: string, rows: seq<Row>, ghost before: Db) returns (c: Counters)
      requires db == Others(before, ds, snapshot) && AllMapped(ds, rows) && DistinctNumbers(rows)
      modifies `db
      ensures db == Others(before, ds, snapshot) + Entries(ds, snapshot, rows) && c == Counts(ds, snapshot, rows)
    {
      var pending: Db, seen := map[], NOTHING_SEEN;
      c := Counters(0, 0, 0, 0);
      ghost var rest := db;
      NothingRead(ds, snapshot, rows);
      NothingHeld(rest);
      hide Others, Tracks, Entries, Counts, Holding, AllMapped, DistinctNumbers;
      for i := 0 to |rows|
        invariant AllMapped(ds, rows[..i])
        invariant Holding(db, pending, rest, Entries(ds, snapshot, rows[..i]))
        invariant Tracks(seen, ds, snapshot, Entries(ds, snapshot, rows[..i])) && c == Counts(ds, snapshot, rows[..i])
      {
        PrefixIsMapped(ds, rows, i);
        PrefixIsMapped(ds, rows, i + 1);
        pending, seen, c := TakeRow(ds, snapshot, rows, i, pending, seen, c, rest, before);
        if |pending| >= batchSize {
          HeldWhenFlushed(db, pending, rest, Entries(ds, snapshot, rows[..i + 1]));
          Flush(pending);
          pending := map[];
        }
      }
      assert rows[..|rows|] == rows;
      HeldWhenFlushed(db, pending, rest, Entries(ds, snapshot, rows));
      Flush(pending);
    }

    method TakeRow(ds: Dataset, snapshot: string, rows: seq<Row>, i: nat, pending: Db, seen: SeenSets, c: Counters,
                   ghost rest: Db, ghost before: Db)
      returns (pending': Db, seen': SeenSets, c': Counters)
      requires i < |rows| && AllMapped(ds, rows) && DistinctNumbers(rows) && AllMapped(ds, rows[..i]) && AllMapped(ds, rows[..i + 1])
      requires rest == Others(before, ds, snapshot) && Holding(db, pending, rest, Entries(ds, snapshot, rows[..i]))
      requires Tracks(seen, ds, snapshot, Entries(ds, snapshot, rows[..i])) && c == Counts(ds, snapshot, rows[..i])
      ensures Holding(db, pending', rest, Entries(ds, snapshot, rows[..i + 1]))
      ensures Tracks(seen', ds, snapshot, Entries(ds, snapshot, rows[..i + 1])) && c' == Counts(ds, snapshot, rows[..i + 1])
    {
      OneMoreRead(ds, snapshot, rows, i);
      OneMoreIsNew(before, ds, snapshot, rows, i);
      assert rows[i] in rows;
      hide Others, RowEntries, Tracks, WellMapped, Entries, Counts, Seen, Accepted, Holding, AllNew;
      var more;
      more, seen', c' := ReadRow(ds, snapshot, rows[i], seen, c, Entries(ds, snapshot, rows[..i]));
      HeldOneMore(db, pending, rest, Entries(ds, snapshot, rows[..i]), more);
      pending' := pending + more;
    }

    lemma NothingRead(ds: Dataset, snapshot: string, rows: seq<Row>)
      ensures Tracks(NOTHING_SEEN, ds, snapshot, map[]) && AllMapped(ds, rows[..0])
      ensures Entries(ds, snapshot, rows[..0]) == map[] && Counts(ds, snapshot, rows[..0]) == Counters(0, 0, 0, 0)
    {
    }
  }

  lemma PrefixIsMapped(ds: Dataset, rows: seq<Row>, i: nat)
    requires i <= |rows| && AllMapped(ds, rows)
    ensures AllMapped(ds, rows[..i])
  {
    hide WellMapped;
    forall r | r in rows[..i] ensures r in rows {}
  }

  /** One row further in the entries and in the counts. */
  lemma OneMoreRead(ds: Dataset, snapshot: string, rows: seq<Row>, i: nat)
    requires i < |rows| && AllMapped(ds, rows[..i]) && AllMapped(ds, rows[..i + 1]) && WellMapped(ds, rows[i])
    ensures var entries, c := Entries(ds, snapshot, rows[..i]), Counts(ds, snapshot, rows[..i]);
      var again := Seen(ds, snapshot, entries, rows[i]);
      && Entries(ds, snapshot, rows[..i + 1]) == entries + RowEntries(ds, snapshot, entries, rows[i])
      && Counts(ds, snapshot, rows[..i + 1]) ==
          Counters(c.source + 1, if Accepted(again, rows[i]) then c.loaded + 1 else c.loaded,
                   if Accepted(again, rows[i]) then c.quarantined else c.quarantined + 1,
                   if again then c.duplicates + 1 else c.duplicates)
  {
    var more := rows[..i + 1];
    assert more[..|more| - 1] == rows[..i] && more[|more| - 1] == rows[i];
    hide RowEntries, WellMapped, Seen, Accepted;
  }

  lemma OneMoreIsNew(db: Db, ds: Dataset, snapshot: string, rows: seq<Row>, i: nat)
    requires i < |rows| && DistinctNumbers(rows) && AllMapped(ds, rows[..i]) && AllMapped(ds, rows[..i + 1]) && WellMapped(ds, rows[i])
    ensures var entries := Entries(ds, snapshot, rows[..i]);
      var more := RowEntries(ds, snapshot, entries, rows[i]);
      AllNew(more, entries) && AllNew(more, Others(db, ds, snapshot))
  {
    var more := rows[..i + 1];
    assert more[..|more| - 1] == rows[..i] && more[|more| - 1] == rows[i];
    hide RowEntries, WellMapped, Others, AllNew;
    RowIsNew(db, ds, snapshot, more);
  }

  /** What is stored and what is pending are together the rest and the entries, without overlap. */
  ghost predicate Holding(db: Db, pending: Db, rest: Db, entries: Db) {
    db + pending == rest + entries && AllNew(pending, db)
  }

  lemma NothingHeld(rest: Db)
    ensures Holding(rest, map[], rest, map[])
  {
  }

  lemma HeldWhenFlushed(db: Db, pending: Db, rest: Db, entries: Db)
    requires Holding(db, pending, rest, entries)
    ensures AllNew(pending, db) && db + pending == rest + entries && Holding(db + pending, map[], rest, entries)
  {
    assert db + pending + map[] == db + pending;
  }

  lemma HeldOneMore(db: Db, pending: Db, rest: Db, entries: Db, more: Db)
    requires Holding(db, pending, rest, entries) && AllNew(more, entries) && AllNew(more, rest)
    ensures Holding(db, pending + more, rest, entries + more)
  {
    PendingGrows(db, pending, rest, entries, more);
  }

  /** The last of the rows gives only keys that are neither among the others nor among the entries. */
  lemma RowIsNew(db: Db, ds: Dataset, snapshot: string, rows: seq<Row>)
    requires rows != [] && AllMapped(ds, rows) && DistinctNumbers(rows)
    ensures var entries := Entries(ds, snapshot, rows[..|rows| - 1]);
      var more := RowEntries(ds, snapshot, entries, rows[|rows| - 1]);
      AllNew(more, entries) && AllNew(more, Others(db, ds, snapshot))
  {
    EntriesAreProper(ds, snapshot, rows);
    hide RowEntries, WellMapped, Proper, Others;
    EntriesAreNotOthers(ds, snapshot, db, Entries(ds, snapshot, rows));
  }

  lemma PendingGrows(db: Db, pending: Db, rest: Db, entries: Db, more: Db)
    requires db + pending == rest + entries && AllNew(pending, db) && AllNew(more, entries) && AllNew(more, rest)
    ensures db + (pending + more) == rest + (entries + more) && AllNew(pending + more, db)
  {
    forall k | k in more ensures k !in db && k !in pending {
      assert k !in rest + entries;
    }
  }
}
