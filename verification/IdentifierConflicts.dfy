/** Identifier conflicts across the datasets of a snapshot: an ingestion drops them, and the run over
    all workbooks rebuilds them for every snapshot that changed. */
module IdentifierConflicts {
  import opened Basics
  import opened ReplaceSnapshot
  import opened SnapshotIngest

  // ------------------------------------------------------------ what a conflict is

  predicate IsIdentifier(db: Db, k: Key, snapshot: string) {
    k in db && k.OntologyIdentifier? && k.snapshot == snapshot && db[k].Identifying? && db[k].wellFormed
  }

  /** Another product has the identifier too. */
  predicate Shared(db: Db, k: Key, snapshot: string) {
    && IsIdentifier(db, k, snapshot)
    && exists l :: l in db && IsIdentifier(db, l, snapshot) && l.product != k.product
        && l.kind == k.kind && l.value == k.value && db[l].namespace == db[k].namespace
  }

  function ConflictKeys(db: Db, snapshot: string): set<Key> {
    set k | k in db && Shared(db, k, snapshot) :: ConflictRow(snapshot, k.kind, db[k].namespace, k.value)
  }

  /** The conflict table of the snapshot says exactly which identifiers several products share. */
  ghost predicate ConflictsHold(db: Db, snapshot: string) {
    forall k :: IsConflictOf(k, snapshot) ==> (k in db <==> k in ConflictKeys(db, snapshot))
  }

  function WithConflicts(db: Db, snapshot: string): Db {
    (map k | k in db && !IsConflictOf(k, snapshot) :: db[k]) + (map k | k in ConflictKeys(db, snapshot) :: Plain("REVIEW_REQUIRED"))
  }

  /** The rows that bear on the conflicts of a snapshot are the same in both. */
  ghost predicate SameAt(db: Db, db': Db, snapshot: string) {
    forall k: Key :: k.OntologyIdentifier? && k.snapshot == snapshot ==> (k in db <==> k in db') && (k in db ==> db[k] == db'[k])
  }

  lemma SharedIsSame(db: Db, db': Db, snapshot: string, k: Key)
    requires SameAt(db, db', snapshot) && Shared(db, k, snapshot)
    ensures Shared(db', k, snapshot) && db'[k] == db[k]
  {
    var l :| l in db && IsIdentifier(db, l, snapshot) && l.product != k.product
      && l.kind == k.kind && l.value == k.value && db[l].namespace == db[k].namespace;
    assert l in db' && IsIdentifier(db', l, snapshot);
  }

  lemma SameConflictKeys(db: Db, db': Db, snapshot: string)
    requires SameAt(db, db', snapshot)
    ensures ConflictKeys(db, snapshot) == ConflictKeys(db', snapshot)
  {
    forall k | k in db && Shared(db, k, snapshot) ensures k in db' && Shared(db', k, snapshot) && db'[k] == db[k] {
      SharedIsSame(db, db', snapshot, k);
    }
    forall k | k in db' && Shared(db', k, snapshot) ensures k in db && Shared(db, k, snapshot) && db'[k] == db[k] {
      SharedIsSame(db', db, snapshot, k);
    }
    hide Shared;
  }

  lemma ConflictKeysAreConflicts(db: Db, snapshot: string)
    ensures forall k :: k in ConflictKeys(db, snapshot) ==> IsConflictOf(k, snapshot)
  {
  }

  lemma WithConflictsHold(db: Db, snapshot: string, other: string)
    ensures ConflictsHold(WithConflicts(db, snapshot), snapshot)
    ensures other != snapshot && ConflictsHold(db, other) ==> ConflictsHold(WithConflicts(db, snapshot), other)
  {
    var db' := WithConflicts(db, snapshot);
    assert forall k :: k in ConflictKeys(db, snapshot) ==> IsConflictOf(k, snapshot);
    hide ConflictKeys;
    assert SameAt(db, db', snapshot) && SameAt(db, db', other);
    SameConflictKeys(db, db', snapshot);
    SameConflictKeys(db, db', other);
  }

  lemma WithConflictsIsValid(db: Db, snapshot: string)
    requires Valid(db)
    ensures Valid(WithConflicts(db, snapshot))
  {
    var db' := WithConflicts(db, snapshot);
    assert forall k :: k in ConflictKeys(db, snapshot) ==> IsConflictOf(k, snapshot);
    hide ConflictKeys;
    forall k | k in db' ensures Attached(db', k, db'[k]) {
      if !k.ConflictRow? {
        assert Attached(db, k, db[k]);
      }
    }
  }

  lemma OthersUntouched(db: Db, ds: Dataset, snapshot: string, rows: seq<Row>, fingerprint: string, k: Key)
    requires AllMapped(ds, rows) && DistinctNumbers(rows) && !OwnedBy(k, ds, snapshot)
    ensures var after := Ingested(db, ds, snapshot, rows, fingerprint);
      (k in after <==> k in db && !IsConflictOf(k, snapshot)) && (k in after ==> after[k] == db[k])
  {
    OnlyTheInputCounts(db, ds, snapshot, rows, fingerprint, k);
    hide Ingested, Entries;
  }

  lemma IngestedSameAt(db: Db, ds: Dataset, snapshot: string, rows: seq<Row>, fingerprint: string, other: string)
    requires AllMapped(ds, rows) && DistinctNumbers(rows) && other != snapshot
    ensures SameAt(db, Ingested(db, ds, snapshot, rows, fingerprint), other)
  {
    var db' := Ingested(db, ds, snapshot, rows, fingerprint);
    forall k: Key | k.OntologyIdentifier? && k.snapshot == other ensures (k in db <==> k in db') && (k in db ==> db[k] == db'[k]) {
      OthersUntouched(db, ds, snapshot, rows, fingerprint, k);
    }
    hide Ingested, AllMapped, DistinctNumbers;
  }

  lemma IngestedConflictRow(db: Db, ds: Dataset, snapshot: string, rows: seq<Row>, fingerprint: string, k: Key)
    requires AllMapped(ds, rows) && DistinctNumbers(rows) && k.ConflictRow?
    ensures k in Ingested(db, ds, snapshot, rows, fingerprint) <==> k in db && k.snapshot != snapshot
  {
    OthersUntouched(db, ds, snapshot, rows, fingerprint, k);
  }

  /** An ingestion does not touch the conflicts of another snapshot, and leaves none of its own. */
  lemma IngestedConflicts(db: Db, ds: Dataset, snapshot: string, rows: seq<Row>, fingerprint: string, other: string)
    requires AllMapped(ds, rows) && DistinctNumbers(rows)
    ensures other != snapshot && ConflictsHold(db, other) ==> ConflictsHold(Ingested(db, ds, snapshot, rows, fingerprint), other)
    ensures forall k :: IsConflictOf(k, snapshot) ==> k !in Ingested(db, ds, snapshot, rows, fingerprint)
  {
    hide Ingested, ConflictKeys, SameAt, AllMapped, DistinctNumbers;
    if other != snapshot {
      IngestedSameAt(db, ds, snapshot, rows, fingerprint, other);
      SameConflictKeys(db, Ingested(db, ds, snapshot, rows, fingerprint), other);
    }
    forall k | IsConflictOf(k, snapshot) || IsConflictOf(k, other)
      ensures k in Ingested(db, ds, snapshot, rows, fingerprint) <==> k in db && k.snapshot != snapshot
    {
      IngestedConflictRow(db, ds, snapshot, rows, fingerprint, k);
    }
  }

  // ------------------------------------------------------------ the run over all workbooks

  datatype Workbook = Workbook(ds: Dataset, snapshot: string, rows: seq<Row>, fingerprint: string)

  ghost predicate Readable(w: Workbook) {
    AllMapped(w.ds, w.rows) && DistinctNumbers(w.rows)
  }

  ghost predicate AllConflictsHold(db: Db, except: set<string>) {
    forall s :: s !in except ==> ConflictsHold(db, s)
  }

  class Runner {
    const ingestor: Ingestor

    constructor (ingestor: Ingestor)
      ensures this.ingestor == ingestor
    {
      this.ingestor := ingestor;
    }

    method IngestOne(w: Workbook, changed: set<string>) returns (changed': set<string>)
      requires Readable(w) && Valid(ingestor.db) && AllConflictsHold(ingestor.db, changed)
      modifies ingestor`db
      ensures Valid(ingestor.db) && changed <= changed' && AllConflictsHold(ingestor.db, changed')
      ensures DatasetRow(w.ds, w.snapshot) in ingestor.db && ingestor.db[DatasetRow(w.ds, w.snapshot)] == Plain(w.fingerprint)
    {
      ghost var before := ingestor.db;
      var report := ingestor.Ingest(w.ds, w.snapshot, w.rows, w.fingerprint);
      changed' := if report.Unchanged? then changed else changed + {w.snapshot};
      forall s | s !in changed' ensures ConflictsHold(ingestor.db, s) {
        if report.Loaded? {
          IngestedConflicts(before, w.ds, w.snapshot, w.rows, w.fingerprint, s);
        }
        assert ConflictsHold(before, s);
      }
    }

    /** `_rebuild_identifier_conflicts` for one snapshot: its conflicts become right, and no other row
        is touched. */
    method Rebuild(snapshot: string)
      requires Valid(ingestor.db)
      modifies ingestor`db
      ensures ingestor.db == WithConflicts(old(ingestor.db), snapshot) && Valid(ingestor.db)
      ensures ConflictsHold(ingestor.db, snapshot)
      ensures forall k :: !IsConflictOf(k, snapshot) ==>
        (k in ingestor.db <==> k in old(ingestor.db)) && (k in ingestor.db ==> ingestor.db[k] == old(ingestor.db)[k])
    {
      WithConflictsIsValid(ingestor.db, snapshot);
      WithConflictsHold(ingestor.db, snapshot, snapshot);
      ConflictKeysAreConflicts(ingestor.db, snapshot);
      hide ConflictsHold, ConflictKeys, Valid;
      var shared := ConflictKeys(ingestor.db, snapshot);
      var kept: Db := map k | k in ingestor.db && !IsConflictOf(k, snapshot) :: ingestor.db[k];
      ingestor.db := kept + map k | k in shared :: Plain("REVIEW_REQUIRED");
    }

    /** `ingest_all`: when the conflicts of every snapshot were right before, they are right after,
        although each ingestion has dropped those of its snapshot. */
    method IngestAll(workbooks: seq<Workbook>)
      requires Valid(ingestor.db) && AllConflictsHold(ingestor.db, {}) && forall w :: w in workbooks ==> Readable(w)
      modifies ingestor`db
      ensures Valid(ingestor.db) && AllConflictsHold(ingestor.db, {})
    {
      var changed: set<string> := {};
      hide Valid, ConflictsHold, Readable;
      for i := 0 to |workbooks|
        invariant Valid(ingestor.db) && AllConflictsHold(ingestor.db, changed)
      {
        changed := IngestOne(workbooks[i], changed);
      }
      while changed != {}
        invariant Valid(ingestor.db) && AllConflictsHold(ingestor.db, changed)
        decreases changed
      {
        var s :| s in changed;
        ghost var before := ingestor.db;
        Rebuild(s);
        forall other | other !in changed - {s} ensures ConflictsHold(ingestor.db, other) {
          WithConflictsHold(before, s, other);
        }
        changed := changed - {s};
      }
    }
  }
}
