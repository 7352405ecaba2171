/** The rebuild around the row buffer: readiness check, staging, one transaction for the
    tables and the READY marks, and the failure handler, over whole histories of runs. */
module SnapshotLifecycle {
  import opened Basics
  import opened CanonicalTables
  import opened RowBuffer

  datatype Status = Staged | Validating | Ready | Failed | Retired
  datatype Reconciliation = Pending | Passed | NotPassed

  /** A dataset_snapshots row; `versions` are the ontology, mapping, transformer and schema versions. */
  datatype Snapshot = Snapshot(
    dataset: string, date: string, data: string, schema: string, versions: string,
    status: Status, reconciliation: Reconciliation, reconciled: bool)

  datatype RunStatus = Started | Succeeded | RunFailed

  /** `snapshot:<dataset>:<date>:<first twelve digits of the checksum>`; run ids are named alike. */
  datatype SnapshotId = SnapshotId(dataset: string, date: string, digest: string)

  datatype Db = Db(snapshots: map<SnapshotId, Snapshot>, runs: map<SnapshotId, RunStatus>, tables: Store)

  datatype Workbook = Workbook(dataset: string, checksum: string, schema: string)

  /** What pass 1 hands to the rest of a run. */
  datatype Audit = Audit(books: seq<Workbook>, baselineHolds: bool)

  const DATE := "2026-08-24"
  const VERSIONS := "ontology|mapping|transformer|schema"
  const DATASETS := {"PRBD01N001", "PREF01N001", "PREF02N001", "PRFD01N001"}

  function Digest(checksum: string): string {
    if |checksum| <= 12 then checksum else checksum[..12]
  }

  function IdOf(b: Workbook): SnapshotId {
    SnapshotId(b.dataset, DATE, Digest(b.checksum))
  }

  function Ids(a: Audit): set<SnapshotId> {
    set b | b in a.books :: IdOf(b)
  }

  /** Exactly the four authoritative workbooks, one per dataset. */
  predicate IsComplete(a: Audit) {
    && |a.books| == 4
    && (forall i, j :: 0 <= i < j < 4 ==> a.books[i].dataset != a.books[j].dataset)
    && (forall b :: b in a.books ==> b.dataset in DATASETS)
  }

  function OwnRows(db: Db): set<SnapshotId> {
    set k | k in db.snapshots && db.snapshots[k].date == DATE && db.snapshots[k].dataset in DATASETS
  }

  /** The columns compared by the readiness check. */
  function Fingerprint(s: Snapshot): (string, string, Status, string) {
    (s.data, s.schema, s.status, s.versions)
  }

  function Stored(db: Db): set<(string, string, Status, string)> {
    set k | k in OwnRows(db) :: Fingerprint(db.snapshots[k])
  }

  function Expected(a: Audit): set<(string, string, Status, string)> {
    set b | b in a.books :: (b.checksum, b.schema, Ready, VERSIONS)
  }

  predicate IsReady(db: Db, a: Audit) {
    |OwnRows(db)| == 4 && Stored(db) == Expected(a)
  }

  function StagedRow(b: Workbook): Snapshot {
    Snapshot(b.dataset, DATE, b.checksum, b.schema, VERSIONS, Staged, Pending, false)
  }

  function Stage(db: Db, books: seq<Workbook>): Db {
    if books == [] then db
    else
      var b := books[|books| - 1];
      var rest := Stage(db, books[..|books| - 1]);
      rest.(snapshots := rest.snapshots[IdOf(b) := StagedRow(b)], runs := rest.runs[IdOf(b) := Started])
  }

  function Mark(db: Db, ids: set<SnapshotId>, status: Status, reconciliation: Reconciliation, run: RunStatus): Db {
    db.(snapshots := map k | k in db.snapshots ::
          if k !in ids then db.snapshots[k]
          else if status == Ready then db.snapshots[k].(status := status, reconciliation := reconciliation, reconciled := true)
          else db.snapshots[k].(status := status, reconciliation := reconciliation),
        runs := map k | k in db.runs :: if k in ids then run else db.runs[k])
  }

  function MarkReady(db: Db, a: Audit): Db { Mark(db, Ids(a), Ready, Passed, Succeeded) }

  function MarkFailed(db: Db, a: Audit): Db { Mark(db, Ids(a), Failed, NotPassed, RunFailed) }

  // ------------------------------------------------------------ one run

  /** Where a run breaks, if it does. `DuringTables` covers every step of the second
      transaction up to its commit; the report is read after the commit, but still
      under the same exception handler. */
  datatype Fault = NoFault | DuringStaging | DuringTables | DuringReport

  /** One call: the audit, the rows its source rows produce, how they are batched, where it
      breaks, and whether the failure handler's own transaction goes through. */
  datatype Call = Call(audit: Audit, units: seq<seq<Row>>, batchSize: nat, fileEnds: set<nat>, fault: Fault, handlerWorks: bool)

  datatype Result = BaselineMismatch | Skipped | StagingRaised | TablesRaised | ReportRaised | Completed

  ghost function LoadOf(tables: Store, c: Call): Execution
    requires Total(tables) && c.batchSize > 0
  {
    FullIsTotal(map[]);
    Load(tables, Full(map[]), c.units, Schedule(|c.units|, c.batchSize, c.fileEnds))
  }

  ghost function Handle(db: Db, c: Call): Db {
    if c.handlerWorks then MarkFailed(db, c.audit) else db
  }

  ghost function Run(db: Db, c: Call): (Db, Result)
    requires Total(db.tables) && c.batchSize > 0
  {
    if !c.audit.baselineHolds then (db, BaselineMismatch)
    else if IsReady(db, c.audit) then (db, Skipped)
    else if c.fault == DuringStaging then (db, StagingRaised)
    else
      var staged := Stage(db, c.audit.books);
      var load := LoadOf(db.tables, c);
      if c.fault == DuringTables || !load.Done? then (Handle(staged, c), TablesRaised)
      else
        var committed := MarkReady(staged.(tables := load.store), c.audit);
        if c.fault == DuringReport then (Handle(committed, c), ReportRaised)
        else (committed, Completed)
  }

  class Rebuilder {
    var db: Db
    const batchSize: nat

    constructor (db: Db, batchSize: nat)
      ensures this.db == db && this.batchSize == batchSize
    {
      this.db := db;
      this.batchSize := batchSize;
    }

    /** The failure handler: one transaction that marks this call's snapshots FAILED. */
    method Fail(c: Call)
      modifies this
      ensures db == Handle(old(db), c)
    {
      if c.handlerWorks { db := MarkFailed(db, c.audit); }
    }

    method Rebuild(c: Call) returns (r: Result)
      requires Total(db.tables) && c.batchSize == batchSize > 0
      modifies this
      ensures (db, r) == Run(old(db), c)
    {
      hide IsReady, Stage, Mark, Load, Full, Schedule, Total;
      if !c.audit.baselineHolds { return BaselineMismatch; }
      if IsReady(db, c.audit) { return Skipped; }
      if c.fault == DuringStaging { return StagingRaised; }
      db := Stage(db, c.audit.books);
      StageKeepsTables(old(db), c.audit.books);
      // The second transaction works on its own view of the tables until it commits.
      var conn := new Connection(db.tables);
      var rows := new Rows();
      var loaded := LoadAll(conn, rows, c.units, batchSize, c.fileEnds);
      if c.fault == DuringTables || !loaded {
        Fail(c);
        return TablesRaised;
      }
      db := MarkReady(db.(tables := conn.store), c.audit);
      if c.fault == DuringReport {
        Fail(c);
        return ReportRaised;
      }
      return Completed;
    }
  }

  lemma {:induction false} StageKeepsTables(db: Db, books: seq<Workbook>)
    ensures Stage(db, books).tables == db.tables
  {
    if books != [] { StageKeepsTables(db, books[..|books| - 1]); }
  }

  // ------------------------------------------------------------ what every run keeps

  /** The constraint of the schema: READY requires a passed and reconciled row count. */
  ghost predicate ReadyMeansReconciled(db: Db) {
    forall k :: k in db.snapshots && db.snapshots[k].status == Ready ==> db.snapshots[k].reconciliation == Passed && db.snapshots[k].reconciled
  }

  ghost predicate IsOf(books: seq<Workbook>, k: SnapshotId) {
    exists b :: b in books && IdOf(b) == k
  }

  /** The row is the staged row of one of the workbooks with this id. */
  ghost predicate StagedAs(books: seq<Workbook>, k: SnapshotId, row: Snapshot) {
    exists b :: b in books && IdOf(b) == k && row == StagedRow(b)
  }

  lemma {:induction false} StageRows(db: Db, books: seq<Workbook>)
    ensures var s := Stage(db, books);
            && (forall k :: k in s.snapshots <==> k in db.snapshots || IsOf(books, k))
            && (forall k :: k in s.snapshots && !IsOf(books, k) ==> s.snapshots[k] == db.snapshots[k])
            && (forall k :: IsOf(books, k) ==> k in s.snapshots && StagedAs(books, k, s.snapshots[k]))
    decreases |books|
  {
    hide StagedRow, IdOf;
    if books != [] {
      var front, b := books[..|books| - 1], books[|books| - 1];
      StageRows(db, front);
      forall k ensures IsOf(books, k) <==> IsOf(front, k) || IdOf(b) == k {
        OneMoreBook(front, b, k);
        assert books == front + [b];
      }
      forall k, row | StagedAs(front, k, row) || (IdOf(b) == k && row == StagedRow(b)) ensures StagedAs(books, k, row) {
        OneMoreStaged(front, b, k, row);
        assert books == front + [b];
      }
      hide IsOf, StagedAs;
    }
  }

  lemma OneMoreBook(front: seq<Workbook>, b: Workbook, k: SnapshotId)
    ensures IsOf(front + [b], k) <==> IsOf(front, k) || IdOf(b) == k
  {
    hide IdOf;
    assert b in front + [b];
    if IsOf(front, k) {
      var x :| x in front && IdOf(x) == k;
      assert x in front + [b];
    }
  }

  lemma OneMoreStaged(front: seq<Workbook>, b: Workbook, k: SnapshotId, row: Snapshot)
    requires StagedAs(front, k, row) || (IdOf(b) == k && row == StagedRow(b))
    ensures StagedAs(front + [b], k, row)
  {
    hide IdOf, StagedRow;
    assert b in front + [b];
    if StagedAs(front, k, row) {
      var x :| x in front && IdOf(x) == k && row == StagedRow(x);
      assert x in front + [b];
    }
  }

  lemma StageKeepsReconciled(db: Db, books: seq<Workbook>)
    requires ReadyMeansReconciled(db)
    ensures ReadyMeansReconciled(Stage(db, books))
  {
    StageRows(db, books);
    var s := Stage(db, books);
    forall k | k in s.snapshots && IsOf(books, k) ensures s.snapshots[k].status == Staged {
      var b :| b in books && IdOf(b) == k && s.snapshots[k] == StagedRow(b);
    }
  }

  lemma MarkKeepsReconciled(db: Db, a: Audit)
    requires ReadyMeansReconciled(db)
    ensures ReadyMeansReconciled(MarkReady(db, a)) && ReadyMeansReconciled(MarkFailed(db, a))
  {
  }

  lemma RunKeepsReconciled(db: Db, c: Call)
    requires Total(db.tables) && c.batchSize > 0 && ReadyMeansReconciled(db)
    ensures ReadyMeansReconciled(Run(db, c).0)
  {
    hide LoadOf, IsReady, Stage, Mark, ReadyMeansReconciled;
    var staged := Stage(db, c.audit.books);
    StageKeepsReconciled(db, c.audit.books);
    MarkKeepsReconciled(staged, c.audit);
    if LoadOf(db.tables, c).Done? {
      var loaded := staged.(tables := LoadOf(db.tables, c).store);
      SameSnapshotsReconciled(staged, loaded);
      MarkKeepsReconciled(loaded, c.audit);
      MarkKeepsReconciled(MarkReady(loaded, c.audit), c.audit);
    }
  }

  lemma SameSnapshotsReconciled(db: Db, db': Db)
    requires db'.snapshots == db.snapshots && ReadyMeansReconciled(db)
    ensures ReadyMeansReconciled(db')
  {
  }

  /** The call committed its tables. */
  ghost predicate Commits(db: Db, c: Call)
    requires Total(db.tables) && c.batchSize > 0
  {
    Run(db, c).1 == Completed || Run(db, c).1 == ReportRaised
  }

  lemma LoadStaysTotal(tables: Store, c: Call)
    requires Total(tables) && c.batchSize > 0 && LoadOf(tables, c).Done?
    ensures Total(LoadOf(tables, c).store)
    ensures LoadOf(tables, c).store == RowAtATime(tables, Flatten(c.units))
  {
    hide Load;
    FullIsTotal(map[]);
    var flush := Schedule(|c.units|, c.batchSize, c.fileEnds);
    if c.units != [] {
      LoadIsRowAtATime(tables, Full(map[]), c.units, flush);
      BatchingRefinesRowAtATime(tables, c.units, flush);
    } else {
      NothingToLoad(tables, flush);
    }
  }

  lemma NothingToLoad(tables: Store, flush: seq<bool>)
    requires Total(tables) && flush == []
    ensures Total(Full(map[])) && Load(tables, Full(map[]), [], flush) == Done(tables)
    ensures RowAtATime(tables, Flatten([])) == tables
  {
    FullIsTotal(map[]);
  }

  /** The canonical tables change only in a committing call, and then by exactly the rows of
      that call, one at a time; any other call leaves every table as it was. */
  lemma TablesChangeOnlyByCommit(db: Db, c: Call)
    requires Total(db.tables) && c.batchSize > 0
    ensures Total(Run(db, c).0.tables)
    ensures Run(db, c).0.tables == if Commits(db, c) then RowAtATime(db.tables, Flatten(c.units)) else db.tables
  {
    hide IsReady, Load, Full, RowAtATime;
    StageKeepsTables(db, c.audit.books);
    if LoadOf(db.tables, c).Done? { LoadStaysTotal(db.tables, c); }
  }

  ghost predicate AllAre(db: Db, a: Audit, status: Status) {
    forall b :: b in a.books ==> IdOf(b) in db.snapshots && db.snapshots[IdOf(b)].status == status
  }

  lemma StagedStatus(db: Db, a: Audit)
    ensures AllAre(Stage(db, a.books), a, Staged)
  {
    StageRows(db, a.books);
  }

  lemma MarkedStatus(db: Db, a: Audit, tables: Store, before: Status)
    requires AllAre(db, a, before)
    ensures AllAre(MarkReady(db.(tables := tables), a), a, Ready)
    ensures AllAre(MarkFailed(db, a), a, Failed)
  {
  }

  /** The status the call's own snapshots end with. A completed call leaves all of them READY;
      a failure the handler sees leaves all of them FAILED; a failure the handler cannot record
      leaves them STAGED, or READY when the tables had already been committed. */
  lemma StatusAfterRun(db: Db, c: Call)
    requires Total(db.tables) && c.batchSize > 0
    ensures var (after, r) := Run(db, c);
            && (r == Completed ==> AllAre(after, c.audit, Ready))
            && (r in {TablesRaised, ReportRaised} && c.handlerWorks ==> AllAre(after, c.audit, Failed))
            && (r == TablesRaised && !c.handlerWorks ==> AllAre(after, c.audit, Staged))
            && (r == ReportRaised && !c.handlerWorks ==> AllAre(after, c.audit, Ready))
            && (r in {BaselineMismatch, Skipped, StagingRaised} ==> after == db)
  {
    hide LoadOf, IsReady, Stage, Mark, AllAre;
    var staged := Stage(db, c.audit.books);
    StagedStatus(db, c.audit);
    MarkedStatus(staged, c.audit, staged.tables, Staged);
    if LoadOf(db.tables, c).Done? {
      var tables := LoadOf(db.tables, c).store;
      MarkedStatus(staged, c.audit, tables, Staged);
      MarkedStatus(MarkReady(staged.(tables := tables), c.audit), c.audit, tables, Ready);
    }
  }

  /** A failure after staging puts the tables back exactly when it strikes before the commit.
      Reading the report comes after it: that failure marks the snapshots FAILED although the
      new tables stay. */
  lemma CaughtFailureRestoresIff(db: Db, c: Call)
    requires Total(db.tables) && c.batchSize > 0
    requires Run(db, c).1 in {TablesRaised, ReportRaised}
    requires RowAtATime(db.tables, Flatten(c.units)) != db.tables
    ensures Run(db, c).0.tables == db.tables <==> c.fault != DuringReport || !LoadOf(db.tables, c).Done?
  {
    hide IsReady, Load, Full, RowAtATime, LoadOf;
    TablesChangeOnlyByCommit(db, c);
  }

  // ------------------------------------------------------------ histories

  ghost function History(db: Db, calls: seq<Call>): Db
    requires Total(db.tables) && forall c :: c in calls ==> c.batchSize > 0
    decreases |calls|
  {
    if calls == [] then db
    else
      TablesChangeOnlyByCommit(db, calls[0]);
      History(Run(db, calls[0]).0, calls[1..])
  }

  /** The rows of the committing calls of a history, in order. */
  ghost function CommittedRows(db: Db, calls: seq<Call>): seq<Row>
    requires Total(db.tables) && forall c :: c in calls ==> c.batchSize > 0
    decreases |calls|
  {
    if calls == [] then []
    else
      TablesChangeOnlyByCommit(db, calls[0]);
      (if Commits(db, calls[0]) then Flatten(calls[0].units) else []) + CommittedRows(Run(db, calls[0]).0, calls[1..])
  }

  lemma {:induction false} RowAtATimeConcat(s: Store, a: seq<Row>, b: seq<Row>)
    requires Total(s)
    ensures Total(RowAtATime(s, a)) && RowAtATime(s, a + b) == RowAtATime(RowAtATime(s, a), b)
    decreases |a|
  {
    RowAtATimePerTable(s, a);
    hide PutOne, Put;
    if a == [] {
      assert a + b == b;
    } else {
      assert (a + b)[1..] == a[1..] + b;
      var t := a[0].table;
      RowAtATimeConcat(s[t := PutOne(t, s[t], a[0])], a[1..], b);
    }
  }

  /** Over every history, whatever fails: READY snapshots stay reconciled, and the tables are
      the initial ones plus the rows of the committing calls, one at a time. */
  lemma {:induction false} HistoryIsSafe(db: Db, calls: seq<Call>)
    requires Total(db.tables) && (forall c :: c in calls ==> c.batchSize > 0) && ReadyMeansReconciled(db)
    ensures ReadyMeansReconciled(History(db, calls))
    ensures History(db, calls).tables == RowAtATime(db.tables, CommittedRows(db, calls))
    decreases |calls|
  {
    hide Run, RowAtATime, ReadyMeansReconciled, Commits;
    if calls == [] {
      RowAtATimeNothing(db.tables);
    } else {
      var c := calls[0];
      var next := Run(db, c).0;
      TablesChangeOnlyByCommit(db, c);
      RunKeepsReconciled(db, c);
      HistoryIsSafe(next, calls[1..]);
      var rest := CommittedRows(next, calls[1..]);
      if Commits(db, c) {
        RowAtATimeConcat(db.tables, Flatten(c.units), rest);
      } else {
        assert [] + rest == rest;
      }
    }
  }

  lemma RowAtATimeNothing(s: Store)
    requires Total(s)
    ensures RowAtATime(s, []) == s
  {
  }

  // ------------------------------------------------------------ skipping

  lemma {:induction false} DistinctIds4(a: Audit)
    requires IsComplete(a)
    ensures |Ids(a)| == 4
  {
    var k0, k1, k2, k3 := IdOf(a.books[0]), IdOf(a.books[1]), IdOf(a.books[2]), IdOf(a.books[3]);
    assert Ids(a) == {k0, k1, k2, k3};
    assert |{k0, k1}| == 2 && |{k0, k1} + {k2}| == 3 && |{k0, k1} + {k2} + {k3}| == 4;
    assert {k0, k1, k2, k3} == {k0, k1} + {k2} + {k3};
  }

  /** After a completed call the same workbooks are skipped next time, and nothing is written,
      exactly when the four datasets had no other snapshot of this date. One row left by
      earlier workbooks is enough to make every later call rebuild. */
  lemma RebuildIsSkippedIff(db: Db, c: Call)
    requires Total(db.tables) && c.batchSize > 0 && IsComplete(c.audit)
    requires Run(db, c).1 == Completed
    ensures IsReady(Run(db, c).0, c.audit) <==> OwnRows(db) <= Ids(c.audit)
  {
    hide LoadOf, Run;
    var after := Run(db, c).0;
    DistinctIds4(c.audit);
    assert OwnRows(after) == OwnRows(db) + Ids(c.audit) by {
      OwnRowsAfter(db, c);
    }
    if OwnRows(db) <= Ids(c.audit) {
      assert OwnRows(after) == Ids(c.audit);
      FingerprintsAfter(db, c);
    } else {
      var extra :| extra in OwnRows(db) && extra !in Ids(c.audit);
      SubsetSize(Ids(c.audit) + {extra}, OwnRows(after));
    }
  }

  lemma CompletedRow(db: Db, c: Call, k: SnapshotId)
    requires Total(db.tables) && c.batchSize > 0 && Run(db, c).1 == Completed && k in Ids(c.audit)
    ensures k in Run(db, c).0.snapshots
    ensures exists b :: b in c.audit.books && IdOf(b) == k
                        && Run(db, c).0.snapshots[k] == StagedRow(b).(status := Ready, reconciliation := Passed, reconciled := true)
  {
    hide LoadOf, IsReady;
    StageRows(db, c.audit.books);
  }

  lemma OtherRow(db: Db, c: Call, k: SnapshotId)
    requires Total(db.tables) && c.batchSize > 0 && Run(db, c).1 == Completed && k !in Ids(c.audit)
    ensures k in Run(db, c).0.snapshots <==> k in db.snapshots
    ensures k in db.snapshots ==> Run(db, c).0.snapshots[k] == db.snapshots[k]
  {
    hide LoadOf, IsReady;
    StageRows(db, c.audit.books);
  }

  lemma OwnRowsAfter(db: Db, c: Call)
    requires Total(db.tables) && c.batchSize > 0 && IsComplete(c.audit) && Run(db, c).1 == Completed
    ensures OwnRows(Run(db, c).0) == OwnRows(db) + Ids(c.audit)
  {
    hide Run;
    forall k ensures k in OwnRows(Run(db, c).0) <==> k in OwnRows(db) || k in Ids(c.audit) {
      if k in Ids(c.audit) { CompletedRow(db, c, k); } else { OtherRow(db, c, k); }
    }
  }

  lemma FingerprintsAfter(db: Db, c: Call)
    requires Total(db.tables) && c.batchSize > 0 && IsComplete(c.audit) && Run(db, c).1 == Completed
    requires OwnRows(Run(db, c).0) == Ids(c.audit)
    ensures Stored(Run(db, c).0) == Expected(c.audit)
  {
    hide Run;
    var after := Run(db, c).0;
    forall f | f in Stored(after) ensures f in Expected(c.audit) {
      var k :| k in OwnRows(after) && Fingerprint(after.snapshots[k]) == f;
      CompletedRow(db, c, k);
    }
    forall b | b in c.audit.books ensures (b.checksum, b.schema, Ready, VERSIONS) in Stored(after) {
      var k := IdOf(b);
      assert k in Ids(c.audit);
      CompletedRow(db, c, k);
      var x :| x in c.audit.books && IdOf(x) == k
               && after.snapshots[k] == StagedRow(x).(status := Ready, reconciliation := Passed, reconciled := true);
      assert x == b by {
        var i :| 0 <= i < 4 && c.audit.books[i] == x;
        var j :| 0 <= j < 4 && c.audit.books[j] == b;
      }
      assert Fingerprint(after.snapshots[k]) == (b.checksum, b.schema, Ready, VERSIONS);
    }
  }
}
