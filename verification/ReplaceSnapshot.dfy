/** Ingesting one workbook: what a dataset and snapshot held is deleted, its rows are read once with
    the keys, products and funds seen so far, and what they give is inserted in batches. */
module ReplaceSnapshot {
  import opened Basics

  datatype Dataset = DomesticBond | DomesticEtf | ForeignEtf | PublicFund

  datatype Product = Product(dataset: Dataset, code: string)
  datatype RecordId = RecordId(dataset: Dataset, snapshot: string, key: string)

  /** Tables whose rows hang on a source record. */
  datatype Child = FieldAssertion | MetricObservation | ProductRelation | RawCode | SemanticDocument

  /** The primary or unique key of a row of any table. */
  datatype Key =
    | SourceRow(ds: Dataset, snapshot: string, key: string)
    | ProductRow(product: Product, snapshot: string)
    | AttributeRow(product: Product, snapshot: string)
    | FundRow(fund: string, snapshot: string)
    | ClassRow(product: Product, snapshot: string)
    | ProductIdentifier(product: Product, snapshot: string, kind: string, value: string)
    | QuarantineRow(ds: Dataset, snapshot: string, number: nat)
    | RecordRow(record: RecordId)
    | ChildRow(record: RecordId, table: Child, column: string)
    | OntologyIdentifier(product: Product, snapshot: string, kind: string, value: string)
    | ConflictRow(snapshot: string, kind: string, namespace: string, value: string)
    | DatasetRow(ds: Dataset, snapshot: string)

  datatype Payload =
    | Plain(text: string)
    | ClassOf(fund: string)
    | Identifying(record: RecordId, namespace: string, wellFormed: bool)

  type Db = map<Key, Payload>

  // ------------------------------------------------------------ integrity and ownership

  /** Every child row has its parents, and an identifier comes from a record of its own product's
      dataset and snapshot. */
  predicate Attached(db: Db, k: Key, v: Payload) {
    match k
    case AttributeRow(p, s) => ProductRow(p, s) in db
    case ClassRow(p, s) => p.dataset == PublicFund && ProductRow(p, s) in db && v.ClassOf? && FundRow(v.fund, s) in db
    case ChildRow(r, _, _) => RecordRow(r) in db
    case OntologyIdentifier(p, s, _, _) =>
      v.Identifying? && RecordRow(v.record) in db && v.record.dataset == p.dataset && v.record.snapshot == s
    case _ => true
  }

  ghost predicate Valid(db: Db) {
    forall k :: k in db ==> Attached(db, k, db[k])
  }

  /** The row is of the dataset and snapshot. Funds are the public funds'. */
  predicate OwnedBy(k: Key, ds: Dataset, snapshot: string) {
    match k
    case SourceRow(d, s, _) => d == ds && s == snapshot
    case ProductRow(p, s) => p.dataset == ds && s == snapshot
    case AttributeRow(p, s) => p.dataset == ds && s == snapshot
    case FundRow(_, s) => ds == PublicFund && s == snapshot
    case ClassRow(p, s) => p.dataset == ds && s == snapshot
    case ProductIdentifier(p, s, _, _) => p.dataset == ds && s == snapshot
    case QuarantineRow(d, s, _) => d == ds && s == snapshot
    case RecordRow(r) => r.dataset == ds && r.snapshot == snapshot
    case ChildRow(r, _, _) => r.dataset == ds && r.snapshot == snapshot
    case OntologyIdentifier(p, s, _, _) => p.dataset == ds && s == snapshot
    case ConflictRow(_, _, _, _) => false
    case DatasetRow(d, s) => d == ds && s == snapshot
  }

  predicate IsConflictOf(k: Key, snapshot: string) {
    k.ConflictRow? && k.snapshot == snapshot
  }

  /** Everything but the dataset's rows of the snapshot and the snapshot's identifier conflicts. */
  function Others(db: Db, ds: Dataset, snapshot: string): Db {
    map k | k in db && !OwnedBy(k, ds, snapshot) && !IsConflictOf(k, snapshot) :: db[k]
  }

  // ------------------------------------------------------------ one row

  datatype Identifier = Identifier(kind: string, value: string, namespace: string, wellFormed: bool)

  /** What mapping and evidence give for a row that is accepted. */
  datatype Mapped = Mapped(
    code: string, text: string, attributes: Option<string>, fund: Option<string>,
    identifiers: set<(string, string)>, children: map<(Child, string), string>, ontology: seq<Identifier>)

  /** A cleaned row with the verdicts of the checks made on it. */
  datatype Row = Row(number: nat, key: Option<string>, typeError: Option<string>, invalid: Option<string>,
                     mapped: Option<Mapped>, unmapped: string)

  /** What the mapper guarantees: a mapped row has a key, and only public funds, whose product is the
      row itself, have a parent fund. */
  predicate WellMapped(ds: Dataset, row: Row) {
    row.mapped.Some? ==>
      && row.key.Some?
      && (row.mapped.value.fund.Some? ==> ds == PublicFund && row.mapped.value.code == row.key.value)
  }

  predicate Accepted(seen: bool, row: Row) {
    row.typeError.None? && !seen && row.invalid.None? && row.mapped.Some?
  }

  function Reason(seen: bool, row: Row): string {
    if seen then "DUPLICATE_SOURCE_KEY"
    else if row.typeError.Some? then row.typeError.value
    else if row.invalid.Some? then row.invalid.value
    else row.unmapped
  }

  function RecordOf(ds: Dataset, snapshot: string, row: Row): RecordId {
    RecordId(ds, snapshot, row.key.GetOr(""))
  }

  predicate Seen(ds: Dataset, snapshot: string, entries: Db, row: Row) {
    row.key.Some? && RecordRow(RecordOf(ds, snapshot, row)) in entries
  }

  /** The product with its attributes and identifiers: from the first row of the product. */
  function ProductEntries(p: Product, snapshot: string, m: Mapped): Db {
    map[ProductRow(p, snapshot) := Plain(m.text)]
    + (if m.attributes.Some? then map[AttributeRow(p, snapshot) := Plain(m.attributes.value)] else map[])
    + (map x | x in m.identifiers :: ProductIdentifier(p, snapshot, x.0, x.1) := Plain(""))
  }

  function FundEntries(p: Product, snapshot: string, fund: string, known: bool): Db {
    (if known then map[] else map[FundRow(fund, snapshot) := Plain("")]) + map[ClassRow(p, snapshot) := ClassOf(fund)]
  }

  function RecordEntries(ds: Dataset, snapshot: string, row: Row, m: Mapped): Db
    requires row.key.Some?
  {
    var r := RecordOf(ds, snapshot, row);
    map[SourceRow(ds, snapshot, row.key.value) := Plain(m.text), RecordRow(r) := Plain(m.code)]
    + (map x | x in m.children :: ChildRow(r, x.0, x.1) := Plain(m.children[x]))
  }

  /** The identifiers of the row that no earlier row of the product has given. */
  function NewIdentifiers(p: Product, snapshot: string, r: RecordId, items: seq<Identifier>, entries: Db): Db
    decreases |items|
  {
    if items == [] then map[]
    else
      var init, x := NewIdentifiers(p, snapshot, r, items[..|items| - 1], entries), items[|items| - 1];
      var k := OntologyIdentifier(p, snapshot, x.kind, x.value);
      if k in entries || k in init then init else init[k := Identifying(r, x.namespace, x.wellFormed)]
  }

  function LoadedEntries(ds: Dataset, snapshot: string, entries: Db, row: Row): Db
    requires row.key.Some? && row.mapped.Some?
  {
    var m, p := row.mapped.value, Product(ds, row.mapped.value.code);
    RecordEntries(ds, snapshot, row, m)
    + (if ProductRow(p, snapshot) in entries then map[] else ProductEntries(p, snapshot, m))
    + (if m.fund.Some? then FundEntries(p, snapshot, m.fund.value, FundRow(m.fund.value, snapshot) in entries) else map[])
    + NewIdentifiers(p, snapshot, RecordOf(ds, snapshot, row), m.ontology, entries)
  }

  /** What a row adds to the entries so far. */
  function RowEntries(ds: Dataset, snapshot: string, entries: Db, row: Row): Db
    requires WellMapped(ds, row)
  {
    var seen := Seen(ds, snapshot, entries, row);
    if Accepted(seen, row) then LoadedEntries(ds, snapshot, entries, row)
    else map[QuarantineRow(ds, snapshot, row.number) := Plain(Reason(seen, row))]
  }

  ghost predicate AllMapped(ds: Dataset, rows: seq<Row>) {
    forall r :: r in rows ==> WellMapped(ds, r)
  }

  /** What the rows give, read in order: nothing but the rows goes in. */
  function Entries(ds: Dataset, snapshot: string, rows: seq<Row>): Db
    requires AllMapped(ds, rows)
    decreases |rows|
  {
    if rows == [] then map[]
    else
      var before, row := Entries(ds, snapshot, rows[..|rows| - 1]), rows[|rows| - 1];
      before + RowEntries(ds, snapshot, before, row)
  }

  // ------------------------------------------------------------ what rows give is new and attached

  /** A source row has its record, a class is a loaded row, an identifier has its product. */
  predicate Linked(entries: Db, k: Key) {
    match k
    case SourceRow(d, s, key) => RecordRow(RecordId(d, s, key)) in entries
    case ClassRow(p, s) => RecordRow(RecordId(p.dataset, s, p.code)) in entries
    case ProductIdentifier(p, s, _, _) => ProductRow(p, s) in entries
    case _ => true
  }

  ghost predicate ProperAt(ds: Dataset, snapshot: string, entries: Db, k: Key)
    requires k in entries
  {
    OwnedBy(k, ds, snapshot) && !k.DatasetRow? && Attached(entries, k, entries[k]) && Linked(entries, k)
  }

  /** The entries are the dataset's, and hang together among themselves. */
  ghost predicate Proper(ds: Dataset, snapshot: string, entries: Db) {
    forall k :: k in entries ==> ProperAt(ds, snapshot, entries, k)
  }

  lemma {:induction false} NewIdentifiersAre(p: Product, snapshot: string, r: RecordId, items: seq<Identifier>, entries: Db)
    ensures forall k :: k in NewIdentifiers(p, snapshot, r, items, entries) ==>
      k.OntologyIdentifier? && k.product == p && k.snapshot == snapshot && k !in entries
    ensures forall k :: k in NewIdentifiers(p, snapshot, r, items, entries) ==>
      var v := NewIdentifiers(p, snapshot, r, items, entries)[k]; v.Identifying? && v.record == r
    decreases |items|
  {
    if items != [] {
      NewIdentifiersAre(p, snapshot, r, items[..|items| - 1], entries);
    }
  }

  ghost predicate AllNew(more: Db, entries: Db) {
    forall k :: k in more ==> k !in entries
  }

  lemma RecordEntriesAreNew(ds: Dataset, snapshot: string, entries: Db, row: Row, m: Mapped)
    requires Proper(ds, snapshot, entries) && row.key.Some? && RecordRow(RecordOf(ds, snapshot, row)) !in entries
    ensures AllNew(RecordEntries(ds, snapshot, row, m), entries)
  {
    forall k | k in RecordEntries(ds, snapshot, row, m) ensures k !in entries {
      assert k in entries ==> ProperAt(ds, snapshot, entries, k);
    }
  }

  lemma ProductEntriesAreNew(ds: Dataset, snapshot: string, entries: Db, p: Product, m: Mapped)
    requires Proper(ds, snapshot, entries) && ProductRow(p, snapshot) !in entries
    ensures AllNew(ProductEntries(p, snapshot, m), entries)
  {
    forall k | k in ProductEntries(p, snapshot, m) ensures k !in entries {
      assert k in entries ==> ProperAt(ds, snapshot, entries, k);
    }
  }

  lemma FundEntriesAreNew(ds: Dataset, snapshot: string, entries: Db, p: Product, fund: string)
    requires Proper(ds, snapshot, entries) && RecordRow(RecordId(p.dataset, snapshot, p.code)) !in entries
    ensures AllNew(FundEntries(p, snapshot, fund, FundRow(fund, snapshot) in entries), entries)
  {
    forall k | k in FundEntries(p, snapshot, fund, FundRow(fund, snapshot) in entries) ensures k !in entries {
      assert k in entries ==> ProperAt(ds, snapshot, entries, k);
    }
  }

  /** No key that a row gives is there already, so a plain insert never violates a constraint. */
  lemma RowEntriesAreNew(ds: Dataset, snapshot: string, entries: Db, row: Row)
    requires Proper(ds, snapshot, entries) && WellMapped(ds, row) && QuarantineRow(ds, snapshot, row.number) !in entries
    ensures AllNew(RowEntries(ds, snapshot, entries, row), entries)
  {
    if Accepted(Seen(ds, snapshot, entries, row), row) {
      var m, p, r := row.mapped.value, Product(ds, row.mapped.value.code), RecordOf(ds, snapshot, row);
      NewIdentifiersAre(p, snapshot, r, m.ontology, entries);
      RecordEntriesAreNew(ds, snapshot, entries, row, m);
      if ProductRow(p, snapshot) !in entries {
        ProductEntriesAreNew(ds, snapshot, entries, p, m);
      }
      if m.fund.Some? {
        FundEntriesAreNew(ds, snapshot, entries, p, m.fund.value);
      }
      hide NewIdentifiers, RecordEntries, ProductEntries, FundEntries, Proper;
    }
  }

  // ------------------------------------------------------------ the pieces keep integrity

  /** A row stays attached when rows are added and none is replaced. */
  lemma ProperStays(ds: Dataset, snapshot: string, db: Db, more: Db, k: Key)
    requires k in db && ProperAt(ds, snapshot, db, k) && AllNew(more, db)
    ensures k in db + more && (db + more)[k] == db[k] && ProperAt(ds, snapshot, db + more, k)
  {
  }

  lemma LoadedHasParents(ds: Dataset, snapshot: string, entries: Db, row: Row)
    requires WellMapped(ds, row) && row.mapped.Some?
    ensures HasParents(ds, snapshot, row, entries + LoadedEntries(ds, snapshot, entries, row))
  {
    hide NewIdentifiers;
  }

  /** The kinds of row an accepted row gives. */
  predicate Given(ds: Dataset, snapshot: string, row: Row, k: Key, v: Payload)
    requires row.mapped.Some? && row.key.Some?
  {
    var m, p, r := row.mapped.value, Product(ds, row.mapped.value.code), RecordOf(ds, snapshot, row);
    match k
    case SourceRow(d, s, key) => d == ds && s == snapshot && key == row.key.value
    case RecordRow(id) => id == r
    case ChildRow(id, _, _) => id == r
    case ProductRow(q, s) => q == p && s == snapshot
    case AttributeRow(q, s) => q == p && s == snapshot
    case ProductIdentifier(q, s, _, _) => q == p && s == snapshot
    case FundRow(f, s) => m.fund == Some(f) && s == snapshot
    case ClassRow(q, s) => q == p && s == snapshot && m.fund.Some? && v == ClassOf(m.fund.value)
    case OntologyIdentifier(q, s, _, _) => q == p && s == snapshot && v.Identifying? && v.record == r
    case _ => false
  }

  ghost predicate AllGiven(ds: Dataset, snapshot: string, row: Row, part: Db)
    requires row.mapped.Some? && row.key.Some?
  {
    forall k :: k in part ==> Given(ds, snapshot, row, k, part[k])
  }

  lemma RecordPartIsGiven(ds: Dataset, snapshot: string, row: Row)
    requires row.mapped.Some? && row.key.Some?
    ensures AllGiven(ds, snapshot, row, RecordEntries(ds, snapshot, row, row.mapped.value))
  {
    var part := RecordEntries(ds, snapshot, row, row.mapped.value);
    forall k | k in part ensures Given(ds, snapshot, row, k, part[k]) {
    }
  }

  lemma ProductPartIsGiven(ds: Dataset, snapshot: string, row: Row)
    requires row.mapped.Some? && row.key.Some?
    ensures AllGiven(ds, snapshot, row, ProductEntries(Product(ds, row.mapped.value.code), snapshot, row.mapped.value))
  {
    var part := ProductEntries(Product(ds, row.mapped.value.code), snapshot, row.mapped.value);
    forall k | k in part ensures Given(ds, snapshot, row, k, part[k]) {
    }
  }

  lemma FundPartIsGiven(ds: Dataset, snapshot: string, row: Row, known: bool)
    requires row.mapped.Some? && row.key.Some? && row.mapped.value.fund.Some?
    ensures AllGiven(ds, snapshot, row, FundEntries(Product(ds, row.mapped.value.code), snapshot, row.mapped.value.fund.value, known))
  {
    var part := FundEntries(Product(ds, row.mapped.value.code), snapshot, row.mapped.value.fund.value, known);
    forall k | k in part ensures Given(ds, snapshot, row, k, part[k]) {
    }
  }

  lemma IdentifierPartIsGiven(ds: Dataset, snapshot: string, entries: Db, row: Row)
    requires row.mapped.Some? && row.key.Some?
    ensures AllGiven(ds, snapshot, row,
      NewIdentifiers(Product(ds, row.mapped.value.code), snapshot, RecordOf(ds, snapshot, row), row.mapped.value.ontology, entries))
  {
    NewIdentifiersAre(Product(ds, row.mapped.value.code), snapshot, RecordOf(ds, snapshot, row), row.mapped.value.ontology, entries);
    hide NewIdentifiers;
  }

  lemma UnionIsGiven(ds: Dataset, snapshot: string, row: Row, a: Db, b: Db)
    requires row.mapped.Some? && row.key.Some?
    requires AllGiven(ds, snapshot, row, a) && AllGiven(ds, snapshot, row, b)
    ensures AllGiven(ds, snapshot, row, a + b)
  {
    hide Given;
  }

  lemma LoadedIs(ds: Dataset, snapshot: string, entries: Db, row: Row)
    requires WellMapped(ds, row) && row.mapped.Some?
    ensures AllGiven(ds, snapshot, row, LoadedEntries(ds, snapshot, entries, row))
  {
    var m, p, r := row.mapped.value, Product(ds, row.mapped.value.code), RecordOf(ds, snapshot, row);
    RecordPartIsGiven(ds, snapshot, row);
    ProductPartIsGiven(ds, snapshot, row);
    if m.fund.Some? {
      FundPartIsGiven(ds, snapshot, row, FundRow(m.fund.value, snapshot) in entries);
    }
    IdentifierPartIsGiven(ds, snapshot, entries, row);
    NothingIsGiven(ds, snapshot, row);
    var a := RecordEntries(ds, snapshot, row, m);
    var b := if ProductRow(p, snapshot) in entries then map[] else ProductEntries(p, snapshot, m);
    var c := if m.fund.Some? then FundEntries(p, snapshot, m.fund.value, FundRow(m.fund.value, snapshot) in entries) else map[];
    var d := NewIdentifiers(p, snapshot, r, m.ontology, entries);
    hide NewIdentifiers, RecordEntries, ProductEntries, FundEntries, AllGiven;
    UnionIsGiven(ds, snapshot, row, a, b);
    UnionIsGiven(ds, snapshot, row, a + b, c);
    UnionIsGiven(ds, snapshot, row, a + b + c, d);
  }

  lemma NothingIsGiven(ds: Dataset, snapshot: string, row: Row)
    requires row.mapped.Some? && row.key.Some?
    ensures AllGiven(ds, snapshot, row, map[])
  {
  }

  /** The rows an accepted row gives, told by their kinds and by the parents among them. */
  ghost predicate IsLoad(ds: Dataset, snapshot: string, entries: Db, row: Row, more: Db) {
    && row.mapped.Some? && row.key.Some?
    && AllGiven(ds, snapshot, row, more)
    && HasParents(ds, snapshot, row, entries + more)
  }

  ghost predicate HasParents(ds: Dataset, snapshot: string, row: Row, all: Db)
    requires row.mapped.Some? && row.key.Some?
  {
    && RecordRow(RecordOf(ds, snapshot, row)) in all && ProductRow(Product(ds, row.mapped.value.code), snapshot) in all
    && SourceRow(ds, snapshot, row.key.value) in all
    && (row.mapped.value.fund.Some? ==> FundRow(row.mapped.value.fund.value, snapshot) in all)
  }

  lemma LoadedIsLoad(ds: Dataset, snapshot: string, entries: Db, row: Row)
    requires WellMapped(ds, row) && row.mapped.Some?
    ensures IsLoad(ds, snapshot, entries, row, LoadedEntries(ds, snapshot, entries, row))
  {
    LoadedIs(ds, snapshot, entries, row);
    LoadedHasParents(ds, snapshot, entries, row);
    hide LoadedEntries, AllGiven;
  }

  /** What the accepted row adds hangs on what is there and on itself. */
  lemma LoadIsProper(ds: Dataset, snapshot: string, row: Row, k: Key, v: Payload, all: Db)
    requires WellMapped(ds, row) && row.mapped.Some? && HasParents(ds, snapshot, row, all)
    requires Given(ds, snapshot, row, k, v) && k in all && all[k] == v
    ensures ProperAt(ds, snapshot, all, k)
  {
  }

  // ------------------------------------------------------------ all rows

  /** Adding a row to proper entries keeps them proper. */
  lemma RowKeepsProper(ds: Dataset, snapshot: string, entries: Db, row: Row)
    requires Proper(ds, snapshot, entries) && WellMapped(ds, row) && QuarantineRow(ds, snapshot, row.number) !in entries
    ensures Proper(ds, snapshot, entries + RowEntries(ds, snapshot, entries, row))
  {
    RowEntriesAreNew(ds, snapshot, entries, row);
    if Accepted(Seen(ds, snapshot, entries, row), row) {
      LoadedKeepsProper(ds, snapshot, entries, row);
    } else {
      QuarantineKeepsProper(ds, snapshot, entries, row, Plain(Reason(Seen(ds, snapshot, entries, row), row)));
    }
    hide LoadedEntries, Proper;
  }

  lemma QuarantineKeepsProper(ds: Dataset, snapshot: string, entries: Db, row: Row, v: Payload)
    requires Proper(ds, snapshot, entries) && QuarantineRow(ds, snapshot, row.number) !in entries
    ensures Proper(ds, snapshot, entries + map[QuarantineRow(ds, snapshot, row.number) := v])
  {
    var more := map[QuarantineRow(ds, snapshot, row.number) := v];
    var all := entries + more;
    forall k | k in all ensures ProperAt(ds, snapshot, all, k) {
      if k in entries {
        ProperStays(ds, snapshot, entries, more, k);
      }
    }
  }

  lemma LoadedKeepsProper(ds: Dataset, snapshot: string, entries: Db, row: Row)
    requires Proper(ds, snapshot, entries) && WellMapped(ds, row) && row.mapped.Some?
    requires AllNew(LoadedEntries(ds, snapshot, entries, row), entries)
    ensures Proper(ds, snapshot, entries + LoadedEntries(ds, snapshot, entries, row))
  {
    LoadedIsLoad(ds, snapshot, entries, row);
    LoadKeepsProper(ds, snapshot, entries, row, LoadedEntries(ds, snapshot, entries, row));
    hide LoadedEntries, IsLoad, Proper;
  }

  lemma LoadKeepsProper(ds: Dataset, snapshot: string, entries: Db, row: Row, more: Db)
    requires Proper(ds, snapshot, entries) && WellMapped(ds, row) && IsLoad(ds, snapshot, entries, row, more) && AllNew(more, entries)
    ensures Proper(ds, snapshot, entries + more)
  {
    var all := entries + more;
    hide ProperAt, WellMapped, Given, HasParents;
    forall k | k in all ensures ProperAt(ds, snapshot, all, k) {
      if k in more {
        LoadIsProper(ds, snapshot, row, k, more[k], all);
      } else {
        ProperStays(ds, snapshot, entries, more, k);
      }
    }
  }

  ghost predicate DistinctNumbers(rows: seq<Row>) {
    forall i, j :: 0 <= i < j < |rows| ==> rows[i].number != rows[j].number
  }

  lemma GivenKinds(ds: Dataset, snapshot: string, row: Row, k: Key, v: Payload)
    requires row.mapped.Some? && row.key.Some? && Given(ds, snapshot, row, k, v)
    ensures k.RecordRow? ==> k.record == RecordOf(ds, snapshot, row)
    ensures !k.QuarantineRow?
  {
  }

  lemma AcceptedGives(ds: Dataset, snapshot: string, entries: Db, row: Row, k: Key)
    requires WellMapped(ds, row) && row.mapped.Some? && k in LoadedEntries(ds, snapshot, entries, row)
    ensures k.RecordRow? ==> k.record == RecordOf(ds, snapshot, row)
    ensures !k.QuarantineRow?
  {
    LoadedIs(ds, snapshot, entries, row);
    hide LoadedEntries, RecordOf, WellMapped, Given;
    GivenKinds(ds, snapshot, row, k, LoadedEntries(ds, snapshot, entries, row)[k]);
  }

  /** A row gives at most one record and one quarantine row, its own. */
  lemma RowGives(ds: Dataset, snapshot: string, entries: Db, row: Row, k: Key)
    requires WellMapped(ds, row) && k in RowEntries(ds, snapshot, entries, row)
    ensures k.RecordRow? ==> Accepted(Seen(ds, snapshot, entries, row), row) && k.record == RecordOf(ds, snapshot, row)
    ensures k.QuarantineRow? ==> k.number == row.number
  {
    if Accepted(Seen(ds, snapshot, entries, row), row) {
      AcceptedGives(ds, snapshot, entries, row, k);
    }
    hide LoadedEntries, RecordOf, Seen;
  }

  lemma {:induction false} QuarantineIsOfSomeRow(ds: Dataset, snapshot: string, rows: seq<Row>, number: nat)
    requires AllMapped(ds, rows) && QuarantineRow(ds, snapshot, number) in Entries(ds, snapshot, rows)
    ensures exists i :: 0 <= i < |rows| && rows[i].number == number
    decreases |rows|
  {
    if rows != [] {
      var init, row := rows[..|rows| - 1], rows[|rows| - 1];
      var before := Entries(ds, snapshot, init);
      hide RowEntries, WellMapped;
      if QuarantineRow(ds, snapshot, number) in before {
        QuarantineIsOfSomeRow(ds, snapshot, init, number);
        var i :| 0 <= i < |init| && init[i].number == number;
        assert rows[i].number == number;
      } else {
        RowGives(ds, snapshot, before, row, QuarantineRow(ds, snapshot, number));
      }
    }
  }

  /** What the rows of a workbook give hangs together, and each row adds only new keys. */
  lemma {:induction false} EntriesAreProper(ds: Dataset, snapshot: string, rows: seq<Row>)
    requires AllMapped(ds, rows) && DistinctNumbers(rows)
    ensures Proper(ds, snapshot, Entries(ds, snapshot, rows))
    ensures rows != [] ==>
      var before := Entries(ds, snapshot, rows[..|rows| - 1]); AllNew(RowEntries(ds, snapshot, before, rows[|rows| - 1]), before)
    decreases |rows|
  {
    if rows != [] {
      var init, row := rows[..|rows| - 1], rows[|rows| - 1];
      var before := Entries(ds, snapshot, init);
      EntriesAreProper(ds, snapshot, init);
      if QuarantineRow(ds, snapshot, row.number) in before {
        QuarantineIsOfSomeRow(ds, snapshot, init, row.number);
      }
      hide RowEntries, Proper, WellMapped;
      RowKeepsProper(ds, snapshot, before, row);
      RowEntriesAreNew(ds, snapshot, before, row);
    }
  }

  // ------------------------------------------------------------ counts

  datatype Counters = Counters(source: nat, loaded: nat, quarantined: nat, duplicates: nat)

  function Counts(ds: Dataset, snapshot: string, rows: seq<Row>): Counters
    requires AllMapped(ds, rows)
    decreases |rows|
  {
    if rows == [] then Counters(0, 0, 0, 0)
    else
      var init, row := rows[..|rows| - 1], rows[|rows| - 1];
      var c, seen := Counts(ds, snapshot, init), Seen(ds, snapshot, Entries(ds, snapshot, init), row);
      Counters(
        c.source + 1,
        if Accepted(seen, row) then c.loaded + 1 else c.loaded,
        if Accepted(seen, row) then c.quarantined else c.quarantined + 1,
        if seen then c.duplicates + 1 else c.duplicates)
  }

  /** The records among the entries. */
  function RecordsOf(entries: Db): set<RecordId> {
    set k | k in entries && k.RecordRow? :: k.record
  }

  lemma RecordsOneMore(ds: Dataset, snapshot: string, entries: Db, row: Row)
    requires WellMapped(ds, row)
    ensures RecordsOf(entries + RowEntries(ds, snapshot, entries, row)) ==
      RecordsOf(entries) + if Accepted(Seen(ds, snapshot, entries, row), row) then {RecordOf(ds, snapshot, row)} else {}
  {
    var more := RowEntries(ds, snapshot, entries, row);
    if Accepted(Seen(ds, snapshot, entries, row), row) {
      RecordIsGiven(ds, snapshot, entries, row);
    }
    forall k | k in more && k.RecordRow? ensures Accepted(Seen(ds, snapshot, entries, row), row) && k.record == RecordOf(ds, snapshot, row) {
      RowGives(ds, snapshot, entries, row, k);
    }
    hide RowEntries, WellMapped, Seen, RecordOf;
    RecordsOfUnion(entries, more);
    if Accepted(Seen(ds, snapshot, entries, row), row) {
      assert RecordRow(RecordOf(ds, snapshot, row)) in more;
    }
    assert RecordsOf(more) == if Accepted(Seen(ds, snapshot, entries, row), row) then {RecordOf(ds, snapshot, row)} else {};
  }

  lemma RecordIsGiven(ds: Dataset, snapshot: string, entries: Db, row: Row)
    requires WellMapped(ds, row) && Accepted(Seen(ds, snapshot, entries, row), row)
    ensures RecordRow(RecordOf(ds, snapshot, row)) in RowEntries(ds, snapshot, entries, row)
  {
    hide NewIdentifiers, ProductEntries, FundEntries;
  }

  lemma RecordsOfUnion(a: Db, b: Db)
    ensures RecordsOf(a + b) == RecordsOf(a) + RecordsOf(b)
  {
  }

  /** Every row read is loaded or quarantined, duplicates are among the quarantined, and the loaded
      rows have as many distinct source records as there are of them. */
  lemma {:induction false} CountsAddUp(ds: Dataset, snapshot: string, rows: seq<Row>)
    requires AllMapped(ds, rows)
    ensures var c := Counts(ds, snapshot, rows);
      && c.source == |rows| == c.loaded + c.quarantined && c.duplicates <= c.quarantined
      && |RecordsOf(Entries(ds, snapshot, rows))| == c.loaded
    decreases |rows|
  {
    if rows == [] {
      assert RecordsOf(map[]) == {};
    } else {
      var init, row := rows[..|rows| - 1], rows[|rows| - 1];
      CountsAddUp(ds, snapshot, init);
      RecordsOneMore(ds, snapshot, Entries(ds, snapshot, init), row);
      hide RowEntries, WellMapped;
      if Accepted(Seen(ds, snapshot, Entries(ds, snapshot, init), row), row) {
        assert RecordOf(ds, snapshot, row) !in RecordsOf(Entries(ds, snapshot, init));
      }
    }
  }
}
