/** Provenance of source fields: assertions are stored only for cells that hold a value, and an
    absent one is reconstructed from the payload of its record. */
module SparseEvidence {
  import opened Basics
  import opened TextForms

  /** A cell of a workbook: text, or a value of another type with its text. */
  datatype Value = Str(text: string) | Other(text: string)

  type Column = string
  type Cells = map<Column, Value>

  datatype Quality = VALID | MISSING

  datatype Mapping = Mapping(column: Column, category: string, rule: string)

  datatype RecordId = RecordId(dataset: string, snapshot: string, key: string)

  /** A record with its raw and its cleaned payload; a null cell is absent. */
  datatype Record = Record(number: nat, product: string, raw: Cells, cleaned: Cells)

  datatype Assertion = Assertion(product: string, raw: Option<string>, normalized: Option<string>, quality: Quality, rule: string)

  datatype Evidence = Evidence(
    product: string, number: nat, raw: Option<string>, normalized: Option<string>, quality: Quality, rule: string, synthesized: bool)

  type Records = map<RecordId, Record>
  type Assertions = map<(RecordId, Column), Assertion>

  // ------------------------------------------------------------ cleaning

  function At(cells: Cells, c: Column): Option<Value> {
    if c in cells then Some(cells[c]) else None
  }

  /** Text is stripped; blank text, and the text NULL where the workbook writes it for null, is null. */
  function Cleaned(v: Value, literalNull: bool): Option<Value> {
    if v.Other? then Some(v)
    else if Strip(v.text) == "" || (literalNull && Strip(v.text) == "NULL") then None
    else Some(Str(Strip(v.text)))
  }

  function CleanedCells(raw: Cells, literalNull: set<Column>): Cells {
    map c | c in raw && Cleaned(raw[c], c in literalNull).Some? :: Cleaned(raw[c], c in literalNull).value
  }

  function TextOf(v: Option<Value>): Option<string> {
    if v.None? then None else Some(v.value.text)
  }

  function QualityOf(v: Option<Value>): Quality {
    if v.None? || (v.value.Str? && Strip(v.value.text) == "") then MISSING else VALID
  }

  lemma {:induction false} StripLeftIdempotent(s: string)
    ensures StripLeft(StripLeft(s)) == StripLeft(s)
    ensures StripLeft(s) != "" ==> !IsSpace(StripLeft(s)[0])
    decreases |s|
  {
    if s != "" && IsSpace(s[0]) { StripLeftIdempotent(s[1..]); }
  }

  lemma {:induction false} StripRightIsPrefix(s: string)
    ensures StripRight(s) <= s
    ensures StripRight(s) != "" ==> !IsSpace(StripRight(s)[|StripRight(s)| - 1])
    decreases |s|
  {
    if s != "" && IsSpace(s[|s| - 1]) { StripRightIsPrefix(s[..|s| - 1]); }
  }

  /** Stripped text stays as it is when stripped again. */
  lemma StripIdempotent(s: string)
    ensures Strip(Strip(s)) == Strip(s)
  {
    var l, t := StripLeft(s), Strip(s);
    StripLeftIdempotent(s);
    StripRightIsPrefix(l);
    if t != "" {
      assert t[0] == l[0];
      assert StripLeft(t) == t;
    }
  }

  /** After cleaning, a cell is missing exactly when it is null. */
  lemma CleanedIsMissingIffNull(raw: Cells, literalNull: set<Column>, c: Column)
    ensures QualityOf(At(CleanedCells(raw, literalNull), c)) == MISSING <==> c !in CleanedCells(raw, literalNull)
  {
    hide Strip;
    if c in raw { StripIdempotent(raw[c].text); }
  }

  // ------------------------------------------------------------ the two stores

  function AssertionOf(rec: Record, m: Mapping): Assertion {
    Assertion(rec.product, TextOf(At(rec.raw, m.column)), TextOf(At(rec.cleaned, m.column)), QualityOf(At(rec.cleaned, m.column)), m.rule)
  }

  ghost predicate DistinctColumns(mappings: seq<Mapping>) {
    forall i, j :: 0 <= i < j < |mappings| ==> mappings[i].column != mappings[j].column
  }

  /** The dense store: one assertion for every mapped column of every record. */
  ghost predicate IsDense(mappings: seq<Mapping>, records: Records, dense: Assertions) {
    && (forall id, m :: id in records && m in mappings ==>
          (id, m.column) in dense && dense[(id, m.column)] == AssertionOf(records[id], m))
    && (forall id, c :: (id, c) in dense ==> id in records && exists m :: m in mappings && m.column == c)
  }

  /** The sparse store: the same assertions without the missing ones. */
  ghost predicate IsSparse(mappings: seq<Mapping>, records: Records, sparse: Assertions) {
    && (forall id, m :: id in records && m in mappings && AssertionOf(records[id], m).quality != MISSING ==>
          (id, m.column) in sparse && sparse[(id, m.column)] == AssertionOf(records[id], m))
    && (forall id, c :: (id, c) in sparse ==>
          id in records && exists m :: m in mappings && m.column == c && AssertionOf(records[id], m).quality != MISSING)
  }

  ghost predicate AllClean(records: Records, literalNull: set<Column>) {
    forall id :: id in records ==> records[id].cleaned == CleanedCells(records[id].raw, literalNull)
  }

  datatype Lookup = Found(evidence: Evidence) | NoRecord | PresentWithoutAssertion

  /** `source_field`: the stored assertion, else a missing cell read from the record's payloads. */
  function SourceField(records: Records, stored: Assertions, id: RecordId, c: Column, rule: string): Lookup {
    if id !in records then NoRecord
    else if (id, c) in stored then
      var a := stored[(id, c)];
      Found(Evidence(a.product, records[id].number, a.raw, a.normalized, a.quality, a.rule, false))
    else if c in records[id].cleaned then PresentWithoutAssertion
    else Found(Evidence(records[id].product, records[id].number, TextOf(At(records[id].raw, c)), None, MISSING, rule, true))
  }

  /** Both lookups of a mapped column succeed and agree on product, row, raw value, normalised value,
      quality and rule. */
  lemma SparseIsDense(mappings: seq<Mapping>, records: Records, sparse: Assertions, dense: Assertions,
                      literalNull: set<Column>, id: RecordId, m: Mapping)
    requires IsSparse(mappings, records, sparse) && IsDense(mappings, records, dense) && AllClean(records, literalNull)
    requires DistinctColumns(mappings) && m in mappings && id in records
    ensures var s, d := SourceField(records, sparse, id, m.column, m.rule), SourceField(records, dense, id, m.column, m.rule);
      s.Found? && d.Found? && s.evidence.(synthesized := false) == d.evidence
    ensures var s := SourceField(records, sparse, id, m.column, m.rule);
      s.Found? && (s.evidence.synthesized <==> s.evidence.quality == MISSING)
      && (s.evidence.quality == MISSING <==> m.column !in records[id].cleaned)
  {
    CleanedIsMissingIffNull(records[id].raw, literalNull, m.column);
    hide Strip, CleanedCells;
    if (id, m.column) in sparse {
      var n :| n in mappings && n.column == m.column && AssertionOf(records[id], n).quality != MISSING;
      assert n == m;
    }
  }

  /** The lookup fails in two cases only: the record is unknown, or the column is not mapped and the
      cell holds a value. */
  lemma LookupFailsIff(mappings: seq<Mapping>, records: Records, sparse: Assertions, literalNull: set<Column>,
                       id: RecordId, c: Column, rule: string)
    requires IsSparse(mappings, records, sparse) && AllClean(records, literalNull)
    ensures var s := SourceField(records, sparse, id, c, rule);
      && (s == NoRecord <==> id !in records)
      && (s == PresentWithoutAssertion <==> id in records && c in records[id].cleaned && forall m :: m in mappings ==> m.column != c)
  {
    if id in records {
      CleanedIsMissingIffNull(records[id].raw, literalNull, c);
      hide Strip, CleanedCells;
      if m :| m in mappings && m.column == c {
        assert AssertionOf(records[id], m).quality == QualityOf(At(records[id].cleaned, c));
      }
    }
  }

  /** The evidence says what the assertion of the cell says. */
  predicate AsAsserted(e: Evidence, rec: Record, a: Assertion) {
    && e.product == a.product && e.number == rec.number && e.raw == a.raw && e.normalized == a.normalized
    && e.quality == a.quality && e.rule == a.rule
  }

  lemma FoundAsAsserted(mappings: seq<Mapping>, records: Records, sparse: Assertions, literalNull: set<Column>, id: RecordId, m: Mapping)
    requires IsSparse(mappings, records, sparse) && AllClean(records, literalNull)
    requires DistinctColumns(mappings) && m in mappings && id in records
    ensures var s := SourceField(records, sparse, id, m.column, m.rule);
      s.Found? && AsAsserted(s.evidence, records[id], AssertionOf(records[id], m))
  {
    CleanedIsMissingIffNull(records[id].raw, literalNull, m.column);
    hide Strip, CleanedCells;
    if (id, m.column) in sparse {
      var n :| n in mappings && n.column == m.column && AssertionOf(records[id], n).quality != MISSING;
      assert n == m;
    }
  }

  // ------------------------------------------------------------ ingestion

  /** A mapped row: its identity and its raw cells. */
  datatype Row = Row(number: nat, key: string, product: string, cells: Cells)

  class Store {
    const dataset: string
    const snapshot: string
    const mappings: seq<Mapping>
    const literalNull: set<Column>
    var records: Records
    var assertions: Assertions

    constructor (dataset: string, snapshot: string, mappings: seq<Mapping>, literalNull: set<Column>)
      ensures this.dataset == dataset && this.snapshot == snapshot && this.mappings == mappings && this.literalNull == literalNull
      ensures records == map[] && assertions == map[]
    {
      this.dataset, this.snapshot, this.mappings, this.literalNull := dataset, snapshot, mappings, literalNull;
      records, assertions := map[], map[];
    }

    /** `transform_evidence`, for the record and the assertions: the missing ones are left out. */
    method Transform(row: Row) returns (id: RecordId, rec: Record, found: Assertions)
      ensures id == RecordId(dataset, snapshot, row.key)
      ensures rec == Record(row.number, row.product, row.cells, CleanedCells(row.cells, literalNull))
      ensures DistinctColumns(mappings) ==> IsSparse(mappings, map[id := rec], found)
    {
      id := RecordId(dataset, snapshot, row.key);
      rec := Record(row.number, row.product, row.cells, CleanedCells(row.cells, literalNull));
      found := map[];
      hide QualityOf, CleanedCells;
      for i := 0 to |mappings|
        invariant DistinctColumns(mappings) ==> IsSparse(mappings[..i], map[id := rec], found)
      {
        var m := mappings[i];
        var a := AssertionOf(rec, m);
        SparseOneMore(mappings, i, id, rec, found);
        if a.quality != MISSING {
          found := found[(id, m.column) := a];
        }
      }
      assert mappings[..|mappings|] == mappings;
    }

    /** A row with a new key is loaded beside the others. */
    method Load(row: Row)
      requires DistinctColumns(mappings) && IsSparse(mappings, records, assertions) && AllClean(records, literalNull)
      requires RecordId(dataset, snapshot, row.key) !in records
      modifies `records, `assertions
      ensures IsSparse(mappings, records, assertions) && AllClean(records, literalNull)
      ensures records == old(records)[RecordId(dataset, snapshot, row.key) :=
        Record(row.number, row.product, row.cells, CleanedCells(row.cells, literalNull))]
    {
      var id, rec, found := Transform(row);
      SparseUnion(mappings, records, assertions, id, rec, found);
      records := records[id := rec];
      assertions := assertions + found;
    }

    /** In a sparse store the lookup of a mapped column finds what the row's cell says, whether or not
        an assertion is stored for it; it fails for an unknown record and for an unmapped column whose
        cell holds a value. */
    method Find(id: RecordId, c: Column, rule: string) returns (r: Lookup)
      ensures r == SourceField(records, assertions, id, c, rule)
      ensures DistinctColumns(mappings) && IsSparse(mappings, records, assertions) && AllClean(records, literalNull) ==>
        && (forall m :: m in mappings && m.column == c && m.rule == rule && id in records ==>
              r.Found? && AsAsserted(r.evidence, records[id], AssertionOf(records[id], m)))
        && (r.NoRecord? <==> id !in records)
        && (r.PresentWithoutAssertion? <==> id in records && c in records[id].cleaned && forall m :: m in mappings ==> m.column != c)
    {
      if DistinctColumns(mappings) && IsSparse(mappings, records, assertions) && AllClean(records, literalNull) {
        LookupFailsIff(mappings, records, assertions, literalNull, id, c, rule);
        forall m | m in mappings && m.column == c && m.rule == rule && id in records
          ensures SourceField(records, assertions, id, c, rule).Found?
          ensures AsAsserted(SourceField(records, assertions, id, c, rule).evidence, records[id], AssertionOf(records[id], m))
        {
          FoundAsAsserted(mappings, records, assertions, literalNull, id, m);
        }
      }
      if id !in records {
        return NoRecord;
      }
      var rec := records[id];
      if (id, c) in assertions {
        var a := assertions[(id, c)];
        return Found(Evidence(a.product, rec.number, a.raw, a.normalized, a.quality, a.rule, false));
      }
      if c in rec.cleaned {
        return PresentWithoutAssertion;
      }
      return Found(Evidence(rec.product, rec.number, TextOf(At(rec.raw, c)), None, MISSING, rule, true));
    }
  }

  lemma SparseOneMore(mappings: seq<Mapping>, i: nat, id: RecordId, rec: Record, found: Assertions)
    requires i < |mappings|
    ensures DistinctColumns(mappings) && IsSparse(mappings[..i], map[id := rec], found) ==>
      var m := mappings[i]; var a := AssertionOf(rec, m);
      IsSparse(mappings[..i + 1], map[id := rec], if a.quality != MISSING then found[(id, m.column) := a] else found)
  {
    hide AssertionOf;
    if DistinctColumns(mappings) && IsSparse(mappings[..i], map[id := rec], found) {
      assert mappings[..i + 1] == mappings[..i] + [mappings[i]];
      assert mappings[i] in mappings[..i + 1];
      forall m | m in mappings[..i] ensures m.column != mappings[i].column && m in mappings[..i + 1] {
        var j :| 0 <= j < i && mappings[..i][j] == m;
        assert mappings[j] == m;
      }
    }
  }

  lemma SparseUnion(mappings: seq<Mapping>, records: Records, sparse: Assertions, id: RecordId, rec: Record, found: Assertions)
    requires IsSparse(mappings, records, sparse) && IsSparse(mappings, map[id := rec], found) && id !in records
    ensures IsSparse(mappings, records[id := rec], sparse + found)
  {
    hide AssertionOf;
    var one, records', all := map[id := rec], records[id := rec], sparse + found;
    forall i, c | (i, c) in found ensures i == id {}
    forall i, m | i in records' && m in mappings && AssertionOf(records'[i], m).quality != MISSING
      ensures (i, m.column) in all && all[(i, m.column)] == AssertionOf(records'[i], m)
    {
      if i == id {
        assert i in one && one[i] == rec;
      } else {
        assert i in records && records[i] == records'[i];
      }
    }
    forall i, c | (i, c) in all
      ensures i in records' && exists m :: m in mappings && m.column == c && AssertionOf(records'[i], m).quality != MISSING
    {
      if (i, c) in found {
        var m :| m in mappings && m.column == c && AssertionOf(rec, m).quality != MISSING;
        assert records'[i] == rec;
      } else {
        var m :| m in mappings && m.column == c && AssertionOf(records[i], m).quality != MISSING;
        assert i != id && records'[i] == records[i];
      }
    }
  }
}
