/** Where the order of the source rows can and cannot be seen in the canonical tables. */
module RowOrder {
  import opened Basics
  import opened RebuildRows
  import opened TwoPassFacts

  // ------------------------------------------------------------ two emissions under one id

  /** Rows with one record key are one row: the source's own key is unique. */
  ghost predicate DistinctRecords(rows: seq<Row>) {
    forall r, s :: r in rows && s in rows && RecordOf(r) == RecordOf(s) ==> r == s
  }

  /** Every row has a record of its own. */
  ghost predicate OneRowPerRecord(rows: seq<Row>) {
    forall i, j :: 0 <= i < j < |rows| ==> RecordOf(rows[i]) != RecordOf(rows[j])
  }

  /** The records that the rows leave in the source-record table, where a repeated key is ignored. */
  function RecordsOf(rows: seq<Row>): set<RecordId>
    decreases |rows|
  {
    if rows == [] then {} else RecordsOf(rows[..|rows| - 1]) + {RecordOf(rows[|rows| - 1])}
  }

  lemma {:induction false} RecordsOfRows(rows: seq<Row>)
    ensures forall id :: id in RecordsOf(rows) <==> exists i :: 0 <= i < |rows| && RecordOf(rows[i]) == id
    ensures |RecordsOf(rows)| <= |rows|
    decreases |rows|
  {
    hide RecordOf;
    if rows != [] {
      var init, last := rows[..|rows| - 1], rows[|rows| - 1];
      RecordsOfRows(init);
      assert forall i :: 0 <= i < |init| ==> rows[i] == init[i];
    }
  }

  /** The reconciliation's count of stored records equals the count of accepted rows exactly when no
      source key is repeated; rows with one key are then one row. */
  lemma {:induction false} CountCheckIff(rows: seq<Row>)
    ensures |RecordsOf(rows)| == |rows| <==> OneRowPerRecord(rows)
    ensures OneRowPerRecord(rows) ==> DistinctRecords(rows)
    decreases |rows|
  {
    hide RecordOf;
    if rows != [] {
      var init, last := rows[..|rows| - 1], rows[|rows| - 1];
      CountCheckIff(init);
      RecordsOfRows(init);
      assert forall i :: 0 <= i < |init| ==> rows[i] == init[i];
      if RecordOf(last) in RecordsOf(init) {
        var i :| 0 <= i < |init| && RecordOf(init[i]) == RecordOf(last);
        assert RecordOf(rows[i]) == RecordOf(rows[|rows| - 1]);
      }
      assert OneRowPerRecord(rows) <==> OneRowPerRecord(init) && RecordOf(last) !in RecordsOf(init);
    }
  }

  /** A scalar of a bond depends on the row only through cells the rows agree about; any other
      subject has one row. */
  lemma ScalarsAgree(lex: Lexicon, k: Knowledge, rows: seq<Row>, r: Row, s: Row, em: Emission, em': Emission)
    requires Knows(lex, k, rows) && DistinctRecords(rows) && r in rows && s in rows
    requires em.fact.key.Scalar? && em.fact == em'.fact
    requires RowEmits(lex, k, r, em) && RowEmits(lex, k, s, em')
    ensures em.body == em'.body
  {
    hide ScalarEvidence, EtpScalar, FundScalar, BondScalar;
    if r.Bond? {
      assert s.Bond? && s.isin == r.isin;
      BondScalarsAgree(lex, k, rows, r, s, em.fact.key.name);
    } else {
      assert RecordOf(r) == RecordOf(s);
    }
  }

  lemma AgreedCellsAgree(lex: Lexicon, k: Knowledge, rows: seq<Row>, r: Row, s: Row, f: Field)
    requires Knows(lex, k, rows) && r in rows && s in rows && r.Bond? && s.Bond? && r.isin == s.isin && Audited(r, f)
    ensures var e := Product(PRBD01N001, r.isin);
      Agreed(k, r, e, f).Some? && Agreed(k, s, e, f).Some? ==> Agreed(k, r, e, f) == Agreed(k, s, e, f)
  {
    var e := Product(PRBD01N001, r.isin);
    hide IsLatest;
    if Agreed(k, r, e, f).Some? && Agreed(k, s, e, f).Some? {
      assert r.cells[f] in ValuesOf(rows, e, f) && s.cells[f] in ValuesOf(rows, e, f);
    }
  }

  lemma BondScalarsAgree(lex: Lexicon, k: Knowledge, rows: seq<Row>, r: Row, s: Row, n: ScalarName)
    requires Knows(lex, k, rows) && r in rows && s in rows && r.Bond? && s.Bond? && r.isin == s.isin
    ensures BondScalar(lex, k, r, n).Some? && BondScalar(lex, k, s, n).Some? ==> BondScalar(lex, k, r, n) == BondScalar(lex, k, s, n)
  {
    AgreedCellsAgree(lex, k, rows, r, s, pd_nm);
    AgreedCellsAgree(lex, k, rows, r, s, isu_dt);
    AgreedCellsAgree(lex, k, rows, r, s, mat_dt);
    AgreedCellsAgree(lex, k, rows, r, s, isu_bal_amt);
    hide Knows, Agreed;
  }

  /** Two emissions under one fact id have one body, for every kind of fact but the credit rating. */
  lemma OneBodyPerFact(lex: Lexicon, k: Knowledge, rows: seq<Row>, em: Emission, em': Emission)
    requires Knows(lex, k, rows) && DistinctRecords(rows)
    requires Emitted(lex, k, rows, em) && Emitted(lex, k, rows, em')
    requires em.fact == em'.fact && !em.fact.key.CreditRating?
    ensures em.body == em'.body
  {
    hide SlotEmission, Knows, DistinctRecords, ValuesOf;
    if !em.fact.key.DisputedValue? {
      var r :| r in rows && RowEmits(lex, k, r, em);
      var s :| s in rows && RowEmits(lex, k, s, em');
      if em.fact.key.Scalar? {
        ScalarsAgree(lex, k, rows, r, s, em, em');
      } else if em.fact.key.Metric? {
        MetricsAgree(lex, k, rows, r, s, em, em');
      } else {
        BodyOfKey(lex, k, r, em);
        BodyOfKey(lex, k, s, em');
      }
    }
  }

  lemma MetricsAgree(lex: Lexicon, k: Knowledge, rows: seq<Row>, r: Row, s: Row, em: Emission, em': Emission)
    requires DistinctRecords(rows) && r in rows && s in rows
    requires em.fact.key.Metric? && em.fact == em'.fact
    requires RowEmits(lex, k, r, em) && RowEmits(lex, k, s, em')
    ensures em.body == em'.body
  {
    hide MetricOf, Comparable, RowCurrency, MetricSubject, RecordOf, Asserts;
    assert RecordOf(r) == em.fact.key.source.record == RecordOf(s);
  }

  lemma BodyOfKey(lex: Lexicon, k: Knowledge, row: Row, em: Emission)
    requires RowEmits(lex, k, row, em)
    ensures em.fact.key.Class? || em.fact.key.Related? ==> em.body == Tie
    ensures em.fact.key.DisputedClass? ==> em.body == Disputed
  {
    hide ClassField, ClassText, ClassEvidence, RelationTarget, RelationEvidence, Subject, RelationSubject;
    hide ScalarEmission, MetricEmission, RatingEmission;
  }

  // ------------------------------------------------------------ any order of the rows

  lemma SameKnowledge(lex: Lexicon, k: Knowledge, k': Knowledge, rows: seq<Row>, rows': seq<Row>)
    requires Knows(lex, k, rows) && Knows(lex, k', rows')
    requires forall r :: r in rows <==> r in rows'
    ensures k == k'
  {
    hide Support, Audited, PriceDate;
    forall e, f ensures ValuesOf(rows, e, f) == ValuesOf(rows', e, f) { }
    assert k.disputed == k'.disputed by {
      forall p: (EntityId, Field) ensures p in k.disputed <==> p in k'.disputed {
        assert p == (p.0, p.1);
        assert (p.0, p.1) in k.disputed <==> Disagree(rows, p.0, p.1);
        assert (p.0, p.1) in k'.disputed <==> Disagree(rows', p.0, p.1);
      }
    }
    hide ValuesOf;
    SameLatest(lex, rows, rows', PREF01N001, k.latestKr, k'.latestKr);
    SameLatest(lex, rows, rows', PREF02N001, k.latestGl, k'.latestGl);
  }

  lemma SameLatest(lex: Lexicon, rows: seq<Row>, rows': seq<Row>, ds: Dataset, d: Option<int>, d': Option<int>)
    requires forall r :: r in rows <==> r in rows'
    requires IsLatest(lex, rows, ds, d) && IsLatest(lex, rows', ds, d')
    ensures d == d'
  {
    hide PriceDate, DatasetOf;
  }

  lemma SameEmissions(lex: Lexicon, k: Knowledge, rows: seq<Row>, rows': seq<Row>, em: Emission)
    requires forall r :: r in rows <==> r in rows'
    ensures Emitted(lex, k, rows, em) <==> Emitted(lex, k, rows', em)
  {
    hide RowEmits, Support, Audited, States;
    forall e, f ensures ValuesOf(rows, e, f) == ValuesOf(rows', e, f) { }
    forall e, f, v ensures Candidate(lex, rows, e, f, v) == Candidate(lex, rows', e, f, v) {
      assert Asserters(rows, e, f, v) == Asserters(rows', e, f, v);
    }
  }

  /** Two rebuilds from the same rows in any two orders store the same facts with the same bodies
      and the same evidence; only the body of a credit rating may differ. */
  lemma OrderOfRowsDoesNotMatter(lex: Lexicon, k: Knowledge, rows: seq<Row>, facts: Facts, links: Links,
                                 k': Knowledge, rows': seq<Row>, facts': Facts, links': Links)
    requires multiset(rows) == multiset(rows') && DistinctRecords(rows)
    requires Knows(lex, k, rows) && Holds(lex, k, rows, facts, links)
    requires Knows(lex, k', rows') && Holds(lex, k', rows', facts', links')
    ensures links == links' && facts.Keys == facts'.Keys
    ensures forall id :: id in facts && !id.key.CreditRating? ==> facts[id] == facts'[id]
  {
    assert forall r :: r in rows <==> r in rows' by {
      assert forall r :: r in rows <==> r in multiset(rows);
      assert forall r :: r in rows' <==> r in multiset(rows');
    }
    SameKnowledge(lex, k, k', rows, rows');
    assert SameEmitted(lex, k, rows, rows') by {
      forall em ensures Emitted(lex, k, rows, em) <==> Emitted(lex, k, rows', em) {
        SameEmissions(lex, k, rows, rows', em);
      }
    }
    hide Emitted, Knows, DistinctRecords, Holds;
    SameLinks(lex, k, rows, facts, links, rows', facts', links');
    SameFacts(lex, k, rows, facts, links, rows', facts', links');
  }

  ghost predicate SameEmitted(lex: Lexicon, k: Knowledge, rows: seq<Row>, rows': seq<Row>) {
    forall em :: Emitted(lex, k, rows, em) <==> Emitted(lex, k, rows', em)
  }

  lemma SameLinks(lex: Lexicon, k: Knowledge, rows: seq<Row>, facts: Facts, links: Links, rows': seq<Row>, facts': Facts, links': Links)
    requires SameEmitted(lex, k, rows, rows') && Holds(lex, k, rows, facts, links) && Holds(lex, k, rows', facts', links')
    ensures links == links'
  {
    hide Emitted;
    forall p: (FactId, AssertionId) ensures p in links <==> p in links' {
      assert p == (p.0, p.1);
    }
  }

  lemma SameFacts(lex: Lexicon, k: Knowledge, rows: seq<Row>, facts: Facts, links: Links, rows': seq<Row>, facts': Facts, links': Links)
    requires SameEmitted(lex, k, rows, rows') && Knows(lex, k, rows) && DistinctRecords(rows)
    requires Holds(lex, k, rows, facts, links) && Holds(lex, k, rows', facts', links')
    ensures facts.Keys == facts'.Keys
    ensures forall id :: id in facts && !id.key.CreditRating? ==> facts[id] == facts'[id]
  {
    hide Emitted, Knows, DistinctRecords;
    forall id | id in facts && !id.key.CreditRating? ensures id in facts' && facts[id] == facts'[id] {
      var em :| Emitted(lex, k, rows, em) && em.fact == id && em.body == facts[id];
      var em' :| Emitted(lex, k, rows', em') && em'.fact == id && em'.body == facts'[id];
      OneBodyPerFact(lex, k, rows, em, em');
    }
  }

  // ------------------------------------------------------------ the risk grade of a bond

  /** A bond's risk grades: no check between rows covers the code that stands in for a missing
      name, so every concept that some row's name or code maps to is resolved, unless the names
      themselves disagree. */
  lemma RiskGradesOfBond(lex: Lexicon, k: Knowledge, rows: seq<Row>, facts: Facts, links: Links, isin: string, concept: string)
    requires Knows(lex, k, rows) && Holds(lex, k, rows, facts, links)
    ensures var e := Product(PRBD01N001, isin);
      FactId(e, PRBD01N001, Class(RiskGrade, concept)) in facts <==>
      !Disagree(rows, e, pd_risk_nm) && exists r :: r in rows && GradedAs(lex, r, isin, concept)
  {
    var e := Product(PRBD01N001, isin);
    var id := FactId(e, PRBD01N001, Class(RiskGrade, concept));
    hide Disagree, IsLatest, RowEmits, GradedAs;
    if id in facts {
      var em :| Emitted(lex, k, rows, em) && em.fact == id;
      assert !IsCandidate(lex, k, rows, em);
      var r :| r in rows && RowEmits(lex, k, r, em);
      RiskGradeOfRow(lex, k, r, isin, concept);
      assert em == Emission(id, em.body, em.evidence);
    }
    if !Disagree(rows, e, pd_risk_nm) && exists r :: r in rows && GradedAs(lex, r, isin, concept) {
      var r :| r in rows && GradedAs(lex, r, isin, concept);
      RiskGradeOfRow(lex, k, r, isin, concept);
    }
  }

  predicate GradedAs(lex: Lexicon, r: Row, isin: string, concept: string) {
    && r.Bond? && r.isin == isin
    && ClassText(r, RiskGrade).Some? && lex.concept(RiskGrade, ClassText(r, RiskGrade).value) == Some(concept)
  }

  lemma RiskGradeOfRow(lex: Lexicon, k: Knowledge, r: Row, isin: string, concept: string)
    ensures var e := Product(PRBD01N001, isin);
      var id := FactId(e, PRBD01N001, Class(RiskGrade, concept));
      && ((e, pd_risk_nm) !in k.disputed && GradedAs(lex, r, isin, concept) ==> exists em :: RowEmits(lex, k, r, em) && em.fact == id)
      && (forall em :: RowEmits(lex, k, r, em) && em.fact == id ==> (e, pd_risk_nm) !in k.disputed && GradedAs(lex, r, isin, concept))
  {
    var e := Product(PRBD01N001, isin);
    var id := FactId(e, PRBD01N001, Class(RiskGrade, concept));
    if (e, pd_risk_nm) !in k.disputed && GradedAs(lex, r, isin, concept) {
      assert RowEmits(lex, k, r, Emission(id, Tie, ClassEvidence(r, pd_risk_nm)));
    }
  }

  /** So two rows of one bond that do not contradict each other in any column can give it two grades:
      one names its grade, the other only has a code. */
  lemma CodeStandsInForName(lex: Lexicon, k: Knowledge, rows: seq<Row>, facts: Facts, links: Links, isin: string, named: Row, coded: Row, c: string, d: string)
    requires named.Bond? && named.isin == isin && named.cells.Keys == {pd_no, pd_nm, pd_risk_nm}
    requires coded.Bond? && coded.isin == isin && coded.cells.Keys == {pd_no, pd_nm, pd_risk_gcd}
    requires named.cells[pd_no] == isin == coded.cells[pd_no] && named.cells[pd_nm] == coded.cells[pd_nm]
    requires lex.concept(RiskGrade, named.cells[pd_risk_nm]) == Some(c) && lex.concept(RiskGrade, coded.cells[pd_risk_gcd]) == Some(d)
    requires c != d && rows == [named, coded] && Knows(lex, k, rows) && Holds(lex, k, rows, facts, links)
    ensures FactId(Product(PRBD01N001, isin), PRBD01N001, Class(RiskGrade, c)) in facts
    ensures FactId(Product(PRBD01N001, isin), PRBD01N001, Class(RiskGrade, d)) in facts
  {
    assert named in rows && coded in rows;
    OnlyFirstNames(named, coded);
    hide Knows, Holds, Disagree;
    assert GradedAs(lex, named, isin, c) && GradedAs(lex, coded, isin, d);
    hide GradedAs;
    RiskGradesOfBond(lex, k, rows, facts, links, isin, c);
    RiskGradesOfBond(lex, k, rows, facts, links, isin, d);
  }

  lemma OnlyFirstNames(named: Row, coded: Row)
    requires pd_risk_nm in named.cells && pd_risk_nm !in coded.cells
    ensures forall e :: !Disagree([named, coded], e, pd_risk_nm)
  {
    hide Support, Audited;
    forall e, v | v in ValuesOf([named, coded], e, pd_risk_nm) ensures v == named.cells[pd_risk_nm] {
    }
    hide ValuesOf;
  }

  // ------------------------------------------------------------ the dates in the bonds table

  /** The row of the bonds table that one source row would insert. */
  function BondDates(lex: Lexicon, k: Knowledge, row: Row): (Option<Body>, Option<Body>) {
    var e := Product(PRBD01N001, if row.Bond? then row.isin else "");
    (DateBody(lex, Agreed(k, row, e, isu_dt)), DateBody(lex, Agreed(k, row, e, mat_dt)))
  }

  function FirstBond(rows: seq<Row>, isin: string): Option<Row>
    decreases |rows|
  {
    if rows == [] then None
    else if rows[0].Bond? && rows[0].isin == isin then Some(rows[0])
    else FirstBond(rows[1..], isin)
  }

  type Bonds = map<string, (Option<Body>, Option<Body>)>

  /** Insert-or-ignore keeps what the first row of a bond gave. */
  ghost predicate BondsHold(lex: Lexicon, k: Knowledge, rows: seq<Row>, bonds: Bonds) {
    forall isin ::
      && (isin in bonds <==> FirstBond(rows, isin).Some?)
      && (isin in bonds ==> bonds[isin] == BondDates(lex, k, FirstBond(rows, isin).value))
  }

  lemma {:induction false} FirstBondIsARow(rows: seq<Row>, isin: string)
    ensures FirstBond(rows, isin).Some? ==>
      FirstBond(rows, isin).value in rows && FirstBond(rows, isin).value.Bond? && FirstBond(rows, isin).value.isin == isin
    decreases |rows|
  {
    if rows != [] {
      FirstBondIsARow(rows[1..], isin);
    }
  }

  /** The two dates of the bonds table, with their columns and facts. */
  datatype BondDate = Issued | Matures {
    function Column(): Field { if Issued? then isu_dt else mat_dt }

    function Fact(isin: string): FactId {
      FactId(Product(PRBD01N001, isin), PRBD01N001, Scalar(if Issued? then IssueDate else MaturityDate))
    }

    function Of(dates: (Option<Body>, Option<Body>)): Option<Body> { if Issued? then dates.0 else dates.1 }
  }

  /** Either date of the bonds table is the resolved one exactly when there is none, or the first row
      of the bond states it: a first row with an empty cell leaves the column empty beside a resolved
      fact. */
  lemma BondDateFollowsFirstRow(lex: Lexicon, k: Knowledge, rows: seq<Row>, facts: Facts, links: Links, bonds: Bonds, isin: string, d: BondDate)
    requires Knows(lex, k, rows) && Holds(lex, k, rows, facts, links) && BondsHold(lex, k, rows, bonds) && isin in bonds
    ensures var id := d.Fact(isin);
      var resolved := if id in facts then Some(facts[id]) else None;
      d.Of(bonds[isin]) == resolved <==> resolved.None? || d.Column() in FirstBond(rows, isin).value.cells
  {
    var e, id, f := Product(PRBD01N001, isin), d.Fact(isin), d.Column();
    var first := FirstBond(rows, isin).value;
    FirstBondIsARow(rows, isin);
    NoFirstRowSelection(lex, k, rows, facts, links, id);
    assert d.Of(bonds[isin]) == DateBody(lex, Agreed(k, first, e, f));
    hide Holds, BondsHold, FirstBond;
    if f in first.cells {
      SoleUnlessDisputed(lex, k, rows, first, e, f);
      hide Knows, SoleValue, States;
      BondDateMeans(lex, d, isin, first.cells[f]);
      if id in facts {
        var v :| SoleValue(rows, e, f, v) && IsMeaning(lex, id, f, v);
        SoleIs(rows, first, e, f, v);
      }
    } else {
      hide Knows, SoleValue, IsMeaning, Meaning, DecidedBy;
      assert DecidedBy(id) == Some(f) by { BondDateMeans(lex, d, isin, ""); }
    }
  }

  lemma SoleIs(rows: seq<Row>, row: Row, e: EntityId, f: Field, v: string)
    requires row in rows && f in row.cells && States(row, e, f, row.cells[f]) && SoleValue(rows, e, f, v)
    ensures v == row.cells[f]
  {
    hide Support, Audited;
    assert row.cells[f] in ValuesOf(rows, e, f);
  }

  lemma BondDateMeans(lex: Lexicon, d: BondDate, isin: string, v: string)
    ensures DecidedBy(d.Fact(isin)) == Some(d.Column())
    ensures Meaning(lex, Product(PRBD01N001, isin), d.Column(), v) ==
      if lex.date(v).None? then None else Some((d.Fact(isin), Date(lex.date(v).value)))
  {
  }

  // ------------------------------------------------------------ the credit rating

  function RatingFact(isin: string): FactId {
    FactId(Product(PRBD01N001, isin), PRBD01N001, CreditRating)
  }

  /** The rating a row writes for the bond. */
  function RatingOf(lex: Lexicon, row: Row, isin: string): Option<Body> {
    var em := RatingEmission(lex, row);
    if row.Bond? && row.isin == isin && em.Some? then Some(em.value.body) else None
  }

  /** Metric rows replace what is there, so the last row that states a rating wins. */
  function LastRating(lex: Lexicon, rows: seq<Row>, isin: string): Option<Body>
    decreases |rows|
  {
    if rows == [] then None
    else
      var last := rows[|rows| - 1];
      if RatingOf(lex, last, isin).Some? then RatingOf(lex, last, isin) else LastRating(lex, rows[..|rows| - 1], isin)
  }

  lemma {:induction false} LastRatingIsSomeRows(lex: Lexicon, rows: seq<Row>, isin: string)
    ensures LastRating(lex, rows, isin).Some? <==> exists r :: r in rows && RatingOf(lex, r, isin).Some?
    ensures LastRating(lex, rows, isin).Some? ==> exists r :: r in rows && RatingOf(lex, r, isin) == LastRating(lex, rows, isin)
    decreases |rows|
  {
    hide RatingOf;
    if rows != [] {
      var init := rows[..|rows| - 1];
      LastRatingIsSomeRows(lex, init, isin);
      assert rows == init + [rows[|rows| - 1]];
    }
  }

  ghost predicate SameInEveryOrder(lex: Lexicon, rows: seq<Row>, isin: string) {
    forall rows' :: multiset(rows') == multiset(rows) ==> LastRating(lex, rows', isin) == LastRating(lex, rows, isin)
  }

  lemma OneRatingIsStored(lex: Lexicon, rows: seq<Row>, rows': seq<Row>, isin: string)
    requires OneRating(lex, rows, isin) && multiset(rows') == multiset(rows)
    ensures LastRating(lex, rows', isin) == LastRating(lex, rows, isin)
  {
    assert forall r :: r in rows <==> r in multiset(rows);
    assert forall r :: r in rows' <==> r in multiset(rows');
    LastRatingIsSomeRows(lex, rows, isin);
    LastRatingIsSomeRows(lex, rows', isin);
    hide RatingOf, LastRating;
  }

  lemma LastRowWins(lex: Lexicon, rows: seq<Row>, isin: string, r: Row)
    requires SameInEveryOrder(lex, rows, isin) && r in rows && RatingOf(lex, r, isin).Some?
    ensures RatingOf(lex, r, isin) == LastRating(lex, rows, isin)
  {
    hide RatingOf;
    var rows' := MovedLast(rows, r);
    assert LastRating(lex, rows', isin) == RatingOf(lex, r, isin);
  }

  /** The stored rating of a bond is the same for every order of the rows exactly when no two
      rows of the bond write different ratings. */
  lemma RatingFollowsLastRow(lex: Lexicon, rows: seq<Row>, isin: string)
    ensures SameInEveryOrder(lex, rows, isin) <==> OneRating(lex, rows, isin)
  {
    hide RatingOf, LastRating;
    if OneRating(lex, rows, isin) {
      forall rows' | multiset(rows') == multiset(rows) ensures LastRating(lex, rows', isin) == LastRating(lex, rows, isin) {
        OneRatingIsStored(lex, rows, rows', isin);
      }
    }
    if SameInEveryOrder(lex, rows, isin) {
      forall r | r in rows && RatingOf(lex, r, isin).Some? ensures RatingOf(lex, r, isin) == LastRating(lex, rows, isin) {
        LastRowWins(lex, rows, isin, r);
      }
    }
  }

  ghost predicate OneRating(lex: Lexicon, rows: seq<Row>, isin: string) {
    forall r, s :: r in rows && s in rows && RatingOf(lex, r, isin).Some? && RatingOf(lex, s, isin).Some? ==>
      RatingOf(lex, r, isin) == RatingOf(lex, s, isin)
  }

  lemma MovedLast(rows: seq<Row>, r: Row) returns (rows': seq<Row>)
    requires r in rows
    ensures multiset(rows') == multiset(rows) && rows' != [] && rows'[|rows'| - 1] == r
  {
    var i :| 0 <= i < |rows| && rows[i] == r;
    rows' := rows[..i] + rows[i + 1..] + [r];
    assert rows == rows[..i] + [rows[i]] + rows[i + 1..];
  }
}
