/** The rebuild object: pass one fills the audit, pass two materialises row after row, and the
    conflict cases come last. */
module TwoPassRun {
  import opened Basics
  import opened RebuildRows
  import opened TwoPassFacts
  import opened RowOrder
  import opened RelationDomains
  import opened TwoPassRebuild

  type ValueSets = map<(EntityId, Field), set<string>>
  type Disputants = map<(EntityId, Field, string), set<AssertionId>>

  function ValuesAt(m: ValueSets, e: EntityId, f: Field): set<string> {
    if (e, f) in m then m[(e, f)] else {}
  }

  function DisputantsAt(m: Disputants, e: EntityId, f: Field, v: string): set<AssertionId> {
    if (e, f, v) in m then m[(e, f, v)] else {}
  }

  /** The value sets hold exactly what the rows state. */
  ghost predicate SetsHold(m: ValueSets, rows: seq<Row>) {
    forall e, f :: ValuesAt(m, e, f) == ValuesOf(rows, e, f)
  }

  function StatedBy(row: Row, e: EntityId, f: Field): set<string> {
    if Support(row) == Some(e) && Audited(row, f) && f in row.cells then {row.cells[f]} else {}
  }

  function Unless<T>(waiting: bool, s: set<T>): set<T> {
    if waiting then {} else s
  }

  lemma ValuesOneMore(rows: seq<Row>, row: Row, e: EntityId, f: Field)
    ensures ValuesOf(rows + [row], e, f) == ValuesOf(rows, e, f) + StatedBy(row, e, f)
  {
    hide Support, Audited;
    forall v | v in ValuesOf(rows + [row], e, f) ensures v in ValuesOf(rows, e, f) + StatedBy(row, e, f) {
      var r :| r in rows + [row] && Support(r) == Some(e) && Audited(r, f) && f in r.cells && v == r.cells[f];
      assert r in rows || r == row;
    }
    forall v | v in ValuesOf(rows, e, f) ensures v in ValuesOf(rows + [row], e, f) {
      var r :| r in rows && Support(r) == Some(e) && Audited(r, f) && f in r.cells && v == r.cells[f];
      assert r in rows + [row];
    }
    assert row in rows + [row];
  }

  lemma LatestOneMore(lex: Lexicon, rows: seq<Row>, row: Row, ds: Dataset, d: Option<int>)
    requires IsLatest(lex, rows, ds, d)
    ensures IsLatest(lex, rows + [row], ds, Later(lex, row, ds, d))
  {
    assert forall r :: r in rows + [row] <==> r in rows || r == row;
    assert row in rows + [row];
    hide PriceDate, DatasetOf;
  }

  /** The running maximum of the price dates. */
  function Later(lex: Lexicon, row: Row, ds: Dataset, d: Option<int>): Option<int> {
    if row.Etp? && DatasetOf(row) == ds && PriceDate(lex, row).Some? && (d.None? || PriceDate(lex, row).value > d.value)
    then PriceDate(lex, row) else d
  }

  /** After some rows of pass two, a disputed value is remembered with the assertions that state it. */
  ghost predicate DisputantsHold(m: Disputants, k: Knowledge, rows: seq<Row>) {
    forall e, f, v :: DisputantsAt(m, e, f, v) == if (e, f) in k.disputed then Asserters(rows, e, f, v) else {}
  }

  function AssertedBy(row: Row, e: EntityId, f: Field, v: string): set<AssertionId> {
    if States(row, e, f, v) then {AssertionId(RecordOf(row), f)} else {}
  }

  lemma AssertersOneMore(rows: seq<Row>, row: Row, e: EntityId, f: Field, v: string)
    ensures Asserters(rows + [row], e, f, v) == Asserters(rows, e, f, v) + AssertedBy(row, e, f, v)
  {
    AssertersGrow(rows, rows + [row], row, e, f, v);
  }

  lemma AssertersGrow(rows: seq<Row>, rows': seq<Row>, row: Row, e: EntityId, f: Field, v: string)
    requires forall r :: r in rows' <==> r in rows || r == row
    ensures Asserters(rows', e, f, v) == Asserters(rows, e, f, v) + AssertedBy(row, e, f, v)
  {
    hide States, RecordOf;
    forall a | a in Asserters(rows', e, f, v) ensures a in Asserters(rows, e, f, v) + AssertedBy(row, e, f, v) {
      var r :| r in rows' && States(r, e, f, v) && a == AssertionId(RecordOf(r), f);
    }
  }

  /** Of the row's audited fields, all but those in `rest` have been remembered. */
  ghost predicate Remembered(m: Disputants, before: Disputants, k: Knowledge, row: Row, rest: set<Field>) {
    forall e, f, v :: DisputantsAt(m, e, f, v) ==
      DisputantsAt(before, e, f, v) + Unless(f in rest || (e, f) !in k.disputed, AssertedBy(row, e, f, v))
  }

  lemma RememberNothing(m: Disputants, k: Knowledge, row: Row)
    ensures Remembered(m, m, k, row, AuditedFields(row))
  {
    hide AuditedFields, Support;
  }

  lemma RememberField(m: Disputants, before: Disputants, k: Knowledge, row: Row, e: EntityId, rest: set<Field>, f: Field)
    requires Support(row) == Some(e) && f in rest && rest <= AuditedFields(row) && Remembered(m, before, k, row, rest)
    ensures (e, f) in k.disputed && f in row.cells ==> Asserted(row, f)
    ensures (e, f) in k.disputed && f in row.cells ==>
      Remembered(WithDisputant(m, e, f, row.cells[f], AssertionId(RecordOf(row), f)), before, k, row, rest - {f})
    ensures !((e, f) in k.disputed && f in row.cells) ==> Remembered(m, before, k, row, rest - {f})
  {
    if f in row.cells {
      AuditedIsAsserted(row, e, f, row.cells[f]);
      hide AuditedFields, Support, Asserted, RecordOf;
      if (e, f) in k.disputed {
        RememberStated(m, before, k, row, e, rest, f);
      }
    }
    hide AuditedFields, Support, Asserted, RecordOf;
  }

  function WithDisputant(m: Disputants, e: EntityId, f: Field, v: string, a: AssertionId): Disputants {
    m[(e, f, v) := DisputantsAt(m, e, f, v) + {a}]
  }

  lemma RememberStated(m: Disputants, before: Disputants, k: Knowledge, row: Row, e: EntityId, rest: set<Field>, f: Field)
    requires f in rest && Remembered(m, before, k, row, rest)
    requires (e, f) in k.disputed && f in row.cells && States(row, e, f, row.cells[f])
    ensures Remembered(WithDisputant(m, e, f, row.cells[f], AssertionId(RecordOf(row), f)), before, k, row, rest - {f})
  {
    hide RecordOf, Audited;
  }

  lemma RememberRow(m: Disputants, before: Disputants, k: Knowledge, rows: seq<Row>, row: Row)
    requires DisputantsHold(before, k, rows)
    requires if Support(row).Some? then Remembered(m, before, k, row, {}) else m == before
    ensures DisputantsHold(m, k, rows + [row])
  {
    hide Asserters, AuditedFields, RecordOf;
    forall e, f, v ensures Asserters(rows + [row], e, f, v) == Asserters(rows, e, f, v) + AssertedBy(row, e, f, v) {
      AssertersOneMore(rows, row, e, f, v);
    }
  }

  lemma ProductsOneMore(rows: seq<Row>, row: Row, products: Products)
    requires ProductsHold(rows, products)
    ensures var p := ProductOf(row);
      ProductsHold(rows + [row], if p.Some? && p.value.0 !in products then products[p.value.0 := p.value.1] else products)
  {
    forall e {
      FirstCodeOneMore(rows, row, e);
    }
    hide ProductOf, FirstCode;
  }

  lemma BondsOneMore(lex: Lexicon, k: Knowledge, rows: seq<Row>, row: Row, bonds: Bonds)
    requires BondsHold(lex, k, rows, bonds)
    ensures BondsHold(lex, k, rows + [row],
      if row.Bond? && row.isin !in bonds then bonds[row.isin := BondDates(lex, k, row)] else bonds)
  {
    forall isin {
      FirstBondOneMore(rows, row, isin);
    }
    hide BondDates, FirstBond;
  }

  lemma {:induction false} FirstOfOneMore(lex: Lexicon, row: Row, categories: seq<Category>, c: Category, iri: string)
    ensures FirstOf(lex, row, categories + [c], iri) ==
      if FirstOf(lex, row, categories, iri).Some? then FirstOf(lex, row, categories, iri)
      else if ConceptAt(lex, row, c) == Some(iri) then Some(c) else None
  {
    hide ConceptAt;
    if categories == [] {
      assert (categories + [c])[1..] == [];
    } else {
      assert (categories + [c])[1..] == categories[1..] + [c];
      FirstOfOneMore(lex, row, categories[1..], c, iri);
    }
  }

  lemma {:induction false} FirstCategoryOneMore(lex: Lexicon, rows: seq<Row>, row: Row, iri: string)
    ensures FirstCategory(lex, rows + [row], iri) ==
      if FirstCategory(lex, rows, iri).Some? then FirstCategory(lex, rows, iri) else FirstOf(lex, row, CATEGORY_ORDER, iri)
    decreases |rows|
  {
    hide FirstOf;
    if rows == [] {
      assert (rows + [row])[1..] == [];
    } else {
      assert (rows + [row])[1..] == rows[1..] + [row];
      FirstCategoryOneMore(lex, rows[1..], row, iri);
    }
  }

  /** The concept table after some of the row's categories. */
  ghost predicate ConceptsAdded(lex: Lexicon, row: Row, categories: seq<Category>, before: Concepts, concepts: Concepts) {
    forall iri ::
      && (iri in concepts <==> iri in before || FirstOf(lex, row, categories, iri).Some?)
      && (iri in concepts ==> concepts[iri] == if iri in before then before[iri] else FirstOf(lex, row, categories, iri).value)
  }

  lemma ConceptsOneMore(lex: Lexicon, row: Row, categories: seq<Category>, c: Category, before: Concepts, concepts: Concepts)
    requires ConceptsAdded(lex, row, categories, before, concepts)
    ensures var found := ConceptAt(lex, row, c);
      ConceptsAdded(lex, row, categories + [c], before, if found.Some? && found.value !in concepts then concepts[found.value := c] else concepts)
  {
    forall iri { FirstOfOneMore(lex, row, categories, c, iri); }
    hide ConceptAt, FirstOf;
  }

  lemma NoneFirst(lex: Lexicon, row: Row)
    ensures forall iri :: FirstOf(lex, row, [], iri) == None
  {
  }

  lemma ConceptsOfRow(lex: Lexicon, rows: seq<Row>, row: Row, before: Concepts, concepts: Concepts)
    requires ConceptsHold(lex, rows, before) && ConceptsAdded(lex, row, CATEGORY_ORDER, before, concepts)
    ensures ConceptsHold(lex, rows + [row], concepts)
  {
    forall iri { FirstCategoryOneMore(lex, rows, row, iri); }
    hide FirstCategory, FirstOf;
  }

  // ------------------------------------------------------------ conflict cases

  type Triple = (EntityId, Field, string)

  function TriplesAt(e: EntityId, f: Field, values: set<string>): set<Triple> {
    set v | v in values :: (e, f, v)
  }

  /** The candidate facts of a case. */
  function CandidateIds(lex: Lexicon, rows: seq<Row>, e: EntityId, f: Field, values: set<string>): set<FactId> {
    set v | v in values :: Candidate(lex, rows, e, f, v).fact
  }

  lemma NoValues(lex: Lexicon, rows: seq<Row>, done: set<Triple>, e: EntityId, f: Field)
    ensures done + TriplesAt(e, f, {}) == done && CandidateIds(lex, rows, e, f, {}) == {}
  {
  }

  lemma OneMoreValue(lex: Lexicon, rows: seq<Row>, done: set<Triple>, e: EntityId, f: Field, values: set<string>, v: string)
    ensures done + TriplesAt(e, f, values + {v}) == done + TriplesAt(e, f, values) + {(e, f, v)}
    ensures CandidateIds(lex, rows, e, f, values + {v}) == CandidateIds(lex, rows, e, f, values) + {Candidate(lex, rows, e, f, v).fact}
  {
    hide Asserters;
  }

  lemma NoCandidates(lex: Lexicon, rows: seq<Row>, m: ValueSets, facts: Facts, links: Links)
    ensures WithCandidates(lex, rows, TriplesOf(m, {}), facts, links, facts, links)
  {
    hide Candidate;
  }

  lemma CaseAdded(lex: Lexicon, rows: seq<Row>, cases: Cases, p: (EntityId, Field))
    requires CasesHold(lex, rows, cases)
    ensures CasesHold(lex, rows, cases[(p.0, p.1) := CandidateIds(lex, rows, p.0, p.1, ValuesOf(rows, p.0, p.1))])
  {
    hide CandidateIds, ValuesOf;
  }

  /** Every value of the given fields. */
  function TriplesOf(m: ValueSets, fields: set<(EntityId, Field)>): set<Triple> {
    set p, v | p in fields && p in m && v in m[p] :: (p.0, p.1, v)
  }

  lemma OneMoreField(m: ValueSets, fields: set<(EntityId, Field)>, p: (EntityId, Field))
    requires p in m
    ensures TriplesOf(m, fields + {p}) == TriplesOf(m, fields) + TriplesAt(p.0, p.1, m[p])
  {
    assert p == (p.0, p.1);
  }

  lemma TriplesOfDisputed(m: ValueSets, rows: seq<Row>, fields: set<(EntityId, Field)>)
    requires SetsHold(m, rows)
    ensures forall e, f, v :: (e, f, v) in TriplesOf(m, fields) <==> (e, f) in fields && v in ValuesOf(rows, e, f)
  {
    hide ValuesOf;
    forall e, f ensures ValuesAt(m, e, f) == ValuesOf(rows, e, f) {}
  }

  type Cases = map<(EntityId, Field), set<FactId>>

  /** Each case lists a candidate for every value the rows state. */
  ghost predicate CasesHold(lex: Lexicon, rows: seq<Row>, cases: Cases) {
    forall e, f :: (e, f) in cases ==> cases[(e, f)] == CandidateIds(lex, rows, e, f, ValuesOf(rows, e, f))
  }

  function CandidateOf(lex: Lexicon, rows: seq<Row>, t: Triple): Emission {
    Candidate(lex, rows, t.0, t.1, t.2)
  }

  /** The tables after the candidates in `done` have been added to them. */
  ghost predicate WithCandidates(lex: Lexicon, rows: seq<Row>, done: set<Triple>, f0: Facts, l0: Links, facts: Facts, links: Links) {
    && (forall id :: id in facts <==> id in f0 || exists t :: t in done && id == CandidateOf(lex, rows, t).fact)
    && (forall id :: id in facts ==> facts[id] == if id in f0 then f0[id] else Disputed)
    && (forall id, a :: (id, a) in links <==> (id, a) in l0 || exists t :: t in done && id == CandidateOf(lex, rows, t).fact && a in CandidateOf(lex, rows, t).evidence)
  }

  lemma CandidateAdded(lex: Lexicon, rows: seq<Row>, done: set<Triple>, t: Triple, f0: Facts, l0: Links, facts: Facts, links: Links)
    requires WithCandidates(lex, rows, done, f0, l0, facts, links)
    ensures var em := Some(CandidateOf(lex, rows, t));
      WithCandidates(lex, rows, done + {t}, f0, l0, PutFact(facts, em), PutLinks(links, em))
  {
    hide Asserters;
  }

  lemma RatingsSurvive(lex: Lexicon, rows: seq<Row>, done: set<Triple>, f0: Facts, l0: Links, facts: Facts, links: Links)
    requires RatingsHold(lex, rows, f0) && WithCandidates(lex, rows, done, f0, l0, facts, links)
    ensures RatingsHold(lex, rows, facts)
  {
    hide LastRating, Asserters;
    forall isin ensures RatingHolds(lex, rows, facts, isin) {
      assert RatingHolds(lex, rows, f0, isin);
    }
  }

  /** With the candidates of every dispute added, the tables hold what was emitted. */
  lemma AllCandidatesAdded(lex: Lexicon, k: Knowledge, rows: seq<Row>, done: set<Triple>, f0: Facts, l0: Links, facts: Facts, links: Links)
    requires RowsHold(lex, k, rows, f0, l0) && WithCandidates(lex, rows, done, f0, l0, facts, links)
    requires forall e, f, v :: (e, f, v) in done <==> (e, f) in k.disputed && v in ValuesOf(rows, e, f)
    ensures Holds(lex, k, rows, facts, links)
  {
    hide ValuesOf, RowEmits, Candidate;
    forall id ensures HoldsAt(lex, k, rows, f0, l0, id) {}
    forall em ensures IsCandidate(lex, k, rows, em) <==> exists t :: t in done && em == CandidateOf(lex, rows, t) {
      if IsCandidate(lex, k, rows, em) {
        var e, f, v :| (e, f) in k.disputed && v in ValuesOf(rows, e, f) && em == Candidate(lex, rows, e, f, v);
        assert (e, f, v) in done && em == CandidateOf(lex, rows, (e, f, v));
      }
      if t :| t in done && em == CandidateOf(lex, rows, t) {
        assert t == (t.0, t.1, t.2);
      }
    }
    hide IsCandidate;
    CandidatesAreDisputed(lex, k, rows, done, f0, l0);
    forall em ensures Emitted(lex, k, rows, em) <==> EmittedByRow(lex, k, rows, em) || exists t :: t in done && em == CandidateOf(lex, rows, t) {}
    hide EmittedByRow, Emitted, CandidateOf;
    forall id | id in facts ensures exists em :: Emitted(lex, k, rows, em) && em.fact == id && em.body == facts[id] {
      if id in f0 {
        assert HoldsAt(lex, k, rows, f0, l0, id);
      } else {
        var t :| t in done && id == CandidateOf(lex, rows, t).fact;
        assert Emitted(lex, k, rows, CandidateOf(lex, rows, t));
      }
    }
    forall em | Emitted(lex, k, rows, em) ensures em.fact in facts && forall a :: a in em.evidence ==> (em.fact, a) in links {
      assert HoldsAt(lex, k, rows, f0, l0, em.fact);
    }
    forall id, a | (id, a) in links ensures exists em :: Emitted(lex, k, rows, em) && em.fact == id && a in em.evidence {
      if (id, a) in l0 {
        assert HoldsAt(lex, k, rows, f0, l0, id);
      } else {
        var t :| t in done && id == CandidateOf(lex, rows, t).fact && a in CandidateOf(lex, rows, t).evidence;
        assert Emitted(lex, k, rows, CandidateOf(lex, rows, t));
      }
    }
  }

  lemma CandidatesAreDisputed(lex: Lexicon, k: Knowledge, rows: seq<Row>, done: set<Triple>, f0: Facts, l0: Links)
    requires RowsHold(lex, k, rows, f0, l0)
    ensures forall t :: t in done ==> CandidateOf(lex, rows, t).fact !in f0 && CandidateOf(lex, rows, t).body == Disputed
  {
    hide Asserters;
    forall t | t in done ensures CandidateOf(lex, rows, t).fact !in f0 {
      assert HoldsAt(lex, k, rows, f0, l0, CandidateOf(lex, rows, t).fact);
    }
  }

  class Rebuild {
    const lex: Lexicon
    var values: ValueSets
    var latestKr: Option<int>
    var latestGl: Option<int>
    var disputants: Disputants
    var assertions: set<AssertionId>
    var facts: Facts
    var links: Links
    var products: Products
    var bonds: Bonds
    var names: Names
    var parents: Parentage
    var concepts: Concepts
    var cases: Cases

    constructor (lexicon: Lexicon)
      ensures lex == lexicon && values == map[] && latestKr == None && latestGl == None && disputants == map[]
      ensures assertions == {} && facts == map[] && links == {} && products == map[] && bonds == map[] && cases == map[]
      ensures names == map[] && parents == map[] && concepts == map[]
    {
      lex := lexicon;
      values, latestKr, latestGl, disputants := map[], None, None, map[];
      assertions, facts, links, products, bonds, cases := {}, map[], {}, map[], map[], map[];
      names, parents, concepts := map[], map[], map[];
    }

    predicate Conflicting(e: EntityId, f: Field)
      reads `values
    {
      |ValuesAt(values, e, f)| > 1
    }

    /** What the audit lets pass two know. */
    function Know(): Knowledge
      reads `values, `latestKr, `latestGl
    {
      Knowledge((set p | p in values && |values[p]| > 1), latestKr, latestGl)
    }

    ghost predicate AuditHolds(rows: seq<Row>)
      reads `values, `latestKr, `latestGl
    {
      SetsHold(values, rows) && IsLatest(lex, rows, PREF01N001, latestKr) && IsLatest(lex, rows, PREF02N001, latestGl)
    }

    /** `_audit_identity` and the price date for one row. */
    method AuditRow(row: Row, ghost rows: seq<Row>)
      requires AuditHolds(rows)
      modifies `values, `latestKr, `latestGl
      ensures AuditHolds(rows + [row])
    {
      LatestOneMore(lex, rows, row, PREF01N001, latestKr);
      LatestOneMore(lex, rows, row, PREF02N001, latestGl);
      hide IsLatest, PriceDate;
      var support := Support(row);
      if support.Some? {
        AuditFields(row, support.value);
      }
      forall e, f ensures ValuesAt(values, e, f) == ValuesOf(rows + [row], e, f) {
        ValuesOneMore(rows, row, e, f);
      }
      if row.Etp? {
        var observed := PriceDate(lex, row);
        if observed.Some? && row.foreign && (latestGl.None? || observed.value > latestGl.value) {
          latestGl := observed;
        }
        if observed.Some? && !row.foreign && (latestKr.None? || observed.value > latestKr.value) {
          latestKr := observed;
        }
      }
    }

    method AuditFields(row: Row, e: EntityId)
      requires Support(row) == Some(e)
      modifies `values
      ensures forall e', f :: ValuesAt(values, e', f) == old(ValuesAt(values, e', f)) + StatedBy(row, e', f)
    {
      var rest := AuditedFields(row);
      ghost var before := values;
      hide Support, AuditedFields;
      while rest != {}
        invariant rest <= AuditedFields(row)
        invariant forall e', f :: ValuesAt(values, e', f) == ValuesAt(before, e', f) + Unless(f in rest, StatedBy(row, e', f))
        decreases rest
      {
        var f :| f in rest;
        rest := rest - {f};
        if f in row.cells {
          values := values[(e, f) := ValuesAt(values, e, f) + {row.cells[f]}];
        }
      }
    }

    method Audit(rows: seq<Row>)
      requires values == map[] && latestKr == None && latestGl == None
      modifies `values, `latestKr, `latestGl
      ensures AuditHolds(rows) && Knows(lex, Know(), rows)
    {
      assert AuditHolds([]);
      for i := 0 to |rows|
        invariant AuditHolds(rows[..i])
      {
        AuditRow(rows[i], rows[..i]);
        assert rows[..i] + [rows[i]] == rows[..i + 1];
      }
      assert rows[..|rows|] == rows;
      AuditIsKnowledge(rows);
    }

    lemma AuditIsKnowledge(rows: seq<Row>)
      requires AuditHolds(rows)
      ensures Knows(lex, Know(), rows)
      ensures forall e, f :: Conflicting(e, f) <==> (e, f) in Know().disputed
    {
      hide IsLatest, ValuesOf;
      forall e, f ensures (e, f) in Know().disputed <==> Disagree(rows, e, f) {
        MoreThanOne(ValuesAt(values, e, f));
      }
    }

    // ---------------------------------------------------------- pass two

    /** The columns of a row that are asserted, each once. */
    method Assertions(row: Row)
      modifies `assertions
      ensures forall a :: a in assertions <==> a in old(assertions) || IsAssertionOf(row, a)
    {
      var d := DatasetOf(row);
      var rest := TargetFields(d);
      ghost var before := assertions;
      hide TargetFields, DatasetOf, AssertedWhenMissing, RecordOf;
      while rest != {}
        invariant rest <= TargetFields(d)
        invariant forall a :: a in assertions <==> a in before || (IsAssertionOf(row, a) && a.field !in rest)
        decreases rest
      {
        var f :| f in rest;
        rest := rest - {f};
        if f in row.cells || AssertedWhenMissing(d, f) {
          assertions := assertions + {AssertionId(RecordOf(row), f)};
        }
      }
    }

    /** The entities the row describes, their subtype rows, the product and, for a bond, its dates:
        each is ignored when a row has inserted it. */
    method Entities(row: Row, ghost rows: seq<Row>)
      requires ProductsHold(rows, products) && BondsHold(lex, Know(), rows, bonds) && EntitiesHold(lex, Know(), rows, names, parents)
      modifies `products, `bonds, `names, `parents
      ensures ProductsHold(rows + [row], products) && BondsHold(lex, Know(), rows + [row], bonds)
      ensures EntitiesHold(lex, Know(), rows + [row], names, parents)
    {
      var p := ProductOf(row);
      ProductsOneMore(rows, row, products);
      BondsOneMore(lex, Know(), rows, row, bonds);
      EntitiesOneMore(lex, Know(), rows, row, names, parents);
      hide ProductsHold, BondsHold, EntitiesHold, ProductOf, BondDates, Described, Belongs;
      if p.Some? && p.value.0 !in products {
        products := products[p.value.0 := p.value.1];
      }
      if row.Bond? && row.isin !in bonds {
        bonds := bonds[row.isin := BondDates(lex, Know(), row)];
      }
      names := Described(lex, Know(), row) + names;
      parents := Belongs(lex, row) + parents;
    }

    /** `_concept` for each category of the row, in order: a concept that is stored keeps its category. */
    method StoreConcepts(row: Row, ghost rows: seq<Row>)
      requires ConceptsHold(lex, rows, concepts)
      modifies `concepts
      ensures ConceptsHold(lex, rows + [row], concepts)
    {
      hide ConceptsHold, ConceptAt, FirstOf;
      ghost var before := concepts;
      assert ConceptsAdded(lex, row, CATEGORY_ORDER[..0], before, concepts) by { NoneFirst(lex, row); }
      for i := 0 to |CATEGORY_ORDER|
        invariant ConceptsAdded(lex, row, CATEGORY_ORDER[..i], before, concepts)
      {
        var c := CATEGORY_ORDER[i];
        ConceptsOneMore(lex, row, CATEGORY_ORDER[..i], c, before, concepts);
        assert CATEGORY_ORDER[..i + 1] == CATEGORY_ORDER[..i] + [c];
        var found := ConceptAt(lex, row, c);
        if found.Some? && found.value !in concepts {
          concepts := concepts[found.value := c];
        }
      }
      assert CATEGORY_ORDER[..|CATEGORY_ORDER|] == CATEGORY_ORDER;
      ConceptsOfRow(lex, rows, row, before, concepts);
    }

    /** `_remember_conflict_assertions`. */
    method RememberConflictAssertions(row: Row, ghost rows: seq<Row>)
      requires DisputantsHold(disputants, Know(), rows)
      modifies `disputants
      ensures DisputantsHold(disputants, Know(), rows + [row])
    {
      ghost var before, k := disputants, Know();
      var support := Support(row);
      if support.Some? {
        var e := support.value;
        var rest := AuditedFields(row);
        hide Remembered, Asserted, AuditedFields, RecordOf;
        assert Remembered(disputants, before, k, row, rest) by { RememberNothing(before, k, row); }
        while rest != {}
          invariant rest <= AuditedFields(row)
          invariant Remembered(disputants, before, k, row, rest)
          decreases rest
        {
          var f :| f in rest;
          RememberField(disputants, before, k, row, e, rest, f);
          if Conflicting(e, f) && f in row.cells && Asserted(row, f) {
            var v := row.cells[f];
            disputants := WithDisputant(disputants, e, f, v, AssertionId(RecordOf(row), f));
          }
          rest := rest - {f};
        }
      }
      RememberRow(disputants, before, k, rows, row);
    }

    /** `_fact`, the typed row and `_evidence`: what is emitted is stored and linked, nothing is lost,
        and of two bodies under one id the first stays, or for a metric the last. */
    method Put(em: Option<Emission>)
      modifies `facts, `links
      ensures facts == PutFact(old(facts), em) && links == PutLinks(old(links), em)
      ensures em.Some? ==> em.value.fact in facts && forall a :: a in em.value.evidence ==> (em.value.fact, a) in links
      ensures old(links) <= links && forall id :: id in old(facts) ==> id in facts
      ensures forall id :: id in old(facts) && !IsUpserted(id) ==> facts[id] == old(facts)[id]
      ensures em.Some? && IsUpserted(em.value.fact) ==> facts[em.value.fact] == em.value.body
    {
      if em.Some? {
        var id := em.value.fact;
        if id !in facts || IsUpserted(id) {
          facts := facts[id := em.value.body];
        }
        links := links + set a | a in em.value.evidence :: (id, a);
      }
    }

    /** One of the emitters visits its places of the row, in order. */
    method Emit(row: Row, slots: seq<Slot>)
      modifies `facts, `links
      ensures Adds(lex, Know(), row, SetOf(slots), old(facts), old(links), facts, links)
    {
      ghost var f0, l0 := facts, links;
      AddsNothing(lex, Know(), row, facts, links);
      hide Adds, SlotEmission;
      assert SetOf(slots[..0]) == {};
      for i := 0 to |slots|
        invariant Adds(lex, Know(), row, SetOf(slots[..i]), f0, l0, facts, links)
      {
        AddsOneMore(lex, Know(), row, SetOf(slots[..i]), slots[i], f0, l0, facts, links);
        Put(SlotEmission(lex, Know(), row, slots[i]));
        assert slots[..i + 1] == slots[..i] + [slots[i]];
        assert SetOf(slots[..i + 1]) == SetOf(slots[..i]) + {slots[i]};
      }
      assert slots[..|slots|] == slots;
    }

    /** The tables after some rows of pass two. */
    ghost predicate RowsDone(rows: seq<Row>)
      reads this
    {
      && RowsHold(lex, Know(), rows, facts, links) && RatingsHold(lex, rows, facts)
      && ProductsHold(rows, products) && BondsHold(lex, Know(), rows, bonds)
      && EntitiesHold(lex, Know(), rows, names, parents) && ConceptsHold(lex, rows, concepts)
      && DisputantsHold(disputants, Know(), rows)
      && (forall a :: a in assertions <==> exists r :: r in rows && IsAssertionOf(r, a))
    }

    /** `_process_row`. */
    method ProcessRow(row: Row, ghost rows: seq<Row>)
      requires RowsDone(rows)
      modifies `assertions, `products, `bonds, `names, `parents, `concepts, `disputants, `facts, `links
      ensures RowsDone(rows + [row])
    {
      hide RowsHold, RatingsHold, ProductsHold, BondsHold, EntitiesHold, ConceptsHold, DisputantsHold, IsAssertionOf, Adds, SlotEmission;
      ghost var k := Know();
      assert forall r :: r in rows + [row] <==> r in rows || r == row;
      Assertions(row);
      Entities(row, rows);
      RememberConflictAssertions(row, rows);
      ghost var f0, l0 := facts, links;
      Emit(row, SCALARS);
      ghost var f1, l1 := facts, links;
      StoreConcepts(row, rows);
      Emit(row, CATEGORIES);
      AddsBoth(lex, k, row, SetOf(SCALARS), SetOf(CATEGORIES), f0, l0, f1, l1, facts, links);
      ghost var f2, l2 := facts, links;
      Emit(row, RELATIONS);
      AddsBoth(lex, k, row, SetOf(SCALARS) + SetOf(CATEGORIES), SetOf(RELATIONS), f0, l0, f2, l2, facts, links);
      ghost var f3, l3 := facts, links;
      Emit(row, METRICS);
      AddsBoth(lex, k, row, SetOf(SCALARS) + SetOf(CATEGORIES) + SetOf(RELATIONS), SetOf(METRICS), f0, l0, f3, l3, facts, links);
      RowsHoldOneMore(lex, k, rows, row, f0, l0, facts, links);
    }

    /** `_materialize`: pass two over all rows. */
    method Materialize(rows: seq<Row>)
      requires RowsDone([])
      modifies `assertions, `products, `bonds, `names, `parents, `concepts, `disputants, `facts, `links
      ensures RowsDone(rows)
    {
      for i := 0 to |rows|
        invariant RowsDone(rows[..i])
      {
        ProcessRow(rows[i], rows[..i]);
        assert rows[..i] + [rows[i]] == rows[..i + 1];
      }
      assert rows[..|rows|] == rows;
    }

    // ---------------------------------------------------------- conflict cases

    method AddCandidate(e: EntityId, f: Field, v: string, ghost rows: seq<Row>, ghost done: set<Triple>, ghost f0: Facts, ghost l0: Links)
      returns (id: FactId)
      requires (e, f) in Know().disputed && DisputantsHold(disputants, Know(), rows)
      requires WithCandidates(lex, rows, done, f0, l0, facts, links)
      modifies `facts, `links
      ensures WithCandidates(lex, rows, done + {(e, f, v)}, f0, l0, facts, links)
      ensures id == Candidate(lex, rows, e, f, v).fact
    {
      hide WithCandidates, Asserters, DisputantsHold;
      id := FactId(e, CaseDataset(e), DisputedValue(f, lex.lookup(v)));
      var em := Emission(id, Disputed, DisputantsAt(disputants, e, f, v));
      DisputantsAre(rows, e, f, v);
      assert em == CandidateOf(lex, rows, (e, f, v));
      CandidateAdded(lex, rows, done, (e, f, v), f0, l0, facts, links);
      Put(Some(em));
    }

    /** The case of one disputed field: a candidate fact for each of its values. */
    method AddCase(e: EntityId, f: Field, stated: set<string>, ghost rows: seq<Row>, ghost done: set<Triple>, ghost f0: Facts, ghost l0: Links)
      requires (e, f) in Know().disputed && DisputantsHold(disputants, Know(), rows)
      requires WithCandidates(lex, rows, done, f0, l0, facts, links)
      modifies `facts, `links, `cases
      ensures WithCandidates(lex, rows, done + TriplesAt(e, f, stated), f0, l0, facts, links)
      ensures cases == old(cases)[(e, f) := CandidateIds(lex, rows, e, f, stated)]
    {
      var rest := stated;
      var ids: set<FactId> := {};
      ghost var seen: set<string> := {};
      NoValues(lex, rows, done, e, f);
      hide WithCandidates, DisputantsHold, TriplesAt, CandidateIds, Candidate;
      while rest != {}
        invariant seen + rest == stated
        invariant WithCandidates(lex, rows, done + TriplesAt(e, f, seen), f0, l0, facts, links)
        invariant ids == CandidateIds(lex, rows, e, f, seen) && cases == old(cases)
        decreases rest
      {
        var v :| v in rest;
        var id := AddCandidate(e, f, v, rows, done + TriplesAt(e, f, seen), f0, l0);
        OneMoreValue(lex, rows, done, e, f, seen, v);
        ids, seen, rest := ids + {id}, seen + {v}, rest - {v};
      }
      assert seen == stated;
      cases := cases[(e, f) := ids];
    }

    lemma DisputantsAre(rows: seq<Row>, e: EntityId, f: Field, v: string)
      requires (e, f) in Know().disputed && DisputantsHold(disputants, Know(), rows)
      ensures DisputantsAt(disputants, e, f, v) == Asserters(rows, e, f, v)
    {
      hide Asserters;
    }

    /** `_add_conflict_cases`: one case for each disputed field, and candidates for its values. */
    method AddConflictCases(ghost rows: seq<Row>)
      requires AuditHolds(rows) && RowsDone(rows) && cases == map[]
      modifies `facts, `links, `cases
      ensures Holds(lex, Know(), rows, facts, links) && RatingsHold(lex, rows, facts)
      ensures cases.Keys == Know().disputed
      ensures CasesHold(lex, rows, cases)
    {
      var disputed := Know().disputed;
      assert CasesHold(lex, rows, cases) && disputed <= values.Keys;
      NoCandidates(lex, rows, values, facts, links);
      TriplesOfDisputed(values, rows, disputed);
      ghost var f0, l0 := facts, links;
      AddCases(disputed, rows);
      hide DisputantsHold, RatingsHold, ProductsHold, BondsHold, EntitiesHold, ConceptsHold, IsLatest, IsAssertionOf, TriplesOf, ValuesOf, SetsHold, CasesHold;
      AllCandidatesAdded(lex, Know(), rows, TriplesOf(values, disputed), f0, l0, facts, links);
      RatingsSurvive(lex, rows, TriplesOf(values, disputed), f0, l0, facts, links);
    }

    method AddCases(disputed: set<(EntityId, Field)>, ghost rows: seq<Row>)
      requires disputed == Know().disputed && disputed <= values.Keys
      requires AuditHolds(rows) && DisputantsHold(disputants, Know(), rows)
      requires CasesHold(lex, rows, cases) && cases == map[]
      requires WithCandidates(lex, rows, TriplesOf(values, {}), facts, links, facts, links)
      modifies `facts, `links, `cases
      ensures WithCandidates(lex, rows, TriplesOf(values, disputed), old(facts), old(links), facts, links)
      ensures cases.Keys == disputed && CasesHold(lex, rows, cases)
    {
      var rest := disputed;
      ghost var handled: set<(EntityId, Field)> := {};
      ghost var f0, l0 := facts, links;
      hide CasesHold, WithCandidates, DisputantsHold, CandidateIds, TriplesOf, TriplesAt, ValuesOf, AuditHolds, Know;
      while rest != {}
        invariant handled + rest == disputed
        invariant WithCandidates(lex, rows, TriplesOf(values, handled), f0, l0, facts, links)
        invariant cases.Keys == handled && CasesHold(lex, rows, cases)
        decreases rest
      {
        var p :| p in rest;
        assert p == (p.0, p.1);
        ghost var before := cases;
        AddCase(p.0, p.1, values[p], rows, TriplesOf(values, handled), f0, l0);
        ValuesAre(rows, p.0, p.1);
        CaseAdded(lex, rows, before, p);
        OneMoreField(values, handled, p);
        handled, rest := handled + {p}, rest - {p};
      }
      assert handled == disputed;
    }

    lemma ValuesAre(rows: seq<Row>, e: EntityId, f: Field)
      requires AuditHolds(rows) && (e, f) in values
      ensures values[(e, f)] == ValuesOf(rows, e, f)
    {
      assert ValuesAt(values, e, f) == ValuesOf(rows, e, f);
    }

    /** Both passes over the rows of the four workbooks, from empty tables: the audit knows what
        the rows state, and the tables hold exactly what that knowledge lets the rows emit. */
    method Run(rows: seq<Row>)
      requires values == map[] && latestKr == None && latestGl == None && disputants == map[]
      requires assertions == {} && facts == map[] && links == {} && products == map[] && bonds == map[] && cases == map[]
      requires names == map[] && parents == map[] && concepts == map[]
      modifies this
      ensures Knows(lex, Know(), rows) && Holds(lex, Know(), rows, facts, links) && RatingsHold(lex, rows, facts)
      ensures ProductsHold(rows, products) && BondsHold(lex, Know(), rows, bonds) && EntitiesHold(lex, Know(), rows, names, parents)
      ensures ConceptsHold(lex, rows, concepts)
      ensures forall a :: a in assertions <==> exists r :: r in rows && IsAssertionOf(r, a)
      ensures cases.Keys == Know().disputed
      ensures CasesHold(lex, rows, cases)
    {
      Audit(rows);
      NoRowsHold(lex, Know());
      assert RowsDone([]);
      hide RowsHold, RatingsHold, ProductsHold, BondsHold, EntitiesHold, ConceptsHold, DisputantsHold, IsAssertionOf, Knows, Holds, IsLatest, ValuesOf;
      Materialize(rows);
      AddConflictCases(rows);
    }
  }

  lemma {:induction false} FirstCodeOneMore(rows: seq<Row>, row: Row, e: EntityId)
    ensures FirstCode(rows + [row], e) ==
      if FirstCode(rows, e).Some? then FirstCode(rows, e)
      else if ProductOf(row).Some? && ProductOf(row).value.0 == e then Some(ProductOf(row).value.1) else None
    decreases |rows|
  {
    hide ProductOf;
    if rows != [] {
      assert (rows + [row])[1..] == rows[1..] + [row];
      FirstCodeOneMore(rows[1..], row, e);
    }
  }

  lemma {:induction false} FirstBondOneMore(rows: seq<Row>, row: Row, isin: string)
    ensures FirstBond(rows + [row], isin) ==
      if FirstBond(rows, isin).Some? then FirstBond(rows, isin) else if row.Bond? && row.isin == isin then Some(row) else None
    decreases |rows|
  {
    if rows != [] {
      assert (rows + [row])[1..] == rows[1..] + [row];
      FirstBondOneMore(rows[1..], row, isin);
    }
  }
}
