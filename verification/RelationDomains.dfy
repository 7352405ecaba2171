/** The reviewed domains of relations and classifications, and what the gate before the commit
    makes of the facts that the rebuild itself emits. */
module RelationDomains {
  import opened Basics
  import opened RebuildRows
  import opened TwoPassFacts
  import opened RowOrder

  datatype Kind =
    | FinancialProduct | FundShareClass | SaleLotKind | OrganizationKind | IndexKind | CurrencyKind | CountryKind
    | OntologyConcept

  datatype ProductCode = BondCode | EtfCode | EtnCode | FundCode

  datatype Grain = Grain(kind: Kind, code: Option<ProductCode>)
  datatype Range = Range(kind: Kind, role: Option<Role>, category: Option<Category>)

  const BOND_GRAIN := Grain(FinancialProduct, Some(BondCode))
  const ETF_GRAIN := Grain(FinancialProduct, Some(EtfCode))
  const ETN_GRAIN := Grain(FinancialProduct, Some(EtnCode))
  const FUND_GRAIN := Grain(FinancialProduct, Some(FundCode))
  const SHARE_CLASS_GRAIN := Grain(FundShareClass, None)
  const PRODUCT_GRAINS: set<Grain> := {BOND_GRAIN, ETF_GRAIN, ETN_GRAIN, FUND_GRAIN}

  function RelationSubjects(r: Relation): set<Grain> {
    match r
    case HasShareClass => {FUND_GRAIN}
    case HasSaleLot => {BOND_GRAIN}
    case ManagedBy => {ETF_GRAIN, FUND_GRAIN}
    case IssuedBy => {BOND_GRAIN, ETN_GRAIN}
    case HasTrustee => {FUND_GRAIN}
    case HasBenchmark => {FUND_GRAIN}
    case HasUnderlyingIndex => {ETF_GRAIN, ETN_GRAIN}
    case TracksIndex => {ETF_GRAIN, ETN_GRAIN}
    case DenominatedIn => PRODUCT_GRAINS
    case TradedInCurrency => {ETF_GRAIN, ETN_GRAIN}
    case ListedInCountry => {ETF_GRAIN, ETN_GRAIN}
    case HasInstrumentCountry => {BOND_GRAIN}
  }

  function RelationRange(r: Relation): Range {
    match r
    case HasShareClass => Range(FundShareClass, None, None)
    case HasSaleLot => Range(SaleLotKind, None, None)
    case ManagedBy => Range(OrganizationKind, Some(AssetManager), None)
    case IssuedBy => Range(OrganizationKind, Some(Issuer), None)
    case HasTrustee => Range(OrganizationKind, Some(Trustee), None)
    case HasBenchmark => Range(IndexKind, None, None)
    case HasUnderlyingIndex => Range(IndexKind, None, None)
    case TracksIndex => Range(IndexKind, None, None)
    case DenominatedIn => Range(CurrencyKind, None, None)
    case TradedInCurrency => Range(CurrencyKind, None, None)
    case ListedInCountry => Range(CountryKind, None, None)
    case HasInstrumentCountry => Range(CountryKind, None, None)
  }

  function ClassSubjects(c: Category): set<Grain> {
    match c
    case AssetClass => PRODUCT_GRAINS + {SHARE_CLASS_GRAIN}
    case ExposureRegion => PRODUCT_GRAINS + {SHARE_CLASS_GRAIN}
    case MarketScope => {SHARE_CLASS_GRAIN}
    case RiskGrade => PRODUCT_GRAINS + {SHARE_CLASS_GRAIN}
    case BondType => {BOND_GRAIN}
    case OfferingType => {BOND_GRAIN, SHARE_CLASS_GRAIN}
    case SubscriptionStatus => {SHARE_CLASS_GRAIN}
  }

  function KindOf(e: EntityId): Kind {
    match e
    case Product(_, _) => FinancialProduct
    case FundFamily(_) => FinancialProduct
    case ShareClass(_) => FundShareClass
    case SaleLot(_, _) => SaleLotKind
    case Organization(_, _, _) => OrganizationKind
    case Index(_, _) => IndexKind
    case Currency(_) => CurrencyKind
    case Country(_) => CountryKind
  }

  function RangeOf(e: EntityId): Range {
    Range(KindOf(e), if e.Organization? then Some(e.role) else None, None)
  }

  /** The product types that the rows put into the product table. */
  type Products = map<EntityId, ProductCode>

  function GrainOf(products: Products, e: EntityId): Grain {
    Grain(KindOf(e), if e in products then Some(products[e]) else None)
  }

  /** The category that each stored ontology concept has. */
  type Concepts = map<string, Category>

  function ClassRange(c: Category): Range {
    Range(OntologyConcept, None, Some(c))
  }

  /** A classification is joined with its concept row, so the stored category is compared, not the one
      that the fact was made under. */
  predicate InDomain(products: Products, concepts: Concepts, id: FactId) {
    match id.key
    case Related(r, target) => GrainOf(products, id.subject) in RelationSubjects(r) && RangeOf(target) == RelationRange(r)
    case Class(c, iri) =>
      GrainOf(products, id.subject) in ClassSubjects(c) && (iri in concepts ==> ClassRange(concepts[iri]) == ClassRange(c))
    case _ => true
  }

  /** The reviewed sources name no issuer of an exchange-traded note, so any such fact is refused. */
  predicate IsEtnIssuer(products: Products, id: FactId) {
    id.key.Related? && id.key.relation == IssuedBy && GrainOf(products, id.subject) == ETN_GRAIN
  }

  ghost predicate GatePasses(products: Products, concepts: Concepts, facts: Facts) {
    forall id :: id in facts ==> InDomain(products, concepts, id) && !IsEtnIssuer(products, id)
  }

  // ------------------------------------------------------------ the product table

  function CodeOf(g: Group): ProductCode {
    match g case ETF => EtfCode case ETN => EtnCode
  }

  /** The product a row inserts, with its type. */
  function ProductOf(row: Row): Option<(EntityId, ProductCode)> {
    match row
    case Bond(isin, _, _) => Some((Product(PRBD01N001, isin), BondCode))
    case Etp(_, code, group, _) => Some((Product(DatasetOf(row), code), CodeOf(group)))
    case Fund(_, family, _) => if family.Some? then Some((FundFamily(family.value), FundCode)) else None
  }

  function FirstCode(rows: seq<Row>, e: EntityId): Option<ProductCode>
    decreases |rows|
  {
    if rows == [] then None
    else
      var p := ProductOf(rows[0]);
      if p.Some? && p.value.0 == e then Some(p.value.1) else FirstCode(rows[1..], e)
  }

  /** Insert-or-ignore: the type of a product is the one its first row gave. */
  ghost predicate ProductsHold(rows: seq<Row>, products: Products) {
    forall e ::
      && (e in products <==> FirstCode(rows, e).Some?)
      && (e in products ==> FirstCode(rows, e) == Some(products[e]))
  }

  lemma {:induction false} FirstCodeIsSomeRows(rows: seq<Row>, e: EntityId)
    ensures forall r :: r in rows && ProductOf(r).Some? && ProductOf(r).value.0 == e ==> FirstCode(rows, e).Some?
    ensures FirstCode(rows, e).Some? ==> exists r :: r in rows && ProductOf(r) == Some((e, FirstCode(rows, e).value))
    decreases |rows|
  {
    if rows != [] {
      hide ProductOf;
      FirstCodeIsSomeRows(rows[1..], e);
      assert rows == [rows[0]] + rows[1..];
      if ProductOf(rows[0]).Some? && ProductOf(rows[0]).value.0 == e {
        assert ProductOf(rows[0]) == Some((e, FirstCode(rows, e).value));
      }
    }
  }

  /** Only the type of an exchange-traded product depends on which row came first. */
  lemma StoredCode(rows: seq<Row>, products: Products, row: Row)
    requires ProductsHold(rows, products) && row in rows && ProductOf(row).Some?
    ensures ProductOf(row).value.0 in products
    ensures row.Bond? ==> products[ProductOf(row).value.0] == BondCode
    ensures row.Fund? ==> products[ProductOf(row).value.0] == FundCode
    ensures row.Etp? ==> products[ProductOf(row).value.0] in {EtfCode, EtnCode}
  {
    var e := ProductOf(row).value.0;
    FirstCodeIsSomeRows(rows, e);
    var r :| r in rows && ProductOf(r) == Some((e, products[e]));
  }

  lemma NoProduct(rows: seq<Row>, products: Products, e: EntityId)
    requires ProductsHold(rows, products) && KindOf(e) != FinancialProduct
    ensures e !in products
  {
    FirstCodeIsSomeRows(rows, e);
  }

  // ------------------------------------------------------------ the concept table

  const CATEGORY_ORDER: seq<Category> := [AssetClass, ExposureRegion, MarketScope, RiskGrade, BondType, OfferingType, SubscriptionStatus]

  /** The concept that the row's text for the category maps to; it is stored when the text is asserted,
      whether or not a fact follows. */
  function ConceptAt(lex: Lexicon, row: Row, c: Category): Option<string> {
    var f, v := ClassField(row, c), ClassText(row, c);
    if f.None? || v.None? || ClassEvidence(row, f.value) == {} then None else lex.concept(c, v.value)
  }

  /** The first of the categories under which the row maps to the concept. */
  function FirstOf(lex: Lexicon, row: Row, categories: seq<Category>, iri: string): Option<Category> {
    if categories == [] then None
    else if ConceptAt(lex, row, categories[0]) == Some(iri) then Some(categories[0])
    else FirstOf(lex, row, categories[1..], iri)
  }

  function FirstCategory(lex: Lexicon, rows: seq<Row>, iri: string): Option<Category>
    decreases |rows|
  {
    if rows == [] then None
    else
      var c := FirstOf(lex, rows[0], CATEGORY_ORDER, iri);
      if c.Some? then c else FirstCategory(lex, rows[1..], iri)
  }

  /** Insert-or-ignore: the category of a concept is the one under which it was met first. */
  ghost predicate ConceptsHold(lex: Lexicon, rows: seq<Row>, concepts: Concepts) {
    forall iri ::
      && (iri in concepts <==> FirstCategory(lex, rows, iri).Some?)
      && (iri in concepts ==> FirstCategory(lex, rows, iri) == Some(concepts[iri]))
  }

  lemma EveryCategoryOrdered(c: Category)
    ensures c in CATEGORY_ORDER
  {
    match c {
      case AssetClass => assert CATEGORY_ORDER[0] == c;
      case ExposureRegion => assert CATEGORY_ORDER[1] == c;
      case MarketScope => assert CATEGORY_ORDER[2] == c;
      case RiskGrade => assert CATEGORY_ORDER[3] == c;
      case BondType => assert CATEGORY_ORDER[4] == c;
      case OfferingType => assert CATEGORY_ORDER[5] == c;
      case SubscriptionStatus => assert CATEGORY_ORDER[6] == c;
    }
  }

  lemma {:induction false} FirstOfIsSome(lex: Lexicon, row: Row, categories: seq<Category>, iri: string)
    ensures FirstOf(lex, row, categories, iri).Some? <==> exists c :: c in categories && ConceptAt(lex, row, c) == Some(iri)
    ensures FirstOf(lex, row, categories, iri).Some? ==> ConceptAt(lex, row, FirstOf(lex, row, categories, iri).value) == Some(iri)
  {
    hide ConceptAt;
    if categories != [] {
      FirstOfIsSome(lex, row, categories[1..], iri);
      assert categories[0] in categories;
      assert forall c :: c in categories <==> c == categories[0] || c in categories[1..];
    }
  }

  lemma {:induction false} FirstCategoryIsSomeRows(lex: Lexicon, rows: seq<Row>, iri: string)
    ensures FirstCategory(lex, rows, iri).Some? <==> exists r, c :: r in rows && ConceptAt(lex, r, c) == Some(iri)
    ensures FirstCategory(lex, rows, iri).Some? ==>
      exists r :: r in rows && ConceptAt(lex, r, FirstCategory(lex, rows, iri).value) == Some(iri)
    decreases |rows|
  {
    hide ConceptAt, FirstOf;
    if rows != [] {
      FirstOfIsSome(lex, rows[0], CATEGORY_ORDER, iri);
      FirstCategoryIsSomeRows(lex, rows[1..], iri);
      assert rows[0] in rows;
      assert forall r :: r in rows <==> r == rows[0] || r in rows[1..];
      forall c { EveryCategoryOrdered(c); }
    }
  }

  // ------------------------------------------------------------ the gate

  /** An exchange-traded product whose first row says ETN while another row, saying ETF, names an
      acceptable manager. */
  ghost predicate ManagedNote(lex: Lexicon, rows: seq<Row>) {
    exists r :: r in rows && ManagesNote(lex, rows, r)
  }

  predicate ManagesNote(lex: Lexicon, rows: seq<Row>, r: Row) {
    NamesManager(lex, r) && FirstCode(rows, Product(DatasetOf(r), r.code)) == Some(EtnCode)
  }

  /** The row classifies its subject under a category that is not the stored one of the concept. */
  ghost predicate Miscategorises(lex: Lexicon, k: Knowledge, rows: seq<Row>, r: Row, c: Category) {
    && Subject(r).Some? && ConceptAt(lex, r, c).Some? && !ClassDisputed(k, r, ClassField(r, c).value)
    && FirstCategory(lex, rows, ConceptAt(lex, r, c).value) != Some(c)
  }

  ghost predicate Miscategorised(lex: Lexicon, k: Knowledge, rows: seq<Row>) {
    exists r, c :: r in rows && Miscategorises(lex, k, rows, r, c)
  }

  predicate NamesManager(lex: Lexicon, r: Row) {
    r.Etp? && r.group == ETF && cu_fund_mgmt_co in r.cells && !lex.rejected(r.cells[cu_fund_mgmt_co])
  }

  lemma RelationTargetInRange(lex: Lexicon, k: Knowledge, row: Row, r: Relation)
    ensures RelationTarget(lex, k, row, r).Some? ==> RangeOf(RelationTarget(lex, k, row, r).value) == RelationRange(r)
  {
    hide HasSaleLotEvidence, Agreed, IndexField, DatasetOf, Tracks;
  }

  lemma RelationSubjectInDomain(lex: Lexicon, k: Knowledge, rows: seq<Row>, products: Products, row: Row, r: Relation)
    requires ProductsHold(rows, products) && row in rows
    requires RelationTarget(lex, k, row, r).Some? && RelationSubject(row).Some?
    requires row.Etp? && r == ManagedBy ==> GrainOf(products, ProductOf(row).value.0) == ETF_GRAIN
    ensures GrainOf(products, RelationSubject(row).value) in RelationSubjects(r)
  {
    StoredCode(rows, products, row);
    hide ProductsHold, HasSaleLotEvidence, Agreed, OrganizationNamed, IndexNamed, CurrencyIn, CountryIn, Primary, Tracks;
    assert ProductOf(row).value.0 == RelationSubject(row).value;
  }

  lemma ClassSubjectInDomain(rows: seq<Row>, products: Products, row: Row, c: Category)
    requires ProductsHold(rows, products) && row in rows
    requires ClassField(row, c).Some? && Subject(row).Some?
    ensures GrainOf(products, Subject(row).value) in ClassSubjects(c)
  {
    if row.Fund? {
      NoProduct(rows, products, Subject(row).value);
    } else {
      StoredCode(rows, products, row);
      assert ProductOf(row).value.0 == Subject(row).value;
    }
    hide ProductsHold;
  }

  lemma RowEmissionInDomain(lex: Lexicon, k: Knowledge, rows: seq<Row>, products: Products, concepts: Concepts, row: Row, em: Emission)
    requires ProductsHold(rows, products) && ConceptsHold(lex, rows, concepts) && row in rows && RowEmits(lex, k, row, em)
    requires !ManagesNote(lex, rows, row) && forall c :: !Miscategorises(lex, k, rows, row, c)
    ensures InDomain(products, concepts, em.fact) && !IsEtnIssuer(products, em.fact)
  {
    match em.fact.key {
      case Related(r, target) =>
        RelationTargetInRange(lex, k, row, r);
        EmittedRelation(lex, k, row, em);
        if row.Etp? && r == ManagedBy { ManagerIsEtfs(lex, k, rows, products, row); }
        RelationSubjectInDomain(lex, k, rows, products, row, r);
        if r == IssuedBy { IssuerIsBonds(lex, k, rows, products, row); }
        hide RowEmits, ProductsHold, ConceptsHold, ManagesNote, Miscategorises, RelationTarget, RelationSubject;
      case Class(c, iri) =>
        EmittedClass(lex, k, row, em);
        ClassSubjectInDomain(rows, products, row, c);
        assert !Miscategorises(lex, k, rows, row, c);
        hide RowEmits, ProductsHold, ManagesNote, Subject, ClassField, ConceptAt, FirstCategory, ClassSubjects, GrainOf, ClassDisputed;
      case _ =>
        hide RowEmits, ProductsHold, ConceptsHold, ManagesNote, Miscategorises;
    }
  }

  lemma EmittedRelation(lex: Lexicon, k: Knowledge, row: Row, em: Emission)
    requires RowEmits(lex, k, row, em) && em.fact.key.Related?
    ensures RelationTarget(lex, k, row, em.fact.key.relation) == Some(em.fact.key.target)
    ensures RelationSubject(row) == Some(em.fact.subject)
  {
    hide RelationTarget, RelationSubject, RelationEvidence;
  }

  lemma EmittedClass(lex: Lexicon, k: Knowledge, row: Row, em: Emission)
    requires RowEmits(lex, k, row, em) && em.fact.key.Class?
    ensures var c := em.fact.key.category;
      && ClassField(row, c).Some? && Subject(row) == Some(em.fact.subject)
      && ConceptAt(lex, row, c) == Some(em.fact.key.concept) && !ClassDisputed(k, row, ClassField(row, c).value)
  {
    hide ClassField, ClassText, ClassEvidence, Subject;
  }

  lemma ClassedIsEmitted(lex: Lexicon, k: Knowledge, row: Row, c: Category)
    requires Subject(row).Some? && ConceptAt(lex, row, c).Some? && !ClassDisputed(k, row, ClassField(row, c).value)
    ensures exists em :: RowEmits(lex, k, row, em) && em.fact.key == Class(c, ConceptAt(lex, row, c).value)
  {
    var iri, f := ConceptAt(lex, row, c).value, ClassField(row, c).value;
    var id := FactId(Subject(row).value, DatasetOf(row), Class(c, iri));
    hide ClassField, ClassText, ClassEvidence, Subject, ClassDisputed;
    assert RowEmits(lex, k, row, Emission(id, Tie, ClassEvidence(row, f)));
  }

  lemma ManagerIsEtfs(lex: Lexicon, k: Knowledge, rows: seq<Row>, products: Products, row: Row)
    requires ProductsHold(rows, products) && row in rows && row.Etp? && RelationTarget(lex, k, row, ManagedBy).Some?
    requires !ManagesNote(lex, rows, row)
    ensures GrainOf(products, ProductOf(row).value.0) == ETF_GRAIN
  {
    StoredCode(rows, products, row);
  }

  lemma IssuerIsBonds(lex: Lexicon, k: Knowledge, rows: seq<Row>, products: Products, row: Row)
    requires ProductsHold(rows, products) && row in rows && RelationTarget(lex, k, row, IssuedBy).Some? && RelationSubject(row).Some?
    ensures GrainOf(products, RelationSubject(row).value) == BOND_GRAIN
  {
    assert row.Bond?;
    StoredCode(rows, products, row);
  }

  lemma ManagedNoteIsEmitted(lex: Lexicon, k: Knowledge, row: Row)
    requires NamesManager(lex, row)
    ensures exists em :: EmitsManager(lex, k, row, em)
  {
    var manager := Organization(AssetManager, DatasetOf(row), lex.lookup(row.cells[cu_fund_mgmt_co]));
    var id := FactId(Product(DatasetOf(row), row.code), DatasetOf(row), Related(ManagedBy, manager));
    assert EmitsManager(lex, k, row, Emission(id, Tie, Asserts(row, cu_fund_mgmt_co)));
  }

  predicate EmitsManager(lex: Lexicon, k: Knowledge, row: Row, em: Emission) {
    && RowEmits(lex, k, row, em) && row.Etp? && em.fact.subject == Product(DatasetOf(row), row.code)
    && em.fact.key.Related? && em.fact.key.relation == ManagedBy
  }

  /** Over arbitrary rows, repeated keys included, the gate refuses in two cases only: a product whose
      first row says ETN and that another row, saying ETF, gives a manager; and a classification whose
      concept was stored under another category. */
  lemma GateAcceptsIff(lex: Lexicon, k: Knowledge, rows: seq<Row>, facts: Facts, links: Links, products: Products, concepts: Concepts)
    requires Holds(lex, k, rows, facts, links) && ProductsHold(rows, products) && ConceptsHold(lex, rows, concepts)
    ensures GatePasses(products, concepts, facts) <==> !ManagedNote(lex, rows) && !Miscategorised(lex, k, rows)
  {
    hide RowEmits, ProductsHold, ConceptsHold, ManagesNote, InDomain, IsEtnIssuer, Miscategorises;
    if !ManagedNote(lex, rows) && !Miscategorised(lex, k, rows) {
      forall id | id in facts ensures InDomain(products, concepts, id) && !IsEtnIssuer(products, id) {
        var em :| Emitted(lex, k, rows, em) && em.fact == id;
        if r :| r in rows && RowEmits(lex, k, r, em) {
          RowEmissionInDomain(lex, k, rows, products, concepts, r, em);
        } else {
          CandidateInDomain(lex, k, rows, products, concepts, em);
        }
      }
    }
    if ManagedNote(lex, rows) {
      var r :| r in rows && ManagesNote(lex, rows, r);
      ManagedNoteIsRefused(lex, k, rows, products, concepts, r);
    }
    if Miscategorised(lex, k, rows) {
      var r, c :| r in rows && Miscategorises(lex, k, rows, r, c);
      MiscategorisedIsRefused(lex, k, rows, products, concepts, r, c);
    }
  }

  lemma MiscategorisedIsRefused(lex: Lexicon, k: Knowledge, rows: seq<Row>, products: Products, concepts: Concepts, r: Row, c: Category)
    requires ConceptsHold(lex, rows, concepts) && r in rows && Miscategorises(lex, k, rows, r, c)
    ensures exists em :: Emitted(lex, k, rows, em) && !InDomain(products, concepts, em.fact)
  {
    var iri := ConceptAt(lex, r, c).value;
    FirstCategoryIsSomeRows(lex, rows, iri);
    ClassedIsEmitted(lex, k, r, c);
    hide RowEmits, ConceptAt, FirstCategory, Subject, ClassField, ClassDisputed, GrainOf, ClassSubjects;
    var em :| RowEmits(lex, k, r, em) && em.fact.key == Class(c, iri);
    assert Emitted(lex, k, rows, em);
    assert iri in concepts && concepts[iri] != c;
  }

  lemma ManagedNoteIsRefused(lex: Lexicon, k: Knowledge, rows: seq<Row>, products: Products, concepts: Concepts, r: Row)
    requires ProductsHold(rows, products) && r in rows && ManagesNote(lex, rows, r)
    ensures exists em :: Emitted(lex, k, rows, em) && !InDomain(products, concepts, em.fact)
  {
    ManagedNoteIsEmitted(lex, k, r);
    hide RowEmits;
    var em :| EmitsManager(lex, k, r, em);
    assert Emitted(lex, k, rows, em);
    NotesAreNotManaged(rows, products, concepts, em.fact);
  }

  lemma CandidateInDomain(lex: Lexicon, k: Knowledge, rows: seq<Row>, products: Products, concepts: Concepts, em: Emission)
    requires IsCandidate(lex, k, rows, em)
    ensures InDomain(products, concepts, em.fact) && !IsEtnIssuer(products, em.fact)
  {
  }

  lemma NotesAreNotManaged(rows: seq<Row>, products: Products, concepts: Concepts, id: FactId)
    requires ProductsHold(rows, products) && FirstCode(rows, id.subject) == Some(EtnCode)
    requires id.key.Related? && id.key.relation == ManagedBy
    ensures !InDomain(products, concepts, id)
  {
  }

  ghost predicate GroupsAgree(rows: seq<Row>) {
    forall r, s :: r in rows && s in rows && r.Etp? && s.Etp? && r.foreign == s.foreign && r.code == s.code ==> r.group == s.group
  }

  lemma AgreeingGroupsManageNoNote(lex: Lexicon, rows: seq<Row>)
    requires GroupsAgree(rows)
    ensures !ManagedNote(lex, rows)
  {
    forall r | r in rows && NamesManager(lex, r) ensures FirstCode(rows, Product(DatasetOf(r), r.code)) == Some(EtfCode) {
      var e := Product(DatasetOf(r), r.code);
      FirstCodeIsSomeRows(rows, e);
      assert ProductOf(r) == Some((e, EtfCode));
      var s :| s in rows && ProductOf(s) == Some((e, FirstCode(rows, e).value));
      assert s.Etp? && s.foreign == r.foreign;
    }
  }

  /** Rows that pass the count check cannot disagree: the product key of an exchange-traded product is
      its record key. */
  lemma OneRowPerProduct(rows: seq<Row>)
    requires OneRowPerRecord(rows)
    ensures GroupsAgree(rows)
  {
    CountCheckIff(rows);
    forall r, s | r in rows && s in rows && r.Etp? && s.Etp? && r.foreign == s.foreign && r.code == s.code ensures r == s {
      assert RecordOf(r) == RecordOf(s);
    }
  }

  /** When the rows of a product agree on its group, no note has a manager or an issuer, and the gate
      passes exactly when no concept is used under a category other than the one it was stored under. */
  lemma NotesHaveNoManagerOrIssuer(lex: Lexicon, k: Knowledge, rows: seq<Row>, facts: Facts, links: Links, products: Products, concepts: Concepts)
    requires Holds(lex, k, rows, facts, links) && ProductsHold(rows, products) && ConceptsHold(lex, rows, concepts) && GroupsAgree(rows)
    ensures GatePasses(products, concepts, facts) <==> !Miscategorised(lex, k, rows)
    ensures forall id :: id in facts && (IsRelation(id, ManagedBy) || IsRelation(id, IssuedBy)) ==> GrainOf(products, id.subject) != ETN_GRAIN
  {
    AgreeingGroupsManageNoNote(lex, rows);
    GateAcceptsIff(lex, k, rows, facts, links, products, concepts);
    hide Miscategorises, ManagesNote, RowEmits;
    forall id | id in facts && (IsRelation(id, ManagedBy) || IsRelation(id, IssuedBy)) ensures GrainOf(products, id.subject) != ETN_GRAIN {
      RelationsInDomain(lex, k, rows, facts, links, products, id);
    }
  }

  lemma RelationsInDomain(lex: Lexicon, k: Knowledge, rows: seq<Row>, facts: Facts, links: Links, products: Products, id: FactId)
    requires Holds(lex, k, rows, facts, links) && ProductsHold(rows, products) && !ManagedNote(lex, rows)
    requires id in facts && (IsRelation(id, ManagedBy) || IsRelation(id, IssuedBy))
    ensures GrainOf(products, id.subject) != ETN_GRAIN
  {
    hide RowEmits, ProductsHold, ManagesNote;
    var em :| Emitted(lex, k, rows, em) && em.fact == id;
    assert !IsCandidate(lex, k, rows, em);
    var r :| r in rows && RowEmits(lex, k, r, em);
    EmittedRelation(lex, k, r, em);
    var relation := id.key.relation;
    if r.Etp? && relation == ManagedBy { ManagerIsEtfs(lex, k, rows, products, r); }
    RelationSubjectInDomain(lex, k, rows, products, r, relation);
    if relation == IssuedBy { IssuerIsBonds(lex, k, rows, products, r); }
    hide GrainOf, RelationTarget, RelationSubject;
  }

  /** No concept is reached under two categories. */
  ghost predicate OneCategory(lex: Lexicon) {
    forall c, d, s, t :: lex.concept(c, s).Some? && lex.concept(c, s) == lex.concept(d, t) ==> c == d
  }

  lemma ConceptIsMapped(lex: Lexicon, row: Row, c: Category)
    requires ConceptAt(lex, row, c).Some?
    ensures ClassText(row, c).Some? && lex.concept(c, ClassText(row, c).value) == ConceptAt(lex, row, c)
  {
    hide ClassField, ClassText, ClassEvidence;
  }

  lemma OneCategoryIsStored(lex: Lexicon, k: Knowledge, rows: seq<Row>)
    requires OneCategory(lex)
    ensures !Miscategorised(lex, k, rows)
  {
    hide ConceptAt, FirstCategory, Subject, ClassDisputed, ClassText, ClassField, OneCategory;
    forall r, c | r in rows && ConceptAt(lex, r, c).Some? ensures FirstCategory(lex, rows, ConceptAt(lex, r, c).value) == Some(c) {
      var iri := ConceptAt(lex, r, c).value;
      FirstCategoryIsSomeRows(lex, rows, iri);
      var s :| s in rows && ConceptAt(lex, s, FirstCategory(lex, rows, iri).value) == Some(iri);
      SameCategory(lex, r, c, s, FirstCategory(lex, rows, iri).value);
    }
  }

  lemma SameCategory(lex: Lexicon, r: Row, c: Category, s: Row, d: Category)
    requires OneCategory(lex) && ConceptAt(lex, r, c).Some? && ConceptAt(lex, s, d) == ConceptAt(lex, r, c)
    ensures c == d
  {
    hide ConceptAt, ClassText;
    ConceptIsMapped(lex, r, c);
    ConceptIsMapped(lex, s, d);
  }

  /** When every row has its own record, as the count check before the gate demands, no note has a
      manager or an issuer and the gate passes exactly when no concept is used under a category other
      than its stored one; where no concept is reached under two categories, it always passes. */
  lemma GateAcceptsRebuild(lex: Lexicon, k: Knowledge, rows: seq<Row>, facts: Facts, links: Links, products: Products, concepts: Concepts)
    requires Holds(lex, k, rows, facts, links) && ProductsHold(rows, products) && ConceptsHold(lex, rows, concepts) && OneRowPerRecord(rows)
    ensures GatePasses(products, concepts, facts) <==> !Miscategorised(lex, k, rows)
    ensures OneCategory(lex) ==> GatePasses(products, concepts, facts)
    ensures forall id :: id in facts && (IsRelation(id, ManagedBy) || IsRelation(id, IssuedBy)) ==> GrainOf(products, id.subject) != ETN_GRAIN
  {
    OneRowPerProduct(rows);
    hide Holds, ProductsHold, ConceptsHold, GroupsAgree, OneRowPerRecord, Miscategorised, OneCategory, GatePasses;
    NotesHaveNoManagerOrIssuer(lex, k, rows, facts, links, products, concepts);
    if OneCategory(lex) { OneCategoryIsStored(lex, k, rows); }
  }

  lemma StatedConcept(lex: Lexicon, row: Row, c: Category, f: Field)
    requires ClassField(row, c) == Some(f) && f in row.cells && ClassText(row, c) == Some(row.cells[f])
    requires Target(DatasetOf(row), f) && ClassEvidence(row, f) == Asserts(row, f)
    ensures ConceptAt(lex, row, c) == lex.concept(c, row.cells[f])
  {
    hide ClassField, ClassText, ClassEvidence, RecordOf, AssertedWhenMissing, Target, DatasetOf;
    assert AssertionId(RecordOf(row), f) in Asserts(row, f);
  }

  lemma FundConcepts(lex: Lexicon, row: Row)
    requires row.Fund? && or_attr_desc in row.cells && fd_ivst_rgn_desc in row.cells
    ensures ConceptAt(lex, row, AssetClass) == lex.concept(AssetClass, row.cells[or_attr_desc])
    ensures ConceptAt(lex, row, ExposureRegion) == lex.concept(ExposureRegion, row.cells[fd_ivst_rgn_desc])
  {
    hide ConceptAt, Asserts, AssertsEither;
    StatedConcept(lex, row, AssetClass, or_attr_desc);
    StatedConcept(lex, row, ExposureRegion, fd_ivst_rgn_desc);
  }

  /** A share class whose asset class and exposure region map to one concept: the concept is stored as
      an asset class and the region is refused. */
  lemma SharedConceptIsRefused(lex: Lexicon, k: Knowledge, row: Row, facts: Facts, links: Links, products: Products, concepts: Concepts, iri: string)
    requires row.Fund? && row.family.Some? && row.cells.Keys == {itm_no, itm_nm, rptt_ksd_itm_no, or_attr_desc, fd_ivst_rgn_desc}
    requires lex.concept(AssetClass, row.cells[or_attr_desc]) == Some(iri) == lex.concept(ExposureRegion, row.cells[fd_ivst_rgn_desc])
    requires Holds(lex, k, [row], facts, links) && ProductsHold([row], products) && ConceptsHold(lex, [row], concepts)
    ensures OneRowPerRecord([row]) && !GatePasses(products, concepts, facts)
  {
    FundConcepts(lex, row);
    hide Holds, ProductsHold, ConceptsHold, ConceptAt, ManagesNote, GatePasses;
    assert CATEGORY_ORDER[0] == AssetClass;
    assert FirstCategory(lex, [row], iri) == Some(AssetClass);
    assert row in [row] && Miscategorises(lex, k, [row], row, ExposureRegion);
    GateAcceptsIff(lex, k, [row], facts, links, products, concepts);
  }

  predicate IsRelation(id: FactId, r: Relation) {
    id.key.Related? && id.key.relation == r
  }
}
