/** The table rows that one source row adds to the buffer, with their keys and references, and why no
    schedule of flushes can make a statement fail. */
module RebuildUnits {
  import opened Basics
  import opened RebuildRows
  import opened TwoPassFacts
  import opened RowOrder
  import opened RelationDomains
  import opened TwoPassRebuild
  import T = CanonicalTables
  import B = RowBuffer

  /** What unique constraints and foreign keys compare. */
  datatype Value =
    | RecordKey(record: RecordId) | RecordNumber(dataset: Dataset, number: nat)
    | EntityKey(entity: EntityId) | EntityOfKind(entity: EntityId, kind: Kind)
    | ProductKey(entity: EntityId) | ProductOfCode(entity: EntityId, code: ProductCode)
    | SubtypeKey(entity: EntityId) | ClassOfFund(fund: EntityId, entity: EntityId)
    | ConceptKey(concept: string)
    | AssertionKey(assertion: AssertionId) | ColumnKey(assertion: AssertionId)
    | ProvenanceKey(record: RecordId, entity: EntityId) | DescribesKey(record: RecordId)
    | FactKey(fact: FactId) | FactIdentity(fact: FactId) | LinkKey(fact: FactId, assertion: AssertionId)
    | ValueKey(assertion: AssertionId, text: string) | CaseKey(entity: EntityId, field: Field)

  /** How keys and typed values are written, which number the workbook gives each record, and the type
      of each product. */
  datatype Naming = Naming(hash: Value -> string, content: Body -> string, number: RecordId -> nat, code: EntityId -> ProductCode)

  ghost predicate Injective(n: Naming) {
    && (forall v, w :: n.hash(v) == n.hash(w) ==> v == w)
    && (forall r: RecordId, s: RecordId :: r.dataset == s.dataset && n.number(r) == n.number(s) ==> r == s)
  }

  // ------------------------------------------------------------ table rows

  datatype Item =
    | RecordItem(record: RecordId)
    | AssertionItem(assertion: AssertionId)
    | EntityItem(entity: EntityId)
    | ProductItem(entity: EntityId, code: ProductCode)
    | BondItem(entity: EntityId)
    | EtpItem(entity: EntityId, code: ProductCode)
    | FundItem(entity: EntityId)
    | ClassItem(entity: EntityId, fund: EntityId)
    | LotItem(entity: EntityId, bond: EntityId)
    | OrganizationItem(entity: EntityId)
    | IndexItem(entity: EntityId)
    | ConceptItem(concept: string)
    | ProvenanceItem(record: RecordId, entity: EntityId, describes: bool)
    | FactItem(fact: FactId)
    | TypedItem(fact: FactId, body: Body)
    | LinkItem(fact: FactId, assertion: AssertionId)
    | ValueItem(assertion: AssertionId, text: string, candidate: Option<string>)
    | CaseItem(entity: EntityId, field: Field)

  function TypedTable(key: Key): T.Table {
    match key
    case Class(_, _) => T.EntityClassifications
    case Related(_, target) =>
      if target.Organization? then T.OrganizationRelations else if target.Index? then T.IndexRelations else T.EntityRelations
    case Metric(_, _, _) => T.MetricObservations
    case CreditRating => T.MetricObservations
    case _ => T.CanonicalScalarFacts
  }

  function TableOf(it: Item): T.Table {
    match it
    case RecordItem(_) => T.SourceRecords
    case AssertionItem(_) => T.SourceFieldAssertions
    case EntityItem(_) => T.CanonicalEntities
    case ProductItem(_, _) => T.FinancialProducts
    case BondItem(_) => T.Bonds
    case EtpItem(_, _) => T.ExchangeTradedProducts
    case FundItem(_) => T.Funds
    case ClassItem(_, _) => T.FundShareClasses
    case LotItem(_, _) => T.SaleLots
    case OrganizationItem(_) => T.Organizations
    case IndexItem(_) => T.Indices
    case ConceptItem(_) => T.OntologyConcepts
    case ProvenanceItem(_, _, _) => T.SourceRecordEntities
    case FactItem(_) => T.CanonicalFacts
    case TypedItem(id, _) => TypedTable(id.key)
    case LinkItem(_, _) => T.FactEvidenceLinks
    case ValueItem(_, _, _) => T.SourceClassificationValues
    case CaseItem(_, _) => T.FactConflictCases
  }

  /** The primary key. */
  function KeyOf(it: Item): Value {
    match it
    case RecordItem(r) => RecordKey(r)
    case AssertionItem(a) => AssertionKey(a)
    case EntityItem(e) => EntityKey(e)
    case ProductItem(e, _) => ProductKey(e)
    case BondItem(e) => SubtypeKey(e)
    case EtpItem(e, _) => SubtypeKey(e)
    case FundItem(e) => SubtypeKey(e)
    case ClassItem(e, _) => SubtypeKey(e)
    case LotItem(e, _) => SubtypeKey(e)
    case OrganizationItem(e) => SubtypeKey(e)
    case IndexItem(e) => SubtypeKey(e)
    case ConceptItem(c) => ConceptKey(c)
    case ProvenanceItem(r, e, _) => ProvenanceKey(r, e)
    case FactItem(id) => FactKey(id)
    case TypedItem(id, _) => FactKey(id)
    case LinkItem(id, a) => LinkKey(id, a)
    case ValueItem(a, text, _) => ValueKey(a, text)
    case CaseItem(e, f) => CaseKey(e, f)
  }

  /** The values of the other unique constraints of its table. */
  function OtherUniques(n: Naming, it: Item): set<Value> {
    match it
    case RecordItem(r) => {RecordNumber(r.dataset, n.number(r))}
    case AssertionItem(a) => {ColumnKey(a)}
    case EntityItem(e) => {EntityOfKind(e, KindOf(e))}
    case ProductItem(e, code) => {ProductOfCode(e, code)}
    case ClassItem(e, fund) => {ClassOfFund(fund, e)}
    case ProvenanceItem(r, _, describes) => if describes then {DescribesKey(r)} else {}
    case FactItem(id) => {FactIdentity(id)}
    case _ => {}
  }

  function Uniques(n: Naming, it: Item): set<Value> {
    {KeyOf(it)} + OtherUniques(n, it)
  }

  function TypedRefs(id: FactId): set<(T.Table, Value)> {
    match id.key
    case Class(_, iri) => {(T.CanonicalEntities, EntityKey(id.subject)), (T.OntologyConcepts, ConceptKey(iri))}
    case Related(_, target) =>
      if target.Organization? then {(T.FinancialProducts, ProductKey(id.subject)), (T.Organizations, SubtypeKey(target))}
      else if target.Index? then {(T.FinancialProducts, ProductKey(id.subject)), (T.Indices, SubtypeKey(target))}
      else {(T.CanonicalEntities, EntityKey(id.subject)), (T.CanonicalEntities, EntityKey(target))}
    case Metric(_, _, _) => {(T.CanonicalEntities, EntityKey(id.subject))}
    case CreditRating => {(T.CanonicalEntities, EntityKey(id.subject))}
    case _ => {}
  }

  /** The rows of other tables that its foreign keys name. */
  function Refs(it: Item): set<(T.Table, Value)> {
    match it
    case AssertionItem(a) => {(T.SourceRecords, RecordKey(a.record))}
    case ProductItem(e, _) => {(T.CanonicalEntities, EntityOfKind(e, FinancialProduct))}
    case BondItem(e) => {(T.FinancialProducts, ProductOfCode(e, BondCode))}
    case EtpItem(e, code) => {(T.FinancialProducts, ProductOfCode(e, code))}
    case FundItem(e) => {(T.FinancialProducts, ProductOfCode(e, FundCode))}
    case ClassItem(e, fund) => {(T.Funds, SubtypeKey(fund)), (T.CanonicalEntities, EntityOfKind(e, FundShareClass))}
    case LotItem(e, bond) => {(T.Bonds, SubtypeKey(bond)), (T.CanonicalEntities, EntityOfKind(e, SaleLotKind))}
    case OrganizationItem(e) => {(T.CanonicalEntities, EntityOfKind(e, OrganizationKind))}
    case IndexItem(e) => {(T.CanonicalEntities, EntityOfKind(e, IndexKind))}
    case ProvenanceItem(r, e, _) => {(T.SourceRecords, RecordKey(r)), (T.CanonicalEntities, EntityOfKind(e, KindOf(e)))}
    case FactItem(id) => {(T.CanonicalEntities, EntityKey(id.subject))}
    case TypedItem(id, _) => {(T.CanonicalFacts, FactKey(id))} + TypedRefs(id)
    case LinkItem(id, a) => {(T.CanonicalFacts, FactKey(id)), (T.SourceFieldAssertions, AssertionKey(a))}
    case ValueItem(a, _, candidate) =>
      {(T.SourceFieldAssertions, AssertionKey(a))} + if candidate.Some? then {(T.OntologyConcepts, ConceptKey(candidate.value))} else {}
    case CaseItem(e, _) => {(T.CanonicalEntities, EntityKey(e))}
    case _ => {}
  }

  /** The row as the tables hold it. */
  function RowFor(n: Naming, it: Item): T.Row {
    T.Row(TableOf(it), n.hash(KeyOf(it)), set v | v in Uniques(n, it) :: n.hash(v),
          set p | p in Refs(it) :: (p.0, n.hash(p.1)),
          if it.TypedItem? then n.content(it.body) else "")
  }

  function RowsFor(n: Naming, items: seq<Item>): seq<T.Row> {
    seq(|items|, i requires 0 <= i < |items| => RowFor(n, items[i]))
  }

  // ------------------------------------------------------------ what one source row adds

  /** The elements of a set in some order. */
  ghost function Listed<A(!new)>(s: set<A>): (r: seq<A>)
    ensures forall x :: x in r <==> x in s
  {
    if s == {} then [] else var x :| x in s; [x] + Listed(s - {x})
  }

  ghost function AssertionItems(row: Row): seq<Item> {
    Listed(set f | f in TargetFields(DatasetOf(row)) && Asserted(row, f) :: AssertionItem(AssertionId(RecordOf(row), f)))
  }

  function EntityItems(lex: Lexicon, row: Row): seq<Item> {
    match row
    case Bond(isin, lot, cells) =>
      var bond := Product(PRBD01N001, isin);
      [EntityItem(bond), ProductItem(bond, BondCode), BondItem(bond)]
      + if HasSaleLotEvidence(lex, cells) then [EntityItem(SaleLot(isin, lot)), LotItem(SaleLot(isin, lot), bond)] else []
    case Etp(_, code, group, _) =>
      var p := Product(DatasetOf(row), code);
      [EntityItem(p), ProductItem(p, CodeOf(group)), EtpItem(p, CodeOf(group))]
    case Fund(code, family, _) =>
      if family.None? then []
      else
        var fund := FundFamily(family.value);
        [EntityItem(fund), ProductItem(fund, FundCode), FundItem(fund), EntityItem(ShareClass(code)), ClassItem(ShareClass(code), fund)]
  }

  function ProvenanceItems(lex: Lexicon, row: Row): seq<Item> {
    (if Primary(lex, row).Some? then [ProvenanceItem(RecordOf(row), Primary(lex, row).value, true)] else [])
    + (if Support(row).Some? then [ProvenanceItem(RecordOf(row), Support(row).value, false)] else [])
  }

  ghost function HeadItems(lex: Lexicon, row: Row): seq<Item> {
    [RecordItem(RecordOf(row))] + AssertionItems(row) + EntityItems(lex, row) + ProvenanceItems(lex, row)
  }

  /** The concept that a classification maps to, and the value as stated, whether or not there is a
      subject to classify or a dispute about it. */
  ghost function ValueItems(lex: Lexicon, row: Row, c: Category): seq<Item> {
    var f, v := ClassField(row, c), ClassText(row, c);
    if f.None? || v.None? || ClassEvidence(row, f.value) == {} then []
    else
      var concept := lex.concept(c, v.value);
      (if concept.Some? then [ConceptItem(concept.value)] else [])
      + Listed(set a | a in ClassEvidence(row, f.value) :: ValueItem(a, v.value, concept))
  }

  /** The organization, index, currency or country that the row names at this relation. It is stored
      even where no fact follows: for the manager of a note, for a name that the family disputes, and
      for the currency of a fund. */
  function Named(lex: Lexicon, k: Knowledge, row: Row, r: Relation): Option<EntityId> {
    match r
    case HasShareClass => None
    case HasSaleLot => None
    case TracksIndex => None
    case ManagedBy =>
      if row.Etp? then OrganizationNamed(lex, row, AssetManager, Cell(row, cu_fund_mgmt_co))
      else if HasFamily(row) then OrganizationNamed(lex, row, AssetManager, Cell(row, or_co_xtn_itt_cd)) else None
    case HasTrustee => if HasFamily(row) then OrganizationNamed(lex, row, Trustee, Cell(row, trusc_xtn_itt_cd)) else None
    case HasBenchmark => if HasFamily(row) then IndexNamed(lex, row, Cell(row, bmrk_nm)) else None
    case DenominatedIn =>
      if HasFamily(row) then CurrencyIn(lex, row, curr_cd) else RelationTarget(lex, k, row, r)
    case _ => RelationTarget(lex, k, row, r)
  }

  predicate HasFamily(row: Row) {
    row.Fund? && row.family.Some?
  }

  function NamedItems(e: Option<EntityId>): seq<Item> {
    if e.None? then []
    else [EntityItem(e.value)]
         + if e.value.Organization? then [OrganizationItem(e.value)] else if e.value.Index? then [IndexItem(e.value)] else []
  }

  ghost function LinkItems(id: FactId, evidence: set<AssertionId>): seq<Item> {
    Listed(set a | a in evidence :: LinkItem(id, a))
  }

  ghost function EmissionItems(em: Option<Emission>): seq<Item> {
    if em.None? then []
    else [FactItem(em.value.fact)] + (if em.value.body.Disputed? then [] else [TypedItem(em.value.fact, em.value.body)])
         + LinkItems(em.value.fact, em.value.evidence)
  }

  ghost function SideItems(lex: Lexicon, k: Knowledge, row: Row, s: Slot): seq<Item> {
    match s
    case ClassSlot(c) => ValueItems(lex, row, c)
    case RelationSlot(r) => NamedItems(Named(lex, k, row, r))
    case _ => []
  }

  ghost function SlotItems(lex: Lexicon, k: Knowledge, row: Row, s: Slot): seq<Item> {
    SideItems(lex, k, row, s) + EmissionItems(SlotEmission(lex, k, row, s))
  }

  ghost function SlotsItems(lex: Lexicon, k: Knowledge, row: Row, slots: seq<Slot>): seq<Item> {
    if slots == [] then [] else SlotItems(lex, k, row, slots[0]) + SlotsItems(lex, k, row, slots[1..])
  }

  /** Everything that processing one row adds, in the order in which it is added. */
  ghost function UnitItems(lex: Lexicon, k: Knowledge, row: Row): seq<Item> {
    HeadItems(lex, row) + SlotsItems(lex, k, row, SCALARS + CATEGORIES + RELATIONS + METRICS)
  }

  // ------------------------------------------------------------ the conflict cases

  ghost function CandidateItems(lex: Lexicon, rows: seq<Row>, e: EntityId, f: Field, values: seq<string>): seq<Item> {
    if values == [] then []
    else
      var em := Candidate(lex, rows, e, f, values[0]);
      [FactItem(em.fact)] + LinkItems(em.fact, em.evidence) + CandidateItems(lex, rows, e, f, values[1..])
  }

  ghost function CasesItems(lex: Lexicon, rows: seq<Row>, cases: seq<(EntityId, Field)>): seq<Item> {
    if cases == [] then []
    else
      var e, f := cases[0].0, cases[0].1;
      CandidateItems(lex, rows, e, f, Listed(ValuesOf(rows, e, f))) + [CaseItem(e, f)] + CasesItems(lex, rows, cases[1..])
  }

  ghost function ConflictItems(lex: Lexicon, k: Knowledge, rows: seq<Row>): seq<Item> {
    CasesItems(lex, rows, Listed(k.disputed))
  }

  // ------------------------------------------------------------ members

  lemma {:induction false} SlotsItemsAre(lex: Lexicon, k: Knowledge, row: Row, slots: seq<Slot>)
    ensures forall it :: it in SlotsItems(lex, k, row, slots) <==> exists s :: s in slots && it in SlotItems(lex, k, row, s)
  {
    hide SlotItems;
    if slots != [] {
      SlotsItemsAre(lex, k, row, slots[1..]);
      assert forall s :: s in slots <==> s == slots[0] || s in slots[1..];
    }
  }

  lemma EverySlot(s: Slot)
    ensures s in AllSlots() <==> s in SCALARS + CATEGORIES + RELATIONS + METRICS
  {
  }

  /** An item of the unit is in its head or belongs to one place. */
  lemma UnitItemsAre(lex: Lexicon, k: Knowledge, row: Row)
    ensures forall it :: it in UnitItems(lex, k, row) <==>
      it in HeadItems(lex, row) || exists s :: s in AllSlots() && it in SlotItems(lex, k, row, s)
  {
    forall s { EverySlot(s); }
    SlotsItemsAre(lex, k, row, SCALARS + CATEGORIES + RELATIONS + METRICS);
    hide HeadItems, SlotItems, SlotsItems, AllSlots;
  }

  lemma {:induction false} CandidateItemsAre(lex: Lexicon, rows: seq<Row>, e: EntityId, f: Field, values: seq<string>)
    ensures forall it :: it in CandidateItems(lex, rows, e, f, values) <==>
      exists v :: v in values && it in EmissionItems(Some(Candidate(lex, rows, e, f, v)))
  {
    hide Asserters, LinkItems;
    if values != [] {
      CandidateItemsAre(lex, rows, e, f, values[1..]);
      assert forall v :: v in values <==> v == values[0] || v in values[1..];
    }
  }

  lemma {:induction false} CasesItemsAre(lex: Lexicon, rows: seq<Row>, cases: seq<(EntityId, Field)>)
    ensures forall it :: it in CasesItems(lex, rows, cases) <==> exists p :: p in cases && InCase(lex, rows, p.0, p.1, it)
  {
    hide Candidate, ValuesOf, EmissionItems;
    if cases != [] {
      CandidateItemsAre(lex, rows, cases[0].0, cases[0].1, Listed(ValuesOf(rows, cases[0].0, cases[0].1)));
      CasesItemsAre(lex, rows, cases[1..]);
      assert forall p :: p in cases <==> p == cases[0] || p in cases[1..];
    }
  }

  ghost predicate InCase(lex: Lexicon, rows: seq<Row>, e: EntityId, f: Field, it: Item) {
    it == CaseItem(e, f) || exists v :: v in ValuesOf(rows, e, f) && it in EmissionItems(Some(Candidate(lex, rows, e, f, v)))
  }

  // ------------------------------------------------------------ references stay inside

  /** The items hold a row of that table with that unique value. */
  ghost predicate Has(n: Naming, items: seq<Item>, table: T.Table, value: Value) {
    exists it :: it in items && TableOf(it) == table && value in Uniques(n, it)
  }

  /** Every foreign key of the item names a parent table and a row among the items. */
  ghost predicate Covered(n: Naming, items: seq<Item>, it: Item) {
    forall p :: p in Refs(it) ==> p.0 in T.Parents(TableOf(it)) && Has(n, items, p.0, p.1)
  }

  lemma HasIn(n: Naming, items: seq<Item>, it: Item, value: Value)
    requires it in items && value in Uniques(n, it)
    ensures Has(n, items, TableOf(it), value)
  {
  }

  ghost predicate HasProduct(items: seq<Item>, e: EntityId) {
    exists code :: ProductItem(e, code) in items
  }

  ghost predicate TypedParentsIn(items: seq<Item>, id: FactId) {
    match id.key
    case Class(_, iri) => EntityItem(id.subject) in items && ConceptItem(iri) in items
    case Related(_, target) =>
      if target.Organization? then HasProduct(items, id.subject) && OrganizationItem(target) in items
      else if target.Index? then HasProduct(items, id.subject) && IndexItem(target) in items
      else EntityItem(id.subject) in items && EntityItem(target) in items
    case Metric(_, _, _) => EntityItem(id.subject) in items
    case CreditRating => EntityItem(id.subject) in items
    case _ => true
  }

  /** The rows that the item's foreign keys name are among the items. */
  ghost predicate ParentsIn(items: seq<Item>, it: Item) {
    match it
    case AssertionItem(a) => RecordItem(a.record) in items
    case ProductItem(e, _) => EntityItem(e) in items && KindOf(e) == FinancialProduct
    case BondItem(e) => ProductItem(e, BondCode) in items
    case EtpItem(e, code) => ProductItem(e, code) in items
    case FundItem(e) => ProductItem(e, FundCode) in items
    case ClassItem(e, fund) => FundItem(fund) in items && EntityItem(e) in items && KindOf(e) == FundShareClass
    case LotItem(e, bond) => BondItem(bond) in items && EntityItem(e) in items && KindOf(e) == SaleLotKind
    case OrganizationItem(e) => EntityItem(e) in items && KindOf(e) == OrganizationKind
    case IndexItem(e) => EntityItem(e) in items && KindOf(e) == IndexKind
    case ProvenanceItem(r, e, _) => RecordItem(r) in items && EntityItem(e) in items
    case FactItem(id) => EntityItem(id.subject) in items
    case TypedItem(id, _) => FactItem(id) in items && TypedParentsIn(items, id)
    case LinkItem(id, a) => FactItem(id) in items && AssertionItem(a) in items
    case ValueItem(a, _, candidate) => AssertionItem(a) in items && (candidate.Some? ==> ConceptItem(candidate.value) in items)
    case CaseItem(e, _) => EntityItem(e) in items
    case _ => true
  }

  lemma EntityHas(n: Naming, items: seq<Item>, e: EntityId)
    requires EntityItem(e) in items
    ensures Has(n, items, T.CanonicalEntities, EntityKey(e)) && Has(n, items, T.CanonicalEntities, EntityOfKind(e, KindOf(e)))
  {
    HasIn(n, items, EntityItem(e), EntityKey(e));
    HasIn(n, items, EntityItem(e), EntityOfKind(e, KindOf(e)));
  }

  lemma ItemHas(n: Naming, items: seq<Item>, it: Item)
    requires it in items
    ensures Has(n, items, TableOf(it), KeyOf(it))
    ensures it.ProductItem? ==> Has(n, items, T.FinancialProducts, ProductOfCode(it.entity, it.code))
  {
    HasIn(n, items, it, KeyOf(it));
    if it.ProductItem? { HasIn(n, items, it, ProductOfCode(it.entity, it.code)); }
  }

  lemma RefsNameParents(it: Item)
    ensures forall p :: p in Refs(it) ==> p.0 in T.Parents(TableOf(it))
  {
  }

  lemma TypedCovered(n: Naming, items: seq<Item>, id: FactId, body: Body)
    requires FactItem(id) in items && TypedParentsIn(items, id)
    ensures Covered(n, items, TypedItem(id, body))
  {
    RefsNameParents(TypedItem(id, body));
    hide Has, Uniques, T.Parents, TypedTable;
    ItemHas(n, items, FactItem(id));
    if EntityItem(id.subject) in items { EntityHas(n, items, id.subject); }
    match id.key {
      case Class(_, iri) => ItemHas(n, items, ConceptItem(iri));
      case Related(_, target) =>
        if target.Organization? || target.Index? {
          var code :| ProductItem(id.subject, code) in items;
          ItemHas(n, items, ProductItem(id.subject, code));
          ItemHas(n, items, if target.Organization? then OrganizationItem(target) else IndexItem(target));
        } else {
          EntityHas(n, items, target);
        }
      case _ =>
    }
  }

  lemma ParentsCover(n: Naming, items: seq<Item>, it: Item)
    requires ParentsIn(items, it)
    ensures Covered(n, items, it)
  {
    RefsNameParents(it);
    hide Has, Uniques, T.Parents, TypedTable, TypedRefs, TypedParentsIn;
    match it {
      case AssertionItem(a) => ItemHas(n, items, RecordItem(a.record));
      case ProductItem(e, _) => EntityHas(n, items, e);
      case BondItem(e) => ItemHas(n, items, ProductItem(e, BondCode));
      case EtpItem(e, code) => ItemHas(n, items, ProductItem(e, code));
      case FundItem(e) => ItemHas(n, items, ProductItem(e, FundCode));
      case ClassItem(e, fund) => ItemHas(n, items, FundItem(fund)); EntityHas(n, items, e);
      case LotItem(e, bond) => ItemHas(n, items, BondItem(bond)); EntityHas(n, items, e);
      case OrganizationItem(e) => EntityHas(n, items, e);
      case IndexItem(e) => EntityHas(n, items, e);
      case ProvenanceItem(r, e, _) => ItemHas(n, items, RecordItem(r)); EntityHas(n, items, e);
      case FactItem(id) => EntityHas(n, items, id.subject);
      case TypedItem(id, body) => TypedCovered(n, items, id, body);
      case LinkItem(id, a) => ItemHas(n, items, FactItem(id)); ItemHas(n, items, AssertionItem(a));
      case ValueItem(a, _, candidate) =>
        ItemHas(n, items, AssertionItem(a));
        if candidate.Some? { ItemHas(n, items, ConceptItem(candidate.value)); }
      case CaseItem(e, _) => EntityHas(n, items, e);
      case _ =>
    }
  }

  lemma ParentsInMore(items: seq<Item>, more: seq<Item>, it: Item)
    requires ParentsIn(items, it) && forall x :: x in items ==> x in more
    ensures ParentsIn(more, it)
  {
  }

  // ------------------------------------------------------------ the parents of one row's items

  lemma AssertionItemsAre(row: Row)
    ensures forall it :: it in AssertionItems(row) <==> it.AssertionItem? && IsAssertionOf(row, it.assertion)
  {
    hide TargetFields, RecordOf;
    forall it: Item | it.AssertionItem? && IsAssertionOf(row, it.assertion) ensures it in AssertionItems(row) {
      assert it == AssertionItem(AssertionId(RecordOf(row), it.assertion.field));
    }
  }

  /** Entity rows refer to each other and to nothing else. */
  lemma EntityParents(lex: Lexicon, row: Row, it: Item)
    requires it in EntityItems(lex, row)
    ensures ParentsIn(EntityItems(lex, row), it)
  {
    hide HasSaleLotEvidence, CodeOf, DatasetOf;
    var items := EntityItems(lex, row);
    assert items[0] in items && items[1] in items && items[2] in items;
    if |items| > 3 { assert items[3] in items; }
  }

  /** The entities a row speaks about are among its entity rows. */
  lemma OwnEntities(lex: Lexicon, row: Row)
    ensures forall e :: Primary(lex, row) == Some(e) ==> EntityItem(e) in EntityItems(lex, row)
    ensures forall e :: Support(row) == Some(e) ==> EntityItem(e) in EntityItems(lex, row)
    ensures forall e :: Subject(row) == Some(e) ==> EntityItem(e) in EntityItems(lex, row)
    ensures forall e :: RelationSubject(row) == Some(e) ==> EntityItem(e) in EntityItems(lex, row) && HasProduct(EntityItems(lex, row), e)
    ensures forall e :: MetricSubject(lex, row) == Some(e) ==> EntityItem(e) in EntityItems(lex, row)
    ensures HasFamily(row) ==> EntityItem(ShareClass(row.code)) in EntityItems(lex, row)
  {
    hide HasSaleLotEvidence;
    var items := EntityItems(lex, row);
    match row {
      case Bond(isin, lot, cells) =>
        assert items[0] == EntityItem(Product(PRBD01N001, isin)) && items[1] == ProductItem(Product(PRBD01N001, isin), BondCode);
        if HasSaleLotEvidence(lex, cells) { assert items[3] == EntityItem(SaleLot(isin, lot)); }
      case Etp(_, code, group, _) =>
        assert items[0] == EntityItem(Product(DatasetOf(row), code)) && items[1] == ProductItem(Product(DatasetOf(row), code), CodeOf(group));
      case Fund(code, family, _) =>
        if family.Some? {
          assert items[0] == EntityItem(FundFamily(family.value)) && items[1] == ProductItem(FundFamily(family.value), FundCode);
          assert items[3] == EntityItem(ShareClass(code));
        }
    }
  }

  lemma HeadParents(lex: Lexicon, row: Row, it: Item)
    requires it in HeadItems(lex, row)
    ensures ParentsIn(HeadItems(lex, row), it)
  {
    var items := HeadItems(lex, row);
    AssertionItemsAre(row);
    OwnEntities(lex, row);
    if it in EntityItems(lex, row) {
      EntityParents(lex, row, it);
      hide EntityItems, AssertionItems, ProvenanceItems, ParentsIn;
      ParentsInMore(EntityItems(lex, row), items, it);
    } else {
      hide AssertionItems, EntityItems, RecordOf, Primary, Support, TypedParentsIn;
      assert RecordItem(RecordOf(row)) in items;
    }
  }

  lemma ValueParents(lex: Lexicon, row: Row, c: Category, it: Item)
    requires it in ValueItems(lex, row, c)
    ensures it.ConceptItem? || (it.ValueItem? && AssertionItem(it.assertion) in AssertionItems(row)
                                && (it.candidate.Some? ==> ConceptItem(it.candidate.value) in ValueItems(lex, row, c)))
  {
    EverythingAsserted(row);
    AssertionItemsAre(row);
    hide ClassField, ClassText, ClassEvidence, IsAssertionOf, AssertionItems;
    if it.ValueItem? && it.candidate.Some? {
      assert ConceptItem(it.candidate.value) == ValueItems(lex, row, c)[0];
    }
  }

  lemma SideParents(lex: Lexicon, k: Knowledge, row: Row, s: Slot, it: Item)
    requires it in SideItems(lex, k, row, s)
    ensures ParentsIn(HeadItems(lex, row) + SideItems(lex, k, row, s), it)
  {
    hide ValueItems, AssertionItems, EntityItems, ProvenanceItems, TypedParentsIn, Named;
    match s {
      case ClassSlot(c) => ValueParents(lex, row, c, it);
      case RelationSlot(r) =>
        var e := Named(lex, k, row, r);
        assert NamedItems(e)[0] == EntityItem(e.value);
      case _ =>
    }
  }

  /** The target of a relation is named there, or is the row's own class or lot, or is the index that
      the relation before names. */
  lemma TargetIsNamed(lex: Lexicon, k: Knowledge, row: Row, r: Relation, target: EntityId)
    requires RelationTarget(lex, k, row, r) == Some(target)
    ensures Named(lex, k, row, r) == Some(target) || (r == TracksIndex && Named(lex, k, row, HasUnderlyingIndex) == Some(target))
      || (!target.Organization? && !target.Index? && EntityItem(target) in EntityItems(lex, row))
  {
    OwnEntities(lex, row);
    hide EntityItems, HasSaleLotEvidence, CurrencyIn, CountryIn, Tracks, RelationSubject, Subject, MetricSubject, HasProduct;
    if row.Bond? && r == HasSaleLot {
      assert Primary(lex, row) == Some(target);
    }
    if HasFamily(row) && r == HasShareClass {
      assert target == ShareClass(row.code);
    }
  }

  /** A place emits under its own key, about an entity of the row, with assertions of the row. */
  lemma EmittedBySlot(lex: Lexicon, k: Knowledge, row: Row, s: Slot)
    requires SlotEmission(lex, k, row, s).Some?
    ensures s in AllSlots() && RowEmits(lex, k, row, SlotEmission(lex, k, row, s).value)
    ensures EntityItem(SlotEmission(lex, k, row, s).value.fact.subject) in EntityItems(lex, row)
    ensures forall a :: a in SlotEmission(lex, k, row, s).value.evidence ==> AssertionItem(a) in AssertionItems(row)
  {
    EveryEmissionIsVisited(lex, k, row, s);
    SlotOwnsItsKeys(lex, k, row, s);
    RowEmissionIsEvidenced(lex, k, row, SlotEmission(lex, k, row, s).value);
    SlotSubject(lex, k, row, s);
    hide SlotEmission, EntityItems, AllSlots, AssertionItems, IsAssertionOf, HasProduct, RowEmits, Primary, Support, Subject;
    hide RelationSubject, MetricSubject, HasFamily;
    AssertionItemsAre(row);
    OwnEntities(lex, row);
  }

  lemma SlotKey(lex: Lexicon, k: Knowledge, row: Row, s: Slot)
    requires SlotEmission(lex, k, row, s).Some?
    ensures var key := SlotEmission(lex, k, row, s).value.fact.key; !key.DisputedValue? && SlotOf(key) == s
  {
    hide ScalarBody, ScalarEvidence, ClassField, ClassText, ClassEvidence, RelationTarget, RelationEvidence, Asserts;
    hide MetricOf, Subject, RelationSubject, MetricSubject, RowCurrency, Comparable, Support;
  }

  lemma SlotSubject(lex: Lexicon, k: Knowledge, row: Row, s: Slot)
    requires SlotEmission(lex, k, row, s).Some?
    ensures var e := SlotEmission(lex, k, row, s).value.fact.subject;
      Subject(row) == Some(e) || RelationSubject(row) == Some(e) || MetricSubject(lex, row) == Some(e) || Support(row) == Some(e)
  {
    hide ScalarBody, ScalarEvidence, ClassField, ClassText, ClassEvidence, RelationTarget, RelationEvidence, Asserts;
    hide MetricOf, Subject, RelationSubject, MetricSubject, RowCurrency, Comparable, Support;
  }

  lemma ClassedConcept(lex: Lexicon, k: Knowledge, row: Row, c: Category)
    requires var em := SlotEmission(lex, k, row, ClassSlot(c)); em.Some? && em.value.fact.key.Class?
    ensures ConceptItem(SlotEmission(lex, k, row, ClassSlot(c)).value.fact.key.concept) in ValueItems(lex, row, c)
  {
    hide ClassField, ClassText, ClassEvidence, Subject;
    assert ValueItems(lex, row, c)[0] == ConceptItem(SlotEmission(lex, k, row, ClassSlot(c)).value.fact.key.concept);
  }

  lemma RelatedTarget(lex: Lexicon, k: Knowledge, row: Row, r: Relation)
    requires SlotEmission(lex, k, row, RelationSlot(r)).Some?
    ensures var id := SlotEmission(lex, k, row, RelationSlot(r)).value.fact;
      id.key.Related? && RelationTarget(lex, k, row, r) == Some(id.key.target) && RelationSubject(row) == Some(id.subject)
  {
    hide RelationTarget, RelationEvidence, RelationSubject;
  }

  /** The items of a unit contain its head and the items of every place. */
  lemma UnitContains(lex: Lexicon, k: Knowledge, row: Row)
    ensures forall x :: x in HeadItems(lex, row) ==> x in UnitItems(lex, k, row)
    ensures forall x :: x in EntityItems(lex, row) || x in AssertionItems(row) ==> x in UnitItems(lex, k, row)
    ensures forall s, x :: s in AllSlots() && x in SideItems(lex, k, row, s) ==> x in UnitItems(lex, k, row)
    ensures forall s, x :: s in AllSlots() && x in EmissionItems(SlotEmission(lex, k, row, s)) ==> x in UnitItems(lex, k, row)
  {
    UnitItemsAre(lex, k, row);
    assert forall x :: x in EntityItems(lex, row) || x in AssertionItems(row) ==> x in HeadItems(lex, row);
    hide UnitItems, HeadItems, AllSlots, SideItems, EmissionItems, SlotEmission;
    forall s, x | s in AllSlots() && (x in SideItems(lex, k, row, s) || x in EmissionItems(SlotEmission(lex, k, row, s)))
      ensures x in UnitItems(lex, k, row)
    {
      assert x in SlotItems(lex, k, row, s);
    }
  }

  lemma TypedParents(lex: Lexicon, k: Knowledge, row: Row, s: Slot)
    requires SlotEmission(lex, k, row, s).Some?
    ensures TypedParentsIn(UnitItems(lex, k, row), SlotEmission(lex, k, row, s).value.fact)
  {
    var id, items := SlotEmission(lex, k, row, s).value.fact, UnitItems(lex, k, row);
    EmittedBySlot(lex, k, row, s);
    SlotKey(lex, k, row, s);
    UnitContains(lex, k, row);
    if id.key.Class? {
      ClassedConcept(lex, k, row, s.category);
      hide SlotEmission, UnitItems, HeadItems, EntityItems, AssertionItems, ValueItems, AllSlots, EmissionItems;
      assert ConceptItem(id.key.concept) in SideItems(lex, k, row, s);
    } else if id.key.Related? {
      RelatedParents(lex, k, row, s.relation);
    } else {
      hide SlotEmission, UnitItems, HeadItems, EntityItems, AssertionItems, AllSlots, EmissionItems, SideItems;
    }
  }

  lemma RelatedParents(lex: Lexicon, k: Knowledge, row: Row, r: Relation)
    requires SlotEmission(lex, k, row, RelationSlot(r)).Some?
    ensures TypedParentsIn(UnitItems(lex, k, row), SlotEmission(lex, k, row, RelationSlot(r)).value.fact)
  {
    hide SlotEmission, UnitItems, HeadItems, EntityItems, AssertionItems, SideItems, AllSlots, EmissionItems;
    hide RelationTarget, RelationSubject, Named, Primary, Support, Subject, MetricSubject, HasFamily;
    var id := SlotEmission(lex, k, row, RelationSlot(r)).value.fact;
    RelatedTarget(lex, k, row, r);
    OwnEntities(lex, row);
    HasOwnProduct(lex, k, row, id.subject);
    TargetIsNamed(lex, k, row, r, id.key.target);
    UnitContains(lex, k, row);
    NamedAreAdded(lex, k, row, r);
    NamedAreAdded(lex, k, row, HasUnderlyingIndex);
  }

  lemma HasOwnProduct(lex: Lexicon, k: Knowledge, row: Row, e: EntityId)
    requires HasProduct(EntityItems(lex, row), e)
    ensures HasProduct(UnitItems(lex, k, row), e)
  {
    UnitContains(lex, k, row);
    hide UnitItems, EntityItems;
    var code :| ProductItem(e, code) in EntityItems(lex, row);
    assert ProductItem(e, code) in UnitItems(lex, k, row);
  }

  lemma NamedAreAdded(lex: Lexicon, k: Knowledge, row: Row, r: Relation)
    ensures forall e :: Named(lex, k, row, r) == Some(e) ==>
      var items := UnitItems(lex, k, row);
      && EntityItem(e) in items && (e.Organization? ==> OrganizationItem(e) in items) && (e.Index? ==> IndexItem(e) in items)
  {
    EveryRelation(r);
    assert RelationSlot(r) in AllSlots();
    hide Named, UnitItems, SideItems, AllSlots;
    UnitContains(lex, k, row);
    NamedAreSide(lex, k, row, r);
  }

  lemma NamedAreSide(lex: Lexicon, k: Knowledge, row: Row, r: Relation)
    ensures forall e :: Named(lex, k, row, r) == Some(e) ==>
      var side := SideItems(lex, k, row, RelationSlot(r));
      && EntityItem(e) in side && (e.Organization? ==> OrganizationItem(e) in side) && (e.Index? ==> IndexItem(e) in side)
  {
    hide Named;
    var items := NamedItems(Named(lex, k, row, r));
    if items != [] { assert items[0] in items; }
    if |items| > 1 { assert items[1] in items; }
  }

  /** Every row that processing a source row adds finds the rows its foreign keys name in the same
      unit. */
  lemma UnitParents(lex: Lexicon, k: Knowledge, row: Row, it: Item)
    requires it in UnitItems(lex, k, row)
    ensures ParentsIn(UnitItems(lex, k, row), it)
  {
    var items := UnitItems(lex, k, row);
    UnitItemsAre(lex, k, row);
    UnitContains(lex, k, row);
    hide UnitItems, AllSlots;
    if it in HeadItems(lex, row) {
      HeadParents(lex, row, it);
      hide HeadItems, ParentsIn;
      ParentsInMore(HeadItems(lex, row), items, it);
    } else {
      var s :| s in AllSlots() && it in SlotItems(lex, k, row, s);
      if it in SideItems(lex, k, row, s) {
        SideParents(lex, k, row, s, it);
        hide HeadItems, SideItems, ParentsIn, SlotItems;
        ParentsInMore(HeadItems(lex, row) + SideItems(lex, k, row, s), items, it);
      } else {
        EmissionParents(lex, k, row, s, it);
      }
    }
  }

  lemma FactParents(items: seq<Item>, em: Emission, it: Item)
    requires it in EmissionItems(Some(em)) && forall x :: x in EmissionItems(Some(em)) ==> x in items
    requires EntityItem(em.fact.subject) in items && TypedParentsIn(items, em.fact)
    requires forall a :: a in em.evidence ==> AssertionItem(a) in items
    ensures ParentsIn(items, it)
  {
    assert FactItem(em.fact) == EmissionItems(Some(em))[0];
    assert it.FactItem? || it.TypedItem? || (it.LinkItem? && it.fact == em.fact && it.assertion in em.evidence);
    hide EmissionItems, TypedParentsIn;
  }

  lemma EmissionParents(lex: Lexicon, k: Knowledge, row: Row, s: Slot, it: Item)
    requires s in AllSlots() && it in EmissionItems(SlotEmission(lex, k, row, s))
    ensures ParentsIn(UnitItems(lex, k, row), it)
  {
    EmittedBySlot(lex, k, row, s);
    TypedParents(lex, k, row, s);
    UnitContains(lex, k, row);
    hide UnitItems, HeadItems, EntityItems, AssertionItems, SideItems, AllSlots, SlotEmission, TypedParentsIn, RowEmits, EmissionItems;
    FactParents(UnitItems(lex, k, row), SlotEmission(lex, k, row, s).value, it);
  }

  // ------------------------------------------------------------ the parents of conflict cases

  /** Every item of the rows' units. */
  ghost function AllItems(lex: Lexicon, k: Knowledge, rows: seq<Row>): seq<Item> {
    if rows == [] then [] else UnitItems(lex, k, rows[0]) + AllItems(lex, k, rows[1..])
  }

  lemma {:induction false} AllItemsAre(lex: Lexicon, k: Knowledge, rows: seq<Row>)
    ensures forall it :: it in AllItems(lex, k, rows) <==> exists r :: r in rows && it in UnitItems(lex, k, r)
  {
    hide UnitItems;
    if rows != [] {
      AllItemsAre(lex, k, rows[1..]);
      assert forall r :: r in rows <==> r == rows[0] || r in rows[1..];
    }
  }

  lemma DisputedIsDescribed(lex: Lexicon, k: Knowledge, rows: seq<Row>, e: EntityId, f: Field, v: string)
    requires v in ValuesOf(rows, e, f)
    ensures EntityItem(e) in AllItems(lex, k, rows)
  {
    hide Audited, Support, UnitItems, AllItems, EntityItems, HasProduct;
    var r :| r in rows && Support(r) == Some(e) && Audited(r, f) && f in r.cells && r.cells[f] == v;
    OwnEntities(lex, r);
    UnitContains(lex, k, r);
    AllItemsAre(lex, k, rows);
    assert EntityItem(e) in UnitItems(lex, k, r);
  }

  lemma AsserterIsAdded(lex: Lexicon, k: Knowledge, rows: seq<Row>, e: EntityId, f: Field, v: string, a: AssertionId)
    requires a in Asserters(rows, e, f, v)
    ensures AssertionItem(a) in AllItems(lex, k, rows)
  {
    hide States, UnitItems, AllItems, AssertionItems, RecordOf, Asserted;
    var r :| r in rows && States(r, e, f, v) && a == AssertionId(RecordOf(r), f);
    AuditedIsAsserted(r, e, f, v);
    AssertionItemsAre(r);
    UnitContains(lex, k, r);
    AllItemsAre(lex, k, rows);
    assert AssertionItem(a) in UnitItems(lex, k, r);
  }

  lemma CaseParents(lex: Lexicon, k: Knowledge, rows: seq<Row>, e: EntityId, f: Field, items: seq<Item>)
    requires Knows(lex, k, rows) && (e, f) in k.disputed && items == AllItems(lex, k, rows) + ConflictItems(lex, k, rows)
    ensures ParentsIn(items, CaseItem(e, f))
  {
    hide IsLatest, AllItems, ConflictItems, ValuesOf;
    assert Disagree(rows, e, f);
    var v :| v in ValuesOf(rows, e, f);
    DisputedIsDescribed(lex, k, rows, e, f, v);
  }

  lemma CandidateParents(lex: Lexicon, k: Knowledge, rows: seq<Row>, em: Emission, it: Item, items: seq<Item>)
    requires IsCandidate(lex, k, rows, em) && it in EmissionItems(Some(em))
    requires items == AllItems(lex, k, rows) + ConflictItems(lex, k, rows)
    ensures ParentsIn(items, it)
  {
    hide AllItems, ConflictItems, ValuesOf, Asserters, EmissionItems, ParentsIn;
    assert forall x :: x in AllItems(lex, k, rows) || x in ConflictItems(lex, k, rows) ==> x in items;
    forall x | x in EmissionItems(Some(em)) ensures x in items { ConflictKinds(lex, k, rows, x); }
    CandidateIsDescribed(lex, k, rows, em);
    FactParents(items, em, it);
  }

  lemma CandidateIsDescribed(lex: Lexicon, k: Knowledge, rows: seq<Row>, em: Emission)
    requires IsCandidate(lex, k, rows, em)
    ensures EntityItem(em.fact.subject) in AllItems(lex, k, rows) && em.fact.key.DisputedValue?
    ensures forall a :: a in em.evidence ==> AssertionItem(a) in AllItems(lex, k, rows)
  {
    hide AllItems, ValuesOf, Asserters;
    var e, f, v :| (e, f) in k.disputed && v in ValuesOf(rows, e, f) && em == Candidate(lex, rows, e, f, v);
    DisputedIsDescribed(lex, k, rows, e, f, v);
    forall a | a in em.evidence ensures AssertionItem(a) in AllItems(lex, k, rows) { AsserterIsAdded(lex, k, rows, e, f, v, a); }
  }

  /** What the conflict cases add refers to itself and to rows that were added with the rows stating
      the disputed values. */
  lemma ConflictParents(lex: Lexicon, k: Knowledge, rows: seq<Row>, it: Item)
    requires Knows(lex, k, rows) && it in ConflictItems(lex, k, rows)
    ensures ParentsIn(AllItems(lex, k, rows) + ConflictItems(lex, k, rows), it)
  {
    var items := AllItems(lex, k, rows) + ConflictItems(lex, k, rows);
    ConflictKinds(lex, k, rows, it);
    hide AllItems, ConflictItems, ParentsIn, Knows, IsCandidate, EmissionItems;
    if it.CaseItem? && (it.entity, it.field) in k.disputed {
      CaseParents(lex, k, rows, it.entity, it.field, items);
    } else {
      var em :| IsCandidate(lex, k, rows, em) && it in EmissionItems(Some(em));
      CandidateParents(lex, k, rows, em, it, items);
    }
  }

  // ------------------------------------------------------------ the load

  ghost function UnitsOf(n: Naming, lex: Lexicon, k: Knowledge, rows: seq<Row>): seq<seq<T.Row>> {
    if rows == [] then [] else [RowsFor(n, UnitItems(lex, k, rows[0]))] + UnitsOf(n, lex, k, rows[1..])
  }

  /** What the rebuild adds between two chances to flush: the items of one source row, and in the end
      the conflict cases. */
  ghost function Units(n: Naming, lex: Lexicon, k: Knowledge, rows: seq<Row>): (u: seq<seq<T.Row>>)
  {
    UnitsOf(n, lex, k, rows) + [RowsFor(n, ConflictItems(lex, k, rows))]
  }

  ghost function LoadItems(lex: Lexicon, k: Knowledge, rows: seq<Row>): seq<Item> {
    AllItems(lex, k, rows) + ConflictItems(lex, k, rows)
  }

  lemma RowsForConcat(n: Naming, a: seq<Item>, b: seq<Item>)
    ensures RowsFor(n, a + b) == RowsFor(n, a) + RowsFor(n, b)
  {
    hide RowFor;
  }

  lemma RowsForAre(n: Naming, items: seq<Item>)
    ensures forall x :: x in RowsFor(n, items) <==> exists it :: it in items && x == RowFor(n, it)
  {
    hide RowFor;
    forall it | it in items ensures RowFor(n, it) in RowsFor(n, items) {
      var i :| 0 <= i < |items| && items[i] == it;
      assert RowsFor(n, items)[i] == RowFor(n, it);
    }
  }

  lemma {:induction false} FlattenConcat(a: seq<seq<T.Row>>, b: seq<seq<T.Row>>)
    ensures B.Flatten(a + b) == B.Flatten(a) + B.Flatten(b)
  {
    if a == [] {
      assert a + b == b;
    } else {
      assert (a + b)[1..] == a[1..] + b;
      FlattenConcat(a[1..], b);
    }
  }

  lemma {:induction false} FlattenUnitsOf(n: Naming, lex: Lexicon, k: Knowledge, rows: seq<Row>)
    ensures B.Flatten(UnitsOf(n, lex, k, rows)) == RowsFor(n, AllItems(lex, k, rows)) && |UnitsOf(n, lex, k, rows)| == |rows|
  {
    hide UnitItems, RowFor;
    if rows != [] {
      FlattenUnitsOf(n, lex, k, rows[1..]);
      var first, rest := RowsFor(n, UnitItems(lex, k, rows[0])), UnitsOf(n, lex, k, rows[1..]);
      assert ([first] + rest)[1..] == rest;
      RowsForConcat(n, UnitItems(lex, k, rows[0]), AllItems(lex, k, rows[1..]));
    }
  }

  lemma FlattenUnits(n: Naming, lex: Lexicon, k: Knowledge, rows: seq<Row>)
    ensures B.Flatten(Units(n, lex, k, rows)) == RowsFor(n, LoadItems(lex, k, rows)) && |Units(n, lex, k, rows)| == |rows| + 1
  {
    hide UnitItems, RowFor, RowsFor, AllItems, ConflictItems;
    var last := RowsFor(n, ConflictItems(lex, k, rows));
    FlattenUnitsOf(n, lex, k, rows);
    FlattenConcat(UnitsOf(n, lex, k, rows), [last]);
    RowsForConcat(n, AllItems(lex, k, rows), ConflictItems(lex, k, rows));
    assert B.Flatten([last]) == last + B.Flatten([]);
  }

  lemma ParentsAreReferable(n: Naming, s0: T.Store, items: seq<Item>, it: Item)
    requires T.Total(s0) && ParentsIn(items, it)
    ensures B.Referable(s0, RowsFor(n, items), RowFor(n, it))
  {
    ParentsCover(n, items, it);
    RowsForAre(n, items);
    hide ParentsIn, Uniques, Refs, TableOf, KeyOf, T.Parents, T.Offers, RowsFor;
    var seen := RowsFor(n, items);
    forall p | p in RowFor(n, it).refs
      ensures p.0 in T.Parents(TableOf(it)) && T.Offers(s0[p.0] + B.OfTable(seen, p.0), p.1)
    {
      var q :| q in Refs(it) && p == (q.0, n.hash(q.1));
      assert Has(n, items, q.0, q.1);
      var parent :| parent in items && TableOf(parent) == q.0 && q.1 in Uniques(n, parent);
      OffersItem(n, s0, seen, parent, q.1);
    }
  }

  lemma OffersItem(n: Naming, s0: T.Store, seen: seq<T.Row>, it: Item, value: Value)
    requires T.Total(s0) && RowFor(n, it) in seen && value in Uniques(n, it)
    ensures T.Offers(s0[TableOf(it)] + B.OfTable(seen, TableOf(it)), n.hash(value))
  {
    B.OfTableMembers(seen, TableOf(it));
    hide Uniques, TableOf, KeyOf, Refs;
    assert n.hash(value) in RowFor(n, it).uniques;
    assert RowFor(n, it) in s0[TableOf(it)] + B.OfTable(seen, TableOf(it));
  }

  lemma UnitIsReferable(n: Naming, s0: T.Store, done: seq<Item>, unit: seq<Item>)
    requires T.Total(s0) && forall it :: it in unit ==> ParentsIn(done + unit, it)
    ensures B.AllReferable(s0, RowsFor(n, done) + RowsFor(n, unit), RowsFor(n, unit))
  {
    RowsForConcat(n, done, unit);
    RowsForAre(n, unit);
    hide RowFor, RowsFor, ParentsIn, B.Referable;
    forall x | x in RowsFor(n, unit) ensures B.Referable(s0, RowsFor(n, done) + RowsFor(n, unit), x) {
      var it :| it in unit && x == RowFor(n, it);
      ParentsAreReferable(n, s0, done + unit, it);
    }
  }

  /** Each unit refers to itself and to earlier units only. */
  lemma {:induction false} UnitsAreSelfContained(n: Naming, lex: Lexicon, k: Knowledge, s0: T.Store, all: seq<Row>, done: seq<Item>, rest: seq<Row>)
    requires T.Total(s0) && Knows(lex, k, all) && done + AllItems(lex, k, rest) == AllItems(lex, k, all)
    ensures B.SelfContained(s0, RowsFor(n, done), UnitsOf(n, lex, k, rest) + [RowsFor(n, ConflictItems(lex, k, all))])
    decreases |rest|
  {
    hide UnitItems, RowFor, RowsFor, ConflictItems, ParentsIn, Knows;
    var conflicts := ConflictItems(lex, k, all);
    var units := UnitsOf(n, lex, k, rest) + [RowsFor(n, conflicts)];
    if rest == [] {
      assert units == [RowsFor(n, conflicts)] && units[1..] == [];
      assert done == AllItems(lex, k, all);
      forall it | it in conflicts ensures ParentsIn(done + conflicts, it) { ConflictParents(lex, k, all, it); }
      UnitIsReferable(n, s0, done, conflicts);
    } else {
      var unit := UnitItems(lex, k, rest[0]);
      assert units[0] == RowsFor(n, unit);
      assert units[1..] == UnitsOf(n, lex, k, rest[1..]) + [RowsFor(n, conflicts)];
      forall it | it in unit ensures ParentsIn(done + unit, it) {
        UnitParents(lex, k, rest[0], it);
        ParentsInMore(unit, done + unit, it);
      }
      UnitIsReferable(n, s0, done, unit);
      RowsForConcat(n, done, unit);
      assert (done + unit) + AllItems(lex, k, rest[1..]) == done + AllItems(lex, k, rest);
      UnitsAreSelfContained(n, lex, k, s0, all, done + unit, rest[1..]);
    }
  }

  // ------------------------------------------------------------ coherence

  /** The product type in the row is the one of the product. */
  predicate WellTyped(n: Naming, it: Item) {
    it.ProductItem? ==> it.code == n.code(it.entity)
  }

  ghost predicate Typed(n: Naming, rows: seq<Row>) {
    forall r :: r in rows && ProductOf(r).Some? ==> ProductOf(r).value.1 == n.code(ProductOf(r).value.0)
  }

  /** The tables hold rows of this form only. */
  ghost predicate Genuine(n: Naming, s: T.Store) {
    forall t, x :: t in s && x in s[t] ==> IsGenuine(n, t, x)
  }

  ghost predicate IsGenuine(n: Naming, t: T.Table, x: T.Row) {
    exists it :: WellTyped(n, it) && TableOf(it) == t && x == RowFor(n, it)
  }

  /** The tables of typed rows, one for each fact. */
  predicate IsTyped(t: T.Table) {
    t in {T.CanonicalScalarFacts, T.EntityRelations, T.OrganizationRelations, T.IndexRelations, T.EntityClassifications, T.MetricObservations}
  }

  predicate Comparable(t: T.Table) {
    T.IsParent(t) || t == T.FactEvidenceLinks || (IsTyped(t) && t != T.MetricObservations)
  }

  lemma ItemsCohere(n: Naming, a: Item, b: Item, value: Value)
    requires Injective(n) && WellTyped(n, a) && WellTyped(n, b) && TableOf(a) == TableOf(b) && Comparable(TableOf(a))
    requires value in Uniques(n, a) && value in Uniques(n, b)
    ensures Uniques(n, a) == Uniques(n, b)
  {
  }

  lemma GenuineRowsCohere(n: Naming, t: T.Table, x: T.Row, y: T.Row)
    requires Injective(n) && Comparable(t) && IsGenuine(n, t, x) && IsGenuine(n, t, y) && x.uniques * y.uniques != {}
    ensures x.uniques == y.uniques
  {
    var a :| WellTyped(n, a) && TableOf(a) == t && x == RowFor(n, a);
    var b :| WellTyped(n, b) && TableOf(b) == t && y == RowFor(n, b);
    hide Uniques, TableOf, KeyOf, Refs, WellTyped, Comparable;
    var h :| h in x.uniques * y.uniques;
    var v :| v in Uniques(n, a) && h == n.hash(v);
    var w :| w in Uniques(n, b) && h == n.hash(w);
    assert v == w;
    ItemsCohere(n, a, b, v);
  }

  lemma SideKinds(lex: Lexicon, k: Knowledge, row: Row, s: Slot, it: Item)
    requires it in SideItems(lex, k, row, s)
    ensures !it.ProductItem? && !it.FactItem? && !it.TypedItem? && !it.LinkItem?
  {
    hide Named, ValueItems, AssertionItems;
    match s {
      case ClassSlot(c) => ValueParents(lex, row, c, it);
      case _ =>
    }
  }

  lemma HeadKinds(lex: Lexicon, row: Row, it: Item)
    requires it in HeadItems(lex, row)
    ensures it.ProductItem? ==> ProductOf(row) == Some((it.entity, it.code))
    ensures !it.FactItem? && !it.TypedItem? && !it.LinkItem?
  {
    AssertionItemsAre(row);
    hide AssertionItems, HasSaleLotEvidence, IsAssertionOf, Primary, Support, DatasetOf, CodeOf, RecordOf;
  }

  /** The fact row, the typed row or a link of the emission. */
  predicate IsOf(em: Emission, it: Item) {
    match it
    case FactItem(id) => id == em.fact
    case TypedItem(id, body) => id == em.fact && body == em.body && !body.Disputed?
    case LinkItem(id, a) => id == em.fact && a in em.evidence
    case _ => false
  }

  lemma EmissionKinds(em: Option<Emission>, it: Item)
    ensures it in EmissionItems(em) <==> em.Some? && IsOf(em.value, it)
  {
  }

  /** The only product row of a unit is that of the row's own product. */
  lemma UnitProducts(lex: Lexicon, k: Knowledge, row: Row, it: Item)
    requires it in UnitItems(lex, k, row) && it.ProductItem?
    ensures ProductOf(row) == Some((it.entity, it.code))
  {
    UnitItemsAre(lex, k, row);
    hide UnitItems, AllSlots, HeadItems, SideItems, EmissionItems, SlotEmission, ProductOf;
    if it in HeadItems(lex, row) {
      HeadKinds(lex, row, it);
    } else {
      var s :| s in AllSlots() && it in SlotItems(lex, k, row, s);
      if it in SideItems(lex, k, row, s) {
        SideKinds(lex, k, row, s, it);
      } else {
        EmissionKinds(SlotEmission(lex, k, row, s), it);
      }
    }
  }

  lemma ConflictKinds(lex: Lexicon, k: Knowledge, rows: seq<Row>, it: Item)
    ensures it in ConflictItems(lex, k, rows) <==>
      || (it.CaseItem? && (it.entity, it.field) in k.disputed)
      || exists em :: IsCandidate(lex, k, rows, em) && it in EmissionItems(Some(em))
    ensures it in ConflictItems(lex, k, rows) ==> it.FactItem? || it.LinkItem? || it.CaseItem?
  {
    var cases := Listed(k.disputed);
    CasesItemsAre(lex, rows, cases);
    hide Listed, ValuesOf, Asserters, CasesItems, EmissionItems;
    if it in ConflictItems(lex, k, rows) {
      var p :| p in cases && InCase(lex, rows, p.0, p.1, it);
      assert p == (p.0, p.1);
      if it != CaseItem(p.0, p.1) {
        var v :| v in ValuesOf(rows, p.0, p.1) && it in EmissionItems(Some(Candidate(lex, rows, p.0, p.1, v)));
        EmissionKinds(Some(Candidate(lex, rows, p.0, p.1, v)), it);
        assert IsCandidate(lex, k, rows, Candidate(lex, rows, p.0, p.1, v));
      }
    }
    if it.CaseItem? && (it.entity, it.field) in k.disputed {
      assert InCase(lex, rows, (it.entity, it.field).0, (it.entity, it.field).1, it);
    }
    if em :| IsCandidate(lex, k, rows, em) && it in EmissionItems(Some(em)) {
      var e, f, v :| (e, f) in k.disputed && v in ValuesOf(rows, e, f) && em == Candidate(lex, rows, e, f, v);
      assert InCase(lex, rows, (e, f).0, (e, f).1, it);
    }
  }

  lemma LoadIsGenuine(n: Naming, lex: Lexicon, k: Knowledge, rows: seq<Row>)
    requires Typed(n, rows)
    ensures forall x :: x in RowsFor(n, LoadItems(lex, k, rows)) ==> IsGenuine(n, x.table, x)
  {
    RowsForAre(n, LoadItems(lex, k, rows));
    AllItemsAre(lex, k, rows);
    hide UnitItems, AllItems, ConflictItems, RowsFor, ProductOf;
    forall x | x in RowsFor(n, LoadItems(lex, k, rows)) ensures IsGenuine(n, x.table, x) {
      var it :| it in LoadItems(lex, k, rows) && x == RowFor(n, it);
      if it in ConflictItems(lex, k, rows) {
        ConflictKinds(lex, k, rows, it);
      } else if it.ProductItem? {
        var r :| r in rows && it in UnitItems(lex, k, r);
        UnitProducts(lex, k, r, it);
      }
      assert WellTyped(n, it);
    }
  }

  lemma GenuineCoheres(n: Naming, s0: T.Store, all: seq<T.Row>, t: T.Table)
    requires Injective(n) && T.Total(s0) && Genuine(n, s0) && Comparable(t)
    requires forall x :: x in all ==> IsGenuine(n, x.table, x)
    ensures T.Coherent(s0[t], B.OfTable(all, t))
  {
    B.OfTableMembers(all, t);
    hide IsGenuine, Comparable, Injective;
    forall x, y | x in s0[t] + B.OfTable(all, t) && y in s0[t] + B.OfTable(all, t) && x.uniques * y.uniques != {}
      ensures x.uniques == y.uniques
    {
      GenuineRowsCohere(n, t, x, y);
    }
  }

  /** The rebuild of rows that pass the count check: for every schedule of flushes that ends in one, no
      statement misses a parent or repeats an upsert key, and the tables end as if each row had gone to
      its table as it was added. The tables are again of the form that a later rebuild starts from. */
  lemma RebuildLoads(n: Naming, lex: Lexicon, k: Knowledge, s0: T.Store, rows: seq<Row>, flush: seq<bool>)
    requires T.Total(s0) && Genuine(n, s0) && Injective(n) && Typed(n, rows) && Knows(lex, k, rows) && OneRowPerRecord(rows)
    requires |flush| == |rows| + 1 && flush[|rows|]
    ensures |Units(n, lex, k, rows)| == |flush| && T.Total(B.Full(map[]))
    ensures B.Load(s0, B.Full(map[]), Units(n, lex, k, rows), flush) == T.Done(B.RowAtATime(s0, RowsFor(n, LoadItems(lex, k, rows))))
    ensures T.Total(B.RowAtATime(s0, RowsFor(n, LoadItems(lex, k, rows))))
    ensures Genuine(n, B.RowAtATime(s0, RowsFor(n, LoadItems(lex, k, rows))))
  {
    var units, all := Units(n, lex, k, rows), RowsFor(n, LoadItems(lex, k, rows));
    FlattenUnits(n, lex, k, rows);
    B.FullIsTotal(map[]);
    assert [] + AllItems(lex, k, rows) == AllItems(lex, k, rows);
    UnitsAreSelfContained(n, lex, k, s0, rows, [], rows);
    assert RowsFor(n, []) == [];
    LoadIsGenuine(n, lex, k, rows);
    hide LoadItems, RowsFor, Genuine, B.SelfContained, B.Load, B.Full, B.RowAtATime, T.Coherent, AllItems, UnitsOf, Knows, Typed;
    forall p | T.IsParent(p) ensures T.Coherent(s0[p], B.OfTable(all, p)) {
      GenuineCoheres(n, s0, all, p);
    }
    B.EveryScheduleLoads(s0, units, flush);
    StaysGenuine(n, s0, all);
  }

  lemma StaysGenuine(n: Naming, s0: T.Store, all: seq<T.Row>)
    requires T.Total(s0) && Genuine(n, s0) && forall x :: x in all ==> IsGenuine(n, x.table, x)
    ensures T.Total(B.RowAtATime(s0, all)) && Genuine(n, B.RowAtATime(s0, all))
  {
    B.RowAtATimePerTable(s0, all);
    hide IsGenuine, B.RowAtATime, T.Put;
    var after := B.RowAtATime(s0, all);
    forall t, x | t in after && x in after[t] ensures IsGenuine(n, t, x) {
      T.PutMembers(t, s0[t], B.OfTable(all, t));
      B.OfTableMembers(all, t);
    }
  }

  /** The type that the first row of each product gives it. */
  function CodesOf(rows: seq<Row>): EntityId -> ProductCode {
    (e: EntityId) => FirstCode(rows, e).GetOr(BondCode)
  }

  /** Rows with a record each give no product two types. */
  lemma RowsAreTyped(n: Naming, rows: seq<Row>)
    requires OneRowPerRecord(rows) && n.code == CodesOf(rows)
    ensures Typed(n, rows)
  {
    OneRowPerProduct(rows);
    forall r | r in rows && ProductOf(r).Some? ensures ProductOf(r).value.1 == n.code(ProductOf(r).value.0) {
      FirstCodeIsSomeRows(rows, ProductOf(r).value.0);
      var s :| s in rows && ProductOf(s) == Some((ProductOf(r).value.0, FirstCode(rows, ProductOf(r).value.0).value));
    }
  }

  // ------------------------------------------------------------ what the tables hold in the end

  /** The items of a fact, its typed row and its links are those of what was emitted. */
  lemma FactItemsAre(lex: Lexicon, k: Knowledge, rows: seq<Row>, it: Item)
    requires it.FactItem? || it.TypedItem? || it.LinkItem?
    ensures it in LoadItems(lex, k, rows) <==> exists em :: Emitted(lex, k, rows, em) && it in EmissionItems(Some(em))
  {
    AllItemsAre(lex, k, rows);
    ConflictKinds(lex, k, rows, it);
    hide UnitItems, AllItems, ConflictItems, EmissionItems, RowEmits, IsCandidate;
    if it in AllItems(lex, k, rows) {
      var r :| r in rows && it in UnitItems(lex, k, r);
      UnitFacts(lex, k, r, it);
      var em :| RowEmits(lex, k, r, em) && it in EmissionItems(Some(em));
      assert Emitted(lex, k, rows, em);
    }
    if em :| Emitted(lex, k, rows, em) && it in EmissionItems(Some(em)) {
      if r :| r in rows && RowEmits(lex, k, r, em) {
        EmittedIsAdded(lex, k, r, em, it);
      }
    }
    forall em | IsCandidate(lex, k, rows, em) ensures Emitted(lex, k, rows, em) {}
  }

  lemma UnitFacts(lex: Lexicon, k: Knowledge, row: Row, it: Item)
    requires it in UnitItems(lex, k, row) && (it.FactItem? || it.TypedItem? || it.LinkItem?)
    ensures exists em :: RowEmits(lex, k, row, em) && it in EmissionItems(Some(em))
  {
    UnitItemsAre(lex, k, row);
    hide UnitItems, AllSlots, HeadItems, SideItems, EmissionItems, SlotEmission, RowEmits;
    if it in HeadItems(lex, row) {
      HeadKinds(lex, row, it);
    } else {
      var s :| s in AllSlots() && it in SlotItems(lex, k, row, s);
      if it in SideItems(lex, k, row, s) {
        SideKinds(lex, k, row, s, it);
      } else {
        EmissionKinds(SlotEmission(lex, k, row, s), it);
        SlotOwnsItsKeys(lex, k, row, s);
      }
    }
  }

  lemma EmittedIsAdded(lex: Lexicon, k: Knowledge, row: Row, em: Emission, it: Item)
    requires RowEmits(lex, k, row, em) && it in EmissionItems(Some(em))
    ensures it in UnitItems(lex, k, row)
  {
    hide SlotEmission, UnitItems, EmissionItems, AllSlots, SideItems, HeadItems;
    EmittedBySlot(lex, k, row, SlotOf(em.fact.key));
    UnitContains(lex, k, row);
  }

  predicate Inserted(t: T.Table) {
    Comparable(t) && !T.IsUpserted(t)
  }

  lemma OfferedByItem(n: Naming, s0: T.Store, items: seq<Item>, t: T.Table, x: T.Row, value: Value)
    requires Injective(n) && T.Total(s0) && x in T.Put(t, s0[t], B.OfTable(RowsFor(n, items), t)) && n.hash(value) in x.uniques
    requires s0[t] == []
    ensures exists it :: it in items && TableOf(it) == t && value in Uniques(n, it)
  {
    var all := RowsFor(n, items);
    T.PutMembers(t, s0[t], B.OfTable(all, t));
    B.OfTableMembers(all, t);
    RowsForAre(n, items);
    hide RowsFor, T.Put, Uniques, KeyOf, Refs, TableOf;
    var it :| it in items && x == RowFor(n, it);
    var v :| v in Uniques(n, it) && n.hash(v) == n.hash(value);
  }

  lemma ItemIsOffered(n: Naming, s0: T.Store, items: seq<Item>, t: T.Table, it: Item, value: Value)
    requires T.Total(s0) && !T.IsUpserted(t) && T.Coherent(s0[t], B.OfTable(RowsFor(n, items), t))
    requires it in items && TableOf(it) == t && value in Uniques(n, it)
    ensures T.Offers(T.Put(t, s0[t], B.OfTable(RowsFor(n, items), t)), n.hash(value))
  {
    RowsForAre(n, items);
    hide RowsFor, T.Put, Uniques, KeyOf, Refs, TableOf, T.Coherent;
    OffersItem(n, s0, RowsFor(n, items), it, value);
    T.PutOffers(t, s0[t], B.OfTable(RowsFor(n, items), t), n.hash(value));
  }

  /** The tables after a rebuild from empty ones. */
  ghost function Rebuilt(n: Naming, lex: Lexicon, k: Knowledge, rows: seq<Row>): (s: T.Store)
    ensures T.Total(s)
  {
    B.FullIsTotal(map[]);
    B.RowAtATimePerTable(B.Full(map[]), RowsFor(n, LoadItems(lex, k, rows)));
    B.RowAtATime(B.Full(map[]), RowsFor(n, LoadItems(lex, k, rows)))
  }

  lemma RebuiltPerTable(n: Naming, lex: Lexicon, k: Knowledge, rows: seq<Row>, t: T.Table)
    requires Injective(n) && Typed(n, rows)
    ensures T.Total(B.Full(map[])) && B.Full(map[])[t] == []
    ensures Rebuilt(n, lex, k, rows)[t] == T.Put(t, [], B.OfTable(RowsFor(n, LoadItems(lex, k, rows)), t))
    ensures Comparable(t) ==> T.Coherent([], B.OfTable(RowsFor(n, LoadItems(lex, k, rows)), t))
  {
    var s0, all := B.Full(map[]), RowsFor(n, LoadItems(lex, k, rows));
    B.FullIsTotal(map[]);
    B.RowAtATimePerTable(s0, all);
    LoadIsGenuine(n, lex, k, rows);
    assert Genuine(n, s0);
    hide LoadItems, RowsFor, B.RowAtATime, T.Put, B.Full, IsGenuine, T.Coherent, Typed, Genuine, Comparable;
    if Comparable(t) { GenuineCoheres(n, s0, all, t); }
  }

  /** An inserted table offers a value exactly when some item of it does. */
  lemma TableOffers(n: Naming, lex: Lexicon, k: Knowledge, rows: seq<Row>, t: T.Table, value: Value)
    requires Injective(n) && Typed(n, rows) && Inserted(t)
    ensures T.Offers(Rebuilt(n, lex, k, rows)[t], n.hash(value)) <==>
      exists it :: it in LoadItems(lex, k, rows) && TableOf(it) == t && value in Uniques(n, it)
  {
    RebuiltPerTable(n, lex, k, rows, t);
    var s0, items := B.Full(map[]), LoadItems(lex, k, rows);
    hide LoadItems, RowsFor, T.Put, B.Full, T.Coherent, Uniques, TableOf, Typed, Rebuilt, Injective;
    if T.Offers(Rebuilt(n, lex, k, rows)[t], n.hash(value)) {
      var x: T.Row :| x in Rebuilt(n, lex, k, rows)[t] && n.hash(value) in x.uniques;
      OfferedByItem(n, s0, items, t, x, value);
    }
    if it :| it in items && TableOf(it) == t && value in Uniques(n, it) {
      ItemIsOffered(n, s0, items, t, it, value);
    }
  }

  lemma FactsOfItems(n: Naming, it: Item, id: FactId, a: AssertionId)
    ensures TableOf(it) == T.CanonicalFacts && FactKey(id) in Uniques(n, it) <==> it == FactItem(id)
    ensures TableOf(it) == T.FactEvidenceLinks && LinkKey(id, a) in Uniques(n, it) <==> it == LinkItem(id, a)
  {
  }

  /** The batched load and the two passes agree: from empty tables the fact and link tables end with
      exactly the facts and links that the two passes store, whatever the schedule of flushes. */
  lemma RebuiltIsTwoPass(n: Naming, lex: Lexicon, k: Knowledge, rows: seq<Row>, facts: Facts, links: Links)
    requires Injective(n) && Typed(n, rows) && Holds(lex, k, rows, facts, links)
    ensures forall id :: T.Offers(Rebuilt(n, lex, k, rows)[T.CanonicalFacts], n.hash(FactKey(id))) <==> id in facts
    ensures forall id, a :: T.Offers(Rebuilt(n, lex, k, rows)[T.FactEvidenceLinks], n.hash(LinkKey(id, a))) <==> (id, a) in links
  {
    hide Rebuilt, LoadItems, T.Offers, Injective, Typed, Uniques, TableOf, Emitted;
    assert Inserted(T.CanonicalFacts) && Inserted(T.FactEvidenceLinks);
    hide EmissionItems;
    forall id ensures T.Offers(Rebuilt(n, lex, k, rows)[T.CanonicalFacts], n.hash(FactKey(id))) <==> id in facts {
      TableOffers(n, lex, k, rows, T.CanonicalFacts, FactKey(id));
      FactItemsAre(lex, k, rows, FactItem(id));
      forall it { FactsOfItems(n, it, id, AssertionId(RecordId(PRBD01N001, "", ""), pd_no)); }
      forall em ensures FactItem(id) in EmissionItems(Some(em)) <==> em.fact == id { EmissionKinds(Some(em), FactItem(id)); }
    }
    forall id, a ensures T.Offers(Rebuilt(n, lex, k, rows)[T.FactEvidenceLinks], n.hash(LinkKey(id, a))) <==> (id, a) in links {
      TableOffers(n, lex, k, rows, T.FactEvidenceLinks, LinkKey(id, a));
      FactItemsAre(lex, k, rows, LinkItem(id, a));
      forall it { FactsOfItems(n, it, id, a); }
      forall em ensures LinkItem(id, a) in EmissionItems(Some(em)) <==> em.fact == id && a in em.evidence { EmissionKinds(Some(em), LinkItem(id, a)); }
    }
  }

  lemma {:induction false} UpsertedIds(stored: seq<T.Row>, rows: seq<T.Row>, id: string)
    ensures T.HasId(T.Put(T.MetricObservations, stored, rows), id) <==> T.HasId(stored, id) || T.HasId(rows, id)
    decreases |rows|
  {
    if rows != [] {
      T.UpsertIds(stored, rows[0]);
      UpsertedIds(T.UpsertOne(stored, rows[0]), rows[1..], id);
      assert forall r :: r in rows <==> r == rows[0] || r in rows[1..];
    }
  }

  lemma TypedItemIs(n: Naming, it: Item, id: FactId)
    requires IsTyped(TableOf(it))
    ensures it.TypedItem? && Uniques(n, it) == {KeyOf(it)} && (KeyOf(it) == FactKey(id) <==> it.fact == id)
  {
  }

  /** A row stored in a typed table is the typed row of something emitted. */
  lemma StoredTypedRow(n: Naming, lex: Lexicon, k: Knowledge, rows: seq<Row>, id: FactId, x: T.Row)
    requires Injective(n) && Typed(n, rows)
    requires x in Rebuilt(n, lex, k, rows)[TypedTable(id.key)] && x.id == n.hash(FactKey(id))
    ensures exists em :: Emitted(lex, k, rows, em) && em.fact == id && x.data == n.content(em.body)
  {
    var t, items := TypedTable(id.key), LoadItems(lex, k, rows);
    RebuiltPerTable(n, lex, k, rows, t);
    T.PutMembers(t, [], B.OfTable(RowsFor(n, items), t));
    B.OfTableMembers(RowsFor(n, items), t);
    RowsForAre(n, items);
    hide Rebuilt, LoadItems, RowsFor, T.Put, B.Full, T.Coherent, Uniques, TableOf, KeyOf, Refs, Typed, Emitted, EmissionItems;
    var it :| it in items && x == RowFor(n, it);
    TypedItemIs(n, it, id);
    FactItemsAre(lex, k, rows, it);
    var em :| Emitted(lex, k, rows, em) && it in EmissionItems(Some(em));
    EmissionKinds(Some(em), it);
  }

  lemma TypedRowIsStored(n: Naming, lex: Lexicon, k: Knowledge, rows: seq<Row>, em: Emission)
    requires Injective(n) && Typed(n, rows) && Emitted(lex, k, rows, em) && !em.body.Disputed?
    ensures T.HasId(Rebuilt(n, lex, k, rows)[TypedTable(em.fact.key)], n.hash(FactKey(em.fact)))
  {
    var t, items, it := TypedTable(em.fact.key), LoadItems(lex, k, rows), TypedItem(em.fact, em.body);
    var all := RowsFor(n, items);
    FactItemsAre(lex, k, rows, it);
    EmissionKinds(Some(em), it);
    RebuiltPerTable(n, lex, k, rows, t);
    RowsForAre(n, items);
    B.OfTableMembers(all, t);
    TypedItemIs(n, it, em.fact);
    if t == T.MetricObservations {
      hide Rebuilt, LoadItems, RowsFor, T.Put, B.Full, T.Coherent, Typed, Emitted, EmissionItems;
      assert RowFor(n, it) in B.OfTable(all, t);
      UpsertedIds([], B.OfTable(all, t), n.hash(FactKey(em.fact)));
    } else {
      hide Rebuilt, LoadItems, RowsFor, T.Put, B.Full, T.Coherent, Typed, Emitted, EmissionItems, Injective;
      ItemIsOffered(n, B.Full(map[]), items, t, it, FactKey(em.fact));
      OfferedRowHasId(n, lex, k, rows, t, em.fact);
    }
  }

  lemma TypedRowKey(n: Naming, it: Item, id: FactId)
    requires IsTyped(TableOf(it)) && n.hash(FactKey(id)) in RowFor(n, it).uniques
    ensures RowFor(n, it).id == n.hash(FactKey(id))
  {
    TypedItemIs(n, it, id);
    hide Uniques, KeyOf, Refs, TableOf, IsTyped;
  }

  lemma OfferedRowHasId(n: Naming, lex: Lexicon, k: Knowledge, rows: seq<Row>, t: T.Table, id: FactId)
    requires Injective(n) && Typed(n, rows) && IsTyped(t) && T.Offers(Rebuilt(n, lex, k, rows)[t], n.hash(FactKey(id)))
    ensures T.HasId(Rebuilt(n, lex, k, rows)[t], n.hash(FactKey(id)))
  {
    hide Rebuilt, LoadItems, RowsFor, RowFor, T.Put, B.Full, T.Coherent, TableOf, Typed, Comparable, IsTyped, Injective;
    var items := LoadItems(lex, k, rows);
    RebuiltPerTable(n, lex, k, rows, t);
    T.PutMembers(t, [], B.OfTable(RowsFor(n, items), t));
    B.OfTableMembers(RowsFor(n, items), t);
    RowsForAre(n, items);
    var x: T.Row :| x in Rebuilt(n, lex, k, rows)[t] && n.hash(FactKey(id)) in x.uniques;
    var it :| it in items && x == RowFor(n, it);
    RowTable(n, it);
    TypedRowKey(n, it, id);
  }

  lemma RowTable(n: Naming, it: Item)
    ensures RowFor(n, it).table == TableOf(it)
  {
  }

  /** The fact has its typed row unless it is a candidate of a dispute, and the row says the body unless
      it is a credit rating. */
  ghost predicate TypedRowHolds(n: Naming, stored: seq<T.Row>, id: FactId, body: Body) {
    && (!body.Disputed? ==> T.HasId(stored, n.hash(FactKey(id))))
    && (!id.key.CreditRating? ==> forall x :: x in stored && x.id == n.hash(FactKey(id)) ==> x.data == n.content(body))
  }

  /** Every fact that is not a candidate of a dispute has its typed row, and for every kind but the
      credit rating that row says what the two passes store under the fact. */
  lemma RebuiltTypedRows(n: Naming, lex: Lexicon, k: Knowledge, rows: seq<Row>, facts: Facts, links: Links, id: FactId)
    requires Injective(n) && Typed(n, rows) && Knows(lex, k, rows) && OneRowPerRecord(rows) && Holds(lex, k, rows, facts, links) && id in facts
    ensures TypedRowHolds(n, Rebuilt(n, lex, k, rows)[TypedTable(id.key)], id, facts[id])
  {
    CountCheckIff(rows);
    var em :| Emitted(lex, k, rows, em) && em.fact == id && em.body == facts[id];
    hide Holds, Emitted, Rebuilt, Knows, DistinctRecords, OneRowPerRecord, Typed, Injective;
    if !facts[id].Disputed? { TypedRowIsStored(n, lex, k, rows, em); }
    if !id.key.CreditRating? {
      forall x | x in Rebuilt(n, lex, k, rows)[TypedTable(id.key)] && x.id == n.hash(FactKey(id))
        ensures x.data == n.content(facts[id])
      {
        StoredTypedRow(n, lex, k, rows, id, x);
        var em' :| Emitted(lex, k, rows, em') && em'.fact == id && x.data == n.content(em'.body);
        OneBodyPerFact(lex, k, rows, em, em');
      }
    }
  }

  /** A rebuild into empty tables, of rows that pass the count check: whatever the schedule of flushes,
      every statement succeeds, and the tables then hold the facts, links and typed rows that the two
      passes store. */
  lemma FirstRebuild(n: Naming, lex: Lexicon, k: Knowledge, rows: seq<Row>, flush: seq<bool>, facts: Facts, links: Links)
    requires Injective(n) && n.code == CodesOf(rows) && OneRowPerRecord(rows)
    requires Knows(lex, k, rows) && Holds(lex, k, rows, facts, links)
    requires |flush| == |rows| + 1 && flush[|rows|]
    ensures |Units(n, lex, k, rows)| == |flush| && T.Total(B.Full(map[]))
    ensures B.Load(B.Full(map[]), B.Full(map[]), Units(n, lex, k, rows), flush) == T.Done(Rebuilt(n, lex, k, rows))
    ensures forall id :: T.Offers(Rebuilt(n, lex, k, rows)[T.CanonicalFacts], n.hash(FactKey(id))) <==> id in facts
    ensures forall id, a :: T.Offers(Rebuilt(n, lex, k, rows)[T.FactEvidenceLinks], n.hash(LinkKey(id, a))) <==> (id, a) in links
    ensures forall id :: id in facts ==> TypedRowHolds(n, Rebuilt(n, lex, k, rows)[TypedTable(id.key)], id, facts[id])
  {
    RowsAreTyped(n, rows);
    B.FullIsTotal(map[]);
    assert Genuine(n, B.Full(map[]));
    RebuildLoads(n, lex, k, B.Full(map[]), rows, flush);
    RebuiltIsTwoPass(n, lex, k, rows, facts, links);
    hide Units, B.Load, B.Full, Holds, Knows, Typed, Injective, OneRowPerRecord, T.Offers, T.HasId;
    forall id | id in facts ensures TypedRowHolds(n, Rebuilt(n, lex, k, rows)[TypedTable(id.key)], id, facts[id]) {
      RebuiltTypedRows(n, lex, k, rows, facts, links, id);
    }
  }
}
