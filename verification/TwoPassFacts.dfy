/** What the two passes together put into the fact tables, whatever the order of the rows:
    which value becomes a resolved fact, what evidence it has, and where order matters. */
module TwoPassFacts {
  import opened Basics
  import opened RebuildRows

  // ------------------------------------------------------------ everything that is emitted

  /** The assertions of the rows that state the value. */
  function Asserters(rows: seq<Row>, e: EntityId, f: Field, v: string): set<AssertionId> {
    set r | r in rows && States(r, e, f, v) :: AssertionId(RecordOf(r), f)
  }

  function CaseDataset(e: EntityId): Dataset {
    if e.FundFamily? then PRFD01N001 else PRBD01N001
  }

  /** One candidate fact of a conflict case. */
  function Candidate(lex: Lexicon, rows: seq<Row>, e: EntityId, f: Field, v: string): Emission {
    Emission(FactId(e, CaseDataset(e), DisputedValue(f, lex.lookup(v))), Disputed, Asserters(rows, e, f, v))
  }

  ghost predicate IsCandidate(lex: Lexicon, k: Knowledge, rows: seq<Row>, em: Emission) {
    exists e, f, v :: (e, f) in k.disputed && v in ValuesOf(rows, e, f) && em == Candidate(lex, rows, e, f, v)
  }

  /** Emitted for some row, or as a candidate of a conflict case after the last row. */
  ghost predicate Emitted(lex: Lexicon, k: Knowledge, rows: seq<Row>, em: Emission) {
    || (exists r :: r in rows && RowEmits(lex, k, r, em))
    || IsCandidate(lex, k, rows, em)
  }

  type Facts = map<FactId, Body>
  type Links = set<(FactId, AssertionId)>

  /** The fact and link tables hold what was emitted: a fact present was emitted with the body it
      has, every emission left its fact and its links, and there are no other links. */
  ghost predicate Holds(lex: Lexicon, k: Knowledge, rows: seq<Row>, facts: Facts, links: Links) {
    && (forall id :: id in facts ==> exists em :: Emitted(lex, k, rows, em) && em.fact == id && em.body == facts[id])
    && (forall em :: Emitted(lex, k, rows, em) ==> em.fact in facts)
    && (forall em, a :: Emitted(lex, k, rows, em) && a in em.evidence ==> (em.fact, a) in links)
    && (forall id, a :: (id, a) in links ==> exists em :: Emitted(lex, k, rows, em) && em.fact == id && a in em.evidence)
  }

  /** A slot emits only under keys of its own. */
  lemma SlotOwnsItsKeys(lex: Lexicon, k: Knowledge, row: Row, s: Slot)
    requires SlotEmission(lex, k, row, s).Some?
    ensures RowEmits(lex, k, row, SlotEmission(lex, k, row, s).value)
  {
    hide ScalarBody, ScalarEvidence, ClassField, ClassText, ClassEvidence, RelationTarget, RelationEvidence, Asserts;
    hide MetricOf, Subject, RelationSubject, MetricSubject, RowCurrency, Comparable;
  }

  // ------------------------------------------------------------ evidence

  lemma EverythingAsserted(row: Row)
    ensures forall f, a :: a in Asserts(row, f) ==> IsAssertionOf(row, a)
    ensures forall f, g, a :: a in AssertsEither(row, f, g) ==> IsAssertionOf(row, a)
    ensures forall f, a :: a in ClassEvidence(row, f) ==> IsAssertionOf(row, a)
  {
    hide Asserted;
  }

  lemma ScalarEvidenceAsserted(row: Row, n: ScalarName)
    ensures forall a :: a in ScalarEvidence(row, n) ==> IsAssertionOf(row, a)
  {
    EverythingAsserted(row);
    hide Asserts, AssertsEither, IsAssertionOf, PriceDateField;
  }

  lemma RelationEvidenceAsserted(row: Row, r: Relation)
    ensures forall a :: a in RelationEvidence(row, r) ==> IsAssertionOf(row, a)
  {
    EverythingAsserted(row);
    hide Asserts, AssertsEither, IsAssertionOf, IndexField;
  }

  lemma RowEmissionIsEvidenced(lex: Lexicon, k: Knowledge, row: Row, em: Emission)
    requires RowEmits(lex, k, row, em)
    ensures em.evidence != {} && forall a :: a in em.evidence ==> IsAssertionOf(row, a)
  {
    EverythingAsserted(row);
    hide Asserts, AssertsEither, IsAssertionOf, ScalarBody, ScalarEvidence, ClassField, ClassText, ClassEvidence;
    hide RelationTarget, RelationEvidence, MetricOf, Subject, RelationSubject, MetricSubject, RowCurrency, Comparable;
    match SlotOf(em.fact.key) {
      case ScalarSlot(n) => ScalarEvidenceAsserted(row, n);
      case RelationSlot(r) => RelationEvidenceAsserted(row, r);
      case _ =>
    }
  }

  /** A value that a row states in an audited column is asserted by that row. */
  lemma AuditedIsAsserted(row: Row, e: EntityId, f: Field, v: string)
    requires States(row, e, f, v)
    ensures Asserted(row, f)
  {
    hide RecordOf, AssertedWhenMissing, BondAudited, FundAudited;
  }

  lemma CandidateIsEvidenced(lex: Lexicon, k: Knowledge, rows: seq<Row>, em: Emission)
    requires IsCandidate(lex, k, rows, em)
    ensures em.evidence != {} && forall a :: a in em.evidence ==> exists r :: r in rows && IsAssertionOf(r, a)
  {
    hide Asserted, Audited;
    var e, f, v :| (e, f) in k.disputed && v in ValuesOf(rows, e, f) && em == Candidate(lex, rows, e, f, v);
    var r :| r in rows && Support(r) == Some(e) && Audited(r, f) && f in r.cells && r.cells[f] == v;
    assert AssertionId(RecordOf(r), f) in em.evidence;
    forall a | a in em.evidence ensures exists r :: r in rows && IsAssertionOf(r, a) {
      var s :| s in rows && States(s, e, f, v) && a == AssertionId(RecordOf(s), f);
      AuditedIsAsserted(s, e, f, v);
    }
  }

  /** Every stored fact, on any path, has at least one link, and every link leads from a stored
      fact to an assertion of a stored record. */
  lemma EveryFactIsEvidenced(lex: Lexicon, k: Knowledge, rows: seq<Row>, facts: Facts, links: Links)
    requires Holds(lex, k, rows, facts, links)
    ensures forall id :: id in facts ==> exists a :: (id, a) in links
    ensures forall id, a :: (id, a) in links ==> id in facts && exists r :: r in rows && IsAssertionOf(r, a)
  {
    hide RowEmits, IsAssertionOf, IsCandidate;
    forall em | Emitted(lex, k, rows, em)
      ensures em.evidence != {} && forall a :: a in em.evidence ==> exists r :: r in rows && IsAssertionOf(r, a)
    {
      if r :| r in rows && RowEmits(lex, k, r, em) {
        RowEmissionIsEvidenced(lex, k, r, em);
      } else {
        CandidateIsEvidenced(lex, k, rows, em);
      }
    }
  }

  // ------------------------------------------------------------ no first-row selection

  /** The column whose value, agreed by every row of the bond or fund, decides the facts under a key. */
  function DecidedBy(id: FactId): Option<Field> {
    match id.subject
    case Product(PRBD01N001, _) =>
      (match id.key
       case Scalar(Name) => Some(pd_nm)
       case Scalar(IssueDate) => Some(isu_dt)
       case Scalar(MaturityDate) => Some(mat_dt)
       case Scalar(IssueBalance) => Some(isu_bal_amt)
       case Related(IssuedBy, _) => Some(pd_pbcm)
       case Class(BondType, _) => Some(bd_knd)
       case Class(OfferingType, _) => Some(bd_ofr_tcd)
       case _ => None)
    case FundFamily(_) =>
      (match id.key
       case Related(ManagedBy, _) => Some(or_co_xtn_itt_cd)
       case Related(HasTrustee, _) => Some(trusc_xtn_itt_cd)
       case Related(HasBenchmark, _) => Some(bmrk_nm)
       case _ => None)
    case _ => None
  }

  /** The fact that a value of the column stands for; None when it cannot be read. */
  function Meaning(lex: Lexicon, e: EntityId, f: Field, v: string): Option<(FactId, Body)> {
    var d := CaseDataset(e);
    match f
    case pd_nm => Some((FactId(e, d, Scalar(Name)), Text(v)))
    case isu_dt => if lex.date(v).Some? then Some((FactId(e, d, Scalar(IssueDate)), Date(lex.date(v).value))) else None
    case mat_dt => if lex.date(v).Some? then Some((FactId(e, d, Scalar(MaturityDate)), Date(lex.date(v).value))) else None
    case isu_bal_amt =>
      if lex.decimal(v).Some? then Some((FactId(e, d, Scalar(IssueBalance)), Number(lex.decimal(v).value))) else None
    case pd_pbcm => OrganizationMeaning(lex, e, IssuedBy, Issuer, v)
    case bd_knd => ConceptMeaning(lex, e, BondType, v)
    case bd_ofr_tcd => ConceptMeaning(lex, e, OfferingType, v)
    case or_co_xtn_itt_cd => OrganizationMeaning(lex, e, ManagedBy, AssetManager, v)
    case trusc_xtn_itt_cd => OrganizationMeaning(lex, e, HasTrustee, Trustee, v)
    case bmrk_nm => BenchmarkMeaning(lex, e, v)
    case _ => None
  }

  function OrganizationMeaning(lex: Lexicon, e: EntityId, r: Relation, role: Role, v: string): Option<(FactId, Body)> {
    if lex.rejected(v) then None
    else Some((FactId(e, CaseDataset(e), Related(r, Organization(role, CaseDataset(e), lex.lookup(v)))), Tie))
  }

  function BenchmarkMeaning(lex: Lexicon, e: EntityId, v: string): Option<(FactId, Body)> {
    if !lex.atomic(v) then None
    else Some((FactId(e, CaseDataset(e), Related(HasBenchmark, Index(CaseDataset(e), lex.lookup(v)))), Tie))
  }

  function ConceptMeaning(lex: Lexicon, e: EntityId, c: Category, v: string): Option<(FactId, Body)> {
    if lex.concept(c, v).None? then None else Some((FactId(e, CaseDataset(e), Class(c, lex.concept(c, v).value)), Tie))
  }

  /** The row states the value that the emission stands for, unopposed, and is its evidence. */
  ghost predicate Stated(lex: Lexicon, k: Knowledge, row: Row, em: Emission)
    requires DecidedBy(em.fact).Some?
  {
    var e, f := em.fact.subject, DecidedBy(em.fact).value;
    && (e, f) !in k.disputed && f in row.cells && States(row, e, f, row.cells[f])
    && Meaning(lex, e, f, row.cells[f]) == Some((em.fact, em.body))
    && em.evidence == {AssertionId(RecordOf(row), f)}
  }

  lemma DecidedScalar(lex: Lexicon, k: Knowledge, row: Row, em: Emission)
    requires em.fact.key.Scalar? && DecidedBy(em.fact).Some? && RowEmits(lex, k, row, em)
    ensures Stated(lex, k, row, em)
  {
    hide Target;
  }

  lemma DecidedClass(lex: Lexicon, k: Knowledge, row: Row, em: Emission)
    requires em.fact.key.Class? && DecidedBy(em.fact).Some? && RowEmits(lex, k, row, em)
    ensures Stated(lex, k, row, em)
  {
    hide Target;
  }

  lemma DecidedIssuer(lex: Lexicon, k: Knowledge, row: Row, em: Emission)
    requires em.fact.key.Related? && em.fact.subject.Product? && DecidedBy(em.fact).Some? && RowEmits(lex, k, row, em)
    ensures Stated(lex, k, row, em)
  {
    hide Asserted, HasSaleLotEvidence, FundTarget, EtpTarget;
    assert row.Bond? && em.fact.key.relation == IssuedBy;
  }

  lemma DecidedFundRelation(lex: Lexicon, k: Knowledge, row: Row, em: Emission)
    requires em.fact.key.Related? && em.fact.subject.FundFamily? && DecidedBy(em.fact).Some? && RowEmits(lex, k, row, em)
    ensures Stated(lex, k, row, em)
  {
    FundColumns(lex, em.fact);
    hide Asserted, HasSaleLotEvidence, BondTarget, EtpTarget, Meaning, DecidedBy;
    assert row.Fund? && row.family == Some(em.fact.subject.code);
  }

  lemma FundColumns(lex: Lexicon, id: FactId)
    requires id.key.Related? && id.subject.FundFamily? && DecidedBy(id).Some?
    ensures id.key.relation == ManagedBy || id.key.relation == HasTrustee || id.key.relation == HasBenchmark
    ensures id.key.relation == ManagedBy ==> DecidedBy(id) == Some(or_co_xtn_itt_cd)
    ensures id.key.relation == HasTrustee ==> DecidedBy(id) == Some(trusc_xtn_itt_cd)
    ensures id.key.relation == HasBenchmark ==> DecidedBy(id) == Some(bmrk_nm)
    ensures forall v :: Meaning(lex, id.subject, or_co_xtn_itt_cd, v) == OrganizationMeaning(lex, id.subject, ManagedBy, AssetManager, v)
    ensures forall v :: Meaning(lex, id.subject, trusc_xtn_itt_cd, v) == OrganizationMeaning(lex, id.subject, HasTrustee, Trustee, v)
    ensures forall v :: Meaning(lex, id.subject, bmrk_nm, v) == BenchmarkMeaning(lex, id.subject, v)
  {
  }

  /** A row emits a decided fact only when it states the value the fact stands for and no row
      disagrees; and then it does. */
  lemma DecidedIsStated(lex: Lexicon, k: Knowledge, row: Row, em: Emission)
    requires DecidedBy(em.fact).Some? && RowEmits(lex, k, row, em)
    ensures Stated(lex, k, row, em)
  {
    hide RowEmits, Stated;
    match em.fact.key {
      case Scalar(_) => DecidedScalar(lex, k, row, em);
      case Class(_, _) => DecidedClass(lex, k, row, em);
      case Related(_, _) =>
        if em.fact.subject.Product? {
          DecidedIssuer(lex, k, row, em);
        } else {
          DecidedFundRelation(lex, k, row, em);
        }
      case _ =>
    }
  }

  lemma StatedIsEmitted(lex: Lexicon, k: Knowledge, row: Row, e: EntityId, f: Field, id: FactId, body: Body)
    requires (e, f) !in k.disputed && f in row.cells && States(row, e, f, row.cells[f])
    requires Meaning(lex, e, f, row.cells[f]) == Some((id, body))
    ensures RowEmits(lex, k, row, Emission(id, body, {AssertionId(RecordOf(row), f)}))
    ensures id.subject == e && DecidedBy(id) == Some(f)
  {
    hide RowEmits, Meaning, DecidedBy;
    if row.Bond? {
      BondStates(lex, k, row, e, f, id, body);
    } else {
      FundStates(lex, k, row, e, f, id, body);
    }
  }

  lemma BondStates(lex: Lexicon, k: Knowledge, row: Row, e: EntityId, f: Field, id: FactId, body: Body)
    requires row.Bond? && (e, f) !in k.disputed && f in row.cells && States(row, e, f, row.cells[f])
    requires Meaning(lex, e, f, row.cells[f]) == Some((id, body))
    ensures RowEmits(lex, k, row, Emission(id, body, {AssertionId(RecordOf(row), f)}))
    ensures id.subject == e && DecidedBy(id) == Some(f)
  {
    hide RowEmits, DecidedBy;
    if id.key.Scalar? {
      BondStatesScalar(lex, k, row, e, f, id, body);
    } else if id.key.Class? {
      BondStatesClass(lex, k, row, e, f, id, body);
    } else {
      BondStatesIssuer(lex, k, row, e, f, id, body);
    }
  }

  /** The four scalar columns of a bond, read off the table of meanings. */
  lemma ScalarMeanings(lex: Lexicon, e: EntityId, f: Field, v: string, id: FactId, body: Body)
    requires e.Product? && Meaning(lex, e, f, v) == Some((id, body)) && id.key.Scalar?
    ensures id == FactId(e, PRBD01N001, id.key) && DecidedBy(FactId(Product(PRBD01N001, e.code), PRBD01N001, id.key)) == Some(f)
    ensures
      || (f == pd_nm && id.key == Scalar(Name) && Some(body) == TextBody(Some(v)))
      || (f == isu_dt && id.key == Scalar(IssueDate) && Some(body) == DateBody(lex, Some(v)))
      || (f == mat_dt && id.key == Scalar(MaturityDate) && Some(body) == DateBody(lex, Some(v)))
      || (f == isu_bal_amt && id.key == Scalar(IssueBalance) && Some(body) == NumberBody(lex, Some(v)))
  {
  }

  lemma BondStatesScalar(lex: Lexicon, k: Knowledge, row: Row, e: EntityId, f: Field, id: FactId, body: Body)
    requires row.Bond? && (e, f) !in k.disputed && f in row.cells && States(row, e, f, row.cells[f])
    requires Meaning(lex, e, f, row.cells[f]) == Some((id, body)) && id.key.Scalar?
    ensures RowEmits(lex, k, row, Emission(id, body, {AssertionId(RecordOf(row), f)}))
    ensures id.subject == e && DecidedBy(id) == Some(f)
  {
    AuditedIsAsserted(row, e, f, row.cells[f]);
    assert e == Product(PRBD01N001, row.isin);
    ScalarMeanings(lex, e, f, row.cells[f], id, body);
    hide Asserted, AuditedFields, Meaning, DecidedBy, TextBody, DateBody, NumberBody, RecordOf, RowEmits, ScalarBody, ScalarEvidence;
    assert Agreed(k, row, e, f) == Some(row.cells[f]);
    BondScalarOf(lex, k, row, e, f, id.key.name);
    ScalarIsEmitted(lex, k, row, id.key.name, body, {AssertionId(RecordOf(row), f)});
  }

  lemma BondScalarOf(lex: Lexicon, k: Knowledge, row: Row, e: EntityId, f: Field, n: ScalarName)
    requires row.Bond? && e == Product(PRBD01N001, row.isin)
    ensures n == Name ==> ScalarBody(lex, k, row, n) == TextBody(Agreed(k, row, e, pd_nm)) && ScalarEvidence(row, n) == Asserts(row, pd_nm)
    ensures n == IssueDate ==> ScalarBody(lex, k, row, n) == DateBody(lex, Agreed(k, row, e, isu_dt)) && ScalarEvidence(row, n) == Asserts(row, isu_dt)
    ensures n == MaturityDate ==> ScalarBody(lex, k, row, n) == DateBody(lex, Agreed(k, row, e, mat_dt)) && ScalarEvidence(row, n) == Asserts(row, mat_dt)
    ensures n == IssueBalance ==> ScalarBody(lex, k, row, n) == NumberBody(lex, Agreed(k, row, e, isu_bal_amt)) && ScalarEvidence(row, n) == Asserts(row, isu_bal_amt)
  {
    hide Asserts, Agreed, TextBody, DateBody, NumberBody;
  }

  lemma ScalarIsEmitted(lex: Lexicon, k: Knowledge, row: Row, n: ScalarName, body: Body, evidence: set<AssertionId>)
    requires Subject(row).Some? && ScalarBody(lex, k, row, n) == Some(body) && ScalarEvidence(row, n) == evidence && evidence != {}
    ensures RowEmits(lex, k, row, Emission(FactId(Subject(row).value, DatasetOf(row), Scalar(n)), body, evidence))
  {
    hide ScalarBody, ScalarEvidence, Subject, DatasetOf;
  }

  lemma ClassMeanings(lex: Lexicon, e: EntityId, f: Field, v: string, id: FactId, body: Body)
    requires e.Product? && Meaning(lex, e, f, v) == Some((id, body)) && id.key.Class?
    ensures id == FactId(e, PRBD01N001, id.key) && DecidedBy(FactId(Product(PRBD01N001, e.code), PRBD01N001, id.key)) == Some(f)
    ensures body == Tie && lex.concept(id.key.category, v) == Some(id.key.concept)
    ensures (f == bd_knd && id.key.category == BondType) || (f == bd_ofr_tcd && id.key.category == OfferingType)
  {
  }

  lemma BondStatesClass(lex: Lexicon, k: Knowledge, row: Row, e: EntityId, f: Field, id: FactId, body: Body)
    requires row.Bond? && (e, f) !in k.disputed && f in row.cells && States(row, e, f, row.cells[f])
    requires Meaning(lex, e, f, row.cells[f]) == Some((id, body)) && id.key.Class?
    ensures RowEmits(lex, k, row, Emission(id, body, {AssertionId(RecordOf(row), f)}))
    ensures id.subject == e && DecidedBy(id) == Some(f)
  {
    AuditedIsAsserted(row, e, f, row.cells[f]);
    assert e == Product(PRBD01N001, row.isin);
    ClassMeanings(lex, e, f, row.cells[f], id, body);
    hide Asserted, AuditedFields, Meaning, DecidedBy, RecordOf, RowEmits, ClassText, ClassField, ClassEvidence;
    BondClassOf(row, id.key.category);
    ClassIsEmitted(lex, k, row, id.key.category, f, row.cells[f]);
  }

  lemma BondClassOf(row: Row, c: Category)
    requires row.Bond? && (c == BondType || c == OfferingType)
    ensures var f := if c == BondType then bd_knd else bd_ofr_tcd;
      ClassField(row, c) == Some(f) && ClassText(row, c) == Cell(row, f) && ClassEvidence(row, f) == Asserts(row, f)
  {
    hide Asserts, AssertsEither;
  }

  lemma ClassIsEmitted(lex: Lexicon, k: Knowledge, row: Row, c: Category, f: Field, v: string)
    requires Subject(row).Some? && ClassField(row, c) == Some(f) && ClassText(row, c) == Some(v)
    requires !ClassDisputed(k, row, f) && lex.concept(c, v).Some? && ClassEvidence(row, f) != {}
    ensures RowEmits(lex, k, row,
      Emission(FactId(Subject(row).value, DatasetOf(row), Class(c, lex.concept(c, v).value)), Tie, ClassEvidence(row, f)))
  {
    hide ClassField, ClassText, ClassEvidence, Subject, DatasetOf, ClassDisputed;
  }

  lemma IssuerMeaning(lex: Lexicon, e: EntityId, v: string, id: FactId, body: Body)
    requires e.Product? && e.dataset == PRBD01N001 && Meaning(lex, e, pd_pbcm, v) == Some((id, body))
    ensures id == FactId(e, PRBD01N001, Related(IssuedBy, Organization(Issuer, PRBD01N001, lex.lookup(v))))
    ensures body == Tie && !lex.rejected(v) && DecidedBy(id) == Some(pd_pbcm)
  {
  }

  lemma OtherBondMeanings(lex: Lexicon, row: Row, e: EntityId, f: Field, v: string, id: FactId, body: Body)
    requires row.Bond? && Audited(row, f) && Meaning(lex, e, f, v) == Some((id, body)) && !id.key.Scalar? && !id.key.Class?
    ensures f == pd_pbcm
  {
  }

  lemma BondStatesIssuer(lex: Lexicon, k: Knowledge, row: Row, e: EntityId, f: Field, id: FactId, body: Body)
    requires row.Bond? && (e, f) !in k.disputed && f in row.cells && States(row, e, f, row.cells[f])
    requires Meaning(lex, e, f, row.cells[f]) == Some((id, body)) && !id.key.Scalar? && !id.key.Class?
    ensures RowEmits(lex, k, row, Emission(id, body, {AssertionId(RecordOf(row), f)}))
    ensures id.subject == e && DecidedBy(id) == Some(f)
  {
    AuditedIsAsserted(row, e, f, row.cells[f]);
    assert e == Product(PRBD01N001, row.isin);
    OtherBondMeanings(lex, row, e, f, row.cells[f], id, body);
    IssuerMeaning(lex, e, row.cells[f], id, body);
    hide Asserted, AuditedFields, Meaning, DecidedBy, RecordOf, HasSaleLotEvidence, RowEmits, RelationTarget;
    assert Agreed(k, row, e, f) == Some(row.cells[f]);
    assert RelationTarget(lex, k, row, IssuedBy) == BondTarget(lex, k, row, IssuedBy) by { BondTargetOf(lex, k, row, IssuedBy); }
    RelationIsEmitted(lex, k, row, IssuedBy, id.key.target, {AssertionId(RecordOf(row), f)});
  }

  lemma BondTargetOf(lex: Lexicon, k: Knowledge, row: Row, r: Relation)
    requires row.Bond?
    ensures RelationTarget(lex, k, row, r) == BondTarget(lex, k, row, r)
  {
  }

  lemma RelationIsEmitted(lex: Lexicon, k: Knowledge, row: Row, r: Relation, target: EntityId, evidence: set<AssertionId>)
    requires RelationSubject(row).Some? && RelationTarget(lex, k, row, r) == Some(target)
    requires RelationEvidence(row, r) == evidence && evidence != {}
    ensures RowEmits(lex, k, row, Emission(FactId(RelationSubject(row).value, DatasetOf(row), Related(r, target)), Tie, evidence))
  {
    hide RelationTarget, RelationEvidence, RelationSubject, DatasetOf;
  }

  lemma FundMeanings(lex: Lexicon, e: EntityId, f: Field, v: string, id: FactId, body: Body)
    requires e.FundFamily? && f in FundAudited() && Meaning(lex, e, f, v) == Some((id, body))
    ensures id == FactId(e, PRFD01N001, id.key) && body == Tie && id.key.Related? && DecidedBy(id) == Some(f)
    ensures
      || (f == or_co_xtn_itt_cd && id.key.relation == ManagedBy && !lex.rejected(v) && id.key.target == Organization(AssetManager, PRFD01N001, lex.lookup(v)))
      || (f == trusc_xtn_itt_cd && id.key.relation == HasTrustee && !lex.rejected(v) && id.key.target == Organization(Trustee, PRFD01N001, lex.lookup(v)))
      || (f == bmrk_nm && id.key.relation == HasBenchmark && lex.atomic(v) && id.key.target == Index(PRFD01N001, lex.lookup(v)))
  {
  }

  lemma FundStates(lex: Lexicon, k: Knowledge, row: Row, e: EntityId, f: Field, id: FactId, body: Body)
    requires row.Fund? && (e, f) !in k.disputed && f in row.cells && States(row, e, f, row.cells[f])
    requires Meaning(lex, e, f, row.cells[f]) == Some((id, body))
    ensures RowEmits(lex, k, row, Emission(id, body, {AssertionId(RecordOf(row), f)}))
    ensures id.subject == e && DecidedBy(id) == Some(f)
  {
    AuditedIsAsserted(row, e, f, row.cells[f]);
    assert row.family.Some? && e == FundFamily(row.family.value);
    FundMeanings(lex, e, f, row.cells[f], id, body);
    hide Asserted, FundAudited, Meaning, DecidedBy, RecordOf, RowEmits, RelationTarget;
    assert Agreed(k, row, e, f) == Some(row.cells[f]);
    assert RelationTarget(lex, k, row, id.key.relation) == FundTarget(lex, k, row, id.key.relation) by {
      FundTargetOf(lex, k, row, id.key.relation);
    }
    RelationIsEmitted(lex, k, row, id.key.relation, id.key.target, {AssertionId(RecordOf(row), f)});
  }

  lemma FundTargetOf(lex: Lexicon, k: Knowledge, row: Row, r: Relation)
    requires row.Fund? && row.family.Some?
    ensures RelationTarget(lex, k, row, r) == FundTarget(lex, k, row, r)
  {
  }

  /** The only value the rows state for the field. */
  ghost predicate SoleValue(rows: seq<Row>, e: EntityId, f: Field, v: string) {
    ValuesOf(rows, e, f) == {v}
  }

  lemma SoleUnlessDisputed(lex: Lexicon, k: Knowledge, rows: seq<Row>, row: Row, e: EntityId, f: Field)
    requires Knows(lex, k, rows) && row in rows && f in row.cells && States(row, e, f, row.cells[f])
    ensures (e, f) !in k.disputed <==> SoleValue(rows, e, f, row.cells[f])
  {
    hide IsLatest, Support, Audited;
    assert row.cells[f] in ValuesOf(rows, e, f);
  }

  /** Bond name, dates, balance, issuer, bond type and offering type; fund manager, trustee and
      benchmark: a resolved fact is stored exactly when all rows that state the column state one
      value and the fact is what that value means. So two distinct values leave no fact, and one
      readable value leaves exactly one, wherever in the file the rows stand. */
  lemma NoFirstRowSelection(lex: Lexicon, k: Knowledge, rows: seq<Row>, facts: Facts, links: Links, id: FactId)
    requires Knows(lex, k, rows) && Holds(lex, k, rows, facts, links)
    requires DecidedBy(id).Some?
    ensures var f := DecidedBy(id).value;
      id in facts <==> exists v :: SoleValue(rows, id.subject, f, v) && IsMeaning(lex, id, f, v)
    ensures id in facts ==>
      forall v :: SoleValue(rows, id.subject, DecidedBy(id).value, v) ==> Meaning(lex, id.subject, DecidedBy(id).value, v) == Some((id, facts[id]))
  {
    var e, f := id.subject, DecidedBy(id).value;
    hide RowEmits, Meaning, DecidedBy, States, Knows;
    if id in facts {
      var em :| Emitted(lex, k, rows, em) && em.fact == id && em.body == facts[id];
      CandidatesAreNotDecided(lex, k, rows, em);
      var r :| r in rows && RowEmits(lex, k, r, em);
      DecidedIsStated(lex, k, r, em);
      SoleUnlessDisputed(lex, k, rows, r, e, f);
    }
    if v :| SoleValue(rows, e, f, v) && IsMeaning(lex, id, f, v) {
      var r := StatingRow(rows, e, f, v);
      SoleUnlessDisputed(lex, k, rows, r, e, f);
      var body := Meaning(lex, e, f, v).value.1;
      StatedIsEmitted(lex, k, r, e, f, id, body);
      assert Emitted(lex, k, rows, Emission(id, body, {AssertionId(RecordOf(r), f)}));
    }
  }

  predicate IsMeaning(lex: Lexicon, id: FactId, f: Field, v: string) {
    Meaning(lex, id.subject, f, v).Some? && Meaning(lex, id.subject, f, v).value.0 == id
  }

  lemma StatingRow(rows: seq<Row>, e: EntityId, f: Field, v: string) returns (r: Row)
    requires v in ValuesOf(rows, e, f)
    ensures r in rows && f in r.cells && r.cells[f] == v && States(r, e, f, v)
  {
    r :| r in rows && Support(r) == Some(e) && Audited(r, f) && f in r.cells && r.cells[f] == v;
  }

  lemma CandidatesAreNotDecided(lex: Lexicon, k: Knowledge, rows: seq<Row>, em: Emission)
    requires DecidedBy(em.fact).Some?
    ensures !IsCandidate(lex, k, rows, em)
  {
  }

  /** The two consequences, spelled out: disagreement leaves nothing, and there is never more than
      one resolved fact for a column of a product. */
  lemma DisagreementLeavesNothing(lex: Lexicon, k: Knowledge, rows: seq<Row>, facts: Facts, links: Links, id: FactId)
    requires Knows(lex, k, rows) && Holds(lex, k, rows, facts, links)
    requires DecidedBy(id).Some? && Disagree(rows, id.subject, DecidedBy(id).value)
    ensures id !in facts
  {
    NoFirstRowSelection(lex, k, rows, facts, links, id);
  }

  lemma OneFactPerColumn(lex: Lexicon, k: Knowledge, rows: seq<Row>, facts: Facts, links: Links, id: FactId, id': FactId)
    requires Knows(lex, k, rows) && Holds(lex, k, rows, facts, links)
    requires id in facts && id' in facts && id.subject == id'.subject
    requires DecidedBy(id).Some? && DecidedBy(id) == DecidedBy(id')
    ensures id == id'
  {
    NoFirstRowSelection(lex, k, rows, facts, links, id);
    NoFirstRowSelection(lex, k, rows, facts, links, id');
    hide DecidedBy, Meaning, Holds, Knows;
    var f := DecidedBy(id).value;
    var v :| SoleValue(rows, id.subject, f, v) && IsMeaning(lex, id, f, v);
    assert Meaning(lex, id.subject, f, v).value.0 == id';
  }

  // ------------------------------------------------------------ conflict cases

  predicate SaysInForm(lex: Lexicon, r: Row, e: EntityId, f: Field, text: string) {
    f in r.cells && States(r, e, f, r.cells[f]) && lex.lookup(r.cells[f]) == text
  }

  /** The candidate fact was emitted with this evidence: only as a candidate. */
  lemma CandidateWas(lex: Lexicon, k: Knowledge, rows: seq<Row>, e: EntityId, f: Field, text: string, em: Emission) returns (v: string)
    requires Emitted(lex, k, rows, em) && em.fact == FactId(e, CaseDataset(e), DisputedValue(f, text))
    ensures (e, f) in k.disputed && v in ValuesOf(rows, e, f) && em == Candidate(lex, rows, e, f, v) && lex.lookup(v) == text
  {
    hide ValuesOf, Asserters;
    v :| (e, f) in k.disputed && v in ValuesOf(rows, e, f) && em == Candidate(lex, rows, e, f, v);
  }

  lemma CandidateIs(lex: Lexicon, k: Knowledge, rows: seq<Row>, e: EntityId, f: Field, text: string, r: Row)
    requires (e, f) in k.disputed && r in rows && SaysInForm(lex, r, e, f, text)
    ensures Emitted(lex, k, rows, Candidate(lex, rows, e, f, r.cells[f]))
    ensures AssertionId(RecordOf(r), f) in Candidate(lex, rows, e, f, r.cells[f]).evidence
    ensures Candidate(lex, rows, e, f, r.cells[f]).fact == FactId(e, CaseDataset(e), DisputedValue(f, text))
  {
    hide Support, Audited;
    assert r.cells[f] in ValuesOf(rows, e, f);
    assert IsCandidate(lex, k, rows, Candidate(lex, rows, e, f, r.cells[f]));
  }

  ghost predicate SaidBy(lex: Lexicon, rows: seq<Row>, e: EntityId, f: Field, text: string, a: AssertionId) {
    exists r :: r in rows && SaysInForm(lex, r, e, f, text) && a == AssertionId(RecordOf(r), f)
  }

  /** A candidate fact is linked to exactly the assertions of the rows that state a value of the
      disputed field with its normal form; it exists exactly when there is a dispute and some row
      states such a value. */
  lemma CandidateLinks(lex: Lexicon, k: Knowledge, rows: seq<Row>, facts: Facts, links: Links,
                       e: EntityId, f: Field, text: string)
    requires Knows(lex, k, rows) && Holds(lex, k, rows, facts, links)
    ensures var id := FactId(e, CaseDataset(e), DisputedValue(f, text));
      && (forall a :: (id, a) in links <==> Disagree(rows, e, f) && SaidBy(lex, rows, e, f, text, a))
      && (id in facts <==> Disagree(rows, e, f) && exists a :: SaidBy(lex, rows, e, f, text, a))
  {
    var id := FactId(e, CaseDataset(e), DisputedValue(f, text));
    hide IsLatest, Disagree, RowEmits, IsCandidate, SaysInForm, Candidate, ValuesOf, Emitted;
    forall a | (id, a) in links ensures (e, f) in k.disputed && SaidBy(lex, rows, e, f, text, a) {
      var em :| Emitted(lex, k, rows, em) && em.fact == id && a in em.evidence;
      var v := CandidateWas(lex, k, rows, e, f, text, em);
      EvidenceOfCandidate(lex, rows, e, f, v, a);
    }
    if id in facts {
      var em :| Emitted(lex, k, rows, em) && em.fact == id;
      var v := CandidateWas(lex, k, rows, e, f, text, em);
      var a := SomeoneSays(lex, rows, e, f, v);
    }
    forall a | (e, f) in k.disputed && SaidBy(lex, rows, e, f, text, a) ensures (id, a) in links && id in facts {
      var r :| r in rows && SaysInForm(lex, r, e, f, text) && a == AssertionId(RecordOf(r), f);
      CandidateIs(lex, k, rows, e, f, text, r);
    }
  }

  lemma EvidenceOfCandidate(lex: Lexicon, rows: seq<Row>, e: EntityId, f: Field, v: string, a: AssertionId)
    requires a in Candidate(lex, rows, e, f, v).evidence
    ensures SaidBy(lex, rows, e, f, lex.lookup(v), a)
  {
    hide Support, Audited;
    var r :| r in rows && States(r, e, f, v) && AssertionId(RecordOf(r), f) == a;
    assert SaysInForm(lex, r, e, f, lex.lookup(v));
  }

  lemma SomeoneSays(lex: Lexicon, rows: seq<Row>, e: EntityId, f: Field, v: string) returns (a: AssertionId)
    requires v in ValuesOf(rows, e, f)
    ensures SaidBy(lex, rows, e, f, lex.lookup(v), a)
  {
    var r := StatingRow(rows, e, f, v);
    a := AssertionId(RecordOf(r), f);
    assert SaysInForm(lex, r, e, f, lex.lookup(v));
  }
}
