/** The two passes as the program runs them: the audit fills its value sets row by row, the second
    pass inserts facts, links, products and bonds row by row, and the conflict cases follow. */
module TwoPassRebuild {
  import opened Basics
  import opened RebuildRows
  import opened TwoPassFacts
  import opened RowOrder
  import opened RelationDomains

  // ------------------------------------------------------------ what one insert does

  /** Metric rows are upserted, every other fact is inserted or ignored. */
  predicate IsUpserted(id: FactId) {
    id.key.Metric? || id.key.CreditRating?
  }

  function PutFact(facts: Facts, em: Option<Emission>): Facts {
    if em.None? || (em.value.fact in facts && !IsUpserted(em.value.fact)) then facts
    else facts[em.value.fact := em.value.body]
  }

  function PutLinks(links: Links, em: Option<Emission>): Links {
    if em.None? then links else links + set a | a in em.value.evidence :: (em.value.fact, a)
  }

  /** What the slots visited so far emit under the id. */
  function Hit(lex: Lexicon, k: Knowledge, row: Row, slots: set<Slot>, id: FactId): Option<Emission> {
    if id.key.DisputedValue? || SlotOf(id.key) !in slots then None
    else
      var em := SlotEmission(lex, k, row, SlotOf(id.key));
      if em.Some? && em.value.fact == id then em else None
  }

  /** The tables after the slots of one row, id by id. */
  ghost predicate Adds(lex: Lexicon, k: Knowledge, row: Row, slots: set<Slot>, facts: Facts, links: Links, facts': Facts, links': Links) {
    forall id :: Added(Hit(lex, k, row, slots, id), id, facts, links, facts', links')
  }

  ghost predicate Added(hit: Option<Emission>, id: FactId, facts: Facts, links: Links, facts': Facts, links': Links) {
    && (id in facts' <==> id in facts || hit.Some?)
    && (id in facts' ==> facts'[id] == if hit.Some? && (id !in facts || IsUpserted(id)) then hit.value.body else facts[id])
    && (forall a :: (id, a) in links' <==> (id, a) in links || (hit.Some? && a in hit.value.evidence))
  }

  lemma AddsNothing(lex: Lexicon, k: Knowledge, row: Row, facts: Facts, links: Links)
    ensures Adds(lex, k, row, {}, facts, links, facts, links)
  {
  }

  lemma HitOneMore(lex: Lexicon, k: Knowledge, row: Row, slots: set<Slot>, s: Slot, id: FactId)
    ensures var em := SlotEmission(lex, k, row, s);
      Hit(lex, k, row, slots + {s}, id) == if em.Some? && id == em.value.fact then em else Hit(lex, k, row, slots, id)
  {
    if SlotEmission(lex, k, row, s).Some? { SlotOwnsItsKeys(lex, k, row, s); }
    hide SlotEmission;
  }

  lemma AddedOneMore(hit: Option<Emission>, em: Option<Emission>, id: FactId, facts: Facts, links: Links, facts': Facts, links': Links)
    requires Added(hit, id, facts, links, facts', links')
    requires em.Some? && em.value.fact == id && hit.Some? ==> em == hit
    ensures Added(if em.Some? && em.value.fact == id then em else hit, id, facts, links, PutFact(facts', em), PutLinks(links', em))
  {
  }

  lemma HitIsTheSame(lex: Lexicon, k: Knowledge, row: Row, slots: set<Slot>, s: Slot, id: FactId)
    requires Hit(lex, k, row, slots, id).Some? && SlotEmission(lex, k, row, s).Some?
    requires SlotEmission(lex, k, row, s).value.fact == id
    ensures Hit(lex, k, row, slots, id) == SlotEmission(lex, k, row, s)
  {
    SlotOwnsItsKeys(lex, k, row, s);
    hide SlotEmission;
  }

  lemma AddsOneMore(lex: Lexicon, k: Knowledge, row: Row, slots: set<Slot>, s: Slot, facts: Facts, links: Links, facts': Facts, links': Links)
    requires Adds(lex, k, row, slots, facts, links, facts', links')
    ensures var em := SlotEmission(lex, k, row, s);
      Adds(lex, k, row, slots + {s}, facts, links, PutFact(facts', em), PutLinks(links', em))
  {
    hide SlotEmission, Hit, Added, PutFact, PutLinks;
    var em := SlotEmission(lex, k, row, s);
    forall id ensures Added(Hit(lex, k, row, slots + {s}, id), id, facts, links, PutFact(facts', em), PutLinks(links', em)) {
      HitOneMore(lex, k, row, slots, s, id);
      if em.Some? && em.value.fact == id && Hit(lex, k, row, slots, id).Some? { HitIsTheSame(lex, k, row, slots, s, id); }
      AddedOneMore(Hit(lex, k, row, slots, id), em, id, facts, links, facts', links');
    }
  }

  lemma HitBoth(lex: Lexicon, k: Knowledge, row: Row, s: set<Slot>, t: set<Slot>, id: FactId)
    ensures Hit(lex, k, row, s + t, id) == if Hit(lex, k, row, s, id).Some? then Hit(lex, k, row, s, id) else Hit(lex, k, row, t, id)
    ensures Hit(lex, k, row, s, id).Some? && Hit(lex, k, row, t, id).Some? ==> Hit(lex, k, row, s, id) == Hit(lex, k, row, t, id)
  {
    hide SlotEmission;
  }

  lemma AddsBoth(lex: Lexicon, k: Knowledge, row: Row, s: set<Slot>, t: set<Slot>, f0: Facts, l0: Links, f1: Facts, l1: Links, f2: Facts, l2: Links)
    requires Adds(lex, k, row, s, f0, l0, f1, l1) && Adds(lex, k, row, t, f1, l1, f2, l2)
    ensures Adds(lex, k, row, s + t, f0, l0, f2, l2)
  {
    hide Hit;
    forall id ensures Added(Hit(lex, k, row, s + t, id), id, f0, l0, f2, l2) {
      HitBoth(lex, k, row, s, t, id);
      assert Added(Hit(lex, k, row, s, id), id, f0, l0, f1, l1) && Added(Hit(lex, k, row, t, id), id, f1, l1, f2, l2);
    }
  }

  // ------------------------------------------------------------ the rows so far

  ghost predicate EmittedByRow(lex: Lexicon, k: Knowledge, rows: seq<Row>, em: Emission) {
    exists r :: r in rows && RowEmits(lex, k, r, em)
  }

  /** Facts and links after the given rows, before the conflict cases. */
  ghost predicate RowsHold(lex: Lexicon, k: Knowledge, rows: seq<Row>, facts: Facts, links: Links) {
    forall id :: HoldsAt(lex, k, rows, facts, links, id)
  }

  ghost predicate HoldsAt(lex: Lexicon, k: Knowledge, rows: seq<Row>, facts: Facts, links: Links, id: FactId) {
    && (id in facts ==> exists em :: EmittedByRow(lex, k, rows, em) && em.fact == id && em.body == facts[id])
    && (forall em :: EmittedByRow(lex, k, rows, em) && em.fact == id ==> id in facts)
    && (forall em, a :: EmittedByRow(lex, k, rows, em) && em.fact == id && a in em.evidence ==> (id, a) in links)
    && (forall a :: (id, a) in links ==> exists em :: EmittedByRow(lex, k, rows, em) && em.fact == id && a in em.evidence)
  }

  /** The rating that stands is the one of the last row that states one. */
  ghost predicate RatingsHold(lex: Lexicon, rows: seq<Row>, facts: Facts) {
    forall isin :: RatingHolds(lex, rows, facts, isin)
  }

  ghost predicate RatingHolds(lex: Lexicon, rows: seq<Row>, facts: Facts, isin: string) {
    LastRating(lex, rows, isin) == if RatingFact(isin) in facts then Some(facts[RatingFact(isin)]) else None
  }

  /** The places of a row in the order in which the emitters visit them; a dataset has no value at
      the places of the others. */
  const SCALARS: seq<Slot> := [
    ScalarSlot(ProductType), ScalarSlot(Name), ScalarSlot(IssueDate), ScalarSlot(MaturityDate), ScalarSlot(IssueBalance),
    ScalarSlot(SoldByMirae), ScalarSlot(DistributionStatus), ScalarSlot(TradingStatus), ScalarSlot(ListingStart),
    ScalarSlot(ListingEnd), ScalarSlot(ListingEndStatus), ScalarSlot(ListingEnded), ScalarSlot(SaleEligible),
    ScalarSlot(PriceFreshness), ScalarSlot(LatestPrice), ScalarSlot(StalePriceWarning), ScalarSlot(InsufficientInfo)]
  const CATEGORIES: seq<Slot> := [
    ClassSlot(AssetClass), ClassSlot(ExposureRegion), ClassSlot(MarketScope), ClassSlot(RiskGrade), ClassSlot(BondType),
    ClassSlot(OfferingType), ClassSlot(SubscriptionStatus)]
  const RELATIONS: seq<Slot> := [
    RelationSlot(HasSaleLot), RelationSlot(IssuedBy), RelationSlot(HasShareClass), RelationSlot(ManagedBy),
    RelationSlot(HasTrustee), RelationSlot(HasUnderlyingIndex), RelationSlot(TracksIndex), RelationSlot(HasBenchmark),
    RelationSlot(DenominatedIn), RelationSlot(TradedInCurrency), RelationSlot(ListedInCountry), RelationSlot(HasInstrumentCountry)]
  const METRICS: seq<Slot> := [
    MetricSlot(eval_price), MetricSlot(buy_yield), MetricSlot(du_last_aum), MetricSlot(cu_charge_rt), MetricSlot(du_last_nav),
    MetricSlot(du_clpr), MetricSlot(ru_mkt_price), MetricSlot(ru_mkt_volume), MetricSlot(du_er_1d), MetricSlot(du_er_1m),
    MetricSlot(du_er_3m), MetricSlot(du_er_6m), MetricSlot(du_er_1y), MetricSlot(du_er_ytd), MetricSlot(fd_nast_suma),
    MetricSlot(bns_bpr), MetricSlot(fd_sbpr), MetricSlot(fd_yr1_ern_r), RatingSlot]

  function SetOf(slots: seq<Slot>): set<Slot> {
    set s | s in slots
  }

  function AllSlots(): set<Slot> {
    SetOf(SCALARS) + SetOf(CATEGORIES) + SetOf(RELATIONS) + SetOf(METRICS)
  }

  /** The emitters visit every slot at which a row can emit. */
  lemma EveryEmissionIsVisited(lex: Lexicon, k: Knowledge, row: Row, s: Slot)
    requires SlotEmission(lex, k, row, s).Some?
    ensures s in AllSlots()
  {
    hide ScalarEmission, ClassEmission, RelationEmission, RatingEmission, MetricOf, MetricSubject, RowCurrency, Comparable;
    match s {
      case ScalarSlot(n) => EveryScalar(n);
      case ClassSlot(c) => EveryCategory(c);
      case RelationSlot(r) => EveryRelation(r);
      case MetricSlot(f) =>
        assert MetricOf(DatasetOf(row), f).Some?;
        EveryMetric(DatasetOf(row), f);
      case RatingSlot =>
        assert METRICS[18] == RatingSlot;
    }
    hide SlotEmission;
  }

  lemma EveryMetric(d: Dataset, f: Field)
    requires MetricOf(d, f).Some?
    ensures MetricSlot(f) in METRICS
  {
  }

  lemma EveryScalar(n: ScalarName)
    ensures ScalarSlot(n) in SCALARS
  {
    match n {
      case ProductType => case Name => case IssueDate => case MaturityDate => case IssueBalance => case SoldByMirae =>
      case DistributionStatus => case TradingStatus => case ListingStart => case ListingEnd => case ListingEndStatus =>
      case ListingEnded => case SaleEligible => case PriceFreshness => case LatestPrice => case StalePriceWarning =>
      case InsufficientInfo =>
    }
  }

  lemma EveryCategory(c: Category)
    ensures ClassSlot(c) in CATEGORIES
  {
    match c {
      case AssetClass => case ExposureRegion => case MarketScope => case RiskGrade => case BondType =>
      case OfferingType => case SubscriptionStatus =>
    }
  }

  lemma EveryRelation(r: Relation)
    ensures RelationSlot(r) in RELATIONS
  {
    match r {
      case HasShareClass => case HasSaleLot => case ManagedBy => case IssuedBy => case HasTrustee => case HasBenchmark =>
      case HasUnderlyingIndex => case TracksIndex => case DenominatedIn => case TradedInCurrency => case ListedInCountry =>
      case HasInstrumentCountry =>
    }
  }

  lemma VisitedIsEmitted(lex: Lexicon, k: Knowledge, row: Row, id: FactId)
    ensures Hit(lex, k, row, AllSlots(), id).Some? ==> RowEmits(lex, k, row, Hit(lex, k, row, AllSlots(), id).value)
    ensures Hit(lex, k, row, AllSlots(), id).Some? ==> Hit(lex, k, row, AllSlots(), id).value.fact == id
    ensures forall em :: RowEmits(lex, k, row, em) && em.fact == id ==> Hit(lex, k, row, AllSlots(), id) == Some(em)
  {
    if !id.key.DisputedValue? && SlotEmission(lex, k, row, SlotOf(id.key)).Some? {
      EveryEmissionIsVisited(lex, k, row, SlotOf(id.key));
    }
    hide SlotEmission, AllSlots;
  }

  lemma RatingIsEmitted(lex: Lexicon, k: Knowledge, row: Row, isin: string)
    ensures RatingOf(lex, row, isin) ==
      var hit := Hit(lex, k, row, AllSlots(), RatingFact(isin)); if hit.Some? then Some(hit.value.body) else None
  {
    assert METRICS[18] == RatingSlot && RatingSlot in AllSlots();
    hide AllSlots, Asserts;
  }

  lemma NoRowsHold(lex: Lexicon, k: Knowledge)
    ensures RowsHold(lex, k, [], map[], {}) && RatingsHold(lex, [], map[])
  {
  }

  lemma HoldsAtOneMore(lex: Lexicon, k: Knowledge, rows: seq<Row>, row: Row, facts: Facts, links: Links, facts': Facts, links': Links, id: FactId)
    requires HoldsAt(lex, k, rows, facts, links, id)
    requires Added(Hit(lex, k, row, AllSlots(), id), id, facts, links, facts', links')
    ensures HoldsAt(lex, k, rows + [row], facts', links', id)
  {
    VisitedIsEmitted(lex, k, row, id);
    hide AllSlots, RowEmits, Hit;
    var hit := Hit(lex, k, row, AllSlots(), id);
    forall em: Emission | em.fact == id
      ensures EmittedByRow(lex, k, rows + [row], em) <==> EmittedByRow(lex, k, rows, em) || hit == Some(em)
    {
      assert forall r :: r in rows + [row] <==> r in rows || r == row;
    }
    hide EmittedByRow;
  }

  lemma RowsHoldOneMore(lex: Lexicon, k: Knowledge, rows: seq<Row>, row: Row, facts: Facts, links: Links, facts': Facts, links': Links)
    requires RowsHold(lex, k, rows, facts, links) && RatingsHold(lex, rows, facts)
    requires Adds(lex, k, row, AllSlots(), facts, links, facts', links')
    ensures RowsHold(lex, k, rows + [row], facts', links') && RatingsHold(lex, rows + [row], facts')
  {
    hide AllSlots, Hit, HoldsAt, Added, RatingOf, LastRating, RatingHolds;
    forall id ensures HoldsAt(lex, k, rows + [row], facts', links', id) {
      HoldsAtOneMore(lex, k, rows, row, facts, links, facts', links', id);
    }
    forall isin ensures RatingHolds(lex, rows + [row], facts', isin) {
      RatingHoldsOneMore(lex, k, rows, row, facts, links, facts', links', isin);
    }
  }

  lemma RatingHoldsOneMore(lex: Lexicon, k: Knowledge, rows: seq<Row>, row: Row, facts: Facts, links: Links, facts': Facts, links': Links, isin: string)
    requires RatingHolds(lex, rows, facts, isin)
    requires Added(Hit(lex, k, row, AllSlots(), RatingFact(isin)), RatingFact(isin), facts, links, facts', links')
    ensures RatingHolds(lex, rows + [row], facts', isin)
  {
    RatingIsEmitted(lex, k, row, isin);
    LastRatingOneMore(lex, rows, row, isin);
    hide AllSlots, Hit, RatingOf, LastRating;
  }

  lemma LastRatingOneMore(lex: Lexicon, rows: seq<Row>, row: Row, isin: string)
    ensures LastRating(lex, rows + [row], isin) ==
      if RatingOf(lex, row, isin).Some? then RatingOf(lex, row, isin) else LastRating(lex, rows, isin)
  {
    hide RatingOf;
    assert (rows + [row])[..|rows|] == rows;
  }

  // ------------------------------------------------------------ described entities

  /** The entities a row describes, with the names it gives them: a bond's name is dropped when rows
      disagree, a fund family has none, a lot goes by the source's key. */
  function Described(lex: Lexicon, k: Knowledge, row: Row): map<EntityId, Option<string>> {
    match row
    case Bond(isin, lot, cells) =>
      var bond := map[Product(PRBD01N001, isin) := Agreed(k, row, Product(PRBD01N001, isin), pd_nm)];
      if HasSaleLotEvidence(lex, cells) then bond[SaleLot(isin, lot) := Some(isin + ":" + lot)] else bond
    case Etp(_, code, _, _) => map[Product(DatasetOf(row), code) := Cell(row, pd_nm)]
    case Fund(code, family, _) =>
      if family.None? then map[] else map[FundFamily(family.value) := None, ShareClass(code) := Cell(row, itm_nm)]
  }

  /** What the subtype tables say an entity belongs to: a lot to its bond, a class to its fund. */
  function Belongs(lex: Lexicon, row: Row): map<EntityId, EntityId> {
    match row
    case Bond(isin, lot, cells) => if HasSaleLotEvidence(lex, cells) then map[SaleLot(isin, lot) := Product(PRBD01N001, isin)] else map[]
    case Etp(_, _, _, _) => map[]
    case Fund(code, family, _) => if family.None? then map[] else map[ShareClass(code) := FundFamily(family.value)]
  }

  function FirstName(lex: Lexicon, k: Knowledge, rows: seq<Row>, e: EntityId): Option<Option<string>>
    decreases |rows|
  {
    if rows == [] then None
    else if e in Described(lex, k, rows[0]) then Some(Described(lex, k, rows[0])[e])
    else FirstName(lex, k, rows[1..], e)
  }

  function FirstParent(lex: Lexicon, rows: seq<Row>, e: EntityId): Option<EntityId>
    decreases |rows|
  {
    if rows == [] then None
    else if e in Belongs(lex, rows[0]) then Some(Belongs(lex, rows[0])[e])
    else FirstParent(lex, rows[1..], e)
  }

  type Names = map<EntityId, Option<string>>
  type Parentage = map<EntityId, EntityId>

  /** Insert-or-ignore: names and parents are those that the first row of each entity gave. */
  ghost predicate EntitiesHold(lex: Lexicon, k: Knowledge, rows: seq<Row>, names: Names, parents: Parentage) {
    && (forall e :: e in names <==> FirstName(lex, k, rows, e).Some?)
    && (forall e :: e in names ==> FirstName(lex, k, rows, e) == Some(names[e]))
    && (forall e :: e in parents <==> FirstParent(lex, rows, e).Some?)
    && (forall e :: e in parents ==> FirstParent(lex, rows, e) == Some(parents[e]))
  }

  lemma {:induction false} FirstNameOneMore(lex: Lexicon, k: Knowledge, rows: seq<Row>, row: Row, e: EntityId)
    ensures FirstName(lex, k, rows + [row], e) ==
      if FirstName(lex, k, rows, e).Some? then FirstName(lex, k, rows, e)
      else if e in Described(lex, k, row) then Some(Described(lex, k, row)[e]) else None
    ensures FirstParent(lex, rows + [row], e) ==
      if FirstParent(lex, rows, e).Some? then FirstParent(lex, rows, e)
      else if e in Belongs(lex, row) then Some(Belongs(lex, row)[e]) else None
    decreases |rows|
  {
    hide Described, Belongs;
    if rows != [] {
      assert (rows + [row])[1..] == rows[1..] + [row];
      FirstNameOneMore(lex, k, rows[1..], row, e);
    }
  }

  lemma EntitiesOneMore(lex: Lexicon, k: Knowledge, rows: seq<Row>, row: Row, names: Names, parents: Parentage)
    requires EntitiesHold(lex, k, rows, names, parents)
    ensures EntitiesHold(lex, k, rows + [row], Described(lex, k, row) + names, Belongs(lex, row) + parents)
  {
    forall e { FirstNameOneMore(lex, k, rows, row, e); }
    hide Described, Belongs, FirstName, FirstParent;
  }
}
