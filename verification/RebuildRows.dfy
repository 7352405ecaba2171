/** The validated rows of the four workbooks, the identities the rebuild gives them, and the
    facts that the second pass emits for one row once the first pass has audited all of them. */
module RebuildRows {
  import opened Basics

  datatype Dataset = PRBD01N001 | PREF01N001 | PREF02N001 | PRFD01N001
  datatype Group = ETF | ETN

  /** Source columns that the emitters read, under the names they have in the workbooks. */
  datatype Field =
    | pd_no | pd_nm | pd_pbcm | isu_dt | mat_dt | isu_bal_amt | pd_risk_gcd | pd_risk_nm | bd_knd | bd_ofr_tcd
    | curr_cd | pd_ctry_cd | info_base_dt | eval_price | crd_grd | crd_grd_dt
    | after_tax_yield | avg_annual_tax_yield | bdbns_abl_chnl_nm | bdbns_abl_chnl_tcd | buy_yield
    | corp_after_tax_yield | corp_pretax_yield | depo_equiv_yield_154 | depo_equiv_yield_495
    | pref_tax_yield | sale_yield_base_dt | trade_price
    | pd_itm_no | pd_grp_no | cu_fund_mgmt_co | cu_base_index | ref_base_index | cu_index_tracking_yn
    | wu_inv_ast_type | wu_inv_rgn | pd_curr_cd | pd_trd_ccy | pd_mkt_id
    | du_last_aum | cu_charge_rt | du_last_nav | du_clpr | du_clpr_base_dt | du_upt_dt
    | du_er_1d | du_er_1m | du_er_3m | du_er_6m | du_er_1y | du_er_ytd
    | pd_sale_yn | pd_tr_yn | pd_lstg_dt | pd_lste_dt | ru_mkt_price | ru_mkt_volume
    | itm_no | itm_nm | rptt_ksd_itm_no | or_co_xtn_itt_cd | trusc_xtn_itt_cd | bmrk_nm
    | or_attr_desc | fd_ivst_rgn_desc | ovrs_fd_desc | zrin_fd_ivst_risk_gcd | zrin_fd_ivst_risk_grd_nm
    | prvo_pbff_desc | fd_nast_suma | bns_bpr | fd_sbpr | fd_price_bas_dt | fd_yr1_ern_r | sale_yn | thco_sale_yn

  /** Cleaned cells: a blank cell is absent. */
  type Cells = map<Field, string>

  /** A validated row: the key columns, what the row says its product is, and the other cells.
      `lot` is the rest of a bond row's key; `family` is missing when no parent fund is safe. */
  datatype Row =
    | Bond(isin: string, lot: string, cells: Cells)
    | Etp(foreign: bool, code: string, group: Group, cells: Cells)
    | Fund(code: string, family: Option<string>, cells: Cells)

  datatype Role = Issuer | AssetManager | Trustee

  datatype EntityId =
    | Product(dataset: Dataset, code: string)
    | FundFamily(code: string)
    | ShareClass(code: string)
    | SaleLot(isin: string, lot: string)
    | Organization(role: Role, dataset: Dataset, name: string)
    | Index(dataset: Dataset, name: string)
    | Currency(code: string)
    | Country(code: string)

  datatype RecordId = RecordId(dataset: Dataset, code: string, lot: string)
  datatype AssertionId = AssertionId(record: RecordId, field: Field)

  /** Readings of cell text that the properties do not depend on. */
  datatype Lexicon = Lexicon(
    date: string -> Option<int>,
    decimal: string -> Option<real>,
    concept: (Category, string) -> Option<string>,
    currency: string -> Option<string>,
    country: string -> Option<string>,
    rank: string -> Option<nat>,
    rejected: string -> bool,
    atomic: string -> bool,
    lookup: string -> string,
    upper: string -> string,
    endless: string -> bool,
    snapshot: int)

  datatype Category = AssetClass | ExposureRegion | MarketScope | RiskGrade | BondType | OfferingType | SubscriptionStatus

  datatype Relation =
    | HasShareClass | HasSaleLot | ManagedBy | IssuedBy | HasTrustee | HasBenchmark
    | HasUnderlyingIndex | TracksIndex | DenominatedIn | TradedInCurrency | ListedInCountry | HasInstrumentCountry

  datatype ScalarName =
    | ProductType | Name | IssueDate | MaturityDate | IssueBalance | SoldByMirae
    | DistributionStatus | TradingStatus | ListingStart | ListingEnd | ListingEndStatus | ListingEnded
    | SaleEligible | PriceFreshness | LatestPrice | StalePriceWarning | InsufficientInfo

  datatype MetricCode =
    | PRICE | BOND_BUY_YIELD | AUM | EXPENSE_RATIO | NAV | MARKET_PRICE | VOLUME
    | ONE_DAY_RETURN | ONE_MONTH_RETURN | THREE_MONTH_RETURN | SIX_MONTH_RETURN | ONE_YEAR_RETURN | YEAR_TO_DATE_RETURN

  datatype Key =
    | Scalar(name: ScalarName)
    | Class(category: Category, concept: string)
    | Related(relation: Relation, target: EntityId)
    | Metric(code: MetricCode, on: int, source: AssertionId)
    | CreditRating
    | DisputedValue(field: Field, text: string)
    | DisputedClass(grouping: Category, text: string)

  /** A place in one row that can emit at most one fact. */
  datatype Slot =
    | ScalarSlot(name: ScalarName)
    | ClassSlot(category: Category)
    | RelationSlot(relation: Relation)
    | MetricSlot(field: Field)
    | RatingSlot

  datatype FactId = FactId(subject: EntityId, dataset: Dataset, key: Key)

  datatype Body =
    | Text(text: string)
    | Date(date: int)
    | Number(number: real)
    | Flag(flag: bool)
    | Tie
    | Observation(value: real, currency: Option<string>, on: Option<int>, comparable: bool)
    | Disputed

  /** One fact with its typed row and the assertions linked to it. */
  datatype Emission = Emission(fact: FactId, body: Body, evidence: set<AssertionId>)

  // ------------------------------------------------------------ identities

  function DatasetOf(row: Row): Dataset {
    match row
    case Bond(_, _, _) => PRBD01N001
    case Etp(foreign, _, _, _) => if foreign then PREF02N001 else PREF01N001
    case Fund(_, _, _) => PRFD01N001
  }

  function RecordOf(row: Row): RecordId {
    match row
    case Bond(isin, lot, _) => RecordId(PRBD01N001, isin, lot)
    case Etp(_, code, _, _) => RecordId(DatasetOf(row), code, "")
    case Fund(code, _, _) => RecordId(PRFD01N001, code, "")
  }

  const SALE_LOT_FIELDS: set<Field> := {
    after_tax_yield, avg_annual_tax_yield, bdbns_abl_chnl_nm, bdbns_abl_chnl_tcd, buy_yield,
    corp_after_tax_yield, corp_pretax_yield, depo_equiv_yield_154, depo_equiv_yield_495,
    pref_tax_yield, sale_yield_base_dt, trade_price}

  predicate HasSaleLotEvidence(lex: Lexicon, cells: Cells) {
    exists f :: f in SALE_LOT_FIELDS && f in cells && lex.upper(cells[f]) != "NAN"
  }

  /** The entity the row describes. */
  function Primary(lex: Lexicon, row: Row): Option<EntityId> {
    match row
    case Bond(isin, lot, cells) => if HasSaleLotEvidence(lex, cells) then Some(SaleLot(isin, lot)) else None
    case Etp(_, code, _, _) => Some(Product(DatasetOf(row), code))
    case Fund(code, family, _) => if family.Some? then Some(ShareClass(code)) else None
  }

  /** The product or family that several rows may speak about. */
  function Support(row: Row): Option<EntityId> {
    match row
    case Bond(isin, _, _) => Some(Product(PRBD01N001, isin))
    case Etp(_, _, _, _) => None
    case Fund(_, family, _) => if family.Some? then Some(FundFamily(family.value)) else None
  }

  function Cell(row: Row, f: Field): Option<string> {
    if f in row.cells then Some(row.cells[f]) else None
  }

  // ------------------------------------------------------------ assertions

  /** The columns whose values the first pass collects for each bond and each fund family. */
  function BondAudited(): set<Field> {
    {pd_nm, pd_pbcm, isu_dt, mat_dt, isu_bal_amt, pd_risk_gcd, pd_risk_nm, bd_knd, bd_ofr_tcd}
  }

  function FundAudited(): set<Field> {
    {or_co_xtn_itt_cd, trusc_xtn_itt_cd, bmrk_nm, prvo_pbff_desc, or_attr_desc, fd_ivst_rgn_desc, ovrs_fd_desc}
  }

  function TargetFields(d: Dataset): set<Field> {
    match d
    case PRBD01N001 =>
      BondAudited() + {pd_no, curr_cd, pd_ctry_cd, info_base_dt, eval_price, crd_grd, crd_grd_dt} + SALE_LOT_FIELDS
    case PREF01N001 =>
      {pd_itm_no, pd_grp_no, pd_nm, cu_fund_mgmt_co, cu_base_index, ref_base_index, wu_inv_ast_type, wu_inv_rgn,
            pd_risk_nm, pd_curr_cd, pd_mkt_id, du_last_aum, cu_charge_rt, du_last_nav, du_clpr, du_upt_dt,
            du_er_1d, du_er_1m, du_er_3m, du_er_6m, du_er_1y, du_er_ytd,
            pd_sale_yn, pd_tr_yn, pd_lstg_dt, pd_lste_dt, ru_mkt_price, ru_mkt_volume}
    case PREF02N001 =>
      {pd_itm_no, pd_grp_no, pd_nm, cu_fund_mgmt_co, cu_base_index, cu_index_tracking_yn, wu_inv_ast_type,
            wu_inv_rgn, pd_curr_cd, pd_trd_ccy, pd_mkt_id, du_last_aum, cu_charge_rt, du_last_nav, du_clpr,
            du_clpr_base_dt, du_upt_dt, pd_sale_yn, pd_tr_yn, pd_lstg_dt, ru_mkt_price, ru_mkt_volume}
    case PRFD01N001 =>
      FundAudited() + {itm_no, itm_nm, rptt_ksd_itm_no, zrin_fd_ivst_risk_gcd, zrin_fd_ivst_risk_grd_nm, curr_cd,
                       fd_nast_suma, bns_bpr, fd_sbpr, fd_price_bas_dt, fd_yr1_ern_r, sale_yn, thco_sale_yn}
  }

  predicate Target(d: Dataset, f: Field) {
    f in TargetFields(d)
  }

  /** Columns whose absence is itself asserted. */
  predicate AssertedWhenMissing(d: Dataset, f: Field) {
    match d
    case PRBD01N001 => false
    case PREF01N001 =>
      f in {pd_sale_yn, pd_tr_yn, pd_lstg_dt, pd_lste_dt, du_clpr, du_clpr_base_dt, du_upt_dt, ru_mkt_price, ru_mkt_volume}
    case PREF02N001 =>
      f in {pd_sale_yn, pd_tr_yn, pd_lstg_dt, pd_lste_dt, du_clpr, du_clpr_base_dt, du_upt_dt, ru_mkt_price,
            ru_mkt_volume, cu_base_index}
    case PRFD01N001 => f in {rptt_ksd_itm_no, thco_sale_yn}
  }

  predicate Asserted(row: Row, f: Field) {
    Target(DatasetOf(row), f) && (f in row.cells || AssertedWhenMissing(DatasetOf(row), f))
  }

  /** The assertion of a column as a set of at most one. */
  function Asserts(row: Row, f: Field): set<AssertionId> {
    if Asserted(row, f) then {AssertionId(RecordOf(row), f)} else {}
  }

  function AssertsEither(row: Row, f: Field, g: Field): set<AssertionId> {
    if Asserted(row, f) then Asserts(row, f) else Asserts(row, g)
  }

  predicate IsAssertionOf(row: Row, a: AssertionId) {
    a.record == RecordOf(row) && Asserted(row, a.field)
  }

  // ------------------------------------------------------------ what the first pass knows

  function AuditedFields(row: Row): set<Field> {
    match row
    case Bond(_, _, _) => BondAudited()
    case Etp(_, _, _, _) => {}
    case Fund(_, _, _) => FundAudited()
  }

  predicate Audited(row: Row, f: Field) {
    f in AuditedFields(row)
  }

  /** The row states `v` for a field of the product or family `e` that is audited across rows. */
  predicate States(row: Row, e: EntityId, f: Field, v: string) {
    Support(row) == Some(e) && Audited(row, f) && f in row.cells && row.cells[f] == v
  }

  function ValuesOf(rows: seq<Row>, e: EntityId, f: Field): set<string> {
    set r | r in rows && Support(r) == Some(e) && Audited(r, f) && f in r.cells :: r.cells[f]
  }

  ghost predicate Disagree(rows: seq<Row>, e: EntityId, f: Field) {
    exists v, w :: v != w && v in ValuesOf(rows, e, f) && w in ValuesOf(rows, e, f)
  }

  function PriceDateField(row: Row): Field {
    if DatasetOf(row) == PREF02N001 then du_clpr_base_dt else du_upt_dt
  }

  function PriceDate(lex: Lexicon, row: Row): Option<int> {
    if row.Etp? && PriceDateField(row) in row.cells then lex.date(row.cells[PriceDateField(row)]) else None
  }

  /** `d` is the latest price date any row of the dataset states; None when there is none. */
  ghost predicate IsLatest(lex: Lexicon, rows: seq<Row>, ds: Dataset, d: Option<int>) {
    if d.None? then forall r :: r in rows && r.Etp? && DatasetOf(r) == ds ==> PriceDate(lex, r).None?
    else
      && (exists r :: r in rows && r.Etp? && DatasetOf(r) == ds && PriceDate(lex, r) == d)
      && (forall r :: r in rows && r.Etp? && DatasetOf(r) == ds && PriceDate(lex, r).Some? ==> PriceDate(lex, r).value <= d.value)
  }

  /** What pass two consults: the disputed fields and the latest price dates. */
  datatype Knowledge = Knowledge(disputed: set<(EntityId, Field)>, latestKr: Option<int>, latestGl: Option<int>)

  ghost predicate Knows(lex: Lexicon, k: Knowledge, rows: seq<Row>) {
    && (forall e, f :: (e, f) in k.disputed <==> Disagree(rows, e, f))
    && IsLatest(lex, rows, PREF01N001, k.latestKr)
    && IsLatest(lex, rows, PREF02N001, k.latestGl)
  }

  // ------------------------------------------------------------ emissions of one row

  /** A fact is written only when there is a subject, a value and at least one assertion to link. */
  function Draft(subject: Option<EntityId>, d: Dataset, key: Key, body: Option<Body>, evidence: set<AssertionId>): Option<Emission> {
    if subject.None? || body.None? || evidence == {} then None
    else Some(Emission(FactId(subject.value, d, key), body.value, evidence))
  }

  function TextBody(v: Option<string>): Option<Body> {
    if v.Some? then Some(Text(v.value)) else None
  }

  function DateBody(lex: Lexicon, v: Option<string>): Option<Body> {
    if v.Some? && lex.date(v.value).Some? then Some(Date(lex.date(v.value).value)) else None
  }

  function NumberBody(lex: Lexicon, v: Option<string>): Option<Body> {
    if v.Some? && lex.decimal(v.value).Some? then Some(Number(lex.decimal(v.value).value)) else None
  }

  function MiraeFlag(lex: Lexicon, v: Option<string>): Option<Body> {
    if v.Some? && lex.upper(v.value) == "Y" then Some(Flag(true))
    else if v.Some? && lex.upper(v.value) == "N" then Some(Flag(false))
    else None
  }

  /** The cell, unless the rows of its product or family disagree about it. */
  function Agreed(k: Knowledge, row: Row, e: EntityId, f: Field): Option<string> {
    if (e, f) in k.disputed then None else Cell(row, f)
  }

  /** The bond, the exchange-traded product or the share class: subject of scalars and classifications. */
  function Subject(row: Row): Option<EntityId> {
    match row
    case Bond(isin, _, _) => Some(Product(PRBD01N001, isin))
    case Etp(_, code, _, _) => Some(Product(DatasetOf(row), code))
    case Fund(code, family, _) => if family.Some? then Some(ShareClass(code)) else None
  }

  function BondScalar(lex: Lexicon, k: Knowledge, row: Row, n: ScalarName): Option<Body>
    requires row.Bond?
  {
    var e := Product(PRBD01N001, row.isin);
    match n
    case ProductType => Some(Text("BOND"))
    case Name => TextBody(Agreed(k, row, e, pd_nm))
    case IssueDate => DateBody(lex, Agreed(k, row, e, isu_dt))
    case MaturityDate => DateBody(lex, Agreed(k, row, e, mat_dt))
    case IssueBalance => NumberBody(lex, Agreed(k, row, e, isu_bal_amt))
    case _ => None
  }

  function FundScalar(lex: Lexicon, row: Row, n: ScalarName): Option<Body>
    requires row.Fund?
  {
    match n
    case ProductType => Some(Text("FUND"))
    case Name => TextBody(Cell(row, itm_nm))
    case SoldByMirae => MiraeFlag(lex, Cell(row, thco_sale_yn))
    case _ => None
  }

  function SaleStatus(v: Option<string>): string {
    if v == Some("1") then "AVAILABLE_FOR_SALE" else if v == Some("0") then "NOT_AVAILABLE_FOR_SALE" else "UNKNOWN"
  }

  function TradingState(v: Option<string>): string {
    if v == Some("0") then "TRADING_ACTIVE" else if v == Some("1") then "TRADING_HALTED" else "UNKNOWN"
  }

  function Freshness(lex: Lexicon, k: Knowledge, row: Row): string
    requires row.Etp?
  {
    var price := NumberBody(lex, Cell(row, du_clpr));
    var on := PriceDate(lex, row);
    var latest := if row.foreign then k.latestGl else k.latestKr;
    if price.None? || price.value.number <= 0.0 || on.None? || latest.None? then "UNKNOWN"
    else if on.value == latest.value then "LATEST"
    else if on.value < latest.value then "STALE"
    else "UNKNOWN"
  }

  function ListingEndBody(lex: Lexicon, row: Row): Option<Body>
    requires row.Etp?
  {
    if row.foreign then None else DateBody(lex, Cell(row, pd_lste_dt))
  }

  predicate HasListingEnded(lex: Lexicon, row: Row)
    requires row.Etp?
  {
    ListingEndBody(lex, row).Some? && ListingEndBody(lex, row).value.date <= lex.snapshot
  }

  predicate SaleEligibleNow(lex: Lexicon, row: Row)
    requires row.Etp?
  {
    var start := DateBody(lex, Cell(row, pd_lstg_dt));
    && SaleStatus(Cell(row, pd_sale_yn)) == "AVAILABLE_FOR_SALE"
    && TradingState(Cell(row, pd_tr_yn)) == "TRADING_ACTIVE"
    && start.Some? && start.value.date <= lex.snapshot
    && !HasListingEnded(lex, row)
  }

  predicate LacksCoreInfo(lex: Lexicon, row: Row) {
    || SaleStatus(Cell(row, pd_sale_yn)) == "UNKNOWN"
    || TradingState(Cell(row, pd_tr_yn)) == "UNKNOWN"
    || DateBody(lex, Cell(row, pd_lstg_dt)).None?
  }

  function FlagWhen(b: bool): Option<Body> {
    if b then Some(Flag(true)) else None
  }

  function GroupText(g: Group): string {
    match g case ETF => "ETF" case ETN => "ETN"
  }

  function EtpScalar(lex: Lexicon, k: Knowledge, row: Row, n: ScalarName): Option<Body>
    requires row.Etp?
  {
    match n
    case ProductType => Some(Text(GroupText(row.group)))
    case Name => TextBody(Cell(row, pd_nm))
    case DistributionStatus => Some(Text(SaleStatus(Cell(row, pd_sale_yn))))
    case TradingStatus => Some(Text(TradingState(Cell(row, pd_tr_yn))))
    case ListingStart => DateBody(lex, Cell(row, pd_lstg_dt))
    case ListingEnd => ListingEndBody(lex, row)
    case ListingEndStatus =>
      if !row.foreign && pd_lste_dt in row.cells && lex.endless(row.cells[pd_lste_dt]) then Some(Text("NO_KNOWN_END_DATE")) else None
    case ListingEnded => if row.foreign then None else Some(Flag(HasListingEnded(lex, row)))
    case SaleEligible => FlagWhen(SaleEligibleNow(lex, row))
    case PriceFreshness => Some(Text(Freshness(lex, k, row)))
    case LatestPrice => FlagWhen(Freshness(lex, k, row) == "LATEST")
    case StalePriceWarning => FlagWhen(SaleEligibleNow(lex, row) && Freshness(lex, k, row) == "STALE")
    case InsufficientInfo => FlagWhen(LacksCoreInfo(lex, row))
    case _ => None
  }

  function ScalarBody(lex: Lexicon, k: Knowledge, row: Row, n: ScalarName): Option<Body> {
    match row
    case Bond(_, _, _) => BondScalar(lex, k, row, n)
    case Etp(_, _, _, _) => EtpScalar(lex, k, row, n)
    case Fund(_, _, _) => FundScalar(lex, row, n)
  }

  function StatusEvidence(row: Row): set<AssertionId> {
    Asserts(row, pd_sale_yn) + Asserts(row, pd_tr_yn) + Asserts(row, pd_lstg_dt) + Asserts(row, pd_lste_dt)
    + Asserts(row, pd_itm_no)
  }

  function PriceEvidence(row: Row): set<AssertionId> {
    Asserts(row, du_clpr) + Asserts(row, PriceDateField(row)) + Asserts(row, ru_mkt_price) + Asserts(row, ru_mkt_volume)
    + Asserts(row, pd_itm_no)
  }

  function ScalarEvidence(row: Row, n: ScalarName): set<AssertionId> {
    match n
    case ProductType =>
      (match row
       case Bond(_, _, _) => Asserts(row, pd_no)
       case Etp(_, _, _, _) => Asserts(row, pd_grp_no)
       case Fund(_, _, _) => AssertsEither(row, rptt_ksd_itm_no, itm_no))
    case Name => Asserts(row, if row.Fund? then itm_nm else pd_nm)
    case IssueDate => Asserts(row, isu_dt)
    case MaturityDate => Asserts(row, mat_dt)
    case IssueBalance => Asserts(row, isu_bal_amt)
    case SoldByMirae => Asserts(row, thco_sale_yn)
    case DistributionStatus => Asserts(row, pd_sale_yn)
    case TradingStatus => Asserts(row, pd_tr_yn)
    case ListingStart => Asserts(row, pd_lstg_dt)
    case ListingEnd => Asserts(row, pd_lste_dt)
    case ListingEndStatus => Asserts(row, pd_lste_dt)
    case ListingEnded => Asserts(row, pd_lste_dt)
    case SaleEligible => StatusEvidence(row)
    case PriceFreshness => PriceEvidence(row)
    case LatestPrice => PriceEvidence(row)
    case StalePriceWarning => StatusEvidence(row) + PriceEvidence(row)
    case InsufficientInfo => StatusEvidence(row)
  }

  function ScalarEmission(lex: Lexicon, k: Knowledge, row: Row, n: ScalarName): Option<Emission> {
    Draft(Subject(row), DatasetOf(row), Scalar(n), ScalarBody(lex, k, row, n), ScalarEvidence(row, n))
  }

  // ------------------------------------------------------------ classifications

  function OrElse(a: Option<string>, b: Option<string>): Option<string> {
    if a.Some? then a else b
  }

  /** The column a classification is read from; None when the dataset has no such column. */
  function ClassField(row: Row, c: Category): Option<Field> {
    match row
    case Bond(_, _, _) =>
      (match c case AssetClass => Some(pd_no) case RiskGrade => Some(pd_risk_nm) case BondType => Some(bd_knd)
               case OfferingType => Some(bd_ofr_tcd) case _ => None)
    case Etp(_, _, _, _) =>
      (match c case AssetClass => Some(wu_inv_ast_type) case ExposureRegion => Some(wu_inv_rgn)
               case RiskGrade => Some(pd_risk_nm) case _ => None)
    case Fund(_, _, _) =>
      (match c case AssetClass => Some(or_attr_desc) case ExposureRegion => Some(fd_ivst_rgn_desc)
               case MarketScope => Some(ovrs_fd_desc) case RiskGrade => Some(zrin_fd_ivst_risk_grd_nm)
               case OfferingType => Some(prvo_pbff_desc) case SubscriptionStatus => Some(sale_yn) case _ => None)
  }

  /** The text that is classified: a bond's asset class is constant, and a missing risk name falls
      back to the risk code of the same row. */
  function ClassText(row: Row, c: Category): Option<string> {
    var f := ClassField(row, c);
    if f.None? then None
    else if row.Bond? && c == AssetClass then Some("채권")
    else if row.Bond? && c == RiskGrade then OrElse(Cell(row, pd_risk_nm), Cell(row, pd_risk_gcd))
    else if row.Fund? && c == RiskGrade then OrElse(Cell(row, zrin_fd_ivst_risk_grd_nm), Cell(row, zrin_fd_ivst_risk_gcd))
    else Cell(row, f.value)
  }

  function ClassEvidence(row: Row, f: Field): set<AssertionId> {
    if f == pd_risk_nm then AssertsEither(row, pd_risk_nm, pd_risk_gcd)
    else if f == zrin_fd_ivst_risk_grd_nm then AssertsEither(row, zrin_fd_ivst_risk_grd_nm, zrin_fd_ivst_risk_gcd)
    else Asserts(row, f)
  }

  predicate ClassDisputed(k: Knowledge, row: Row, f: Field) {
    row.Bond? && f != pd_no && (Product(PRBD01N001, row.isin), f) in k.disputed
  }

  function ClassEmission(lex: Lexicon, k: Knowledge, row: Row, c: Category): Option<Emission> {
    var f, v := ClassField(row, c), ClassText(row, c);
    if f.None? || v.None? then None
    else if ClassDisputed(k, row, f.value) then
      Draft(Subject(row), DatasetOf(row), DisputedClass(c, lex.lookup(v.value)), Some(Disputed), ClassEvidence(row, f.value))
    else if lex.concept(c, v.value).None? then None
    else Draft(Subject(row), DatasetOf(row), Class(c, lex.concept(c, v.value).value), Some(Tie), ClassEvidence(row, f.value))
  }

  // ------------------------------------------------------------ relations

  function OrganizationNamed(lex: Lexicon, row: Row, role: Role, v: Option<string>): Option<EntityId> {
    if v.None? || lex.rejected(v.value) then None else Some(Organization(role, DatasetOf(row), lex.lookup(v.value)))
  }

  function IndexNamed(lex: Lexicon, row: Row, v: Option<string>): Option<EntityId> {
    if v.None? || !lex.atomic(v.value) then None else Some(Index(DatasetOf(row), lex.lookup(v.value)))
  }

  function CurrencyIn(lex: Lexicon, row: Row, f: Field): Option<EntityId> {
    if f in row.cells && lex.currency(row.cells[f]).Some? then Some(Currency(lex.currency(row.cells[f]).value)) else None
  }

  function CountryIn(lex: Lexicon, row: Row, f: Field): Option<EntityId> {
    if f in row.cells && lex.country(row.cells[f]).Some? then Some(Country(lex.country(row.cells[f]).value)) else None
  }

  function IndexField(row: Row): Field {
    if cu_base_index in row.cells then cu_base_index else if ref_base_index in row.cells then ref_base_index else cu_base_index
  }

  predicate Tracks(lex: Lexicon, row: Row) {
    row.Etp? && row.foreign && cu_index_tracking_yn in row.cells && lex.upper(row.cells[cu_index_tracking_yn]) == "Y"
  }

  function BondTarget(lex: Lexicon, k: Knowledge, row: Row, r: Relation): Option<EntityId>
    requires row.Bond?
  {
    match r
    case HasSaleLot => Primary(lex, row)
    case IssuedBy => OrganizationNamed(lex, row, Issuer, Agreed(k, row, Product(PRBD01N001, row.isin), pd_pbcm))
    case DenominatedIn => CurrencyIn(lex, row, curr_cd)
    case HasInstrumentCountry => CountryIn(lex, row, pd_ctry_cd)
    case _ => None
  }

  function EtpTarget(lex: Lexicon, row: Row, r: Relation): Option<EntityId>
    requires row.Etp?
  {
    match r
    case ManagedBy => if row.group == ETF then OrganizationNamed(lex, row, AssetManager, Cell(row, cu_fund_mgmt_co)) else None
    case HasUnderlyingIndex => IndexNamed(lex, row, Cell(row, IndexField(row)))
    case TracksIndex => if Tracks(lex, row) then IndexNamed(lex, row, Cell(row, IndexField(row))) else None
    case DenominatedIn => CurrencyIn(lex, row, pd_curr_cd)
    case TradedInCurrency => if row.foreign then CurrencyIn(lex, row, pd_trd_ccy) else None
    case ListedInCountry => CountryIn(lex, row, pd_mkt_id)
    case _ => None
  }

  function FundTarget(lex: Lexicon, k: Knowledge, row: Row, r: Relation): Option<EntityId>
    requires row.Fund? && row.family.Some?
  {
    var e := FundFamily(row.family.value);
    match r
    case HasShareClass => Some(ShareClass(row.code))
    case ManagedBy => OrganizationNamed(lex, row, AssetManager, Agreed(k, row, e, or_co_xtn_itt_cd))
    case HasTrustee => OrganizationNamed(lex, row, Trustee, Agreed(k, row, e, trusc_xtn_itt_cd))
    case HasBenchmark => IndexNamed(lex, row, Agreed(k, row, e, bmrk_nm))
    case _ => None
  }

  function RelationTarget(lex: Lexicon, k: Knowledge, row: Row, r: Relation): Option<EntityId> {
    match row
    case Bond(_, _, _) => BondTarget(lex, k, row, r)
    case Etp(_, _, _, _) => EtpTarget(lex, row, r)
    case Fund(_, family, _) => if family.Some? then FundTarget(lex, k, row, r) else None
  }

  /** The bond, the exchange-traded product, or the fund family. */
  function RelationSubject(row: Row): Option<EntityId> {
    if row.Etp? then Subject(row) else Support(row)
  }

  function RelationEvidence(row: Row, r: Relation): set<AssertionId> {
    match r
    case HasSaleLot => Asserts(row, pd_no)
    case IssuedBy => Asserts(row, pd_pbcm)
    case HasInstrumentCountry => Asserts(row, pd_ctry_cd)
    case HasShareClass => AssertsEither(row, rptt_ksd_itm_no, itm_no)
    case ManagedBy => Asserts(row, if row.Fund? then or_co_xtn_itt_cd else cu_fund_mgmt_co)
    case HasTrustee => Asserts(row, trusc_xtn_itt_cd)
    case HasBenchmark => Asserts(row, bmrk_nm)
    case HasUnderlyingIndex => Asserts(row, IndexField(row))
    case TracksIndex => AssertsEither(row, cu_index_tracking_yn, IndexField(row))
    case DenominatedIn => Asserts(row, if row.Bond? then curr_cd else pd_curr_cd)
    case TradedInCurrency => Asserts(row, pd_trd_ccy)
    case ListedInCountry => Asserts(row, pd_mkt_id)
  }

  function RelationEmission(lex: Lexicon, k: Knowledge, row: Row, r: Relation): Option<Emission> {
    var target := RelationTarget(lex, k, row, r);
    if target.None? then None
    else Draft(RelationSubject(row), DatasetOf(row), Related(r, target.value), Some(Tie), RelationEvidence(row, r))
  }

  // ------------------------------------------------------------ metrics

  /** The metric a column holds and the column of its date. */
  function MetricOf(d: Dataset, f: Field): Option<(MetricCode, Field)> {
    match d
    case PRBD01N001 =>
      (match f case eval_price => Some((PRICE, info_base_dt)) case buy_yield => Some((BOND_BUY_YIELD, info_base_dt)) case _ => None)
    case PREF01N001 =>
      (match f
       case du_last_aum => Some((AUM, du_upt_dt)) case cu_charge_rt => Some((EXPENSE_RATIO, du_upt_dt))
       case du_last_nav => Some((NAV, du_upt_dt)) case du_clpr => Some((PRICE, du_upt_dt))
       case ru_mkt_price => Some((MARKET_PRICE, du_upt_dt)) case ru_mkt_volume => Some((VOLUME, du_upt_dt))
       case du_er_1d => Some((ONE_DAY_RETURN, du_upt_dt)) case du_er_1m => Some((ONE_MONTH_RETURN, du_upt_dt))
       case du_er_3m => Some((THREE_MONTH_RETURN, du_upt_dt)) case du_er_6m => Some((SIX_MONTH_RETURN, du_upt_dt))
       case du_er_1y => Some((ONE_YEAR_RETURN, du_upt_dt)) case du_er_ytd => Some((YEAR_TO_DATE_RETURN, du_upt_dt))
       case _ => None)
    case PREF02N001 =>
      (match f
       case du_last_aum => Some((AUM, du_upt_dt)) case cu_charge_rt => Some((EXPENSE_RATIO, du_upt_dt))
       case du_last_nav => Some((NAV, du_upt_dt)) case du_clpr => Some((PRICE, du_clpr_base_dt))
       case ru_mkt_price => Some((MARKET_PRICE, du_clpr_base_dt)) case ru_mkt_volume => Some((VOLUME, du_clpr_base_dt))
       case _ => None)
    case PRFD01N001 =>
      (match f
       case fd_nast_suma => Some((AUM, fd_price_bas_dt)) case bns_bpr => Some((NAV, fd_price_bas_dt))
       case fd_sbpr => Some((PRICE, fd_price_bas_dt)) case fd_yr1_ern_r => Some((ONE_YEAR_RETURN, fd_price_bas_dt))
       case _ => None)
  }

  /** The lot where a bond row has one, the bond where it has not, the product or the share class. */
  function MetricSubject(lex: Lexicon, row: Row): Option<EntityId> {
    if row.Bond? && Primary(lex, row).None? then Support(row) else Primary(lex, row)
  }

  function RowCurrency(lex: Lexicon, row: Row): Option<string> {
    var raw := OrElse(Cell(row, pd_curr_cd), OrElse(Cell(row, pd_trd_ccy), Cell(row, curr_cd)));
    if raw.Some? then lex.currency(raw.value) else None
  }

  function DateIn(lex: Lexicon, row: Row, f: Field): Option<int> {
    if f in row.cells then lex.date(row.cells[f]) else None
  }

  predicate IsReturn(c: MetricCode) {
    c.ONE_DAY_RETURN? || c.ONE_MONTH_RETURN? || c.THREE_MONTH_RETURN? || c.SIX_MONTH_RETURN? || c.ONE_YEAR_RETURN? || c.YEAR_TO_DATE_RETURN?
  }

  predicate Comparable(row: Row, code: MetricCode, currency: Option<string>, on: Option<int>) {
    || (code == AUM && row.Etp? && (currency == Some("KRW") || currency == Some("USD")))
    || (IsReturn(code) && (DatasetOf(row) == PREF01N001 || DatasetOf(row) == PRFD01N001) && on.Some?)
  }

  function MetricEmission(lex: Lexicon, row: Row, f: Field): Option<Emission> {
    var m := MetricOf(DatasetOf(row), f);
    if m.None? || f !in row.cells || lex.decimal(row.cells[f]).None? then None
    else
      var currency, on := RowCurrency(lex, row), DateIn(lex, row, m.value.1);
      Draft(MetricSubject(lex, row), DatasetOf(row),
            Metric(m.value.0, on.GetOr(lex.snapshot), AssertionId(RecordOf(row), f)),
            Some(Observation(lex.decimal(row.cells[f]).value, currency, on, Comparable(row, m.value.0, currency, on))),
            Asserts(row, f))
  }

  function RatingEmission(lex: Lexicon, row: Row): Option<Emission> {
    if row.Bond? && crd_grd in row.cells && lex.rank(lex.upper(row.cells[crd_grd])).Some? then
      var on := DateIn(lex, row, crd_grd_dt);
      Draft(Support(row), PRBD01N001, CreditRating,
            Some(Observation(lex.rank(lex.upper(row.cells[crd_grd])).value as real, None,
                             if on.Some? then on else DateIn(lex, row, info_base_dt), true)),
            Asserts(row, crd_grd))
    else None
  }

  /** What a row emits at each of its slots. */
  function SlotEmission(lex: Lexicon, k: Knowledge, row: Row, s: Slot): Option<Emission> {
    match s
    case ScalarSlot(n) => ScalarEmission(lex, k, row, n)
    case ClassSlot(c) => ClassEmission(lex, k, row, c)
    case RelationSlot(r) => RelationEmission(lex, k, row, r)
    case MetricSlot(f) => MetricEmission(lex, row, f)
    case RatingSlot => RatingEmission(lex, row)
  }

  function SlotOf(key: Key): Slot
    requires !key.DisputedValue?
  {
    match key
    case Scalar(n) => ScalarSlot(n)
    case Class(c, _) => ClassSlot(c)
    case DisputedClass(c, _) => ClassSlot(c)
    case Related(r, _) => RelationSlot(r)
    case Metric(_, _, source) => MetricSlot(source.field)
    case CreditRating => RatingSlot
  }

  predicate RowEmits(lex: Lexicon, k: Knowledge, row: Row, em: Emission) {
    !em.fact.key.DisputedValue? && SlotEmission(lex, k, row, SlotOf(em.fact.key)) == Some(em)
  }
}
