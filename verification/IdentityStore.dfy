/** The canonical identity tables and the insert-or-ignore steps that the trusted
    holdings integrator runs over them, as functions from tables to tables. */
module IdentityStore {
  import opened Basics
  import opened TextForms

  /** A step either completes or raises; a raise rolls the whole transaction back. */
  datatype Outcome<+T> = Ok(value: T) | Raised(error: Error)

  datatype Error = UnreviewedProvider | SourceRowTaken | IssuerNotValidated

  // ------------------------------------------------------------ tables

  datatype Kind =
    | FinancialProduct | FundShareClass | SaleLot | Organization
    | Index | Currency | Country | Security

  datatype Entity = Entity(kind: Kind, validated: bool)

  /** `security:<scope>:<digest of value>` ids are the ones this integrator mints. */
  datatype EntityId = Minted(scope: string, value: string) | Given(text: string)

  datatype Key = Key(scheme: string, namespace: string, value: string)

  /** A row of entity_identifiers; `live` is VALIDATED with conflict status NONE. */
  datatype Identifier = Identifier(owner: EntityId, key: Key, live: bool, primary: bool)

  datatype CaseId = HoldingsCase(key: Key) | ForeignCase(text: string)
  datatype CollisionCase = CollisionCase(key: Key, open: bool, candidates: set<EntityId>)

  datatype SourceRow = SourceRow(snapshot: string, position: int)
  datatype HoldingRecord = HoldingRecord(product: Resolution, security: Resolution)

  /** Fact ids hash exactly these parts, so equal ids mean equal parts. */
  datatype FactId =
    | Holds(product: EntityId, snapshot: string, security: EntityId, date: int)
    | IssuedBy(security: EntityId, snapshot: string, organization: EntityId)

  datatype Tables = Tables(
    entities: map<EntityId, Entity>,
    productTypes: map<EntityId, string>,
    securities: map<EntityId, bool>,  // issuer_resolution_status == RESOLVED
    schemes: set<string>,
    identifiers: set<Identifier>,
    collisions: map<CaseId, CollisionCase>,
    sourceRows: map<string, SourceRow>,
    holdingRecords: map<string, HoldingRecord>,
    assertions: set<string>,
    facts: set<FactId>,
    relations: set<FactId>,
    details: map<FactId, string>,
    links: set<(FactId, string)>)

  // ------------------------------------------------------------ rows

  datatype IdentityStatus = VerifiedIdentifier | SourceIdOnly | NameOnly | NonSecurityPosition | UnresolvedIdentity
  datatype Provider = Kodex | Tiger | IShares | Unreviewed

  /** One provider holding; "" stands for an absent optional field: no branch tells the
      two apart. */
  datatype Holding = Holding(
    recordId: string,
    domestic: bool,
    productSourceId: string, productIsin: string, productTicker: string, productExchange: string,
    constituentIsin: string, constituentTicker: string, constituentExchange: string,
    constituentSourceId: string,
    identity: IdentityStatus,
    provider: Provider,
    effectiveDate: int)

  datatype Resolution = Resolved(entity: EntityId) | Ambiguous | Unresolved | NonSecurity

  datatype Config = Config(snapshot: string, issuers: map<Key, EntityId>)

  function ProductNamespace(p: Provider): string {
    match p
    case Kodex => "KODEX"
    case Tiger => "TIGER"
    case IShares => "ISHARES_US"
    case Unreviewed => ""
  }

  function SecurityNamespace(p: Provider): string {
    match p
    case Kodex => "KODEX_SECURITY"
    case Tiger => "TIGER_SECURITY"
    case IShares => "ISHARES_HOLDING"
    case Unreviewed => ""
  }

  function TickerNamespace(exchange: string, domestic: bool): string {
    if exchange != "" then exchange else if domestic then "KRX" else ""
  }

  /** The identifier keys a security may be found under, in lookup order. */
  function Candidates(row: Holding): seq<Key> {
    var ns := TickerNamespace(row.constituentExchange, row.domestic);
    (if row.constituentIsin != ""
     then [Key("ISIN", "iso-6166", Normalized(row.constituentIsin))] else [])
    + (if row.constituentTicker != "" && ns != ""
       then [Key("TICKER", ns, Normalized(row.constituentTicker))] else [])
    + (if row.constituentSourceId != ""
       then [Key("PROVIDER_SOURCE_ID", SecurityNamespace(row.provider), Normalized(row.constituentSourceId))] else [])
  }

  /** The identifier that may found a new Security; a name never does. */
  function FoundingIdentity(row: Holding): Option<Key> {
    var ns := TickerNamespace(row.constituentExchange, row.domestic);
    if row.constituentIsin != "" && row.identity == VerifiedIdentifier then
      Some(Key("ISIN", "iso-6166", Upper(row.constituentIsin)))
    else if row.constituentTicker != "" && ns != "" then
      Some(Key("TICKER", ns, Upper(row.constituentTicker)))
    else if row.constituentSourceId != "" && IsSixDigits(row.constituentSourceId) then
      Some(Key("PROVIDER_SOURCE_ID", SecurityNamespace(row.provider), row.constituentSourceId))
    else
      None
  }

  function MintedId(identity: Key): EntityId {
    Minted(Lower(identity.namespace), identity.value)
  }

  // ------------------------------------------------------------ identifier lookup

  predicate HasOpenCase(t: Tables, key: Key) {
    exists c :: c in t.collisions && t.collisions[c].key == key && t.collisions[c].open
  }

  function LiveOwners(t: Tables, key: Key, kind: Kind): set<EntityId> {
    set r | r in t.identifiers && r.key == key && r.live
            && r.owner in t.entities && t.entities[r.owner].kind == kind :: r.owner
  }

  ghost function Only<T>(s: set<T>): (x: T)
    requires |s| == 1
    ensures s == {x}
  {
    var x :| x in s;
    assert |s - {x}| == 0;
    x
  }

  function OpenCollision(t: Tables, key: Key, owners: set<EntityId>): Tables {
    if HoldingsCase(key) in t.collisions || HasOpenCase(t, key) then t
    else t.(collisions := t.collisions[HoldingsCase(key) := CollisionCase(key, true, owners)])
  }

  /** `_identifier`: fail closed on an open case or several owners, and open a case for the latter. */
  ghost function LookUp(t: Tables, key: Key, kind: Kind): (Tables, Resolution) {
    var owners := LiveOwners(t, key, kind);
    if HasOpenCase(t, key) then (t, Ambiguous)
    else if |owners| == 1 then (t, Resolved(Only(owners)))
    else if |owners| > 1 then (OpenCollision(t, key, owners), Ambiguous)
    else (t, Unresolved)
  }

  // ------------------------------------------------------------ products

  function RequireEtf(t: Tables, r: Resolution): Resolution {
    if !r.Resolved? then r
    else if r.entity in t.productTypes && t.productTypes[r.entity] == "ETF" then r
    else Unresolved
  }

  ghost function ProductByProviderId(t: Tables, row: Holding): Outcome<(Tables, Resolution)> {
    if row.provider == Unreviewed then Raised(UnreviewedProvider)
    else
      var (t', r) := LookUp(t, Key("PROVIDER_SOURCE_ID", ProductNamespace(row.provider), Normalized(row.productSourceId)), FinancialProduct);
      Ok((t', RequireEtf(t', r)))
  }

  ghost function ProductByTicker(t: Tables, row: Holding): Outcome<(Tables, Resolution)> {
    var ns := TickerNamespace(row.productExchange, row.domestic);
    if row.productTicker != "" && ns != "" then
      var (t', r) := LookUp(t, Key("TICKER", ns, Normalized(row.productTicker)), FinancialProduct);
      if r != Unresolved then Ok((t', RequireEtf(t', r))) else ProductByProviderId(t', row)
    else ProductByProviderId(t, row)
  }

  ghost function ResolveProduct(t: Tables, row: Holding): Outcome<(Tables, Resolution)> {
    if row.productIsin != "" then
      var (t', r) := LookUp(t, Key("ISIN", "iso-6166", Normalized(row.productIsin)), FinancialProduct);
      if r != Unresolved then Ok((t', RequireEtf(t', r))) else ProductByTicker(t', row)
    else ProductByTicker(t, row)
  }

  // ------------------------------------------------------------ securities

  /** The candidate loop: None once a candidate is ambiguous, else the owners found so far. */
  ghost function FoundOwners(t: Tables, keys: seq<Key>, found: set<EntityId>): (Tables, Option<set<EntityId>>)
    decreases |keys|
  {
    if keys == [] then (t, Some(found))
    else
      var (t', r) := LookUp(t, keys[0], Security);
      match r
      case Ambiguous => (t', None)
      case Resolved(e) => FoundOwners(t', keys[1..], found + {e})
      case _ => FoundOwners(t', keys[1..], found)
  }

  predicate Blocked(t: Tables, owner: EntityId, key: Key) {
    exists r :: r in t.identifiers && r.key == key && (r.owner == owner || r.live)
  }

  /** One insert-or-ignore into entity_identifiers: blocked by the same (entity, key)
      or, through the partial unique index, by any live row under the key. */
  function AttachOne(t: Tables, owner: EntityId, key: Key, primary: bool): Tables {
    var u := t.(schemes := t.schemes + {key.scheme});
    if Blocked(t, owner, key) then u
    else u.(identifiers := t.identifiers + {Identifier(owner, key, true, primary)})
  }

  function Attach(t: Tables, owner: EntityId, keys: seq<Key>, primary: Option<Key>): Tables
    decreases |keys|
  {
    if keys == [] then t
    else Attach(AttachOne(t, owner, keys[0], primary == Some(keys[0])), owner, keys[1..], primary)
  }

  function InsertSecurity(t: Tables, s: EntityId): Tables {
    t.(entities := if s in t.entities then t.entities else t.entities[s := Entity(Security, true)],
       securities := if s in t.securities then t.securities else t.securities[s := false])
  }

  datatype SecurityStep = SecurityStep(tables: Tables, resolution: Resolution, created: bool)

  ghost function ResolveSecurity(t: Tables, row: Holding): Outcome<SecurityStep> {
    if row.identity == NonSecurityPosition then Ok(SecurityStep(t, NonSecurity, false))
    else if row.provider == Unreviewed then Raised(UnreviewedProvider)
    else
      var keys := Candidates(row);
      var (u, found) := FoundOwners(t, keys, {});
      if found.None? || |found.value| > 1 then Ok(SecurityStep(u, Ambiguous, false))
      else if |found.value| == 1 then
        var s := Only(found.value);
        Ok(SecurityStep(Attach(u, s, keys, None), Resolved(s), false))
      else
        match FoundingIdentity(row)
        case None => Ok(SecurityStep(u, Unresolved, false))
        case Some(identity) =>
          var s := MintedId(identity);
          Ok(SecurityStep(Attach(InsertSecurity(u, s), s, keys, Some(identity)), Resolved(s), true))
  }

  // ------------------------------------------------------------ record and facts

  predicate PositionTaken(t: Tables, cfg: Config, position: int) {
    exists id :: id in t.sourceRows && t.sourceRows[id] == SourceRow(cfg.snapshot, position)
  }

  /** The source record is unique by id and by (snapshot, row number); the holding record
      and the assertion refer to it, so an ignored source record with no row raises. */
  function RecordHolding(t: Tables, cfg: Config, row: Holding, position: int,
                         product: Resolution, security: Resolution): Outcome<Tables> {
    if row.recordId !in t.sourceRows && PositionTaken(t, cfg, position) then Raised(SourceRowTaken)
    else
      Ok(t.(sourceRows := if row.recordId in t.sourceRows then t.sourceRows
                          else t.sourceRows[row.recordId := SourceRow(cfg.snapshot, position)],
            holdingRecords := if row.recordId in t.holdingRecords then t.holdingRecords
                              else t.holdingRecords[row.recordId := HoldingRecord(product, security)],
            assertions := t.assertions + {row.recordId}))
  }

  function HoldsFact(cfg: Config, row: Holding, product: EntityId, security: EntityId): FactId {
    Holds(product, cfg.snapshot, security, row.effectiveDate)
  }

  function UpsertHolds(t: Tables, row: Holding, fact: FactId): Tables {
    t.(facts := t.facts + {fact},
       relations := t.relations + {fact},
       details := if fact in t.details then t.details else t.details[fact := row.recordId],
       links := t.links + {(fact, row.recordId)})
  }

  function IssuerKeys(row: Holding): seq<Key> {
    var ns := TickerNamespace(row.constituentExchange, row.domestic);
    (if row.constituentIsin != "" then [Key("ISIN", "iso-6166", Upper(row.constituentIsin))] else [])
    + (if row.constituentTicker != "" && ns != "" then [Key("TICKER", ns, Upper(row.constituentTicker))] else [])
    + (if row.constituentSourceId != ""
       then [Key("PROVIDER_SOURCE_ID", SecurityNamespace(row.provider), Upper(row.constituentSourceId))] else [])
  }

  function FirstMapped(issuers: map<Key, EntityId>, keys: seq<Key>): Option<EntityId> {
    if keys == [] then None
    else if keys[0] in issuers then Some(issuers[keys[0]])
    else FirstMapped(issuers, keys[1..])
  }

  predicate IsValidatedOrganization(t: Tables, e: EntityId) {
    e in t.entities && t.entities[e] == Entity(Organization, true)
  }

  /** None when no issuer is mapped. */
  function UpsertIssuer(t: Tables, cfg: Config, row: Holding, security: EntityId): Outcome<Option<Tables>> {
    match FirstMapped(cfg.issuers, IssuerKeys(row))
    case None => Ok(None)
    case Some(org) =>
      if !IsValidatedOrganization(t, org) then Raised(IssuerNotValidated)
      else
        var fact := IssuedBy(security, cfg.snapshot, org);
        Ok(Some(t.(facts := t.facts + {fact},
                   relations := t.relations + {fact},
                   links := t.links + {(fact, row.recordId)},
                   securities := if security in t.securities then t.securities[security := true] else t.securities)))
  }

  // ------------------------------------------------------------ one row, and a run

  datatype RowStep = RowStep(
    tables: Tables, product: Resolution, security: Resolution,
    created: bool, inserted: bool, issued: bool)

  predicate Eligible(s: RowStep) {
    s.product.Resolved? && s.security.Resolved?
  }

  ghost function Step(t: Tables, cfg: Config, row: Holding, position: int): Outcome<RowStep> {
    match ResolveProduct(t, row)
    case Raised(e) => Raised(e)
    case Ok((t1, product)) =>
      match ResolveSecurity(t1, row)
      case Raised(e) => Raised(e)
      case Ok(SecurityStep(t2, security, created)) =>
        match RecordHolding(t2, cfg, row, position, product, security)
        case Raised(e) => Raised(e)
        case Ok(t3) =>
          if !(product.Resolved? && security.Resolved?) then
            Ok(RowStep(t3, product, security, created, false, false))
          else
            var fact := HoldsFact(cfg, row, product.entity, security.entity);
            var t4 := UpsertHolds(t3, row, fact);
            match UpsertIssuer(t4, cfg, row, security.entity)
            case Raised(e) => Raised(e)
            case Ok(None) => Ok(RowStep(t4, product, security, created, fact !in t3.facts, false))
            case Ok(Some(t5)) => Ok(RowStep(t5, product, security, created, fact !in t3.facts, true))
  }

  datatype Report = Report(
    constituents: nat,
    productResolved: nat, productAmbiguous: nat, productUnresolved: nat,
    securityResolved: nat, securityCreated: nat, securityAmbiguous: nat, securityUnresolved: nat,
    nonSecurity: nat, collisions: nat,
    eligible: nat, holdsFacts: nat, deduplicated: nat,
    issuerResolved: nat, issuerUnresolved: nat)

  const EMPTY_REPORT := Report(0, 0, 0, 0, 0, 0, 0, 0, 0, 0, 0, 0, 0, 0, 0)

  function Bit(b: bool): nat { if b then 1 else 0 }

  function Count(r: Report, s: RowStep): Report {
    Report(
      r.constituents + 1,
      r.productResolved + Bit(s.product.Resolved?),
      r.productAmbiguous + Bit(s.product.Ambiguous?),
      r.productUnresolved + Bit(s.product.Unresolved?),
      r.securityResolved + Bit(s.security.Resolved?),
      r.securityCreated + Bit(s.created),
      r.securityAmbiguous + Bit(s.security.Ambiguous?),
      r.securityUnresolved + Bit(s.security.Unresolved?),
      r.nonSecurity + Bit(s.security.NonSecurity?),
      r.collisions + Bit(s.product.Ambiguous?) + Bit(s.security.Ambiguous?),
      r.eligible + Bit(Eligible(s)),
      r.holdsFacts + Bit(s.inserted),
      r.deduplicated + Bit(Eligible(s) && !s.inserted),
      r.issuerResolved + Bit(s.issued),
      r.issuerUnresolved + Bit(Eligible(s) && !s.issued))
  }

  datatype RunResult = RunResult(tables: Tables, steps: seq<RowStep>)

  /** The rows from `position` on; row numbers start at 1. */
  ghost function Run(t: Tables, cfg: Config, rows: seq<Holding>, position: int): Outcome<RunResult>
    decreases |rows|
  {
    if rows == [] then Ok(RunResult(t, []))
    else
      match Step(t, cfg, rows[0], position)
      case Raised(e) => Raised(e)
      case Ok(s) =>
        match Run(s.tables, cfg, rows[1..], position + 1)
        case Raised(e) => Raised(e)
        case Ok(rest) => Ok(RunResult(rest.tables, [s] + rest.steps))
  }

  /** The report of a run, tallied row by row. */
  function Tally(steps: seq<RowStep>): Report {
    if steps == [] then EMPTY_REPORT
    else Count(Tally(steps[..|steps| - 1]), steps[|steps| - 1])
  }

  ghost function Integrate(t: Tables, cfg: Config, rows: seq<Holding>): Outcome<RunResult> {
    Run(t, cfg, rows, 1)
  }
}
