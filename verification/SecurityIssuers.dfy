/** Projecting issuer records onto canonical organizations: tables, one row, a whole run. */
module SecurityIssuers {
  import opened Basics

  datatype Standing = RESOLVED | AMBIGUOUS | CONFLICT | UNRESOLVED

  datatype Row = Row(id: string, ticker: string, issuer: string, name: string)

  /** Readings of text: the key of a legal name, the form under which an alias is unique, the form
      an identifier is stored in, and the form a new organization id is made of. */
  datatype Lexicon = Lexicon(nameKey: string -> string, aliasForm: string -> string, upper: string -> string, fold: string -> string)

  /** How an issuer record is classified: its security, its issuer, and the relation of the two. */
  datatype Record = Record(security: Standing, issuer: Standing, relation: Standing)

  /** Organizations with preferred names, their aliases by unique form, the owner of each provider
      identifier, issuer records, facts (security, organization), and their evidence by record. */
  datatype Tables = Tables(
    orgs: map<string, Option<string>>,
    aliases: map<(string, string), string>,
    owners: map<string, string>,
    records: map<string, Record>,
    facts: set<(string, string)>,
    links: set<((string, string), string)>)

  datatype Report = Report(
    resolved: nat, ambiguous: nat, conflict: nat, unresolved: nat,
    orgExisting: int, orgCreated: nat, orgAmbiguous: nat, orgConflict: nat,
    facts: nat, evidence: nat, deduplicated: nat)

  const EMPTY_REPORT := Report(0, 0, 0, 0, 0, 0, 0, 0, 0, 0, 0)

  /** What a run consults and does not write: the securities that own each ticker. */
  type Tickers = map<string, set<string>>

  // ------------------------------------------------------------ conflicts inside the source

  /** One ticker, two issuers. */
  predicate TickerConflict(rows: seq<Row>, ticker: string) {
    exists r, s :: r in rows && s in rows && r.ticker == ticker && s.ticker == ticker && r.issuer != s.issuer
  }

  /** One issuer, two legal names. */
  predicate IssuerConflict(lex: Lexicon, rows: seq<Row>, issuer: string) {
    exists r, s :: r in rows && s in rows && r.issuer == issuer && s.issuer == issuer && lex.nameKey(r.name) != lex.nameKey(s.name)
  }

  datatype Conflicts = Conflicts(tickers: set<string>, issuers: set<string>)

  ghost predicate AreConflicts(lex: Lexicon, rows: seq<Row>, c: Conflicts) {
    && (forall t :: t in c.tickers <==> TickerConflict(rows, t))
    && (forall i :: i in c.issuers <==> IssuerConflict(lex, rows, i))
  }

  // ------------------------------------------------------------ one row

  predicate IsOne(s: set<string>) {
    exists x :: x in s && s == {x}
  }

  function TheOne(s: set<string>): (x: string)
    requires IsOne(s)
    ensures s == {x}
  {
    var x :| x in s && s == {x};
    x
  }

  function FindSecurity(tickers: Tickers, row: Row): (Standing, Option<string>) {
    var owners := if row.ticker in tickers then tickers[row.ticker] else {};
    if owners == {} then (UNRESOLVED, None)
    else if IsOne(owners) then (RESOLVED, Some(TheOne(owners)))
    else (AMBIGUOUS, None)
  }

  /** A ticker that the source gives two issuers has no security. */
  function SecurityOf(tickers: Tickers, c: Conflicts, row: Row): (Standing, Option<string>) {
    if row.ticker in c.tickers then (CONFLICT, None) else FindSecurity(tickers, row)
  }

  function Relation(security: Standing, issuer: Standing): Standing {
    if security == RESOLVED && issuer == RESOLVED then RESOLVED
    else if security == CONFLICT || issuer == CONFLICT then CONFLICT
    else if security == AMBIGUOUS || issuer == AMBIGUOUS then AMBIGUOUS
    else UNRESOLVED
  }

  function RecordOf(security: Standing, issuer: Standing): Record {
    Record(security, issuer, Relation(security, issuer))
  }

  /** Insert-or-ignore of the issuer record. */
  function Recorded(t: Tables, row: Row, rec: Record): Tables {
    if row.id in t.records then t else t.(records := t.records[row.id := rec])
  }

  function Updated(t: Tables, row: Row, rec: Record): Tables {
    t.(records := t.records[row.id := rec])
  }

  /** An identifier belongs to the first organization that took it. */
  function WithIdentifier(lex: Lexicon, t: Tables, org: string, issuer: string): Tables {
    if lex.upper(issuer) in t.owners then t else t.(owners := t.owners[lex.upper(issuer) := org])
  }

  function WithAlias(lex: Lexicon, t: Tables, org: string, name: string): Tables {
    if (org, lex.aliasForm(name)) in t.aliases then t else t.(aliases := t.aliases[(org, lex.aliasForm(name)) := name])
  }

  /** The organization goes by a name with this key. */
  predicate GoesBy(lex: Lexicon, t: Tables, org: string, key: string) {
    && org in t.orgs
    && ((t.orgs[org].Some? && lex.nameKey(t.orgs[org].value) == key)
        || exists p :: p in t.aliases && p.0 == org && lex.nameKey(t.aliases[p]) == key)
  }

  function NameCandidates(lex: Lexicon, t: Tables, key: string): set<string> {
    set org | org in t.orgs && GoesBy(lex, t, org, key)
  }

  function NewOrganization(lex: Lexicon, issuer: string): string {
    "organization:krx-kind:" + lex.fold(issuer)
  }

  datatype Found = Existing(org: string) | Created(org: string) | Several

  /** By identifier, else by a name that one organization goes by, else a new organization. */
  function FindOrganization(lex: Lexicon, t: Tables, row: Row): Found {
    if row.issuer in t.owners then Existing(t.owners[row.issuer])
    else
      var candidates := NameCandidates(lex, t, lex.nameKey(row.name));
      if candidates == {} then Created(NewOrganization(lex, row.issuer))
      else if IsOne(candidates) then Existing(TheOne(candidates))
      else Several
  }

  function Organized(lex: Lexicon, t: Tables, row: Row): Tables {
    match FindOrganization(lex, t, row)
    case Several => t
    case Existing(org) =>
      if row.issuer in t.owners then WithAlias(lex, t, org, row.name)
      else WithAlias(lex, WithIdentifier(lex, t, org, row.issuer), org, row.name)
    case Created(org) =>
      var known := if org in t.orgs then t else t.(orgs := t.orgs[org := Some(row.name)]);
      WithAlias(lex, WithIdentifier(lex, known, org, row.issuer), org, row.name)
  }

  function Counted(r: Report, security: Standing): Report {
    match security
    case RESOLVED => r.(resolved := r.resolved + 1)
    case AMBIGUOUS => r.(ambiguous := r.ambiguous + 1)
    case CONFLICT => r.(conflict := r.conflict + 1)
    case UNRESOLVED => r.(unresolved := r.unresolved + 1)
  }

  /** The run's fixed context. */
  datatype Context = Context(lex: Lexicon, tickers: Tickers, conflicts: Conflicts)

  /** Tables, report, and the last resolution written on each security. */
  datatype State = State(tables: Tables, report: Report, securities: map<string, Standing>)

  function IssuerStanding(c: Context, row: Row): Standing {
    if row.issuer in c.conflicts.issuers then CONFLICT else RESOLVED
  }

  /** The rest of a row whose security is known and whose issuer is undisputed. */
  function Issue(lex: Lexicon, st: State, row: Row, security: string): State {
    var t, r, found := st.tables, st.report, FindOrganization(lex, st.tables, row);
    if found == Several then
      State(Updated(t, row, RecordOf(RESOLVED, AMBIGUOUS)), r.(orgAmbiguous := r.orgAmbiguous + 1), st.securities[security := AMBIGUOUS])
    else
      var fact := (security, found.org);
      var t' := Updated(Organized(lex, t, row), row, RecordOf(RESOLVED, RESOLVED));
      State(
        t'.(facts := t'.facts + {fact}, links := t'.links + {(fact, row.id)}),
        r.(orgExisting := if found.Created? then r.orgExisting else r.orgExisting + 1,
           orgCreated := if found.Created? then r.orgCreated + 1 else r.orgCreated,
           facts := if fact in t'.facts then r.facts else r.facts + 1,
           deduplicated := if fact in t'.facts then r.deduplicated + 1 else r.deduplicated,
           evidence := r.evidence + 1),
        st.securities[security := RESOLVED])
  }

  /** One issuer record. */
  function Step(c: Context, st: State, row: Row): State {
    var (standing, security) := SecurityOf(c.tickers, c.conflicts, row);
    var t := Recorded(st.tables, row, RecordOf(standing, IssuerStanding(c, row)));
    var r := Counted(st.report, standing);
    if security.None? then State(t, r, st.securities)
    else if row.issuer in c.conflicts.issuers then
      State(t, r.(orgConflict := r.orgConflict + 1), st.securities[security.value := UNRESOLVED])
    else Issue(c.lex, State(t, r, st.securities), row, security.value)
  }

  function Run(c: Context, st: State, rows: seq<Row>): State
    decreases |rows|
  {
    if rows == [] then st else Run(c, Step(c, st, rows[0]), rows[1..])
  }

  // ------------------------------------------------------------ counts

  ghost predicate Balanced(r: Report) {
    && r.orgExisting + r.orgCreated + r.orgAmbiguous + r.orgConflict == r.resolved
    && r.facts + r.deduplicated == r.evidence == r.orgExisting + r.orgCreated
    && r.orgExisting >= 0
  }

  lemma StepBalances(c: Context, st: State, row: Row)
    requires Balanced(st.report)
    ensures Balanced(Step(c, st, row).report)
    ensures var r, r' := st.report, Step(c, st, row).report;
      r'.resolved + r'.ambiguous + r'.conflict + r'.unresolved == r.resolved + r.ambiguous + r.conflict + r.unresolved + 1
  {
    hide FindOrganization, Organized, TheOne, IsOne;
  }

  /** Every record is counted once by its security, every resolved one once by its organization,
      and each organization found gives a new fact or a repeated one, with evidence. */
  lemma {:induction false} ReportBalances(c: Context, st: State, rows: seq<Row>)
    requires Balanced(st.report)
    ensures Balanced(Run(c, st, rows).report)
    ensures var r, r' := st.report, Run(c, st, rows).report;
      r'.resolved + r'.ambiguous + r'.conflict + r'.unresolved == r.resolved + r.ambiguous + r.conflict + r.unresolved + |rows|
    decreases |rows|
  {
    hide Step;
    if rows != [] {
      StepBalances(c, st, rows[0]);
      ReportBalances(c, Step(c, st, rows[0]), rows[1..]);
    }
  }

  // ------------------------------------------------------------ resolved means evidenced

  ghost predicate Evidenced(t: Tables, id: string) {
    exists fact :: fact in t.facts && (fact, id) in t.links
  }

  /** A record is resolved exactly when a fact is evidenced by its own assertion, and nothing is
      evidenced by a record that is not there. */
  ghost predicate RecordsTell(t: Tables) {
    && (forall id :: id in t.records ==> (t.records[id].relation == RESOLVED <==> Evidenced(t, id)))
    && (forall fact, id :: (fact, id) in t.links ==> id in t.records && fact in t.facts)
  }

  lemma ClaimsLeave(lex: Lexicon, t: Tables, org: string, row: Row)
    ensures var u := WithIdentifier(lex, t, org, row.issuer);
      u.records == t.records && u.facts == t.facts && u.links == t.links
    ensures var u := WithAlias(lex, t, org, row.name);
      u.records == t.records && u.facts == t.facts && u.links == t.links
  {
  }

  /** Resolving an organization leaves records, facts and links alone, and only adds to the rest. */
  lemma OrganizedLeaves(lex: Lexicon, t: Tables, row: Row)
    ensures var t' := Organized(lex, t, row);
      t'.records == t.records && t'.facts == t.facts && t'.links == t.links
  {
    forall u, org { ClaimsLeave(lex, u, org, row); }
    hide FindOrganization, WithIdentifier, WithAlias;
  }

  /** The fact the row asserts in this state, when it gets that far. */
  function FactOf(c: Context, t: Tables, row: Row): Option<(string, string)> {
    var security := SecurityOf(c.tickers, c.conflicts, row).1;
    var found := FindOrganization(c.lex, t, row);
    if security.None? || row.issuer in c.conflicts.issuers || found == Several then None
    else Some((security.value, found.org))
  }

  /** What the record of a row says after its step. */
  function RecordAfter(c: Context, t: Tables, row: Row): Record {
    var (standing, security) := SecurityOf(c.tickers, c.conflicts, row);
    if security.None? || row.issuer in c.conflicts.issuers then
      if row.id in t.records then t.records[row.id] else RecordOf(standing, IssuerStanding(c, row))
    else RecordOf(standing, if FindOrganization(c.lex, t, row) == Several then AMBIGUOUS else RESOLVED)
  }

  lemma FindLooksAtNames(lex: Lexicon, t: Tables, u: Tables, row: Row)
    requires t.orgs == u.orgs && t.aliases == u.aliases && t.owners == u.owners
    ensures FindOrganization(lex, t, row) == FindOrganization(lex, u, row)
  {
    assert NameCandidates(lex, t, lex.nameKey(row.name)) == NameCandidates(lex, u, lex.nameKey(row.name));
  }

  lemma RecordWrites(t: Tables, row: Row, first: Record, last: Record)
    ensures var u := Recorded(t, row, first);
      && u.(records := t.records) == t
      && u.records == t.records[row.id := if row.id in t.records then t.records[row.id] else first]
      && u.records[row.id := last] == t.records[row.id := last]
  {
  }

  lemma StepWrites(c: Context, st: State, row: Row)
    ensures var t, t' := st.tables, Step(c, st, row).tables;
      && t'.records == t.records[row.id := RecordAfter(c, t, row)]
      && (if FactOf(c, t, row).None? then t'.facts == t.facts && t'.links == t.links
          else t'.facts == t.facts + {FactOf(c, t, row).value} && t'.links == t.links + {(FactOf(c, t, row).value, row.id)})
  {
    var (standing, security) := SecurityOf(c.tickers, c.conflicts, row);
    var first := RecordOf(standing, IssuerStanding(c, row));
    var t := Recorded(st.tables, row, first);
    RecordWrites(st.tables, row, first, RecordAfter(c, st.tables, row));
    FindLooksAtNames(c.lex, st.tables, t, row);
    OrganizedLeaves(c.lex, t, row);
    hide FindOrganization, Organized, SecurityOf, Recorded, RecordOf, Counted, IssuerStanding;
  }

  lemma SecurityIsResolved(c: Context, row: Row)
    ensures SecurityOf(c.tickers, c.conflicts, row).1.Some? <==> SecurityOf(c.tickers, c.conflicts, row).0 == RESOLVED
  {
    hide TheOne, IsOne;
  }

  lemma StepTells(c: Context, st: State, row: Row)
    requires RecordsTell(st.tables) && row.id !in st.tables.records
    ensures RecordsTell(Step(c, st, row).tables)
    ensures Step(c, st, row).tables.records.Keys == st.tables.records.Keys + {row.id}
  {
    StepWrites(c, st, row);
    SecurityIsResolved(c, row);
    var t, t' := st.tables, Step(c, st, row).tables;
    hide Step, FindOrganization, SecurityOf;
    var fact := FactOf(c, t, row);
    assert RecordAfter(c, t, row).relation == RESOLVED <==> fact.Some?;
    forall id | id in t'.records ensures t'.records[id].relation == RESOLVED <==> Evidenced(t', id) {
      if id == row.id {
        if fact.Some? { assert fact.value in t'.facts && (fact.value, id) in t'.links; }
      } else {
        if Evidenced(t, id) {
          var f :| f in t.facts && (f, id) in t.links;
          assert f in t'.facts && (f, id) in t'.links;
        }
      }
    }
  }

  ghost predicate DistinctRows(rows: seq<Row>) {
    forall i, j :: 0 <= i < j < |rows| ==> rows[i].id != rows[j].id
  }

  /** After a run over new records, a record is resolved exactly when a security-issued-by fact is
      evidenced by that record's own assertion. */
  lemma {:induction false} ResolvedIffEvidenced(c: Context, st: State, rows: seq<Row>)
    requires RecordsTell(st.tables) && DistinctRows(rows) && forall r :: r in rows ==> r.id !in st.tables.records
    ensures RecordsTell(Run(c, st, rows).tables)
    ensures forall r :: r in rows ==> r.id in Run(c, st, rows).tables.records
    ensures st.tables.records.Keys <= Run(c, st, rows).tables.records.Keys
    decreases |rows|
  {
    hide Step;
    if rows != [] {
      StepTells(c, st, rows[0]);
      var rest := rows[1..];
      forall r | r in rest ensures r.id != rows[0].id {
        var i :| 0 <= i < |rest| && rest[i] == r;
        assert rows[i + 1] == r;
      }
      ResolvedIffEvidenced(c, Step(c, st, rows[0]), rest);
      assert forall r :: r in rows ==> r == rows[0] || r in rest;
    }
  }

  // ------------------------------------------------------------ integrating twice

  predicate Stands(t: Tables, id: string, rec: Record) {
    id in t.records && t.records[id] == rec
  }

  /** The organization has the row's identifier, alias and fact, with the row's own evidence. */
  predicate Posted(lex: Lexicon, t: Tables, row: Row, security: string, org: string) {
    && (row.issuer in t.owners || lex.upper(row.issuer) in t.owners)
    && (org, lex.aliasForm(row.name)) in t.aliases
    && Stands(t, row.id, RecordOf(RESOLVED, RESOLVED))
    && (security, org) in t.facts && ((security, org), row.id) in t.links
  }

  /** Nothing is left to write for the row: if it has a security and an undisputed issuer, its record
      says what the tables now resolve the issuer to, and the organization is posted. */
  predicate AtRest(c: Context, t: Tables, row: Row) {
    var security := SecurityOf(c.tickers, c.conflicts, row).1;
    security.Some? && row.issuer !in c.conflicts.issuers ==>
      match FindOrganization(c.lex, t, row)
      case Several => Stands(t, row.id, RecordOf(RESOLVED, AMBIGUOUS))
      case Existing(org) => Posted(c.lex, t, row, security.value, org)
      case Created(org) => org in t.orgs && Posted(c.lex, t, row, security.value, org)
  }

  /** The row has reached its final standing: taking it again leaves every table as it is. */
  ghost predicate Settled(c: Context, t: Tables, row: Row) {
    var security := SecurityOf(c.tickers, c.conflicts, row).1;
    && row.id in t.records
    && (security.Some? && row.issuer !in c.conflicts.issuers ==>
          if row.issuer in t.owners then
            var fact := (security.value, t.owners[row.issuer]);
            && (t.owners[row.issuer], c.lex.aliasForm(row.name)) in t.aliases
            && t.records[row.id] == RecordOf(RESOLVED, RESOLVED)
            && fact in t.facts && (fact, row.id) in t.links
          else
            && AnySeveral(c.lex, t, c.lex.nameKey(row.name))
            && t.records[row.id] == RecordOf(RESOLVED, AMBIGUOUS))
  }

  /** More than one organization goes by the name. */
  ghost predicate AnySeveral(lex: Lexicon, t: Tables, key: string) {
    exists o, p :: o != p && GoesBy(lex, t, o, key) && GoesBy(lex, t, p, key)
  }

  lemma SeveralIff(lex: Lexicon, t: Tables, row: Row)
    ensures FindOrganization(lex, t, row) == Several <==> row.issuer !in t.owners && AnySeveral(lex, t, lex.nameKey(row.name))
  {
    var key := lex.nameKey(row.name);
    var candidates := NameCandidates(lex, t, key);
    hide GoesBy;
    assert forall o :: o in candidates <==> GoesBy(lex, t, o, key) by { CandidatesGoBy(lex, t, key); }
    if candidates != {} && !IsOne(candidates) {
      var o :| o in candidates;
      assert candidates != {o};
      var p :| p in candidates && p != o;
    }
  }

  lemma CandidatesGoBy(lex: Lexicon, t: Tables, key: string)
    ensures forall o :: o in NameCandidates(lex, t, key) <==> GoesBy(lex, t, o, key)
  {
  }

  lemma SettledStays(c: Context, st: State, row: Row)
    requires Settled(c, st.tables, row)
    ensures Step(c, st, row).tables == st.tables
    ensures var r, r' := st.report, Step(c, st, row).report;
      r'.facts == r.facts && r'.orgCreated == r.orgCreated && r'.deduplicated - r.deduplicated == r'.evidence - r.evidence
  {
    SeveralIff(c.lex, st.tables, row);
    SecurityIsResolved(c, row);
    hide SecurityOf, NameCandidates, AnySeveral, IsOne, TheOne;
    assert Recorded(st.tables, row, RecordOf(SecurityOf(c.tickers, c.conflicts, row).0, IssuerStanding(c, row))) == st.tables;
  }

  /** Organizations keep their names, aliases and identifiers keep their owners. */
  ghost predicate Grows(t: Tables, t': Tables) {
    && (forall o :: o in t.orgs ==> o in t'.orgs && t'.orgs[o] == t.orgs[o])
    && (forall p :: p in t.aliases ==> p in t'.aliases && t'.aliases[p] == t.aliases[p])
    && (forall i :: i in t.owners ==> i in t'.owners && t'.owners[i] == t.owners[i])
    && t.facts <= t'.facts && t.links <= t'.links
  }

  lemma IdentifierGrows(lex: Lexicon, t: Tables, org: string, issuer: string)
    ensures Grows(t, WithIdentifier(lex, t, org, issuer))
    ensures forall i :: i in WithIdentifier(lex, t, org, issuer).owners && i !in t.owners ==> i == lex.upper(issuer)
  {
  }

  lemma AliasGrows(lex: Lexicon, t: Tables, org: string, name: string)
    ensures Grows(t, WithAlias(lex, t, org, name)) && WithAlias(lex, t, org, name).owners == t.owners
  {
  }

  lemma GrowsTransitive(t: Tables, u: Tables, v: Tables)
    requires Grows(t, u) && Grows(u, v)
    ensures Grows(t, v)
  {
  }

  lemma ClaimGrows(lex: Lexicon, t: Tables, org: string, row: Row)
    ensures var v := WithAlias(lex, WithIdentifier(lex, t, org, row.issuer), org, row.name);
      Grows(t, v) && forall i :: i in v.owners && i !in t.owners ==> i == lex.upper(row.issuer)
  {
    var u := WithIdentifier(lex, t, org, row.issuer);
    IdentifierGrows(lex, t, org, row.issuer);
    AliasGrows(lex, u, org, row.name);
    GrowsTransitive(t, u, WithAlias(lex, u, org, row.name));
    hide WithAlias, WithIdentifier, Grows;
  }

  lemma OrganizedGrows(lex: Lexicon, t: Tables, row: Row)
    ensures Grows(t, Organized(lex, t, row))
    ensures forall i :: i in Organized(lex, t, row).owners && i !in t.owners ==> i == lex.upper(row.issuer)
  {
    var found := FindOrganization(lex, t, row);
    if found.Existing? {
      AliasGrows(lex, t, found.org, row.name);
      ClaimGrows(lex, t, found.org, row);
    }
    if found.Created? {
      var known := if found.org in t.orgs then t else t.(orgs := t.orgs[found.org := Some(row.name)]);
      assert Grows(t, known);
      ClaimGrows(lex, known, found.org, row);
      GrowsTransitive(t, known, Organized(lex, t, row));
    }
    hide WithAlias, WithIdentifier, FindOrganization;
  }

  lemma ClaimsIgnoreRecords(lex: Lexicon, t: Tables, org: string, row: Row, records: map<string, Record>)
    ensures WithIdentifier(lex, t.(records := records), org, row.issuer) == WithIdentifier(lex, t, org, row.issuer).(records := records)
    ensures WithAlias(lex, t.(records := records), org, row.name) == WithAlias(lex, t, org, row.name).(records := records)
  {
  }

  lemma OrganizedIgnoresRecords(lex: Lexicon, t: Tables, row: Row, records: map<string, Record>)
    ensures Organized(lex, t.(records := records), row) == Organized(lex, t, row).(records := records)
  {
    FindLooksAtNames(lex, t, t.(records := records), row);
    var found := FindOrganization(lex, t, row);
    if found != Several {
      var org := found.org;
      var known := if found.Created? && org !in t.orgs then t.(orgs := t.orgs[org := Some(row.name)]) else t;
      ClaimsIgnoreRecords(lex, known, org, row, records);
      ClaimsIgnoreRecords(lex, WithIdentifier(lex, known, org, row.issuer), org, row, records);
      assert known.(records := records) == if found.Created? && org !in t.orgs then t.(records := records).(orgs := t.orgs[org := Some(row.name)]) else t.(records := records);
    }
    hide FindOrganization, WithIdentifier, WithAlias;
  }

  /** Organizations, aliases and identifiers after a step. */
  function NamesAfter(c: Context, t: Tables, row: Row): Tables {
    if FactOf(c, t, row).None? then t else Organized(c.lex, t, row)
  }

  lemma StepNames(c: Context, st: State, row: Row)
    ensures var u, t' := NamesAfter(c, st.tables, row), Step(c, st, row).tables;
      t'.orgs == u.orgs && t'.aliases == u.aliases && t'.owners == u.owners
  {
    var first := RecordOf(SecurityOf(c.tickers, c.conflicts, row).0, IssuerStanding(c, row));
    var t := Recorded(st.tables, row, first);
    RecordWrites(st.tables, row, first, first);
    assert t == st.tables.(records := t.records);
    OrganizedIgnoresRecords(c.lex, st.tables, row, t.records);
    FindLooksAtNames(c.lex, st.tables, t, row);
    hide FindOrganization, Organized, SecurityOf, Recorded, RecordOf, Counted, IssuerStanding;
  }

  lemma OrganizedFinds(lex: Lexicon, t: Tables, row: Row)
    requires lex.upper(row.issuer) == row.issuer && FindOrganization(lex, t, row) != Several
    ensures var t', org := Organized(lex, t, row), FindOrganization(lex, t, row).org;
      row.issuer in t'.owners && t'.owners[row.issuer] == org && (org, lex.aliasForm(row.name)) in t'.aliases
  {
    hide NameCandidates, IsOne, TheOne;
  }

  lemma GoesByGrows(lex: Lexicon, t: Tables, t': Tables, org: string, key: string)
    requires Grows(t, t') && GoesBy(lex, t, org, key)
    ensures GoesBy(lex, t', org, key)
  {
  }

  lemma SeveralGrows(lex: Lexicon, t: Tables, t': Tables, key: string)
    requires Grows(t, t') && AnySeveral(lex, t, key)
    ensures AnySeveral(lex, t', key)
  {
    hide Grows, GoesBy;
    var o, p :| o != p && GoesBy(lex, t, o, key) && GoesBy(lex, t, p, key);
    GoesByGrows(lex, t, t', o, key);
    GoesByGrows(lex, t, t', p, key);
  }

  lemma StepGrows(c: Context, st: State, row: Row)
    ensures Grows(st.tables, Step(c, st, row).tables)
    ensures forall i :: i in Step(c, st, row).tables.owners && i !in st.tables.owners ==>
      i == c.lex.upper(row.issuer) && FactOf(c, st.tables, row).Some?
  {
    StepNames(c, st, row);
    StepWrites(c, st, row);
    OrganizedGrows(c.lex, st.tables, row);
    hide Step, Organized, RecordAfter, FactOf;
  }

  lemma OrganizedIdleIff(lex: Lexicon, t: Tables, row: Row)
    requires FindOrganization(lex, t, row) != Several
    ensures var u, found := Organized(lex, t, row), FindOrganization(lex, t, row);
      u.orgs == t.orgs && u.aliases == t.aliases && u.owners == t.owners <==>
      && (found.Created? ==> found.org in t.orgs)
      && (row.issuer in t.owners || lex.upper(row.issuer) in t.owners)
      && (found.org, lex.aliasForm(row.name)) in t.aliases
  {
    hide NameCandidates, IsOne, TheOne, NewOrganization;
  }

  /** A recorded row writes nothing exactly when it is at rest. */
  lemma IdleIffAtRest(c: Context, st: State, row: Row)
    requires row.id in st.tables.records
    ensures Step(c, st, row).tables == st.tables <==> AtRest(c, st.tables, row)
  {
    StepNames(c, st, row);
    StepWrites(c, st, row);
    SecurityIsResolved(c, row);
    if FindOrganization(c.lex, st.tables, row) != Several {
      OrganizedIdleIff(c.lex, st.tables, row);
    }
    hide Step, FindOrganization, Organized, SecurityOf;
  }

  lemma IssueCounts(lex: Lexicon, st: State, row: Row, security: string)
    ensures var t, r, r', found := st.tables, st.report, Issue(lex, st, row, security).report, FindOrganization(lex, st.tables, row);
      && r'.evidence == r.evidence + (if found != Several then 1 else 0)
      && r'.facts == r.facts + (if found != Several && (security, found.org) !in t.facts then 1 else 0)
      && r'.deduplicated == r.deduplicated + (if found != Several && (security, found.org) in t.facts then 1 else 0)
  {
    OrganizedLeaves(lex, st.tables, row);
    hide FindOrganization, Organized, RecordOf;
  }

  /** The counters of facts after a step. */
  lemma StepCounts(c: Context, st: State, row: Row)
    ensures var t, r, r' := st.tables, st.report, Step(c, st, row).report;
      var fact := FactOf(c, t, row);
      && r'.evidence == r.evidence + (if fact.Some? then 1 else 0)
      && r'.facts == r.facts + (if fact.Some? && fact.value !in t.facts then 1 else 0)
      && r'.deduplicated == r.deduplicated + (if fact.Some? && fact.value in t.facts then 1 else 0)
  {
    hide FindOrganization, Organized, SecurityOf, RecordOf, IssuerStanding, Recorded, Issue;
    var (standing, security) := SecurityOf(c.tickers, c.conflicts, row);
    var first := RecordOf(standing, IssuerStanding(c, row));
    var t := Recorded(st.tables, row, first);
    RecordWrites(st.tables, row, first, first);
    FindLooksAtNames(c.lex, st.tables, t, row);
    if security.Some? { IssueCounts(c.lex, State(t, Counted(st.report, standing), st.securities), row, security.value); }
  }

  lemma AtRestCounts(c: Context, st: State, row: Row)
    requires AtRest(c, st.tables, row) && row.id in st.tables.records
    ensures var r, r' := st.report, Step(c, st, row).report;
      r'.facts == r.facts && r'.deduplicated - r.deduplicated == r'.evidence - r.evidence
  {
    hide Step, FindOrganization, SecurityOf;
    StepCounts(c, st, row);
  }

  /** A row whose issuer id is in the stored form is settled by its own step. */
  lemma StepSettles(c: Context, st: State, row: Row)
    requires c.lex.upper(row.issuer) == row.issuer
    ensures Settled(c, Step(c, st, row).tables, row)
  {
    StepNames(c, st, row);
    StepWrites(c, st, row);
    SecurityIsResolved(c, row);
    SeveralIff(c.lex, st.tables, row);
    if FindOrganization(c.lex, st.tables, row) != Several {
      OrganizedFinds(c.lex, st.tables, row);
    }
    var t, t' := st.tables, Step(c, st, row).tables;
    StepGrows(c, st, row);
    if AnySeveral(c.lex, t, c.lex.nameKey(row.name)) {
      SeveralGrows(c.lex, t, t', c.lex.nameKey(row.name));
    }
    hide Step, FindOrganization, Organized, SecurityOf, AnySeveral, Grows;
  }

  /** A row of the same issuer has the same legal name, so it cannot claim the identifier of an
      issuer whose name several organizations go by. */
  lemma NotClaimed(c: Context, st: State, rows: seq<Row>, row: Row, other: Row)
    requires AreConflicts(c.lex, rows, c.conflicts) && row in rows && other in rows
    requires c.lex.upper(other.issuer) == other.issuer && row.issuer !in c.conflicts.issuers
    requires row.issuer !in st.tables.owners && AnySeveral(c.lex, st.tables, c.lex.nameKey(row.name))
    ensures row.issuer !in Step(c, st, other).tables.owners
  {
    StepGrows(c, st, other);
    if other.issuer == row.issuer {
      assert !IssuerConflict(c.lex, rows, row.issuer);
      assert c.lex.nameKey(other.name) == c.lex.nameKey(row.name);
      SeveralIff(c.lex, st.tables, other);
    }
    hide Step, FindOrganization, SecurityOf, AnySeveral, Grows;
  }

  /** No later row undoes it. */
  lemma StepKeepsSettled(c: Context, st: State, rows: seq<Row>, row: Row, other: Row)
    requires AreConflicts(c.lex, rows, c.conflicts) && row in rows && other in rows
    requires c.lex.upper(other.issuer) == other.issuer && other.id != row.id
    requires Settled(c, st.tables, row)
    ensures Settled(c, Step(c, st, other).tables, row)
  {
    var t, t' := st.tables, Step(c, st, other).tables;
    StepGrows(c, st, other);
    StepWrites(c, st, other);
    if row.issuer !in t.owners && row.issuer !in c.conflicts.issuers && AnySeveral(c.lex, t, c.lex.nameKey(row.name)) {
      NotClaimed(c, st, rows, row, other);
      SeveralGrows(c.lex, t, t', c.lex.nameKey(row.name));
    }
    hide Step, FindOrganization, SecurityOf, RecordAfter, FactOf, AnySeveral, AreConflicts;
  }

  // ------------------------------------------------------------ whole runs

  ghost predicate StoredForm(lex: Lexicon, rows: seq<Row>) {
    forall r :: r in rows ==> lex.upper(r.issuer) == r.issuer
  }

  lemma {:induction false} RunKeepsSettled(c: Context, st: State, rows: seq<Row>, row: Row, rest: seq<Row>)
    requires AreConflicts(c.lex, rows, c.conflicts) && StoredForm(c.lex, rows) && row in rows
    requires forall r :: r in rest ==> r in rows && r.id != row.id
    requires Settled(c, st.tables, row)
    ensures Settled(c, Run(c, st, rest).tables, row)
    decreases |rest|
  {
    if rest != [] {
      StepKeepsSettled(c, st, rows, row, rest[0]);
      hide Step, Settled, AreConflicts;
      RunKeepsSettled(c, Step(c, st, rest[0]), rows, row, rest[1..]);
    }
  }

  lemma {:induction false} RunSettles(c: Context, st: State, rows: seq<Row>, rest: seq<Row>)
    requires AreConflicts(c.lex, rows, c.conflicts) && StoredForm(c.lex, rows) && DistinctRows(rest)
    requires forall r :: r in rest ==> r in rows
    ensures forall r :: r in rest ==> Settled(c, Run(c, st, rest).tables, r)
    decreases |rest|
  {
    if rest != [] {
      var st1, tail := Step(c, st, rest[0]), rest[1..];
      StepSettles(c, st, rest[0]);
      hide Step, Settled, AreConflicts;
      forall r | r in tail ensures r.id != rest[0].id {
        var i :| 0 <= i < |tail| && tail[i] == r;
        assert rest[i + 1] == r;
      }
      RunKeepsSettled(c, st1, rows, rest[0], tail);
      RunSettles(c, st1, rows, tail);
      assert forall r :: r in rest ==> r == rest[0] || r in tail;
    }
  }

  lemma {:induction false} SettledRunIsIdle(c: Context, st: State, rows: seq<Row>)
    requires forall r :: r in rows ==> Settled(c, st.tables, r)
    ensures Run(c, st, rows).tables == st.tables
    ensures var r, r' := st.report, Run(c, st, rows).report;
      r'.facts == r.facts && r'.orgCreated == r.orgCreated && r'.deduplicated - r.deduplicated == r'.evidence - r.evidence
    decreases |rows|
  {
    if rows != [] {
      SettledStays(c, st, rows[0]);
      hide Step, Settled;
      SettledRunIsIdle(c, Step(c, st, rows[0]), rows[1..]);
    }
  }

  lemma {:induction false} RunGrows(c: Context, st: State, rows: seq<Row>)
    ensures Grows(st.tables, Run(c, st, rows).tables)
    ensures forall id :: id in st.tables.records ==> id in Run(c, st, rows).tables.records
    ensures forall r :: r in rows ==> r.id in Run(c, st, rows).tables.records
    decreases |rows|
  {
    if rows != [] {
      var st1 := Step(c, st, rows[0]);
      StepGrows(c, st, rows[0]);
      StepWrites(c, st, rows[0]);
      RunGrows(c, st1, rows[1..]);
      hide Step, RecordAfter, FactOf;
      GrowsTransitive(st.tables, st1.tables, Run(c, st1, rows[1..]).tables);
      assert forall r :: r in rows ==> r == rows[0] || r in rows[1..];
    }
  }

  lemma GrowsBothWays(t: Tables, u: Tables)
    requires Grows(t, u) && Grows(u, t) && t.records == u.records
    ensures t == u
  {
    assert t.orgs.Keys == u.orgs.Keys && t.aliases.Keys == u.aliases.Keys && t.owners.Keys == u.owners.Keys;
  }

  /** A run over recorded rows writes nothing exactly when every row is at rest: tables only grow and
      each record is written by its own row, so what one row writes stays written. */
  lemma {:induction false} RunIdleIff(c: Context, st: State, rows: seq<Row>)
    requires DistinctRows(rows) && forall r :: r in rows ==> r.id in st.tables.records
    ensures Run(c, st, rows).tables == st.tables <==> forall r :: r in rows ==> AtRest(c, st.tables, r)
    ensures Run(c, st, rows).tables == st.tables ==>
      var r, r' := st.report, Run(c, st, rows).report;
      r'.facts == r.facts && r'.deduplicated - r.deduplicated == r'.evidence - r.evidence
    decreases |rows|
  {
    if rows != [] {
      var st1, tail := Step(c, st, rows[0]), rows[1..];
      forall r | r in tail ensures r.id != rows[0].id {
        var i :| 0 <= i < |tail| && tail[i] == r;
        assert rows[i + 1] == r;
      }
      IdleIffAtRest(c, st, rows[0]);
      StepGrows(c, st, rows[0]);
      StepWrites(c, st, rows[0]);
      RunGrows(c, st1, tail);
      RunKeepsRecord(c, st1, tail, rows[0].id);
      if Run(c, st, rows).tables == st.tables { FirstIsIdle(c, st, rows[0], st1, Run(c, st1, tail)); }
      if AtRest(c, st.tables, rows[0]) { AtRestCounts(c, st, rows[0]); }
      hide Step, AtRest, RecordAfter, FactOf, Grows;
      RunIdleIff(c, st1, tail);
      assert forall r :: r in rows <==> r == rows[0] || r in tail;
    }
  }

  lemma FirstIsIdle(c: Context, st: State, row: Row, st1: State, last: State)
    requires st1 == Step(c, st, row) && last.tables == st.tables && row.id in st.tables.records
    requires Grows(st.tables, st1.tables) && Grows(st1.tables, last.tables)
    requires row.id in st1.tables.records && last.tables.records[row.id] == st1.tables.records[row.id]
    ensures st1.tables == st.tables
  {
    StepWrites(c, st, row);
    hide Step, Grows, RecordAfter, FactOf;
    GrowsBothWays(st.tables, st1.tables);
  }

  /** What each row of a run writes on its security. */
  function Writes(c: Context, st: State, rows: seq<Row>): seq<(string, Standing)>
    decreases |rows|
  {
    if rows == [] then [] else StepWrite(c, st, rows[0]) + Writes(c, Step(c, st, rows[0]), rows[1..])
  }

  function StepWrite(c: Context, st: State, row: Row): seq<(string, Standing)> {
    var security := SecurityOf(c.tickers, c.conflicts, row).1;
    if security.None? then []
    else [(security.value,
           if row.issuer in c.conflicts.issuers then UNRESOLVED
           else if FindOrganization(c.lex, st.tables, row) == Several then AMBIGUOUS else RESOLVED)]
  }

  function Written(m: map<string, Standing>, writes: seq<(string, Standing)>): map<string, Standing>
    decreases |writes|
  {
    if writes == [] then m else Written(m[writes[0].0 := writes[0].1], writes[1..])
  }

  lemma StepSecurities(c: Context, st: State, row: Row)
    ensures Step(c, st, row).securities == Written(st.securities, StepWrite(c, st, row))
  {
    var first := RecordOf(SecurityOf(c.tickers, c.conflicts, row).0, IssuerStanding(c, row));
    var t := Recorded(st.tables, row, first);
    RecordWrites(st.tables, row, first, first);
    FindLooksAtNames(c.lex, st.tables, t, row);
    hide FindOrganization, Organized, SecurityOf, Recorded, RecordOf, Counted, IssuerStanding;
  }

  lemma {:induction false} WrittenMore(m: map<string, Standing>, a: seq<(string, Standing)>, b: seq<(string, Standing)>)
    ensures Written(m, a + b) == Written(Written(m, a), b)
    decreases |a|
  {
    if a == [] {
      assert a + b == b;
    } else {
      assert (a + b)[1..] == a[1..] + b;
      WrittenMore(m[a[0].0 := a[0].1], a[1..], b);
    }
  }

  lemma {:induction false} RunSecurities(c: Context, st: State, rows: seq<Row>)
    ensures Run(c, st, rows).securities == Written(st.securities, Writes(c, st, rows))
    decreases |rows|
  {
    if rows != [] {
      StepSecurities(c, st, rows[0]);
      hide Step, StepWrite;
      RunSecurities(c, Step(c, st, rows[0]), rows[1..]);
      WrittenMore(st.securities, StepWrite(c, st, rows[0]), Writes(c, Step(c, st, rows[0]), rows[1..]));
    }
  }

  predicate IsWritten(writes: seq<(string, Standing)>, s: string) {
    exists i :: 0 <= i < |writes| && writes[i].0 == s
  }

  lemma WrittenSplits(writes: seq<(string, Standing)>, s: string)
    requires writes != []
    ensures IsWritten(writes, s) <==> writes[0].0 == s || IsWritten(writes[1..], s)
  {
    if IsWritten(writes, s) && writes[0].0 != s {
      var i :| 0 <= i < |writes| && writes[i].0 == s;
      assert writes[1..][i - 1].0 == s;
    }
    if IsWritten(writes[1..], s) {
      var i :| 0 <= i < |writes[1..]| && writes[1..][i].0 == s;
      assert writes[i + 1].0 == s;
    }
  }

  /** The two maps differ only where something is written. */
  ghost predicate DifferWithin(m: map<string, Standing>, n: map<string, Standing>, writes: seq<(string, Standing)>) {
    forall s :: !IsWritten(writes, s) ==> (s in m <==> s in n) && (s in m ==> m[s] == n[s])
  }

  /** Writing the same standings over either ends in the same map. */
  lemma {:induction false} WrittenAgain(m: map<string, Standing>, n: map<string, Standing>, writes: seq<(string, Standing)>)
    requires DifferWithin(m, n, writes)
    ensures Written(n, writes) == Written(m, writes)
    decreases |writes|
  {
    if writes == [] {
      assert forall s :: !IsWritten(writes, s);
      assert m == n;
    } else {
      forall s { WrittenSplits(writes, s); }
      WrittenAgain(m[writes[0].0 := writes[0].1], n[writes[0].0 := writes[0].1], writes[1..]);
    }
  }

  lemma {:induction false} WrittenDiffers(m: map<string, Standing>, writes: seq<(string, Standing)>)
    ensures DifferWithin(m, Written(m, writes), writes)
    decreases |writes|
  {
    if writes != [] {
      forall s { WrittenSplits(writes, s); }
      WrittenDiffers(m[writes[0].0 := writes[0].1], writes[1..]);
    }
  }

  /** The standing a row writes on its security, read off its record. */
  function WriteOf(c: Context, t: Tables, row: Row): seq<(string, Standing)> {
    var security := SecurityOf(c.tickers, c.conflicts, row).1;
    if security.None? then []
    else [(security.value,
           if row.issuer in c.conflicts.issuers then UNRESOLVED
           else if row.id in t.records && t.records[row.id].issuer == AMBIGUOUS then AMBIGUOUS else RESOLVED)]
  }

  function WritesOf(c: Context, t: Tables, rows: seq<Row>): seq<(string, Standing)>
    decreases |rows|
  {
    if rows == [] then [] else WriteOf(c, t, rows[0]) + WritesOf(c, t, rows[1..])
  }

  lemma StepWriteIsRecorded(c: Context, st: State, row: Row)
    ensures StepWrite(c, st, row) == WriteOf(c, Step(c, st, row).tables, row)
    ensures forall id :: id in st.tables.records && id != row.id ==>
      id in Step(c, st, row).tables.records && Step(c, st, row).tables.records[id] == st.tables.records[id]
  {
    StepWrites(c, st, row);
    SecurityIsResolved(c, row);
    hide Step, FindOrganization, SecurityOf, FactOf;
  }

  lemma {:induction false} RunKeepsRecord(c: Context, st: State, rows: seq<Row>, id: string)
    requires id in st.tables.records && forall r :: r in rows ==> r.id != id
    ensures id in Run(c, st, rows).tables.records && Run(c, st, rows).tables.records[id] == st.tables.records[id]
    decreases |rows|
  {
    if rows != [] {
      StepWriteIsRecorded(c, st, rows[0]);
      hide Step;
      RunKeepsRecord(c, Step(c, st, rows[0]), rows[1..], id);
    }
  }

  lemma {:induction false} RunWritesAreRecorded(c: Context, st: State, rows: seq<Row>)
    requires DistinctRows(rows)
    ensures Writes(c, st, rows) == WritesOf(c, Run(c, st, rows).tables, rows)
    decreases |rows|
  {
    if rows != [] {
      var st1, tail := Step(c, st, rows[0]), rows[1..];
      StepWriteIsRecorded(c, st, rows[0]);
      StepWrites(c, st, rows[0]);
      hide Step, RecordAfter, FactOf, SecurityOf, StepWrite;
      forall r | r in tail ensures r.id != rows[0].id {
        var i :| 0 <= i < |tail| && tail[i] == r;
        assert rows[i + 1] == r;
      }
      RunKeepsRecord(c, st1, tail, rows[0].id);
      RunWritesAreRecorded(c, st1, tail);
    }
  }

  lemma AtRestWrites(c: Context, st: State, row: Row)
    requires AtRest(c, st.tables, row)
    ensures StepWrite(c, st, row) == WriteOf(c, st.tables, row)
  {
    hide FindOrganization, SecurityOf;
  }

  lemma {:induction false} IdleRunWrites(c: Context, st: State, rows: seq<Row>)
    requires forall r :: r in rows ==> r.id in st.tables.records && AtRest(c, st.tables, r)
    ensures Writes(c, st, rows) == WritesOf(c, st.tables, rows)
    decreases |rows|
  {
    if rows != [] {
      IdleIffAtRest(c, st, rows[0]);
      AtRestWrites(c, st, rows[0]);
      hide Step, AtRest, StepWrite, WriteOf;
      IdleRunWrites(c, Step(c, st, rows[0]), rows[1..]);
    }
  }

  /** A second run over the same records leaves every table as it is exactly when the tables between
      the runs have every record at rest. It then writes the same standings on the securities, adds no
      fact and counts every resolved record as deduplicated. Issuer ids in the form they are stored in
      always meet the condition, and then no organization is created either. */
  lemma SecondRunIdleIff(c: Context, st: State, rows: seq<Row>)
    requires DistinctRows(rows)
    ensures var first := Run(c, st, rows);
      var second := Run(c, first.(report := EMPTY_REPORT), rows);
      && (second.tables == first.tables <==> forall r :: r in rows ==> AtRest(c, first.tables, r))
      && (second.tables == first.tables ==>
            && second.securities == first.securities
            && second.report.facts == 0 && second.report.deduplicated == second.report.evidence)
      && (AreConflicts(c.lex, rows, c.conflicts) && StoredForm(c.lex, rows) ==>
            second.tables == first.tables && second.report.orgCreated == 0)
  {
    var first := Run(c, st, rows);
    var again := first.(report := EMPTY_REPORT);
    RunGrows(c, st, rows);
    RunIdleIff(c, again, rows);
    if Run(c, again, rows).tables == first.tables { SameSecurities(c, st, rows); }
    if AreConflicts(c.lex, rows, c.conflicts) && StoredForm(c.lex, rows) {
      RunSettles(c, st, rows, rows);
      SettledRunIsIdle(c, again, rows);
    }
  }

  lemma SameSecurities(c: Context, st: State, rows: seq<Row>)
    requires DistinctRows(rows)
    requires var first := Run(c, st, rows);
      forall r :: r in rows ==> r.id in first.tables.records && AtRest(c, first.tables, r)
    ensures var first := Run(c, st, rows);
      Run(c, first.(report := EMPTY_REPORT), rows).securities == first.securities
  {
    var first := Run(c, st, rows);
    var again := first.(report := EMPTY_REPORT);
    IdleRunWrites(c, again, rows);
    RunWritesAreRecorded(c, st, rows);
    RunSecurities(c, st, rows);
    RunSecurities(c, again, rows);
    WrittenDiffers(st.securities, Writes(c, st, rows));
    WrittenAgain(st.securities, first.securities, Writes(c, st, rows));
  }

  // ------------------------------------------------------------ identifiers in another form

  /** `org` has no name and owns the identifier of `b`; nothing else is known. */
  function OneOrganization(b: Row, org: string): State {
    State(Tables(map[org := None], map[], map[b.issuer := org], map[], {}, {}), EMPTY_REPORT, map[])
  }

  lemma FirstCreates(c: Context, a: Row, b: Row, org: string)
    requires a.issuer != b.issuer && c.lex.upper(a.issuer) != b.issuer && SecurityOf(c.tickers, c.conflicts, a).1.Some?
    requires c.conflicts == Conflicts({}, {}) && NewOrganization(c.lex, a.issuer) != org
    ensures var minted := NewOrganization(c.lex, a.issuer);
      var t := Step(c, OneOrganization(b, org), a).tables;
      && Stands(t, a.id, RecordOf(RESOLVED, RESOLVED))
      && t.orgs == map[org := None, minted := Some(a.name)]
      && t.owners == map[b.issuer := org, c.lex.upper(a.issuer) := minted]
      && t.aliases == map[(minted, c.lex.aliasForm(a.name)) := a.name]
  {
    var st := OneOrganization(b, org);
    StepNames(c, st, a);
    StepWrites(c, st, a);
    SecurityIsResolved(c, a);
    assert NameCandidates(c.lex, st.tables, c.lex.nameKey(a.name)) == {};
    hide Step, SecurityOf, NameCandidates, NewOrganization;
  }

  lemma SecondTakesTheName(c: Context, st: State, a: Row, b: Row, org: string)
    requires a.id != b.id && SecurityOf(c.tickers, c.conflicts, b).1.Some? && c.conflicts == Conflicts({}, {})
    requires org in st.tables.orgs && b.issuer in st.tables.owners && st.tables.owners[b.issuer] == org
    requires (org, c.lex.aliasForm(b.name)) !in st.tables.aliases
    ensures var t, t' := st.tables, Step(c, st, b).tables;
      && GoesBy(c.lex, t', org, c.lex.nameKey(b.name)) && t'.owners == t.owners
      && (forall id :: id in t.records && id != b.id ==> id in t'.records && t'.records[id] == t.records[id])
  {
    StepNames(c, st, b);
    StepWrites(c, st, b);
    hide Step, SecurityOf, NameCandidates;
    assert (org, c.lex.aliasForm(b.name)) in Step(c, st, b).tables.aliases;
  }

  /** An issuer id that is not in the stored form is looked up in vain every time, so its row is
      resolved by name; an alias that a later row adds can make that name ambiguous for the next
      run. `a` has such an id; `b` has the identifier of an organization that takes on the same name. */
  lemma LowerCaseIdMayTurnAmbiguous(c: Context, a: Row, b: Row, org: string)
    requires a.id != b.id && a.issuer != b.issuer && c.conflicts == Conflicts({}, {})
    requires c.lex.upper(a.issuer) != a.issuer && c.lex.upper(a.issuer) != b.issuer
    requires c.lex.nameKey(a.name) == c.lex.nameKey(b.name) && NewOrganization(c.lex, a.issuer) != org
    requires SecurityOf(c.tickers, c.conflicts, a).1.Some? && SecurityOf(c.tickers, c.conflicts, b).1.Some?
    ensures var first := Step(c, Step(c, OneOrganization(b, org), a), b);
      && Stands(first.tables, a.id, RecordOf(RESOLVED, RESOLVED))
      && Stands(Step(c, first, a).tables, a.id, RecordOf(RESOLVED, AMBIGUOUS))
  {
    var st1 := Step(c, OneOrganization(b, org), a);
    FirstCreates(c, a, b, org);
    var minted, key := NewOrganization(c.lex, a.issuer), c.lex.nameKey(a.name);
    hide Step, SecurityOf, NewOrganization, FindOrganization;
    assert GoesBy(c.lex, st1.tables, minted, key);
    SecondTakesTheName(c, st1, a, b, org);
    var first := Step(c, st1, b);
    StepGrows(c, st1, b);
    GoesByGrows(c.lex, st1.tables, first.tables, minted, key);
    assert a.issuer !in first.tables.owners;
    hide GoesBy, Grows;
    assert AnySeveral(c.lex, first.tables, key);
    SeveralStandsAmbiguous(c, first, a);
  }

  lemma SeveralStandsAmbiguous(c: Context, st: State, row: Row)
    requires row.issuer !in st.tables.owners && AnySeveral(c.lex, st.tables, c.lex.nameKey(row.name))
    requires SecurityOf(c.tickers, c.conflicts, row).1.Some? && row.issuer !in c.conflicts.issuers
    ensures Stands(Step(c, st, row).tables, row.id, RecordOf(RESOLVED, AMBIGUOUS))
  {
    SeveralIff(c.lex, st.tables, row);
    StepWrites(c, st, row);
    SecurityIsResolved(c, row);
    hide Step, SecurityOf, FindOrganization, AnySeveral;
  }

  // ------------------------------------------------------------ two issuers, one organization

  /** Aliases and identifiers name organizations that are there. */
  ghost predicate Referential(t: Tables) {
    && (forall p :: p in t.aliases ==> p.0 in t.orgs)
    && (forall i :: i in t.owners ==> t.owners[i] in t.orgs)
  }

  lemma OrganizedIsReferential(lex: Lexicon, t: Tables, row: Row)
    requires Referential(t)
    ensures Referential(Organized(lex, t, row))
    ensures FindOrganization(lex, t, row) != Several ==> FindOrganization(lex, t, row).org in Organized(lex, t, row).orgs
  {
    if FindOrganization(lex, t, row) != Several { NamesOfOrganized(lex, t, row); }
    hide FindOrganization;
  }

  /** A name counts for the organization it was resolved to unless the form of the name was already
      taken there by another text. */
  predicate NameIsNew(lex: Lexicon, t: Tables, org: string, name: string) {
    org !in t.orgs || (org, lex.aliasForm(name)) !in t.aliases
  }

  lemma GoesByAfter(lex: Lexicon, t: Tables, a: Row, org: string, key: string)
    requires Referential(t) && FindOrganization(lex, t, a) != Several
    ensures var own := FindOrganization(lex, t, a).org;
      GoesBy(lex, Organized(lex, t, a), org, key) <==>
      GoesBy(lex, t, org, key) || (org == own && lex.nameKey(a.name) == key && NameIsNew(lex, t, own, a.name))
  {
    OrganizedIsReferential(lex, t, a);
    NamesOfOrganized(lex, t, a);
    hide FindOrganization, Organized;
    var own, t' := FindOrganization(lex, t, a).org, Organized(lex, t, a);
    var form := (own, lex.aliasForm(a.name));
    assert form in t'.aliases;
    if GoesBy(lex, t', org, key) && !GoesBy(lex, t, org, key) && org in t.orgs {
      var p :| p in t'.aliases && p.0 == org && lex.nameKey(t'.aliases[p]) == key;
      assert p !in t.aliases;
    }
    if org == own && lex.nameKey(a.name) == key && NameIsNew(lex, t, own, a.name) {
      assert form.0 == org && lex.nameKey(t'.aliases[form]) == key;
    }
  }

  /** What resolving an issuer adds to names and aliases. */
  lemma NamesOfOrganized(lex: Lexicon, t: Tables, a: Row)
    requires Referential(t) && FindOrganization(lex, t, a) != Several
    ensures var t', own := Organized(lex, t, a), FindOrganization(lex, t, a).org;
      && t'.orgs == (if own in t.orgs then t.orgs else t.orgs[own := Some(a.name)])
      && t'.aliases == (if (own, lex.aliasForm(a.name)) in t.aliases then t.aliases else t.aliases[(own, lex.aliasForm(a.name)) := a.name])
      && t'.owners == (if a.issuer in t.owners || lex.upper(a.issuer) in t.owners then t.owners else t.owners[lex.upper(a.issuer) := own])
  {
    FoundIsKnown(lex, t, a);
    var own := FindOrganization(lex, t, a).org;
    var known := if own in t.orgs then t else t.(orgs := t.orgs[own := Some(a.name)]);
    ClaimWrites(lex, known, own, a);
    ClaimWrites(lex, t, own, a);
    hide NewOrganization, NameCandidates, WithAlias, WithIdentifier, FindOrganization;
  }

  lemma FoundIsKnown(lex: Lexicon, t: Tables, row: Row)
    requires Referential(t)
    ensures FindOrganization(lex, t, row).Existing? ==> FindOrganization(lex, t, row).org in t.orgs
    ensures FindOrganization(lex, t, row).Created? ==> row.issuer !in t.owners
  {
    CandidatesGoBy(lex, t, lex.nameKey(row.name));
    hide NameCandidates;
  }

  lemma ClaimWrites(lex: Lexicon, t: Tables, org: string, row: Row)
    ensures WithAlias(lex, t, org, row.name) ==
      t.(aliases := if (org, lex.aliasForm(row.name)) in t.aliases then t.aliases else t.aliases[(org, lex.aliasForm(row.name)) := row.name])
    ensures WithAlias(lex, WithIdentifier(lex, t, org, row.issuer), org, row.name) ==
      t.(aliases := if (org, lex.aliasForm(row.name)) in t.aliases then t.aliases else t.aliases[(org, lex.aliasForm(row.name)) := row.name],
         owners := if lex.upper(row.issuer) in t.owners then t.owners else t.owners[lex.upper(row.issuer) := org])
  {
  }

  predicate EndsOn(found: Found, org: string) {
    found != Several && found.org == org
  }

  /** After issuer `a` is resolved to an organization, issuer `b` ends on the same one exactly when
      its identifier is or has become that organization's or, when it has no owner, no other
      organization goes by its name and either this one does, or it is the one `b` would found. */
  lemma SharesOrganizationIff(lex: Lexicon, t: Tables, a: Row, b: Row)
    requires Referential(t) && FindOrganization(lex, t, a) != Several
    ensures var org, key := FindOrganization(lex, t, a).org, lex.nameKey(b.name);
      EndsOn(FindOrganization(lex, Organized(lex, t, a), b), org) <==>
        if b.issuer in t.owners then t.owners[b.issuer] == org
        else if a.issuer !in t.owners && b.issuer == lex.upper(a.issuer) then true
        else
          && (forall o :: o != org ==> !GoesBy(lex, t, o, key))
          && (|| GoesBy(lex, t, org, key)
              || (lex.nameKey(a.name) == key && NameIsNew(lex, t, org, a.name))
              || NewOrganization(lex, b.issuer) == org)
  {
    var org, key, t' := FindOrganization(lex, t, a).org, lex.nameKey(b.name), Organized(lex, t, a);
    NamesOfOrganized(lex, t, a);
    if b.issuer !in t'.owners {
      forall o { GoesByAfter(lex, t, a, o, key); }
      CandidatesGoBy(lex, t', key);
      CandidateDecides(lex, t', b, org);
    }
    hide FindOrganization, Organized, GoesBy, NewOrganization, NameIsNew;
  }

  /** By name, a row ends on an organization exactly when no other goes by the name, and it does or
      is the one to be founded. */
  lemma CandidateDecides(lex: Lexicon, t: Tables, b: Row, org: string)
    requires b.issuer !in t.owners
    ensures var key := lex.nameKey(b.name);
      EndsOn(FindOrganization(lex, t, b), org) <==>
      && (forall o :: o != org ==> !GoesBy(lex, t, o, key))
      && (GoesBy(lex, t, org, key) || NewOrganization(lex, b.issuer) == org)
  {
    var key := lex.nameKey(b.name);
    var candidates := NameCandidates(lex, t, key);
    CandidatesGoBy(lex, t, key);
    hide GoesBy, NewOrganization, NameCandidates;
    if (forall o :: o != org ==> !GoesBy(lex, t, o, key)) && GoesBy(lex, t, org, key) {
      assert candidates == {org};
    }
    assert candidates == {} <==> forall o :: !GoesBy(lex, t, o, key);
    if IsOne(candidates) {
      var one := TheOne(candidates);
      assert forall o :: GoesBy(lex, t, o, key) <==> o == one;
    }
  }

  /** So when `a` founds an organization, a second issuer without an owner of its own joins it exactly
      when the legal names have one key. */
  lemma SameNameSharesOrganization(lex: Lexicon, t: Tables, a: Row, b: Row)
    requires Referential(t) && FindOrganization(lex, t, a).Created? && NewOrganization(lex, a.issuer) !in t.orgs
    requires b.issuer !in Organized(lex, t, a).owners
    ensures FindOrganization(lex, Organized(lex, t, a), b) == Existing(NewOrganization(lex, a.issuer)) <==>
      lex.nameKey(a.name) == lex.nameKey(b.name)
  {
    var org, key, t' := NewOrganization(lex, a.issuer), lex.nameKey(b.name), Organized(lex, t, a);
    CandidatesGoBy(lex, t, lex.nameKey(a.name));
    assert forall o :: !GoesBy(lex, t, o, lex.nameKey(a.name));
    GoesByAfter(lex, t, a, org, key);
    NamesOfOrganized(lex, t, a);
    SharesOrganizationIff(lex, t, a, b);
    assert FindOrganization(lex, t', b).Existing? ==> GoesBy(lex, t', FindOrganization(lex, t', b).org, key) by {
      CandidatesGoBy(lex, t', key);
    }
    assert GoesBy(lex, t', org, key) ==> !FindOrganization(lex, t', b).Created? by { CandidatesGoBy(lex, t', key); }
    assert !GoesBy(lex, t, org, key);
  }
}
