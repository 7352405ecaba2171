/** The issuer integrator: conflicts collected in dictionaries, then one pass
    over the records that looks up, inserts, updates and counts. */
module IssuerIntegrator {
  import opened Basics
  import opened SecurityIssuers

  type Values = map<string, set<string>>

  function At(m: Values, k: string): set<string> {
    if k in m then m[k] else {}
  }

  /** The issuers that the rows give a ticker, and the names that they give an issuer. */
  function IssuersOf(rows: seq<Row>, ticker: string): set<string> {
    set r | r in rows && r.ticker == ticker :: r.issuer
  }

  function NamesOf(lex: Lexicon, rows: seq<Row>, issuer: string): set<string> {
    set r | r in rows && r.issuer == issuer :: lex.nameKey(r.name)
  }

  lemma OneMoreRow(lex: Lexicon, rows: seq<Row>, row: Row, rows': seq<Row>)
    requires forall r :: r in rows' <==> r in rows || r == row
    ensures forall t :: IssuersOf(rows', t) == IssuersOf(rows, t) + if t == row.ticker then {row.issuer} else {}
    ensures forall i :: NamesOf(lex, rows', i) == NamesOf(lex, rows, i) + if i == row.issuer then {lex.nameKey(row.name)} else {}
  {
  }

  lemma TickerConflictIff(rows: seq<Row>, t: string)
    ensures |IssuersOf(rows, t)| > 1 <==> TickerConflict(rows, t)
  {
    MoreThanOne(IssuersOf(rows, t));
    if TickerConflict(rows, t) {
      var r, s :| r in rows && s in rows && r.ticker == t && s.ticker == t && r.issuer != s.issuer;
      assert r.issuer in IssuersOf(rows, t) && s.issuer in IssuersOf(rows, t);
    }
  }

  lemma IssuerConflictIff(lex: Lexicon, rows: seq<Row>, i: string)
    ensures |NamesOf(lex, rows, i)| > 1 <==> IssuerConflict(lex, rows, i)
  {
    MoreThanOne(NamesOf(lex, rows, i));
    if IssuerConflict(lex, rows, i) {
      var r, s :| r in rows && s in rows && r.issuer == i && s.issuer == i && lex.nameKey(r.name) != lex.nameKey(s.name);
      assert lex.nameKey(r.name) in NamesOf(lex, rows, i) && lex.nameKey(s.name) in NamesOf(lex, rows, i);
    }
  }

  /** `_source_conflicts`: exactly the tickers with two issuers and the issuers with two names. */
  method SourceConflicts(lex: Lexicon, rows: seq<Row>) returns (c: Conflicts)
    ensures AreConflicts(lex, rows, c)
  {
    var byTicker: Values, byIssuer: Values := map[], map[];
    assert forall t :: At(byTicker, t) == IssuersOf([], t);
    assert forall i :: At(byIssuer, i) == NamesOf(lex, [], i);
    assert rows[..0] == [];
    hide IssuersOf, NamesOf;
    for n := 0 to |rows|
      invariant forall t :: At(byTicker, t) == IssuersOf(rows[..n], t)
      invariant forall i :: At(byIssuer, i) == NamesOf(lex, rows[..n], i)
    {
      var row := rows[n];
      assert rows[..n + 1] == rows[..n] + [row];
      OneMoreRow(lex, rows[..n], row, rows[..n + 1]);
      byTicker := byTicker[row.ticker := At(byTicker, row.ticker) + {row.issuer}];
      byIssuer := byIssuer[row.issuer := At(byIssuer, row.issuer) + {lex.nameKey(row.name)}];
    }
    assert rows[..|rows|] == rows;
    c := Conflicts((set t | t in byTicker && |byTicker[t]| > 1), (set i | i in byIssuer && |byIssuer[i]| > 1));
    forall t ensures t in c.tickers <==> TickerConflict(rows, t) { TickerConflictIff(rows, t); }
    forall i ensures i in c.issuers <==> IssuerConflict(lex, rows, i) { IssuerConflictIff(lex, rows, i); }
  }

  class Integrator {
    const lex: Lexicon
    const tickers: Tickers
    var tables: Tables
    var securities: map<string, Standing>
    var report: Report

    constructor (lexicon: Lexicon, owners: Tickers, stored: Tables, standings: map<string, Standing>)
      ensures lex == lexicon && tickers == owners && State() == SecurityIssuers.State(stored, EMPTY_REPORT, standings)
    {
      lex, tickers := lexicon, owners;
      tables, securities, report := stored, standings, EMPTY_REPORT;
    }

    ghost function State(): SecurityIssuers.State
      reads this
    {
      SecurityIssuers.State(tables, report, securities)
    }

    method AddIdentifier(org: string, issuer: string)
      modifies `tables
      ensures tables == WithIdentifier(lex, old(tables), org, issuer)
    {
      if lex.upper(issuer) !in tables.owners {
        tables := tables.(owners := tables.owners[lex.upper(issuer) := org]);
      }
    }

    method AddAlias(org: string, name: string)
      modifies `tables
      ensures tables == WithAlias(lex, old(tables), org, name)
    {
      if (org, lex.aliasForm(name)) !in tables.aliases {
        tables := tables.(aliases := tables.aliases[(org, lex.aliasForm(name)) := name]);
      }
    }

    method NamedLike(key: string) returns (candidates: set<string>)
      ensures candidates == NameCandidates(lex, tables, key)
    {
      candidates := {};
      var rest := tables.orgs.Keys;
      while rest != {}
        invariant rest <= tables.orgs.Keys
        invariant forall o :: o in candidates <==> o in tables.orgs.Keys - rest && GoesBy(lex, tables, o, key)
        decreases rest
      {
        var o :| o in rest;
        if GoesBy(lex, tables, o, key) {
          candidates := candidates + {o};
        }
        rest := rest - {o};
      }
    }

    /** `_resolve_organization`: None stands for a name that several organizations go by. */
    method ResolveOrganization(row: Row) returns (org: Option<string>, created: bool)
      modifies `tables
      ensures tables == Organized(lex, old(tables), row)
      ensures var found := FindOrganization(lex, old(tables), row);
        org == (if found == Several then None else Some(found.org)) && (created <==> found.Created?)
    {
      if row.issuer in tables.owners {
        org := Some(tables.owners[row.issuer]);
        AddAlias(org.value, row.name);
        return org, false;
      }
      var candidates := NamedLike(lex.nameKey(row.name));
      if candidates != {} && !IsOne(candidates) {
        return None, false;
      }
      var chosen := if candidates == {} then NewOrganization(lex, row.issuer) else TheOne(candidates);
      if candidates == {} && chosen !in tables.orgs {
        tables := tables.(orgs := tables.orgs[chosen := Some(row.name)]);
      }
      AddIdentifier(chosen, row.issuer);
      AddAlias(chosen, row.name);
      return Some(chosen), candidates == {};
    }

    method RecordRow(row: Row, rec: Record)
      modifies `tables
      ensures tables == Recorded(old(tables), row, rec)
    {
      if row.id !in tables.records {
        tables := tables.(records := tables.records[row.id := rec]);
      }
    }

    method UpsertFact(fact: (string, string), row: Row) returns (inserted: bool)
      modifies `tables
      ensures tables == old(tables).(facts := old(tables).facts + {fact}, links := old(tables).links + {(fact, row.id)})
      ensures inserted <==> fact !in old(tables).facts
    {
      inserted := fact !in tables.facts;
      tables := tables.(facts := tables.facts + {fact}, links := tables.links + {(fact, row.id)});
    }

    /** One record of the loop. */
    method IntegrateRow(c: Conflicts, row: Row)
      modifies this
      ensures State() == Step(Context(lex, tickers, c), old(State()), row)
    {
      var (standing, security) := SecurityOf(tickers, c, row);
      var disputed := row.issuer in c.issuers;
      SecurityIsResolved(Context(lex, tickers, c), row);
      hide SecurityOf, Counted, Recorded, Issue;
      RecordRow(row, RecordOf(standing, if disputed then CONFLICT else RESOLVED));
      report := Counted(report, standing);
      if security.Some? && disputed {
        report := report.(orgConflict := report.orgConflict + 1);
        securities := securities[security.value := UNRESOLVED];
      } else if security.Some? {
        IssueFact(row, security.value);
      }
    }

    /** The rest of the loop for a row whose security is known and whose issuer is undisputed. */
    method IssueFact(row: Row, security: string)
      modifies this
      ensures State() == Issue(lex, old(State()), row, security)
    {
      hide FindOrganization, Organized;
      SeveralChangesNothing(tables, row);
      var org, created := ResolveOrganization(row);
      tables := Updated(tables, row, RecordOf(RESOLVED, if org.None? then AMBIGUOUS else RESOLVED));
      if org.None? {
        report := report.(orgAmbiguous := report.orgAmbiguous + 1);
        securities := securities[security := AMBIGUOUS];
        return;
      }
      report := report.(orgExisting := report.orgExisting + 1);
      if created {
        report := report.(orgCreated := report.orgCreated + 1, orgExisting := report.orgExisting - 1);
      }
      var inserted := UpsertFact((security, org.value), row);
      if inserted {
        report := report.(facts := report.facts + 1);
      } else {
        report := report.(deduplicated := report.deduplicated + 1);
      }
      report := report.(evidence := report.evidence + 1);
      securities := securities[security := RESOLVED];
    }

    lemma SeveralChangesNothing(t: Tables, row: Row)
      ensures FindOrganization(lex, t, row) == Several ==> Organized(lex, t, row) == t
    {
    }

    /** `integrate` over the records in the order of their ids. */
    method Integrate(rows: seq<Row>) returns (c: Conflicts)
      modifies this
      ensures AreConflicts(lex, rows, c)
      ensures State() == Run(Context(lex, tickers, c), old(State()), rows)
    {
      c := SourceConflicts(lex, rows);
      hide Step, AreConflicts;
      var i := 0;
      while i < |rows|
        invariant 0 <= i <= |rows|
        invariant Run(Context(lex, tickers, c), State(), rows[i..]) == Run(Context(lex, tickers, c), old(State()), rows)
      {
        assert rows[i..][0] == rows[i] && rows[i..][1..] == rows[i + 1..];
        IntegrateRow(c, rows[i]);
        i := i + 1;
      }
    }
  }
}
