/** The integrator: an object over a database connection whose methods look up, insert and
    count. Each method is proved to be the table function of the same name in IdentityStore. */
module HoldingsIntegrator {
  import opened Basics
  import opened TextForms
  import opened IdentityStore
  import opened IdentityInvariants

  class Integrator {
    var tables: Tables  // what the connection sees
    const cfg: Config

    constructor (tables: Tables, cfg: Config)
      ensures this.tables == tables && this.cfg == cfg
    {
      this.tables := tables;
      this.cfg := cfg;
    }

    /** Under the unique index a lookup writes nothing; it answers Ambiguous exactly for an open
        collision case, and otherwise with the one live owner, if there is one. */
    method LookUp(key: Key, kind: Kind) returns (r: Resolution)
      modifies this
      ensures (tables, r) == IdentityStore.LookUp(old(tables), key, kind)
      ensures UniqueIdentifiers(old(tables)) ==>
        && tables == old(tables) && (r.Ambiguous? <==> HasOpenCase(tables, key))
        && (r.Resolved? ==> LiveOwners(tables, key, kind) == {r.entity})
        && (r.Unresolved? <==> !HasOpenCase(tables, key) && LiveOwners(tables, key, kind) == {})
    {
      if UniqueIdentifiers(tables) {
        LookUpNeverWrites(tables, key, kind);
        AtMostOneOwner(tables, key, kind);
      }
      if HasOpenCase(tables, key) { return Ambiguous; }
      var owners := LiveOwners(tables, key, kind);
      if |owners| == 1 {
        var e :| e in owners;
        return Resolved(e);
      }
      if |owners| > 1 {
        tables := OpenCollision(tables, key, owners);
        return Ambiguous;
      }
      return Unresolved;
    }

    method ResolveProduct(row: Holding) returns (r: Outcome<Resolution>)
      modifies this
      ensures match IdentityStore.ResolveProduct(old(tables), row)
              case Ok((t, p)) => r == Ok(p) && tables == t
              case Raised(e) => r == Raised(e)
    {
      if row.productIsin != "" {
        var found := LookUp(Key("ISIN", "iso-6166", Normalized(row.productIsin)), FinancialProduct);
        if found != Unresolved { return Ok(RequireEtf(tables, found)); }
      }
      if row.productTicker != "" {
        var namespace := TickerNamespace(row.productExchange, row.domestic);
        if namespace != "" {
          var found := LookUp(Key("TICKER", namespace, Normalized(row.productTicker)), FinancialProduct);
          if found != Unresolved { return Ok(RequireEtf(tables, found)); }
        }
      }
      if row.provider == Unreviewed { return Raised(UnreviewedProvider); }
      var found := LookUp(Key("PROVIDER_SOURCE_ID", ProductNamespace(row.provider), Normalized(row.productSourceId)), FinancialProduct);
      return Ok(RequireEtf(tables, found));
    }

    method AttachIdentifiers(owner: EntityId, keys: seq<Key>, primary: Option<Key>)
      modifies this
      ensures tables == Attach(old(tables), owner, keys, primary)
    {
      var i := 0;
      while i < |keys|
        invariant 0 <= i <= |keys|
        invariant Attach(tables, owner, keys[i..], primary) == Attach(old(tables), owner, keys, primary)
      {
        assert keys[i..][1..] == keys[i + 1..];
        tables := AttachOne(tables, owner, keys[i], primary == Some(keys[i]));
        i := i + 1;
      }
    }

    method ResolveSecurity(row: Holding) returns (r: Outcome<Resolution>, created: bool)
      modifies this
      ensures match IdentityStore.ResolveSecurity(old(tables), row)
              case Ok(s) => r == Ok(s.resolution) && created == s.created && tables == s.tables
              case Raised(e) => r == Raised(e)
    {
      if row.identity == NonSecurityPosition { return Ok(NonSecurity), false; }
      if row.provider == Unreviewed { return Raised(UnreviewedProvider), false; }
      var keys := Candidates(row);
      var resolved: set<EntityId> := {};
      var i := 0;
      while i < |keys|
        invariant 0 <= i <= |keys|
        invariant FoundOwners(tables, keys[i..], resolved) == FoundOwners(old(tables), keys, {})
      {
        var found := LookUp(keys[i], Security);
        assert keys[i..][1..] == keys[i + 1..];
        if found == Ambiguous { return Ok(Ambiguous), false; }
        if found.Resolved? { resolved := resolved + {found.entity}; }
        i := i + 1;
      }
      if |resolved| > 1 { return Ok(Ambiguous), false; }
      if |resolved| == 1 {
        var s :| s in resolved;
        AttachIdentifiers(s, keys, None);
        return Ok(Resolved(s)), false;
      }
      var identity := FoundingIdentity(row);
      if identity == None { return Ok(Unresolved), false; }
      var s := MintedId(identity.value);
      tables := InsertSecurity(tables, s);
      AttachIdentifiers(s, keys, identity);
      return Ok(Resolved(s)), true;
    }

    /** Four inserts, each ignored when its row is there: afterwards the fact is stored with this row as
        evidence, details that were there are kept, and the answer counts the fact if it is new. */
    method UpsertHoldsFact(row: Holding, product: EntityId, security: EntityId) returns (inserted: bool)
      modifies this
      ensures tables == UpsertHolds(old(tables), row, HoldsFact(cfg, row, product, security))
      ensures |tables.facts| == |old(tables).facts| + Bit(inserted)
      ensures var fact := HoldsFact(cfg, row, product, security);
        && fact in tables.facts && (fact, row.recordId) in tables.links
        && (inserted <==> fact !in old(tables).facts)
        && (forall f :: f in old(tables).details ==> f in tables.details && tables.details[f] == old(tables).details[f])
    {
      var fact := HoldsFact(cfg, row, product, security);
      inserted := fact !in tables.facts;
      hide UpsertHolds, HoldsFact;
      var facts, relations, details, links := tables.facts, tables.relations, tables.details, tables.links;
      if inserted { facts := facts + {fact}; }
      if fact !in relations { relations := relations + {fact}; }
      if fact !in details { details := details[fact := row.recordId]; }
      if (fact, row.recordId) !in links { links := links + {(fact, row.recordId)}; }
      tables := tables.(facts := facts, relations := relations, details := details, links := links);
      UpsertLeaves(old(tables), row, fact, tables);
    }

    /** One row; the outcome is meaningful only with the tables it leaves. */
    method IntegrateRow(row: Holding, position: int) returns (r: Outcome<RowStep>)
      modifies this
      ensures r == Step(old(tables), cfg, row, position)
      ensures r.Ok? ==> tables == r.value.tables
    {
      var product := ResolveProduct(row);
      if product.Raised? { return Raised(product.error); }
      var security, created := ResolveSecurity(row);
      if security.Raised? { return Raised(security.error); }
      var recorded := RecordHolding(tables, cfg, row, position, product.value, security.value);
      if recorded.Raised? { return Raised(recorded.error); }
      tables := recorded.value;
      if !product.value.Resolved? || !security.value.Resolved? {
        return Ok(RowStep(tables, product.value, security.value, created, false, false));
      }
      var inserted := UpsertHoldsFact(row, product.value.entity, security.value.entity);
      var issuer := UpsertIssuer(tables, cfg, row, security.value.entity);
      if issuer.Raised? { return Raised(issuer.error); }
      tables := issuer.value.GetOr(tables);
      return Ok(RowStep(tables, product.value, security.value, created, inserted, issuer.value.Some?));
    }

    /** One transaction: the report of a completed run, or an error with every table as it was. */
    method Integrate(rows: seq<Holding>) returns (r: Outcome<Report>)
      modifies this
      ensures match IdentityStore.Integrate(old(tables), cfg, rows)
              case Ok(run) => tables == run.tables && r == Ok(Tally(run.steps))
              case Raised(e) => tables == old(tables) && r == Raised(e)
    {
      hide Step, Run;
      var before := tables;
      var report := EMPTY_REPORT;
      ghost var steps: seq<RowStep> := [];
      var i := 0;
      assert rows[0..] == rows;
      AfterNothing(Run(tables, cfg, rows, 1));
      while i < |rows|
        invariant 0 <= i <= |rows|
        invariant report == Tally(steps)
        invariant After(steps, Run(tables, cfg, rows[i..], i + 1)) == IdentityStore.Integrate(before, cfg, rows)
      {
        RunFrom(tables, cfg, rows, i, steps);
        var row := IntegrateRow(rows[i], i + 1);
        if row.Raised? {
          tables := before;
          return Raised(row.error);
        }
        report := Count(report, row.value);
        assert (steps + [row.value])[..|steps|] == steps;
        steps := steps + [row.value];
        i := i + 1;
      }
      RunNothing(tables, cfg, rows[i..], i + 1, steps);
      return Ok(report);
    }
  }

  /** A run whose first rows were already done, with the steps `steps`. */
  ghost function After(steps: seq<RowStep>, rest: Outcome<RunResult>): Outcome<RunResult> {
    match rest
    case Raised(e) => Raised(e)
    case Ok(r) => Ok(RunResult(r.tables, steps + r.steps))
  }

  lemma UpsertLeaves(t: Tables, row: Holding, fact: FactId, t': Tables)
    requires t' == t.(facts := t'.facts, relations := t'.relations, details := t'.details, links := t'.links)
    requires t'.facts == (if fact in t.facts then t.facts else t.facts + {fact})
    requires t'.relations == (if fact in t.relations then t.relations else t.relations + {fact})
    requires t'.details == (if fact in t.details then t.details else t.details[fact := row.recordId])
    requires t'.links == (if (fact, row.recordId) in t.links then t.links else t.links + {(fact, row.recordId)})
    ensures t' == UpsertHolds(t, row, fact)
    ensures |t'.facts| == |t.facts| + Bit(fact !in t.facts)
    ensures fact in t'.facts && (fact, row.recordId) in t'.links
    ensures forall f :: f in t.details ==> f in t'.details && t'.details[f] == t.details[f]
  {
    assert t'.facts == t.facts + {fact} && t'.relations == t.relations + {fact} && t'.links == t.links + {(fact, row.recordId)};
  }

  lemma AfterNothing(rest: Outcome<RunResult>)
    ensures After([], rest) == rest
  {
    if rest.Ok? { assert [] + rest.value.steps == rest.value.steps; }
  }

  lemma RunNothing(t: Tables, cfg: Config, rows: seq<Holding>, position: int, steps: seq<RowStep>)
    requires rows == []
    ensures After(steps, Run(t, cfg, rows, position)) == Ok(RunResult(t, steps))
  {
    assert steps + [] == steps;
  }

  lemma RunFrom(t: Tables, cfg: Config, rows: seq<Holding>, i: nat, steps: seq<RowStep>)
    requires i < |rows|
    ensures After(steps, Run(t, cfg, rows[i..], i + 1)) ==
              match Step(t, cfg, rows[i], i + 1)
              case Raised(e) => Raised(e)
              case Ok(s) => After(steps + [s], Run(s.tables, cfg, rows[i + 1..], i + 2))
  {
    hide Step;
    assert rows[i..][1..] == rows[i + 1..];
    var s := Step(t, cfg, rows[i], i + 1);
    if s.Ok? {
      var rest := Run(s.value.tables, cfg, rows[i + 1..], i + 2);
      if rest.Ok? { assert steps + ([s.value] + rest.value.steps) == (steps + [s.value]) + rest.value.steps; }
    }
  }
}
