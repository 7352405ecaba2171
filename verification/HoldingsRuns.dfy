/** Whole integration runs: what one run leaves, what a second run adds, and how
    many runs it takes until nothing changes. */
module HoldingsRuns {
  import opened Basics
  import opened TextForms
  import opened IdentityStore
  import opened IdentityInvariants

  // ------------------------------------------------------------ rows that are finished

  ghost predicate Recorded(t: Tables, row: Holding) {
    row.recordId in t.sourceRows && row.recordId in t.holdingRecords && row.recordId in t.assertions
  }

  ghost predicate FactStored(t: Tables, fact: FactId, row: Holding) {
    fact in t.facts && fact in t.relations && (fact, row.recordId) in t.links
  }

  ghost predicate IssuerPosted(t: Tables, cfg: Config, row: Holding, security: EntityId) {
    match FirstMapped(cfg.issuers, IssuerKeys(row))
    case None => true
    case Some(org) =>
      && IsValidatedOrganization(t, org)
      && FactStored(t, IssuedBy(security, cfg.snapshot, org), row)
      && security in t.securities && t.securities[security]
  }

  /** The row's HOLDS fact is stored and evidenced by the row's own assertion. */
  ghost predicate HoldsPosted(t: Tables, cfg: Config, row: Holding, product: EntityId, security: EntityId) {
    var fact := HoldsFact(cfg, row, product, security);
    FactStored(t, fact, row) && fact in t.details
  }

  ghost predicate Posted(t: Tables, cfg: Config, row: Holding, security: EntityId) {
    ResolveProduct(t, row).Ok? &&
    var product := ResolveProduct(t, row).value.1;
    product.Resolved? ==> HoldsPosted(t, cfg, row, product.entity, security) && IssuerPosted(t, cfg, row, security)
  }

  /** Everything the row can contribute is already in the tables. */
  ghost predicate Done(t: Tables, cfg: Config, row: Holding) {
    && Recorded(t, row)
    && ResolveProduct(t, row).Ok?
    && (row.identity == NonSecurityPosition || Contested(t, row)
        || exists s :: Claimed(t, row, s) && Posted(t, cfg, row, s))
  }

  ghost predicate Stuck(t: Tables, row: Holding) {
    Recorded(t, row) && ResolveProduct(t, row).Ok? && Unanswerable(t, row)
  }

  lemma RecordedForever(t: Tables, t': Tables, row: Holding)
    requires Grows(t, t') && Recorded(t, row)
    ensures Recorded(t', row)
  {
  }

  lemma HoldsPostedForever(t: Tables, t': Tables, cfg: Config, row: Holding, product: EntityId, security: EntityId)
    requires Grows(t, t') && HoldsPosted(t, cfg, row, product, security)
    ensures HoldsPosted(t', cfg, row, product, security)
  {
  }

  lemma PostedForever(t: Tables, t': Tables, cfg: Config, row: Holding, s: EntityId)
    requires Valid(t) && Valid(t') && Grows(t, t') && Posted(t, cfg, row, s)
    ensures Posted(t', cfg, row, s)
  {
    ProductStable(t, t', row);
  }

  lemma DoneForever(t: Tables, t': Tables, cfg: Config, row: Holding)
    requires Valid(t) && Valid(t') && Grows(t, t') && Done(t, cfg, row)
    ensures Done(t', cfg, row)
  {
    ProductStable(t, t', row);
    if row.identity == NonSecurityPosition {
    } else if Contested(t, row) {
      ContestedForever(t, t', row);
    } else {
      var s :| Claimed(t, row, s) && Posted(t, cfg, row, s);
      ClaimedForever(t, t', row, s);
      PostedForever(t, t', cfg, row, s);
    }
  }

  // ------------------------------------------------------------ one row

  lemma RecordLeaves(t: Tables, cfg: Config, row: Holding, position: int, product: Resolution, security: Resolution)
    requires Valid(t) && RecordHolding(t, cfg, row, position, product, security).Ok?
    ensures var u := RecordHolding(t, cfg, row, position, product, security).value;
            && Valid(u) && Grows(t, u) && Recorded(u, row)
            && (Recorded(t, row) ==> u == t)
            && u == t.(sourceRows := u.sourceRows, holdingRecords := u.holdingRecords, assertions := u.assertions)
  {
    if Recorded(t, row) {
      assert t.assertions + {row.recordId} == t.assertions;
    }
  }

  lemma HoldsLeaves(t: Tables, row: Holding, fact: FactId)
    requires Valid(t)
    ensures var u := UpsertHolds(t, row, fact);
            && Valid(u) && Grows(t, u) && FactStored(u, fact, row) && fact in u.details
            && (FactStored(t, fact, row) && fact in t.details ==> u == t)
            && u == t.(facts := u.facts, relations := u.relations, details := u.details, links := u.links)
  {
    if FactStored(t, fact, row) {
      assert t.facts + {fact} == t.facts && t.relations + {fact} == t.relations;
      assert t.links + {(fact, row.recordId)} == t.links;
    }
  }

  lemma IssuerLeaves(t: Tables, cfg: Config, row: Holding, security: EntityId)
    requires Valid(t) && security in t.securities && UpsertIssuer(t, cfg, row, security).Ok?
    ensures var u := UpsertIssuer(t, cfg, row, security).value.GetOr(t);
            && Valid(u) && Grows(t, u) && IssuerPosted(u, cfg, row, security)
            && (IssuerPosted(t, cfg, row, security) ==> u == t)
            && u == t.(facts := u.facts, relations := u.relations, links := u.links, securities := u.securities)
  {
    hide FirstMapped, IssuerKeys, Valid, Grows;
    var org := FirstMapped(cfg.issuers, IssuerKeys(row));
    GrowsReflexive(t);
    if org.Some? {
      var fact := IssuedBy(security, cfg.snapshot, org.value);
      IssuedLeaves(t, fact, row, security);
      if IssuerPosted(t, cfg, row, security) {
        assert t.facts + {fact} == t.facts && t.relations + {fact} == t.relations;
        assert t.links + {(fact, row.recordId)} == t.links;
      }
    }
  }

  lemma IssuedLeaves(t: Tables, fact: FactId, row: Holding, security: EntityId)
    requires Valid(t) && security in t.securities
    ensures var u := t.(facts := t.facts + {fact}, relations := t.relations + {fact},
                        links := t.links + {(fact, row.recordId)}, securities := t.securities[security := true]);
            Valid(u) && Grows(t, u) && FactStored(u, fact, row)
  {
  }

  lemma ClaimedSame(t: Tables, u: Tables, row: Holding, s: EntityId)
    requires Claimed(t, row, s)
    requires u.entities == t.entities && u.identifiers == t.identifiers && u.collisions == t.collisions && u.schemes == t.schemes
    ensures Claimed(u, row, s)
  {
    assert forall k :: LiveOwners(u, k, Security) == LiveOwners(t, k, Security);
    assert forall k :: HasOpenCase(u, k) == HasOpenCase(t, k);
    assert forall k :: HasLive(u, k) == HasLive(t, k);
    assert SecurityOwners(u, Candidates(row)) == SecurityOwners(t, Candidates(row));
  }

  /** The fact upserts of an eligible row. */
  lemma FactsLeave(t: Tables, cfg: Config, row: Holding, product: EntityId, security: EntityId)
    requires Valid(t) && Claimed(t, row, security)
    requires UpsertIssuer(UpsertHolds(t, row, HoldsFact(cfg, row, product, security)), cfg, row, security).Ok?
    ensures var t4 := UpsertHolds(t, row, HoldsFact(cfg, row, product, security));
            var u := UpsertIssuer(t4, cfg, row, security).value.GetOr(t4);
            && Valid(u) && Grows(t, u) && HoldsPosted(u, cfg, row, product, security) && IssuerPosted(u, cfg, row, security)
            && u == t.(facts := u.facts, relations := u.relations, details := u.details, links := u.links, securities := u.securities)
  {
    hide Valid, Claimed, UpsertHolds, UpsertIssuer, IssuerPosted, HoldsFact;
    var fact := HoldsFact(cfg, row, product, security);
    var t4 := UpsertHolds(t, row, fact);
    HoldsLeaves(t, row, fact);
    ClaimedSame(t, t4, row, security);
    ClaimedHasRow(t4, row, security);
    IssuerLeaves(t4, cfg, row, security);
    GrowsTransitive(t, t4, UpsertIssuer(t4, cfg, row, security).value.GetOr(t4));
  }

  /** A completed step, part by part. */
  lemma StepIs(t: Tables, cfg: Config, row: Holding, position: int)
    requires Valid(t) && Step(t, cfg, row, position).Ok?
    ensures ResolveProduct(t, row).Ok? && ResolveSecurity(t, row).Ok?
    ensures var s, r := Step(t, cfg, row, position).value, ResolveSecurity(t, row).value;
            && s.security == r.resolution && s.product == ResolveProduct(t, row).value.1 && (!Eligible(s) ==> !s.inserted)
            && var recorded := RecordHolding(r.tables, cfg, row, position, s.product, s.security);
            && recorded.Ok?
            && (!Eligible(s) ==> s.tables == recorded.value)
            && (Eligible(s) ==>
                  var t4 := UpsertHolds(recorded.value, row, HoldsFact(cfg, row, s.product.entity, s.security.entity));
                  && UpsertIssuer(t4, cfg, row, s.security.entity).Ok?
                  && s.tables == UpsertIssuer(t4, cfg, row, s.security.entity).value.GetOr(t4))
  {
    ProductNeverWrites(t, row);
    hide Valid, ResolveProduct, ResolveSecurity, IsEtf, RecordHolding, UpsertHolds, UpsertIssuer, HoldsFact;
  }

  /** What a completed step does to the tables that resolving the security left. */
  lemma StepTables(t: Tables, cfg: Config, row: Holding, position: int)
    requires Valid(t) && Step(t, cfg, row, position).Ok?
    ensures ResolveProduct(t, row).Ok? && ResolveSecurity(t, row).Ok?
    ensures var s, r := Step(t, cfg, row, position).value, ResolveSecurity(t, row).value;
            && s.security == r.resolution && s.product == ResolveProduct(t, row).value.1
            && Valid(s.tables) && Grows(t, s.tables) && Recorded(s.tables, row)
            && (!Eligible(s) ==> !s.inserted && (Recorded(r.tables, row) ==> s.tables == r.tables))
            && (Eligible(s) ==> HoldsPosted(s.tables, cfg, row, s.product.entity, s.security.entity)
                                && IssuerPosted(s.tables, cfg, row, s.security.entity))
            && s.tables.entities == r.tables.entities && s.tables.identifiers == r.tables.identifiers
            && s.tables.collisions == r.tables.collisions && s.tables.schemes == r.tables.schemes
  {
    hide Step, Valid, Grows, ResolveProduct, ResolveSecurity, Contested, Unanswerable, Claimed;
    hide RecordHolding, UpsertHolds, UpsertIssuer, HoldsPosted, IssuerPosted, HoldsFact;
    StepIs(t, cfg, row, position);
    ResolveSecurityLeaves(t, row);
    var s, r := Step(t, cfg, row, position).value, ResolveSecurity(t, row).value;
    RecordLeaves(r.tables, cfg, row, position, s.product, s.security);
    var t3 := RecordHolding(r.tables, cfg, row, position, s.product, s.security).value;
    GrowsTransitive(t, r.tables, t3);
    if Eligible(s) {
      ClaimedSame(r.tables, t3, row, s.security.entity);
      FactsLeave(t3, cfg, row, s.product.entity, s.security.entity);
      GrowsTransitive(t, t3, s.tables);
    }
  }

  /** After a completed step the row is recorded, and finished unless it was UNRESOLVED. */
  lemma StepLeaves(t: Tables, cfg: Config, row: Holding, position: int)
    requires Valid(t) && Step(t, cfg, row, position).Ok?
    ensures var s := Step(t, cfg, row, position).value;
            && Valid(s.tables) && Grows(t, s.tables) && Recorded(s.tables, row)
            && ResolveProduct(s.tables, row) == Ok((s.tables, s.product))
            && (!s.security.Unresolved? ==> Done(s.tables, cfg, row))
            && (s.security.Unresolved? ==> Unanswerable(t, row) && !s.inserted && (Recorded(t, row) ==> s.tables == t))
            && (s.security.Resolved? ==> Claimed(s.tables, row, s.security.entity))
            && (Eligible(s) ==> HoldsPosted(s.tables, cfg, row, s.product.entity, s.security.entity))
  {
    hide Step, Valid, Grows, ResolveProduct, ResolveSecurity, Contested, Unanswerable, Claimed, HoldsPosted, IssuerPosted, Recorded;
    StepTables(t, cfg, row, position);
    ResolveSecurityLeaves(t, row);
    var s, r := Step(t, cfg, row, position).value, ResolveSecurity(t, row).value;
    ProductStable(t, s.tables, row);
    if s.security.Resolved? {
      ClaimedSame(r.tables, s.tables, row, s.security.entity);
      assert Posted(s.tables, cfg, row, s.security.entity);
    } else if s.security.Ambiguous? {
      ContestedForever(t, s.tables, row);
    }
  }

  /** A finished row is answered again and writes nothing. */
  lemma StepIdle(t: Tables, cfg: Config, row: Holding, position: int)
    requires Valid(t) && Done(t, cfg, row)
    ensures Step(t, cfg, row, position).Ok?
    ensures var s := Step(t, cfg, row, position).value;
            s.tables == t && !s.security.Unresolved? && !s.inserted
  {
    hide Valid, Grows, ResolveSecurity, Claimed, IsEtf, LookUp, ProductByTicker;
    ProductNeverWrites(t, row);
    var product := ResolveProduct(t, row).value.1;
    if row.identity == NonSecurityPosition {
      NonSecurityAnswers(t, row);
      RecordLeaves(t, cfg, row, position, product, NonSecurity);
    } else if Contested(t, row) {
      ContestedAnswers(t, row);
      RecordLeaves(t, cfg, row, position, product, Ambiguous);
    } else {
      var s :| Claimed(t, row, s) && Posted(t, cfg, row, s);
      ClaimedAnswers(t, row, s);
      RecordLeaves(t, cfg, row, position, product, Resolved(s));
      if product.Resolved? {
        HoldsLeaves(t, row, HoldsFact(cfg, row, product.entity, s));
        ClaimedHasRow(t, row, s);
        IssuerLeaves(t, cfg, row, s);
      }
    }
  }

  lemma StuckIdle(t: Tables, cfg: Config, row: Holding, position: int)
    requires Valid(t) && Stuck(t, row)
    ensures Step(t, cfg, row, position).Ok?
    ensures var s := Step(t, cfg, row, position).value;
            s.tables == t && s.security.Unresolved? && !s.inserted
  {
    ProductNeverWrites(t, row);
    FoundOwnersIs(t, Candidates(row), {});
    assert {} + SecurityOwners(t, Candidates(row)) == {};
    RecordLeaves(t, cfg, row, position, ResolveProduct(t, row).value.1, Unresolved);
  }

  // ------------------------------------------------------------ runs, row by row

  lemma {:induction false} RunLength(t: Tables, cfg: Config, rows: seq<Holding>, position: int)
    requires Run(t, cfg, rows, position).Ok?
    ensures |Run(t, cfg, rows, position).value.steps| == |rows|
    decreases |rows|
  {
    if rows != [] {
      RunLength(Step(t, cfg, rows[0], position).value.tables, cfg, rows[1..], position + 1);
    }
  }

  lemma {:induction false} RunGrows(t: Tables, cfg: Config, rows: seq<Holding>, position: int)
    requires Valid(t) && Run(t, cfg, rows, position).Ok?
    ensures Valid(Run(t, cfg, rows, position).value.tables) && Grows(t, Run(t, cfg, rows, position).value.tables)
    decreases |rows|
  {
    hide Step, Valid, Grows, Done, Recorded, Unanswerable, ResolveProduct, Claimed, HoldsPosted;
    GrowsReflexive(t);
    if rows != [] {
      var u := Step(t, cfg, rows[0], position).value.tables;
      StepLeaves(t, cfg, rows[0], position);
      RunGrows(u, cfg, rows[1..], position + 1);
      GrowsTransitive(t, u, Run(t, cfg, rows, position).value.tables);
    }
  }

  /** The state in which row `i` was processed. */
  lemma {:induction false} StepAt(t: Tables, cfg: Config, rows: seq<Holding>, position: int, i: nat) returns (u: Tables)
    requires Valid(t) && Run(t, cfg, rows, position).Ok? && i < |rows|
    ensures var r := Run(t, cfg, rows, position).value;
            && |r.steps| == |rows|
            && Valid(u) && Grows(t, u)
            && Step(u, cfg, rows[i], position + i) == Ok(r.steps[i])
            && Valid(r.tables) && Grows(r.steps[i].tables, r.tables)
    decreases |rows|
  {
    hide Step, Valid, Grows, Done, Recorded, Unanswerable, ResolveProduct, Claimed, HoldsPosted;
    var s := Step(t, cfg, rows[0], position).value;
    RunLength(t, cfg, rows, position);
    StepLeaves(t, cfg, rows[0], position);
    if i == 0 {
      u := t;
      GrowsReflexive(t);
      RunGrows(s.tables, cfg, rows[1..], position + 1);
    } else {
      u := StepAt(s.tables, cfg, rows[1..], position + 1, i - 1);
      GrowsTransitive(t, s.tables, u);
    }
  }

  /** Every row a completed run did not report UNRESOLVED is finished in its final state. */
  lemma RunFinishes(t: Tables, cfg: Config, rows: seq<Holding>, position: int, i: nat)
    requires Valid(t) && Run(t, cfg, rows, position).Ok? && i < |rows|
    ensures var r := Run(t, cfg, rows, position).value;
            && |r.steps| == |rows| && Valid(r.tables)
            && Recorded(r.tables, rows[i]) && ResolveProduct(r.tables, rows[i]).Ok?
            && (!r.steps[i].security.Unresolved? ==> Done(r.tables, cfg, rows[i]))
  {
    hide Valid, Grows, Done, Claimed, Run, Step, ResolveProduct;
    hide HasOpenCase, Candidates, ProductByTicker, ProductByProviderId;
    var u := StepAt(t, cfg, rows, position, i);
    StepLeaves(u, cfg, rows[i], position + i);
    var r := Run(t, cfg, rows, position).value;
    ProductStable(r.steps[i].tables, r.tables, rows[i]);
    RecordedForever(r.steps[i].tables, r.tables, rows[i]);
    if !r.steps[i].security.Unresolved? {
      DoneForever(r.steps[i].tables, r.tables, cfg, rows[i]);
    }
  }

  // ------------------------------------------------------------ tallies

  lemma {:induction false} TallySplit(s: RowStep, rest: seq<RowStep>)
    ensures Tally([s] + rest).securityUnresolved == Bit(s.security.Unresolved?) + Tally(rest).securityUnresolved
    ensures Tally([s] + rest).holdsFacts == Bit(s.inserted) + Tally(rest).holdsFacts
    decreases |rest|
  {
    var all := [s] + rest;
    if rest == [] {
      assert all[..0] == [] && all == [s];
      assert Tally(all) == Count(Tally([]), s);
    } else {
      assert all[..|all| - 1] == [s] + rest[..|rest| - 1];
      TallySplit(s, rest[..|rest| - 1]);
    }
  }

  /** Nothing is lost in the report: each row falls under one product status and one
      security status, and each eligible row is either a new fact or a duplicate. */
  lemma {:induction false} TallyConserves(steps: seq<RowStep>)
    requires forall i :: 0 <= i < |steps| ==> !steps[i].product.NonSecurity?
    requires forall i :: 0 <= i < |steps| ==> (steps[i].inserted || steps[i].issued ==> Eligible(steps[i]))
    ensures var r := Tally(steps);
            && r.constituents == |steps|
            && r.productResolved + r.productAmbiguous + r.productUnresolved == |steps|
            && r.securityResolved + r.securityAmbiguous + r.securityUnresolved + r.nonSecurity == |steps|
            && r.eligible == r.holdsFacts + r.deduplicated
            && r.eligible == r.issuerResolved + r.issuerUnresolved
            && r.collisions == r.productAmbiguous + r.securityAmbiguous
            && r.eligible <= r.productResolved && r.eligible <= r.securityResolved
    decreases |steps|
  {
    if steps != [] {
      TallyConserves(steps[..|steps| - 1]);
    }
  }

  ghost function HoldsFacts(t: Tables): set<FactId> {
    set f | f in t.facts && f.Holds?
  }

  /** What a step does to the fact table. */
  lemma StepFactTable(t: Tables, cfg: Config, row: Holding, position: int)
    requires Valid(t) && Step(t, cfg, row, position).Ok?
    ensures var s := Step(t, cfg, row, position).value;
            && !s.product.NonSecurity?
            && (s.inserted || s.issued ==> Eligible(s))
            && (!Eligible(s) ==> s.tables.facts == t.facts)
            && (Eligible(s) ==>
                  var fact := HoldsFact(cfg, row, s.product.entity, s.security.entity);
                  && s.inserted == (fact !in t.facts)
                  && t.facts <= s.tables.facts && fact in s.tables.facts
                  && forall f :: f in s.tables.facts ==> f in t.facts || f == fact || f.IssuedBy?)
  {
    hide Valid, Grows, Done, Claimed, Contested, Unanswerable, ResolveProduct, ResolveSecurity, FirstMapped, IssuerKeys, PositionTaken, IsValidatedOrganization, IsEtf;
    ProductNeverWrites(t, row);
    ResolveSecurityLeaves(t, row);
  }

  lemma StepFacts(t: Tables, cfg: Config, row: Holding, position: int)
    requires Valid(t) && Step(t, cfg, row, position).Ok?
    ensures var s := Step(t, cfg, row, position).value;
            && !s.product.NonSecurity?
            && (s.inserted || s.issued ==> Eligible(s))
            && |HoldsFacts(s.tables)| == |HoldsFacts(t)| + Bit(s.inserted)
  {
    hide Valid, Step;
    var s := Step(t, cfg, row, position).value;
    StepFactTable(t, cfg, row, position);
    if Eligible(s) {
      var fact := HoldsFact(cfg, row, s.product.entity, s.security.entity);
      assert HoldsFacts(s.tables) == HoldsFacts(t) + {fact};
      assert fact in HoldsFacts(t) <==> !s.inserted;
      if !s.inserted { assert HoldsFacts(t) + {fact} == HoldsFacts(t); }
    } else {
      assert HoldsFacts(s.tables) == HoldsFacts(t);
    }
  }

  lemma {:induction false} RunFacts(t: Tables, cfg: Config, rows: seq<Holding>, position: int)
    requires Valid(t) && Run(t, cfg, rows, position).Ok?
    ensures var r := Run(t, cfg, rows, position).value;
            && (forall i :: 0 <= i < |r.steps| ==> !r.steps[i].product.NonSecurity?)
            && (forall i :: 0 <= i < |r.steps| ==> (r.steps[i].inserted || r.steps[i].issued ==> Eligible(r.steps[i])))
            && |HoldsFacts(r.tables)| == |HoldsFacts(t)| + Tally(r.steps).holdsFacts
    decreases |rows|
  {
    hide Valid, Grows, Step, Done, Claimed, HoldsFacts, ResolveProduct, Unanswerable, HoldsPosted;
    if rows != [] {
      var s := Step(t, cfg, rows[0], position).value;
      StepLeaves(t, cfg, rows[0], position);
      StepFacts(t, cfg, rows[0], position);
      RunFacts(s.tables, cfg, rows[1..], position + 1);
      TallySplit(s, Run(s.tables, cfg, rows[1..], position + 1).value.steps);
    }
  }

  /** The report of every completed run adds up, and its HOLDS count is exactly the
      number of HOLDS facts the tables gained. */
  lemma ReportConserved(t: Tables, cfg: Config, rows: seq<Holding>)
    requires Valid(t) && Integrate(t, cfg, rows).Ok?
    ensures var run := Integrate(t, cfg, rows).value;
            var r := Tally(run.steps);
            && r.constituents == |rows|
            && r.productResolved + r.productAmbiguous + r.productUnresolved == |rows|
            && r.securityResolved + r.securityAmbiguous + r.securityUnresolved + r.nonSecurity == |rows|
            && r.eligible == r.holdsFacts + r.deduplicated
            && r.eligible == r.issuerResolved + r.issuerUnresolved
            && r.collisions == r.productAmbiguous + r.securityAmbiguous
            && |HoldsFacts(run.tables)| == |HoldsFacts(t)| + r.holdsFacts
  {
    RunLength(t, cfg, rows, 1);
    RunFacts(t, cfg, rows, 1);
    TallyConserves(Integrate(t, cfg, rows).value.steps);
  }

  /** Every eligible row of a completed run has its HOLDS fact stored, evidenced by its own assertion. */
  lemma EligibleRowsArePosted(t: Tables, cfg: Config, rows: seq<Holding>, i: nat)
    requires Valid(t) && Integrate(t, cfg, rows).Ok? && i < |rows|
    ensures var run := Integrate(t, cfg, rows).value;
            && |run.steps| == |rows|
            && (Eligible(run.steps[i]) ==>
                  && HoldsPosted(run.tables, cfg, rows[i], run.steps[i].product.entity, run.steps[i].security.entity)
                  && rows[i].recordId in run.tables.assertions)
  {
    hide Valid, Grows, Step, Run, Claimed, HoldsPosted, Done;
    var u := StepAt(t, cfg, rows, 1, i);
    StepLeaves(u, cfg, rows[i], 1 + i);
    RunFinishes(t, cfg, rows, 1, i);
    var run := Integrate(t, cfg, rows).value;
    if Eligible(run.steps[i]) {
      HoldsPostedForever(run.steps[i].tables, run.tables, cfg, rows[i], run.steps[i].product.entity, run.steps[i].security.entity);
    }
  }

  // ------------------------------------------------------------ a second run

  /** When every row is finished or stuck, a run writes nothing and is UNRESOLVED exactly on the stuck rows. */
  lemma {:induction false} RunIdle(t: Tables, cfg: Config, rows: seq<Holding>, position: int, stuck: seq<bool>)
    requires Valid(t) && |stuck| == |rows|
    requires forall i :: 0 <= i < |rows| ==> if stuck[i] then Stuck(t, rows[i]) else Done(t, cfg, rows[i])
    ensures Run(t, cfg, rows, position).Ok?
    ensures var r := Run(t, cfg, rows, position).value;
            && r.tables == t && |r.steps| == |rows|
            && Tally(r.steps).holdsFacts == 0
            && (forall i :: 0 <= i < |rows| ==> (r.steps[i].security.Unresolved? <==> stuck[i]))
    decreases |rows|
  {
    hide Step, Valid, Grows, Done, Stuck;
    if rows != [] {
      if stuck[0] { StuckIdle(t, cfg, rows[0], position); } else { StepIdle(t, cfg, rows[0], position); }
      var s := Step(t, cfg, rows[0], position).value;
      RunIdle(t, cfg, rows[1..], position + 1, stuck[1..]);
      TallySplit(s, Run(t, cfg, rows[1..], position + 1).value.steps);
    }
  }

  lemma {:induction false} UnresolvedCounted(steps: seq<RowStep>)
    ensures Tally(steps).securityUnresolved == 0 <==> forall i :: 0 <= i < |steps| ==> !steps[i].security.Unresolved?
    decreases |steps|
  {
    if steps != [] {
      UnresolvedCounted(steps[..|steps| - 1]);
    }
  }

  lemma {:induction false} UnresolvedCompared(a: seq<RowStep>, b: seq<RowStep>)
    requires |a| == |b|
    requires forall i :: 0 <= i < |a| ==> (b[i].security.Unresolved? ==> a[i].security.Unresolved?)
    ensures Tally(b).securityUnresolved <= Tally(a).securityUnresolved
    ensures Tally(b).securityUnresolved == Tally(a).securityUnresolved
        <==> forall i :: 0 <= i < |a| ==> (b[i].security.Unresolved? <==> a[i].security.Unresolved?)
    decreases |a|
  {
    if a != [] {
      UnresolvedCompared(a[..|a| - 1], b[..|b| - 1]);
      assert forall i :: 0 <= i < |a| - 1 ==> a[i] == a[..|a| - 1][i] && b[i] == b[..|b| - 1][i];
    }
  }

  /** Re-integration: when a run reports no UNRESOLVED security, running it again succeeds,
      changes no table, inserts no HOLDS fact and reports every eligible row as a duplicate. */
  lemma ReintegrationIsIdle(t: Tables, cfg: Config, rows: seq<Holding>)
    requires Valid(t) && Integrate(t, cfg, rows).Ok?
    requires Tally(Integrate(t, cfg, rows).value.steps).securityUnresolved == 0
    ensures var first := Integrate(t, cfg, rows).value;
            var again := Integrate(first.tables, cfg, rows);
            && again.Ok?
            && again.value.tables == first.tables
            && Tally(again.value.steps).holdsFacts == 0
            && Tally(again.value.steps).deduplicated == Tally(again.value.steps).eligible
            && Tally(again.value.steps).securityUnresolved == 0
  {
    hide Run, Step, Valid, Grows, Done, Stuck, Tally;
    var first := Integrate(t, cfg, rows).value;
    RunGrows(t, cfg, rows, 1);
    RunLength(t, cfg, rows, 1);
    UnresolvedCounted(first.steps);
    forall i | 0 <= i < |rows| ensures Done(first.tables, cfg, rows[i]) {
      RunFinishes(t, cfg, rows, 1, i);
    }
    RunIdle(first.tables, cfg, rows, 1, seq(|rows|, _ => false));
    UnresolvedCounted(Integrate(first.tables, cfg, rows).value.steps);
    ReportConserved(first.tables, cfg, rows);
  }

  lemma StuckAfterRun(t: Tables, cfg: Config, rows: seq<Holding>, i: nat)
    requires Valid(t) && Integrate(t, cfg, rows).Ok? && i < |rows|
    requires |Integrate(t, cfg, rows).value.steps| == |rows| && Integrate(t, cfg, rows).value.steps[i].security.Unresolved?
    requires SecurityOwners(Integrate(t, cfg, rows).value.tables, Candidates(rows[i])) == {}
    ensures Stuck(Integrate(t, cfg, rows).value.tables, rows[i])
  {
    var r := Integrate(t, cfg, rows).value;
    RunFinishes(t, cfg, rows, 1, i);
    var u := StepAt(t, cfg, rows, 1, i);
    StepLeaves(u, cfg, rows[i], 1 + i);
    GrowsTransitive(u, r.steps[i].tables, r.tables);
    OwnersGrow(u, r.tables, Candidates(rows[i]));
  }

  /** A row unresolved in the second run was unresolved in the first, and no Security owned any of its keys in between. */
  lemma UnresolvedAgain(t: Tables, cfg: Config, rows: seq<Holding>, i: nat)
    requires Valid(t) && Integrate(t, cfg, rows).Ok? && i < |rows|
    requires Integrate(Integrate(t, cfg, rows).value.tables, cfg, rows).Ok?
    ensures var first := Integrate(t, cfg, rows).value;
            var second := Integrate(first.tables, cfg, rows).value;
            && |first.steps| == |rows| == |second.steps|
            && (second.steps[i].security.Unresolved? ==>
                  first.steps[i].security.Unresolved? && SecurityOwners(first.tables, Candidates(rows[i])) == {})
  {
    hide Run, Step, Valid, Grows, Done, Stuck, SecurityOwners, Candidates;
    var first := Integrate(t, cfg, rows).value;
    RunFinishes(t, cfg, rows, 1, i);
    var u := StepAt(first.tables, cfg, rows, 1, i);
    StepLeaves(u, cfg, rows[i], 1 + i);
    OwnersGrow(first.tables, u, Candidates(rows[i]));
    if Done(first.tables, cfg, rows[i]) {
      DoneForever(first.tables, u, cfg, rows[i]);
      StepIdle(u, cfg, rows[i], 1 + i);
    }
  }

  /** A caller may check, between the runs, whether any row left UNRESOLVED now has a key owned
      by a Security. Exactly when there is none does the second run agree with the first on
      how many rows are UNRESOLVED; it then also writes nothing at all. */
  lemma SecondRunAgreesIff(t: Tables, cfg: Config, rows: seq<Holding>)
    requires Valid(t) && Integrate(t, cfg, rows).Ok?
    ensures |Integrate(t, cfg, rows).value.steps| == |rows|
    ensures var first := Integrate(t, cfg, rows).value;
            var second := Integrate(first.tables, cfg, rows);
            (forall i :: 0 <= i < |rows| && first.steps[i].security.Unresolved? ==>
               SecurityOwners(first.tables, Candidates(rows[i])) == {})
            <==> second.Ok? && Tally(second.value.steps).securityUnresolved == Tally(first.steps).securityUnresolved
    ensures var first := Integrate(t, cfg, rows).value;
            var second := Integrate(first.tables, cfg, rows);
            (forall i :: 0 <= i < |rows| && first.steps[i].security.Unresolved? ==>
               SecurityOwners(first.tables, Candidates(rows[i])) == {})
            ==> second.Ok? && second.value.tables == first.tables && Tally(second.value.steps).holdsFacts == 0
  {
    hide Run, Step, Valid, Grows, Done, Stuck, SecurityOwners, Candidates, Tally;
    var first := Integrate(t, cfg, rows).value;
    RunGrows(t, cfg, rows, 1);
    RunLength(t, cfg, rows, 1);
    if forall i :: 0 <= i < |rows| && first.steps[i].security.Unresolved? ==>
         SecurityOwners(first.tables, Candidates(rows[i])) == {} {
      var stuck := seq(|rows|, i requires 0 <= i < |rows| => first.steps[i].security.Unresolved?);
      forall i | 0 <= i < |rows| ensures if stuck[i] then Stuck(first.tables, rows[i]) else Done(first.tables, cfg, rows[i]) {
        if stuck[i] { StuckAfterRun(t, cfg, rows, i); } else { RunFinishes(t, cfg, rows, 1, i); }
      }
      RunIdle(first.tables, cfg, rows, 1, stuck);
      UnresolvedCompared(first.steps, Integrate(first.tables, cfg, rows).value.steps);
    }
    var second := Integrate(first.tables, cfg, rows);
    if second.Ok? && Tally(second.value.steps).securityUnresolved == Tally(first.steps).securityUnresolved {
      RunLength(first.tables, cfg, rows, 1);
      forall i | 0 <= i < |rows|
        ensures second.value.steps[i].security.Unresolved? ==>
                  first.steps[i].security.Unresolved? && SecurityOwners(first.tables, Candidates(rows[i])) == {}
      {
        UnresolvedAgain(t, cfg, rows, i);
      }
      UnresolvedCompared(first.steps, second.value.steps);
    }
  }

  // ------------------------------------------------------------ convergence

  ghost function Unfinished(t: Tables, cfg: Config, rows: seq<Holding>): nat {
    if rows == [] then 0 else Bit(!Done(t, cfg, rows[0])) + Unfinished(t, cfg, rows[1..])
  }

  ghost predicate AllRecorded(t: Tables, rows: seq<Holding>) {
    forall i :: 0 <= i < |rows| ==> Recorded(t, rows[i])
  }

  lemma AllRecordedForever(t: Tables, t': Tables, rows: seq<Holding>)
    requires Grows(t, t') && AllRecorded(t, rows)
    ensures AllRecorded(t', rows)
    ensures rows != [] ==> AllRecorded(t', rows[1..])
  {
    forall i | 0 <= i < |rows| ensures Recorded(t', rows[i]) {
      RecordedForever(t, t', rows[i]);
    }
  }

  lemma {:induction false} UnfinishedShrinks(t: Tables, t': Tables, cfg: Config, rows: seq<Holding>)
    requires Valid(t) && Valid(t') && Grows(t, t')
    ensures Unfinished(t', cfg, rows) <= Unfinished(t, cfg, rows)
    decreases |rows|
  {
    if rows != [] {
      UnfinishedShrinks(t, t', cfg, rows[1..]);
      if Done(t, cfg, rows[0]) { DoneForever(t, t', cfg, rows[0]); }
    }
  }

  /** After a run at most its UNRESOLVED rows are unfinished. */
  lemma {:induction false} UnfinishedAfterRun(t: Tables, cfg: Config, rows: seq<Holding>, position: int)
    requires Valid(t) && Run(t, cfg, rows, position).Ok?
    ensures var r := Run(t, cfg, rows, position).value;
            Unfinished(r.tables, cfg, rows) <= Tally(r.steps).securityUnresolved
    decreases |rows|
  {
    hide Step, Valid, Grows, Done, Recorded, Unanswerable, ResolveProduct, Claimed, HoldsPosted;
    if rows != [] {
      var s := Step(t, cfg, rows[0], position).value;
      StepLeaves(t, cfg, rows[0], position);
      UnfinishedAfterRun(s.tables, cfg, rows[1..], position + 1);
      TallySplit(s, Run(s.tables, cfg, rows[1..], position + 1).value.steps);
      RunFinishes(t, cfg, rows, position, 0);
    }
  }

  /** Over recorded rows, a run that changes a table reports fewer UNRESOLVED rows than were unfinished. */
  lemma {:induction false} ChangeMeansProgress(t: Tables, cfg: Config, rows: seq<Holding>, position: int)
    requires Valid(t) && AllRecorded(t, rows) && Run(t, cfg, rows, position).Ok?
    ensures var r := Run(t, cfg, rows, position).value;
            && Tally(r.steps).securityUnresolved <= Unfinished(t, cfg, rows)
            && (r.tables != t ==> Tally(r.steps).securityUnresolved < Unfinished(t, cfg, rows))
    decreases |rows|
  {
    hide Step, Valid, Grows, Done, Recorded, Unanswerable, ResolveProduct, Claimed, HoldsPosted;
    if rows != [] {
      var s := Step(t, cfg, rows[0], position).value;
      StepLeaves(t, cfg, rows[0], position);
      AllRecordedForever(t, s.tables, rows);
      ChangeMeansProgress(s.tables, cfg, rows[1..], position + 1);
      UnfinishedShrinks(t, s.tables, cfg, rows[1..]);
      TallySplit(s, Run(s.tables, cfg, rows[1..], position + 1).value.steps);
      if Done(t, cfg, rows[0]) { StepIdle(t, cfg, rows[0], position); }
    }
  }

  lemma {:induction false} AllDone(t: Tables, cfg: Config, rows: seq<Holding>)
    requires Unfinished(t, cfg, rows) == 0
    ensures forall i :: 0 <= i < |rows| ==> Done(t, cfg, rows[i])
    decreases |rows|
  {
    if rows != [] {
      AllDone(t, cfg, rows[1..]);
      assert forall i :: 1 <= i < |rows| ==> rows[i] == rows[1..][i - 1];
    }
  }

  /** The tables after `n` consecutive runs. */
  ghost function AfterRuns(t: Tables, cfg: Config, rows: seq<Holding>, n: nat): Outcome<Tables>
    decreases n
  {
    if n == 0 then Ok(t)
    else match Integrate(t, cfg, rows)
         case Raised(e) => Raised(e)
         case Ok(r) => AfterRuns(r.tables, cfg, rows, n - 1)
  }

  ghost predicate IsFixpoint(t: Tables, cfg: Config, rows: seq<Holding>) {
    Integrate(t, cfg, rows).Ok? && Integrate(t, cfg, rows).value.tables == t
  }

  lemma {:induction false} FixpointStays(t: Tables, cfg: Config, rows: seq<Holding>, n: nat)
    requires IsFixpoint(t, cfg, rows)
    ensures AfterRuns(t, cfg, rows, n) == Ok(t)
  {
    if n > 0 { FixpointStays(t, cfg, rows, n - 1); }
  }

  lemma RunRecords(t: Tables, cfg: Config, rows: seq<Holding>)
    requires Valid(t) && Integrate(t, cfg, rows).Ok?
    ensures AllRecorded(Integrate(t, cfg, rows).value.tables, rows)
  {
    forall i | 0 <= i < |rows| ensures Recorded(Integrate(t, cfg, rows).value.tables, rows[i]) {
      RunFinishes(t, cfg, rows, 1, i);
    }
  }

  lemma {:induction false} SettlesWithin(t: Tables, cfg: Config, rows: seq<Holding>, k: nat)
    requires Valid(t) && AllRecorded(t, rows) && Unfinished(t, cfg, rows) <= k
    requires AfterRuns(t, cfg, rows, k).Ok?
    ensures IsFixpoint(AfterRuns(t, cfg, rows, k).value, cfg, rows)
    decreases k
  {
    hide Run, Valid, Grows, Step, Done, Recorded;
    if k == 0 {
      AllDone(t, cfg, rows);
      RunIdle(t, cfg, rows, 1, seq(|rows|, _ => false));
    } else {
      var u := Integrate(t, cfg, rows).value.tables;
      ChangeMeansProgress(t, cfg, rows, 1);
      if u == t {
        FixpointStays(t, cfg, rows, k);
      } else {
        RunGrows(t, cfg, rows, 1);
        UnfinishedAfterRun(t, cfg, rows, 1);
        RunRecords(t, cfg, rows);
        SettlesWithin(u, cfg, rows, k - 1);
      }
    }
  }

  /** Repeated runs reach a state no further run changes within one more run than the first
      left UNRESOLVED rows. */
  lemma RepeatedRunsConverge(t: Tables, cfg: Config, rows: seq<Holding>, n: nat)
    requires Valid(t) && Integrate(t, cfg, rows).Ok?
    requires Tally(Integrate(t, cfg, rows).value.steps).securityUnresolved + 1 <= n
    requires AfterRuns(t, cfg, rows, n).Ok?
    ensures IsFixpoint(AfterRuns(t, cfg, rows, n).value, cfg, rows)
    ensures Tally(Integrate(AfterRuns(t, cfg, rows, n).value, cfg, rows).value.steps).holdsFacts == 0
  {
    hide Run, Valid, Grows, Step, Done, Recorded;
    RunGrows(t, cfg, rows, 1);
    UnfinishedAfterRun(t, cfg, rows, 1);
    RunRecords(t, cfg, rows);
    SettlesWithin(Integrate(t, cfg, rows).value.tables, cfg, rows, n - 1);
    AfterRunsValid(t, cfg, rows, n);
    ReportConserved(AfterRuns(t, cfg, rows, n).value, cfg, rows);
  }

  lemma {:induction false} AfterRunsValid(t: Tables, cfg: Config, rows: seq<Holding>, n: nat)
    requires Valid(t) && AfterRuns(t, cfg, rows, n).Ok?
    ensures Valid(AfterRuns(t, cfg, rows, n).value)
    decreases n
  {
    hide Run, Valid, Grows, Step, Done, Recorded;
    if n > 0 {
      RunGrows(t, cfg, rows, 1);
      AfterRunsValid(Integrate(t, cfg, rows).value.tables, cfg, rows, n - 1);
    }
  }

  // ------------------------------------------------------------ the second run may differ

  const EMPTY := Tables(map[], map[], map[], {}, {}, map[], map[], map[], {}, {}, {}, map[], {})
  const BARE := Holding("a", true, "P", "", "", "", "", "", "", "X1", SourceIdOnly, Kodex, 0)
  const FULL := Holding("b", true, "P", "", "", "", "US0001", "", "", "X1", VerifiedIdentifier, Kodex, 0)

  lemma BareIsUnresolved(cfg: Config)
    ensures Valid(EMPTY)
    ensures Step(EMPTY, cfg, BARE, 1).Ok? && Step(EMPTY, cfg, BARE, 1).value.security == Unresolved
    ensures Step(EMPTY, cfg, BARE, 1).value.tables.identifiers == {}
    ensures Step(EMPTY, cfg, BARE, 1).value.tables.collisions == map[]
    ensures Step(EMPTY, cfg, BARE, 1).value.tables.sourceRows == map["a" := SourceRow(cfg.snapshot, 1)]
  {
    hide Normalized;
    ProductNeverWrites(EMPTY, BARE);
    FoundOwnersIs(EMPTY, Candidates(BARE), {});
    assert SecurityOwners(EMPTY, Candidates(BARE)) == {};
  }

  lemma FullFounds(t: Tables)
    requires Valid(t) && t.identifiers == {} && t.collisions == map[]
    ensures ResolveProduct(t, FULL).Ok? && ResolveProduct(t, FULL).value.1 == Unresolved
    ensures ResolveSecurity(t, FULL).Ok? && ResolveSecurity(t, FULL).value.resolution.Resolved?
  {
    hide Normalized, Valid, Upper, Lower;
    assert forall k, kind :: LiveOwners(t, k, kind) == {};
    FoundOwnersIs(t, Candidates(FULL), {}) by { assert Valid(t); ValidIsUnique(t); }
    assert SecurityOwners(t, Candidates(FULL)) == {};
    assert !AnyOpen(t, Candidates(FULL));
  }

  lemma SecondIsRecorded(t: Tables, cfg: Config, product: Resolution, security: Resolution)
    requires t.sourceRows == map["a" := SourceRow(cfg.snapshot, 1)]
    ensures RecordHolding(t, cfg, FULL, 2, product, security).Ok?
    ensures RecordHolding(t, cfg, FULL, 2, product, security).value.collisions == t.collisions
  {
  }

  lemma FullIsResolved(t: Tables, cfg: Config)
    requires Valid(t) && t.identifiers == {} && t.collisions == map[]
    requires t.sourceRows == map["a" := SourceRow(cfg.snapshot, 1)]
    ensures Step(t, cfg, FULL, 2).Ok? && Step(t, cfg, FULL, 2).value.security.Resolved?
    ensures Step(t, cfg, FULL, 2).value.tables.collisions == map[]
  {
    FullFounds(t);
    hide ResolveProduct, ResolveSecurity, Valid, Grows, Claimed, Contested, Unanswerable, RecordHolding, UpsertHolds, UpsertIssuer;
    ProductNeverWrites(t, FULL);
    ResolveSecurityLeaves(t, FULL);
    var r := ResolveSecurity(t, FULL).value;
    SecondIsRecorded(r.tables, cfg, Unresolved, r.resolution);
  }

  lemma OwnedKeyResolves(t: Tables, s: EntityId)
    requires Valid(t) && t.collisions == map[] && s in SecurityOwners(t, Candidates(BARE))
    ensures ResolveSecurity(t, BARE).Ok? && ResolveSecurity(t, BARE).value.resolution == Resolved(s)
  {
    hide Normalized, Valid;
    var k := Candidates(BARE)[0];
    assert Candidates(BARE) == [k];
    ValidIsUnique(t);
    FoundOwnersIs(t, Candidates(BARE), {});
    AtMostOneOwner(t, k, Security);
    assert SecurityOwners(t, Candidates(BARE)) == LiveOwners(t, k, Security);
    assert !AnyOpen(t, Candidates(BARE));
    hide LiveOwners, Candidates;
    assert {} + SecurityOwners(t, Candidates(BARE)) == SecurityOwners(t, Candidates(BARE));
  }

  /** A row UNRESOLVED in the first run may be RESOLVED in the second: a later row attached
      its provider id to the Security it founded on an ISIN. */
  lemma UnresolvedMayResolveLater(cfg: Config)
    ensures Valid(EMPTY)
    ensures var first := Integrate(EMPTY, cfg, [BARE, FULL]);
            && first.Ok? && |first.value.steps| == 2
            && first.value.steps[0].security == Unresolved
            && SecurityOwners(first.value.tables, Candidates(BARE)) != {}
            && ResolveSecurity(first.value.tables, BARE).Ok? && ResolveSecurity(first.value.tables, BARE).value.resolution.Resolved?
  {
    hide Step, Valid, Grows, Normalized;
    BareIsUnresolved(cfg);
    var s1 := Step(EMPTY, cfg, BARE, 1).value;
    StepLeaves(EMPTY, cfg, BARE, 1);
    FullIsResolved(s1.tables, cfg);
    var s2 := Step(s1.tables, cfg, FULL, 2).value;
    StepLeaves(s1.tables, cfg, FULL, 2);
    var rows := [BARE, FULL];
    assert rows[1..] == [FULL] && rows[1..][1..] == [];
    assert Run(s1.tables, cfg, rows[1..], 2) == Ok(RunResult(s2.tables, [s2] + []));
    var k := Candidates(BARE)[0];
    assert k in Candidates(FULL) by { assert Candidates(FULL)[1] == k; }
    assert HasLive(s2.tables, k);
    var r :| r in s2.tables.identifiers && r.key == k && r.live;
    OwnerOfFresh(s1.tables, s2.tables, r);
    assert r.owner in LiveOwners(s2.tables, k, Security);
    assert r.owner in SecurityOwners(s2.tables, Candidates(BARE));
    hide ResolveSecurity;
    OwnedKeyResolves(s2.tables, r.owner);
  }

  lemma OwnerOfFresh(t: Tables, t': Tables, r: Identifier)
    requires Grows(t, t') && r in t'.identifiers && r !in t.identifiers
    ensures r.owner in t'.entities && t'.entities[r.owner].kind == Security
  {
  }
}
