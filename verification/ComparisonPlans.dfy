/** Preparing a plan step for comparison, splitting a mixed universe into separately
    authorised ranking groups, and re-verifying a plan at execution. */
module ComparisonPlans {
  import opened Basics
  import opened TextForms
  import opened FilterTree
  import opened ComparisonContracts

  // ------------------------------------------------------------ contracts as plan data

  datatype Json =
    | JNull | JBool(flag: bool) | JText(text: string) | JNumber(number: int)
    | JList(items: seq<Json>) | JTuple(items: seq<Json>) | JMap(entries: map<string, Json>)

  function Optional(s: Option<string>): Json {
    if s.Some? then JText(s.value) else JNull
  }

  function AsPlanInput(c: Contract): map<string, Json> {
    map["metric" := JText(c.metric), "canonical_field" := JText(c.field), "dataset" := JText(c.dataset),
        "entity_grain" := JText(c.grain), "unit" := Optional(c.unit), "scale" := Optional(c.scale),
        "currency" := Optional(c.currency), "observation_date_semantics" := JText(c.dateSemantics),
        "filter_capability" := JBool(c.filterable), "sort_capability" := JBool(c.sortable),
        "cross_dataset_comparability" := JBool(c.crossDataset), "disabled_reason" := Optional(c.disabled),
        "source_field" := Optional(c.sourceField), "exact_period" := Optional(c.period),
        "percentage_representation" := Optional(c.percentage), "value_basis" := Optional(c.basis),
        "adjustment_semantics" := Optional(c.adjustment), "missing_value_semantics" := JText(c.missing),
        "comparison_kind" := JText(c.kind), "ordered_values" := JTuple([]), "answer_disclosure" := JNull]
  }

  /** A contract with, for returns, a note on how its period was chosen. */
  datatype Plan = Plan(contract: Contract, resolution: Option<Json>)

  const RESOLUTION := "metric_resolution"

  function PlanJson(p: Plan): Json {
    JMap(if p.resolution.Some? then AsPlanInput(p.contract)[RESOLUTION := p.resolution.value] else AsPlanInput(p.contract))
  }

  /** What a contract says: tuples read as lists, resolution notes dropped at every level. */
  function Semantics(j: Json): Json
    decreases j
  {
    match j
    case JList(xs) => JList(seq(|xs|, i requires 0 <= i < |xs| => Semantics(xs[i])))
    case JTuple(xs) => JList(seq(|xs|, i requires 0 <= i < |xs| => Semantics(xs[i])))
    case JMap(m) => JMap(map k | k in m && k != RESOLUTION :: Semantics(m[k]))
    case _ => j
  }

  lemma {:induction false} SemanticsIdempotent(j: Json)
    ensures Semantics(Semantics(j)) == Semantics(j)
    decreases j
  {
    match j
    case JList(xs) =>
      forall i | 0 <= i < |xs| { SemanticsIdempotent(xs[i]); }
      assert Semantics(Semantics(j)).items == Semantics(j).items;
    case JTuple(xs) =>
      forall i | 0 <= i < |xs| { SemanticsIdempotent(xs[i]); }
      assert Semantics(Semantics(j)).items == Semantics(j).items;
    case JMap(m) =>
      forall k | k in m { SemanticsIdempotent(m[k]); }
      assert Semantics(Semantics(j)).entries == Semantics(j).entries;
    case _ =>
  }

  lemma PlanEntries(p: Plan, k: string)
    requires k in AsPlanInput(p.contract)
    ensures Semantics(PlanJson(p)).JMap? && k in Semantics(PlanJson(p)).entries
    ensures Semantics(PlanJson(p)).entries[k] == Semantics(AsPlanInput(p.contract)[k])
  {
    var m := PlanJson(p).entries;
    assert k in m && m[k] == AsPlanInput(p.contract)[k];
  }

  lemma OptionalInjective(a: Option<string>, b: Option<string>)
    requires Semantics(Optional(a)) == Semantics(Optional(b))
    ensures a == b
  {
  }

  lemma SameEntry(p: Plan, q: Plan, k: string)
    requires Semantics(PlanJson(p)) == Semantics(PlanJson(q)) && k in AsPlanInput(p.contract)
    ensures k in AsPlanInput(q.contract) && Semantics(AsPlanInput(p.contract)[k]) == Semantics(AsPlanInput(q.contract)[k])
  {
    PlanEntries(p, k);
    PlanEntries(q, k);
  }

  lemma SemanticsOfPlan(p: Plan)
    ensures Semantics(PlanJson(p)) == Semantics(JMap(AsPlanInput(p.contract)))
  {
    assert Semantics(PlanJson(p)).entries == Semantics(JMap(AsPlanInput(p.contract))).entries;
  }

  lemma TextInjective(a: string, b: string)
    requires Semantics(JText(a)) == Semantics(JText(b))
    ensures a == b
  {
  }

  lemma FlagInjective(a: bool, b: bool)
    requires Semantics(JBool(a)) == Semantics(JBool(b))
    ensures a == b
  {
  }

  lemma IdentityEntriesAgree(p: Plan, q: Plan)
    requires Semantics(PlanJson(p)) == Semantics(PlanJson(q))
    ensures var a, b := p.contract, q.contract;
            a.metric == b.metric && a.field == b.field && a.dataset == b.dataset && a.grain == b.grain
  {
    hide Semantics, PlanJson, Optional;
    SameEntry(p, q, "metric"); TextInjective(p.contract.metric, q.contract.metric);
    SameEntry(p, q, "canonical_field"); TextInjective(p.contract.field, q.contract.field);
    SameEntry(p, q, "dataset"); TextInjective(p.contract.dataset, q.contract.dataset);
    SameEntry(p, q, "entity_grain"); TextInjective(p.contract.grain, q.contract.grain);
  }

  lemma TextEntriesAgree(p: Plan, q: Plan)
    requires Semantics(PlanJson(p)) == Semantics(PlanJson(q))
    ensures var a, b := p.contract, q.contract;
            a.dateSemantics == b.dateSemantics && a.missing == b.missing && a.kind == b.kind
  {
    hide Semantics, PlanJson, Optional;
    SameEntry(p, q, "observation_date_semantics"); TextInjective(p.contract.dateSemantics, q.contract.dateSemantics);
    SameEntry(p, q, "missing_value_semantics"); TextInjective(p.contract.missing, q.contract.missing);
    SameEntry(p, q, "comparison_kind"); TextInjective(p.contract.kind, q.contract.kind);
  }

  lemma FlagEntriesAgree(p: Plan, q: Plan)
    requires Semantics(PlanJson(p)) == Semantics(PlanJson(q))
    ensures var a, b := p.contract, q.contract;
            a.filterable == b.filterable && a.sortable == b.sortable && a.crossDataset == b.crossDataset
  {
    hide Semantics, PlanJson, Optional;
    SameEntry(p, q, "filter_capability"); FlagInjective(p.contract.filterable, q.contract.filterable);
    SameEntry(p, q, "sort_capability"); FlagInjective(p.contract.sortable, q.contract.sortable);
    SameEntry(p, q, "cross_dataset_comparability"); FlagInjective(p.contract.crossDataset, q.contract.crossDataset);
  }

  lemma UnitEntriesAgree(p: Plan, q: Plan)
    requires Semantics(PlanJson(p)) == Semantics(PlanJson(q))
    ensures var a, b := p.contract, q.contract;
            a.unit == b.unit && a.scale == b.scale && a.currency == b.currency && a.disabled == b.disabled && a.sourceField == b.sourceField
  {
    hide Semantics, PlanJson, Optional;
    SameEntry(p, q, "unit"); OptionalInjective(p.contract.unit, q.contract.unit);
    SameEntry(p, q, "scale"); OptionalInjective(p.contract.scale, q.contract.scale);
    SameEntry(p, q, "currency"); OptionalInjective(p.contract.currency, q.contract.currency);
    SameEntry(p, q, "disabled_reason"); OptionalInjective(p.contract.disabled, q.contract.disabled);
    SameEntry(p, q, "source_field"); OptionalInjective(p.contract.sourceField, q.contract.sourceField);
  }

  lemma BasisEntriesAgree(p: Plan, q: Plan)
    requires Semantics(PlanJson(p)) == Semantics(PlanJson(q))
    ensures var a, b := p.contract, q.contract;
            a.period == b.period && a.percentage == b.percentage && a.basis == b.basis && a.adjustment == b.adjustment
  {
    hide Semantics, PlanJson, Optional;
    SameEntry(p, q, "exact_period"); OptionalInjective(p.contract.period, q.contract.period);
    SameEntry(p, q, "percentage_representation"); OptionalInjective(p.contract.percentage, q.contract.percentage);
    SameEntry(p, q, "value_basis"); OptionalInjective(p.contract.basis, q.contract.basis);
    SameEntry(p, q, "adjustment_semantics"); OptionalInjective(p.contract.adjustment, q.contract.adjustment);
  }

  /** The semantics forget the resolution note and nothing else. */
  lemma PlansAgreeIff(p: Plan, q: Plan)
    ensures Semantics(PlanJson(p)) == Semantics(PlanJson(q)) <==> p.contract == q.contract
  {
    hide Semantics, PlanJson, AsPlanInput;
    SemanticsOfPlan(p);
    SemanticsOfPlan(q);
    if Semantics(PlanJson(p)) == Semantics(PlanJson(q)) {
      IdentityEntriesAgree(p, q);
      TextEntriesAgree(p, q);
      FlagEntriesAgree(p, q);
      UnitEntriesAgree(p, q);
      BasisEntriesAgree(p, q);
    }
  }

  // ------------------------------------------------------------ plan steps

  datatype Group = Group(
    id: string, requested: seq<string>, compared: seq<string>, execution: seq<string>,
    grain: string, field: string, coverage: string,
    excluded: seq<string>, exclusions: seq<string>, mode: string)

  datatype SortItem = SortItem(field: Option<string>, raw: string)
  datatype Requested = Opaque | Requested(field: string, raw: string)
  datatype FieldComparison = NoComparison | InvalidComparison | Fieldwise(fields: seq<string>)
  datatype Supplied = NotAList | Listed(contracts: seq<Json>)

  /** The inputs of a plan step. The last five fields are the ones preparation writes. */
  datatype Inputs = Inputs(
    scope: Scope,
    productTypes: seq<string>,
    sort: seq<SortItem>, sortIds: seq<Option<string>>,
    requested: seq<Requested>, requestedIds: seq<Option<string>>,
    hasTopN: bool, limitId: Option<string>,
    comparison: FieldComparison,
    comparisonScope: Option<Group>,
    groups: seq<Group>, contracts: Supplied, cross: seq<string>, reasons: seq<string>, cutoff: string)

  predicate IsPublicFund(f: Filter) {
    IsEquality(f, "product.offering_type") && f.canonical == Some(Text("OfferingType.PUBLIC"))
  }

  // ------------------------------------------------------------ ranking groups

  const SUPPORTED := {"DomesticETF", "ForeignETF", "PublicFund", "ETF"}

  function RequestedUniverse(q: Inputs): seq<string> {
    if q.scope.universe == [] && "FinancialProduct.Fund" in q.productTypes
       && (exists f :: f in q.scope.filters && IsPublicFund(f)) then ["PublicFund"]
    else q.scope.universe
  }

  function Unfold(operand: string): seq<string> {
    if operand == "ETF" then ["DomesticETF", "ForeignETF"] else [operand]
  }

  function AddNew(seen: seq<string>, values: seq<string>): seq<string>
    decreases |values|
  {
    if values == [] then seen
    else AddNew(if values[0] in seen then seen else seen + [values[0]], values[1..])
  }

  /** The operands with ETF split in two and repetitions dropped, in order of appearance. */
  function Expanded(requested: seq<string>): seq<string> {
    if requested == [] then []
    else AddNew(Expanded(requested[..|requested| - 1]), Unfold(requested[|requested| - 1]))
  }

  function DomesticGroup(requested: seq<string>): Group {
    Group("domestic_etf", requested, ["DomesticETF"], ["DomesticETF"], "financial_product", ONE_YEAR,
          "FULL_WITHIN_GROUP", [], [], "")
  }

  function ForeignGroup(requested: seq<string>): Group {
    Group("foreign_etf_ishares", requested, [ISHARES_SCOPE], [ISHARES_SCOPE], "financial_product", ONE_YEAR,
          "PARTIAL_SUBSET", ["ForeignETF outside READY iShares scope"],
          ["ONE_YEAR_RETURN_UNAVAILABLE_OUTSIDE_READY_FOREIGN_ETF_SCOPE"], "")
  }

  function FundGroup(requested: seq<string>): Group {
    Group("public_fund_share_class", requested, ["PublicFundShareClass"], ["PublicFund"], "fund_share_class", ONE_YEAR,
          "GRAIN_PRESERVING_GROUP", ["PublicFund family-level ranking"], ["COMPARISON_GRAIN_NOT_COMPATIBLE"], "")
  }

  function Pick(wanted: bool, g: Group): seq<Group> {
    if wanted then [g] else []
  }

  function BareGroups(requested: seq<string>): seq<Group> {
    var expanded := Expanded(requested);
    Pick("DomesticETF" in expanded, DomesticGroup(requested))
    + Pick("ForeignETF" in expanded, ForeignGroup(requested))
    + Pick("PublicFund" in expanded, FundGroup(requested))
  }

  const CROSS_GROUP := "CROSS_GROUP_RETURN_BASIS_NOT_COMPARABLE"

  function Finished(g: Group, several: bool): Group {
    if several then
      g.(mode := "GROUP_WISE", exclusions := if CROSS_GROUP in g.exclusions then g.exclusions else g.exclusions + [CROSS_GROUP])
    else g.(mode := "COMPARABLE_SUBSET")
  }

  function PartialGroups(field: string, q: Inputs): seq<Group> {
    var requested := RequestedUniverse(q);
    if field != ONE_YEAR || q.comparisonScope.Some? then []
    else if requested == [] || !(Elements(requested) <= SUPPORTED) || requested == ["DomesticETF"] then []
    else
      var bare := BareGroups(requested);
      seq(|bare|, i requires 0 <= i < |bare| => Finished(bare[i], |bare| > 1))
  }

  ghost predicate Distinct(xs: seq<string>) {
    forall i, j :: 0 <= i < j < |xs| ==> xs[i] != xs[j]
  }

  lemma {:induction false} AddNewElements(seen: seq<string>, values: seq<string>)
    requires Distinct(seen)
    ensures var r := AddNew(seen, values);
            && Distinct(r)
            && (forall x :: x in r <==> x in seen || x in values)
    decreases |values|
  {
    if values != [] {
      AddNewElements(if values[0] in seen then seen else seen + [values[0]], values[1..]);
    }
  }

  lemma {:induction false} ExpandedElements(requested: seq<string>)
    ensures var r := Expanded(requested);
            && Distinct(r)
            && (forall x :: x in r <==> exists o :: o in requested && x in Unfold(o))
    decreases |requested|
  {
    if requested != [] {
      var front, last := requested[..|requested| - 1], requested[|requested| - 1];
      ExpandedElements(front);
      AddNewElements(Expanded(front), Unfold(last));
      assert requested == front + [last];
      assert forall o :: o in requested <==> o in front || o == last;
    }
  }

  /** The universe a group of this operand is executed on. */
  function ExecutionOf(operand: string): seq<string> {
    if operand == "ForeignETF" then [ISHARES_SCOPE] else [operand]
  }

  lemma DistinctTriple(xs: seq<string>, a: string, b: string, c: string)
    requires Distinct(xs)
    requires Elements(xs) <= {a, b, c} && a != b && b != c && a != c
    ensures |xs| == (if a in xs then 1 else 0) + (if b in xs then 1 else 0) + (if c in xs then 1 else 0)
  {
    DistinctSize(xs);
    var x, y, z := if a in xs then {a} else {}, if b in xs then {b} else {}, if c in xs then {c} else {};
    assert Elements(xs) == (x + y) + z;
    assert x !! y && (x + y) !! z;
    assert |x + y| == |x| + |y|;
  }

  lemma {:induction false} DistinctSize(xs: seq<string>)
    requires Distinct(xs)
    ensures |Elements(xs)| == |xs|
    decreases |xs|
  {
    if xs != [] {
      var front, last := xs[..|xs| - 1], xs[|xs| - 1];
      DistinctSize(front);
      assert xs == front + [last];
      assert Elements(xs) == Elements(front) + {last};
      assert last !in front;
    }
  }

  lemma ExpandedAllowed(requested: seq<string>)
    requires Elements(requested) <= SUPPORTED
    ensures Elements(Expanded(requested)) <= {"DomesticETF", "ForeignETF", "PublicFund"}
    ensures requested != [] ==> Expanded(requested) != []
  {
    ExpandedElements(requested);
    forall x | x in Expanded(requested) ensures x in {"DomesticETF", "ForeignETF", "PublicFund"} {
      var o :| o in requested && x in Unfold(o);
      assert o in Elements(requested);
    }
    if requested != [] {
      var o := requested[0];
      assert Unfold(o)[0] in Unfold(o);
      assert Unfold(o)[0] in Expanded(requested);
    }
  }

  lemma FinishedKeeps(g: Group, several: bool)
    requires CROSS_GROUP !in g.exclusions
    ensures var f := Finished(g, several);
            && f.id == g.id && f.execution == g.execution && f.grain == g.grain && f.field == g.field
            && (f.mode == "GROUP_WISE" <==> several) && (CROSS_GROUP in f.exclusions <==> several)
  {
    var f := Finished(g, several);
    if several {
      assert f.exclusions[|f.exclusions| - 1] == CROSS_GROUP;
    }
    assert "COMPARABLE_SUBSET"[0] != "GROUP_WISE"[0];
  }

  lemma GroupFacts(requested: seq<string>)
    ensures var d, f, p := DomesticGroup(requested), ForeignGroup(requested), FundGroup(requested);
            && d.execution == ExecutionOf("DomesticETF") && f.execution == ExecutionOf("ForeignETF") && p.execution == ExecutionOf("PublicFund")
            && d.id != f.id && d.id != p.id && f.id != p.id
            && d.execution != f.execution && d.execution != p.execution && f.execution != p.execution
            && CROSS_GROUP !in d.exclusions && CROSS_GROUP !in f.exclusions && CROSS_GROUP !in p.exclusions
  {
    var d, f, p := DomesticGroup(requested), ForeignGroup(requested), FundGroup(requested);
    assert d.id[0] != f.id[0] && d.id[0] != p.id[0] && f.id[0] != p.id[0];
    assert d.execution[0][0] != f.execution[0][0] && d.execution[0][0] != p.execution[0][0] && f.execution[0][0] != p.execution[0][0];
    assert f.exclusions[0][|f.exclusions[0]| - 2] != CROSS_GROUP[|CROSS_GROUP| - 2];
    assert p.exclusions[0][1] != CROSS_GROUP[1];
  }

  function Executions(groups: seq<Group>): set<seq<string>> {
    set g | g in groups :: g.execution
  }

  function ExecutionsOf(operands: seq<string>): set<seq<string>> {
    set o | o in operands :: ExecutionOf(o)
  }

  ghost predicate AllDifferent(groups: seq<Group>) {
    forall i, j :: 0 <= i < j < |groups| ==> groups[i].id != groups[j].id && groups[i].execution != groups[j].execution
  }

  /** The groups of an allowed universe: one per expanded operand, all different. */
  ghost predicate OnePerOperand(groups: seq<Group>, expanded: seq<string>) {
    |groups| == |expanded| && Executions(groups) == ExecutionsOf(expanded) && AllDifferent(groups)
  }

  lemma PickThree(x: bool, y: bool, z: bool, d: Group, f: Group, p: Group)
    requires d.id != f.id && d.id != p.id && f.id != p.id
    requires d.execution != f.execution && d.execution != p.execution && f.execution != p.execution
    ensures var picked := Pick(x, d) + Pick(y, f) + Pick(z, p);
            && |picked| == (if x then 1 else 0) + (if y then 1 else 0) + (if z then 1 else 0)
            && (forall g :: g in picked <==> (g == d && x) || (g == f && y) || (g == p && z))
            && AllDifferent(picked)
  {
  }

  lemma BareGroupsMatch(requested: seq<string>)
    requires requested != [] && Elements(requested) <= SUPPORTED
    ensures OnePerOperand(BareGroups(requested), Expanded(requested))
    ensures forall i :: 0 <= i < |BareGroups(requested)| ==> CROSS_GROUP !in BareGroups(requested)[i].exclusions
  {
    hide Expanded, DomesticGroup, ForeignGroup, FundGroup, ExecutionOf, Pick, AllDifferent;
    var bare, expanded := BareGroups(requested), Expanded(requested);
    ExpandedAllowed(requested);
    ExpandedElements(requested);
    DistinctTriple(expanded, "DomesticETF", "ForeignETF", "PublicFund");
    GroupFacts(requested);
    var d, f, p := DomesticGroup(requested), ForeignGroup(requested), FundGroup(requested);
    PickThree("DomesticETF" in expanded, "ForeignETF" in expanded, "PublicFund" in expanded, d, f, p);
    forall o | o in expanded ensures ExecutionOf(o) in Executions(bare) {
      assert o in Elements(expanded);
      var g := if o == "DomesticETF" then d else if o == "ForeignETF" then f else p;
      assert g in bare;
    }
    forall i | 0 <= i < |bare| ensures CROSS_GROUP !in bare[i].exclusions {
      assert bare[i] in bare;
    }
  }

  /** When a universe is split, its groups correspond one to one with its expanded operands,
      and the ranking is group-wise exactly when there are at least two. */
  lemma GroupsMatchOperands(q: Inputs)
    requires PartialGroups(ONE_YEAR, q) != []
    ensures var groups := PartialGroups(ONE_YEAR, q);
            && OnePerOperand(groups, Expanded(RequestedUniverse(q)))
            && (forall i :: 0 <= i < |groups| ==> (groups[i].mode == "GROUP_WISE" <==> |groups| >= 2))
            && (forall i :: 0 <= i < |groups| ==> (CROSS_GROUP in groups[i].exclusions <==> |groups| >= 2))
  {
    hide Expanded, Finished, ExecutionOf, BareGroups, RequestedUniverse;
    var requested := RequestedUniverse(q);
    var bare, groups := BareGroups(requested), PartialGroups(ONE_YEAR, q);
    BareGroupsMatch(requested);
    forall i | 0 <= i < |bare|
      ensures groups[i].execution == bare[i].execution && groups[i].id == bare[i].id
      ensures groups[i].mode == "GROUP_WISE" <==> |groups| >= 2
      ensures CROSS_GROUP in groups[i].exclusions <==> |groups| >= 2
    {
      FinishedKeeps(bare[i], |bare| > 1);
    }
    SameExecutions(bare, groups, Expanded(requested));
  }

  lemma SameExecutions(a: seq<Group>, b: seq<Group>, expanded: seq<string>)
    requires OnePerOperand(a, expanded) && |a| == |b|
    requires forall i :: 0 <= i < |a| ==> a[i].execution == b[i].execution && a[i].id == b[i].id
    ensures OnePerOperand(b, expanded)
  {
    forall e | e in Executions(a) ensures e in Executions(b) {
      var i :| 0 <= i < |a| && a[i].execution == e;
      assert b[i] in b;
    }
    forall e | e in Executions(b) ensures e in Executions(a) {
      var i :| 0 <= i < |b| && b[i].execution == e;
      assert a[i] in a;
    }
  }

  // ------------------------------------------------------------ preparation

  datatype Ledger = Ledger(plans: seq<Plan>, unsupported: seq<string>, reasons: seq<string>, cross: seq<string>, groups: seq<Group>)

  const EMPTY_LEDGER := Ledger([], [], [], [], [])

  function Named(ids: seq<Option<string>>, i: nat): seq<string> {
    if i < |ids| && ids[i].Some? && ids[i].value != "" then [ids[i].value] else []
  }

  predicate DefaultPeriod(raw: string) {
    Lower(Strip(raw)) == "수익률" || Lower(Strip(raw)) == "return"
  }

  function PlanContract(c: Contract, field: string, raw: string): Plan {
    if field !in PREF01_RETURNS && !(field == ONE_YEAR && c == ISHARES_ONE_YEAR) then Plan(c, None)
    else Plan(c, Some(JMap(map[
      "status" := JText(if DefaultPeriod(raw) then "RESOLVABLE_UNDERSPECIFICATION" else "EXPLICIT_PERIOD"),
      "policy" := JText(if DefaultPeriod(raw) then "RETURN.default_period=1Y" else "query_explicit_period"),
      "requested_phrase" := JText(raw), "resolved_metric" := JText(field), "metric" := JText("RETURN"),
      "period" := Optional(c.period),
      "period_source" := JText(if DefaultPeriod(raw) then "DEFAULT_POLICY" else "EXPLICIT_QUERY")])))
  }

  function CrossProduct(field: string, universe: seq<string>): seq<string> {
    if field != ONE_YEAR then []
    else if universe == ["DomesticETF", "ForeignETF"] || universe == ["DomesticETF", "ForeignETF", "PublicFund"] then ["PARTIAL"]
    else if universe == [KODEX_SCOPE, TIGER_SCOPE, ISHARES_SCOPE] then ["NO"]
    else []
  }

  function SortOne(q: Inputs, i: nat, l: Ledger): Ledger
    requires i < |q.sort|
  {
    var field := q.sort[i].field.GetOr("None");
    var groups := PartialGroups(field, q);
    if groups != [] then l.(groups := groups)
    else
      var l' := l.(cross := l.cross + CrossProduct(field, q.scope.universe));
      match Authorise(field, q.scope)
      case Denied(reason) => l'.(unsupported := l'.unsupported + Named(q.sortIds, i), reasons := l'.reasons + [reason])
      case Authorised(c) => l'.(plans := l'.plans + [PlanContract(c, field, q.sort[i].raw)])
  }

  function RequestedOne(q: Inputs, i: nat, l: Ledger): Ledger
    requires i < |q.requested|
  {
    match q.requested[i]
    case Opaque => l
    case Requested(field, raw) =>
      if field !in PREF01_RETURNS then l
      else match Authorise(field, q.scope)
           case Denied(reason) => l.(unsupported := l.unsupported + Named(q.requestedIds, i), reasons := l.reasons + [reason])
           case Authorised(c) => l.(plans := l.plans + [PlanContract(c, field, raw)])
  }

  function TopNOne(q: Inputs, l: Ledger): Ledger {
    if q.hasTopN && q.sort == [] then
      l.(unsupported := l.unsupported + Named([q.limitId], 0), reasons := l.reasons + ["top_n_requires_explicit_sort"])
    else l
  }

  function FieldOne(q: Inputs, field: string, l: Ledger): Ledger {
    match Authorise(field, q.scope)
    case Denied(reason) => l.(reasons := l.reasons + [reason])
    case Authorised(c) => l.(plans := l.plans + [Plan(c, None)])
  }

  const RATINGS := {"C0", "B-", "B+", "BB-", "BB0", "BBB-", "BBB0", "BBB+", "A-", "A0", "A+", "AA-", "AA0", "AA+", "AAA"}

  predicate IsRating(v: Option<Value>) {
    match v
    case Some(Text(t)) => Upper(t) in RATINGS
    case Some(Texts(ts)) => ts != [] && forall t :: t in ts ==> Upper(t) in RATINGS
    case _ => false
  }

  function FilterOne(q: Inputs, i: nat, l: Ledger): Ledger
    requires i < |q.scope.filters|
  {
    match q.scope.filters[i]
    case NotAMapping => l
    case Filter(field, _, canonical, _) =>
      if field == "product.risk_grade" then
        l.(unsupported := l.unsupported + Named(q.scope.filterIds, i), reasons := l.reasons + [RISK_REASON])
      else if field == "product.current_sale_available" then l.(plans := l.plans + [Plan(PRBD_PURCHASABLE, None)])
      else if field != "product.credit_rating" then l
      else if IsRating(canonical) then l.(plans := l.plans + [Plan(PRBD_CREDIT_RATING, None)])
      else l.(unsupported := l.unsupported + Named(q.scope.filterIds, i), reasons := l.reasons + ["invalid_credit_rating"])
  }

  function SortPass(q: Inputs, n: nat, l: Ledger): Ledger
    requires n <= |q.sort|
  {
    if n == 0 then l else SortOne(q, n - 1, SortPass(q, n - 1, l))
  }

  function RequestedPass(q: Inputs, n: nat, l: Ledger): Ledger
    requires n <= |q.requested|
  {
    if n == 0 then l else RequestedOne(q, n - 1, RequestedPass(q, n - 1, l))
  }

  function FieldPass(q: Inputs, fields: seq<string>, n: nat, l: Ledger): Ledger
    requires n <= |fields|
  {
    if n == 0 then l else FieldOne(q, fields[n - 1], FieldPass(q, fields, n - 1, l))
  }

  function FilterPass(q: Inputs, n: nat, l: Ledger): Ledger
    requires n <= |q.scope.filters|
  {
    if n == 0 then l else FilterOne(q, n - 1, FilterPass(q, n - 1, l))
  }

  function ComparisonPass(q: Inputs, l: Ledger): Ledger {
    match q.comparison
    case NoComparison => l
    case InvalidComparison => l.(reasons := l.reasons + ["invalid_comparison_specification"])
    case Fieldwise(fields) =>
      if fields == [] then l.(reasons := l.reasons + ["invalid_comparison_specification"])
      else FieldPass(q, AddNew([], fields), |AddNew([], fields)|, l)
  }

  function FullLedger(q: Inputs): Ledger {
    var sorted := SortPass(q, |q.sort|, EMPTY_LEDGER);
    var requested := RequestedPass(q, |q.requested|, sorted);
    FilterPass(q, |q.scope.filters|, ComparisonPass(q, TopNOne(q, requested)))
  }

  /** The contract kept for a field, if any. */
  function KeptFor(kept: seq<Plan>, field: string): Option<Plan> {
    if kept == [] then None
    else if kept[0].contract.field == field then Some(kept[0])
    else KeptFor(kept[1..], field)
  }

  datatype ByField = ByField(kept: seq<Plan>, reasons: seq<string>)

  function KeepOne(b: ByField, p: Plan): ByField {
    match KeptFor(b.kept, p.contract.field)
    case None => b.(kept := b.kept + [p])
    case Some(previous) =>
      if Semantics(PlanJson(previous)) != Semantics(PlanJson(p))
      then b.(reasons := b.reasons + ["conflicting_comparison_contracts:" + p.contract.field])
      else b
  }

  function KeepFirst(plans: seq<Plan>, n: nat, reasons: seq<string>): ByField
    requires n <= |plans|
  {
    if n == 0 then ByField([], reasons) else KeepOne(KeepFirst(plans, n - 1, reasons), plans[n - 1])
  }

  function PlansJson(plans: seq<Plan>): seq<Json> {
    seq(|plans|, i requires 0 <= i < |plans| => PlanJson(plans[i]))
  }

  datatype Prepared = Prepared(inputs: Inputs, unsupported: seq<string>)

  const CUTOFF := "2026-08-24"

  function Kept(q: Inputs): ByField {
    KeepFirst(FullLedger(q).plans, |FullLedger(q).plans|, FullLedger(q).reasons)
  }

  function Prepare(q: Inputs): Prepared {
    var l := FullLedger(q);
    var b := Kept(q);
    Prepared(
      q.(groups := if l.groups != [] then l.groups else q.groups,
         contracts := Listed(PlansJson(b.kept)), cross := l.cross,
         reasons := AddNew([], b.reasons), cutoff := CUTOFF),
      AddNew([], l.unsupported))
  }

  /** Preparation as the source runs it: five passes over the step, then one contract per field. */
  method RunPrepare(q: Inputs) returns (r: Prepared)
    ensures r == Prepare(q)
  {
    hide SortOne, RequestedOne, FieldOne, FilterOne, TopNOne, KeepOne, PlansJson;
    var l := EMPTY_LEDGER;
    for i := 0 to |q.sort|
      invariant l == SortPass(q, i, EMPTY_LEDGER)
    {
      l := SortOne(q, i, l);
    }
    ghost var sorted := l;
    for i := 0 to |q.requested|
      invariant l == RequestedPass(q, i, sorted)
    {
      l := RequestedOne(q, i, l);
    }
    l := TopNOne(q, l);
    if q.comparison.Fieldwise? && q.comparison.fields != [] {
      var fields := AddNew([], q.comparison.fields);
      ghost var before := l;
      for i := 0 to |fields|
        invariant l == FieldPass(q, fields, i, before)
      {
        l := FieldOne(q, fields[i], l);
      }
    } else {
      l := ComparisonPass(q, l);
    }
    ghost var compared := l;
    for i := 0 to |q.scope.filters|
      invariant l == FilterPass(q, i, compared)
    {
      l := FilterOne(q, i, l);
    }
    assert l == FullLedger(q);
    var b := ByField([], l.reasons);
    for i := 0 to |l.plans|
      invariant b == KeepFirst(l.plans, i, l.reasons)
    {
      b := KeepOne(b, l.plans[i]);
    }
    r := Prepared(
      q.(groups := if l.groups != [] then l.groups else q.groups,
         contracts := Listed(PlansJson(b.kept)), cross := l.cross,
         reasons := AddNew([], b.reasons), cutoff := CUTOFF),
      AddNew([], l.unsupported));
  }

  /** Everything preparation reads is left as it was. */
  lemma LedgerIgnoresOutputs(q: Inputs, q': Inputs)
    requires q' == q.(groups := q'.groups, contracts := q'.contracts, cross := q'.cross, reasons := q'.reasons, cutoff := q'.cutoff)
    ensures FullLedger(q') == FullLedger(q) && Kept(q') == Kept(q)
  {
    hide SortPass, RequestedPass, FieldPass, FilterPass, KeepFirst, BareGroups, Finished, TopNOne;
    forall field ensures PartialGroups(field, q') == PartialGroups(field, q) {
      assert RequestedUniverse(q') == RequestedUniverse(q);
    }
    SortPassSame(q, q', |q.sort|, EMPTY_LEDGER);
    var sorted := SortPass(q, |q.sort|, EMPTY_LEDGER);
    RequestedPassSame(q, q', |q.requested|, sorted);
    TopNSame(q, q', RequestedPass(q, |q.requested|, sorted));
    var top := TopNOne(q, RequestedPass(q, |q.requested|, sorted));
    if q.comparison.Fieldwise? {
      FieldPassSame(q, q', AddNew([], q.comparison.fields), |AddNew([], q.comparison.fields)|, top);
    }
    FilterPassSame(q, q', |q.scope.filters|, ComparisonPass(q, top));
  }

  lemma TopNSame(q: Inputs, q': Inputs, l: Ledger)
    requires q'.hasTopN == q.hasTopN && q'.limitId == q.limitId && q'.sort == q.sort
    ensures TopNOne(q', l) == TopNOne(q, l)
  {
  }

  lemma {:induction false} SortPassSame(q: Inputs, q': Inputs, n: nat, l: Ledger)
    requires q'.sort == q.sort && q'.sortIds == q.sortIds && q'.scope == q.scope && n <= |q.sort|
    requires forall field :: PartialGroups(field, q') == PartialGroups(field, q)
    ensures SortPass(q', n, l) == SortPass(q, n, l)
  {
    hide PartialGroups, Authorise, PlanContract, CrossProduct, Named;
    if n > 0 { SortPassSame(q, q', n - 1, l); }
  }

  lemma {:induction false} RequestedPassSame(q: Inputs, q': Inputs, n: nat, l: Ledger)
    requires q'.requested == q.requested && q'.requestedIds == q.requestedIds && q'.scope == q.scope && n <= |q.requested|
    ensures RequestedPass(q', n, l) == RequestedPass(q, n, l)
  {
    if n > 0 { RequestedPassSame(q, q', n - 1, l); }
  }

  lemma {:induction false} FieldPassSame(q: Inputs, q': Inputs, fields: seq<string>, n: nat, l: Ledger)
    requires q'.scope == q.scope && n <= |fields|
    ensures FieldPass(q', fields, n, l) == FieldPass(q, fields, n, l)
  {
    if n > 0 { FieldPassSame(q, q', fields, n - 1, l); }
  }

  lemma {:induction false} FilterPassSame(q: Inputs, q': Inputs, n: nat, l: Ledger)
    requires q'.scope == q.scope && n <= |q.scope.filters|
    ensures FilterPass(q', n, l) == FilterPass(q, n, l)
  {
    if n > 0 { FilterPassSame(q, q', n - 1, l); }
  }

  /** Preparing a prepared step changes nothing and reports the same. */
  lemma PrepareIdempotent(q: Inputs)
    ensures Prepare(Prepare(q).inputs) == Prepare(q)
  {
    hide FullLedger, Kept;
    LedgerIgnoresOutputs(q, Prepare(q).inputs);
  }
}
