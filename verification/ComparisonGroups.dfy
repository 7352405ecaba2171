/** Re-verification of a prepared step, and the specialisation of one ranking group. */
module ComparisonGroups {
  import opened Basics
  import opened FilterTree
  import opened ComparisonContracts
  import opened ComparisonPlans

  // ------------------------------------------------------------ one contract per field

  ghost predicate OnePerField(kept: seq<Plan>) {
    forall i, j :: 0 <= i < j < |kept| ==> kept[i].contract.field != kept[j].contract.field
  }

  lemma {:induction false} KeptForFinds(kept: seq<Plan>, field: string)
    ensures KeptFor(kept, field).Some? ==> KeptFor(kept, field).value in kept && KeptFor(kept, field).value.contract.field == field
    ensures KeptFor(kept, field).None? ==> forall p :: p in kept ==> p.contract.field != field
  {
    if kept != [] && kept[0].contract.field != field { KeptForFinds(kept[1..], field); }
  }

  lemma KeptForMember(kept: seq<Plan>, i: nat)
    requires OnePerField(kept) && i < |kept|
    ensures KeptFor(kept, kept[i].contract.field) == Some(kept[i])
  {
    assert kept[i] in kept;
    KeptForFinds(kept, kept[i].contract.field);
    var j :| 0 <= j < |kept| && kept[j] == KeptFor(kept, kept[i].contract.field).value;
    assert !(i < j) && !(j < i);
  }

  lemma {:induction false} KeptForAppended(kept: seq<Plan>, p: Plan, field: string)
    ensures KeptFor(kept + [p], field) ==
              if KeptFor(kept, field).Some? then KeptFor(kept, field)
              else if p.contract.field == field then Some(p) else None
  {
    if kept != [] {
      assert (kept + [p])[1..] == kept[1..] + [p];
      if kept[0].contract.field != field { KeptForAppended(kept[1..], p, field); }
    } else {
      assert (kept + [p])[1..] == [];
    }
  }

  lemma {:induction false} KeepFirstIsOnePerField(plans: seq<Plan>, n: nat, reasons: seq<string>)
    requires n <= |plans|
    ensures OnePerField(KeepFirst(plans, n, reasons).kept)
    ensures forall p :: p in KeepFirst(plans, n, reasons).kept ==> p in plans
    ensures forall i :: 0 <= i < n ==> KeptFor(KeepFirst(plans, n, reasons).kept, plans[i].contract.field).Some?
  {
    hide Semantics, PlanJson;
    if n > 0 {
      KeepFirstIsOnePerField(plans, n - 1, reasons);
      var b := KeepFirst(plans, n - 1, reasons);
      var p := plans[n - 1];
      KeptForFinds(b.kept, p.contract.field);
      if KeptFor(b.kept, p.contract.field).None? {
        forall i | 0 <= i < n ensures KeptFor(b.kept + [p], plans[i].contract.field).Some? {
          KeptForAppended(b.kept, p, plans[i].contract.field);
        }
      }
    }
  }

  // ------------------------------------------------------------ re-verification

  const FIELD := "canonical_field"

  predicate NamesField(j: Json) {
    j.JMap? && FIELD in j.entries && j.entries[FIELD].JText?
  }

  function FieldOf(j: Json): string
    requires NamesField(j)
  {
    j.entries[FIELD].text
  }

  /** The supplied contract is, up to resolution notes, the one recomputed for its field. */
  predicate Matches(j: Json, kept: seq<Plan>) {
    NamesField(j) && KeptFor(kept, FieldOf(j)).Some? && Semantics(j) == Semantics(PlanJson(KeptFor(kept, FieldOf(j)).value))
  }

  predicate MatchesAll(supplied: seq<Json>, kept: seq<Plan>) {
    && (forall i :: 0 <= i < |supplied| ==> Matches(supplied[i], kept))
    && (forall i, j :: 0 <= i < j < |supplied| ==> FieldOf(supplied[i]) != FieldOf(supplied[j]))
  }

  predicate Executable(p: Prepared) {
    p.inputs.groups == [] && p.unsupported == [] && p.inputs.reasons == []
  }

  predicate Acceptable(q: Inputs) {
    Executable(Prepare(q)) && q.contracts.Listed? && MatchesAll(q.contracts.contracts, Kept(q).kept)
  }

  datatype Verdict = Accepted(inputs: Inputs) | Rejected

  /** Acceptance at execution: exactly the steps that need no splitting, raise no reason, and
      carry distinct contracts each equal to the recomputed one. */
  method VerifiedInputs(q: Inputs) returns (v: Verdict)
    ensures v == if Acceptable(q) then Accepted(Prepare(q).inputs) else Rejected
  {
    hide Semantics, PlanJson, Prepare, Kept, KeptFor, NamesField;
    var p := RunPrepare(q);
    if p.inputs.groups != [] { return Rejected; }
    if p.unsupported != [] || p.inputs.reasons != [] { return Rejected; }
    if q.contracts.NotAList? { return Rejected; }
    var supplied := q.contracts.contracts;
    var kept := Kept(q).kept;
    var seen: set<string> := {};
    var i := 0;
    while i < |supplied|
      invariant 0 <= i <= |supplied|
      invariant forall j :: 0 <= j < i ==> Matches(supplied[j], kept) && FieldOf(supplied[j]) in seen
      invariant forall j, k :: 0 <= j < k < i ==> FieldOf(supplied[j]) != FieldOf(supplied[k])
      invariant forall f :: f in seen ==> exists j :: 0 <= j < i && FieldOf(supplied[j]) == f
    {
      if !NamesField(supplied[i]) { return Rejected; }
      var field := FieldOf(supplied[i]);
      if field in seen || KeptFor(kept, field).None? { return Rejected; }
      if Semantics(supplied[i]) != Semantics(PlanJson(KeptFor(kept, field).value)) { return Rejected; }
      seen := seen + {field};
      i := i + 1;
    }
    return Accepted(p.inputs);
  }

  lemma PlanNamesField(p: Plan)
    ensures NamesField(PlanJson(p)) && FieldOf(PlanJson(p)) == p.contract.field
  {
    var m := AsPlanInput(p.contract);
    assert FIELD in m && m[FIELD] == JText(p.contract.field);
  }

  /** What preparation hands over is accepted, as long as nothing was left to decide. */
  lemma PreparedIsAccepted(q: Inputs)
    requires Executable(Prepare(q))
    ensures Acceptable(Prepare(q).inputs)
  {
    hide FullLedger, KeepFirst, PlanJson, Semantics;
    var q' := Prepare(q).inputs;
    PrepareIdempotent(q);
    LedgerIgnoresOutputs(q, q');
    var kept := Kept(q).kept;
    KeptIsOnePerField(q);
    forall i | 0 <= i < |kept| ensures Matches(PlansJson(kept)[i], kept) && FieldOf(PlansJson(kept)[i]) == kept[i].contract.field {
      PlanNamesField(kept[i]);
      KeptForMember(kept, i);
    }
  }

  lemma KeptIsOnePerField(q: Inputs)
    ensures OnePerField(Kept(q).kept)
    ensures forall p :: p in Kept(q).kept ==> p in FullLedger(q).plans
    ensures forall p :: p in FullLedger(q).plans ==> KeptFor(Kept(q).kept, p.contract.field).Some?
  {
    var l := FullLedger(q);
    KeepFirstIsOnePerField(l.plans, |l.plans|, l.reasons);
  }

  /** Of plans, re-verification accepts exactly the recomputed contracts, whatever note they carry. */
  lemma MatchesIsSameContract(p: Plan, kept: seq<Plan>)
    ensures Matches(PlanJson(p), kept) <==>
              KeptFor(kept, p.contract.field).Some? && KeptFor(kept, p.contract.field).value.contract == p.contract
  {
    hide Semantics, PlanJson, AsPlanInput;
    PlanNamesField(p);
    if KeptFor(kept, p.contract.field).Some? { PlansAgreeIff(p, KeptFor(kept, p.contract.field).value); }
  }

  // ------------------------------------------------------------ no two contracts for one field

  /** A plan of the ledger carries what its field is authorised for, or one of the two bond rules. */
  predicate Proper(s: Scope, p: Plan) {
    p.contract == PRBD_PURCHASABLE || p.contract == PRBD_CREDIT_RATING || Authorise(p.contract.field, s) == Authorised(p.contract)
  }

  ghost predicate AllProper(s: Scope, plans: seq<Plan>) {
    forall p :: p in plans ==> Proper(s, p)
  }

  lemma ProperPlansAgree(s: Scope, p: Plan, r: Plan)
    requires Proper(s, p) && Proper(s, r) && p.contract.field == r.contract.field
    ensures p.contract == r.contract
  {
    BondRulesAreDenied(s);
    hide Authorise;
  }

  lemma BondRulesAreDenied(s: Scope)
    ensures Authorise(PRBD_PURCHASABLE.field, s).Denied? && Authorise(PRBD_CREDIT_RATING.field, s).Denied?
    ensures PRBD_PURCHASABLE.field != PRBD_CREDIT_RATING.field
  {
    var a, b := PRBD_PURCHASABLE.field, PRBD_CREDIT_RATING.field;
    assert a[8] == 'c' && a[9] == 'u' && b[8] == 'c' && b[9] == 'r';
    assert a != "product.aum" && b != "product.aum";
    forall f | f in PREF01_RETURNS ensures f[8] != 'c' {}
  }

  lemma AuthorisedIsProper(s: Scope, field: string, raw: string)
    requires Authorise(field, s).Authorised?
    ensures Proper(s, PlanContract(Authorise(field, s).contract, field, raw)) && Proper(s, Plan(Authorise(field, s).contract, None))
  {
    AuthorisedField(field, s);
    PlanContractKeeps(Authorise(field, s).contract, field, raw);
    hide Authorise, PlanContract;
  }

  lemma {:induction false} SortPassProper(q: Inputs, n: nat, l: Ledger)
    requires n <= |q.sort| && AllProper(q.scope, l.plans)
    ensures AllProper(q.scope, SortPass(q, n, l).plans)
  {
    hide Authorise, PlanContract, CrossProduct, PartialGroups, Proper;
    if n > 0 {
      SortPassProper(q, n - 1, l);
      var field := q.sort[n - 1].field.GetOr("None");
      if Authorise(field, q.scope).Authorised? { AuthorisedIsProper(q.scope, field, q.sort[n - 1].raw); }
    }
  }

  lemma {:induction false} RequestedPassProper(q: Inputs, n: nat, l: Ledger)
    requires n <= |q.requested| && AllProper(q.scope, l.plans)
    ensures AllProper(q.scope, RequestedPass(q, n, l).plans)
  {
    hide Authorise, PlanContract, Proper;
    if n > 0 {
      RequestedPassProper(q, n - 1, l);
      if q.requested[n - 1].Requested? && Authorise(q.requested[n - 1].field, q.scope).Authorised? {
        AuthorisedIsProper(q.scope, q.requested[n - 1].field, q.requested[n - 1].raw);
      }
    }
  }

  lemma {:induction false} FieldPassProper(q: Inputs, fields: seq<string>, n: nat, l: Ledger)
    requires n <= |fields| && AllProper(q.scope, l.plans)
    ensures AllProper(q.scope, FieldPass(q, fields, n, l).plans)
  {
    hide Authorise, Proper;
    if n > 0 {
      FieldPassProper(q, fields, n - 1, l);
      if Authorise(fields[n - 1], q.scope).Authorised? { AuthorisedIsProper(q.scope, fields[n - 1], ""); }
    }
  }

  lemma {:induction false} FilterPassProper(q: Inputs, n: nat, l: Ledger)
    requires n <= |q.scope.filters| && AllProper(q.scope, l.plans)
    ensures AllProper(q.scope, FilterPass(q, n, l).plans)
  {
    hide Authorise, IsRating;
    if n > 0 { FilterPassProper(q, n - 1, l); }
  }

  lemma LedgerIsProper(q: Inputs)
    ensures AllProper(q.scope, FullLedger(q).plans)
  {
    hide SortPass, RequestedPass, FieldPass, FilterPass, Proper;
    SortPassProper(q, |q.sort|, EMPTY_LEDGER);
    RequestedPassProper(q, |q.requested|, SortPass(q, |q.sort|, EMPTY_LEDGER));
    var top := TopNOne(q, RequestedPass(q, |q.requested|, SortPass(q, |q.sort|, EMPTY_LEDGER)));
    if q.comparison.Fieldwise? {
      FieldPassProper(q, AddNew([], q.comparison.fields), |AddNew([], q.comparison.fields)|, top);
    }
    FilterPassProper(q, |q.scope.filters|, ComparisonPass(q, top));
  }

  lemma {:induction false} ProperPlansDoNotConflict(s: Scope, plans: seq<Plan>, n: nat, reasons: seq<string>)
    requires n <= |plans| && AllProper(s, plans)
    ensures KeepFirst(plans, n, reasons).reasons == reasons
  {
    hide Semantics, PlanJson, Proper;
    if n > 0 {
      ProperPlansDoNotConflict(s, plans, n - 1, reasons);
      KeepFirstIsOnePerField(plans, n - 1, reasons);
      var b, p := KeepFirst(plans, n - 1, reasons), plans[n - 1];
      KeptForFinds(b.kept, p.contract.field);
      if KeptFor(b.kept, p.contract.field).Some? {
        var previous := KeptFor(b.kept, p.contract.field).value;
        ProperPlansAgree(s, previous, p);
        PlansAgreeIff(previous, p);
      }
    }
  }

  /** Preparation never meets two different contracts for one field: the reason for that is never
      given. */
  lemma NeverTwoContracts(q: Inputs)
    ensures Kept(q).reasons == FullLedger(q).reasons
  {
    hide FullLedger, KeepFirst;
    LedgerIsProper(q);
    ProperPlansDoNotConflict(q.scope, FullLedger(q).plans, |FullLedger(q).plans|, FullLedger(q).reasons);
  }

  // ------------------------------------------------------------ when preparation raises no reason

  predicate IsAuthorised(q: Inputs, field: string) {
    Authorise(field, q.scope).Authorised?
  }

  /** A ranking is served when it is split or its field is authorised. */
  predicate SortServed(q: Inputs, item: SortItem) {
    PartialGroups(item.field.GetOr("None"), q) != [] || IsAuthorised(q, item.field.GetOr("None"))
  }

  predicate RequestServed(q: Inputs, r: Requested) {
    r.Requested? && r.field in PREF01_RETURNS ==> IsAuthorised(q, r.field)
  }

  predicate ComparisonServed(q: Inputs) {
    match q.comparison
    case NoComparison => true
    case InvalidComparison => false
    case Fieldwise(fields) => fields != [] && forall field :: field in fields ==> IsAuthorised(q, field)
  }

  /** No filter may be on the risk grade, and one on the credit rating must name ratings. */
  predicate FilterServed(f: Filter) {
    f.Filter? ==> f.field != "product.risk_grade" && (f.field == "product.credit_rating" ==> IsRating(f.canonical))
  }

  predicate Serviceable(q: Inputs) {
    && (forall item :: item in q.sort ==> SortServed(q, item))
    && (forall r :: r in q.requested ==> RequestServed(q, r))
    && !(q.hasTopN && q.sort == [])
    && ComparisonServed(q)
    && (forall f :: f in q.scope.filters ==> FilterServed(f))
  }

  /** Whatever is unsupported has a reason. */
  predicate Explained(l: Ledger) {
    l.unsupported != [] ==> l.reasons != []
  }

  lemma {:induction false} SortPassReasons(q: Inputs, n: nat, l: Ledger)
    requires n <= |q.sort| && Explained(l)
    ensures Explained(SortPass(q, n, l))
    ensures SortPass(q, n, l).reasons == [] <==> l.reasons == [] && forall i :: 0 <= i < n ==> SortServed(q, q.sort[i])
  {
    hide Authorise, PlanContract, CrossProduct, PartialGroups;
    if n > 0 { SortPassReasons(q, n - 1, l); }
  }

  lemma {:induction false} RequestedPassReasons(q: Inputs, n: nat, l: Ledger)
    requires n <= |q.requested| && Explained(l)
    ensures Explained(RequestedPass(q, n, l))
    ensures RequestedPass(q, n, l).reasons == [] <==> l.reasons == [] && forall i :: 0 <= i < n ==> RequestServed(q, q.requested[i])
  {
    hide Authorise, PlanContract;
    if n > 0 { RequestedPassReasons(q, n - 1, l); }
  }

  lemma {:induction false} FieldPassReasons(q: Inputs, fields: seq<string>, n: nat, l: Ledger)
    requires n <= |fields| && Explained(l)
    ensures Explained(FieldPass(q, fields, n, l))
    ensures FieldPass(q, fields, n, l).reasons == [] <==> l.reasons == [] && forall i :: 0 <= i < n ==> IsAuthorised(q, fields[i])
  {
    hide Authorise;
    if n > 0 { FieldPassReasons(q, fields, n - 1, l); }
  }

  lemma {:induction false} FilterPassReasons(q: Inputs, n: nat, l: Ledger)
    requires n <= |q.scope.filters| && Explained(l)
    ensures Explained(FilterPass(q, n, l))
    ensures FilterPass(q, n, l).reasons == [] <==> l.reasons == [] && forall i :: 0 <= i < n ==> FilterServed(q.scope.filters[i])
  {
    hide IsRating;
    if n > 0 { FilterPassReasons(q, n - 1, l); }
    assert "product.risk_grade"[8] != "product.current_sale_available"[8] && "product.risk_grade"[8] != "product.credit_rating"[8];
    assert "product.current_sale_available"[9] != "product.credit_rating"[9];
  }

  lemma ComparisonReasons(q: Inputs, l: Ledger)
    requires Explained(l)
    ensures Explained(ComparisonPass(q, l))
    ensures ComparisonPass(q, l).reasons == [] <==> l.reasons == [] && ComparisonServed(q)
  {
    hide FieldPass, IsAuthorised;
    if q.comparison.Fieldwise? {
      var fields := AddNew([], q.comparison.fields);
      AddNewElements([], q.comparison.fields);
      FieldPassReasons(q, fields, |fields|, l);
      assert forall i :: 0 <= i < |fields| ==> fields[i] in fields;
    }
  }

  lemma LedgerReasons(q: Inputs)
    ensures Explained(FullLedger(q)) && (FullLedger(q).reasons == [] <==> Serviceable(q))
  {
    hide SortPass, RequestedPass, FilterPass, ComparisonPass, SortServed, RequestServed, ComparisonServed, FilterServed;
    var sorted := SortPass(q, |q.sort|, EMPTY_LEDGER);
    SortPassReasons(q, |q.sort|, EMPTY_LEDGER);
    RequestedPassReasons(q, |q.requested|, sorted);
    var top := TopNOne(q, RequestedPass(q, |q.requested|, sorted));
    ComparisonReasons(q, top);
    FilterPassReasons(q, |q.scope.filters|, ComparisonPass(q, top));
  }

  /** Preparation leaves nothing unsupported and gives no reason exactly for a serviceable step. */
  lemma PreparedCleanIff(q: Inputs)
    ensures Prepare(q).unsupported == [] && Prepare(q).inputs.reasons == [] <==> Serviceable(q)
  {
    hide FullLedger, KeepFirst, Kept, Serviceable;
    NeverTwoContracts(q);
    LedgerReasons(q);
    AddNewElements([], Kept(q).reasons);
    AddNewElements([], FullLedger(q).unsupported);
    if FullLedger(q).unsupported != [] { assert FullLedger(q).unsupported[0] in AddNew([], FullLedger(q).unsupported); }
    if Kept(q).reasons != [] { assert Kept(q).reasons[0] in AddNew([], Kept(q).reasons); }
    assert Prepare(q).unsupported != [] ==> Prepare(q).unsupported[0] in FullLedger(q).unsupported;
    assert Prepare(q).inputs.reasons != [] ==> Prepare(q).inputs.reasons[0] in Kept(q).reasons;
  }

  // ------------------------------------------------------------ specialising a group

  function KeepTypes(types: seq<string>, fund: bool): seq<string> {
    if types == [] then []
    else (if (types[0] == "FinancialProduct.Fund") == fund then [types[0]] else []) + KeepTypes(types[1..], fund)
  }

  /** The filters kept for a group, with their ids, from position `from` on. */
  function KeepFilters(s: Scope, fund: bool, from: nat): seq<(Filter, Option<string>)>
    requires from <= |s.filters|
    decreases |s.filters| - from
  {
    if from == |s.filters| then []
    else
      (if fund || !IsPublicFund(s.filters[from])
       then [(s.filters[from], if from < |s.filterIds| then s.filterIds[from] else None)] else [])
      + KeepFilters(s, fund, from + 1)
  }

  function RemovedIds(s: Scope, fund: bool): set<string> {
    set i | 0 <= i < |s.filters| && i < |s.filterIds| && s.filterIds[i].Some? && s.filterIds[i].value != ""
            && !fund && IsPublicFund(s.filters[i]) :: s.filterIds[i].value
  }

  function Firsts(pairs: seq<(Filter, Option<string>)>): seq<Filter> {
    seq(|pairs|, i requires 0 <= i < |pairs| => pairs[i].0)
  }

  function Seconds(pairs: seq<(Filter, Option<string>)>): seq<Option<string>> {
    seq(|pairs|, i requires 0 <= i < |pairs| => pairs[i].1)
  }

  /** None when the filter tree cannot be rewritten for the group. */
  function Scoped(q: Inputs, g: Group): Option<Inputs> {
    var fund := g.grain == "fund_share_class";
    var pairs := KeepFilters(q.scope, fund, 0);
    match Without(q.scope.tree, RemovedIds(q.scope, fund))
    case Refused => None
    case Rewritten(tree) =>
      Some(q.(scope := Scope(g.execution, q.scope.entityIds, Some(g.grain), tree, Firsts(pairs), Seconds(pairs)),
              productTypes := KeepTypes(q.productTypes, fund),
              comparisonScope := Some(g)))
  }

  datatype GroupOutcome = Specialised(inputs: Inputs) | NotAuthorised | NotExecutable

  function PrepareGroup(q: Inputs, g: Group): GroupOutcome {
    var parent := Prepare(q);
    if parent.unsupported != [] || g !in parent.inputs.groups then NotAuthorised
    else match Scoped(q, g)
         case None => NotExecutable
         case Some(scoped) =>
           var p := Prepare(scoped);
           if p.unsupported != [] || p.inputs.reasons != [] then NotExecutable else Specialised(p.inputs)
  }

  lemma {:induction false} NoGroupsInScope(q: Inputs, n: nat, l: Ledger)
    requires q.comparisonScope.Some? && n <= |q.sort|
    ensures SortPass(q, n, l).groups == l.groups
  {
    hide Authorise, PlanContract, CrossProduct, BareGroups, RequestedUniverse;
    if n > 0 { NoGroupsInScope(q, n - 1, l); }
  }

  lemma {:induction false} LaterPassesKeepGroups(q: Inputs, fields: seq<string>, n: nat, m: nat, k: nat, l: Ledger)
    requires n <= |q.requested| && m <= |q.scope.filters| && k <= |fields|
    ensures RequestedPass(q, n, l).groups == l.groups
    ensures FilterPass(q, m, l).groups == l.groups
    ensures FieldPass(q, fields, k, l).groups == l.groups
    decreases n + m + k
  {
    hide Authorise, PlanContract, IsRating;
    if n > 0 { LaterPassesKeepGroups(q, fields, n - 1, 0, 0, l); }
    if m > 0 { LaterPassesKeepGroups(q, fields, 0, m - 1, 0, l); }
    if k > 0 { LaterPassesKeepGroups(q, fields, 0, 0, k - 1, l); }
  }

  lemma LedgerGroups(q: Inputs)
    ensures FullLedger(q).groups == SortPass(q, |q.sort|, EMPTY_LEDGER).groups
  {
    hide SortPass, RequestedPass, FieldPass, FilterPass;
    var l := SortPass(q, |q.sort|, EMPTY_LEDGER);
    LaterPassesKeepGroups(q, [], |q.requested|, 0, 0, l);
    var top := TopNOne(q, RequestedPass(q, |q.requested|, l));
    if q.comparison.Fieldwise? {
      var fields := AddNew([], q.comparison.fields);
      LaterPassesKeepGroups(q, fields, 0, 0, |fields|, top);
    }
    LaterPassesKeepGroups(q, [], 0, |q.scope.filters|, 0, ComparisonPass(q, top));
  }

  /** A specialised group passes re-verification exactly when the step carried no groups of its own beforehand. */
  lemma SpecialisedGroupVerifies(q: Inputs, g: Group)
    ensures PrepareGroup(q, g).Specialised? ==> (Acceptable(PrepareGroup(q, g).inputs) <==> q.groups == [])
  {
    hide FullLedger, KeepFirst, Kept, Without, KeepFilters, RemovedIds, KeepTypes, PlansJson, MatchesAll;
    if !PrepareGroup(q, g).Specialised? { return; }
    var scoped := Scoped(q, g).value;
    var p := Prepare(scoped);
    LedgerGroups(scoped);
    NoGroupsInScope(scoped, |scoped.sort|, EMPTY_LEDGER);
    assert p.inputs.groups == q.groups;
    if q.groups == [] {
      PreparedIsAccepted(scoped);
    } else {
      PrepareIdempotent(scoped);
    }
  }

  // ------------------------------------------------------------ one contract per group

  function ContractOf(g: Group): Contract {
    if g.execution == ["DomesticETF"] then PREF01_RETURNS[ONE_YEAR]
    else if g.execution == [ISHARES_SCOPE] then ISHARES_ONE_YEAR
    else PRFD_ONE_YEAR
  }

  predicate IsRankingGroup(g: Group) {
    || (g.execution == ["DomesticETF"] && g.grain == "financial_product")
    || (g.execution == [ISHARES_SCOPE] && g.grain == "financial_product")
    || (g.execution == ["PublicFund"] && g.grain == "fund_share_class")
  }

  lemma PartialGroupsAreRanking(q: Inputs)
    ensures forall g :: g in PartialGroups(ONE_YEAR, q) ==> IsRankingGroup(g)
  {
    hide Expanded, RequestedUniverse, Elements;
    var groups := PartialGroups(ONE_YEAR, q);
    if groups != [] {
      var requested := RequestedUniverse(q);
      var bare := BareGroups(requested);
      GroupFacts(requested);
      forall g | g in groups ensures IsRankingGroup(g) {
        var i :| 0 <= i < |groups| && groups[i] == g;
        assert g == Finished(bare[i], |bare| > 1);
      }
    }
  }

  /** Different groups of a split are ranked under contracts over different datasets. */
  lemma GroupDatasetsDiffer(q: Inputs, g: Group, h: Group)
    requires g in PartialGroups(ONE_YEAR, q) && h in PartialGroups(ONE_YEAR, q) && g.execution != h.execution
    ensures ContractOf(g).dataset != ContractOf(h).dataset
    ensures ContractOf(g).field == ContractOf(h).field == ONE_YEAR
  {
    hide PartialGroups;
    PartialGroupsAreRanking(q);
    var a, b, c := PREF01_RETURNS[ONE_YEAR].dataset, ISHARES_ONE_YEAR.dataset, PRFD_ONE_YEAR.dataset;
    assert a[0] != b[0] && a[2] != c[2] && b[0] != c[0];
  }

  lemma GroupIsAuthorised(g: Group, s: Scope)
    requires IsRankingGroup(g) && s.universe == g.execution && s.grain == Some(g.grain)
    ensures Authorise(ONE_YEAR, s) == Authorised(ContractOf(g))
  {
    hide Required;
    assert "DomesticETF"[0] != "PublicFund"[0] && "PublicFund"[0] != KODEX_SCOPE[0] && "PublicFund"[0] != TIGER_SCOPE[0];
    assert ISHARES_SCOPE[0] != KODEX_SCOPE[0] && ISHARES_SCOPE[0] != TIGER_SCOPE[0];
    assert "DomesticETF"[0] != ISHARES_SCOPE[0];
    assert g.execution[0] in g.execution;
  }

  ghost predicate OnlyContract(l: Ledger, c: Contract) {
    forall p :: p in l.plans && p.contract.field == ONE_YEAR ==> p.contract == c
  }

  ghost predicate HasContract(l: Ledger, c: Contract) {
    exists p :: p in l.plans && p.contract == c
  }

  lemma AuthorisedField(field: string, s: Scope)
    ensures Authorise(field, s).Authorised? ==> Authorise(field, s).contract.field == field
  {
    if Authorise(field, s).Authorised? { AuthorisedIsReviewed(field, s); }
  }

  lemma PlanContractKeeps(c: Contract, field: string, raw: string)
    ensures PlanContract(c, field, raw).contract == c
  {
  }

  /** Appending a plan that is not for the one-year return, or is under `c`, keeps both predicates. */
  lemma AppendContract(l: Ledger, l': Ledger, p: Plan, c: Contract)
    requires l'.plans == l.plans + [p] && OnlyContract(l, c)
    requires p.contract.field == ONE_YEAR ==> p.contract == c
    ensures OnlyContract(l', c)
    ensures HasContract(l, c) || p.contract == c ==> HasContract(l', c)
  {
    if HasContract(l, c) {
      var r :| r in l.plans && r.contract == c;
      assert r in l'.plans;
    }
    if p.contract == c { assert l'.plans[|l.plans|] == p; }
  }

  lemma SortOneContract(q: Inputs, i: nat, l: Ledger, c: Contract)
    requires i < |q.sort| && q.comparisonScope.Some? && Authorise(ONE_YEAR, q.scope) == Authorised(c) && OnlyContract(l, c)
    ensures OnlyContract(SortOne(q, i, l), c)
    ensures HasContract(l, c) || q.sort[i].field == Some(ONE_YEAR) ==> HasContract(SortOne(q, i, l), c)
  {
    hide Authorise, PlanContract, CrossProduct, BareGroups, RequestedUniverse;
    var field := q.sort[i].field.GetOr("None");
    AuthorisedField(field, q.scope);
    if Authorise(field, q.scope).Authorised? {
      var p := PlanContract(Authorise(field, q.scope).contract, field, q.sort[i].raw);
      PlanContractKeeps(Authorise(field, q.scope).contract, field, q.sort[i].raw);
      AppendContract(l, SortOne(q, i, l), p, c);
    }
  }

  lemma {:induction false} SortPassContract(q: Inputs, n: nat, l: Ledger, c: Contract)
    requires n <= |q.sort| && q.comparisonScope.Some? && Authorise(ONE_YEAR, q.scope) == Authorised(c) && OnlyContract(l, c)
    ensures OnlyContract(SortPass(q, n, l), c)
    ensures (exists i :: 0 <= i < n && q.sort[i].field == Some(ONE_YEAR)) ==> HasContract(SortPass(q, n, l), c)
  {
    hide Authorise, SortOne, OnlyContract, HasContract;
    if n > 0 {
      SortPassContract(q, n - 1, l, c);
      SortOneContract(q, n - 1, SortPass(q, n - 1, l), c);
    }
  }

  lemma {:induction false} RequestedPassContract(q: Inputs, n: nat, l: Ledger, c: Contract)
    requires n <= |q.requested| && Authorise(ONE_YEAR, q.scope) == Authorised(c) && OnlyContract(l, c)
    ensures OnlyContract(RequestedPass(q, n, l), c)
    ensures HasContract(l, c) ==> HasContract(RequestedPass(q, n, l), c)
  {
    hide Authorise, PlanContract;
    if n > 0 {
      var l0 := RequestedPass(q, n - 1, l);
      RequestedPassContract(q, n - 1, l, c);
      if q.requested[n - 1].Requested? {
        var field, raw := q.requested[n - 1].field, q.requested[n - 1].raw;
        AuthorisedField(field, q.scope);
        if field in PREF01_RETURNS && Authorise(field, q.scope).Authorised? {
          PlanContractKeeps(Authorise(field, q.scope).contract, field, raw);
          AppendContract(l0, RequestedPass(q, n, l), PlanContract(Authorise(field, q.scope).contract, field, raw), c);
        }
      }
    }
  }

  lemma {:induction false} FieldPassContract(q: Inputs, fields: seq<string>, n: nat, l: Ledger, c: Contract)
    requires n <= |fields| && Authorise(ONE_YEAR, q.scope) == Authorised(c) && OnlyContract(l, c)
    ensures OnlyContract(FieldPass(q, fields, n, l), c)
    ensures HasContract(l, c) ==> HasContract(FieldPass(q, fields, n, l), c)
  {
    hide Authorise;
    if n > 0 {
      FieldPassContract(q, fields, n - 1, l, c);
      AuthorisedField(fields[n - 1], q.scope);
      if Authorise(fields[n - 1], q.scope).Authorised? {
        AppendContract(FieldPass(q, fields, n - 1, l), FieldPass(q, fields, n, l), Plan(Authorise(fields[n - 1], q.scope).contract, None), c);
      }
    }
  }

  lemma {:induction false} FilterPassContract(q: Inputs, n: nat, l: Ledger, c: Contract)
    requires n <= |q.scope.filters| && OnlyContract(l, c)
    ensures OnlyContract(FilterPass(q, n, l), c)
    ensures HasContract(l, c) ==> HasContract(FilterPass(q, n, l), c)
  {
    hide IsRating;
    if n > 0 {
      FilterPassContract(q, n - 1, l, c);
      var l0, l1 := FilterPass(q, n - 1, l), FilterPass(q, n, l);
      assert PRBD_PURCHASABLE.field[8] != ONE_YEAR[8] && PRBD_CREDIT_RATING.field[8] != ONE_YEAR[8];
      if |l1.plans| > |l0.plans| {
        AppendContract(l0, l1, l1.plans[|l0.plans|], c);
      }
    }
  }

  lemma LedgerContract(q: Inputs, c: Contract, i: nat)
    requires q.comparisonScope.Some? && Authorise(ONE_YEAR, q.scope) == Authorised(c)
    requires i < |q.sort| && q.sort[i].field == Some(ONE_YEAR)
    ensures OnlyContract(FullLedger(q), c) && HasContract(FullLedger(q), c)
  {
    hide SortPass, RequestedPass, FieldPass, FilterPass, Authorise;
    var l := SortPass(q, |q.sort|, EMPTY_LEDGER);
    SortPassContract(q, |q.sort|, EMPTY_LEDGER, c);
    RequestedPassContract(q, |q.requested|, l, c);
    var top := TopNOne(q, RequestedPass(q, |q.requested|, l));
    if q.comparison.Fieldwise? {
      var fields := AddNew([], q.comparison.fields);
      FieldPassContract(q, fields, |fields|, top, c);
    }
    FilterPassContract(q, |q.scope.filters|, ComparisonPass(q, top), c);
  }

  /** The step ranks by the one-year return. */
  predicate RanksOneYear(q: Inputs) {
    exists item :: item in q.sort && item.field == Some(ONE_YEAR)
  }

  lemma {:induction false} SortGroups(q: Inputs, n: nat, l: Ledger)
    requires n <= |q.sort| && l.groups == []
    ensures SortPass(q, n, l).groups ==
              if exists i :: 0 <= i < n && q.sort[i].field == Some(ONE_YEAR) then PartialGroups(ONE_YEAR, q) else []
  {
    hide Authorise, PlanContract, CrossProduct, BareGroups, RequestedUniverse;
    if n > 0 {
      SortGroups(q, n - 1, l);
      assert "None"[0] != ONE_YEAR[0];
      assert q.sort[n - 1].field == Some(ONE_YEAR) ==> exists i :: 0 <= i < n && q.sort[i].field == Some(ONE_YEAR);
    }
  }

  /** A step without groups of its own is split exactly when it ranks by the one-year return. */
  lemma SplitGroups(q: Inputs)
    requires q.groups == []
    ensures Prepare(q).inputs.groups == if RanksOneYear(q) then PartialGroups(ONE_YEAR, q) else []
  {
    hide FullLedger, Kept, PartialGroups, SortPass;
    LedgerGroups(q);
    SortGroups(q, |q.sort|, EMPTY_LEDGER);
    if item :| item in q.sort && item.field == Some(ONE_YEAR) {
      var i :| 0 <= i < |q.sort| && q.sort[i] == item;
    }
  }

  /** No conjunct of the tree stops the removal of the predicates that the group does not need. */
  ghost predicate Rewritable(q: Inputs, g: Group) {
    var removed := RemovedIds(q.scope, g.grain == "fund_share_class");
    removed != {} ==> forall c :: c in Spine(q.scope.tree) ==> !Refuses(c, removed)
  }

  lemma ScopedIff(q: Inputs, g: Group)
    ensures Scoped(q, g).Some? <==> Rewritable(q, g)
  {
    hide Without, Refuses, RemovedIds, KeepFilters, KeepTypes;
    WithoutIsDrop(q.scope.tree, RemovedIds(q.scope, g.grain == "fund_share_class"));
  }

  /** A group is specialised exactly when it is authorised for the step, the tree can be rewritten for
      it, and the step so scoped leaves nothing unsupported. */
  lemma SpecialisesIff(q: Inputs, g: Group)
    ensures Rewritable(q, g) <==> Scoped(q, g).Some?
    ensures PrepareGroup(q, g).Specialised? <==>
      Prepare(q).unsupported == [] && g in Prepare(q).inputs.groups && Scoped(q, g).Some? && Serviceable(Scoped(q, g).value)
  {
    hide Prepare, Scoped, Rewritable, Serviceable;
    ScopedIff(q, g);
    if Scoped(q, g).Some? { PreparedCleanIff(Scoped(q, g).value); }
  }

  const AUM := "product.aum"

  /** What may be ranked, requested or compared inside a group: every return and the size of domestic
      funds; the one-year return alone elsewhere, and the size where every row has the currency or the
      country that its contract is for. */
  predicate Rankable(g: Group, s: Scope, field: string) {
    if g.execution == ["DomesticETF"] then field in PREF01_RETURNS || field == AUM
    else field == ONE_YEAR || (field == AUM && SizeIsComparable(s))
  }

  predicate SizeIsComparable(s: Scope) {
    Required(s, "product.currency") == Some(Text("KRW")) || Required(s, "product.listing_country") == Some(Text("US"))
  }

  lemma AuthorisedInGroup(g: Group, s: Scope, field: string)
    requires IsRankingGroup(g) && s.universe == g.execution && s.grain == Some(g.grain)
    ensures Authorise(field, s).Authorised? <==> Rankable(g, s, field)
  {
    hide Required;
    OtherFields();
    if field in PREF01_RETURNS {
      hide SizeIsComparable;
      ReturnInGroup(g, s, field);
    } else {
      SizeInGroup(g, s);
      hide IsProviderUnion, SizeIsComparable, Universe;
      assert ONE_YEAR in PREF01_RETURNS;
    }
  }

  lemma OtherFields()
    ensures AUM !in PREF01_RETURNS && "product.expense_ratio" !in PREF01_RETURNS && "product.risk_grade" !in PREF01_RETURNS
    ensures AUM != "product.expense_ratio" && AUM != "product.risk_grade"
  {
    assert AUM[8] == 'a' && "product.expense_ratio"[8] == 'e' && "product.risk_grade"[8] == 'r';
    assert forall f :: f in PREF01_RETURNS ==> f[8] != 'a' && f[8] != 'e' && f[8] != 'r';
  }

  /** Of the three groups only the domestic one has a domestic universe, and none is a provider union. */
  lemma GroupUniverse(g: Group, s: Scope)
    requires IsRankingGroup(g) && s.universe == g.execution
    ensures Universe(s) == g.execution && !IsProviderUnion(g.execution)
    ensures ["DomesticETF"] != ["PublicFund"] && ["DomesticETF"] != [ISHARES_SCOPE] && [ISHARES_SCOPE] != ["PublicFund"]
  {
    assert "DomesticETF"[0] != "PublicFund"[0] && "PublicFund"[0] != KODEX_SCOPE[0] && "PublicFund"[0] != TIGER_SCOPE[0];
    assert ISHARES_SCOPE[0] != KODEX_SCOPE[0] && ISHARES_SCOPE[0] != TIGER_SCOPE[0];
    assert "DomesticETF"[0] != ISHARES_SCOPE[0] && ISHARES_SCOPE[0] != "PublicFund"[0];
    assert ["DomesticETF"][0] != ["PublicFund"][0] && ["DomesticETF"][0] != [ISHARES_SCOPE][0] && [ISHARES_SCOPE][0] != ["PublicFund"][0];
    assert g.execution[0] in g.execution;
  }

  lemma ReturnInGroup(g: Group, s: Scope, field: string)
    requires IsRankingGroup(g) && s.universe == g.execution && s.grain == Some(g.grain) && field in PREF01_RETURNS
    ensures AuthoriseReturn(field, s).Authorised? <==> g.execution == ["DomesticETF"] || field == ONE_YEAR
  {
    GroupUniverse(g, s);
    hide Universe, IsProviderUnion, PREF01_RETURNS;
  }

  lemma SizeInGroup(g: Group, s: Scope)
    requires IsRankingGroup(g) && s.universe == g.execution
    ensures Authorise(AUM, s).Authorised? <==> g.execution == ["DomesticETF"] || SizeIsComparable(s)
  {
    OtherFields();
    GroupUniverse(g, s);
    hide Universe, IsProviderUnion, Required, PREF01_RETURNS;
  }

  /** The scope inside the group. */
  function ScopeIn(q: Inputs, g: Group): Scope {
    if Scoped(q, g).Some? then Scoped(q, g).value.scope else q.scope
  }

  /** The part of the condition that concerns what the step asks for. */
  ghost predicate GroupServes(q: Inputs, g: Group) {
    var s := ScopeIn(q, g);
    && (forall item :: item in q.sort ==> Rankable(g, s, item.field.GetOr("None")))
    && (forall r :: r in q.requested && r.Requested? && r.field in PREF01_RETURNS ==> Rankable(g, s, r.field))
    && (match q.comparison
        case NoComparison => true
        case InvalidComparison => false
        case Fieldwise(fields) => fields != [] && forall field :: field in fields ==> Rankable(g, s, field))
    && (forall f :: f in q.scope.filters ==> FilterServed(f))
  }

  lemma {:induction false} KeptFilters(s: Scope, fund: bool, from: nat)
    requires from <= |s.filters|
    ensures forall i :: from <= i < |s.filters| && (fund || !IsPublicFund(s.filters[i])) ==>
      exists p :: p in KeepFilters(s, fund, from) && p.0 == s.filters[i]
    ensures forall p :: p in KeepFilters(s, fund, from) ==> p.0 in s.filters
    decreases |s.filters| - from
  {
    hide IsPublicFund;
    if from < |s.filters| {
      KeptFilters(s, fund, from + 1);
      var head := if fund || !IsPublicFund(s.filters[from])
                  then [(s.filters[from], if from < |s.filterIds| then s.filterIds[from] else None)] else [];
      assert KeepFilters(s, fund, from) == head + KeepFilters(s, fund, from + 1);
      if head != [] { assert head[0] in KeepFilters(s, fund, from); }
    }
  }

  /** A filter that is dropped for a group is on the offering type, so it never stands in the way. */
  lemma FiltersServedIff(q: Inputs, g: Group)
    requires Scoped(q, g).Some?
    ensures (forall f :: f in Scoped(q, g).value.scope.filters ==> FilterServed(f)) <==> (forall f :: f in q.scope.filters ==> FilterServed(f))
  {
    hide Without, RemovedIds, KeepTypes, KeepFilters, FilterServed;
    var fund := g.grain == "fund_share_class";
    var pairs := KeepFilters(q.scope, fund, 0);
    KeptFilters(q.scope, fund, 0);
    assert Scoped(q, g).value.scope.filters == Firsts(pairs);
    forall f | f in Firsts(pairs) ensures f in q.scope.filters {
      var i :| 0 <= i < |pairs| && Firsts(pairs)[i] == f;
      assert pairs[i] in pairs;
    }
    forall f | f in q.scope.filters && !FilterServed(f) ensures f in Firsts(pairs) {
      var i :| 0 <= i < |q.scope.filters| && q.scope.filters[i] == f;
      OfferingTypeIsServed(f);
      var p :| p in pairs && p.0 == f;
      var j :| 0 <= j < |pairs| && pairs[j] == p;
      assert Firsts(pairs)[j] == f;
    }
  }

  lemma OfferingTypeIsServed(f: Filter)
    ensures IsPublicFund(f) ==> FilterServed(f)
  {
    assert "product.offering_type"[8] != "product.risk_grade"[8] && "product.offering_type"[8] != "product.credit_rating"[8];
  }

  lemma ServiceableInGroup(q: Inputs, g: Group)
    requires IsRankingGroup(g) && Scoped(q, g).Some? && q.sort != []
    ensures Serviceable(Scoped(q, g).value) <==> GroupServes(q, g)
  {
    hide Without, RemovedIds, KeepTypes, KeepFilters, FilterServed, Rankable, Authorise, IsRankingGroup, PREF01_RETURNS;
    FiltersServedIff(q, g);
    var scoped := Scoped(q, g).value;
    forall field ensures IsAuthorised(scoped, field) <==> Rankable(g, scoped.scope, field) {
      AuthorisedInGroup(g, scoped.scope, field);
    }
    assert forall item :: item in q.sort ==> (SortServed(scoped, item) <==> Rankable(g, scoped.scope, item.field.GetOr("None")));
  }

  /** When a group of the split of a step becomes a step of its own. */
  ghost predicate Specialises(q: Inputs, g: Group) {
    && Prepare(q).unsupported == [] && RanksOneYear(q) && g in PartialGroups(ONE_YEAR, q)
    && Rewritable(q, g) && GroupServes(q, g)
  }

  lemma GroupSpecialises(q: Inputs, g: Group)
    requires q.groups == []
    ensures PrepareGroup(q, g).Specialised? <==> Specialises(q, g)
  {
    hide Prepare, PrepareGroup, Scoped, Rewritable, Serviceable, PartialGroups, GroupServes, IsRankingGroup;
    SpecialisesIff(q, g);
    SplitGroups(q);
    PartialGroupsAreRanking(q);
    if Scoped(q, g).Some? && RanksOneYear(q) && g in PartialGroups(ONE_YEAR, q) { ServiceableInGroup(q, g); }
  }

  /** A group of a step is specialised exactly when the step has nothing unsupported, ranks by the
      one-year return, is split into this group, can be rewritten for it, and asks for nothing that
      cannot be ranked inside it. Its preparation then carries exactly one one-year-return contract,
      the group's own. */
  lemma SpecialisedGroupHasOneContract(q: Inputs, g: Group)
    requires q.groups == []
    ensures PrepareGroup(q, g).Specialised? <==> Specialises(q, g)
    ensures Specialises(q, g) ==> Scoped(q, g).Some?
    ensures Specialises(q, g) ==>
      var kept := Kept(Scoped(q, g).value).kept;
      && PrepareGroup(q, g).inputs.contracts == Listed(PlansJson(kept))
      && (exists i :: 0 <= i < |kept| && kept[i].contract == ContractOf(g))
      && (forall i, j :: 0 <= i < |kept| && 0 <= j < |kept| && kept[i].contract.field == ONE_YEAR && kept[j].contract.field == ONE_YEAR
            ==> i == j && kept[i].contract == ContractOf(g))
  {
    hide FullLedger, Kept, Without, KeepFilters, RemovedIds, KeepTypes, PlansJson, PartialGroups, Authorise, ContractOf, IsRankingGroup, GroupServes;
    GroupSpecialises(q, g);
    ScopedIff(q, g);
    if Specialises(q, g) {
      PartialGroupsAreRanking(q);
      var scoped := Scoped(q, g).value;
      var c := ContractOf(g);
      GroupIsAuthorised(g, scoped.scope);
      var item :| item in q.sort && item.field == Some(ONE_YEAR);
      var at :| 0 <= at < |q.sort| && q.sort[at] == item;
      LedgerContract(scoped, c, at);
      KeptIsOnePerField(scoped);
      ContractField(g);
      var kept := Kept(scoped).kept;
      var p :| p in FullLedger(scoped).plans && p.contract == c;
      KeptForFinds(kept, ONE_YEAR);
      var r := KeptFor(kept, ONE_YEAR).value;
      assert r in FullLedger(scoped).plans && r.contract == c;
    }
  }

  lemma ContractField(g: Group)
    ensures ContractOf(g).field == ONE_YEAR
  {
  }

  // ------------------------------------------------------------ an authorised group that cannot run

  const EXPENSE_RATIO := "product.expense_ratio"

  /** Foreign funds, ranked by the one-year return and then by the expense ratio. */
  const TWO_RANKINGS := Inputs(
    Scope(["ForeignETF"], [], None, Null, [], []), [],
    [SortItem(Some(ONE_YEAR), ""), SortItem(Some(EXPENSE_RATIO), "")], [],
    [], [], false, None, NoComparison, None, [], NotAList, [], [], "")

  const ISHARES_GROUP := Finished(ForeignGroup(["ForeignETF"]), false)

  lemma TwoRankingsSplit()
    ensures PartialGroups(ONE_YEAR, TWO_RANKINGS) == [ISHARES_GROUP] && RanksOneYear(TWO_RANKINGS)
    ensures Prepare(TWO_RANKINGS).inputs.groups == [ISHARES_GROUP]
  {
    var q, requested := TWO_RANKINGS, ["ForeignETF"];
    hide Finished, ForeignGroup, DomesticGroup, FundGroup;
    assert q.sort[0] in q.sort;
    assert requested[..0] == [] && Expanded(requested[..0]) == [];
    assert Unfold("ForeignETF") == ["ForeignETF"] by { assert "ForeignETF"[0] == 'F'; }
    assert Expanded(requested) == AddNew([], ["ForeignETF"]) == ["ForeignETF"];
    assert "DomesticETF"[0] != "ForeignETF"[0] && "PublicFund"[0] != "ForeignETF"[0];
    assert BareGroups(requested) == [ForeignGroup(requested)];
    assert Elements(requested) == {"ForeignETF"};
    SplitGroups(q);
  }

  /** The step is split into one authorised group, and the group is refused. */
  lemma AuthorisedGroupMayNotSpecialise()
    ensures Prepare(TWO_RANKINGS).unsupported == [] && Prepare(TWO_RANKINGS).inputs.groups == [ISHARES_GROUP]
    ensures PrepareGroup(TWO_RANKINGS, ISHARES_GROUP) == NotExecutable
  {
    var q, g := TWO_RANKINGS, ISHARES_GROUP;
    hide Prepare, Scoped, PartialGroups, GroupServes;
    TwoRankingsSplit();
    NothingNamed();
    NotServed();
    GroupSpecialises(q, g);
  }

  lemma NotServed()
    ensures !GroupServes(TWO_RANKINGS, ISHARES_GROUP)
  {
    hide Required, ScopeIn;
    OtherFields();
    assert TWO_RANKINGS.sort[1] in TWO_RANKINGS.sort;
    assert ISHARES_GROUP.execution == [ISHARES_SCOPE];
    assert ISHARES_SCOPE[0] != "DomesticETF"[0];
    assert [ISHARES_SCOPE][0] != ["DomesticETF"][0];
    assert EXPENSE_RATIO[8] != ONE_YEAR[8];
  }

  /** Without constraint ids nothing is reported as unsupported. */
  lemma NothingNamed()
    ensures Prepare(TWO_RANKINGS).unsupported == []
  {
    var q := TWO_RANKINGS;
    hide Authorise, PartialGroups, PlanContract, CrossProduct, KeepFirst;
    var one := SortOne(q, 0, EMPTY_LEDGER);
    assert SortPass(q, 1, EMPTY_LEDGER) == SortOne(q, 0, SortPass(q, 0, EMPTY_LEDGER));
    assert SortPass(q, 2, EMPTY_LEDGER) == SortOne(q, 1, one);
    assert FullLedger(q).unsupported == [];
  }
}
