/** The reviewed comparison contracts, and which of them a query scope is given. */
module ComparisonContracts {
  import opened Basics
  import opened TextForms
  import opened FilterTree

  datatype Contract = Contract(
    metric: string, field: string, dataset: string, grain: string,
    unit: Option<string>, scale: Option<string>, currency: Option<string>,
    dateSemantics: string, filterable: bool, sortable: bool, crossDataset: bool,
    disabled: Option<string>, sourceField: Option<string>, period: Option<string>,
    percentage: Option<string>, basis: Option<string>, adjustment: Option<string>,
    missing: string, kind: string)

  const KEEP_NULL := "preserve NULL; never coerce to zero"
  const ETP := "ExchangeTradedProduct"
  const DAILY := "du_upt_dt daily source update date in READY snapshot; undated observations are not rankable"

  function AumContract(dataset: string, currency: string): Contract {
    Contract("AUM", "product.aum", dataset, ETP, Some("CURRENCY_AMOUNT"), Some("CURRENCY_UNIT"), Some(currency),
             "latest du_upt_dt observation in READY snapshot", false, true, false,
             None, Some("du_last_aum"), None, None, None, None, KEEP_NULL, "numeric_metric")
  }

  const PREF01_AUM := AumContract("PREF01N001", "KRW")
  const PREF02_AUM := AumContract("PREF02N001", "USD")

  function Pref01Return(metric: string, field: string, source: string, period: string): Contract {
    Contract(metric, field, "PREF01N001", ETP, Some("PERCENT"), Some("SOURCE_PERCENT"), None, DAILY, false, true, false,
             None, Some(source), Some(period), Some("percent value as supplied; no rescaling"),
             Some("source-defined ETP return basis"), Some("not stated; comparison restricted to PREF01N001"),
             KEEP_NULL, "numeric_metric")
  }

  const ONE_YEAR := "product.one_year_return"

  const PREF01_RETURNS: map<string, Contract> := map[
    "product.one_day_return" := Pref01Return("ONE_DAY_RETURN", "product.one_day_return", "du_er_1d", "1D"),
    "product.one_month_return" := Pref01Return("ONE_MONTH_RETURN", "product.one_month_return", "du_er_1m", "1M"),
    "product.three_month_return" := Pref01Return("THREE_MONTH_RETURN", "product.three_month_return", "du_er_3m", "3M"),
    "product.six_month_return" := Pref01Return("SIX_MONTH_RETURN", "product.six_month_return", "du_er_6m", "6M"),
    "product.one_year_return" := Pref01Return("ONE_YEAR_RETURN", "product.one_year_return", "du_er_1y", "1Y"),
    "product.year_to_date_return" := Pref01Return("YEAR_TO_DATE_RETURN", "product.year_to_date_return", "du_er_ytd", "YTD")]

  const ISHARES_ONE_YEAR := Contract(
    "ONE_YEAR_RETURN", ONE_YEAR, "ISHARES_US_PERFORMANCE", ETP, Some("PERCENT"), Some("ISHARES_NAV_TOTAL_RETURN_PCT_V1"), None,
    "official iShares month-end asOfDate at or before evaluation cutoff", false, true, false,
    None, Some("oneYearAnnualized.navSourced"), Some("1Y"), Some("percent value as published; no rescaling"),
    Some("issuer-published NAV total return"), Some("accounts for distributions from the fund"),
    KEEP_NULL, "numeric_metric")

  const PRFD_ONE_YEAR := Contract(
    "ONE_YEAR_RETURN", ONE_YEAR, "PRFD01N001", "FundShareClass", Some("PERCENT"), Some("SOURCE_PERCENT"), None,
    "fd_price_bas_dt return basis date in READY snapshot", false, true, false,
    None, Some("fd_yr1_ern_r"), Some("1Y"), Some("percent value as supplied; no rescaling"),
    Some("source-defined FundShareClass return basis"), Some("not stated; no Fund-family promotion"),
    KEEP_NULL, "numeric_metric")

  const PRBD_CREDIT_RATING := Contract(
    "CREDIT_RATING_ORDER", "product.credit_rating", "PRBD01N001", "Bond", Some("ORDINAL"), Some("CREDIT_RATING_V1"), None,
    "crd_grd_dt, falling back to info_base_dt in READY snapshot", true, false, false,
    None, Some("crd_grd"), None, None, None, None, KEEP_NULL, "numeric_metric")

  const PRBD_PURCHASABLE := Contract(
    "ORGANIZER_PURCHASABLE_BOND", "product.current_sale_available", "PRBD01N001", "Bond",
    Some("BOOLEAN_RULE"), Some("ORGANIZER_RULE_V1"), None,
    "2026-08-24 canonical snapshot; exclude explicit lifecycle-end facts", true, false, false,
    None, None, None, None, None, None,
    "absence of a delisted/listing-ended fact is purchasable under organizer rule", "numeric_metric")

  const RISK_REASON := "risk_grade_ordering_and_comparability_unverified"

  const KODEX_SCOPE := "KODEX_LONG_ONLY_COMPATIBLE"
  const TIGER_SCOPE := "TIGER_LONG_ONLY_COMPATIBLE"
  const ISHARES_SCOPE := "ISHARES_US_FOREIGN_ETF_SECURITY_HOLDINGS"

  /** What the authoriser reads of a plan step. */
  datatype Scope = Scope(
    universe: seq<string>,        // product_universe.operands
    entityIds: seq<string>,
    grain: Option<string>,        // result_grain
    tree: Node, filters: seq<Filter>, filterIds: seq<Option<string>>)

  predicate IsDomesticId(id: string) {
    |id| >= 7 && Lower(id[..7]) == "etf_kr:"
  }

  function Universe(s: Scope): seq<string> {
    if s.universe != [] then s.universe
    else if s.entityIds != [] && forall id :: id in s.entityIds ==> IsDomesticId(id) then ["DomesticETF"]
    else []
  }

  predicate IsProviderUnion(universe: seq<string>) {
    universe != [] && forall u :: u in universe ==> u == KODEX_SCOPE || u == TIGER_SCOPE
  }

  function Elements(xs: seq<string>): set<string> {
    set x | x in xs
  }

  function Required(s: Scope, field: string): Option<Value> {
    RequiredValue(Query(s.tree, s.filters, s.filterIds), field, 0)
  }

  datatype Authorisation = Authorised(contract: Contract) | Denied(reason: string)

  function AuthoriseReturn(field: string, s: Scope): Authorisation
    requires field in PREF01_RETURNS
  {
    var universe := Universe(s);
    if universe == ["DomesticETF"] || IsProviderUnion(universe) then Authorised(PREF01_RETURNS[field])
    else if field == ONE_YEAR && universe == ["PublicFund"] && s.grain == Some("fund_share_class") then Authorised(PRFD_ONE_YEAR)
    else if field == ONE_YEAR && universe == [ISHARES_SCOPE] then Authorised(ISHARES_ONE_YEAR)
    else if Elements(universe) == {KODEX_SCOPE, TIGER_SCOPE, ISHARES_SCOPE} then Denied("domestic_vs_ishares_return_basis_not_comparable")
    else
      var period := PREF01_RETURNS[field].period.value;
      if "PublicFund" in universe || "Fund" in universe then Denied("public_fund_return_" + period + "_not_comparable_at_fund_grain")
      else if "ForeignETF" in universe || "ETF" in universe then Denied("foreign_etf_return_" + period + "_unavailable_or_incompatible")
      else Denied("return_" + period + "_product_scope_not_verified")
  }

  function Authorise(field: string, s: Scope): Authorisation {
    if field == "product.expense_ratio" then Denied("expense_ratio_scale_unverified")
    else if field == "product.risk_grade" then Denied(RISK_REASON)
    else if field in PREF01_RETURNS then AuthoriseReturn(field, s)
    else if field != "product.aum" then Denied("ordered_comparison_not_supported:" + field)
    else if Universe(s) == ["DomesticETF"] || IsProviderUnion(Universe(s)) || Required(s, "product.currency") == Some(Text("KRW")) then
      Authorised(PREF01_AUM)
    else if Required(s, "product.listing_country") == Some(Text("US")) then Authorised(PREF02_AUM)
    else Denied("aum_scope_spans_or_cannot_exclude_incompatible_sources")
  }

  /** Whatever is authorised is enabled, sortable, about the field asked for and never
      comparable across datasets; and it is one of the reviewed scopes. */
  lemma AuthorisedIsReviewed(field: string, s: Scope)
    requires Authorise(field, s).Authorised?
    ensures var c := Authorise(field, s).contract;
            c.field == field && c.disabled.None? && c.sortable && !c.crossDataset
    ensures field == ONE_YEAR ==>
              Authorise(field, s).contract.dataset ==
                (if Universe(s) == ["PublicFund"] then "PRFD01N001"
                 else if Universe(s) == [ISHARES_SCOPE] then "ISHARES_US_PERFORMANCE" else "PREF01N001")
  {
    hide Universe, Required;
    if field == ONE_YEAR && IsProviderUnion(Universe(s)) {
      assert Universe(s)[0] in Universe(s);
    }
  }

  ghost predicate CarriedByAll(s: Scope, field: string, v: Value) {
    exists i :: 0 <= i < |s.filters| && IsEquality(s.filters[i], field) && FilterValue(s.filters[i]) == v
                && Forced(Query(s.tree, s.filters, s.filterIds), i)
  }

  lemma RequiredIsCarried(s: Scope, field: string, v: Value)
    requires Required(s, field) == Some(v)
    ensures CarriedByAll(s, field, v)
  {
    EqualityIsForced(Query(s.tree, s.filters, s.filterIds), field);
  }

  /** A KRW or USD size contract is never handed to a mixed result: unless the universe itself
      is the domestic one, every result row satisfies the currency (or listing) equality. */
  lemma AumContractsAreNotMixed(s: Scope)
    ensures Authorise("product.aum", s) == Authorised(PREF01_AUM) ==>
              Universe(s) == ["DomesticETF"] || IsProviderUnion(Universe(s)) || CarriedByAll(s, "product.currency", Text("KRW"))
    ensures Authorise("product.aum", s) == Authorised(PREF02_AUM) ==> CarriedByAll(s, "product.listing_country", Text("US"))
    ensures Authorise("product.aum", s).Authorised? ==> Authorise("product.aum", s).contract in {PREF01_AUM, PREF02_AUM}
  {
    hide Required, Universe, IsProviderUnion, CarriedByAll;
    if Required(s, "product.currency") == Some(Text("KRW")) { RequiredIsCarried(s, "product.currency", Text("KRW")); }
    if Required(s, "product.listing_country") == Some(Text("US")) { RequiredIsCarried(s, "product.listing_country", Text("US")); }
    assert PREF01_AUM.currency != PREF02_AUM.currency;
  }
}
