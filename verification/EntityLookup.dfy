/** Looking a name up in a registry: exact matches by tier, and otherwise a ranking by similarity
    of which a match is accepted only when it is clear of the rest by a margin. */
module EntityLookup {
  import opened Basics

  datatype Entity = Entity(id: string, kind: string, name: string, aliases: seq<string>, identifiers: seq<string>)

  /** A query with its readings of text: comparison form, plain form, similarity to the query in
      millionths, and whether an official name may be the same organization at all. */
  datatype Query = Query(
    kind: string, raw: string,
    form: string -> string, plain: string -> string, similarity: string -> int, compatible: string -> bool)

  datatype How = ExactCanonical | ExactAlias | NormalizedExact | IdentifierMatch | FuzzyMatch
  datatype Match = Match(entity: Entity, matched: string, how: How, score: int)
  datatype Reason = Ambiguous | BelowThreshold
  datatype Candidate = Candidate(found: Match, rejection: Option<Reason>)
  datatype Outcome = Outcome(matches: seq<Match>, candidates: seq<Candidate>)

  const EXACT_SCORE := 1_000_000
  const ACCEPTANCE := 900_000
  const MARGIN := 30_000
  const CANDIDATE := 550_000
  const LIMIT := 10

  predicate Eligible(q: Query, e: Entity) {
    e.kind == q.kind && q.compatible(e.name)
  }

  ghost predicate DistinctIds(registry: seq<Entity>) {
    forall i, j :: 0 <= i < j < |registry| ==> registry[i].id != registry[j].id
  }

  // ------------------------------------------------------------ exact tiers

  datatype Tag = Official | Alias | Identifier

  function Tagged(values: seq<string>, tag: Tag): seq<(string, Tag)> {
    seq(|values|, i requires 0 <= i < |values| => (values[i], tag))
  }

  function Names(e: Entity): seq<(string, Tag)> {
    [(e.name, Official)] + Tagged(e.aliases, Alias) + Tagged(e.identifiers, Identifier)
  }

  function HowMatched(q: Query, v: string, tag: Tag): How {
    if tag == Identifier then IdentifierMatch
    else if q.plain(v) == q.plain(q.raw) then (if tag == Official then ExactCanonical else ExactAlias)
    else NormalizedExact
  }

  function Tier(how: How): nat {
    match how
    case ExactCanonical => 0
    case ExactAlias => 1
    case NormalizedExact => 2
    case IdentifierMatch => 3
    case FuzzyMatch => 4
  }

  /** The first of the names whose comparison form is the query's. */
  function FirstExact(q: Query, e: Entity, names: seq<(string, Tag)>): Option<Match>
    decreases |names|
  {
    if names == [] then None
    else if q.form(names[0].0) == q.form(q.raw) then
      Some(Match(e, names[0].0, HowMatched(q, names[0].0, names[0].1), EXACT_SCORE))
    else FirstExact(q, e, names[1..])
  }

  function ExactMatch(q: Query, e: Entity): Option<Match> {
    if Eligible(q, e) then FirstExact(q, e, Names(e)) else None
  }

  method FindExact(q: Query, e: Entity) returns (m: Option<Match>)
    requires Eligible(q, e)
    ensures m == ExactMatch(q, e)
  {
    var names := Names(e);
    var i := 0;
    while i < |names|
      invariant 0 <= i <= |names|
      invariant FirstExact(q, e, names) == FirstExact(q, e, names[i..])
    {
      if q.form(names[i].0) == q.form(q.raw) {
        return Some(Match(e, names[i].0, HowMatched(q, names[i].0, names[i].1), EXACT_SCORE));
      }
      i := i + 1;
    }
    return None;
  }

  /** Every entity that matches exactly and whose tier no other entity undercuts. */
  ghost predicate IsBestExact(q: Query, registry: seq<Entity>, m: Match) {
    && (exists e :: e in registry && ExactMatch(q, e) == Some(m))
    && (forall e :: e in registry && ExactMatch(q, e).Some? ==> Tier(m.how) <= Tier(ExactMatch(q, e).value.how))
  }

  ghost predicate HasExact(q: Query, registry: seq<Entity>) {
    exists e :: e in registry && ExactMatch(q, e).Some?
  }

  /** `best` is the least tier in the sequence, or past the last tier when it is empty. */
  ghost predicate IsBestTier(tiered: seq<Match>, best: nat) {
    && (forall m :: m in tiered ==> best <= Tier(m.how))
    && (if tiered == [] then best == 4 else exists m :: m in tiered && Tier(m.how) == best)
  }

  lemma BestTierOneMore(tiered: seq<Match>, best: nat, m: Match)
    requires IsBestTier(tiered, best) && Tier(m.how) < 4
    ensures IsBestTier(tiered + [m], if Tier(m.how) < best then Tier(m.how) else best)
  {
    assert m in tiered + [m];
    if tiered != [] {
      var n :| n in tiered && Tier(n.how) == best;
      assert n in tiered + [m];
    }
  }

  /** The tiered loop over the registry and the selection of the best tier. */
  method ExactMatches(q: Query, registry: seq<Entity>) returns (matches: seq<Match>)
    ensures forall m :: m in matches <==> IsBestExact(q, registry, m)
    ensures matches == [] <==> !HasExact(q, registry)
  {
    var tiered: seq<Match> := [];
    var best: nat := 4;
    hide Tier, IsBestTier, FirstExact, Eligible;
    assert IsBestTier(tiered, best) by { NoTierYet(); }
    for i := 0 to |registry|
      invariant forall m :: m in tiered <==> exists e :: e in registry[..i] && ExactMatch(q, e) == Some(m)
      invariant IsBestTier(tiered, best)
    {
      assert registry[..i + 1] == registry[..i] + [registry[i]];
      if Eligible(q, registry[i]) {
        var m := FindExact(q, registry[i]);
        if m.Some? {
          ExactTier(q, registry[i]);
          BestTierOneMore(tiered, best, m.value);
          tiered := tiered + [m.value];
          best := if Tier(m.value.how) < best then Tier(m.value.how) else best;
        }
      }
    }
    assert registry[..|registry|] == registry;
    matches := SelectTier(tiered, best);
    BestTierIsBest(q, registry, tiered, best);
    if matches != [] {
      assert matches[0] in matches;
    }
  }

  lemma NoTierYet()
    ensures IsBestTier([], 4)
  {
  }

  lemma BestTierIsBest(q: Query, registry: seq<Entity>, tiered: seq<Match>, best: nat)
    requires forall m :: m in tiered <==> exists e :: e in registry && ExactMatch(q, e) == Some(m)
    requires IsBestTier(tiered, best)
    ensures forall m :: IsBestExact(q, registry, m) <==> m in tiered && Tier(m.how) == best
    ensures HasExact(q, registry) <==> exists m :: m in tiered && Tier(m.how) == best
  {
    hide Tier, ExactMatch;
    forall e | e in registry && ExactMatch(q, e).Some? ensures ExactMatch(q, e).value in tiered {}
  }

  method SelectTier(tiered: seq<Match>, best: nat) returns (matches: seq<Match>)
    ensures forall m :: m in matches <==> m in tiered && Tier(m.how) == best
  {
    matches := [];
    for i := 0 to |tiered|
      invariant forall m :: m in matches <==> m in tiered[..i] && Tier(m.how) == best
    {
      assert tiered[..i + 1] == tiered[..i] + [tiered[i]];
      if Tier(tiered[i].how) == best {
        matches := matches + [tiered[i]];
      }
    }
    assert tiered[..|tiered|] == tiered;
  }

  lemma {:induction false} FirstExactTier(q: Query, e: Entity, names: seq<(string, Tag)>)
    ensures FirstExact(q, e, names).Some? ==> Tier(FirstExact(q, e, names).value.how) < 4
    decreases |names|
  {
    if names != [] { FirstExactTier(q, e, names[1..]); }
  }

  lemma ExactTier(q: Query, e: Entity)
    ensures ExactMatch(q, e).Some? ==> Tier(ExactMatch(q, e).value.how) < 4
  {
    FirstExactTier(q, e, Names(e));
  }

  // ------------------------------------------------------------ similarity

  function FuzzyNames(e: Entity): seq<string> {
    [e.name] + e.aliases
  }

  /** Code points, first difference decides. */
  predicate Less(a: string, b: string)
    decreases |a|
  {
    |b| > 0 && (|a| == 0 || a[0] < b[0] || (a[0] == b[0] && Less(a[1..], b[1..])))
  }

  lemma {:induction false} LessTotal(a: string, b: string)
    ensures Less(a, b) || Less(b, a) || a == b
    decreases |a|
  {
    if |a| > 0 && |b| > 0 && a[0] == b[0] {
      LessTotal(a[1..], b[1..]);
      assert a == [a[0]] + a[1..] && b == [b[0]] + b[1..];
    }
  }

  lemma {:induction false} LessTransitive(a: string, b: string, c: string)
    requires Less(a, b) && Less(b, c)
    ensures Less(a, c)
    decreases |a|
  {
    if |a| > 0 && a[0] == b[0] && b[0] == c[0] {
      LessTransitive(a[1..], b[1..], c[1..]);
    }
  }

  lemma {:induction false} LessAsymmetric(a: string, b: string)
    requires Less(a, b)
    ensures !Less(b, a)
    decreases |a|
  {
    if |a| > 0 && a[0] == b[0] {
      LessAsymmetric(a[1..], b[1..]);
    }
  }

  /** The best score first, and of equal scores the greater name. */
  predicate Better(q: Query, v: string, w: string) {
    q.similarity(v) > q.similarity(w) || (q.similarity(v) == q.similarity(w) && Less(w, v))
  }

  /** The name that scores best among those that are not empty. */
  function BestName(q: Query, names: seq<string>): Option<string>
    decreases |names|
  {
    if names == [] then None
    else
      var rest := BestName(q, names[..|names| - 1]);
      var v := names[|names| - 1];
      if v == "" then rest
      else if rest.None? || Better(q, v, rest.value) then Some(v) else rest
  }

  predicate Unnamed(names: seq<string>) {
    forall v :: v in names ==> v == ""
  }

  /** It scores at least as much as any other name of the entity. */
  lemma {:induction false} BestNameIsBest(q: Query, names: seq<string>)
    ensures BestName(q, names).None? <==> Unnamed(names)
    ensures BestName(q, names).Some? ==> BestName(q, names).value in names && BestName(q, names).value != ""
    ensures BestName(q, names).Some? ==> forall v :: v in names && v != "" ==> q.similarity(v) <= q.similarity(BestName(q, names).value)
    decreases |names|
  {
    if names != [] {
      var init, last := names[..|names| - 1], names[|names| - 1];
      BestNameIsBest(q, init);
      assert names == init + [last];
      assert Unnamed(names) <==> Unnamed(init) && last == "" by {
        assert last in names;
        assert forall v :: v in names <==> v in init || v == last;
      }
    }
  }

  /** The similarity match of an eligible entity that reaches the candidate threshold. */
  function Similar(q: Query, e: Entity): Option<Match> {
    var best := BestName(q, FuzzyNames(e));
    if !Eligible(q, e) || best.None? || q.similarity(best.value) < CANDIDATE then None
    else Some(Match(e, best.value, FuzzyMatch, q.similarity(best.value)))
  }

  function Similars(q: Query, registry: seq<Entity>): seq<Match>
    decreases |registry|
  {
    if registry == [] then []
    else
      var m := Similar(q, registry[|registry| - 1]);
      Similars(q, registry[..|registry| - 1]) + if m.Some? then [m.value] else []
  }

  method BestNameOf(q: Query, names: seq<string>) returns (best: Option<string>)
    ensures best == BestName(q, names)
  {
    best := None;
    for i := 0 to |names|
      invariant best == BestName(q, names[..i])
    {
      assert names[..i + 1][..i] == names[..i];
      if names[i] != "" && (best.None? || Better(q, names[i], best.value)) {
        best := Some(names[i]);
      }
    }
    assert names[..|names|] == names;
  }

  // ------------------------------------------------------------ ranking

  predicate Before(m: Match, n: Match) {
    m.score > n.score || (m.score == n.score && Less(m.entity.id, n.entity.id))
  }

  ghost predicate Sorted(r: seq<Match>) {
    forall i, j :: 0 <= i < j < |r| ==> !Before(r[j], r[i])
  }

  lemma NotBeforeTransitive(a: Match, b: Match, c: Match)
    requires !Before(b, a) && !Before(c, b)
    ensures !Before(c, a)
  {
    LessTotal(a.entity.id, b.entity.id);
    LessTotal(b.entity.id, c.entity.id);
    if Less(a.entity.id, b.entity.id) && Less(b.entity.id, c.entity.id) {
      LessTransitive(a.entity.id, b.entity.id, c.entity.id);
    }
    if Less(a.entity.id, c.entity.id) {
      LessAsymmetric(a.entity.id, c.entity.id);
    }
    if Before(c, a) && c.score == a.score {
      LessAsymmetric(c.entity.id, a.entity.id);
    }
  }

  /** Sorting by score, best first, then by id. */
  method Sort(xs: seq<Match>) returns (r: seq<Match>)
    ensures multiset(r) == multiset(xs) && Sorted(r)
  {
    r := [];
    for i := 0 to |xs|
      invariant multiset(r) == multiset(xs[..i]) && Sorted(r)
    {
      assert xs[..i + 1] == xs[..i] + [xs[i]];
      r := Insert(r, xs[i]);
    }
    assert xs[..|xs|] == xs;
  }

  method Insert(r: seq<Match>, m: Match) returns (r': seq<Match>)
    requires Sorted(r)
    ensures multiset(r') == multiset(r) + multiset{m} && Sorted(r')
  {
    var k := |r|;
    while k > 0 && Before(m, r[k - 1])
      invariant 0 <= k <= |r|
      invariant forall j :: k <= j < |r| ==> Before(m, r[j])
    {
      k := k - 1;
    }
    r' := r[..k] + [m] + r[k..];
    assert r == r[..k] + r[k..];
    forall i, j | 0 <= i < j < |r'| ensures !Before(r'[j], r'[i]) {
      InsertedSorted(r, m, k, i, j);
    }
  }

  lemma InsertedSorted(r: seq<Match>, m: Match, k: nat, i: nat, j: nat)
    requires Sorted(r) && k <= |r| && i < j < |r| + 1
    requires k > 0 ==> !Before(m, r[k - 1])
    requires forall x :: k <= x < |r| ==> Before(m, r[x])
    ensures var r' := r[..k] + [m] + r[k..]; !Before(r'[j], r'[i])
  {
    if j == k && i < k - 1 {
      NotBeforeTransitive(r[i], r[k - 1], m);
    }
    if i == k {
      BeforeAsymmetric(m, r[j - 1]);
    }
  }

  lemma BeforeAsymmetric(m: Match, n: Match)
    requires Before(m, n)
    ensures !Before(n, m)
  {
    if m.score == n.score { LessAsymmetric(m.entity.id, n.entity.id); }
  }

  /** The whole registry ranked: every similar entity once, best first. */
  ghost predicate IsRanking(q: Query, registry: seq<Entity>, r: seq<Match>) {
    multiset(r) == multiset(Similars(q, registry)) && Sorted(r)
  }

  function Top(r: seq<Match>): seq<Match> {
    if |r| <= LIMIT then r else r[..LIMIT]
  }

  /** The matches within the margin of the best one, when the best one is good enough. */
  function Accepted(top: seq<Match>): seq<Match> {
    if top == [] || top[0].score < ACCEPTANCE then [] else Within(top, top[0].score)
  }

  function Within(top: seq<Match>, best: int): seq<Match>
    decreases |top|
  {
    if top == [] then []
    else Within(top[..|top| - 1], best) + if best - top[|top| - 1].score < MARGIN then [top[|top| - 1]] else []
  }

  method KeepWithin(top: seq<Match>, best: int) returns (r: seq<Match>)
    ensures r == Within(top, best)
  {
    r := [];
    for i := 0 to |top|
      invariant r == Within(top[..i], best)
    {
      assert top[..i + 1][..i] == top[..i];
      if best - top[i].score < MARGIN {
        r := r + [top[i]];
      }
    }
    assert top[..|top|] == top;
  }

  function Listed(matches: seq<Match>, rejection: Option<Reason>): seq<Candidate> {
    seq(|matches|, i requires 0 <= i < |matches| => Candidate(matches[i], rejection))
  }

  /** Why a ranked entity is not the answer: it is accepted beside others, or not at all. */
  function Judged(top: seq<Match>, accepted: seq<Match>): seq<Candidate> {
    seq(|top|, i requires 0 <= i < |top| =>
      Candidate(top[i], if !AcceptedId(accepted, top[i].entity.id) then Some(BelowThreshold)
                        else if |accepted| > 1 then Some(Ambiguous) else None))
  }

  predicate AcceptedId(accepted: seq<Match>, id: string) {
    exists m :: m in accepted && m.entity.id == id
  }

  /** The lookup: the best exact tier when there is one, and otherwise what is accepted of the
      first ten of the ranking. */
  method LookUp(q: Query, registry: seq<Entity>) returns (o: Outcome)
    ensures HasExact(q, registry) ==> o.matches != [] && forall m :: m in o.matches <==> IsBestExact(q, registry, m)
    ensures HasExact(q, registry) ==> o.candidates == Listed(o.matches, if |o.matches| > 1 then Some(Ambiguous) else None)
    ensures !HasExact(q, registry) ==> exists r :: IsRanking(q, registry, r) && o.matches == Accepted(Top(r)) && o.candidates == Judged(Top(r), o.matches)
  {
    var matches := ExactMatches(q, registry);
    if matches != [] {
      return Outcome(matches, Listed(matches, if |matches| > 1 then Some(Ambiguous) else None));
    }
    var similars: seq<Match> := [];
    for i := 0 to |registry|
      invariant similars == Similars(q, registry[..i])
    {
      assert registry[..i + 1][..i] == registry[..i];
      if Eligible(q, registry[i]) {
        var best := BestNameOf(q, FuzzyNames(registry[i]));
        if best.Some? && q.similarity(best.value) >= CANDIDATE {
          similars := similars + [Match(registry[i], best.value, FuzzyMatch, q.similarity(best.value))];
        }
      }
    }
    assert registry[..|registry|] == registry;
    var r := Sort(similars);
    var top := Top(r);
    var accepted: seq<Match> := [];
    if top != [] && top[0].score >= ACCEPTANCE {
      accepted := KeepWithin(top, top[0].score);
    }
    assert IsRanking(q, registry, r) && accepted == Accepted(Top(r));
    return Outcome(accepted, Judged(top, accepted));
  }

  // ------------------------------------------------------------ what the ranking means

  lemma {:induction false} SimilarsMembers(q: Query, registry: seq<Entity>, m: Match)
    ensures m in Similars(q, registry) <==> exists e :: e in registry && Similar(q, e) == Some(m)
    decreases |registry|
  {
    if registry != [] {
      hide Similar;
      var init := registry[..|registry| - 1];
      SimilarsMembers(q, init, m);
      assert registry == init + [registry[|registry| - 1]];
    }
  }

  lemma RankingMembers(q: Query, registry: seq<Entity>, r: seq<Match>)
    requires IsRanking(q, registry, r)
    ensures forall m :: m in r <==> exists e :: e in registry && Similar(q, e) == Some(m)
  {
    hide Similar;
    forall m ensures m in r <==> exists e :: e in registry && Similar(q, e) == Some(m) {
      SimilarsMembers(q, registry, m);
      assert m in r <==> m in multiset(r);
      assert m in Similars(q, registry) <==> m in multiset(Similars(q, registry));
    }
  }

  ghost predicate DistinctMatches(r: seq<Match>) {
    forall i, j :: 0 <= i < j < |r| ==> r[i].entity.id != r[j].entity.id
  }

  lemma {:induction false} SimilarsDistinct(q: Query, registry: seq<Entity>)
    requires DistinctIds(registry)
    ensures DistinctMatches(Similars(q, registry))
    decreases |registry|
  {
    if registry != [] {
      hide BestName, Eligible;
      var init, last := registry[..|registry| - 1], registry[|registry| - 1];
      SimilarsDistinct(q, init);
      var xs := Similars(q, init);
      forall i | 0 <= i < |xs| ensures xs[i].entity.id != last.id {
        assert xs[i] in xs;
        SimilarsMembers(q, init, xs[i]);
        var e :| e in init && Similar(q, e) == Some(xs[i]);
        var k :| 0 <= k < |init| && init[k] == e;
        assert registry[k] == e;
      }
    }
  }

  /** Distinctness is a matter of how often a match occurs. */
  lemma DistinctByCount(xs: seq<Match>, ys: seq<Match>)
    requires multiset(xs) == multiset(ys) && DistinctMatches(xs)
    ensures DistinctMatches(ys)
  {
    forall i, j | 0 <= i < j < |ys| ensures ys[i].entity.id != ys[j].entity.id {
      if ys[i].entity.id == ys[j].entity.id {
        var a, b := ys[i], ys[j];
        assert a in multiset(xs) && b in multiset(xs);
        var k :| 0 <= k < |xs| && xs[k] == a;
        var l :| 0 <= l < |xs| && xs[l] == b;
        assert k == l;
        TwoOccurrences(ys, i, j);
        OneOccurrence(xs, k);
      }
    }
  }

  lemma TwoOccurrences(ys: seq<Match>, i: nat, j: nat)
    requires i < j < |ys| && ys[i] == ys[j]
    ensures multiset(ys)[ys[i]] >= 2
  {
    assert ys == ys[..i] + [ys[i]] + ys[i + 1..j] + [ys[j]] + ys[j + 1..];
  }

  lemma OneOccurrence(xs: seq<Match>, k: nat)
    requires k < |xs| && DistinctMatches(xs)
    ensures multiset(xs)[xs[k]] == 1
  {
    assert xs == xs[..k] + [xs[k]] + xs[k + 1..];
    assert xs[k] !in xs[..k] && xs[k] !in xs[k + 1..];
  }

  /** Two sorted sequences of the same distinct matches are the same sequence. */
  lemma {:induction false} SortedIsUnique(r: seq<Match>, s: seq<Match>)
    requires Sorted(r) && Sorted(s) && DistinctMatches(r) && DistinctMatches(s)
    requires forall m :: m in r <==> m in s
    ensures r == s
    decreases |r|
  {
    if r == [] {
      HasMember(s);
    } else {
      assert r[0] in r && r[0] in s;
      assert s[0] in s && s[0] in r;
      FirstIsUnique(r, s);
      var r1, s1 := r[1..], s[1..];
      assert forall m :: m in r1 <==> m in r && m != r[0] by { TailMembers(r); }
      assert forall m :: m in s1 <==> m in s && m != s[0] by { TailMembers(s); }
      SortedIsUnique(r1, s1);
      assert r == [r[0]] + r1 && s == [s[0]] + s1;
    }
  }

  lemma HasMember(s: seq<Match>)
    ensures s != [] ==> exists m :: m in s
  {
    if s != [] {
      assert s[0] in s;
    }
  }

  lemma TailMembers(r: seq<Match>)
    requires r != [] && DistinctMatches(r)
    ensures forall m :: m in r[1..] <==> m in r && m != r[0]
  {
    assert r == [r[0]] + r[1..];
  }

  lemma FirstIsUnique(r: seq<Match>, s: seq<Match>)
    requires Sorted(r) && Sorted(s) && DistinctMatches(r) && r != [] && s != [] && r[0] in s && s[0] in r
    ensures r[0] == s[0]
  {
    var i :| 0 <= i < |s| && s[i] == r[0];
    var j :| 0 <= j < |r| && r[j] == s[0];
    BeforeIrreflexive(r[0]);
    BeforeIrreflexive(s[0]);
    assert !Before(s[0], r[0]) && !Before(r[0], s[0]);
    LessTotal(r[0].entity.id, s[0].entity.id);
  }

  lemma BeforeIrreflexive(m: Match)
    ensures !Before(m, m)
  {
    if Less(m.entity.id, m.entity.id) { LessAsymmetric(m.entity.id, m.entity.id); }
  }

  /** The ranking, and so what is accepted and what is offered as candidates, does not depend on
      the order of the registry. */
  lemma RegistryOrderDoesNotMatter(q: Query, registry: seq<Entity>, registry': seq<Entity>, r: seq<Match>, r': seq<Match>)
    requires DistinctIds(registry) && DistinctIds(registry') && forall e :: e in registry <==> e in registry'
    requires IsRanking(q, registry, r) && IsRanking(q, registry', r')
    ensures r == r' && Accepted(Top(r)) == Accepted(Top(r'))
  {
    RankingMembers(q, registry, r);
    RankingMembers(q, registry', r');
    SimilarsDistinct(q, registry);
    SimilarsDistinct(q, registry');
    DistinctByCount(Similars(q, registry), r);
    DistinctByCount(Similars(q, registry'), r');
    hide Similar, Similars, Top, Accepted;
    SortedIsUnique(r, r');
  }

  // ------------------------------------------------------------ acceptance

  lemma {:induction false} WithinIsPrefix(top: seq<Match>, best: int)
    requires forall i, j :: 0 <= i < j < |top| ==> top[i].score >= top[j].score
    ensures |Within(top, best)| <= |top| && Within(top, best) == top[..|Within(top, best)|]
    ensures forall i :: |Within(top, best)| <= i < |top| ==> best - top[i].score >= MARGIN
    ensures forall i :: 0 <= i < |Within(top, best)| ==> best - top[i].score < MARGIN
    decreases |top|
  {
    if top != [] {
      WithinIsPrefix(top[..|top| - 1], best);
    }
  }

  /** What is accepted is the head of the ranking, cut where the margin is reached; a match that is
      not accepted is worse by the margin than the best one, or the best one is not good enough. */
  lemma AcceptedIsPrefix(r: seq<Match>)
    requires Sorted(r)
    ensures var k := |Accepted(Top(r))|;
      k <= |Top(r)| && Accepted(Top(r)) == r[..k] && (k > 0 <==> r != [] && r[0].score >= ACCEPTANCE)
    ensures var k := |Accepted(Top(r))|;
      k > 0 && k < LIMIT ==> forall i :: k <= i < |r| ==> r[0].score - r[i].score >= MARGIN
    ensures forall i :: 0 <= i < |Accepted(Top(r))| ==> r[0].score - r[i].score < MARGIN
  {
    var top := Top(r);
    assert forall i, j :: 0 <= i < j < |r| ==> r[i].score >= r[j].score;
    if top != [] {
      WithinIsPrefix(top, top[0].score);
    }
  }

  /** The entity is good enough and every other eligible entity that has a score, ranked or not, is
      worse by at least the margin. */
  ghost predicate ClearWinner(q: Query, registry: seq<Entity>, e: Entity) {
    && e in registry && Eligible(q, e) && BestScore(q, e) >= ACCEPTANCE
    && forall other :: other in registry && other != e && Eligible(q, other) ==> BestScore(q, other) + MARGIN <= BestScore(q, e)
  }

  /** The best similarity of any of its names; an entity without a name scores nothing. */
  function BestScore(q: Query, e: Entity): int {
    var best := BestName(q, FuzzyNames(e));
    if best.None? then 0 else q.similarity(best.value)
  }

  /** The one accepted match is a clear winner over the whole registry, not only over the ten that
      were kept; and a clear winner is the one accepted match. */
  lemma UniqueMatchIffClearWinner(q: Query, registry: seq<Entity>, r: seq<Match>)
    requires DistinctIds(registry) && IsRanking(q, registry, r)
    ensures |Accepted(Top(r))| == 1 <==> exists e :: ClearWinner(q, registry, e)
    ensures |Accepted(Top(r))| == 1 ==> ClearWinner(q, registry, Accepted(Top(r))[0].entity)
  {
    RankingMembers(q, registry, r);
    AcceptedIsPrefix(r);
    hide Top, Accepted, BestName, Eligible, IsRanking, Sorted;
    if |Accepted(Top(r))| == 1 {
      AcceptedWins(q, registry, r);
    }
    if e :| ClearWinner(q, registry, e) {
      WinnerIsFirst(q, registry, r, e);
    }
  }

  lemma SimilarIs(q: Query, e: Entity)
    ensures Similar(q, e).Some? <==> Eligible(q, e) && BestName(q, FuzzyNames(e)).Some? && BestScore(q, e) >= CANDIDATE
    ensures Similar(q, e).Some? ==> Similar(q, e).value.entity == e && Similar(q, e).value.score == BestScore(q, e)
    ensures BestScore(q, e) > 0 ==> BestName(q, FuzzyNames(e)).Some?
  {
  }

  lemma AcceptedWins(q: Query, registry: seq<Entity>, r: seq<Match>)
    requires IsRanking(q, registry, r) && |Accepted(Top(r))| == 1
    requires forall m :: m in r <==> exists e :: e in registry && Similar(q, e) == Some(m)
    ensures ClearWinner(q, registry, Accepted(Top(r))[0].entity)
  {
    AcceptedIsPrefix(r);
    hide Top, Accepted, BestName, Eligible, IsRanking, Sorted, Similar, BestScore;
    var m := r[0];
    assert m in r;
    var e :| e in registry && Similar(q, e) == Some(m);
    SimilarIs(q, e);
    forall other | other in registry && other != e && Eligible(q, other)
      ensures BestScore(q, other) + MARGIN <= BestScore(q, e)
    {
      SimilarIs(q, other);
      if Similar(q, other).Some? {
        var n := Similar(q, other).value;
        assert n in r;
        var i :| 0 <= i < |r| && r[i] == n;
        assert i != 0;
      }
    }
  }

  lemma WinnerIsFirst(q: Query, registry: seq<Entity>, r: seq<Match>, e: Entity)
    requires IsRanking(q, registry, r) && ClearWinner(q, registry, e) && DistinctIds(registry)
    requires forall m :: m in r <==> exists e :: e in registry && Similar(q, e) == Some(m)
    ensures |Accepted(Top(r))| == 1
  {
    SimilarIs(q, e);
    RankingIsDistinct(q, registry, r);
    var m := Similar(q, e).value;
    hide Accepted, BestName, Eligible, Similar, BestScore, IsRanking, Sorted, Top;
    assert m in r;
    var i :| 0 <= i < |r| && r[i] == m;
    forall j | 0 <= j < |r| && j != i ensures r[j].score + MARGIN <= m.score {
      assert r[j] in r;
      var other :| other in registry && Similar(q, other) == Some(r[j]);
      SimilarIs(q, other);
    }
    HighestFirst(r, i);
    assert i == 0;
    AcceptedAlone(r);
  }

  lemma HighestFirst(r: seq<Match>, i: nat)
    requires Sorted(r) && i < |r|
    ensures r[i].score <= r[0].score
  {
  }

  lemma SecondIsClose(r: seq<Match>)
    requires Sorted(r) && |Accepted(Top(r))| > 1
    ensures |r| > 1 && r[0].score - r[1].score < MARGIN
  {
    AcceptedIsPrefix(r);
    hide Accepted;
  }

  lemma AcceptedAlone(r: seq<Match>)
    requires Sorted(r) && r != [] && r[0].score >= ACCEPTANCE
    requires forall j :: 0 < j < |r| ==> r[j].score + MARGIN <= r[0].score
    ensures |Accepted(Top(r))| == 1
  {
    AcceptedIsPrefix(r);
    if |Accepted(Top(r))| > 1 {
      SecondIsClose(r);
    }
    hide Accepted;
  }

  lemma RankingIsDistinct(q: Query, registry: seq<Entity>, r: seq<Match>)
    requires IsRanking(q, registry, r) && DistinctIds(registry)
    ensures DistinctMatches(r)
  {
    SimilarsDistinct(q, registry);
    DistinctByCount(Similars(q, registry), r);
  }
}
