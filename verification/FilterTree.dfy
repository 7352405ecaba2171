/** Boolean filter trees: which predicates hold in every match, what a required
    equality forces on the result rows, and the removal of group-scoped predicates. */
module FilterTree {
  import opened Basics

  /** A tree as it arrives in a plan. `Null` is an absent tree or child, `Junk` a child
      that is not a mapping, `Other` a node of unknown type; a predicate may lack its id.
      Tags keep such nodes apart, since nothing is known about their truth. */
  datatype Node =
    | Null
    | Junk(tag: int)
    | Predicate(id: Option<string>, tag: int)
    | And(children: seq<Node>)
    | Or(children: seq<Node>)
    | Not(children: seq<Node>)
    | Other(tag: int, children: seq<Node>)

  /** Which predicate ids fail, and which nodes of unknown meaning do; all others hold. */
  datatype Valuation = Valuation(fails: set<string>, unknownFails: set<int>)

  ghost predicate Holds(n: Node, v: Valuation) {
    match n
    case Null => true
    case Junk(tag) => tag !in v.unknownFails
    case Predicate(Some(id), _) => id !in v.fails
    case Predicate(None, tag) => tag !in v.unknownFails
    case And(cs) => forall c :: c in cs ==> Holds(c, v)
    case Or(cs) => exists c :: c in cs && Holds(c, v)
    case Not(cs) => !(forall c :: c in cs ==> Holds(c, v))
    case Other(tag, _) => tag !in v.unknownFails
  }

  // ------------------------------------------------------------ must-hold analysis

  function Guaranteed(n: Node): set<string>
    decreases n
  {
    match n
    case Predicate(Some(id), _) => {id}
    case And(cs) => UnionOf(cs)
    case Or(cs) => if cs == [] then {} else IntersectionOf(cs)
    case _ => {}
  }

  function UnionOf(cs: seq<Node>): set<string>
    decreases cs
  {
    if cs == [] then {} else Guaranteed(cs[0]) + UnionOf(cs[1..])
  }

  function IntersectionOf(cs: seq<Node>): set<string>
    requires cs != []
    decreases cs
  {
    if |cs| == 1 then Guaranteed(cs[0]) else Guaranteed(cs[0]) * IntersectionOf(cs[1..])
  }

  /** Every predicate id anywhere in the tree. */
  function Mentioned(n: Node): set<string>
    decreases n
  {
    match n
    case Predicate(Some(id), _) => {id}
    case And(cs) => MentionedIn(cs)
    case Or(cs) => MentionedIn(cs)
    case Not(cs) => MentionedIn(cs)
    case Other(_, cs) => MentionedIn(cs)
    case _ => {}
  }

  function MentionedIn(cs: seq<Node>): set<string>
    decreases cs
  {
    if cs == [] then {} else Mentioned(cs[0]) + MentionedIn(cs[1..])
  }

  function Children(n: Node): seq<Node> {
    match n
    case And(cs) => cs
    case Or(cs) => cs
    case Not(cs) => cs
    case Other(_, cs) => cs
    case _ => []
  }

  lemma {:induction false} SetsOfChildren(cs: seq<Node>)
    ensures forall id :: id in UnionOf(cs) <==> exists c :: c in cs && id in Guaranteed(c)
    ensures cs != [] ==> forall id :: id in IntersectionOf(cs) <==> forall c :: c in cs ==> id in Guaranteed(c)
  {
    if cs != [] {
      SetsOfChildren(cs[1..]);
      assert forall c :: c in cs <==> c == cs[0] || c in cs[1..];
      assert cs[0] in cs;
      if |cs| == 1 {
        assert forall c :: c in cs ==> c == cs[0];
      } else {
        assert IntersectionOf(cs) == Guaranteed(cs[0]) * IntersectionOf(cs[1..]);
      }
    }
  }

  /** The nested closure of the equality filter: it returns the ids true in every match of
      `n` and adds every id it meets to `represented`. */
  method Analyse(n: Node, represented: set<string>) returns (held: set<string>, seen: set<string>)
    ensures held == Guaranteed(n)
    ensures seen == represented + Mentioned(n)
    decreases n
  {
    seen := represented;
    if n.Null? || n.Junk? { return {}, seen; }
    if n.Predicate? {
      if n.id.Some? { return {n.id.value}, seen + {n.id.value}; }
      return {}, seen;
    }
    var cs := Children(n);
    assert represented + MentionedIn(cs) == represented + Mentioned(n);
    var i := 0;
    var all: set<string>, common: set<string> := {}, {};
    while i < |cs|
      invariant 0 <= i <= |cs|
      invariant seen + MentionedIn(cs[i..]) == represented + MentionedIn(cs)
      invariant all + UnionOf(cs[i..]) == UnionOf(cs)
      invariant i > 0 ==> (if i < |cs| then common * IntersectionOf(cs[i..]) else common) == IntersectionOf(cs)
    {
      assert cs[i] in cs && cs[i..][1..] == cs[i + 1..];
      var h, s := Analyse(cs[i], seen);
      seen := s;
      all := all + h;
      common := if i == 0 then h else common * h;
      i := i + 1;
    }
    if cs == [] { return {}, seen; }
    match n
    case And(_) => return all, seen;
    case Or(_) => return common, seen;
    case _ => return {}, seen;
  }

  /** An id in the must-hold set is true in every match, whatever the shape of the tree. */
  lemma {:induction false} GuaranteedIsSound(n: Node, v: Valuation, id: string)
    requires id in Guaranteed(n) && Holds(n, v)
    ensures id !in v.fails
    decreases n
  {
    SetsOfChildren(Children(n));
    match n
    case And(cs) =>
      var c :| c in cs && id in Guaranteed(c);
      GuaranteedIsSound(c, v, id);
    case Or(cs) =>
      var c :| c in cs && Holds(c, v);
      GuaranteedIsSound(c, v, id);
    case _ =>
  }

  /** No NOT, no node of unknown type, and no OR without children. */
  predicate Monotone(n: Node)
    decreases n
  {
    match n
    case And(cs) => forall c :: c in cs ==> Monotone(c)
    case Or(cs) => cs != [] && forall c :: c in cs ==> Monotone(c)
    case Not(_) => false
    case _ => true
  }

  /** Everything holds except `id`. */
  ghost function AllBut(id: string): Valuation {
    Valuation({id}, {})
  }

  lemma {:induction false} AllButDecides(n: Node, id: string)
    requires Monotone(n)
    ensures Holds(n, AllBut(id)) <==> id !in Guaranteed(n)
    decreases n
  {
    SetsOfChildren(Children(n));
    forall c | c in Children(n) && Monotone(n) && (n.And? || n.Or?)
      ensures Holds(c, AllBut(id)) <==> id !in Guaranteed(c)
    {
      AllButDecides(c, id);
    }
  }

  ghost predicate Entails(n: Node, id: string) {
    forall v :: Holds(n, v) ==> id !in v.fails
  }

  /** On NOT-free trees the analysis misses nothing: it finds exactly the entailed ids. */
  lemma GuaranteedIsExact(n: Node, id: string)
    requires Monotone(n)
    ensures id in Guaranteed(n) <==> Entails(n, id)
  {
    if id in Guaranteed(n) {
      forall v | Holds(n, v) ensures id !in v.fails { GuaranteedIsSound(n, v, id); }
    } else {
      AllButDecides(n, id);
      assert Holds(n, AllBut(id));
    }
  }

  /** Beyond them it may miss: a doubly negated predicate is entailed but not found. */
  lemma DoubleNegationIsMissed(id: string)
    ensures var n := Not([Not([Predicate(Some(id), 0)])]);
            Entails(n, id) && id !in Guaranteed(n)
  {
    var p := Predicate(Some(id), 0);
    var n := Not([Not([p])]);
    forall v | Holds(n, v) ensures id !in v.fails {
      assert Not([p]) in [Not([p])];
      assert p in [p];
      if id in v.fails {
        assert !Holds(p, v);
        assert Holds(Not([p]), v);
        assert forall c :: c in [Not([p])] ==> Holds(c, v);
      }
    }
  }

  // ------------------------------------------------------------ required equalities

  datatype Value = NoValue | Text(text: string) | Texts(texts: seq<string>) | Number(number: int)

  /** One structured filter; `canonical` is None when the key is absent. */
  datatype Filter = NotAMapping | Filter(field: string, operator: string, canonical: Option<Value>, raw: Value)

  function FilterValue(f: Filter): Value
    requires f.Filter?
  {
    match f.canonical
    case Some(v) => v
    case None => f.raw
  }

  predicate IsEquality(f: Filter, field: string) {
    f.Filter? && f.field == field && f.operator == "eq"
  }

  datatype Query = Query(tree: Node, filters: seq<Filter>, ids: seq<Option<string>>)

  function IdOf(q: Query, i: nat): Option<string> {
    if i < |q.ids| then q.ids[i] else None
  }

  /** Filter `i` is not one that the tree mentions without guaranteeing. */
  predicate Trusted(q: Query, i: nat) {
    var id := IdOf(q, i);
    id.Some? && id.value in Mentioned(q.tree) ==> id.value in Guaranteed(q.tree)
  }

  predicate Selects(q: Query, field: string, i: nat)
    requires i < |q.filters|
  {
    IsEquality(q.filters[i], field) && Trusted(q, i)
  }

  /** The value of the first trusted equality on `field`, if any. */
  method EqFilter(q: Query, field: string) returns (value: Option<Value>)
    ensures value.Some? ==> exists i :: 0 <= i < |q.filters| && Selects(q, field, i) && value == Some(FilterValue(q.filters[i]))
                                        && forall j :: 0 <= j < i ==> !Selects(q, field, j)
    ensures value.None? ==> forall i :: 0 <= i < |q.filters| ==> !Selects(q, field, i)
    ensures value == RequiredValue(q, field, 0)
  {
    var unconditional, represented := Analyse(q.tree, {});
    var i := 0;
    while i < |q.filters|
      invariant 0 <= i <= |q.filters|
      invariant forall j :: 0 <= j < i ==> !Selects(q, field, j)
      invariant RequiredValue(q, field, i) == RequiredValue(q, field, 0)
    {
      var f := q.filters[i];
      if f.Filter? && f.field == field {
        var id := IdOf(q, i);
        if !(id.Some? && id.value in represented && id.value !in unconditional) {
          if f.operator == "eq" { return Some(FilterValue(f)); }
        }
      }
      i := i + 1;
    }
    return None;
  }

  function RequiredValue(q: Query, field: string, from: nat): Option<Value>
    requires from <= |q.filters|
    decreases |q.filters| - from
  {
    if from == |q.filters| then None
    else if Selects(q, field, from) then Some(FilterValue(q.filters[from]))
    else RequiredValue(q, field, from + 1)
  }

  lemma {:induction false} RequiredValueIsFirst(q: Query, field: string, from: nat) returns (i: nat)
    requires from <= |q.filters| && RequiredValue(q, field, from).Some?
    ensures from <= i < |q.filters| && Selects(q, field, i) && RequiredValue(q, field, from) == Some(FilterValue(q.filters[i]))
    ensures forall j :: from <= j < i ==> !Selects(q, field, j)
    decreases |q.filters| - from
  {
    if Selects(q, field, from) { i := from; }
    else { i := RequiredValueIsFirst(q, field, from + 1); }
  }

  lemma {:induction false} RequiredValueMissing(q: Query, field: string, from: nat)
    requires from <= |q.filters| && RequiredValue(q, field, from).None?
    ensures forall j :: from <= j < |q.filters| ==> !Selects(q, field, j)
    decreases |q.filters| - from
  {
    if from < |q.filters| { RequiredValueMissing(q, field, from + 1); }
  }

  /** A result row: which filters it violates, and the truth of the tree's predicates on it. */
  datatype Row = Row(violated: set<int>, truth: Valuation)

  /** The row makes a named predicate true exactly when it satisfies the filter of that name. */
  ghost predicate Consistent(q: Query, r: Row) {
    forall i :: 0 <= i < |q.filters| && IdOf(q, i).Some? ==> (IdOf(q, i).value in r.truth.fails <==> i in r.violated)
  }

  /** The rows the store returns: the tree, and every filter outside it, hold. */
  ghost predicate Admitted(q: Query, r: Row) {
    && Consistent(q, r)
    && Holds(q.tree, r.truth)
    && forall i :: 0 <= i < |q.filters| && (IdOf(q, i).None? || IdOf(q, i).value !in Mentioned(q.tree)) ==> i !in r.violated
  }

  ghost predicate Forced(q: Query, i: nat) {
    forall r :: Admitted(q, r) ==> i !in r.violated
  }

  /** A trusted filter is satisfied by every row of the result. */
  lemma TrustedIsForced(q: Query, i: nat)
    requires i < |q.filters| && Trusted(q, i)
    ensures Forced(q, i)
  {
    forall r | Admitted(q, r) ensures i !in r.violated {
      var id := IdOf(q, i);
      if id.Some? && id.value in Mentioned(q.tree) {
        GuaranteedIsSound(q.tree, r.truth, id.value);
      }
    }
  }

  predicate DistinctIds(q: Query) {
    forall i, j :: 0 <= i < j < |q.filters| && IdOf(q, i).Some? ==> IdOf(q, i) != IdOf(q, j)
  }

  /** On NOT-free trees with distinct ids, trust is exactly what the result forces. */
  lemma TrustedIffForced(q: Query, i: nat)
    requires i < |q.filters| && Monotone(q.tree) && DistinctIds(q)
    ensures Trusted(q, i) <==> Forced(q, i)
  {
    if Trusted(q, i) {
      TrustedIsForced(q, i);
    } else {
      var id := IdOf(q, i).value;
      AllButDecides(q.tree, id);
      var r := Row({i}, AllBut(id));
      assert Admitted(q, r);
    }
  }

  /** The value the equality filter reports is carried by every result row, and on NOT-free
      trees with distinct ids it reports nothing only when no such equality is forced. */
  lemma EqualityIsForced(q: Query, field: string)
    ensures RequiredValue(q, field, 0).Some? ==>
              exists i :: 0 <= i < |q.filters| && IsEquality(q.filters[i], field)
                          && RequiredValue(q, field, 0) == Some(FilterValue(q.filters[i])) && Forced(q, i)
    ensures Monotone(q.tree) && DistinctIds(q) && RequiredValue(q, field, 0).None? ==>
              forall i :: 0 <= i < |q.filters| && IsEquality(q.filters[i], field) ==> !Forced(q, i)
  {
    if RequiredValue(q, field, 0).Some? {
      var i := RequiredValueIsFirst(q, field, 0);
      TrustedIsForced(q, i);
    } else if Monotone(q.tree) && DistinctIds(q) {
      RequiredValueMissing(q, field, 0);
      forall i | 0 <= i < |q.filters| && IsEquality(q.filters[i], field)
        ensures !Forced(q, i)
      {
        assert !Selects(q, field, i);
        TrustedIffForced(q, i);
      }
    }
  }

  // ------------------------------------------------------------ removing predicates

  datatype Rewrite = Rewritten(node: Node) | Refused

  predicate NamedIn(n: Node, removed: set<string>) {
    n.Predicate? && n.id.Some? && n.id.value in removed
  }

  function Without(n: Node, removed: set<string>): Rewrite
    decreases n
  {
    if removed == {} || n.Null? then Rewritten(n)
    else match n
      case Junk(_) => Refused
      case Predicate(_, _) => Rewritten(if NamedIn(n, removed) then Null else n)
      case And(cs) =>
        (match WithoutAll(cs, removed)
         case None => Refused
         case Some(kept) => Rewritten(Conjunction(kept)))
      case _ =>
        if exists c :: c in Children(n) && NamedIn(c, removed) then Refused else Rewritten(n)
  }

  /** The rewritten children that are left; None when one of them is refused. */
  function WithoutAll(cs: seq<Node>, removed: set<string>): Option<seq<Node>>
    decreases cs
  {
    if cs == [] then Some([])
    else
      var first := Without(cs[0], removed);
      var rest := WithoutAll(cs[1..], removed);
      if first.Refused? || rest.None? then None
      else Some((if first.node.Null? then [] else [first.node]) + rest.value)
  }

  function Conjunction(cs: seq<Node>): Node {
    if cs == [] then Null else if |cs| == 1 then cs[0] else And(cs)
  }

  /** The conjuncts of a tree: what is left after flattening AND and dropping Null. */
  function Spine(n: Node): seq<Node>
    decreases n
  {
    match n
    case Null => []
    case And(cs) => SpineOf(cs)
    case _ => [n]
  }

  function SpineOf(cs: seq<Node>): seq<Node>
    decreases cs
  {
    if cs == [] then [] else Spine(cs[0]) + SpineOf(cs[1..])
  }

  function Drop(cs: seq<Node>, removed: set<string>): seq<Node> {
    if cs == [] then []
    else (if NamedIn(cs[0], removed) then [] else [cs[0]]) + Drop(cs[1..], removed)
  }

  predicate Refuses(n: Node, removed: set<string>) {
    n.Junk? || ((n.Or? || n.Not? || n.Other?) && exists c :: c in Children(n) && NamedIn(c, removed))
  }

  lemma {:induction false} DropConcat(a: seq<Node>, b: seq<Node>, removed: set<string>)
    ensures Drop(a + b, removed) == Drop(a, removed) + Drop(b, removed)
  {
    if a == [] {
      assert a + b == b;
    } else {
      assert (a + b)[1..] == a[1..] + b;
      DropConcat(a[1..], b, removed);
    }
  }

  lemma {:induction false} DropNothing(cs: seq<Node>)
    ensures Drop(cs, {}) == cs
  {
    if cs != [] { DropNothing(cs[1..]); }
  }

  /** The rewrite is refused exactly when some conjunct is not a tree or is an OR/NOT with a
      removed predicate directly below it; otherwise its conjuncts are the old ones, in order
      and untouched, without the removed predicates. */
  lemma {:induction false} WithoutIsDrop(n: Node, removed: set<string>)
    ensures Without(n, removed).Refused? <==> removed != {} && exists c :: c in Spine(n) && Refuses(c, removed)
    ensures Without(n, removed).Rewritten? ==> Spine(Without(n, removed).node) == Drop(Spine(n), removed)
    decreases n
  {
    if removed == {} {
      DropNothing(Spine(n));
    } else {
      match n
      case Null =>
      case And(cs) =>
        WithoutAllIsDrop(cs, removed);
        if WithoutAll(cs, removed).Some? { ConjunctionSpine(WithoutAll(cs, removed).value); }
      case _ =>
        assert Spine(n) == [n] && n in Spine(n);
        assert forall c :: c in Spine(n) ==> c == n;
        assert Drop([n], removed) == (if NamedIn(n, removed) then [] else [n]) + Drop([], removed);
    }
  }

  lemma {:induction false} WithoutAllIsDrop(cs: seq<Node>, removed: set<string>)
    requires removed != {}
    ensures WithoutAll(cs, removed).None? <==> exists c :: c in SpineOf(cs) && Refuses(c, removed)
    ensures WithoutAll(cs, removed).Some? ==> SpineOf(WithoutAll(cs, removed).value) == Drop(SpineOf(cs), removed)
    decreases cs
  {
    if cs != [] {
      WithoutIsDrop(cs[0], removed);
      WithoutAllIsDrop(cs[1..], removed);
      DropConcat(Spine(cs[0]), SpineOf(cs[1..]), removed);
      var first, rest := Without(cs[0], removed), WithoutAll(cs[1..], removed);
      if first.Rewritten? && rest.Some? {
        var kept := (if first.node.Null? then [] else [first.node]) + rest.value;
        if first.node.Null? {
          assert kept == rest.value;
        } else {
          assert kept[1..] == rest.value;
        }
      }
    }
  }

  lemma ConjunctionSpine(cs: seq<Node>)
    ensures Spine(Conjunction(cs)) == SpineOf(cs)
  {
    if |cs| == 1 {
      assert SpineOf(cs) == Spine(cs[0]) + SpineOf([]);
    }
  }

  lemma {:induction false} HoldsOnSpine(n: Node, v: Valuation)
    ensures Holds(n, v) <==> forall c :: c in Spine(n) ==> Holds(c, v)
    decreases n
  {
    if n.And? { HoldsOnSpines(n.children, v); }
  }

  lemma {:induction false} HoldsOnSpines(cs: seq<Node>, v: Valuation)
    ensures (forall c :: c in cs ==> Holds(c, v)) <==> forall c :: c in SpineOf(cs) ==> Holds(c, v)
    decreases cs
  {
    if cs != [] {
      HoldsOnSpine(cs[0], v);
      HoldsOnSpines(cs[1..], v);
      assert forall c :: c in cs <==> c == cs[0] || c in cs[1..];
    }
  }

  lemma {:induction false} DropMembers(cs: seq<Node>, removed: set<string>)
    ensures forall c :: c in Drop(cs, removed) <==> c in cs && !NamedIn(c, removed)
  {
    if cs != [] {
      DropMembers(cs[1..], removed);
    }
  }

  /** The ids of the predicates that are conjuncts of the tree. */
  ghost function SpineIds(n: Node): set<string> {
    set c | c in Spine(n) && c.Predicate? && c.id.Some? :: c.id.value
  }

  /** The rewrite keeps the meaning: the old tree is the new one together with the removed
      conjuncts; and of the conjunct ids exactly the removed ones are gone. */
  lemma WithoutKeepsMeaning(n: Node, removed: set<string>, v: Valuation)
    requires Without(n, removed).Rewritten?
    ensures var n' := Without(n, removed).node;
            Holds(n, v) <==> Holds(n', v) && forall id :: id in SpineIds(n) && id in removed ==> id !in v.fails
    ensures SpineIds(Without(n, removed).node) == SpineIds(n) - removed
  {
    var n' := Without(n, removed).node;
    WithoutIsDrop(n, removed);
    DropMembers(Spine(n), removed);
    HoldsOnSpine(n, v);
    HoldsOnSpine(n', v);
    forall id | id in SpineIds(n) && id in removed
      ensures exists c :: c in Spine(n) && NamedIn(c, removed) && c.id == Some(id)
    {
      var c :| c in Spine(n) && c.Predicate? && c.id == Some(id);
      assert NamedIn(c, removed);
    }
  }

  /** The form plans are built in: AND and OR have at least two children, NOT has one, and
      no child is absent or junk. */
  predicate Shaped(n: Node)
    decreases n
  {
    match n
    case Predicate(id, _) => id.Some?
    case And(cs) => |cs| >= 2 && forall c :: c in cs ==> Shaped(c)
    case Or(cs) => |cs| >= 2 && forall c :: c in cs ==> Shaped(c)
    case Not(cs) => |cs| == 1 && forall c :: c in cs ==> Shaped(c)
    case _ => false
  }

  /** A well-formed tree stays well formed, or vanishes when nothing is left to require. */
  lemma {:induction false} WithoutKeepsShape(n: Node, removed: set<string>)
    requires Shaped(n) && Without(n, removed).Rewritten?
    ensures Shaped(Without(n, removed).node) || Without(n, removed).node.Null?
    ensures Without(n, removed).node.Null? <==> Drop(Spine(n), removed) == []
    decreases n
  {
    if removed != {} && n.And? { WithoutAllKeepsShape(n.children, removed); }
    WithoutIsDrop(n, removed);
    var n' := Without(n, removed).node;
    if Shaped(n') { SpineNonempty(n'); }
  }

  lemma {:induction false} SpineNonempty(n: Node)
    requires Shaped(n)
    ensures Spine(n) != []
    decreases n
  {
    if n.And? { SpineNonempty(n.children[0]); }
  }

  lemma {:induction false} WithoutAllKeepsShape(cs: seq<Node>, removed: set<string>)
    requires removed != {} && (forall c :: c in cs ==> Shaped(c)) && WithoutAll(cs, removed).Some?
    ensures forall c :: c in WithoutAll(cs, removed).value ==> Shaped(c)
    decreases cs
  {
    if cs != [] {
      WithoutKeepsShape(cs[0], removed);
      WithoutAllKeepsShape(cs[1..], removed);
    }
  }

  /** Removing twice is removing once. */
  lemma WithoutIdempotent(n: Node, removed: set<string>)
    requires Without(n, removed).Rewritten?
    ensures var n' := Without(n, removed).node;
            Without(n', removed).Rewritten? && Spine(Without(n', removed).node) == Spine(n')
  {
    var n' := Without(n, removed).node;
    WithoutIsDrop(n, removed);
    WithoutIsDrop(n', removed);
    DropMembers(Spine(n), removed);
    forall c | c in Spine(n') ensures removed != {} ==> !Refuses(c, removed) { assert c in Spine(n); }
    DropTwice(Spine(n), removed);
  }

  lemma {:induction false} DropTwice(cs: seq<Node>, removed: set<string>)
    ensures Drop(Drop(cs, removed), removed) == Drop(cs, removed)
  {
    if cs != [] {
      DropTwice(cs[1..], removed);
      var head := if NamedIn(cs[0], removed) then [] else [cs[0]];
      DropConcat(head, Drop(cs[1..], removed), removed);
      assert Drop(head, removed) == head by { if head != [] { assert head[1..] == []; } }
    }
  }

  lemma {:induction false} MentionedByChild(cs: seq<Node>)
    ensures forall id :: id in MentionedIn(cs) <==> exists c :: c in cs && id in Mentioned(c)
  {
    if cs != [] {
      MentionedByChild(cs[1..]);
      forall id | id in MentionedIn(cs) ensures exists c :: c in cs && id in Mentioned(c) {
        if id in Mentioned(cs[0]) {
          assert cs[0] in cs;
        } else {
          assert id in MentionedIn(cs[1..]);
          var c :| c in cs[1..] && id in Mentioned(c);
          assert c in cs;
        }
      }
      assert forall c :: c in cs ==> c == cs[0] || c in cs[1..];
    }
  }

  lemma {:induction false} MentionedConcat(a: seq<Node>, b: seq<Node>)
    ensures MentionedIn(a + b) == MentionedIn(a) + MentionedIn(b)
  {
    if a == [] {
      assert a + b == b;
    } else {
      assert (a + b)[1..] == a[1..] + b;
      MentionedConcat(a[1..], b);
    }
  }

  lemma {:induction false} MentionedOnSpine(n: Node)
    ensures Mentioned(n) == MentionedIn(Spine(n))
    decreases n
  {
    if n.And? { MentionedOnSpines(n.children); }
  }

  lemma {:induction false} MentionedOnSpines(cs: seq<Node>)
    ensures MentionedIn(cs) == MentionedIn(SpineOf(cs))
    decreases cs
  {
    if cs != [] {
      MentionedOnSpine(cs[0]);
      MentionedOnSpines(cs[1..]);
      MentionedConcat(Spine(cs[0]), SpineOf(cs[1..]));
    }
  }

  /** The id occurs at least two levels below a conjunct that is an OR, a NOT or of unknown type. */
  ghost predicate DeepIn(n: Node, id: string) {
    exists c, d :: c in Spine(n) && d in Children(c) && !d.Predicate? && id in Mentioned(d)
  }

  lemma {:induction false} SpineHasNoAnd(n: Node)
    ensures forall c :: c in Spine(n) ==> !c.And? && !c.Null?
    decreases n
  {
    if n.And? { SpinesHaveNoAnd(n.children); }
  }

  lemma {:induction false} SpinesHaveNoAnd(cs: seq<Node>)
    ensures forall c :: c in SpineOf(cs) ==> !c.And? && !c.Null?
    decreases cs
  {
    if cs != [] {
      SpineHasNoAnd(cs[0]);
      SpinesHaveNoAnd(cs[1..]);
    }
  }

  lemma ConjunctMentions(c: Node, removed: set<string>, id: string)
    requires id in removed && !NamedIn(c, removed) && !Refuses(c, removed) && !c.And?
    ensures id in Mentioned(c) <==> exists d :: d in Children(c) && !d.Predicate? && id in Mentioned(d)
  {
    MentionedByChild(Children(c));
    assert !c.Predicate? ==> Mentioned(c) == MentionedIn(Children(c));
    if id in Mentioned(c) {
      var d :| d in Children(c) && id in Mentioned(d);
      assert !NamedIn(d, removed);
    }
  }

  /** Only direct children of OR and NOT are inspected: a removed id is still somewhere in the new
      tree exactly when it occurs deeper than that in the old one. */
  lemma RemovedIdStaysIff(n: Node, removed: set<string>, id: string)
    requires id in removed && Without(n, removed).Rewritten?
    ensures id in Mentioned(Without(n, removed).node) <==> DeepIn(n, id)
  {
    var n' := Without(n, removed).node;
    WithoutIsDrop(n, removed);
    DropMembers(Spine(n), removed);
    MentionedOnSpine(n');
    MentionedByChild(Spine(n'));
    SpineHasNoAnd(n);
    forall c | c in Spine(n) && !NamedIn(c, removed)
      ensures id in Mentioned(c) <==> exists d :: d in Children(c) && !d.Predicate? && id in Mentioned(d)
    {
      ConjunctMentions(c, removed, id);
    }
    assert forall c :: NamedIn(c, removed) ==> Children(c) == [];
  }

  /** Such a tree: a removed predicate two levels below OR is neither refused nor removed. */
  lemma DeepPredicateStays(p: string, q: string)
    requires p != q
    ensures var n := Or([And([Predicate(Some(p), 0), Predicate(Some(q), 0)]), Predicate(Some(q), 1)]);
            Without(n, {p}) == Rewritten(n) && DeepIn(n, p) && p in Mentioned(n)
  {
    var cs := [And([Predicate(Some(p), 0), Predicate(Some(q), 0)]), Predicate(Some(q), 1)];
    assert forall c :: c in cs ==> !NamedIn(c, {p});
    var n := Or(cs);
    assert n in Spine(n) && cs[0] in Children(n);
    var inner := [Predicate(Some(p), 0), Predicate(Some(q), 0)];
    assert Mentioned(inner[0]) == {p};
    assert p in MentionedIn(inner);
    assert Mentioned(cs[0]) == MentionedIn(inner);
    assert p in MentionedIn(cs);
  }
}
