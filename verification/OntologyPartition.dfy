/** Splitting the baseline ontology into modules: every named subject goes to its module
    together with the blank-node subgraph it leads to. */
module OntologyPartition {
  import opened Basics

  datatype Term = Uri(text: string) | Blank(name: string) | Literal(value: string)
  datatype Triple = Triple(s: Term, p: string, o: Term)
  type Graph = set<Triple>

  datatype Module = Common | BondKr | EtfKr | EtfGl | FundPub

  const MODULES: set<Module> := {Common, BondKr, EtfKr, EtfGl, FundPub}

  // ------------------------------------------------------------ blank-node reachability

  predicate Edge(g: Graph, a: Term, b: Term) {
    exists t :: t in g && t.s == a && t.o == b && b.Blank?
  }

  ghost predicate IsPath(g: Graph, path: seq<Term>) {
    path != [] && forall i :: 0 <= i < |path| - 1 ==> Edge(g, path[i], path[i + 1])
  }

  /** `b` is the blank node `a`, or a chain of triples through blank nodes leads from `a` to it. */
  ghost predicate Reachable(g: Graph, a: Term, b: Term) {
    exists path :: IsPath(g, path) && path[0] == a && path[|path| - 1] == b
  }

  lemma ReachableStep(g: Graph, a: Term, b: Term, c: Term)
    requires Reachable(g, a, b) && Edge(g, b, c)
    ensures Reachable(g, a, c)
  {
    var path :| IsPath(g, path) && path[0] == a && path[|path| - 1] == b;
    var longer := path + [c];
    assert IsPath(g, longer) && longer[0] == a && longer[|longer| - 1] == c;
  }

  lemma ReachableSelf(g: Graph, a: Term)
    ensures Reachable(g, a, a)
  {
    assert IsPath(g, [a]) && [a][0] == a;
  }

  lemma {:induction false} ClosedHoldsPath(g: Graph, closed: set<Term>, path: seq<Term>)
    requires IsPath(g, path) && path[0] in closed
    requires forall a, b :: a in closed && Edge(g, a, b) ==> b in closed
    ensures path[|path| - 1] in closed
    decreases |path|
  {
    if |path| > 1 {
      assert Edge(g, path[0], path[1]);
      var rest := path[1..];
      forall i | 0 <= i < |rest| - 1 ensures Edge(g, rest[i], rest[i + 1]) {
        assert Edge(g, path[i + 1], path[i + 1 + 1]);
      }
      ClosedHoldsPath(g, closed, rest);
    }
  }

  function Out(g: Graph, s: Term): Graph {
    set t | t in g && t.s == s
  }

  function OutOf(g: Graph, subjects: set<Term>): Graph {
    set t | t in g && t.s in subjects
  }

  function BlankObjects(g: Graph, s: Term): set<Term> {
    set t | t in g && t.s == s && t.o.Blank? :: t.o
  }

  type Parts = map<Module, Graph>
  type Owners = map<Term, set<Module>>

  lemma EveryModule(m: Module)
    ensures m in MODULES
  {
    match m {
      case Common => case BondKr => case EtfKr => case EtfGl => case FundPub =>
    }
  }

  predicate HasAllModules(parts: Parts) {
    parts.Keys == MODULES
  }

  function OwnersOf(owners: Owners, b: Term): set<Module> {
    if b in owners then owners[b] else {}
  }

  /** The module received the triples of the visited nodes and is recorded as their owner. */
  ghost predicate Given(g: Graph, m: Module, visited: set<Term>,
                        parts: Parts, owners: Owners, parts': Parts, owners': Owners)
    requires m in parts
  {
    && parts' == parts[m := parts[m] + OutOf(g, visited)]
    && forall b :: OwnersOf(owners', b) == OwnersOf(owners, b) + (if b in visited then {m} else {})
  }

  lemma GivenNothing(g: Graph, m: Module, parts: Parts, owners: Owners)
    requires m in parts
    ensures Given(g, m, {}, parts, owners, parts, owners)
  {
    assert parts[m] + OutOf(g, {}) == parts[m];
  }

  lemma GivenOneMore(g: Graph, m: Module, visited: set<Term>, subject: Term,
                     parts: Parts, owners: Owners, parts': Parts, owners': Owners)
    requires m in parts && Given(g, m, visited, parts, owners, parts', owners')
    ensures m in parts'
    ensures Given(g, m, visited + {subject}, parts, owners,
                  parts'[m := parts'[m] + Out(g, subject)],
                  owners'[subject := OwnersOf(owners', subject) + {m}])
  {
    assert OutOf(g, visited + {subject}) == OutOf(g, visited) + Out(g, subject);
    var more := parts'[m := parts'[m] + Out(g, subject)];
    assert more[m] == parts[m] + OutOf(g, visited + {subject});
    assert more == parts[m := parts[m] + OutOf(g, visited + {subject})];
  }

  /** What is visited or waiting is reachable, and nothing reachable in one step is forgotten. */
  ghost predicate Frontier(g: Graph, root: Term, visited: set<Term>, pending: seq<Term>) {
    && (root in visited || root in pending)
    && (forall b :: b in visited || b in pending ==> Reachable(g, root, b))
    && (forall a, b :: a in visited && Edge(g, a, b) ==> b in visited || b in pending)
  }

  lemma FrontierDropsVisited(g: Graph, root: Term, visited: set<Term>, pending: seq<Term>)
    requires pending != [] && Frontier(g, root, visited, pending) && pending[|pending| - 1] in visited
    ensures Frontier(g, root, visited, pending[..|pending| - 1])
  {
    assert pending == pending[..|pending| - 1] + [pending[|pending| - 1]];
    hide Reachable, Edge;
    assert forall b :: b in pending ==> b in pending[..|pending| - 1] || b in visited;
  }

  lemma FrontierVisits(g: Graph, root: Term, visited: set<Term>, pending: seq<Term>, pending': seq<Term>)
    requires pending != [] && Frontier(g, root, visited, pending)
    requires forall b :: b in pending' <==>
      b in pending[..|pending| - 1] || b in BlankObjects(g, pending[|pending| - 1])
    ensures Frontier(g, root, visited + {pending[|pending| - 1]}, pending')
  {
    var subject := pending[|pending| - 1];
    assert pending == pending[..|pending| - 1] + [subject];
    hide Reachable;
    forall b ensures b in BlankObjects(g, subject) <==> Edge(g, subject, b) {
      if Edge(g, subject, b) {
        var t :| t in g && t.s == subject && t.o == b && b.Blank?;
      }
    }
    forall b | b in BlankObjects(g, subject) ensures Reachable(g, root, b) {
      ReachableStep(g, root, subject, b);
    }
    hide Edge, BlankObjects;
    assert forall b :: b in pending ==> b in pending' || b == subject;
  }

  lemma FrontierIsReach(g: Graph, root: Term, visited: set<Term>)
    requires Frontier(g, root, visited, [])
    ensures forall b :: b in visited <==> Reachable(g, root, b)
  {
    forall b | Reachable(g, root, b) ensures b in visited {
      var path :| IsPath(g, path) && path[0] == root && path[|path| - 1] == b;
      ClosedHoldsPath(g, visited, path);
    }
  }

  /** The worklist: it stops, visits exactly the blank nodes reachable from `root`, gives their
      triples to the module and records the module as an owner of each of them. */
  method AssignBlank(source: Graph, root: Term, m: Module, parts: Parts, owners: Owners)
    returns (parts': Parts, owners': Owners, visited: set<Term>)
    requires root.Blank? && m in parts
    ensures forall b :: b in visited <==> Reachable(source, root, b)
    ensures Given(source, m, visited, parts, owners, parts', owners')
  {
    parts', owners' := parts, owners;
    var pending := [root];
    visited := {};
    ghost var universe := {root} + set t | t in source :: t.o;
    ReachableSelf(source, root);
    GivenNothing(source, m, parts, owners);
    assert Frontier(source, root, visited, pending);
    hide Given, Frontier, Reachable;
    while pending != []
      invariant visited <= universe && forall b :: b in pending ==> b in universe
      invariant Frontier(source, root, visited, pending)
      invariant Given(source, m, visited, parts, owners, parts', owners')
      decreases universe - visited, |pending|
    {
      ghost var before := pending;
      var subject := pending[|pending| - 1];
      pending := pending[..|pending| - 1];
      if subject !in visited {
        GivenOneMore(source, m, visited, subject, parts, owners, parts', owners');
        visited := visited + {subject};
        owners' := owners'[subject := OwnersOf(owners', subject) + {m}];
        parts' := parts'[m := parts'[m] + Out(source, subject)];
        pending := PushAll(pending, BlankObjects(source, subject));
        FrontierVisits(source, root, visited - {subject}, before, pending);
        assert visited - {subject} + {subject} == visited;
      } else {
        FrontierDropsVisited(source, root, visited, before);
      }
    }
    FrontierIsReach(source, root, visited);
  }

  /** The objects are pushed in whatever order the store yields them. */
  method PushAll(pending: seq<Term>, objects: set<Term>) returns (r: seq<Term>)
    ensures forall b :: b in r <==> b in pending || b in objects
  {
    r := pending;
    var rest := objects;
    while rest != {}
      invariant rest <= objects
      invariant forall b :: b in r <==> b in pending || b in objects - rest
      decreases rest
    {
      var b :| b in rest;
      r := r + [b];
      rest := rest - {b};
    }
  }

  // ------------------------------------------------------------ which module a triple belongs to

  /** A named subject of the module leads to the blank node `b`. */
  ghost predicate ReachedBy(g: Graph, owner: string -> Module, m: Module, b: Term) {
    exists t :: t in g && t.s.Uri? && t.o.Blank? && owner(t.s.text) == m && Reachable(g, t.o, b)
  }

  ghost predicate Belongs(g: Graph, owner: string -> Module, m: Module, t: Triple) {
    t in g && (if t.s.Uri? then owner(t.s.text) == m else ReachedBy(g, owner, m, t.s))
  }

  ghost predicate CrossesModules(g: Graph, owner: string -> Module) {
    exists b, m, n :: m != n && ReachedBy(g, owner, m, b) && ReachedBy(g, owner, n, b)
  }

  /** Every triple has a named subject or hangs below one. */
  ghost predicate Attached(g: Graph, owner: string -> Module) {
    forall t :: t in g && !t.s.Uri? ==> exists m :: ReachedBy(g, owner, m, t.s)
  }

  // ------------------------------------------------------------ isomorphism

  function RenameTerm(f: map<Term, Term>, x: Term): Term {
    if x.Blank? && x in f then f[x] else x
  }

  function Rename(f: map<Term, Term>, t: Triple): Triple {
    Triple(RenameTerm(f, t.s), t.p, RenameTerm(f, t.o))
  }

  function Image(f: map<Term, Term>, g: Graph): Graph {
    set t | t in g :: Rename(f, t)
  }

  function BlanksOf(g: Graph): set<Term> {
    (set t | t in g && t.s.Blank? :: t.s) + (set t | t in g && t.o.Blank? :: t.o)
  }

  /** A one-to-one renaming of the blank nodes of `g` to blank nodes. */
  ghost predicate IsRenaming(f: map<Term, Term>, g: Graph) {
    && f.Keys == BlanksOf(g)
    && (forall b :: b in f ==> f[b].Blank?)
    && (forall b, c :: b in f && c in f && f[b] == f[c] ==> b == c)
  }

  ghost predicate Isomorphic(g: Graph, h: Graph) {
    exists f :: IsRenaming(f, g) && h == Image(f, g)
  }

  lemma RenameInjective(f: map<Term, Term>, g: Graph, t: Triple, u: Triple)
    requires IsRenaming(f, g) && t in g && u in g && Rename(f, t) == Rename(f, u)
    ensures t == u
  {
    RenameTermInjective(f, g, t.s, u.s);
    RenameTermInjective(f, g, t.o, u.o);
  }

  lemma RenameTermInjective(f: map<Term, Term>, g: Graph, x: Term, y: Term)
    requires IsRenaming(f, g) && RenameTerm(f, x) == RenameTerm(f, y)
    requires x.Blank? ==> x in BlanksOf(g)
    requires y.Blank? ==> y in BlanksOf(g)
    ensures x == y
  {
  }

  lemma {:induction false} ImageSize(f: map<Term, Term>, g: Graph, part: Graph)
    requires IsRenaming(f, g) && part <= g
    ensures |Image(f, part)| == |part|
    decreases part
  {
    if part != {} {
      var t :| t in part;
      var rest := part - {t};
      ImageSize(f, g, rest);
      assert Image(f, part) == Image(f, rest) + {Rename(f, t)};
      if Rename(f, t) in Image(f, rest) {
        var u :| u in rest && Rename(f, u) == Rename(f, t);
        RenameInjective(f, g, u, t);
      }
    } else {
      assert Image(f, part) == {};
    }
  }

  /** A part of a finite graph that is isomorphic to the whole is the whole. */
  lemma IsomorphicPartIsWhole(g: Graph, h: Graph)
    requires h <= g
    ensures Isomorphic(g, h) <==> h == g
  {
    if Isomorphic(g, h) {
      var f :| IsRenaming(f, g) && h == Image(f, g);
      ImageSize(f, g, g);
      SubsetOfSameSize(h, g);
    }
    if h == g {
      IsomorphicToItself(g);
    }
  }

  lemma IsomorphicToItself(g: Graph)
    ensures Isomorphic(g, g)
  {
    hide BlanksOf;
    var id := map b | b in BlanksOf(g) :: b;
    assert IsRenaming(id, g) by { BlanksAreBlank(g); }
    assert Image(id, g) == g by {
      forall t ensures Rename(id, t) == t { }
    }
  }

  lemma BlanksAreBlank(g: Graph)
    ensures forall b :: b in BlanksOf(g) ==> b.Blank?
  {
  }

  method CheckIsomorphic(g: Graph, h: Graph) returns (same: bool)
    requires h <= g
    ensures same <==> Isomorphic(g, h)
  {
    IsomorphicPartIsWhole(g, h);
    same := h == g;
  }

  // ------------------------------------------------------------ the partition

  datatype Result = Partitioned(parts: Parts) | SharedBlankNode | NotIsomorphic

  function Subjects(g: Graph): set<Term> {
    set t | t in g && t.s.Uri? :: t.s
  }

  function Union(parts: Parts): Graph {
    set m, t | m in parts && t in parts[m] :: t
  }

  /** Triples and owners after the named subjects in `seen` have been handled. */
  ghost predicate Handled(g: Graph, owner: string -> Module, seen: Graph, parts: Parts, owners: Owners) {
    && HasAllModules(parts)
    && (forall m :: m in MODULES ==> parts[m] == Part(g, owner, seen, m))
    && (forall b, m :: m in OwnersOf(owners, b) <==> Led(g, owner, seen, m, b))
  }

  /** Some handled triple of the module leads to `b`. */
  ghost predicate Led(g: Graph, owner: string -> Module, seen: Graph, m: Module, b: Term) {
    exists t :: t in seen && t.s.Uri? && t.o.Blank? && owner(t.s.text) == m && Reachable(g, t.o, b)
  }

  lemma ReachableIsBlank(g: Graph, a: Term, b: Term)
    requires a.Blank? && Reachable(g, a, b)
    ensures b.Blank?
  {
    var path :| IsPath(g, path) && path[0] == a && path[|path| - 1] == b;
    if |path| > 1 {
      assert Edge(g, path[|path| - 2], path[|path| - 2 + 1]);
    }
  }

  lemma LedOneMore(g: Graph, owner: string -> Module, seen: Graph, t: Triple, m: Module, b: Term)
    requires t.s.Uri?
    ensures Led(g, owner, seen + {t}, m, b) <==>
      Led(g, owner, seen, m, b) || (owner(t.s.text) == m && t.o.Blank? && Reachable(g, t.o, b))
  {
    if owner(t.s.text) == m && t.o.Blank? && Reachable(g, t.o, b) {
      assert t in seen + {t};
    }
    if Led(g, owner, seen, m, b) {
      var u :| u in seen && u.s.Uri? && u.o.Blank? && owner(u.s.text) == m && Reachable(g, u.o, b);
      assert u in seen + {t};
    }
  }

  /** The triples a module holds once the triples in `seen` have been handled. */
  ghost function Part(g: Graph, owner: string -> Module, seen: Graph, m: Module): Graph {
    set t | t in g && ((t in seen && t.s.Uri? && owner(t.s.text) == m) || Led(g, owner, seen, m, t.s))
  }

  lemma PartOneMore(g: Graph, owner: string -> Module, seen: Graph, t: Triple, m: Module, visited: set<Term>)
    requires t in g && t.s.Uri?
    requires forall b :: b in visited <==> t.o.Blank? && Reachable(g, t.o, b)
    ensures Part(g, owner, seen + {t}, m) ==
      if owner(t.s.text) == m then Part(g, owner, seen, m) + {t} + OutOf(g, visited) else Part(g, owner, seen, m)
  {
    forall u | u in g
      ensures u in Part(g, owner, seen + {t}, m) <==>
        u in Part(g, owner, seen, m) || (owner(t.s.text) == m && (u == t || u.s in visited))
    {
      LedOneMore(g, owner, seen, t, m, u.s);
    }
  }

  /** Adding one named triple and, when its object is blank, the subgraph it leads to. */
  method AssignTriple(source: Graph, owner: string -> Module, t: Triple, ghost seen: Graph, parts: Parts, owners: Owners)
    returns (parts': Parts, owners': Owners)
    requires t in source && t.s.Uri? && Handled(source, owner, seen, parts, owners)
    ensures Handled(source, owner, seen + {t}, parts', owners')
  {
    var m := owner(t.s.text);
    EveryModule(m);
    parts' := parts[m := parts[m] + {t}];
    owners' := owners;
    ghost var reached: set<Term> := {};
    if t.o.Blank? {
      var visited;
      parts', owners', visited := AssignBlank(source, t.o, m, parts', owners');
      reached := visited;
    }
    forall n | n in MODULES ensures parts'[n] == Part(source, owner, seen + {t}, n) {
      PartOneMore(source, owner, seen, t, n, reached);
    }
    forall b, n ensures n in OwnersOf(owners', b) <==> Led(source, owner, seen + {t}, n, b) {
      LedOneMore(source, owner, seen, t, n, b);
    }
  }

  method AssignSubject(source: Graph, owner: string -> Module, s: Term, ghost seen: Graph, parts: Parts, owners: Owners)
    returns (parts': Parts, owners': Owners)
    requires s.Uri? && Handled(source, owner, seen, parts, owners)
    ensures Handled(source, owner, seen + Out(source, s), parts', owners')
  {
    parts', owners' := parts, owners;
    var rest := Out(source, s);
    assert seen + (Out(source, s) - rest) == seen;
    while rest != {}
      invariant rest <= Out(source, s)
      invariant Handled(source, owner, seen + (Out(source, s) - rest), parts', owners')
      decreases rest
    {
      var t :| t in rest;
      parts', owners' := AssignTriple(source, owner, t, seen + (Out(source, s) - rest), parts', owners');
      assert seen + (Out(source, s) - rest) + {t} == seen + (Out(source, s) - (rest - {t}));
      rest := rest - {t};
    }
    assert seen + (Out(source, s) - rest) == seen + Out(source, s);
  }

  function NamedOf(g: Graph): Graph {
    set t | t in g && t.s.Uri?
  }

  /** Parts and owners mean what they should. */
  ghost predicate Meant(g: Graph, owner: string -> Module, parts: Parts, owners: Owners) {
    && HasAllModules(parts)
    && (forall b, m :: m in OwnersOf(owners, b) <==> ReachedBy(g, owner, m, b))
    && (forall m, t :: m in MODULES ==> (t in parts[m] <==> Belongs(g, owner, m, t)))
  }

  ghost predicate IsPartition(g: Graph, owner: string -> Module, parts: Parts) {
    && HasAllModules(parts)
    && Union(parts) == g
    && (forall m, t :: m in MODULES ==> (t in parts[m] <==> Belongs(g, owner, m, t)))
    && (forall m, n :: m in MODULES && n in MODULES && m != n ==> parts[m] !! parts[n])
  }

  /** Once every named triple has been handled, owners and parts say what they were meant to say. */
  lemma HandledAll(g: Graph, owner: string -> Module, parts: Parts, owners: Owners)
    requires Handled(g, owner, NamedOf(g), parts, owners)
    ensures Meant(g, owner, parts, owners)
  {
    forall b, m ensures Led(g, owner, NamedOf(g), m, b) <==> ReachedBy(g, owner, m, b) {
      if Led(g, owner, NamedOf(g), m, b) {
        var t :| t in NamedOf(g) && t.s.Uri? && t.o.Blank? && owner(t.s.text) == m && Reachable(g, t.o, b);
      }
      if ReachedBy(g, owner, m, b) {
        var t :| t in g && t.s.Uri? && t.o.Blank? && owner(t.s.text) == m && Reachable(g, t.o, b);
        assert t in NamedOf(g);
      }
    }
    forall m, t | m in MODULES && t in g && t.s.Uri? ensures !Led(g, owner, NamedOf(g), m, t.s) {
      if Led(g, owner, NamedOf(g), m, t.s) {
        var u :| u in NamedOf(g) && u.s.Uri? && u.o.Blank? && owner(u.s.text) == m && Reachable(g, u.o, t.s);
        ReachableIsBlank(g, u.o, t.s);
      }
    }
  }

  lemma TwoMembers<T>(s: set<T>, a: T, b: T)
    requires a in s && b in s && a != b
    ensures |s| > 1
  {
    SubsetSize({a, b}, s);
  }

  lemma OneMember<T>(s: set<T>)
    requires |s| > 1
    ensures exists a, b :: a in s && b in s && a != b
  {
    var a :| a in s;
    var rest := s - {a};
    assert |rest| > 0;
    var b :| b in rest;
    assert a in s && b in s && a != b;
  }

  lemma OwnersTellCrossing(g: Graph, owner: string -> Module, parts: Parts, owners: Owners)
    requires Meant(g, owner, parts, owners)
    ensures CrossesModules(g, owner) <==> exists b :: b in owners && |owners[b]| > 1
  {
    if CrossesModules(g, owner) {
      var b, m, n :| m != n && ReachedBy(g, owner, m, b) && ReachedBy(g, owner, n, b);
      assert m in OwnersOf(owners, b) && n in OwnersOf(owners, b);
      TwoMembers(owners[b], m, n);
    }
    if exists b :: b in owners && |owners[b]| > 1 {
      var b :| b in owners && |owners[b]| > 1;
      OneMember(owners[b]);
      var m, n :| m in owners[b] && n in owners[b] && m != n;
      assert m in OwnersOf(owners, b) && n in OwnersOf(owners, b);
    }
  }

  /** Without crossing, no triple belongs to two modules. */
  lemma BelongsOnce(g: Graph, owner: string -> Module, m: Module, n: Module, t: Triple)
    requires !CrossesModules(g, owner) && Belongs(g, owner, m, t) && Belongs(g, owner, n, t)
    ensures m == n
  {
  }

  lemma PartsAreDisjoint(g: Graph, owner: string -> Module, parts: Parts, owners: Owners)
    requires Meant(g, owner, parts, owners) && !CrossesModules(g, owner) && Union(parts) == g
    ensures IsPartition(g, owner, parts)
  {
    forall m, n, t | m in MODULES && n in MODULES && t in parts[m] && t in parts[n] ensures m == n {
      hide CrossesModules, ReachedBy;
      assert Belongs(g, owner, m, t) && Belongs(g, owner, n, t);
      BelongsOnce(g, owner, m, n, t);
    }
  }

  /** The parts together are the source exactly when every triple hangs below a named subject. */
  lemma UnionIsWholeIff(g: Graph, owner: string -> Module, parts: Parts, owners: Owners)
    requires Meant(g, owner, parts, owners)
    ensures Union(parts) <= g
    ensures Union(parts) == g <==> Attached(g, owner)
  {
    if Attached(g, owner) {
      forall t | t in g ensures t in Union(parts) {
        if t.s.Uri? {
          assert Belongs(g, owner, owner(t.s.text), t);
        } else {
          var m :| ReachedBy(g, owner, m, t.s);
          assert Belongs(g, owner, m, t);
        }
      }
    }
    if Union(parts) == g {
      forall t | t in g && !t.s.Uri? ensures exists m :: ReachedBy(g, owner, m, t.s) {
        assert t in Union(parts);
        var m :| m in parts && t in parts[m];
        assert Belongs(g, owner, m, t);
      }
    }
  }

  lemma HandledNone(g: Graph, owner: string -> Module, parts: Parts, owners: Owners)
    requires parts == map m | m in MODULES :: {}
    requires owners == map[]
    ensures Handled(g, owner, {}, parts, owners)
  {
  }

  lemma SubjectDone(g: Graph, rest: set<Term>, s: Term)
    requires s in rest && s.Uri?
    ensures NamedOf(g) - OutOf(g, rest) + Out(g, s) == NamedOf(g) - OutOf(g, rest - {s})
  {
  }

  method AssignAll(source: Graph, owner: string -> Module) returns (parts: Parts, owners: Owners)
    ensures Handled(source, owner, NamedOf(source), parts, owners)
  {
    parts := map m | m in MODULES :: {};
    owners := map[];
    var rest := Subjects(source);
    assert NamedOf(source) - OutOf(source, rest) == {};
    HandledNone(source, owner, parts, owners);
    hide Handled;
    while rest != {}
      invariant rest <= Subjects(source)
      invariant Handled(source, owner, NamedOf(source) - OutOf(source, rest), parts, owners)
      decreases rest
    {
      var s :| s in rest;
      parts, owners := AssignSubject(source, owner, s, NamedOf(source) - OutOf(source, rest), parts, owners);
      SubjectDone(source, rest, s);
      rest := rest - {s};
    }
    assert NamedOf(source) - OutOf(source, rest) == NamedOf(source);
  }

  /** The partition: refused exactly when some blank node is reached from two modules, accepted
      exactly when none is and every triple hangs below a named subject; on success the parts
      are disjoint, make up the source, and hold exactly the triples that belong to them. */
  method Partition(source: Graph, owner: string -> Module) returns (r: Result)
    ensures r.SharedBlankNode? <==> CrossesModules(source, owner)
    ensures r.Partitioned? <==> !CrossesModules(source, owner) && Attached(source, owner)
    ensures r.Partitioned? ==> IsPartition(source, owner, r.parts)
  {
    var parts, owners := AssignAll(source, owner);
    HandledAll(source, owner, parts, owners);
    OwnersTellCrossing(source, owner, parts, owners);
    UnionIsWholeIff(source, owner, parts, owners);
    hide Meant, CrossesModules, Attached, Isomorphic, IsPartition, Union, Handled;
    if exists b :: b in owners && |owners[b]| > 1 {
      return SharedBlankNode;
    }
    var same := CheckIsomorphic(source, Union(parts));
    IsomorphicPartIsWhole(source, Union(parts));
    if !same {
      return NotIsomorphic;
    }
    PartsAreDisjoint(source, owner, parts, owners);
    return Partitioned(parts);
  }
}
