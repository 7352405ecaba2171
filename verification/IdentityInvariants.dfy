/** What every step of holdings integration keeps: identifier ownership, and the
    answer a row was once given. */
module IdentityInvariants {
  import opened Basics
  import opened TextForms
  import opened IdentityStore

  // ------------------------------------------------------------ the store invariant

  /** The two unique constraints of entity_identifiers. */
  ghost predicate UniqueIdentifiers(t: Tables) {
    && (forall r, s :: r in t.identifiers && s in t.identifiers && r.key == s.key && r.live && s.live ==> r.owner == s.owner)
    && (forall r, s :: r in t.identifiers && s in t.identifiers && r.key == s.key && r.owner == s.owner ==> r == s)
  }

  /** Owners exist (a foreign key), every identifier of a Security is live, only
      Securities carry minted ids, and every Security has its subtype row. */
  ghost predicate Valid(t: Tables) {
    && UniqueIdentifiers(t)
    && (forall r :: r in t.identifiers ==> r.owner in t.entities)
    && (forall r :: r in t.identifiers && t.entities[r.owner].kind == Security ==> r.live)
    && (forall e :: e in t.entities && e.Minted? ==> t.entities[e].kind == Security)
    && (forall e :: e in t.entities && t.entities[e].kind == Security ==> e in t.securities)
  }

  ghost predicate Extends<K, V>(m: map<K, V>, m': map<K, V>) {
    forall k :: k in m ==> k in m' && m'[k] == m[k]
  }

  /** What later states may differ in: rows are only added, the securities' issuer
      flag is only set, and no identifier is added under a key that has a live owner. */
  ghost predicate Grows(t: Tables, t': Tables) {
    && Extends(t.entities, t'.entities)
    && (forall e :: e in t'.entities && e !in t.entities ==> t'.entities[e].kind == Security)
    && t'.productTypes == t.productTypes
    && t'.collisions == t.collisions
    && t.schemes <= t'.schemes
    && t.identifiers <= t'.identifiers
    && (forall r :: r in t'.identifiers && r !in t.identifiers ==> r.live && t'.entities.Keys >= {r.owner} && t'.entities[r.owner].kind == Security)
    && (forall e :: e in t.securities ==> e in t'.securities && (t.securities[e] ==> t'.securities[e]))
    && Extends(t.sourceRows, t'.sourceRows)
    && Extends(t.holdingRecords, t'.holdingRecords)
    && t.assertions <= t'.assertions
    && t.facts <= t'.facts
    && t.relations <= t'.relations
    && Extends(t.details, t'.details)
    && t.links <= t'.links
  }

  lemma ValidIsUnique(t: Tables)
    ensures Valid(t) ==> UniqueIdentifiers(t)
  {
  }

  lemma GrowsReflexive(t: Tables)
    ensures Valid(t) ==> Grows(t, t)
  {
  }

  lemma GrowsTransitive(a: Tables, b: Tables, c: Tables)
    requires Grows(a, b) && Grows(b, c)
    ensures Grows(a, c)
  {
  }

  // ------------------------------------------------------------ lookups

  lemma AtMostOneOwner(t: Tables, key: Key, kind: Kind)
    requires UniqueIdentifiers(t)
    ensures |LiveOwners(t, key, kind)| <= 1
  {
    var owners := LiveOwners(t, key, kind);
    if owners != {} {
      var o :| o in owners;
      assert owners == {o};
    }
  }

  /** The multi-owner branch of the identifier lookup is unreachable: a lookup never
      writes, and is ambiguous exactly when a collision case is open. */
  lemma LookUpNeverWrites(t: Tables, key: Key, kind: Kind)
    requires UniqueIdentifiers(t)
    ensures LookUp(t, key, kind).0 == t
    ensures LookUp(t, key, kind).1.Ambiguous? <==> HasOpenCase(t, key)
    ensures !LookUp(t, key, kind).1.NonSecurity?
    ensures forall e :: LookUp(t, key, kind).1 == Resolved(e)
              <==> !HasOpenCase(t, key) && e in LiveOwners(t, key, kind)
  {
    AtMostOneOwner(t, key, kind);
    if |LiveOwners(t, key, kind)| == 1 {
      var e := Only(LiveOwners(t, key, kind));
    }
  }

  /** Products: nothing the integrator adds can change what a product lookup sees. */
  lemma ProductLookUpStable(t: Tables, t': Tables, key: Key)
    requires Valid(t) && Valid(t') && Grows(t, t')
    ensures LookUp(t, key, FinancialProduct).0 == t
    ensures LookUp(t', key, FinancialProduct) == (t', LookUp(t, key, FinancialProduct).1)
  {
    LookUpNeverWrites(t, key, FinancialProduct);
    LookUpNeverWrites(t', key, FinancialProduct);
    assert HasOpenCase(t, key) <==> HasOpenCase(t', key);
    forall e ensures e in LiveOwners(t', key, FinancialProduct) <==> e in LiveOwners(t, key, FinancialProduct) {
      if e in LiveOwners(t', key, FinancialProduct) {
        var r :| r in t'.identifiers && r.key == key && r.live && r.owner == e && t'.entities[e].kind == FinancialProduct;
        assert r in t.identifiers;
      }
      if e in LiveOwners(t, key, FinancialProduct) {
        var r :| r in t.identifiers && r.key == key && r.live && r.owner == e && t.entities[e].kind == FinancialProduct;
        assert r in t'.identifiers;
      }
    }
    assert LiveOwners(t', key, FinancialProduct) == LiveOwners(t, key, FinancialProduct);
  }

  ghost predicate IsEtf(t: Tables, e: EntityId) {
    && e in t.entities && t.entities[e].kind == FinancialProduct
    && e in t.productTypes && t.productTypes[e] == "ETF"
  }

  lemma ProductNeverWrites(t: Tables, row: Holding)
    requires Valid(t)
    ensures ResolveProduct(t, row).Ok? ==> ResolveProduct(t, row).value.0 == t
    ensures ResolveProduct(t, row).Ok? ==> !ResolveProduct(t, row).value.1.NonSecurity?
    ensures ResolveProduct(t, row).Ok? && ResolveProduct(t, row).value.1.Resolved? ==>
              IsEtf(t, ResolveProduct(t, row).value.1.entity)
  {
    hide Valid, UniqueIdentifiers, HasOpenCase, OpenCollision;
    ValidIsUnique(t);
    LookUpNeverWrites(t, Key("ISIN", "iso-6166", Normalized(row.productIsin)), FinancialProduct);
    LookUpNeverWrites(t, Key("TICKER", TickerNamespace(row.productExchange, row.domestic), Normalized(row.productTicker)), FinancialProduct);
    LookUpNeverWrites(t, Key("PROVIDER_SOURCE_ID", ProductNamespace(row.provider), Normalized(row.productSourceId)), FinancialProduct);
  }

  lemma ProductByProviderIdStable(t: Tables, t': Tables, row: Holding)
    requires Valid(t) && Valid(t') && Grows(t, t')
    ensures ProductByProviderId(t, row).Ok? <==> ProductByProviderId(t', row).Ok?
    ensures ProductByProviderId(t, row).Ok? ==> ProductByProviderId(t', row).value == (t', ProductByProviderId(t, row).value.1)
  {
    ProductLookUpStable(t, t', Key("PROVIDER_SOURCE_ID", ProductNamespace(row.provider), Normalized(row.productSourceId)));
  }

  lemma ProductByTickerStable(t: Tables, t': Tables, row: Holding)
    requires Valid(t) && Valid(t') && Grows(t, t')
    ensures ProductByTicker(t, row).Ok? <==> ProductByTicker(t', row).Ok?
    ensures ProductByTicker(t, row).Ok? ==> ProductByTicker(t', row).value == (t', ProductByTicker(t, row).value.1)
  {
    ProductLookUpStable(t, t', Key("TICKER", TickerNamespace(row.productExchange, row.domestic), Normalized(row.productTicker)));
    ProductByProviderIdStable(t, t', row);
  }

  /** A row's product is the same in every later state. */
  lemma ProductStable(t: Tables, t': Tables, row: Holding)
    requires Valid(t) && Valid(t') && Grows(t, t')
    ensures ResolveProduct(t, row).Ok? <==> ResolveProduct(t', row).Ok?
    ensures ResolveProduct(t, row).Ok? ==> ResolveProduct(t', row).value == (t', ResolveProduct(t, row).value.1)
  {
    ProductLookUpStable(t, t', Key("ISIN", "iso-6166", Normalized(row.productIsin)));
    ProductByTickerStable(t, t', row);
  }

  // ------------------------------------------------------------ the candidate loop

  ghost predicate AnyOpen(t: Tables, keys: seq<Key>) {
    exists k :: k in keys && HasOpenCase(t, k)
  }

  /** The Securities owning some candidate key. */
  function SecurityOwners(t: Tables, keys: seq<Key>): set<EntityId> {
    set k, e | k in keys && e in LiveOwners(t, k, Security) :: e
  }

  lemma {:induction false} FoundOwnersIs(t: Tables, keys: seq<Key>, found: set<EntityId>)
    requires UniqueIdentifiers(t)
    ensures FoundOwners(t, keys, found) == (t, if AnyOpen(t, keys) then None else Some(found + SecurityOwners(t, keys)))
    decreases |keys|
  {
    hide LiveOwners, HasOpenCase, OpenCollision, UniqueIdentifiers;
    if keys == [] {
      assert SecurityOwners(t, keys) == {};
    } else {
      var k, rest := keys[0], keys[1..];
      LookUpNeverWrites(t, k, Security);
      AtMostOneOwner(t, k, Security);
      assert keys == [k] + rest;
      assert AnyOpen(t, keys) <==> HasOpenCase(t, k) || AnyOpen(t, rest);
      assert SecurityOwners(t, keys) == LiveOwners(t, k, Security) + SecurityOwners(t, rest);
      if !HasOpenCase(t, k) {
        var owners := LiveOwners(t, k, Security);
        if |owners| == 1 {
          FoundOwnersIs(t, rest, found + {Only(owners)});
          assert found + owners + SecurityOwners(t, rest) == found + SecurityOwners(t, keys);
        } else {
          assert owners == {};
          FoundOwnersIs(t, rest, found);
          assert found + SecurityOwners(t, rest) == found + SecurityOwners(t, keys);
        }
      }
    }
  }

  // ------------------------------------------------------------ attaching identifiers

  ghost predicate HasLive(t: Tables, key: Key) {
    exists r :: r in t.identifiers && r.key == key && r.live
  }

  lemma InsertIdentifierUnique(t: Tables, owner: EntityId, key: Key, primary: bool)
    requires UniqueIdentifiers(t) && !Blocked(t, owner, key)
    ensures UniqueIdentifiers(t.(identifiers := t.identifiers + {Identifier(owner, key, true, primary)}))
  {
    assert forall r :: r in t.identifiers && r.key == key ==> r.owner != owner && !r.live;
  }

  lemma AttachOneValid(t: Tables, owner: EntityId, key: Key, primary: bool)
    requires Valid(t) && owner in t.entities && t.entities[owner].kind == Security
    ensures Valid(AttachOne(t, owner, key, primary)) && Grows(t, AttachOne(t, owner, key, primary))
  {
    var u := AttachOne(t, owner, key, primary);
    if !Blocked(t, owner, key) {
      InsertIdentifierUnique(t, owner, key, primary);
      assert UniqueIdentifiers(u) by {
        var w := t.(identifiers := u.identifiers);
        assert UniqueIdentifiers(w);
      }
    }
  }

  lemma AttachOneKeeps(t: Tables, owner: EntityId, key: Key, primary: bool)
    requires Valid(t) && owner in t.entities && t.entities[owner].kind == Security
    ensures var u := AttachOne(t, owner, key, primary);
            Valid(u) && Grows(t, u) && HasLive(u, key) && key.scheme in u.schemes
            && u.entities == t.entities && u.securities == t.securities
  {
    AttachOneValid(t, owner, key, primary);
    var u := AttachOne(t, owner, key, primary);
    if Blocked(t, owner, key) {
      var r :| r in t.identifiers && r.key == key && (r.owner == owner || r.live);
      assert r in u.identifiers && r.live;
    } else {
      assert Identifier(owner, key, true, primary) in u.identifiers;
    }
  }

  lemma {:induction false} AttachKeeps(t: Tables, owner: EntityId, keys: seq<Key>, primary: Option<Key>)
    requires Valid(t) && owner in t.entities && t.entities[owner].kind == Security
    ensures var u := Attach(t, owner, keys, primary);
            Valid(u) && Grows(t, u) && u.entities == t.entities && u.securities == t.securities
            && forall k :: k in keys ==> HasLive(u, k) && k.scheme in u.schemes
    decreases |keys|
  {
    if keys != [] {
      var first := AttachOne(t, owner, keys[0], primary == Some(keys[0]));
      AttachOneKeeps(t, owner, keys[0], primary == Some(keys[0]));
      AttachKeeps(first, owner, keys[1..], primary);
      var u := Attach(first, owner, keys[1..], primary);
      GrowsTransitive(t, first, u);
      forall k | k in keys ensures HasLive(u, k) && k.scheme in u.schemes {
        if k == keys[0] {
          var r :| r in first.identifiers && r.key == k && r.live;
          assert r in u.identifiers;
        } else {
          assert k in keys[1..];
        }
      }
    }
  }

  /** Only the attached owner can gain a key. */
  lemma {:induction false} AttachOwners(t: Tables, owner: EntityId, keys: seq<Key>, primary: Option<Key>)
    ensures forall r :: r in Attach(t, owner, keys, primary).identifiers && r !in t.identifiers
              ==> r.owner == owner && r.key in keys && r.live
    decreases |keys|
  {
    if keys != [] {
      AttachOwners(AttachOne(t, owner, keys[0], primary == Some(keys[0])), owner, keys[1..], primary);
    }
  }

  lemma {:induction false} AttachIdle(t: Tables, owner: EntityId, keys: seq<Key>, primary: Option<Key>)
    requires forall k :: k in keys ==> HasLive(t, k) && k.scheme in t.schemes
    ensures Attach(t, owner, keys, primary) == t
    decreases |keys|
  {
    if keys != [] {
      var k := keys[0];
      var r :| r in t.identifiers && r.key == k && r.live;
      assert Blocked(t, owner, k);
      assert t.schemes + {k.scheme} == t.schemes;
      assert AttachOne(t, owner, k, primary == Some(k)) == t;
      AttachIdle(t, owner, keys[1..], primary);
    }
  }

  // ------------------------------------------------------------ settled rows

  /** Row `row` answers Security `s`, for good: every candidate key has a live owner,
      that owner is `s` or no Security at all, and `s` is either found or minted again. */
  ghost predicate Claimed(t: Tables, row: Holding, s: EntityId) {
    var keys := Candidates(row);
    && row.identity != NonSecurityPosition && row.provider != Unreviewed
    && s in t.entities && t.entities[s].kind == Security
    && !AnyOpen(t, keys)
    && (forall k :: k in keys ==> HasLive(t, k) && k.scheme in t.schemes)
    && SecurityOwners(t, keys) <= {s}
    && (SecurityOwners(t, keys) == {} ==>
          FoundingIdentity(row).Some? && MintedId(FoundingIdentity(row).value) == s)
  }

  ghost predicate Contested(t: Tables, row: Holding) {
    && row.identity != NonSecurityPosition && row.provider != Unreviewed
    && (AnyOpen(t, Candidates(row)) || |SecurityOwners(t, Candidates(row))| > 1)
  }

  /** No candidate key leads anywhere and the row may not found a Security. */
  ghost predicate Unanswerable(t: Tables, row: Holding) {
    && row.identity != NonSecurityPosition && row.provider != Unreviewed
    && !AnyOpen(t, Candidates(row))
    && SecurityOwners(t, Candidates(row)) == {}
    && FoundingIdentity(row).None?
  }

  /** Once a key has a live owner, its Security owners never change. */
  lemma OwnersStable(t: Tables, t': Tables, key: Key)
    requires Valid(t) && Valid(t') && Grows(t, t') && HasLive(t, key)
    ensures LiveOwners(t', key, Security) == LiveOwners(t, key, Security)
  {
    var r0 :| r0 in t.identifiers && r0.key == key && r0.live;
    forall e | e in LiveOwners(t', key, Security) ensures e in LiveOwners(t, key, Security) {
      var r :| r in t'.identifiers && r.key == key && r.live && r.owner == e;
      assert r0 in t'.identifiers;
      assert r == r0;
    }
  }

  lemma OwnersGrow(t: Tables, t': Tables, keys: seq<Key>)
    requires Grows(t, t')
    ensures SecurityOwners(t, keys) <= SecurityOwners(t', keys)
    ensures AnyOpen(t, keys) <==> AnyOpen(t', keys)
  {
    forall e | e in SecurityOwners(t, keys) ensures e in SecurityOwners(t', keys) {
      var k :| k in keys && e in LiveOwners(t, k, Security);
      var r :| r in t.identifiers && r.key == k && r.live && r.owner == e;
      assert r in t'.identifiers;
      assert e in LiveOwners(t', k, Security);
    }
    if k :| k in keys && HasOpenCase(t', k) { assert HasOpenCase(t, k); }
    if k :| k in keys && HasOpenCase(t, k) { assert HasOpenCase(t', k); }
  }

  lemma ClaimedForever(t: Tables, t': Tables, row: Holding, s: EntityId)
    requires Valid(t) && Valid(t') && Grows(t, t') && Claimed(t, row, s)
    ensures Claimed(t', row, s)
  {
    var keys := Candidates(row);
    OwnersGrow(t, t', keys);
    forall k | k in keys
      ensures HasLive(t', k) && LiveOwners(t', k, Security) == LiveOwners(t, k, Security)
    {
      OwnersStable(t, t', k);
      var r :| r in t.identifiers && r.key == k && r.live;
      assert r in t'.identifiers;
    }
    assert SecurityOwners(t', keys) == SecurityOwners(t, keys);
  }

  lemma ClaimedHasRow(t: Tables, row: Holding, s: EntityId)
    requires Valid(t) && Claimed(t, row, s)
    ensures s in t.securities
  {
  }

  lemma ContestedForever(t: Tables, t': Tables, row: Holding)
    requires Grows(t, t') && Contested(t, row)
    ensures Contested(t', row)
  {
    OwnersGrow(t, t', Candidates(row));
    SubsetSize(SecurityOwners(t, Candidates(row)), SecurityOwners(t', Candidates(row)));
  }

  // ------------------------------------------------------------ resolving a security

  lemma Singleton<T>(s: set<T>, x: T)
    requires s <= {x} && s != {}
    ensures s == {x} && |s| == 1
  {
    var y :| y in s;
  }

  lemma ClaimedAnswers(t: Tables, row: Holding, s: EntityId)
    requires Valid(t) && Claimed(t, row, s)
    ensures ResolveSecurity(t, row).Ok?
    ensures ResolveSecurity(t, row).value.tables == t && ResolveSecurity(t, row).value.resolution == Resolved(s)
  {
    var keys := Candidates(row);
    FoundOwnersIs(t, keys, {});
    var owners := SecurityOwners(t, keys);
    assert {} + owners == owners;
    if owners != {} {
      Singleton(owners, s);
      AttachIdle(t, s, keys, None);
    } else {
      assert InsertSecurity(t, s) == t;
      AttachIdle(t, s, keys, FoundingIdentity(row));
    }
  }

  lemma NonSecurityAnswers(t: Tables, row: Holding)
    requires row.identity == NonSecurityPosition
    ensures ResolveSecurity(t, row) == Ok(SecurityStep(t, NonSecurity, false))
  {
  }

  lemma ContestedAnswers(t: Tables, row: Holding)
    requires Valid(t) && Contested(t, row)
    ensures ResolveSecurity(t, row) == Ok(SecurityStep(t, Ambiguous, false))
  {
    var keys := Candidates(row);
    FoundOwnersIs(t, keys, {});
    assert {} + SecurityOwners(t, keys) == SecurityOwners(t, keys);
  }

  /** The three ways a resolution can end, and what each leaves behind. */
  lemma ResolveSecurityLeaves(t: Tables, row: Holding)
    requires Valid(t) && ResolveSecurity(t, row).Ok?
    ensures var r := ResolveSecurity(t, row).value;
            && Valid(r.tables) && Grows(t, r.tables)
            && (r.resolution.NonSecurity? ==> r.tables == t && row.identity == NonSecurityPosition)
            && (r.resolution.Ambiguous? ==> r.tables == t && Contested(t, row))
            && (r.resolution.Unresolved? ==> r.tables == t && Unanswerable(t, row))
            && (r.resolution.Resolved? ==> Claimed(r.tables, row, r.resolution.entity))
            && r.tables == t.(entities := r.tables.entities, securities := r.tables.securities,
                              schemes := r.tables.schemes, identifiers := r.tables.identifiers)
  {
    hide Valid, Grows, SecurityOwners, AnyOpen, Attach, FoundOwners, FoundingIdentity, Candidates, MintedId, InsertSecurity, Claimed, UniqueIdentifiers;
    ValidIsUnique(t);
    GrowsReflexive(t);
    if row.identity != NonSecurityPosition {
      var keys := Candidates(row);
      FoundOwnersIs(t, keys, {});
      var owners := SecurityOwners(t, keys);
      assert {} + owners == owners;
      if !AnyOpen(t, keys) && |owners| <= 1 {
        if |owners| == 1 {
          ResolveExistingLeaves(t, row, Only(owners));
        } else if FoundingIdentity(row).Some? {
          ResolveMintedLeaves(t, row, FoundingIdentity(row).value);
        }
      }
    }
  }

  lemma {:induction false} AttachFrame(t: Tables, owner: EntityId, keys: seq<Key>, primary: Option<Key>)
    ensures var u := Attach(t, owner, keys, primary);
            u == t.(schemes := u.schemes, identifiers := u.identifiers)
    decreases |keys|
  {
    if keys != [] {
      AttachOneFrame(t, owner, keys[0], primary == Some(keys[0]));
      hide AttachOne;
      AttachFrame(AttachOne(t, owner, keys[0], primary == Some(keys[0])), owner, keys[1..], primary);
    }
  }

  lemma AttachOneFrame(t: Tables, owner: EntityId, key: Key, primary: bool)
    ensures var u := AttachOne(t, owner, key, primary);
            u == t.(schemes := u.schemes, identifiers := u.identifiers)
  {
  }

  lemma OwnersAfterAttach(t: Tables, s: EntityId, keys: seq<Key>, primary: Option<Key>)
    requires Valid(t) && s in t.entities && t.entities[s].kind == Security
    requires SecurityOwners(t, keys) <= {s}
    ensures SecurityOwners(Attach(t, s, keys, primary), keys) <= {s}
  {
    var u := Attach(t, s, keys, primary);
    AttachOwners(t, s, keys, primary);
    AttachKeeps(t, s, keys, primary);
    forall e | e in SecurityOwners(u, keys) ensures e == s {
      var k :| k in keys && e in LiveOwners(u, k, Security);
      var r :| r in u.identifiers && r.key == k && r.live && r.owner == e;
      if r in t.identifiers { assert e in LiveOwners(t, k, Security); assert e in SecurityOwners(t, keys); }
    }
  }

  lemma ResolveExistingLeaves(t: Tables, row: Holding, s: EntityId)
    requires Valid(t) && row.identity != NonSecurityPosition && row.provider != Unreviewed
    requires !AnyOpen(t, Candidates(row)) && SecurityOwners(t, Candidates(row)) == {s}
    ensures var u := Attach(t, s, Candidates(row), None);
            Valid(u) && Grows(t, u) && Claimed(u, row, s)
            && u == t.(schemes := u.schemes, identifiers := u.identifiers)
  {
    var keys := Candidates(row);
    assert s in SecurityOwners(t, keys);
    var k :| k in keys && s in LiveOwners(t, k, Security);
    AttachKeeps(t, s, keys, None);
    AttachFrame(t, s, keys, None);
    OwnersAfterAttach(t, s, keys, None);
    OwnersGrow(t, Attach(t, s, keys, None), keys);
  }

  lemma ResolveMintedLeaves(t: Tables, row: Holding, identity: Key)
    requires Valid(t) && row.identity != NonSecurityPosition && row.provider != Unreviewed
    requires !AnyOpen(t, Candidates(row)) && SecurityOwners(t, Candidates(row)) == {}
    requires FoundingIdentity(row) == Some(identity)
    ensures var s := MintedId(identity);
            var u := Attach(InsertSecurity(t, s), s, Candidates(row), Some(identity));
            Valid(u) && Grows(t, u) && Claimed(u, row, s)
            && u == t.(entities := u.entities, securities := u.securities, schemes := u.schemes, identifiers := u.identifiers)
  {
    var s, keys := MintedId(identity), Candidates(row);
    var v := InsertSecurity(t, s);
    assert Valid(v) && Grows(t, v);
    forall k ensures LiveOwners(v, k, Security) == LiveOwners(t, k, Security) {
    }
    assert SecurityOwners(v, keys) == SecurityOwners(t, keys);
    AttachKeeps(v, s, keys, Some(identity));
    AttachFrame(v, s, keys, Some(identity));
    OwnersAfterAttach(v, s, keys, Some(identity));
    GrowsTransitive(t, v, Attach(v, s, keys, Some(identity)));
    OwnersGrow(t, Attach(v, s, keys, Some(identity)), keys);
  }

  lemma AttachOneClaims(t: Tables, owner: EntityId, key: Key, primary: bool)
    requires Valid(t) && owner in t.entities && t.entities[owner].kind == Security
    ensures !HasLive(t, key) ==>
      exists r :: r in AttachOne(t, owner, key, primary).identifiers && r.owner == owner && r.key == key && r.live
    ensures forall k :: k != key && HasLive(AttachOne(t, owner, key, primary), k) ==> HasLive(t, k)
  {
    if !HasLive(t, key) {
      assert !Blocked(t, owner, key);
      assert Identifier(owner, key, true, primary) in AttachOne(t, owner, key, primary).identifiers;
    }
  }

  /** Attaching gives the owner every key that had no live owner before. */
  lemma {:induction false} AttachClaims(t: Tables, owner: EntityId, keys: seq<Key>, primary: Option<Key>, k: Key)
    requires Valid(t) && owner in t.entities && t.entities[owner].kind == Security
    requires k in keys && !HasLive(t, k)
    ensures exists r :: r in Attach(t, owner, keys, primary).identifiers && r.owner == owner && r.key == k && r.live
    decreases |keys|
  {
    hide Valid, Grows, AttachOne;
    var first := AttachOne(t, owner, keys[0], primary == Some(keys[0]));
    AttachOneKeeps(t, owner, keys[0], primary == Some(keys[0]));
    AttachOneClaims(t, owner, keys[0], primary == Some(keys[0]));
    if keys[0] == k {
      AttachKeeps(first, owner, keys[1..], primary);
      var u := Attach(first, owner, keys[1..], primary);
      var r :| r in first.identifiers && r.owner == owner && r.key == k && r.live;
      GrowsIdentifiers(first, u);
      assert r in u.identifiers;
    } else {
      AttachClaims(first, owner, keys[1..], primary, k);
    }
  }

  lemma GrowsIdentifiers(t: Tables, t': Tables)
    requires Grows(t, t')
    ensures t.identifiers <= t'.identifiers
  {
  }

  // ------------------------------------------------------------ the main results on ownership

  /** No key ever changes owner: its live owner in one state is its live owner in every later one. */
  lemma OwnershipIsStable(t: Tables, t': Tables, r: Identifier, r': Identifier)
    requires Valid(t) && Valid(t') && Grows(t, t')
    requires r in t.identifiers && r.live
    requires r' in t'.identifiers && r'.live && r'.key == r.key
    ensures r' == r
  {
    assert r in t'.identifiers;
  }

  /** A row answered RESOLVED keeps that answer in every later state, and answering it again writes nothing. */
  lemma ResolvedIsForever(t: Tables, row: Holding, t': Tables)
    requires Valid(t) && ResolveSecurity(t, row).Ok? && ResolveSecurity(t, row).value.resolution.Resolved?
    requires Valid(t') && Grows(ResolveSecurity(t, row).value.tables, t')
    ensures ResolveSecurity(t', row).Ok?
    ensures ResolveSecurity(t', row).value.resolution == ResolveSecurity(t, row).value.resolution
    ensures ResolveSecurity(t', row).value.tables == t'
  {
    ResolveSecurityLeaves(t, row);
    var r := ResolveSecurity(t, row).value;
    ClaimedForever(r.tables, t', row, r.resolution.entity);
    ClaimedAnswers(t', row, r.resolution.entity);
  }

  /** A row resolved to `s` leaves `s` the owner of each of its keys that nobody owned; `s` is
      either the one Security already owning some key, or minted from the row's own verified
      ISIN, exchange ticker or six-digit provider id, never from a name. */
  lemma ResolvedTakesUnownedKeys(t: Tables, row: Holding, k: Key)
    requires Valid(t) && ResolveSecurity(t, row).Ok? && ResolveSecurity(t, row).value.resolution.Resolved?
    requires k in Candidates(row) && !HasLive(t, k)
    ensures var r := ResolveSecurity(t, row).value;
            && (exists i :: i in r.tables.identifiers && i.owner == r.resolution.entity && i.key == k && i.live)
            && (r.created <==> SecurityOwners(t, Candidates(row)) == {})
            && (!r.created ==> SecurityOwners(t, Candidates(row)) == {r.resolution.entity})
            && (r.created ==> exists c :: c in Candidates(row) && r.resolution.entity.Minted?
                                       && r.resolution.entity.scope == Lower(c.namespace))
  {
    hide Valid, Grows;
    var keys := Candidates(row);
    ValidIsUnique(t);
    FoundOwnersIs(t, keys, {});
    assert {} + SecurityOwners(t, keys) == SecurityOwners(t, keys);
    var r := ResolveSecurity(t, row).value;
    var s := r.resolution.entity;
    ResolveSecurityLeaves(t, row);
    if r.created {
      var u := InsertSecurity(t, s);
      InsertSecurityValid(t, s);
      AttachClaims(u, s, keys, FoundingIdentity(row), k);
      FoundedOnCandidate(row);
    } else {
      SecurityOwnersAreSecurities(t, keys);
      AttachClaims(t, s, keys, None, k);
    }
  }

  lemma SecurityOwnersAreSecurities(t: Tables, keys: seq<Key>)
    ensures forall s :: s in SecurityOwners(t, keys) ==> s in t.entities && t.entities[s].kind == Security
  {
    forall s | s in SecurityOwners(t, keys) ensures s in t.entities && t.entities[s].kind == Security {
      var k :| k in keys && s in LiveOwners(t, k, Security);
    }
  }

  lemma InsertSecurityValid(t: Tables, s: EntityId)
    requires Valid(t) && s.Minted?
    ensures Valid(InsertSecurity(t, s)) && s in InsertSecurity(t, s).entities
    ensures InsertSecurity(t, s).entities[s].kind == Security
  {
  }

  lemma FoundedOnCandidate(row: Holding)
    requires FoundingIdentity(row).Some?
    ensures exists c :: c in Candidates(row) && c.namespace == FoundingIdentity(row).value.namespace
                     && c.scheme == FoundingIdentity(row).value.scheme
  {
    var id := FoundingIdentity(row).value;
    var ns := TickerNamespace(row.constituentExchange, row.domestic);
    if id.scheme == "ISIN" {
      assert Candidates(row)[0].scheme == "ISIN";
    } else if id.scheme == "TICKER" {
      assert Key("TICKER", ns, Normalized(row.constituentTicker)) in Candidates(row);
    } else {
      assert Key("PROVIDER_SOURCE_ID", SecurityNamespace(row.provider), Normalized(row.constituentSourceId)) in Candidates(row);
    }
  }
}
