/** The price index against a scan of the price rows
    (internal/modelcatalog/modelcatalog.go). */
module PriceIndex {
  import opened Wrappers
  import opened Prices
  import opened Merging

  datatype CatalogKey = CatalogKey(provider: string, modelName: string, modelType: nat)

  /** A price row; `selectors` is the stored selector key, possibly empty. */
  datatype PriceRow = PriceRow(key: CatalogKey, selectors: string, price: PriceList)

  const EMPTY_SELECTOR := "{}"

  function CanonicalKey(selectors: string): string {
    if selectors == "" then EMPTY_SELECTOR else selectors
  }

  predicate Unselected(row: PriceRow) { CanonicalKey(row.selectors) == EMPTY_SELECTOR }

  // ---- The reference: scans of a list of rows.

  function First<T>(rows: seq<T>, f: T -> bool): Option<T> {
    if rows == [] then None
    else
      var before := First(rows[..|rows| - 1], f);
      if before.None? && f(rows[|rows| - 1]) then Some(rows[|rows| - 1]) else before
  }

  function Last<T>(rows: seq<T>, f: T -> bool): Option<T> {
    if rows == [] then None
    else if f(rows[|rows| - 1]) then Some(rows[|rows| - 1])
    else Last(rows[..|rows| - 1], f)
  }

  function Or<T>(a: Option<T>, b: Option<T>): Option<T> { if a.Some? then a else b }

  function Keyed(key: CatalogKey): PriceRow -> bool { (row: PriceRow) => row.key == key }

  function KeyedPlain(key: CatalogKey): PriceRow -> bool { (row: PriceRow) => row.key == key && Unselected(row) }

  function KeyedWith(key: CatalogKey, selector: string): PriceRow -> bool {
    (row: PriceRow) => row.key == key && CanonicalKey(row.selectors) == selector
  }

  /** The row that stands for a key whatever the selector: the first unselected one,
      or just the first. */
  function BaseRow(rows: seq<PriceRow>, key: CatalogKey): Option<PriceRow> {
    Or(First(rows, KeyedPlain(key)), First(rows, Keyed(key)))
  }

  function ScanPrice(rows: seq<PriceRow>, key: CatalogKey, selector: string): Option<PriceRow> {
    Or(First(rows, KeyedWith(key, selector)), BaseRow(rows, key))
  }

  /** What First finds, by position. */
  lemma {:induction false} FirstIsFirst<T>(rows: seq<T>, f: T -> bool)
    ensures First(rows, f).None? <==> forall i :: 0 <= i < |rows| ==> !f(rows[i])
    ensures First(rows, f).Some? ==>
      exists i :: 0 <= i < |rows| && rows[i] == First(rows, f).value && f(rows[i]) && forall j :: 0 <= j < i ==>
        !f(rows[j])
  {
    if rows != [] {
      var front := rows[..|rows| - 1];
      FirstIsFirst(front, f);
      if First(front, f).Some? {
        var i :| 0 <= i < |front| && front[i] == First(front, f).value && f(front[i]) && forall j :: 0 <= j < i ==>
          !f(front[j]);
        assert rows[i] == front[i];
      } else {
        assert forall j :: 0 <= j < |front| ==> rows[j] == front[j];
      }
    }
  }

  lemma {:induction false} LastIsLast<T>(rows: seq<T>, f: T -> bool)
    ensures Last(rows, f).None? <==> forall i :: 0 <= i < |rows| ==> !f(rows[i])
    ensures Last(rows, f).Some? ==>
      exists i :: 0 <= i < |rows| && rows[i] == Last(rows, f).value && f(rows[i]) && forall j :: i < j < |rows| ==>
        !f(rows[j])
  {
    if rows != [] && !f(rows[|rows| - 1]) {
      var front := rows[..|rows| - 1];
      LastIsLast(front, f);
      if Last(front, f).Some? {
        var i :| 0 <= i < |front| && front[i] == Last(front, f).value && f(front[i]) && forall j ::
          i < j < |front| ==> !f(front[j]);
        assert rows[i] == front[i];
        forall j | i < j < |rows| ensures !f(rows[j]) { if j < |front| { assert rows[j] == front[j]; } }
      } else {
        forall j | 0 <= j < |rows| ensures !f(rows[j]) { if j < |front| { assert rows[j] == front[j]; } }
      }
    }
  }

  // ---- The base index.

  datatype Snapshot = Snapshot(base: map<CatalogKey, PriceRow>, variants: map<CatalogKey, seq<PriceRow>>)

  function Bucket(rows: seq<PriceRow>, key: CatalogKey): seq<PriceRow> {
    if rows == [] then []
    else
      var front, row := Bucket(rows[..|rows| - 1], key), rows[|rows| - 1];
      if row.key == key then front + [row] else front
  }

  function Get<K, V>(m: map<K, V>, k: K): Option<V> { if k in m then Some(m[k]) else None }

  /** Every key has its base row, and a bucket exactly when it has two rows or more. */
  ghost predicate Indexes(s: Snapshot, rows: seq<PriceRow>) {
    && (forall key :: Get(s.base, key) == BaseRow(rows, key))
    && (forall key :: key in s.variants <==> |Bucket(rows, key)| >= 2)
    && (forall key :: key in s.variants ==> s.variants[key] == Bucket(rows, key))
  }

  /** One more row, for the base entry of its own key and of any other. */
  lemma BaseStep(rows: seq<PriceRow>, row: PriceRow, key: CatalogKey)
    ensures BaseRow(rows + [row], key) ==
      var old_ := BaseRow(rows, key);
      if row.key == key && (old_.None? || (Unselected(row) && !Unselected(old_.value))) then Some(row) else old_
  {
    var next := rows + [row];
    assert next[..|next| - 1] == rows;
    FirstIsFirst(rows, Keyed(key));
    FirstIsFirst(rows, KeyedPlain(key));
  }

  lemma BucketStep(rows: seq<PriceRow>, row: PriceRow, key: CatalogKey)
    ensures Bucket(rows + [row], key) == if row.key == key then Bucket(rows, key) + [row] else Bucket(rows, key)
  {
    var next := rows + [row];
    assert next[..|next| - 1] == rows;
  }

  ghost predicate Buckets(variants: map<CatalogKey, seq<PriceRow>>, rows: seq<PriceRow>) {
    forall key :: Bucket(rows, key) == if key in variants then variants[key] else []
  }

  /** The first unselected row of a key replaces a selected one. */
  method EnterBase(base: map<CatalogKey, PriceRow>, ghost seen: seq<PriceRow>, row: PriceRow)
    returns (next: map<CatalogKey, PriceRow>)
    requires forall key :: Get(base, key) == BaseRow(seen, key)
    ensures forall key :: Get(next, key) == BaseRow(seen + [row], key)
  {
    forall k ensures BaseRow(seen + [row], k) ==
      if row.key == k
        && (Get(base, k).None? || (Unselected(row) && !Unselected(base[k]))) then Some(row) else Get(base, k)
    {
      BaseStep(seen, row, k);
    }
    next := base;
    if row.key !in base || (Unselected(row) && !Unselected(base[row.key])) { next := next[row.key := row]; }
  }

  method EnterBucket(variants: map<CatalogKey, seq<PriceRow>>, ghost seen: seq<PriceRow>, row: PriceRow)
    returns (next: map<CatalogKey, seq<PriceRow>>)
    requires Buckets(variants, seen)
    ensures Buckets(next, seen + [row])
  {
    forall k ensures Bucket(seen + [row], k) == if row.key == k then Bucket(seen, k) + [row] else Bucket(seen, k) {
      BucketStep(seen, row, k);
    }
    next := variants[row.key := (if row.key in variants then variants[row.key] else []) + [row]];
  }

  /** Index the rows in one pass, then drop the buckets no selector can choose from. */
  method NewBasePricingSnapshot(rows: seq<PriceRow>) returns (s: Snapshot)
    ensures Indexes(s, rows)
  {
    var base: map<CatalogKey, PriceRow> := map[];
    var variants: map<CatalogKey, seq<PriceRow>> := map[];
    for i := 0 to |rows|
      invariant forall key :: Get(base, key) == BaseRow(rows[..i], key)
      invariant Buckets(variants, rows[..i])
    {
      assert rows[..i + 1] == rows[..i] + [rows[i]];
      base := EnterBase(base, rows[..i], rows[i]);
      variants := EnterBucket(variants, rows[..i], rows[i]);
    }
    assert rows[..|rows|] == rows;
    var pruned := Prune(variants);
    s := Snapshot(base, pruned);
  }

  method Prune(variants: map<CatalogKey, seq<PriceRow>>) returns (pruned: map<CatalogKey, seq<PriceRow>>)
    ensures pruned == map key | key in variants && |variants[key]| >= 2 :: variants[key]
  {
    pruned := variants;
    var left := variants.Keys;
    while left != {}
      invariant left <= variants.Keys
      invariant forall key :: key in pruned <==> key in variants && (key in left || |variants[key]| >= 2)
      invariant forall key :: key in pruned ==> pruned[key] == variants[key]
    {
      var key :| key in left;
      if |variants[key]| < 2 { pruned := pruned - {key}; }
      left := left - {key};
    }
  }

  /** Searching a key's bucket is searching all rows for that key. */
  lemma {:induction false} BucketFinds(rows: seq<PriceRow>, key: CatalogKey, selector: string)
    ensures First(Bucket(rows, key), KeyedWith(key, selector)) == First(rows, KeyedWith(key, selector))
  {
    if rows != [] {
      var front, row := rows[..|rows| - 1], rows[|rows| - 1];
      assert rows == front + [row];
      BucketFinds(front, key, selector);
      FirstOfOneMore(front, row, KeyedWith(key, selector));
      if row.key == key { FirstOfOneMore(Bucket(front, key), row, KeyedWith(key, selector)); }
    }
  }

  lemma {:induction false} BucketIsOfItsKey(rows: seq<PriceRow>, key: CatalogKey)
    ensures forall i :: 0 <= i < |Bucket(rows, key)| ==> Bucket(rows, key)[i].key == key
    ensures Bucket(rows, key) == [] <==> First(rows, Keyed(key)).None?
  {
    if rows != [] {
      var front, row := rows[..|rows| - 1], rows[|rows| - 1];
      assert rows == front + [row];
      BucketIsOfItsKey(front, key);
      FirstOfOneMore(front, row, Keyed(key));
    }
  }

  lemma FirstOfOneMore<T>(rows: seq<T>, row: T, f: T -> bool)
    ensures First(rows + [row], f) == if First(rows, f).None? && f(row) then Some(row) else First(rows, f)
  {
    assert (rows + [row])[..|rows|] == rows;
  }

  lemma {:induction false} OnlyRowIsBase(rows: seq<PriceRow>, key: CatalogKey)
    requires |Bucket(rows, key)| == 1
    ensures BaseRow(rows, key) == Some(Bucket(rows, key)[0])
  {
    var front, row := rows[..|rows| - 1], rows[|rows| - 1];
    assert rows == front + [row];
    BaseStep(front, row, key);
    if row.key == key {
      BucketIsOfItsKey(front, key);
      FirstIsFirst(front, Keyed(key));
      FirstIsFirst(front, KeyedPlain(key));
    } else {
      OnlyRowIsBase(front, key);
    }
  }

  /** A key without a bucket loses nothing: its only row is its base row. */
  lemma PrunedKeysScanToBase(rows: seq<PriceRow>, key: CatalogKey, selector: string)
    requires |Bucket(rows, key)| < 2
    ensures ScanPrice(rows, key, selector) == BaseRow(rows, key)
  {
    BucketFinds(rows, key, selector);
    BucketIsOfItsKey(rows, key);
    var b := Bucket(rows, key);
    if |b| == 1 {
      assert b[..0] == [];
      OnlyRowIsBase(rows, key);
    } else {
      FirstIsFirst(rows, Keyed(key));
    }
  }

  method Find(s: Snapshot, ghost rows: seq<PriceRow>, key: CatalogKey, selector: string)
    returns (found: Option<PriceRow>)
    requires Indexes(s, rows)
    ensures found == ScanPrice(rows, key, selector)
  {
    if key in s.variants {
      var bucket := s.variants[key];
      BucketFinds(rows, key, selector);
      BucketIsOfItsKey(rows, key);
      for i := 0 to |bucket|
        invariant First(bucket[..i], KeyedWith(key, selector)).None?
      {
        assert bucket[..i + 1][..i] == bucket[..i];
        if CanonicalKey(bucket[i].selectors) == selector {
          FirstOfPrefix(bucket, i + 1, KeyedWith(key, selector));
          return Some(bucket[i]);
        }
      }
      assert bucket[..|bucket|] == bucket;
    } else {
      PrunedKeysScanToBase(rows, key, selector);
    }
    return Get(s.base, key);
  }

  lemma {:induction false} FirstOfPrefix<T>(rows: seq<T>, n: nat, f: T -> bool)
    requires n <= |rows| && First(rows[..n], f).Some?
    ensures First(rows, f) == First(rows[..n], f)
    decreases |rows| - n
  {
    if n < |rows| {
      assert rows[..n + 1][..n] == rows[..n];
      FirstOfPrefix(rows, n + 1, f);
    } else {
      assert rows[..n] == rows;
    }
  }

  // ---- The scoped overrides.

  datatype Scope = Global | Provider(provider: Option<string>) | VirtualKey(id: Option<string>) | UnknownScope

  datatype Override = Override(modelName: string, modelType: nat, scope: Scope, price: PriceList)

  function CustomPricingKey(key: CatalogKey): CatalogKey { key.(provider := "") }

  function OverrideKey(o: Override): CatalogKey { CatalogKey("", o.modelName, o.modelType) }

  function Scoped(key: CatalogKey, scope: Scope): Override -> bool {
    (o: Override) => OverrideKey(o) == key && o.scope == scope
  }

  datatype ScopedPrices = ScopedPrices(global: Option<Override>, provider: map<string, Override>,
    virtualKey: map<string, Override>)

  type Overrides = map<CatalogKey, ScopedPrices>

  function Under(m: Overrides, key: CatalogKey): ScopedPrices {
    if key in m then m[key] else ScopedPrices(None, map[], map[])
  }

  /** One model's overrides: of every scope the last row is in force. */
  ghost predicate IndexesKey(scoped: ScopedPrices, rows: seq<Override>, key: CatalogKey) {
    && scoped.global == Last(rows, Scoped(key, Global))
    && (forall p :: Get(scoped.provider, p) == Last(rows, Scoped(key, Provider(Some(p)))))
    && (forall id :: Get(scoped.virtualKey, id) == Last(rows, Scoped(key, VirtualKey(Some(id)))))
  }

  ghost predicate IndexesOverrides(m: Overrides, rows: seq<Override>) {
    forall key :: IndexesKey(Under(m, key), rows, key)
  }

  lemma LastStep(rows: seq<Override>, o: Override, key: CatalogKey, scope: Scope)
    ensures Last(rows + [o], Scoped(key, scope)) == if OverrideKey(o) == key
        && o.scope == scope then Some(o) else Last(rows, Scoped(key, scope))
  {
    var next := rows + [o];
    assert next[..|next| - 1] == rows;
  }

  /** File one override under its scope. */
  function Placed(scoped: ScopedPrices, o: Override): ScopedPrices {
    match o.scope
    case Global => scoped.(global := Some(o))
    case Provider(Some(p)) => scoped.(provider := scoped.provider[p := o])
    case VirtualKey(Some(id)) => scoped.(virtualKey := scoped.virtualKey[id := o])
    case _ => scoped
  }

  lemma PlacedInKey(scoped: ScopedPrices, rows: seq<Override>, o: Override, key: CatalogKey)
    requires IndexesKey(scoped, rows, key)
    ensures IndexesKey(if OverrideKey(o) == key then Placed(scoped, o) else scoped, rows + [o], key)
  {
    var next, t := rows + [o], if OverrideKey(o) == key then Placed(scoped, o) else scoped;
    LastStep(rows, o, key, Global);
    forall p ensures Get(t.provider, p) == Last(next, Scoped(key, Provider(Some(p)))) {
      LastStep(rows, o, key, Provider(Some(p)));
    }
    forall id ensures Get(t.virtualKey, id) == Last(next, Scoped(key, VirtualKey(Some(id)))) {
      LastStep(rows, o, key, VirtualKey(Some(id)));
    }
  }

  lemma PlacedIsIndexed(m: Overrides, rows: seq<Override>, o: Override)
    requires IndexesOverrides(m, rows)
    ensures IndexesOverrides(m[OverrideKey(o) := Placed(Under(m, OverrideKey(o)), o)], rows + [o])
  {
    var t := m[OverrideKey(o) := Placed(Under(m, OverrideKey(o)), o)];
    forall key ensures IndexesKey(Under(t, key), rows + [o], key) {
      PlacedInKey(Under(m, key), rows, o, key);
    }
  }

  method IndexOverrides(rows: seq<Override>) returns (m: Overrides)
    ensures IndexesOverrides(m, rows)
  {
    m := map[];
    for i := 0 to |rows|
      invariant IndexesOverrides(m, rows[..i])
    {
      var o := rows[i];
      var key := OverrideKey(o);
      assert rows[..i + 1] == rows[..i] + [o];
      PlacedIsIndexed(m, rows[..i], o);
      var scoped := if key in m then m[key] else ScopedPrices(None, map[], map[]);
      if o.scope == Global {
        scoped := scoped.(global := Some(o));
      } else if o.scope.Provider? && o.scope.provider.Some? {
        scoped := scoped.(provider := scoped.provider[o.scope.provider.value := o]);
      } else if o.scope.VirtualKey? && o.scope.id.Some? {
        scoped := scoped.(virtualKey := scoped.virtualKey[o.scope.id.value := o]);
      }
      m := m[key := scoped];
    }
    assert rows[..|rows|] == rows;
  }

  /** Virtual key over provider over global, by scanning the rows. */
  function InForce(rows: seq<Override>, virtualKey: string, key: CatalogKey): Option<Override> {
    var ck := CustomPricingKey(key);
    Or(Last(rows, Scoped(ck, VirtualKey(Some(virtualKey)))),
       Or(Last(rows, Scoped(ck, Provider(Some(key.provider)))), Last(rows, Scoped(ck, Global))))
  }

  function ScanResolve(base: seq<PriceRow>, overrides: seq<Override>, virtualKey: string, key: CatalogKey,
    selector: string): Option<PriceList> {
    var row := ScanPrice(base, key, selector);
    var o := InForce(overrides, virtualKey, key);
    if row.None? then None else Some(if o.Some? then Merge(row.value.price, o.value.price) else row.value.price)
  }

  // ---- What is resolved, by the positions of rows.

  ghost predicate Has<T>(rows: seq<T>, f: T -> bool) { exists i :: 0 <= i < |rows| && f(rows[i]) }

  ghost predicate Earliest<T>(rows: seq<T>, i: nat, f: T -> bool) {
    i < |rows| && f(rows[i]) && forall j :: 0 <= j < i ==> !f(rows[j])
  }

  ghost predicate Latest<T>(rows: seq<T>, i: nat, f: T -> bool) {
    i < |rows| && f(rows[i]) && forall j :: i < j < |rows| ==> !f(rows[j])
  }

  /** Row `i` answers for a key and a selector: it is the first row of the key with the
      selector, else the first without one - stored as "{}" or not at all - else the
      first. */
  ghost predicate Answers(rows: seq<PriceRow>, key: CatalogKey, selector: string, i: nat) {
    var exact := (row: PriceRow) =>
      row.key == key && if row.selectors == "" then selector == "{}" else selector == row.selectors;
    var plain := (row: PriceRow) => row.key == key && (row.selectors == "" || row.selectors == "{}");
    if Has(rows, exact) then Earliest(rows, i, exact)
    else if Has(rows, plain) then Earliest(rows, i, plain)
    else Earliest(rows, i, (row: PriceRow) => row.key == key)
  }

  ghost predicate OfModel(o: Override, key: CatalogKey) {
    o.modelName == key.modelName && o.modelType == key.modelType
  }

  /** Row `i` prevails: it is the last override of the model for the virtual key, else
      for the provider, else for everyone. */
  ghost predicate Prevails(rows: seq<Override>, virtualKey: string, key: CatalogKey, i: nat) {
    var mine := (o: Override) => OfModel(o, key) && o.scope == VirtualKey(Some(virtualKey));
    var providers := (o: Override) => OfModel(o, key) && o.scope == Provider(Some(key.provider));
    if Has(rows, mine) then Latest(rows, i, mine)
    else if Has(rows, providers) then Latest(rows, i, providers)
    else Latest(rows, i, (o: Override) => OfModel(o, key) && o.scope == Global)
  }

  /** A price list that takes what the override sets, and the rest from the base. */
  ghost predicate Overlaid(price: PriceList, base: PriceList, override: PriceList) {
    forall f :: (f in price <==> f in override || f in base)
                && (f in override ==> price[f] == override[f])
                && (f in base && f !in override ==> price[f] == base[f])
  }

  /** The whole resolution, field by field: no price without a row of the key; otherwise
      the answering row's price under the prevailing override's. */
  ghost predicate Resolves(base: seq<PriceRow>, overrides: seq<Override>, virtualKey: string, key: CatalogKey,
    selector: string, price: Option<PriceList>) {
    match price
    case None => forall i :: 0 <= i < |base| ==> base[i].key != key
    case Some(p) =>
      exists i: nat :: Answers(base, key, selector, i) &&
        if exists k: nat :: Prevails(overrides, virtualKey, key, k)
        then exists k: nat :: Prevails(overrides, virtualKey, key, k) && Overlaid(p, base[i].price, overrides[k].price)
        else p == base[i].price
  }

  lemma ScanPriceAnswers(rows: seq<PriceRow>, key: CatalogKey, selector: string)
    ensures match ScanPrice(rows, key, selector)
            case None => forall i :: 0 <= i < |rows| ==> rows[i].key != key
            case Some(row) => exists i: nat :: Answers(rows, key, selector, i) && rows[i] == row
  {
    FirstIsEarliest(rows, KeyedWith(key, selector), (row: PriceRow) =>
      row.key == key && if row.selectors == "" then selector == "{}" else selector == row.selectors);
    FirstIsEarliest(rows, KeyedPlain(key), (row: PriceRow) =>
      row.key == key && (row.selectors == "" || row.selectors == "{}"));
    FirstIsEarliest(rows, Keyed(key), (row: PriceRow) => row.key == key);
  }

  lemma FirstIsEarliest<T>(rows: seq<T>, f: T -> bool, g: T -> bool)
    requires forall row :: f(row) == g(row)
    ensures match First(rows, f)
            case None => !Has(rows, g)
            case Some(row) => Has(rows, g) && exists i: nat :: Earliest(rows, i, g) && rows[i] == row
  {
    FirstIsFirst(rows, f);
    forall i | 0 <= i < |rows| ensures f(rows[i]) == g(rows[i]) {}
  }

  /** The override in force is the latest row of the most specific scope that has any
      row for the model. */
  lemma InForceIsMostSpecific(rows: seq<Override>, virtualKey: string, key: CatalogKey)
    ensures match InForce(rows, virtualKey, key)
            case None => forall i: nat :: !Prevails(rows, virtualKey, key, i)
            case Some(o) => exists i: nat :: Prevails(rows, virtualKey, key, i) && rows[i] == o
  {
    var ck := CustomPricingKey(key);
    LastIsLast(rows, Scoped(ck, VirtualKey(Some(virtualKey))));
    LastIsLast(rows, Scoped(ck, Provider(Some(key.provider))));
    LastIsLast(rows, Scoped(ck, Global));
  }

  /** Every field of the answer has the price of the override in force where that sets
      it, and the price of the selected base row otherwise. */
  lemma ScanResolves(base: seq<PriceRow>, overrides: seq<Override>, virtualKey: string, key: CatalogKey,
    selector: string)
    ensures Resolves(base, overrides, virtualKey, key, selector,
                     ScanResolve(base, overrides, virtualKey, key, selector))
  {
    ScanPriceAnswers(base, key, selector);
    InForceIsMostSpecific(overrides, virtualKey, key);
  }

  /** The catalog: two published snapshots, each replaced as a whole. */
  class ModelCatalog {
    var basePricing: Option<Snapshot>
    var customPricing: Option<Overrides>
    ghost var baseRows: seq<PriceRow>
    ghost var overrideRows: seq<Override>

    ghost predicate Valid()
      reads this
    {
      && (basePricing.Some? ==> Indexes(basePricing.value, baseRows))
      && (if customPricing.Some? then IndexesOverrides(customPricing.value, overrideRows) else overrideRows == [])
    }

    constructor ()
      ensures Valid() && basePricing == None && customPricing == None
    {
      basePricing, customPricing, baseRows, overrideRows := None, None, [], [];
    }

    /** `rows` is None when the store could not be read. */
    method LoadBasePricing(rows: Option<seq<PriceRow>>)
      requires Valid()
      modifies this
      ensures Valid() && customPricing == old(customPricing) && overrideRows == old(overrideRows)
      ensures rows.Some? ==> basePricing.Some? && baseRows == rows.value
      ensures rows.None? ==> basePricing == old(basePricing) && baseRows == old(baseRows)
    {
      if rows.None? { return; }
      var s := NewBasePricingSnapshot(rows.value);
      basePricing, baseRows := Some(s), rows.value;
    }

    method LoadCustomPricing(rows: Option<seq<Override>>)
      requires Valid()
      modifies this
      ensures Valid() && basePricing == old(basePricing) && baseRows == old(baseRows)
      ensures rows.Some? ==> overrideRows == rows.value
      ensures rows.None? ==> customPricing == old(customPricing) && overrideRows == old(overrideRows)
    {
      if rows.None? { return; }
      var m := IndexOverrides(rows.value);
      customPricing, overrideRows := Some(m), rows.value;
    }

    /** The indexed resolution is the scan of the rows last loaded. */
    method ResolvePrice(virtualKey: string, key: CatalogKey, selector: string) returns (price: Option<PriceList>)
      requires Valid()
      ensures basePricing.None? ==> price.None?
      ensures basePricing.Some? ==> Resolves(baseRows, overrideRows, virtualKey, key, selector, price)
    {
      price := FindPrice(virtualKey, key, selector);
      ScanResolves(baseRows, overrideRows, virtualKey, key, selector);
    }

    method FindPrice(virtualKey: string, key: CatalogKey, selector: string) returns (price: Option<PriceList>)
      requires Valid()
      ensures price == if basePricing.None? then None
                       else ScanResolve(baseRows, overrideRows, virtualKey, key, selector)
    {
      if basePricing.None? { return None; }
      var row := Find(basePricing.value, baseRows, key, selector);
      if row.None? { return None; }
      if customPricing.None? {
        NoOverrides(virtualKey, key);
        return Some(row.value.price);
      }
      var ck := CustomPricingKey(key);
      if ck !in customPricing.value {
        assert IndexesKey(Under(customPricing.value, ck), overrideRows, ck);
        assert Get(Under(customPricing.value, ck).virtualKey, virtualKey).None?;
        assert Get(Under(customPricing.value, ck).provider, key.provider).None?;
        return Some(row.value.price);
      }
      var scoped := customPricing.value[ck];
      assert IndexesKey(Under(customPricing.value, ck), overrideRows, ck);
      assert Get(scoped.virtualKey, virtualKey) == Last(overrideRows, Scoped(ck, VirtualKey(Some(virtualKey))));
      assert Get(scoped.provider, key.provider) == Last(overrideRows, Scoped(ck, Provider(Some(key.provider))));
      if virtualKey in scoped.virtualKey {
        var merged := MergePricing(row.value.price, scoped.virtualKey[virtualKey].price);
        return Some(merged);
      }
      if key.provider in scoped.provider {
        var merged := MergePricing(row.value.price, scoped.provider[key.provider].price);
        return Some(merged);
      }
      if scoped.global.Some? {
        var merged := MergePricing(row.value.price, scoped.global.value.price);
        return Some(merged);
      }
      return Some(row.value.price);
    }
  }

  lemma NoOverrides(virtualKey: string, key: CatalogKey)
    ensures InForce([], virtualKey, key).None?
  {}
}
