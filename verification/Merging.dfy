/** Price overrides: merging, and any number of updates (internal/core/pricing.go,
    internal/dbstore/pricing.go). */
module Merging {
  import opened Prices

  /** Write every price the override sets over the base, field by field. */
  method MergePricing(base: PriceList, override: PriceList) returns (merged: PriceList)
    ensures merged == Merge(base, override)
  {
    merged := base;
    var left := override.Keys;
    while left != {}
      invariant left <= override.Keys
      invariant forall f :: f in merged <==> f in base || (f in override && f !in left)
      invariant forall f :: f in merged ==> merged[f] == if f in override && f !in left then override[f] else base[f]
    {
      var f :| f in left;
      merged := merged[f := override[f]];
      left := left - {f};
    }
  }

  function Merge(base: PriceList, override: PriceList): PriceList { base + override }

  function MergeAll(base: PriceList, updates: seq<PriceList>): PriceList {
    if updates == [] then base else Merge(MergeAll(base, updates[..|updates| - 1]), updates[|updates| - 1])
  }

  /** An override that started empty and took any number of updates, merged into the
      base price, is the base price with the updates applied to it in order. */
  lemma {:induction false} UpdatesFoldOverBase(base: PriceList, first: PriceList, updates: seq<PriceList>)
    ensures Merge(base, MergeAll(first, updates)) == MergeAll(Merge(base, first), updates)
    ensures first == map[] ==> Merge(base, MergeAll(first, updates)) == MergeAll(base, updates)
  {
    if updates == [] {
      assert Merge(base, map[]) == base;
    } else {
      var front, last := updates[..|updates| - 1], updates[|updates| - 1];
      UpdatesFoldOverBase(base, first, front);
      MergeIsAssociative(base, MergeAll(first, front), last);
    }
  }

  lemma MergeIsAssociative(a: PriceList, b: PriceList, c: PriceList)
    ensures Merge(a, Merge(b, c)) == Merge(Merge(a, b), c)
    ensures Merge(a, map[]) == a == Merge(map[], a)
  {}

  /** A field keeps the last price any update set; a field no update sets keeps the
      base price. */
  lemma {:induction false} LastUpdateWins(base: PriceList, updates: seq<PriceList>, f: Field)
    ensures f in MergeAll(base, updates) <==> f in base || exists i :: 0 <= i < |updates| && f in updates[i]
    ensures forall i :: 0 <= i < |updates| && f in updates[i] && (forall j :: i < j < |updates| ==> f !in updates[j])
              ==> MergeAll(base, updates)[f] == updates[i][f]
    ensures f in base && (forall i :: 0 <= i < |updates| ==> f !in updates[i]) ==> MergeAll(base, updates)[f] == base[f]
  {
    if updates != [] { LastUpdateWins(base, updates[..|updates| - 1], f); }
  }
}
