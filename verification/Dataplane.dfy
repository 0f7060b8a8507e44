/** Provider policies and the choice of a provider and a credential
    (internal/core/virtualkey.go, internal/dataplane/dataplane.go). */
module Dataplane {
  import opened Wrappers
  import opened Text
  import opened Arithmetic

  datatype Mode = Direct | Weighted

  /** A stored provider entry; weights are reals. */
  datatype Stored = Stored(provider: string, allowed: seq<string>, blocked: seq<string>, weight: real)

  datatype Config = Config(
    provider: string, weight: real, allowedModels: seq<string>, blockedModels: seq<string>,
    allowed: set<string>, blocked: set<string>, allowAll: bool)

  datatype Fault =
    | NoConfigs | DirectNeedsOne | EmptyProvider | DuplicateProvider(provider: string)
    | WeightOutOfRange(provider: string)
    | EmptyBlocked(provider: string) | BlocksAll(provider: string) | EmptyModel(provider: string)
    | NoModels(provider: string) | BadTotal(total: real)

  const TOLERANCE := 0.000001

  // ---- What a stored list means.

  /** The first occurrences, in order, of the trimmed names. */
  function Names(raw: seq<string>): seq<string> {
    if raw == [] then []
    else
      var front, name := Names(raw[..|raw| - 1]), TrimSpace(raw[|raw| - 1]);
      if name in front then front else front + [name]
  }

  function WeightOf(mode: Mode, s: Stored): real { if mode == Direct then 1.0 else s.weight }

  function Compiled(mode: Mode, s: Stored): Config {
    var allowed, blocked := Names(s.allowed), Names(s.blocked);
    Config(TrimSpace(s.provider), WeightOf(mode, s), allowed, blocked,
           (set m | m in allowed), (set m | m in blocked), "*" in allowed)
  }

  function TotalWeight(configs: seq<Stored>): real {
    if configs == [] then 0.0 else TotalWeight(configs[..|configs| - 1]) + configs[|configs| - 1].weight
  }

  function Abs(x: real): real { if x < 0.0 then -x else x }

  /** One entry on its own. */
  predicate EntryOk(mode: Mode, s: Stored) {
    && TrimSpace(s.provider) != ""
    && (mode == Weighted ==> 0.0 <= s.weight <= 1.0)
    && (forall i :: 0 <= i < |s.blocked| ==> TrimSpace(s.blocked[i]) != "" && TrimSpace(s.blocked[i]) != "*")
    && (forall i :: 0 <= i < |s.allowed| ==> TrimSpace(s.allowed[i]) != "")
    && s.allowed != []
  }

  predicate Distinct(configs: seq<Stored>) {
    forall i, j :: 0 <= i < j < |configs| ==> TrimSpace(configs[i].provider) != TrimSpace(configs[j].provider)
  }

  predicate Acceptable(mode: Mode, configs: seq<Stored>) {
    && configs != [] && (mode == Direct ==> |configs| == 1)
    && Distinct(configs) && (forall i :: 0 <= i < |configs| ==> EntryOk(mode, configs[i]))
    && (mode == Weighted ==> Abs(TotalWeight(configs) - 1.0) <= TOLERANCE)
  }

  /** Why a list was refused. */
  ghost predicate Explains(f: Fault, mode: Mode, configs: seq<Stored>) {
    match f
    case NoConfigs => configs == []
    case DirectNeedsOne => mode == Direct && |configs| != 1
    case EmptyProvider => exists i :: 0 <= i < |configs| && TrimSpace(configs[i].provider) == ""
    case DuplicateProvider(p) =>
      exists i, j :: 0 <= i < j < |configs| && TrimSpace(configs[i].provider) == TrimSpace(configs[j].provider) == p
    case WeightOutOfRange(p) =>
      mode == Weighted && exists i :: At(configs, i, p) && !(0.0 <= configs[i].weight <= 1.0)
    case EmptyBlocked(p) => exists i :: At(configs, i, p) && HasName(configs[i].blocked, "")
    case BlocksAll(p) => exists i :: At(configs, i, p) && HasName(configs[i].blocked, "*")
    case EmptyModel(p) => exists i :: At(configs, i, p) && HasName(configs[i].allowed, "")
    case NoModels(p) => exists i :: At(configs, i, p) && configs[i].allowed == []
    case BadTotal(total) => mode == Weighted && total == TotalWeight(configs) && Abs(total - 1.0) > TOLERANCE
  }

  predicate HasName(raw: seq<string>, name: string) { exists k :: 0 <= k < |raw| && TrimSpace(raw[k]) == name }

  predicate At(configs: seq<Stored>, i: int, p: string) { 0 <= i < |configs| && TrimSpace(configs[i].provider) == p }

  lemma NamesStep(raw: seq<string>, i: nat)
    requires i < |raw|
    ensures Names(raw[..i + 1]) == var front, name := Names(raw[..i]), TrimSpace(raw[i]); if name in front then front
        else front + [name]
  {
    assert raw[..i + 1][..i] == raw[..i];
  }

  lemma {:induction false} NamesAreTheTrimmed(raw: seq<string>)
    ensures forall m :: m in Names(raw) <==> exists i :: 0 <= i < |raw| && TrimSpace(raw[i]) == m
    ensures Names(raw) == [] <==> raw == []
    ensures forall i, j :: 0 <= i < j < |Names(raw)| ==> Names(raw)[i] != Names(raw)[j]
  {
    if raw != [] {
      var front, last := raw[..|raw| - 1], raw[|raw| - 1];
      NamesAreTheTrimmed(front);
      assert forall i :: 0 <= i < |front| ==> raw[i] == front[i];
      assert TrimSpace(last) in Names(raw);
      forall m | m in Names(raw) ensures exists i :: 0 <= i < |raw| && TrimSpace(raw[i]) == m {
        if m in Names(front) {
          var i :| 0 <= i < |front| && TrimSpace(front[i]) == m;
          assert TrimSpace(raw[i]) == m;
        } else {
          assert TrimSpace(raw[|raw| - 1]) == m;
        }
      }
    }
  }

  // ---- The compiler.

  /** The blocked names of one entry, or the fault in them. */
  method CompileBlocked(provider: string, raw: seq<string>) returns (r: Result<seq<string>, Fault>)
    ensures r.Ok? <==> forall i :: 0 <= i < |raw| ==> TrimSpace(raw[i]) != "" && TrimSpace(raw[i]) != "*"
    ensures r.Ok? ==> r.value == Names(raw)
    ensures r.Err? ==> r.error == EmptyBlocked(provider) || r.error == BlocksAll(provider)
    ensures r.Err? ==> exists i :: 0 <= i < |raw| && TrimSpace(raw[i]) == if r.error.BlocksAll? then "*" else ""
  {
    var names := [];
    for i := 0 to |raw|
      invariant names == Names(raw[..i])
      invariant forall k :: 0 <= k < i ==> TrimSpace(raw[k]) != "" && TrimSpace(raw[k]) != "*"
    {
      var model := TrimSpace(raw[i]);
      if model == "" { return Err(EmptyBlocked(provider)); }
      if model == "*" { return Err(BlocksAll(provider)); }
      NamesStep(raw, i);
      if model !in names { names := names + [model]; }
    }
    assert raw[..|raw|] == raw;
    return Ok(names);
  }

  method CompileAllowed(provider: string, raw: seq<string>) returns (r: Result<seq<string>, Fault>, allowAll: bool)
    ensures r.Ok? <==> raw != [] && forall i :: 0 <= i < |raw| ==> TrimSpace(raw[i]) != ""
    ensures r.Ok? ==> r.value == Names(raw) && (allowAll <==> "*" in Names(raw))
    ensures r.Err? ==> r.error == if raw == [] then NoModels(provider) else EmptyModel(provider)
  {
    var names := [];
    allowAll := false;
    for i := 0 to |raw|
      invariant names == Names(raw[..i])
      invariant allowAll <==> "*" in names
      invariant forall k :: 0 <= k < i ==> TrimSpace(raw[k]) != ""
    {
      var model := TrimSpace(raw[i]);
      if model == "" { return Err(EmptyModel(provider)), allowAll; }
      if model == "*" { allowAll := true; }
      NamesStep(raw, i);
      if model !in names { names := names + [model]; }
    }
    assert raw[..|raw|] == raw;
    NamesAreTheTrimmed(raw);
    if names == [] { return Err(NoModels(provider)), allowAll; }
    return Ok(names), allowAll;
  }

  method CompileEntry(mode: Mode, s: Stored) returns (r: Result<Config, Fault>)
    requires TrimSpace(s.provider) != "" && (mode == Weighted ==> 0.0 <= s.weight <= 1.0)
    ensures r.Ok? <==> EntryOk(mode, s)
    ensures r.Ok? ==> r.value == Compiled(mode, s)
    ensures r.Err? ==> Explains(r.error, mode, [s]) && !r.error.DirectNeedsOne?
    ensures r.Err? ==> r.error.EmptyBlocked? || r.error.BlocksAll? || r.error.EmptyModel? || r.error.NoModels?
  {
    var provider := TrimSpace(s.provider);
    assert At([s], 0, provider);
    var blocked := CompileBlocked(provider, s.blocked);
    if blocked.Err? { return Err(blocked.error); }
    var allowed, allowAll := CompileAllowed(provider, s.allowed);
    if allowed.Err? { return Err(allowed.error); }
    return Ok(Config(provider, WeightOf(mode, s), allowed.value, blocked.value,
                     (set m | m in allowed.value), (set m | m in blocked.value), allowAll));
  }

  /** A fault in one entry is a fault of the list. */
  lemma FaultOfEntry(f: Fault, mode: Mode, configs: seq<Stored>, i: nat)
    requires i < |configs| && Explains(f, mode, [configs[i]])
    requires f.EmptyBlocked? || f.BlocksAll? || f.EmptyModel? || f.NoModels?
    ensures Explains(f, mode, configs)
  {
    assert At([configs[i]], 0, f.provider);
    assert At(configs, i, f.provider);
  }

  /** What has been compiled after i entries. */
  ghost predicate Half(mode: Mode, configs: seq<Stored>, i: nat, runtime: seq<Config>, providers: set<string>) {
    && i <= |configs| && |runtime| == i && Distinct(configs[..i])
    && (forall k :: 0 <= k < i ==> runtime[k] == Compiled(mode, configs[k]) && EntryOk(mode, configs[k]))
    && (forall p :: p in providers <==> Seen(configs, i, p))
  }

  predicate Seen(configs: seq<Stored>, i: nat, p: string) {
    exists k :: 0 <= k < i <= |configs| && TrimSpace(configs[k].provider) == p
  }

  lemma SeenStep(configs: seq<Stored>, i: nat, p: string)
    requires i < |configs|
    ensures Seen(configs, i + 1, p) <==> Seen(configs, i, p) || p == TrimSpace(configs[i].provider)
  {
    if p == TrimSpace(configs[i].provider) { assert TrimSpace(configs[i].provider) == p; }
  }

  lemma HalfStep(mode: Mode, configs: seq<Stored>, i: nat, runtime: seq<Config>, providers: set<string>)
    requires i < |configs| && Half(mode, configs, i, runtime, providers) && EntryOk(mode, configs[i])
    requires TrimSpace(configs[i].provider) !in providers
    ensures Half(mode, configs, i + 1, runtime + [Compiled(mode, configs[i])], providers
        + {TrimSpace(configs[i].provider)})
  {
    var provider := TrimSpace(configs[i].provider);
    forall p ensures p in providers + {provider} <==> Seen(configs, i + 1, p) {
      SeenStep(configs, i, p);
    }
    DistinctStep(configs, i);
  }

  lemma DistinctStep(configs: seq<Stored>, i: nat)
    requires i < |configs| && Distinct(configs[..i]) && !Seen(configs, i, TrimSpace(configs[i].provider))
    ensures Distinct(configs[..i + 1])
  {
    var next := configs[..i + 1];
    forall k, l | 0 <= k < l < |next| ensures TrimSpace(next[k].provider) != TrimSpace(next[l].provider) {
      assert next[k] == configs[..i][k];
      if l < i { assert next[l] == configs[..i][l]; }
    }
  }

  lemma Duplicated(mode: Mode, configs: seq<Stored>, i: nat, runtime: seq<Config>, providers: set<string>)
    requires i < |configs| && Half(mode, configs, i, runtime, providers) && TrimSpace(configs[i].provider) in providers
    ensures Explains(DuplicateProvider(TrimSpace(configs[i].provider)), mode, configs) && !Distinct(configs)
  {
    var k :| 0 <= k < i && TrimSpace(configs[k].provider) == TrimSpace(configs[i].provider);
  }

  /** The compiler accepts exactly the acceptable lists, compiles each entry to its
      meaning, and names a fault the list really has. */
  method CompileProviderConfigs(mode: Mode, configs: seq<Stored>) returns (r: Result<seq<Config>, Fault>)
    ensures r.Ok? <==> Acceptable(mode, configs)
    ensures r.Ok? ==> |r.value| == |configs| && forall i :: 0 <= i < |configs| ==>
        r.value[i] == Compiled(mode, configs[i])
    ensures r.Err? ==> Explains(r.error, mode, configs)
  {
    if |configs| == 0 { return Err(NoConfigs); }
    if mode == Direct && |configs| != 1 { return Err(DirectNeedsOne); }
    var runtime: seq<Config> := [];
    var providers: set<string> := {};
    var total := 0.0;
    for i := 0 to |configs|
      invariant Half(mode, configs, i, runtime, providers)
      invariant mode == Weighted ==> total == TotalWeight(configs[..i])
    {
      var provider := TrimSpace(configs[i].provider);
      assert At(configs, i, provider);
      if provider == "" { return Err(EmptyProvider); }
      if provider in providers {
        Duplicated(mode, configs, i, runtime, providers);
        return Err(DuplicateProvider(provider));
      }
      if mode == Weighted {
        if configs[i].weight < 0.0 || configs[i].weight > 1.0 { return Err(WeightOutOfRange(provider)); }
        assert configs[..i + 1][..i] == configs[..i];
        total := total + configs[i].weight;
      }
      var entry := CompileEntry(mode, configs[i]);
      if entry.Err? {
        FaultOfEntry(entry.error, mode, configs, i);
        return Err(entry.error);
      }
      HalfStep(mode, configs, i, runtime, providers);
      providers := providers + {provider};
      runtime := runtime + [entry.value];
    }
    assert configs[..|configs|] == configs;
    if mode == Weighted && Abs(total - 1.0) > TOLERANCE { return Err(BadTotal(total)); }
    return Ok(runtime);
  }

  // ---- What a compiled policy allows.

  predicate IsModelAllowed(c: Config, provider: string, model: string) {
    provider == c.provider && model != "" && model !in c.blocked && (c.allowAll || model in c.allowed)
  }

  /** Read off the stored entry: not blocked, and listed or everything listed. */
  ghost predicate Permits(s: Stored, provider: string, model: string) {
    && TrimSpace(s.provider) == provider && model != ""
    && (forall i :: 0 <= i < |s.blocked| ==> TrimSpace(s.blocked[i]) != model)
    && (exists i :: 0 <= i < |s.allowed| && TrimSpace(s.allowed[i]) in {model, "*"})
  }

  lemma AllowedMeansPermitted(mode: Mode, s: Stored, provider: string, model: string)
    ensures IsModelAllowed(Compiled(mode, s), provider, model) <==> Permits(s, provider, model)
  {
    NamesAreTheTrimmed(s.allowed);
    NamesAreTheTrimmed(s.blocked);
    if Permits(s, provider, model) {
      var i :| 0 <= i < |s.allowed| && TrimSpace(s.allowed[i]) in {model, "*"};
      assert TrimSpace(s.allowed[i]) in Names(s.allowed);
    }
    if IsModelAllowed(Compiled(mode, s), provider, model) {
      var m := if model in Names(s.allowed) then model else "*";
      assert m in Names(s.allowed);
    }
  }

  /** A named provider must allow the model itself; without one any provider will do. */
  method IsModelKeyAllowed(configs: seq<Config>, provider: string, model: string) returns (ok: bool)
    requires forall i, j :: 0 <= i < j < |configs| ==> configs[i].provider != configs[j].provider
    ensures ok <==> exists i :: 0 <= i < |configs| && (provider == "" || provider == configs[i].provider)
                                && IsModelAllowed(configs[i], configs[i].provider, model)
  {
    for i := 0 to |configs|
      invariant forall k :: 0 <= k < i ==>
        !((provider == "" || provider == configs[k].provider) && IsModelAllowed(configs[k], configs[k].provider, model))
    {
      if provider == "" {
        if IsModelAllowed(configs[i], configs[i].provider, model) { return true; }
      } else if configs[i].provider == provider {
        return IsModelAllowed(configs[i], provider, model);
      }
    }
    return false;
  }

  // ---- The weighted choice.

  /** What the providers before position i weigh, of those that are viable. */
  function Before(configs: seq<Config>, viable: set<string>, i: nat): real
    requires i <= |configs|
  {
    if i == 0 then 0.0
    else Before(configs, viable, i - 1) + if configs[i - 1].provider in viable then configs[i - 1].weight else 0.0
  }

  /** Position i's share of the line. */
  predicate Covers(configs: seq<Config>, viable: set<string>, i: nat, t: real) {
    && i < |configs| && configs[i].provider in viable
    && Before(configs, viable, i) <= t < Before(configs, viable, i) + configs[i].weight
  }

  predicate NonNegative(configs: seq<Config>) { forall i :: 0 <= i < |configs| ==> configs[i].weight >= 0.0 }

  lemma {:induction false} BeforeGrows(configs: seq<Config>, viable: set<string>, i: nat, j: nat)
    requires NonNegative(configs) && i <= j <= |configs|
    ensures Before(configs, viable, i) <= Before(configs, viable, j)
  {
    if i < j { BeforeGrows(configs, viable, i, j - 1); }
  }

  lemma {:induction false} SomeShareCovers(configs: seq<Config>, viable: set<string>, n: nat, t: real) returns (i: nat)
    requires NonNegative(configs) && n <= |configs| && 0.0 <= t < Before(configs, viable, n)
    ensures i < n && Covers(configs, viable, i, t)
  {
    if t < Before(configs, viable, n - 1) { i := SomeShareCovers(configs, viable, n - 1, t); } else { i := n - 1; }
  }

  /** The shares of the viable providers cut [0, total) into disjoint pieces, each as
      long as its weight. */
  lemma SharesPartition(configs: seq<Config>, viable: set<string>, t: real)
    requires NonNegative(configs)
    ensures 0.0 <= t < Before(configs, viable, |configs|) <==> exists i: nat :: Covers(configs, viable, i, t)
    ensures forall i: nat, j: nat :: Covers(configs, viable, i, t) && Covers(configs, viable, j, t) ==> i == j
  {
    if 0.0 <= t < Before(configs, viable, |configs|) {
      var i := SomeShareCovers(configs, viable, |configs|, t);
    }
    forall i: nat | Covers(configs, viable, i, t) ensures 0.0 <= t < Before(configs, viable, |configs|) {
      BeforeGrows(configs, viable, 0, i);
      BeforeGrows(configs, viable, i + 1, |configs|);
    }
    forall i: nat, j: nat | i < j && Covers(configs, viable, i, t) && Covers(configs, viable, j, t) ensures false {
      BeforeGrows(configs, viable, i + 1, j);
    }
  }

  predicate LastViable(configs: seq<Config>, viable: set<string>, provider: string) {
    exists i :: 0 <= i < |configs| && configs[i].provider == provider && provider in viable
                && forall j :: i < j < |configs| ==> configs[j].provider !in viable
  }

  /** What drawing a target on the line of shares picks: the provider whose share it
      is; with no weight at all the last viable provider; with none viable, nothing. */
  ghost predicate Picked(configs: seq<Config>, viable: set<string>, t: real, provider: string) {
    var total := Before(configs, viable, |configs|);
    if total > 0.0 then exists i: nat :: Covers(configs, viable, i, t) && provider == configs[i].provider
    else if exists i :: 0 <= i < |configs| && configs[i].provider in viable then LastViable(configs, viable, provider)
    else provider == ""
  }

  /** `u` is the random fraction. */
  method PickProvider(configs: seq<Config>, viable: set<string>, u: real) returns (provider: string)
    requires NonNegative(configs) && 0.0 <= u < 1.0
    ensures Picked(configs, viable, u * Before(configs, viable, |configs|), provider)
  {
    var total := 0.0;
    for i := 0 to |configs|
      invariant total == Before(configs, viable, i)
    {
      if configs[i].provider in viable { total := total + configs[i].weight; }
    }
    BeforeGrows(configs, viable, 0, |configs|);
    var target := Draw(u, total);
    provider := Walk(configs, viable, target);
  }

  /** Step over the shares until the target is used up. */
  method Walk(configs: seq<Config>, viable: set<string>, t: real) returns (provider: string)
    requires NonNegative(configs)
    requires var total := Before(configs, viable, |configs|); 0.0 <= t && (total > 0.0 ==> t < total)
    ensures Picked(configs, viable, t, provider)
  {
    var target, last := t, "";
    ghost var at: int := -1;
    for i := 0 to |configs|
      invariant target == t - Before(configs, viable, i) >= 0.0
      invariant -1 <= at < i && forall k :: at < k < i ==> configs[k].provider !in viable
      invariant if at < 0 then last == "" else configs[at].provider == last && last in viable
    {
      if configs[i].provider in viable {
        last, at := configs[i].provider, i;
        target := target - configs[i].weight;
        if target < 0.0 {
          assert Covers(configs, viable, i, t);
          BeforeGrows(configs, viable, i + 1, |configs|);
          return configs[i].provider;
        }
      }
    }
    BeforeGrows(configs, viable, 0, |configs|);
    return last;
  }

  /** A fraction of the whole line. */
  method Draw(u: real, total: real) returns (target: real)
    requires 0.0 <= u < 1.0 && total >= 0.0
    ensures target == u * total
    ensures 0.0 <= target && (total > 0.0 ==> target < total)
  {
    target := u * total;
    if total > 0.0 { Shrinks(u, total); }
  }

  lemma Shrinks(u: real, total: real)
    requires 0.0 <= u < 1.0 && total > 0.0
    ensures u * total < total
  {
    assert (1.0 - u) * total > 0.0;
    assert (1.0 - u) * total == total - u * total;
  }

  /** A provider of weight zero covers no target. */
  lemma ZeroWeightIsNeverPicked(configs: seq<Config>, viable: set<string>, i: nat, t: real)
    requires i < |configs| && configs[i].weight == 0.0
    ensures !Covers(configs, viable, i, t)
  {}

  lemma CompiledIsUsable(mode: Mode, configs: seq<Stored>, compiled: seq<Config>)
    requires Acceptable(mode, configs) && |compiled| == |configs|
    requires forall i :: 0 <= i < |configs| ==> compiled[i] == Compiled(mode, configs[i])
    ensures Usable(compiled)
  {
  }

  /** Compiled policies can always be drawn from, and their shares add up to one, within
      the tolerance, when every provider is viable. */
  lemma CompiledWeights(mode: Mode, configs: seq<Stored>, compiled: seq<Config>, viable: set<string>)
    requires Acceptable(mode, configs) && |compiled| == |configs|
    requires forall i :: 0 <= i < |configs| ==> compiled[i] == Compiled(mode, configs[i])
    ensures Usable(compiled)
    ensures (forall i :: 0 <= i < |compiled| ==> compiled[i].provider in viable)
              ==> Abs(Before(compiled, viable, |compiled|) - 1.0) <= TOLERANCE
  {
    CompiledIsUsable(mode, configs, compiled);
    if forall i :: 0 <= i < |compiled| ==> compiled[i].provider in viable {
      if mode == Weighted {
        AllViable(configs, compiled, viable, |configs|);
        assert configs[..|configs|] == configs;
      } else {
        assert Before(compiled, viable, 0) == 0.0 && Before(compiled, viable, 1) == 1.0;
      }
    }
  }

  lemma {:induction false} AllViable(configs: seq<Stored>, compiled: seq<Config>, viable: set<string>, n: nat)
    requires n <= |configs| == |compiled|
    requires forall i :: 0 <= i < |configs| ==>
        compiled[i] == Compiled(Weighted, configs[i]) && compiled[i].provider in viable
    ensures Before(compiled, viable, n) == TotalWeight(configs[..n])
  {
    if n > 0 {
      AllViable(configs, compiled, viable, n - 1);
      assert configs[..n][..n - 1] == configs[..n - 1];
    }
  }

  // ---- The choice of a credential.

  datatype Key = Key(provider: string, model: string, modelType: nat)

  const WRAP: nat := 0x1_0000_0000_0000_0000

  /** One cursor per key, made on first use; a counter of 64 bits. */
  class RoundRobin {
    var cursors: map<Key, nat>

    function Cursor(key: Key): nat
      reads this
    {
      if key in cursors then cursors[key] else 0
    }

    constructor ()
      ensures cursors == map[]
    {
      cursors := map[];
    }

    method Pick<C>(key: Key, creds: seq<C>) returns (chosen: Option<C>)
      modifies this
      ensures |creds| == 0 ==> chosen == None
      ensures |creds| == 1 ==> chosen == Some(creds[0])
      ensures |creds| >= 2 ==>
          Cursor(key) == (old(Cursor(key)) + 1) % WRAP && chosen == Some(creds[Cursor(key) % |creds|])
      ensures |creds| < 2 ==> cursors == old(cursors)
      ensures forall k :: k != key ==> Cursor(k) == old(Cursor(k))
    {
      if |creds| == 0 { return None; }
      if |creds| == 1 { return Some(creds[0]); }
      if key !in cursors { cursors := cursors[key := 0]; }
      var temp := (cursors[key] + 1) % WRAP;
      cursors := cursors[key := temp];
      return Some(creds[temp % |creds|]);
    }
  }

  /** The credential that pick number m after `start` takes among n. */
  function Turn(start: nat, n: nat, m: nat): nat
    requires n > 0
  {
    ((start + 1 + m) % WRAP) % n
  }

  /** Any n picks in a row among n credentials use each exactly once, unless the counter
      wraps in between and n does not divide its range. */
  lemma EachTurnOnce(start: nat, n: nat, j: nat) returns (k: nat)
    requires n > 0 && j < n
    requires start + n < WRAP || WRAP % n == 0
    ensures k < n && Turn(start, n, k) == j
    ensures forall m :: 0 <= m < n && Turn(start, n, m) == j ==> m == k
  {
    var r := (start + 1) % n;
    k := if j >= r then j - r else j + n - r;
    forall m: nat | m < n ensures Turn(start, n, m) == if r + m < n then r + m else r + m - n {
      TurnAt(start, n, m);
    }
  }

  lemma TurnAt(start: nat, n: nat, m: nat)
    requires m < n && (start + n < WRAP || WRAP % n == 0)
    ensures var r := (start + 1) % n; Turn(start, n, m) == if r + m < n then r + m else r + m - n
  {
    var c := start + 1;
    var q, r := c / n, c % n;
    if start + n >= WRAP { WrapKeepsTurn(c + m, n); }
    if r + m < n {
      Remainder(c + m, n, q, r + m);
    } else {
      assert n * (q + 1) == n * q + n;
      Remainder(c + m, n, q + 1, r + m - n);
    }
  }

  lemma WrapKeepsTurn(c: nat, n: nat)
    requires n > 0 && WRAP % n == 0
    ensures (c % WRAP) % n == c % n
  {
    var w, q := WRAP / n, c / WRAP;
    assert c == c % WRAP + (n * w) * q == c % WRAP + n * (w * q);
    AddMultiple(c % WRAP, n, w * q);
  }

  // ---- The whole resolution.

  datatype Refusal = NoPolicy | NoModel | NotConfigured | NoHealthyBackends

  datatype Route<C> = Route(key: Key, cred: C)

  predicate Configured(configs: seq<Config>, provider: string) {
    exists i :: 0 <= i < |configs| && configs[i].provider == provider
  }

  ghost predicate Serves<C>(configs: seq<Config>, candidates: Key -> seq<C>, key: Key, i: nat) {
    i < |configs| && candidates(key.(provider := configs[i].provider)) != []
  }

  /** The providers with a candidate for the key. */
  function Viable<C>(configs: seq<Config>, candidates: Key -> seq<C>, key: Key): set<string> {
    set i | 0 <= i < |configs| && candidates(key.(provider := configs[i].provider)) != [] :: configs[i].provider
  }

  /** The credential is the only one, or the one whose turn it is. */
  ghost predicate InTurn<C>(creds: seq<C>, before: nat, after: nat, cred: C) {
    if |creds| < 2 then creds == [cred] && after == before
    else after == (before + 1) % WRAP && cred == creds[after % |creds|]
  }

  /** The policies resolution can meet: compiled ones. */
  predicate Usable(configs: seq<Config>) {
    && NonNegative(configs)
    && (forall i :: 0 <= i < |configs| ==> configs[i].provider != "")
    && (forall i, j :: 0 <= i < j < |configs| ==> configs[i].provider != configs[j].provider)
  }

  method FindViable<C>(configs: seq<Config>, candidates: Key -> seq<C>, key: Key) returns (viable: set<string>)
    ensures viable == Viable(configs, candidates, key)
  {
    viable := {};
    for n := 0 to |configs|
      invariant viable == Viable(configs[..n], candidates, key)
    {
      if |candidates(key.(provider := configs[n].provider))| > 0 {
        viable := viable + {configs[n].provider};
      }
    }
    assert configs[..|configs|] == configs;
  }

  lemma ViableServe<C>(configs: seq<Config>, candidates: Key -> seq<C>, key: Key)
    ensures forall i: nat :: Serves(configs, candidates, key, i) ==>
              configs[i].provider in Viable(configs, candidates, key)
    ensures forall p :: p in Viable(configs, candidates, key) ==>
              exists i: nat :: Serves(configs, candidates, key, i) && configs[i].provider == p
  {
    forall p | p in Viable(configs, candidates, key)
      ensures exists i: nat :: Serves(configs, candidates, key, i) && configs[i].provider == p
    {
      var i :| 0 <= i < |configs| && candidates(key.(provider := configs[i].provider)) != []
               && configs[i].provider == p;
      assert Serves(configs, candidates, key, i);
    }
  }

  /** Weighted resolution fails only when no configured provider has a candidate, and
      otherwise takes one of a configured provider's own candidates. */
  method ResolveWeighted<C>(configs: seq<Config>, candidates: Key -> seq<C>, key: Key, u: real, balancer: RoundRobin)
    returns (r: Result<Route<C>, Refusal>)
    requires Usable(configs) && 0.0 <= u < 1.0
    modifies balancer
    ensures r.Err? <==> Viable(configs, candidates, key) == {}
    ensures r.Err? ==> r.error == NoHealthyBackends
    ensures r.Ok? ==> var viable := Viable(configs, candidates, key);
      && r.value.key.provider in viable && r.value.key == key.(provider := r.value.key.provider)
      && Drawn(configs, viable, u, r.value.key.provider)
    ensures forall k :: r.Ok? && k == r.value.key ==>
              InTurn(candidates(k), old(balancer.Cursor(k)), balancer.Cursor(k), r.value.cred)
    ensures forall k :: r.Err? || k != r.value.key ==> balancer.Cursor(k) == old(balancer.Cursor(k))
  {
    var viable := FindViable(configs, candidates, key);
    ViableServe(configs, candidates, key);
    if viable == {} { return Err(NoHealthyBackends); }
    var provider := PickViable(configs, viable, u);
    var named := key.(provider := provider);
    var chosen := balancer.Pick(named, candidates(named));
    if chosen.None? { return Err(NoHealthyBackends); }
    return Ok(Route(named, chosen.value));
  }

  /** The provider drawn by a random fraction of the whole line. */
  ghost predicate Drawn(configs: seq<Config>, viable: set<string>, u: real, provider: string) {
    Picked(configs, viable, u * Before(configs, viable, |configs|), provider)
  }

  method PickViable(configs: seq<Config>, viable: set<string>, u: real) returns (provider: string)
    requires Usable(configs) && 0.0 <= u < 1.0
    requires viable != {} && forall p :: p in viable ==> Configured(configs, p)
    ensures provider in viable && Drawn(configs, viable, u, provider)
  {
    var some: string :| some in viable;
    assert Configured(configs, some);
    provider := PickProvider(configs, viable, u);
    PickedIsViable(configs, viable, u * Before(configs, viable, |configs|), provider);
  }

  /** As long as one provider is viable, some viable provider is picked. */
  lemma PickedIsViable(configs: seq<Config>, viable: set<string>, t: real, provider: string)
    requires Usable(configs) && Picked(configs, viable, t, provider)
    ensures (exists i :: 0 <= i < |configs| && configs[i].provider in viable) ==> provider in viable && provider != ""
  {
    BeforeGrows(configs, viable, 0, |configs|);
  }

  /** A client that names a provider gets that provider or a refusal. */
  method ResolveExplicit<C>(configs: seq<Config>, candidates: Key -> seq<C>, key: Key, balancer: RoundRobin)
    returns (r: Result<Route<C>, Refusal>)
    modifies balancer
    ensures r.Ok? ==> r.value.key == key
    ensures r.Ok? ==> InTurn(candidates(key), old(balancer.Cursor(key)), balancer.Cursor(key), r.value.cred)
    ensures forall k :: r.Err? || k != key ==> balancer.Cursor(k) == old(balancer.Cursor(k))
    ensures r.Ok? <==> Configured(configs, key.provider) && candidates(key) != []
    ensures r.Err? ==> r.error == if Configured(configs, key.provider) then NoHealthyBackends else NotConfigured
  {
    if !Configured(configs, key.provider) { return Err(NotConfigured); }
    var chosen := balancer.Pick(key, candidates(key));
    if chosen.None? { return Err(NoHealthyBackends); }
    return Ok(Route(key, chosen.value));
  }

  method Resolve<C>(configs: seq<Config>, candidates: Key -> seq<C>, key: Key, u: real, balancer: RoundRobin)
    returns (r: Result<Route<C>, Refusal>)
    requires Usable(configs) && 0.0 <= u < 1.0
    modifies balancer
    ensures r.Ok? ==> key.(provider := r.value.key.provider) == r.value.key
    ensures r.Ok? ==> (key.provider != "" ==> r.value.key == key) && Configured(configs, r.value.key.provider)
    ensures r.Ok? && key.provider == "" ==>
              Drawn(configs, Viable(configs, candidates, key), u, r.value.key.provider)
    ensures forall k :: r.Ok? && k == r.value.key ==>
              InTurn(candidates(k), old(balancer.Cursor(k)), balancer.Cursor(k), r.value.cred)
    ensures forall k :: r.Err? || k != r.value.key ==> balancer.Cursor(k) == old(balancer.Cursor(k))
    ensures r.Err? ==>
      r.error == if |configs| == 0 then NoPolicy else if key.model == "" then NoModel
                 else if key.provider != "" && !Configured(configs, key.provider) then NotConfigured
                 else NoHealthyBackends
    ensures r.Ok? <==>
      key.model != ""
      && exists i: nat ::
           Serves(configs, candidates, key, i) && (key.provider == "" || key.provider == configs[i].provider)
  {
    if |configs| == 0 { return Err(NoPolicy); }
    if key.model == "" { return Err(NoModel); }
    if key.provider != "" {
      r := ResolveExplicit(configs, candidates, key, balancer);
      assert forall i: nat :: i < |configs| && configs[i].provider == key.provider ==>
        key.(provider := configs[i].provider) == key;
    } else {
      r := ResolveWeighted(configs, candidates, key, u, balancer);
      ViableServe(configs, candidates, key);
    }
  }
}
