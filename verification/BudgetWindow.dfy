/** Admission and window arithmetic of one budget (internal/governance/budget.go).
    Times and durations are integers on one scale; spend is nano-USD. */
module BudgetWindow {
  import opened Arithmetic
  import opened Wrappers

  datatype Config = Config(limit: int, enforce: Option<bool>, refreshedAt: int, duration: int)

  predicate Enforced(cfg: Config) {
    cfg.limit != 0 && cfg.enforce != Some(false)
  }

  /** The budget check a request passes before it is forwarded. */
  predicate Admits(cfg: Config, windowCost: int) {
    !Enforced(cfg) || windowCost < cfg.limit
  }

  /** Start of the window that `now` falls into, when the current one is over. */
  function ResetTarget(cfg: Config, now: int): (target: Option<int>) {
    if cfg.duration <= 0 || now - cfg.refreshedAt < cfg.duration then None
    else Some(cfg.refreshedAt + (now - cfg.refreshedAt) / cfg.duration * cfg.duration)
  }

  /** No target exactly while the current window still runs; and of the later
      window starts, the target is the one whose window contains `now`. */
  lemma TargetIsTheWindowOfNow(cfg: Config, now: int, k: nat)
    requires cfg.duration > 0 ==> k >= 1
    ensures ResetTarget(cfg, now).None? <==> cfg.duration <= 0 || now < cfg.refreshedAt + cfg.duration
    ensures var start := cfg.refreshedAt + k * cfg.duration;
            cfg.duration > 0 ==>
              (ResetTarget(cfg, now) == Some(start) <==> start <= now < start + cfg.duration)
  {
    var elapsed, d := now - cfg.refreshedAt, cfg.duration;
    if d > 0 {
      AtLeast(k, d);
      if k * d <= elapsed < k * d + d {
        QuotientIs(elapsed, d, k);
      }
    }
  }

  // ---- A configuration that names an older window.

  /** The end of the configuration's window that contains `t`. */
  function WindowEnd(cfg: Config, t: int): int
    requires cfg.duration > 0
  {
    cfg.refreshedAt + ((t - cfg.refreshedAt) / cfg.duration + 1) * cfg.duration
  }

  /** The configuration asks for a roll at `now`, yet its window that holds the row's
      start is not over. */
  predicate Repeats(cfg: Config, rowStart: int, now: int) {
    cfg.duration > 0 && cfg.refreshedAt + cfg.duration <= now < WindowEnd(cfg, rowStart)
  }

  /** A roll leads to no later window than the row's exactly then. */
  lemma TargetRepeatsExactly(cfg: Config, rowStart: int, now: int)
    ensures ResetTarget(cfg, now).Some? && ResetTarget(cfg, now).value <= rowStart <==> Repeats(cfg, rowStart, now)
  {
    var d := cfg.duration;
    if d > 0 {
      var q, w := (now - cfg.refreshedAt) / d, (rowStart - cfg.refreshedAt) / d;
      assert now - cfg.refreshedAt == q * d + (now - cfg.refreshedAt) % d;
      assert rowStart - cfg.refreshedAt == w * d + (rowStart - cfg.refreshedAt) % d;
      assert (w + 1) * d == w * d + d;
      if q <= w { TimesGrows(q, w, d); } else { TimesGrows(w + 1, q, d); }
      TargetIsTheWindowOfNow(cfg, now, 1);
    }
  }

  /** For a configuration j windows behind the row: at least one behind, while the row's
      window runs. */
  lemma WindowsBehind(cfg: Config, rowStart: int, j: nat, now: int)
    requires cfg.duration > 0 && rowStart == cfg.refreshedAt + j * cfg.duration && now >= rowStart
    ensures Repeats(cfg, rowStart, now) <==> j >= 1 && now < rowStart + cfg.duration
  {
    var d := cfg.duration;
    QuotientIs(rowStart - cfg.refreshedAt, d, j);
    assert (j + 1) * d == j * d + d;
    if j >= 1 { AtLeast(j, d); }
  }

  /** Window start after one settle tick at `now`. */
  function Rolled(start: int, duration: int, now: int): int {
    match ResetTarget(Config(0, None, start, duration), now)
    case None => start
    case Some(target) => target
  }

  /** One settle tick: when it ran, and whether its database writes succeeded. */
  datatype Tick = Tick(now: int, ok: bool)

  /** Window start after a run of ticks; a tick whose write fails rolls nothing. */
  function WindowAfter(start: int, duration: int, ticks: seq<Tick>): int {
    if ticks == [] then start
    else
      var before := WindowAfter(start, duration, ticks[..|ticks| - 1]);
      var t := ticks[|ticks| - 1];
      if t.ok then Rolled(before, duration, t.now) else before
  }

  ghost predicate InOrder(ticks: seq<Tick>) {
    forall i, j :: 0 <= i <= j < |ticks| ==> ticks[i].now <= ticks[j].now
  }

  lemma RollTwiceIsRollOnce(start: int, duration: int, first: int, second: int)
    requires first <= second
    ensures Rolled(Rolled(start, duration, first), duration, second) == Rolled(start, duration, second)
  {
    var d := duration;
    if d > 0 && first - start >= d {
      var k, q := (first - start) / d, (second - start) / d;
      var mid := start + k * d;
      QuotientAfter(second - start, d, k);
      assert (second - mid) / d == q - k;
      assert mid + (q - k) * d == start + q * d by { assert (q - k) * d == q * d - k * d; }
      if second - mid < d { QuotientIs(second - mid, d, 0); }
    }
  }

  lemma QuotientAfter(n: int, d: int, k: int)
    requires d > 0
    ensures (n - k * d) / d == n / d - k
  {
    var q, r := n / d, n % d;
    assert (q - k) * d == q * d - k * d;
    QuotientIs(n - k * d, d, q - k);
  }

  /** Path independence: whatever ticks ran, and whichever of them failed, one
      final success leaves the window where a single roll would have put it. */
  lemma {:induction false} RollsArePathIndependent(start: int, duration: int, ticks: seq<Tick>)
    requires ticks != [] && InOrder(ticks) && ticks[|ticks| - 1].ok
    ensures WindowAfter(start, duration, ticks) == Rolled(start, duration, ticks[|ticks| - 1].now)
  {
    RollAbsorbsEarlierTicks(start, duration, ticks[..|ticks| - 1], ticks[|ticks| - 1].now);
  }

  lemma {:induction false} RollAbsorbsEarlierTicks(start: int, duration: int, ticks: seq<Tick>, now: int)
    requires InOrder(ticks)
    requires ticks != [] ==> ticks[|ticks| - 1].now <= now
    ensures Rolled(WindowAfter(start, duration, ticks), duration, now) == Rolled(start, duration, now)
  {
    if ticks != [] {
      var init, t := ticks[..|ticks| - 1], ticks[|ticks| - 1];
      RollTwiceIsRollOnce(WindowAfter(start, duration, init), duration, t.now, now);
      RollAbsorbsEarlierTicks(start, duration, init, now);
    }
  }
}
