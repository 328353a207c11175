/** Many claims and liquidity changes of one position, against one claim at the end. */
module RepeatedClaims {
  import opened FixedPoint
  import opened Coins
  import opened Folding
  import opened MapSums
  import opened AccumulatorState
  import opened UptimeAccumulator

  /** An uptime accumulator with the current tick and the positions. */
  datatype Held = Held(x: Uptime, tick: int, ps: Positions)

  /** The current tick moves to `tick`, `accrued` per share is added, and then the position
      claims, or, if `delta` is not zero, changes its liquidity. */
  datatype Touch = Touch(tick: int, accrued: DecCoins, delta: int)

  ghost predicate Fresh(h: Held, n: string)
    requires n in h.ps
  {
    forall d :: Amt(RecordOf(h.x.acc, n).snapshot, d) == GrowthIn(h.x, h.tick, h.ps[n].lower, h.ps[n].upper, d)
  }

  ghost predicate ReadyPair(y: (Held, string)) {
    UptimeAccumulator.Inv(y.0.x, y.0.tick, y.0.ps) && y.1 in y.0.ps && Fresh(y.0, y.1)
  }

  /** The contract between updates: the snapshot of the position is the growth inside its
      range at its last update; kept folded. */
  ghost predicate Ready(h: Held, n: string) { n in h.ps && Folded(ReadyPair)((h, n)) }

  lemma UnfoldReady(h: Held, n: string)
    ensures Ready(h, n) <==> UptimeAccumulator.Inv(h.x, h.tick, h.ps) && n in h.ps && Fresh(h, n)
  {
    Unfold(ReadyPair, (h, n));
  }

  ghost function Grow(h: Held, t: Touch): Held {
    Held(Accrue(CrossTo(h.x, h.tick, t.tick), t.accrued), t.tick, h.ps)
  }

  ghost function Settle(h: Held, n: string, delta: int): Held
    requires n in h.ps
  {
    if delta == 0 then
      var c := Collect(h.x, h.tick, n, h.ps[n]);
      if c.Ok? then h.(x := c.value.after) else h
    else
      var r := Resize(h.x, h.tick, n, h.ps[n], delta);
      if r.Ok? then Held(r.value, h.tick, h.ps[n := h.ps[n].(liquidity := h.ps[n].liquidity + delta)]) else h
  }

  /** What a settlement adds to the position's rewards. */
  ghost function Gain(h: Held, n: string, d: string): int
    requires n in h.ps
  {
    SettledIn(h.x, h.tick, h.ps, n, d) - Amt(RecordOf(h.x.acc, n).unclaimed, d)
  }

  ghost function StepPair(y: (Held, Touch, string)): Held {
    if y.2 in y.0.ps then Settle(Grow(y.0, y.1), y.2, y.1.delta) else y.0
  }

  /** One touch; kept folded. */
  ghost function Step(h: Held, t: Touch, n: string): Held { FoldedFn(StepPair)((h, t, n)) }

  ghost function GainTuple(y: (Held, Touch, string, string)): int {
    if y.2 in y.0.ps then Gain(Grow(y.0, y.1), y.2, y.3) else 0
  }

  /** What one touch adds to the position's rewards; kept folded. */
  ghost function StepGain(h: Held, t: Touch, n: string, d: string): int { FoldedFn(GainTuple)((h, t, n, d)) }

  /** The growth per share a touch brings to the range of the position. */
  function Reaching(pos: Position, t: Touch, d: string): int {
    if pos.lower <= t.tick < pos.upper then Amt(t.accrued, d) else 0
  }

  ghost predicate TouchOK(h: Held, t: Touch, n: string) {
    n in h.ps && !AnyNegative(t.accrued) && h.ps[n].liquidity + t.delta > 0
  }

  // --------------------------------------------------------------------------- one touch

  lemma GainIs(h: Held, n: string, d: string, g: int)
    requires n in h.ps && RecordOf(h.x.acc, n).shares == h.ps[n].liquidity
    requires GrowthIn(h.x, h.tick, h.ps[n].lower, h.ps[n].upper, d) == Amt(RecordOf(h.x.acc, n).snapshot, d) + g
    ensures Gain(h, n, d) == RoundHalfEven(g * h.ps[n].liquidity, ONE18)
  {
  }

  lemma GrowGrowth(h: Held, t: Touch, n: string, d: string)
    requires UptimeAccumulator.Inv(h.x, h.tick, h.ps) && TouchOK(h, t, n)
    ensures GrowthIn(Grow(h, t).x, t.tick, h.ps[n].lower, h.ps[n].upper, d)
         == GrowthIn(h.x, h.tick, h.ps[n].lower, h.ps[n].upper, d) + Reaching(h.ps[n], t, d)
  {
    var pos := h.ps[n];
    PlacedTicks(h.x, h.tick, h.ps, n);
    CrossGrowth(h.x, h.tick, t.tick, pos.lower, pos.upper, d);
    AccrueGrowth(CrossTo(h.x, h.tick, t.tick), t.tick, pos.lower, pos.upper, t.accrued, d);
  }

  lemma SharesAre(h: Held, n: string)
    requires UptimeAccumulator.Inv(h.x, h.tick, h.ps) && n in h.ps
    ensures RecordOf(h.x.acc, n).shares == h.ps[n].liquidity
  {
    FromInv(h.x, h.tick, h.ps);
    assert PlacedIn(h.x, h.ps[n], n);
  }

  /** Between two updates the growth inside the range is what reached it. */
  lemma GrowGains(h: Held, t: Touch, n: string, d: string)
    requires Ready(h, n) && TouchOK(h, t, n)
    ensures Gain(Grow(h, t), n, d) == RoundHalfEven(Reaching(h.ps[n], t, d) * h.ps[n].liquidity, ONE18)
  {
    assert UptimeAccumulator.Inv(h.x, h.tick, h.ps) && GrowthIn(h.x, h.tick, h.ps[n].lower, h.ps[n].upper, d) == Amt(RecordOf(h.x.acc, n).snapshot, d) by {
      UnfoldReady(h, n);
    }
    GrowGrowth(h, t, n, d);
    SharesAre(h, n);
    assert RecordOf(Grow(h, t).x.acc, n) == RecordOf(h.x.acc, n);
    GainIs(Grow(h, t), n, d, Reaching(h.ps[n], t, d));
  }

  lemma GrowInv(h: Held, t: Touch, n: string)
    requires UptimeAccumulator.Inv(h.x, h.tick, h.ps) && TouchOK(h, t, n)
    ensures UptimeAccumulator.Inv(Grow(h, t).x, t.tick, h.ps)
  {
    CrossKeeps(h.x, h.tick, t.tick, h.ps);
    AccrueInv(CrossTo(h.x, h.tick, t.tick), t.tick, h.ps, t.accrued);
  }

  lemma RerecordedFresh(h: Held, n: string, pos: Position, r: Record, total: int)
    requires FreshRecord(h.x, h.tick, pos, r)
    ensures Fresh(Held(Rerecorded(h.x, n, r, total), h.tick, h.ps[n := pos]), n)
  {
    forall d ensures GrowthIn(Rerecorded(h.x, n, r, total), h.tick, pos.lower, pos.upper, d) == GrowthIn(h.x, h.tick, pos.lower, pos.upper, d) {
      RerecordedBelow(h.x, h.tick, n, r, total, d);
    }
  }

  lemma ClaimReady(h: Held, n: string)
    requires UptimeAccumulator.Inv(h.x, h.tick, h.ps) && n in h.ps
    ensures Ready(Settle(h, n, 0), n) && Settle(h, n, 0).ps == h.ps
  {
    UnfoldReady(Settle(h, n, 0), n);
    CollectKeeps(h.x, h.tick, h.ps, n, "");
    CollectShape(h.x, h.tick, h.ps, n);
    RerecordedFresh(h, n, h.ps[n], ClaimedRecord(h.x, h.tick, h.ps[n]), h.x.acc.total);
    UpdateSelf(h.ps, n);
  }

  lemma ResizeReady(h: Held, n: string, delta: int)
    requires UptimeAccumulator.Inv(h.x, h.tick, h.ps) && n in h.ps && delta != 0 && h.ps[n].liquidity + delta > 0
    ensures Ready(Settle(h, n, delta), n)
    ensures Settle(h, n, delta).ps[n] == h.ps[n].(liquidity := h.ps[n].liquidity + delta)
  {
    UnfoldReady(Settle(h, n, delta), n);
    ResizeKeeps(h.x, h.tick, h.ps, n, delta, "");
    var rewards := ResizeShape(h.x, h.tick, h.ps, n, delta);
    RerecordedFresh(h, n, h.ps[n].(liquidity := h.ps[n].liquidity + delta),
                    ResizedRecord(h.x, h.tick, h.ps[n], delta, rewards), h.x.acc.total + delta);
  }

  /** Every claim and every liquidity change succeeds and leaves the snapshot at the growth
      inside the range. */
  lemma SettleReady(h: Held, n: string, delta: int)
    requires UptimeAccumulator.Inv(h.x, h.tick, h.ps) && n in h.ps && h.ps[n].liquidity + delta > 0
    ensures Ready(Settle(h, n, delta), n)
    ensures Settle(h, n, delta).ps[n] == h.ps[n].(liquidity := h.ps[n].liquidity + delta)
  {
    if delta == 0 {
      ClaimReady(h, n);
    } else {
      ResizeReady(h, n, delta);
    }
  }

  /** One touch keeps the contract, and adds the growth that reached the range since the last
      one, times the liquidity it had, rounded. */
  lemma StepKeeps(h: Held, t: Touch, n: string, d: string)
    requires Ready(h, n) && TouchOK(h, t, n)
    ensures Ready(Step(h, t, n), n)
    ensures Step(h, t, n).ps[n] == h.ps[n].(liquidity := h.ps[n].liquidity + t.delta)
    ensures StepGain(h, t, n, d) == RoundHalfEven(Reaching(h.ps[n], t, d) * h.ps[n].liquidity, ONE18)
  {
    UnfoldFn(StepPair, (h, t, n));
    UnfoldFn(GainTuple, (h, t, n, d));
    GrowGains(h, t, n, d);
    UnfoldReady(h, n);
    GrowInv(h, t, n);
    SettleReady(Grow(h, t), n, t.delta);
  }

  // -------------------------------------------------------------------------- many touches

  ghost function Touched(h: Held, n: string, ts: seq<Touch>, k: nat): Held
    requires k <= |ts|
  {
    if k == 0 then h else Step(Touched(h, n, ts, k - 1), ts[k - 1], n)
  }

  /** All that `k` touches add to the position's rewards, in units of 10^-18. */
  ghost function Gains(h: Held, n: string, ts: seq<Touch>, k: nat, d: string): int
    requires k <= |ts|
  {
    if k == 0 then 0 else Gains(h, n, ts, k - 1, d) + StepGain(Touched(h, n, ts, k - 1), ts[k - 1], n, d)
  }

  function LiquidityAfter(l: int, ts: seq<Touch>, k: nat): int
    requires k <= |ts|
  {
    if k == 0 then l else LiquidityAfter(l, ts, k - 1) + ts[k - 1].delta
  }

  /** The growth that reached the range, times the liquidity at that time, in units of 10^-36. */
  ghost function Entitled(pos: Position, ts: seq<Touch>, k: nat, d: string): int
    requires k <= |ts|
  {
    if k == 0 then 0 else
      Entitled(pos, ts, k - 1, d) + Reaching(pos, ts[k - 1], d) * LiquidityAfter(pos.liquidity, ts, k - 1)
  }

  ghost predicate TouchesOK(pos: Position, ts: seq<Touch>) {
    && (forall i {:trigger ts[i]} | 0 <= i < |ts| :: !AnyNegative(ts[i].accrued))
    && (forall i {:trigger LiquidityAfter(pos.liquidity, ts, i)} | 0 <= i <= |ts| :: LiquidityAfter(pos.liquidity, ts, i) > 0)
  }

  lemma SameReach(pos: Position, l: int, t: Touch, d: string)
    ensures Reaching(pos.(liquidity := l), t, d) == Reaching(pos, t, d)
  {
  }

  lemma {:induction false} TouchedReady(h: Held, n: string, ts: seq<Touch>, k: nat)
    requires Ready(h, n) && TouchesOK(h.ps[n], ts) && k <= |ts|
    ensures Ready(Touched(h, n, ts, k), n)
    ensures Touched(h, n, ts, k).ps[n] == h.ps[n].(liquidity := LiquidityAfter(h.ps[n].liquidity, ts, k))
  {
    if k > 0 {
      TouchedReady(h, n, ts, k - 1);
      assert LiquidityAfter(h.ps[n].liquidity, ts, k) > 0 && !AnyNegative(ts[k - 1].accrued);
      StepKeeps(Touched(h, n, ts, k - 1), ts[k - 1], n, "");
    }
  }

  /** Any mix of claims and liquidity changes adds up to what the position is entitled to,
      within half a unit of 10^-18 for each. */
  lemma {:induction false} Telescopes(h: Held, n: string, ts: seq<Touch>, k: nat, d: string)
    requires Ready(h, n) && TouchesOK(h.ps[n], ts) && k <= |ts|
    ensures -ONE18 * k <= 2 * (ONE18 * Gains(h, n, ts, k, d) - Entitled(h.ps[n], ts, k, d)) <= ONE18 * k
  {
    if k > 0 {
      Telescopes(h, n, ts, k - 1, d);
      var m, l := Touched(h, n, ts, k - 1), LiquidityAfter(h.ps[n].liquidity, ts, k - 1);
      TouchedReady(h, n, ts, k - 1);
      assert LiquidityAfter(h.ps[n].liquidity, ts, k) > 0 && !AnyNegative(ts[k - 1].accrued);
      StepKeeps(m, ts[k - 1], n, d);
      SameReach(h.ps[n], l, ts[k - 1], d);
      RoundNear(Reaching(h.ps[n], ts[k - 1], d) * l, ONE18);
    }
  }

  // ------------------------------------------------------------------------------ one claim

  /** The same growth without the settlements. */
  ghost function Grown(h: Held, ts: seq<Touch>, k: nat): Held
    requires k <= |ts|
  {
    if k == 0 then h else Grow(Grown(h, ts, k - 1), ts[k - 1])
  }

  ghost function Reached(pos: Position, ts: seq<Touch>, k: nat, d: string): int
    requires k <= |ts|
  {
    if k == 0 then 0 else Reached(pos, ts, k - 1, d) + Reaching(pos, ts[k - 1], d)
  }

  lemma {:induction false} GrownGrowth(h: Held, n: string, ts: seq<Touch>, k: nat, d: string)
    requires Ready(h, n) && k <= |ts| && forall i {:trigger ts[i]} | 0 <= i < |ts| :: !AnyNegative(ts[i].accrued) && ts[i].delta == 0
    ensures var g, pos := Grown(h, ts, k), h.ps[n];
            && g.ps == h.ps && UptimeAccumulator.Inv(g.x, g.tick, g.ps) && g.x.acc.positions == h.x.acc.positions
            && GrowthIn(g.x, g.tick, pos.lower, pos.upper, d) == GrowthIn(h.x, h.tick, pos.lower, pos.upper, d) + Reached(pos, ts, k, d)
  {
    UnfoldReady(h, n);
    if k > 0 {
      GrownGrowth(h, n, ts, k - 1, d);
      var m, t := Grown(h, ts, k - 1), ts[k - 1];
      assert !AnyNegative(ts[k - 1].accrued) && ts[k - 1].delta == 0;
      PlacedTicks(m.x, m.tick, m.ps, n);
      assert TouchOK(m, t, n);
      GrowInv(m, t, n);
      GrowGrowth(m, t, n, d);
    }
  }

  lemma {:induction false} EntitledOnce(pos: Position, ts: seq<Touch>, k: nat, d: string)
    requires k <= |ts| && forall i {:trigger ts[i]} | 0 <= i < |ts| :: ts[i].delta == 0
    ensures Entitled(pos, ts, k, d) == Reached(pos, ts, k, d) * pos.liquidity
    ensures LiquidityAfter(pos.liquidity, ts, k) == pos.liquidity
  {
    if k > 0 {
      EntitledOnce(pos, ts, k - 1, d);
      assert ts[k - 1].delta == 0;
      assert (Reached(pos, ts, k - 1, d) + Reaching(pos, ts[k - 1], d)) * pos.liquidity
          == Reached(pos, ts, k - 1, d) * pos.liquidity + Reaching(pos, ts[k - 1], d) * pos.liquidity;
    }
  }

  lemma ConstantLiquidity(h: Held, n: string, ts: seq<Touch>)
    requires Ready(h, n) && forall i {:trigger ts[i]} | 0 <= i < |ts| :: !AnyNegative(ts[i].accrued) && ts[i].delta == 0
    ensures TouchesOK(h.ps[n], ts)
  {
    UnfoldReady(h, n);
    PlacedTicks(h.x, h.tick, h.ps, n);
    forall i | 0 <= i <= |ts| ensures LiquidityAfter(h.ps[n].liquidity, ts, i) > 0 {
      EntitledOnce(h.ps[n], ts, i, "");
    }
  }

  /** `k` claims bring what one claim at the end would, within half a unit each. */
  lemma ManyClaimsOrOne(h: Held, n: string, ts: seq<Touch>, d: string)
    requires Ready(h, n) && forall i {:trigger ts[i]} | 0 <= i < |ts| :: !AnyNegative(ts[i].accrued) && ts[i].delta == 0
    ensures n in Grown(h, ts, |ts|).ps
    ensures -(|ts| + 1) <= 2 * (Gains(h, n, ts, |ts|, d) - Gain(Grown(h, ts, |ts|), n, d)) <= |ts| + 1
  {
    var g, k := Grown(h, ts, |ts|), |ts|;
    ConstantLiquidity(h, n, ts);
    Telescopes(h, n, ts, k, d);
    EntitledOnce(h.ps[n], ts, k, d);
    GrownGrowth(h, n, ts, k, d);
    UnfoldReady(h, n);
    SharesAre(h, n);
    GainIs(g, n, d, Reached(h.ps[n], ts, k, d));
    RoundNear(Reached(h.ps[n], ts, k, d) * h.ps[n].liquidity, ONE18);
    NearBoth(Gains(h, n, ts, k, d), Gain(g, n, d), Reached(h.ps[n], ts, k, d) * h.ps[n].liquidity, k);
  }

  lemma NearBoth(a: int, b: int, x: int, k: nat)
    requires -ONE18 * k <= 2 * (ONE18 * a - x) <= ONE18 * k
    requires -ONE18 <= 2 * (ONE18 * b - x) <= ONE18
    ensures -(k + 1) <= 2 * (a - b) <= k + 1
  {
  }
}
