/** What repeated claims of one position pay in whole coins, against what it gains. */
module ClaimPayouts {
  import opened FixedPoint
  import opened Coins
  import opened Folding
  import opened UptimeAccumulator
  import opened IncentivePool
  import opened IncentiveOps
  import opened RepeatedClaims

  /** One coin, in units of 10^-18 scaled coins. */
  function Coin(factor: int): int { factor * ONE18 }

  /** The coins a settlement pays: a claim's scaled down, a liquidity change none. */
  ghost function Payment(h: Held, n: string, delta: int, factor: int, d: string): int
    requires n in h.ps && factor > 0
  {
    var c := Collect(h.x, h.tick, n, h.ps[n]);
    if delta == 0 && c.Ok? then DescaledAmount(Amt(c.value.coins, d), factor) else 0
  }

  ghost function PaymentTuple(y: (Held, string, int, int, string)): int {
    if y.1 in y.0.ps && y.3 > 0 then Payment(y.0, y.1, y.2, y.3, y.4) else 0
  }

  /** `Payment`, kept folded. */
  ghost function Paying(h: Held, n: string, delta: int, factor: int, d: string): int { FoldedFn(PaymentTuple)((h, n, delta, factor, d)) }

  ghost function SettleTuple(y: (Held, string, int)): Held { if y.1 in y.0.ps then Settle(y.0, y.1, y.2) else y.0 }

  /** `Settle`, kept folded. */
  ghost function Settling(h: Held, n: string, delta: int): Held { FoldedFn(SettleTuple)((h, n, delta)) }

  ghost function StepPaidTuple(y: (Held, Touch, string, int, string)): int { Paying(Grow(y.0, y.1), y.2, y.1.delta, y.3, y.4) }

  /** The coins one touch pays; kept folded. */
  ghost function StepPaid(h: Held, t: Touch, n: string, factor: int, d: string): int { FoldedFn(StepPaidTuple)((h, t, n, factor, d)) }

  /** Rewards of the position that liquidity changes have set aside. */
  ghost function SetAside(h: Held, n: string, d: string): int { Amt(RecordOf(h.x.acc, n).unclaimed, d) }

  ghost predicate WholeCoins(y: (int, int, int)) { y.0 * y.1 <= y.2 < y.0 * (y.1 + 1) }

  /** `paid` is the number of whole coins in `due`; kept folded. */
  ghost predicate Pays(coin: int, paid: int, due: int) { Folded(WholeCoins)((coin, paid, due)) }

  lemma UnfoldPays(coin: int, paid: int, due: int)
    ensures Pays(coin, paid, due) <==> coin * paid <= due < coin * (paid + 1)
  {
    Unfold(WholeCoins, (coin, paid, due));
  }

  ghost predicate DroppedChange(y: (int, int, int, nat)) { 0 <= y.2 - y.0 * y.1 <= y.3 * (y.0 - 1) }

  /** `out` coins are `due` but for less than a coin for each of `c` claims; kept folded. */
  ghost predicate Drops(coin: int, out: int, due: int, c: nat) { Folded(DroppedChange)((coin, out, due, c)) }

  lemma UnfoldDrops(coin: int, out: int, due: int, c: nat)
    ensures Drops(coin, out, due, c) <==> 0 <= due - coin * out <= c * (coin - 1)
  {
    Unfold(DroppedChange, (coin, out, due, c));
  }

  /** A claim pays the whole coins of what was settled and drops the rest. */
  lemma PaymentIs(settled: int, factor: int)
    requires settled >= 0 && factor > 0
    ensures Pays(Coin(factor), DescaledAmount(Quo(settled, ONE18), factor), settled)
  {
    UnfoldPays(Coin(factor), settled / Coin(factor), settled);
    DivBounds(settled, ONE18, 0);
    DescaledIs(settled / ONE18, factor);
    DivDiv(settled, ONE18, factor);
    DivBounds(settled, Coin(factor), settled / Coin(factor));
    DivBounds(settled, Coin(factor), settled / Coin(factor) + 1);
  }

  lemma SettledParts(h: Held, n: string, d: string)
    requires UptimeAccumulator.Inv(h.x, h.tick, h.ps) && n in h.ps
    ensures SettledIn(h.x, h.tick, h.ps, n, d) == SetAside(h, n, d) + Gain(h, n, d) >= 0
  {
    SettledIsNear(h.x, h.tick, h.ps, n, d);
  }

  lemma ClaimPaysSettled(h: Held, n: string, factor: int, d: string)
    requires UptimeAccumulator.Inv(h.x, h.tick, h.ps) && n in h.ps && factor > 0
    ensures Paying(h, n, 0, factor, d) == DescaledAmount(Quo(SettledIn(h.x, h.tick, h.ps, n, d), ONE18), factor)
    ensures SetAside(Settling(h, n, 0), n, d) == 0
  {
    UnfoldFn(PaymentTuple, (h, n, 0, factor, d));
    UnfoldFn(SettleTuple, (h, n, 0));
    CollectShape(h.x, h.tick, h.ps, n);
  }

  lemma ClaimPays(h: Held, n: string, factor: int, d: string)
    requires UptimeAccumulator.Inv(h.x, h.tick, h.ps) && n in h.ps && factor > 0
    ensures SetAside(Settling(h, n, 0), n, d) == 0
    ensures Pays(Coin(factor), Paying(h, n, 0, factor, d), SetAside(h, n, d) + Gain(h, n, d))
  {
    SettledParts(h, n, d);
    ClaimPaysSettled(h, n, factor, d);
    PaymentIs(SettledIn(h.x, h.tick, h.ps, n, d), factor);
  }

  lemma ResizeSetsAside(h: Held, n: string, delta: int, factor: int, d: string)
    requires UptimeAccumulator.Inv(h.x, h.tick, h.ps) && n in h.ps && delta != 0 && h.ps[n].liquidity + delta > 0 && factor > 0
    ensures SetAside(Settling(h, n, delta), n, d) == SetAside(h, n, d) + Gain(h, n, d)
    ensures Paying(h, n, delta, factor, d) == 0
  {
    UnfoldFn(PaymentTuple, (h, n, delta, factor, d));
    UnfoldFn(SettleTuple, (h, n, delta));
    var rewards := ResizeShape(h.x, h.tick, h.ps, n, delta);
  }

  lemma StepSettles(h: Held, t: Touch, n: string, d: string)
    requires Ready(h, n) && TouchOK(h, t, n)
    ensures n in Grow(h, t).ps && Grow(h, t).ps[n] == h.ps[n] && UptimeAccumulator.Inv(Grow(h, t).x, Grow(h, t).tick, Grow(h, t).ps)
    ensures Step(h, t, n) == Settling(Grow(h, t), n, t.delta) && StepGain(h, t, n, d) == Gain(Grow(h, t), n, d)
    ensures SetAside(Grow(h, t), n, d) == SetAside(h, n, d)
  {
    UnfoldFn(StepPair, (h, t, n));
    UnfoldFn(GainTuple, (h, t, n, d));
    UnfoldFn(SettleTuple, (Grow(h, t), n, t.delta));
    assert UptimeAccumulator.Inv(h.x, h.tick, h.ps) by { UnfoldReady(h, n); }
    GrowInv(h, t, n);
  }

  /** One touch: a claim pays all that was set aside and gained but a fraction of a coin, and
      a liquidity change sets the gain aside. */
  lemma StepPays(h: Held, t: Touch, n: string, factor: int, d: string)
    requires Ready(h, n) && TouchOK(h, t, n) && factor > 0
    ensures var paid, due := StepPaid(h, t, n, factor, d), SetAside(h, n, d) + StepGain(h, t, n, d);
            if t.delta == 0 then SetAside(Step(h, t, n), n, d) == 0 && Pays(Coin(factor), paid, due)
            else SetAside(Step(h, t, n), n, d) == due && paid == 0
  {
    StepSettles(h, t, n, d);
    UnfoldFn(StepPaidTuple, (h, t, n, factor, d));
    if t.delta == 0 {
      ClaimPays(Grow(h, t), n, factor, d);
    } else {
      ResizeSetsAside(Grow(h, t), n, t.delta, factor, d);
    }
  }

  // --------------------------------------------------------------------------- many touches

  /** The coins the first `k` touches pay. */
  ghost function PaidOut(h: Held, n: string, ts: seq<Touch>, k: nat, factor: int, d: string): int
    requires k <= |ts|
  {
    if k == 0 then 0 else PaidOut(h, n, ts, k - 1, factor, d) + StepPaid(Touched(h, n, ts, k - 1), ts[k - 1], n, factor, d)
  }

  function Claims(ts: seq<Touch>, k: nat): nat
    requires k <= |ts|
  {
    if k == 0 then 0 else Claims(ts, k - 1) + if ts[k - 1].delta == 0 then 1 else 0
  }

  lemma OneMore(coin: int, out: int, paid: int, due: int, rest: int, c: nat)
    requires Drops(coin, out, rest, c) && Pays(coin, paid, due)
    ensures Drops(coin, out + paid, rest + due, c + 1)
  {
    UnfoldDrops(coin, out, rest, c);
    UnfoldPays(coin, paid, due);
    UnfoldDrops(coin, out + paid, rest + due, c + 1);
    assert coin * (paid + 1) == coin * paid + coin && coin * (out + paid) == coin * out + coin * paid;
    assert (c + 1) * (coin - 1) == c * (coin - 1) + coin - 1;
  }

  lemma {:induction false} ClaimsDrop(h: Held, n: string, ts: seq<Touch>, k: nat, factor: int, d: string)
    requires Ready(h, n) && TouchesOK(h.ps[n], ts) && k <= |ts| && factor > 0
    ensures Drops(Coin(factor), PaidOut(h, n, ts, k, factor, d),
                  SetAside(h, n, d) + Gains(h, n, ts, k, d) - SetAside(Touched(h, n, ts, k), n, d), Claims(ts, k))
  {
    if k == 0 {
      UnfoldDrops(Coin(factor), 0, 0, 0);
    } else {
      ClaimsDrop(h, n, ts, k - 1, factor, d);
      var m, t := Touched(h, n, ts, k - 1), ts[k - 1];
      TouchedReady(h, n, ts, k - 1);
      assert LiquidityAfter(h.ps[n].liquidity, ts, k) > 0 && !AnyNegative(ts[k - 1].accrued);
      StepPays(m, t, n, factor, d);
      if t.delta == 0 {
        OneMore(Coin(factor), PaidOut(h, n, ts, k - 1, factor, d), StepPaid(m, t, n, factor, d), SetAside(m, n, d) + StepGain(m, t, n, d),
                SetAside(h, n, d) + Gains(h, n, ts, k - 1, d) - SetAside(m, n, d), Claims(ts, k - 1));
      }
    }
  }

  /** Over any mix of claims and liquidity changes, all that is gained is paid or still set
      aside, but for less than one coin that every claim drops. */
  lemma ClaimsPay(h: Held, n: string, ts: seq<Touch>, k: nat, factor: int, d: string)
    requires Ready(h, n) && TouchesOK(h.ps[n], ts) && k <= |ts| && factor > 0
    ensures var due := SetAside(h, n, d) + Gains(h, n, ts, k, d) - SetAside(Touched(h, n, ts, k), n, d);
            0 <= due - Coin(factor) * PaidOut(h, n, ts, k, factor, d) <= Claims(ts, k) * (Coin(factor) - 1)
  {
    ClaimsDrop(h, n, ts, k, factor, d);
    UnfoldDrops(Coin(factor), PaidOut(h, n, ts, k, factor, d),
                SetAside(h, n, d) + Gains(h, n, ts, k, d) - SetAside(Touched(h, n, ts, k), n, d), Claims(ts, k));
  }

  // ------------------------------------------------------------------- many claims, or one

  ghost predicate OnlyClaims(ts: seq<Touch>) {
    forall i {:trigger ts[i]} | 0 <= i < |ts| :: !AnyNegative(ts[i].accrued) && ts[i].delta == 0
  }

  lemma {:induction false} AllClaims(h: Held, n: string, ts: seq<Touch>, k: nat, d: string)
    requires Ready(h, n) && OnlyClaims(ts) && TouchesOK(h.ps[n], ts) && 0 < k <= |ts|
    ensures Claims(ts, k) == k && SetAside(Touched(h, n, ts, k), n, d) == 0
  {
    if k > 1 {
      AllClaims(h, n, ts, k - 1, d);
    }
    TouchedReady(h, n, ts, k - 1);
    assert LiquidityAfter(h.ps[n].liquidity, ts, k) > 0 && !AnyNegative(ts[k - 1].accrued) && ts[k - 1].delta == 0;
    StepPays(Touched(h, n, ts, k - 1), ts[k - 1], n, 1, d);
  }

  /** With `k` claims against one, and gains that differ by half a unit each. */
  ghost predicate CloseCoins(coin: int, many: int, one: int, k: nat) {
    && 2 * (coin * (many - one)) <= 2 * (coin - 1) + k + 1
    && 2 * (coin * (one - many)) <= 2 * (k * (coin - 1)) + k + 1
    && (k < 2 * ONE18 ==> one - k <= many <= one + 1)
  }

  lemma CompareCoins(coin: int, due: int, one: int, many: int, gain: int, gains: int, k: nat)
    requires k >= 1 && coin >= ONE18 && Drops(coin, many, due + gains, k)
    requires Pays(coin, one, due + gain) && -(k + 1) <= 2 * (gains - gain) <= k + 1
    ensures CloseCoins(coin, many, one, k)
  {
    UnfoldDrops(coin, many, due + gains, k);
    UnfoldPays(coin, one, due + gain);
    assert coin * (one + 1) == coin * one + coin;
    assert coin * (many - one) == coin * many - coin * one && coin * (one - many) == coin * one - coin * many;
    if k < 2 * ONE18 {
      CoinsApart(coin, many - one, k, 1);
      CoinsApart(coin, one - many, k, k);
    }
  }

  lemma CoinsApart(coin: int, diff: int, k: nat, most: int)
    requires coin >= ONE18 && most >= 1 && 2 * (coin * diff) <= 2 * (most * (coin - 1)) + k + 1 && k + 1 <= 2 * ONE18
    ensures diff <= most
  {
    assert coin * (most + 1) == most * coin + coin && most * (coin - 1) == most * coin - most;
    if diff > most {
      MulMono(coin, most + 1, diff);
    }
  }

  lemma ManyDrop(h: Held, n: string, ts: seq<Touch>, factor: int, d: string)
    requires Ready(h, n) && OnlyClaims(ts) && ts != [] && factor > 0
    ensures Drops(Coin(factor), PaidOut(h, n, ts, |ts|, factor, d), SetAside(h, n, d) + Gains(h, n, ts, |ts|, d), |ts|)
  {
    ConstantLiquidity(h, n, ts);
    ClaimsDrop(h, n, ts, |ts|, factor, d);
    AllClaims(h, n, ts, |ts|, d);
  }

  lemma OnePays(h: Held, n: string, ts: seq<Touch>, factor: int, d: string)
    requires Ready(h, n) && OnlyClaims(ts) && factor > 0
    ensures var g := Grown(h, ts, |ts|);
            n in g.ps && Pays(Coin(factor), Paying(g, n, 0, factor, d), SetAside(h, n, d) + Gain(g, n, d))
  {
    GrownGrowth(h, n, ts, |ts|, d);
    LateClaimPays(h, Grown(h, ts, |ts|), n, factor, d);
  }

  lemma LateClaimPays(h: Held, g: Held, n: string, factor: int, d: string)
    requires UptimeAccumulator.Inv(g.x, g.tick, g.ps) && n in g.ps && g.x.acc.positions == h.x.acc.positions && factor > 0
    ensures Pays(Coin(factor), Paying(g, n, 0, factor, d), SetAside(h, n, d) + Gain(g, n, d))
  {
    ClaimPays(g, n, factor, d);
  }

  /** `k` claims in a row pay at most one coin more than one claim at the end would, and at
      most `k` coins less: the exact bounds, and in coins for fewer than 2 * 10^18 claims. */
  lemma ManyPaymentsOrOne(h: Held, n: string, ts: seq<Touch>, factor: int, d: string)
    requires Ready(h, n) && OnlyClaims(ts) && ts != [] && factor > 0
    ensures n in Grown(h, ts, |ts|).ps
    ensures CloseCoins(Coin(factor), PaidOut(h, n, ts, |ts|, factor, d), Paying(Grown(h, ts, |ts|), n, 0, factor, d), |ts|)
  {
    var due, gain, gains, many, one := ClaimFacts(h, n, ts, factor, d);
    MulMono(ONE18, 1, factor);
    CompareCoins(Coin(factor), due, one, many, gain, gains, |ts|);
  }

  lemma ClaimFacts(h: Held, n: string, ts: seq<Touch>, factor: int, d: string) returns (due: int, gain: int, gains: int, many: int, one: int)
    requires Ready(h, n) && OnlyClaims(ts) && ts != [] && factor > 0
    ensures n in Grown(h, ts, |ts|).ps
    ensures many == PaidOut(h, n, ts, |ts|, factor, d) && one == Paying(Grown(h, ts, |ts|), n, 0, factor, d)
    ensures Drops(Coin(factor), many, due + gains, |ts|) && Pays(Coin(factor), one, due + gain)
    ensures -(|ts| + 1) <= 2 * (gains - gain) <= |ts| + 1
  {
    ManyDrop(h, n, ts, factor, d);
    OnePays(h, n, ts, factor, d);
    ManyClaimsOrOne(h, n, ts, d);
    var g := Grown(h, ts, |ts|);
    due, gain, gains := SetAside(h, n, d), Gain(g, n, d), Gains(h, n, ts, |ts|, d);
    many, one := PaidOut(h, n, ts, |ts|, factor, d), Paying(g, n, 0, factor, d);
  }

  ghost predicate SmallTuple(y: (Position, Touch, int, string)) {
    RoundHalfEven(Reaching(y.0, y.1, y.3) * y.0.liquidity, ONE18) < Coin(y.2)
  }

  /** What the touch brings to the position is worth less than a coin; kept folded. */
  ghost predicate Small(pos: Position, t: Touch, factor: int, d: string) { Folded(SmallTuple)((pos, t, factor, d)) }

  lemma SmallClaimPaysNothing(h: Held, t: Touch, n: string, factor: int, d: string)
    requires Ready(h, n) && TouchOK(h, t, n) && t.delta == 0 && factor > 0 && SetAside(h, n, d) == 0
    requires Small(h.ps[n], t, factor, d)
    ensures StepPaid(h, t, n, factor, d) == 0
  {
    Unfold(SmallTuple, (h.ps[n], t, factor, d));
    StepKeeps(h, t, n, d);
    StepPays(h, t, n, factor, d);
    StepSettles(h, t, n, d);
    SettledParts(Grow(h, t), n, d);
    NoCoin(Coin(factor), StepPaid(h, t, n, factor, d), StepGain(h, t, n, d));
  }

  /** The loss is real: claims worth less than a coin each pay nothing, however many there
      are, while one claim at the end pays the whole coins of all of it. */
  lemma {:induction false} SmallClaimsPayNothing(h: Held, n: string, ts: seq<Touch>, k: nat, factor: int, d: string)
    requires Ready(h, n) && OnlyClaims(ts) && TouchesOK(h.ps[n], ts) && k <= |ts| && factor > 0 && SetAside(h, n, d) == 0
    requires forall i {:trigger ts[i]} | 0 <= i < |ts| :: Small(h.ps[n], ts[i], factor, d)
    ensures PaidOut(h, n, ts, k, factor, d) == 0
  {
    if k > 0 {
      SmallClaimsPayNothing(h, n, ts, k - 1, factor, d);
      var m, t := Touched(h, n, ts, k - 1), ts[k - 1];
      TouchedReady(h, n, ts, k - 1);
      if k > 1 {
        AllClaims(h, n, ts, k - 1, d);
      }
      EntitledOnce(h.ps[n], ts, k - 1, d);
      assert LiquidityAfter(h.ps[n].liquidity, ts, k) > 0 && !AnyNegative(ts[k - 1].accrued) && ts[k - 1].delta == 0;
      SmallClaimPaysNothing(m, t, n, factor, d);
    }
  }

  lemma NoCoin(coin: int, paid: int, due: int)
    requires coin > 0 && Pays(coin, paid, due) && 0 <= due < coin
    ensures paid == 0
  {
    UnfoldPays(coin, paid, due);
    if paid >= 1 {
      MulMono(coin, 1, paid);
    } else if paid <= -1 {
      MulMono(coin, paid + 1, 0);
    }
  }
}
