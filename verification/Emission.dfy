/** Emission of incentive records into the uptime accumulators. */
module Emission {
  import opened FixedPoint
  import opened Coins
  import opened Folding
  import opened Options

  /** One incentive record; `remaining` and `rate` are decimals, times are in nanoseconds. */
  datatype Incentive = Incentive(id: nat, uptime: nat, denom: string, remaining: int, rate: int, start: int)

  /** The supported uptimes: 1ns, 1m, 1h, 1d, 7d and 14d. */
  const UPTIMES: seq<int> :=
    [1, 60_000_000_000, 3_600_000_000_000, 86_400_000_000_000, 604_800_000_000_000, 1_209_600_000_000_000]

  /** 2^315: decimals of more than 315 bits make multiplication panic. */
  const DEC_LIMIT: int := 0x8000000000000000000000000000000000000000000000000000000000000000000000000000000

  predicate Overflows(x: int) { x >= DEC_LIMIT }

  /** Elapsed nanoseconds as decimal seconds; the division by 10^9 is exact. */
  function Seconds(nanos: int): int { nanos * 1_000_000_000 }

  /** `computeTotalIncentivesToEmit`; `None` on overflow. */
  function ToEmit(elapsed: int, rate: int): Option<int> {
    var x := Quo(elapsed * rate, ONE18);
    if Overflows(x) then None else Some(x)
  }

  /** `scaleUpTotalEmittedAmount` by the decimal `factor`; `None` on overflow. */
  function ScaleUp(x: int, factor: int): Option<int> {
    var y := Quo(x * (factor * ONE18), ONE18);
    if Overflows(y) then None else Some(y)
  }

  /** `QuoTruncate` by the liquidity. */
  function PerLiquidity(x: int, liquidity: int): int
    requires liquidity > 0
  {
    Quo(x * ONE18, liquidity)
  }

  datatype Emitted = Emitted(perLiquidity: int, record: Incentive)

  datatype Context = Context(now: int, elapsed: int, liquidity: int, factor: int)

  ghost predicate ContextOK(c: Context) {
    c.elapsed > 0 && c.liquidity >= ONE18 && c.factor >= 1
  }

  ghost predicate RecordOK(r: Incentive) {
    r.remaining >= 0 && r.rate >= 0
  }

  ghost predicate AllOK(rs: seq<Incentive>) {
    forall i | 0 <= i < |rs| :: RecordOK(rs[i])
  }

  predicate Emits(r: Incentive, c: Context, u: nat) {
    r.start < c.now && r.uptime == u
  }

  /** What one record adds to accumulator `u`, and the record afterwards. */
  function Emit(r: Incentive, c: Context, u: nat): Emitted
    requires c.liquidity > 0
  {
    if !Emits(r, c, u) then Emitted(0, r) else
      match ToEmit(c.elapsed, r.rate)
      case None => Emitted(0, r)
      case Some(total) =>
        match ScaleUp(total, c.factor)
        case None => Emitted(0, r)
        case Some(scaled) =>
          if total <= r.remaining then
            Emitted(PerLiquidity(scaled, c.liquidity), r.(remaining := r.remaining - total))
          else
            match ScaleUp(r.remaining, c.factor)
            case None => Emitted(0, r)
            case Some(rest) => Emitted(PerLiquidity(rest, c.liquidity), r.(remaining := 0))
  }

  ghost function EmitTriple(x: (Incentive, Context, nat)): Emitted {
    if x.1.liquidity > 0 then Emit(x.0, x.1, x.2) else Emitted(0, x.0)
  }

  /** `Emit`, kept folded. */
  ghost function Emission(r: Incentive, c: Context, u: nat): Emitted {
    FoldedFn(EmitTriple)((r, c, u))
  }

  lemma UnfoldEmission(r: Incentive, c: Context, u: nat)
    requires c.liquidity > 0
    ensures Emission(r, c, u) == Emit(r, c, u)
  {
    UnfoldFn(EmitTriple, (r, c, u));
  }

  // ------------------------------------------------------------------------ one record

  lemma ScaleUpExact(x: int, factor: int)
    requires x >= 0 && factor >= 1
    ensures Quo(x * (factor * ONE18), ONE18) == x * factor
  {
    assert x * (factor * ONE18) == ONE18 * (x * factor);
    assert x * factor >= 0;
    MulExact(x * factor, ONE18);
  }

  /** `q` liquidity-times is at most the scaled amount, and short of it by less than one liquidity. */
  lemma PerLiquidityBounds(y: int, liquidity: int)
    requires y >= 0 && liquidity > 0
    ensures var q := PerLiquidity(y, liquidity);
            q >= 0 && q * liquidity <= ONE18 * y < q * liquidity + liquidity
  {
    DivMod(y * ONE18, liquidity);
    DivBounds(y * ONE18, liquidity, 0);
  }

  lemma ToEmitNonNegative(elapsed: int, rate: int)
    requires elapsed > 0 && rate >= 0
    ensures Quo(elapsed * rate, ONE18) >= 0
  {
    assert elapsed * rate >= 0;
    DivBounds(elapsed * rate, ONE18, 0);
  }

  /** `added` per liquidity is paid for by a debit, short by less than `slack` units of liquidity. */
  ghost predicate Covered(added: int, debit: int, c: Context, slack: nat) {
    && added >= 0 && debit >= 0
    && added * c.liquidity <= ONE18 * (debit * c.factor) <= added * c.liquidity + c.liquidity * slack
    && (slack > 0 ==> ONE18 * (debit * c.factor) < added * c.liquidity + c.liquidity * slack)
  }

  ghost predicate CoveredTuple(x: (int, int, Context, nat)) { Covered(x.0, x.1, x.2, x.3) }

  /** `Covered`, kept folded. */
  ghost predicate Covers(added: int, debit: int, c: Context, slack: nat) {
    Folded(CoveredTuple)((added, debit, c, slack))
  }

  lemma UnfoldCovers(added: int, debit: int, c: Context, slack: nat)
    ensures Covers(added, debit, c, slack) <==> Covered(added, debit, c, slack)
  {
    Unfold(CoveredTuple, (added, debit, c, slack));
  }

  lemma PortionCovered(x: int, c: Context)
    requires ContextOK(c) && x >= 0
    ensures Covers(PerLiquidity(x * c.factor, c.liquidity), x, c, 1)
  {
    UnfoldCovers(PerLiquidity(x * c.factor, c.liquidity), x, c, 1);
    assert x * c.factor >= 0;
    PerLiquidityBounds(x * c.factor, c.liquidity);
  }

  lemma NothingCovered(c: Context, slack: nat)
    requires ContextOK(c)
    ensures Covers(0, 0, c, slack)
  {
    UnfoldCovers(0, 0, c, slack);
    assert 0 * c.factor == 0 && 0 * c.liquidity == 0;
    MulMono(c.liquidity, if slack > 0 then 1 else 0, slack);
  }

  /** A record is debited by what it adds: never below zero, never too much, and
      short by less than one unit of liquidity. */
  lemma EmitBounds(r: Incentive, c: Context, u: nat)
    requires ContextOK(c) && RecordOK(r)
    ensures var e := Emit(r, c, u);
            && RecordOK(e.record) && e.record == r.(remaining := e.record.remaining)
            && Covers(e.perLiquidity, r.remaining - e.record.remaining, c, if Emits(r, c, u) then 1 else 0)
            && (!Emits(r, c, u) ==> e.record == r)
  {
    NothingCovered(c, if Emits(r, c, u) then 1 else 0);
    if Emits(r, c, u) && ToEmit(c.elapsed, r.rate).Some? {
      var total := ToEmit(c.elapsed, r.rate).value;
      ToEmitNonNegative(c.elapsed, r.rate);
      ScaleUpExact(total, c.factor);
      ScaleUpExact(r.remaining, c.factor);
      PortionCovered(total, c);
      PortionCovered(r.remaining, c);
    }
  }

  // ------------------------------------------------------------------------ all records

  /** What the first `n` records add, per liquidity. */
  ghost function AddedBy(rs: seq<Incentive>, n: nat, c: Context, u: nat): DecCoins
    requires n <= |rs|
  {
    if n == 0 then map[] else
      Plus(AddedBy(rs, n - 1, c, u), map[rs[n - 1].denom := Emission(rs[n - 1], c, u).perLiquidity])
  }

  ghost function AddedTriple(x: (seq<Incentive>, Context, nat)): DecCoins { AddedBy(x.0, |x.0|, x.1, x.2) }

  /** What all records add, per liquidity; kept folded. */
  ghost function Added(rs: seq<Incentive>, c: Context, u: nat): DecCoins {
    FoldedFn(AddedTriple)((rs, c, u))
  }

  lemma UnfoldAdded(rs: seq<Incentive>, c: Context, u: nat)
    ensures Added(rs, c, u) == AddedBy(rs, |rs|, c, u)
  {
    UnfoldFn(AddedTriple, (rs, c, u));
  }

  /** The same for one denomination. */
  ghost function AddedOf(rs: seq<Incentive>, n: nat, c: Context, u: nat, d: string): int
    requires n <= |rs|
  {
    if n == 0 then 0 else
      AddedOf(rs, n - 1, c, u, d) + (if rs[n - 1].denom == d then Emission(rs[n - 1], c, u).perLiquidity else 0)
  }

  lemma {:induction false} AddedAmount(rs: seq<Incentive>, n: nat, c: Context, u: nat, d: string)
    requires n <= |rs|
    ensures Amt(AddedBy(rs, n, c, u), d) == AddedOf(rs, n, c, u, d)
  {
    if n > 0 {
      AddedAmount(rs, n - 1, c, u, d);
    }
  }

  lemma AddedTotal(rs: seq<Incentive>, c: Context, u: nat, d: string)
    ensures Amt(Added(rs, c, u), d) == AddedOf(rs, |rs|, c, u, d)
  {
    UnfoldAdded(rs, c, u);
    AddedAmount(rs, |rs|, c, u, d);
  }

  ghost function AddedToTuple(x: (seq<Incentive>, Context, nat, string)): int { AddedOf(x.0, |x.0|, x.1, x.2, x.3) }

  /** `AddedOf` all records, kept folded. */
  ghost function AddedTo(rs: seq<Incentive>, c: Context, u: nat, d: string): int {
    FoldedFn(AddedToTuple)((rs, c, u, d))
  }

  lemma AddedToAmount(rs: seq<Incentive>, c: Context, u: nat, d: string)
    ensures Amt(Added(rs, c, u), d) == AddedTo(rs, c, u, d) == AddedOf(rs, |rs|, c, u, d)
  {
    AddedTotal(rs, c, u, d);
    UnfoldFn(AddedToTuple, (rs, c, u, d));
  }

  ghost function DebitedTriple(x: (seq<Incentive>, Context, nat)): seq<Incentive> {
    seq(|x.0|, i requires 0 <= i < |x.0| => Emission(x.0[i], x.1, x.2).record)
  }

  /** The records after they have emitted to accumulator `u`; kept folded. */
  ghost function Debited(rs: seq<Incentive>, c: Context, u: nat): (out: seq<Incentive>)
    ensures |out| == |rs|
  {
    UnfoldFn(DebitedTriple, (rs, c, u));
    FoldedFn(DebitedTriple)((rs, c, u))
  }

  lemma UnfoldDebited(rs: seq<Incentive>, c: Context, u: nat)
    ensures forall i {:trigger Debited(rs, c, u)[i]} | 0 <= i < |rs| :: Debited(rs, c, u)[i] == Emission(rs[i], c, u).record
  {
    UnfoldFn(DebitedTriple, (rs, c, u));
  }

  /** What the first `n` records still hold of denomination `d`. */
  ghost function RemainingOf(rs: seq<Incentive>, n: nat, d: string): int
    requires n <= |rs|
  {
    if n == 0 then 0 else
      RemainingOf(rs, n - 1, d) + (if rs[n - 1].denom == d then rs[n - 1].remaining else 0)
  }

  ghost function Remaining(rs: seq<Incentive>, d: string): int { RemainingOf(rs, |rs|, d) }

  ghost function EmittingOf(rs: seq<Incentive>, n: nat, c: Context, u: nat): nat
    requires n <= |rs|
  {
    if n == 0 then 0 else EmittingOf(rs, n - 1, c, u) + (if Emits(rs[n - 1], c, u) then 1 else 0)
  }

  ghost function Emitting(rs: seq<Incentive>, c: Context, u: nat): nat { EmittingOf(rs, |rs|, c, u) }

  /** `calcAccruedIncentivesForAccum`; `ok` is false where the source returns an error. */
  method CalcAccruedIncentivesForAccum(u: nat, c: Context, records: seq<Incentive>)
    returns (ok: bool, toAdd: DecCoins, updated: seq<Incentive>)
    ensures ok <==> c.liquidity > 0 && c.elapsed > 0
    ensures ok ==> toAdd == Added(records, c, u) && updated == Debited(records, c, u)
    ensures !ok ==> toAdd == map[] && updated == []
  {
    toAdd, updated := map[], [];
    if c.liquidity <= 0 || c.elapsed <= 0 {
      return false, toAdd, updated;
    }
    for i := 0 to |records|
      invariant toAdd == AddedBy(records, i, c, u)
      invariant |updated| == i && forall j | 0 <= j < i :: updated[j] == Emission(records[j], c, u).record
    {
      var e := Emit(records[i], c, u);
      UnfoldEmission(records[i], c, u);
      toAdd := Plus(toAdd, map[records[i].denom := e.perLiquidity]);
      updated := updated + [e.record];
    }
    UnfoldAdded(records, c, u);
    UnfoldDebited(records, c, u);
    ok := true;
  }

  lemma CoveredSum(a: int, x: int, n: nat, b: int, y: int, k: nat, c: Context)
    requires Covers(a, x, c, n) && Covers(b, y, c, k)
    ensures Covers(a + b, x + y, c, n + k)
  {
    UnfoldCovers(a, x, c, n);
    UnfoldCovers(b, y, c, k);
    UnfoldCovers(a + b, x + y, c, n + k);
    assert (a + b) * c.liquidity == a * c.liquidity + b * c.liquidity;
    assert (x + y) * c.factor == x * c.factor + y * c.factor;
    assert c.liquidity * (n + k) == c.liquidity * n + c.liquidity * k;
  }

  lemma {:induction false} PrefixCovered(rs: seq<Incentive>, n: nat, c: Context, u: nat, d: string)
    requires ContextOK(c) && AllOK(rs) && n <= |rs|
    ensures Covers(AddedOf(rs, n, c, u, d), RemainingOf(rs, n, d) - RemainingOf(Debited(rs, c, u), n, d),
                   c, EmittingOf(rs, n, c, u))
  {
    if n == 0 {
      NothingCovered(c, 0);
    } else {
      PrefixCovered(rs, n - 1, c, u, d);
      var last := rs[n - 1];
      UnfoldDebited(rs, c, u);
      EmitBounds(last, c, u);
      UnfoldEmission(last, c, u);
      var e, k := Emission(last, c, u), if Emits(last, c, u) then 1 else 0;
      NothingCovered(c, k);
      var b, y := if last.denom == d then e.perLiquidity else 0, if last.denom == d then last.remaining - e.record.remaining else 0;
      CoveredSum(AddedOf(rs, n - 1, c, u, d), RemainingOf(rs, n - 1, d) - RemainingOf(Debited(rs, c, u), n - 1, d),
                 EmittingOf(rs, n - 1, c, u), b, y, k, c);
    }
  }

  /** One accumulator's update: per denomination, what is added is covered by what the
      records lose, within one unit of liquidity per emitting record. */
  lemma AddedCovered(rs: seq<Incentive>, c: Context, u: nat, d: string)
    requires ContextOK(c) && AllOK(rs)
    ensures Covered(Amt(Added(rs, c, u), d), Remaining(rs, d) - Remaining(Debited(rs, c, u), d), c, Emitting(rs, c, u))
  {
    PrefixCovered(rs, |rs|, c, u, d);
    AddedTotal(rs, c, u, d);
    UnfoldCovers(AddedOf(rs, |rs|, c, u, d), Remaining(rs, d) - Remaining(Debited(rs, c, u), d), c, Emitting(rs, c, u));
  }

  // ------------------------------------------------------------------------ all uptimes

  /** The records once the accumulators before `u` have been updated. */
  ghost function DebitedBefore(rs: seq<Incentive>, c: Context, u: nat): (out: seq<Incentive>)
    ensures |out| == |rs|
  {
    if u == 0 then rs else Debited(DebitedBefore(rs, c, u - 1), c, u - 1)
  }

  /** A record keeps its uptime, and is left alone by accumulators of other uptimes. */
  lemma SkipsOthers(r: Incentive, c: Context, u: nat)
    ensures Emission(r, c, u).record.uptime == r.uptime
    ensures r.uptime != u ==> Emission(r, c, u).record == r
  {
    UnfoldFn(EmitTriple, (r, c, u));
  }

  /** One update of all accumulators debits each record at most once: only for the
      uptime it names, and leaves it alone if it does not emit. */
  lemma {:induction false} DebitedOnce(rs: seq<Incentive>, c: Context, u: nat, i: nat)
    requires i < |rs|
    ensures DebitedBefore(rs, c, u)[i] == if rs[i].uptime < u then Emission(rs[i], c, rs[i].uptime).record else rs[i]
  {
    if u > 0 {
      DebitedOnce(rs, c, u - 1, i);
      UnfoldDebited(DebitedBefore(rs, c, u - 1), c, u - 1);
      SkipsOthers(rs[i], c, u - 1);
      SkipsOthers(Emission(rs[i], c, rs[i].uptime).record, c, u - 1);
      SkipsOthers(rs[i], c, rs[i].uptime);
    }
  }

  lemma {:induction false} RecordsStayOK(rs: seq<Incentive>, c: Context, u: nat)
    requires ContextOK(c) && AllOK(rs)
    ensures AllOK(DebitedBefore(rs, c, u))
  {
    forall i | 0 <= i < |rs|
      ensures RecordOK(DebitedBefore(rs, c, u)[i])
    {
      DebitedOnce(rs, c, u, i);
      EmitBounds(rs[i], c, rs[i].uptime);
      UnfoldEmission(rs[i], c, rs[i].uptime);
    }
  }

  /** Added over all accumulators before `u`. */
  ghost function AddedBefore(rs: seq<Incentive>, c: Context, u: nat, d: string): int
  {
    if u == 0 then 0
    else AddedBefore(rs, c, u - 1, d) + AddedTo(DebitedBefore(rs, c, u - 1), c, u - 1, d)
  }

  ghost function EmittingBefore(rs: seq<Incentive>, c: Context, u: nat): nat
  {
    if u == 0 then 0 else EmittingBefore(rs, c, u - 1) + Emitting(DebitedBefore(rs, c, u - 1), c, u - 1)
  }

  lemma NextUptime(rs: seq<Incentive>, mid: seq<Incentive>, c: Context, u: nat, d: string)
    requires mid == DebitedBefore(rs, c, u)
    requires Covers(AddedBefore(rs, c, u, d), Remaining(rs, d) - Remaining(mid, d), c, EmittingBefore(rs, c, u))
    requires Covers(AddedTo(mid, c, u, d), Remaining(mid, d) - Remaining(Debited(mid, c, u), d), c, Emitting(mid, c, u))
    ensures Covers(AddedBefore(rs, c, u + 1, d), Remaining(rs, d) - Remaining(DebitedBefore(rs, c, u + 1), d),
                   c, EmittingBefore(rs, c, u + 1))
  {
    CoveredSum(AddedBefore(rs, c, u, d), Remaining(rs, d) - Remaining(mid, d), EmittingBefore(rs, c, u),
               AddedTo(mid, c, u, d), Remaining(mid, d) - Remaining(Debited(mid, c, u), d), Emitting(mid, c, u), c);
  }

  ghost predicate UpdateCoveredBefore(rs: seq<Incentive>, c: Context, u: nat, d: string) {
    Covers(AddedBefore(rs, c, u, d), Remaining(rs, d) - Remaining(DebitedBefore(rs, c, u), d), c, EmittingBefore(rs, c, u))
  }

  lemma UptimeStep(rs: seq<Incentive>, c: Context, v: nat, u: nat, d: string)
    requires ContextOK(c) && AllOK(rs) && UpdateCoveredBefore(rs, c, v, d) && u == v + 1
    ensures UpdateCoveredBefore(rs, c, u, d)
  {
    RecordsStayOK(rs, c, v);
    PrefixCovered(DebitedBefore(rs, c, v), |rs|, c, v, d);
    AddedToAmount(DebitedBefore(rs, c, v), c, v, d);
    NextUptime(rs, DebitedBefore(rs, c, v), c, v, d);
  }

  lemma NoUptimes(rs: seq<Incentive>, c: Context, d: string)
    requires ContextOK(c)
    ensures UpdateCoveredBefore(rs, c, 0, d)
  {
    NothingCovered(c, 0);
  }

  /** One update over all uptimes: the total added per liquidity is covered by the total
      the records lose. */
  lemma {:induction false} UpdateCovered(rs: seq<Incentive>, c: Context, u: nat, d: string)
    requires ContextOK(c) && AllOK(rs)
    ensures UpdateCoveredBefore(rs, c, u, d)
  {
    if u == 0 {
      NoUptimes(rs, c, d);
    } else {
      UpdateCovered(rs, c, u - 1, d);
      UptimeStep(rs, c, u - 1, u, d);
    }
  }

  // ------------------------------------------------------- one interval in many updates

  /** Emission of one record over a list of elapsed times. */
  ghost function Piecewise(rate: int, es: seq<int>): int {
    if es == [] then 0 else Piecewise(rate, es[..|es| - 1]) + Quo(es[|es| - 1] * rate, ONE18)
  }

  ghost function Total(es: seq<int>): int {
    if es == [] then 0 else Total(es[..|es| - 1]) + es[|es| - 1]
  }

  function Min(a: int, b: int): int { if a <= b then a else b }

  /** The record after updates with these elapsed times, at fixed liquidity. */
  ghost function AfterUpdates(r: Incentive, c: Context, es: seq<int>): Incentive
    requires c.liquidity > 0
  {
    if es == [] then r else
      Emit(AfterUpdates(r, c, es[..|es| - 1]), c.(elapsed := es[|es| - 1]), r.uptime).record
  }

  ghost predicate NoOverflow(r: Incentive, c: Context, es: seq<int>) {
    && !Overflows(r.remaining * c.factor)
    && forall i | 0 <= i < |es| :: es[i] > 0 && !Overflows(Quo(es[i] * r.rate, ONE18) * c.factor)
  }

  lemma EmitExact(r: Incentive, c: Context)
    requires ContextOK(c) && RecordOK(r) && r.start < c.now
    requires !Overflows(r.remaining * c.factor) && !Overflows(Quo(c.elapsed * r.rate, ONE18) * c.factor)
    ensures Emit(r, c, r.uptime).record == r.(remaining := r.remaining - Min(r.remaining, Quo(c.elapsed * r.rate, ONE18)))
  {
    var total := Quo(c.elapsed * r.rate, ONE18);
    ToEmitNonNegative(c.elapsed, r.rate);
    ScaleUpExact(total, c.factor);
    ScaleUpExact(r.remaining, c.factor);
    MulMono(total, 1, c.factor);
  }

  lemma MinTwice(remaining: int, p: int, q: int)
    requires p >= 0 && q >= 0
    ensures var left := remaining - Min(remaining, p); left - Min(left, q) == remaining - Min(remaining, p + q)
  {
  }

  /** One more update of a record that has emitted `p` so far. */
  lemma EmitMore(r: Incentive, c: Context, p: int)
    requires ContextOK(c) && RecordOK(r) && r.start < c.now && p >= 0
    requires !Overflows(r.remaining * c.factor) && !Overflows(Quo(c.elapsed * r.rate, ONE18) * c.factor)
    ensures var q := Quo(c.elapsed * r.rate, ONE18);
            && q >= 0
            && Emit(r.(remaining := r.remaining - Min(r.remaining, p)), c, r.uptime).record
               == r.(remaining := r.remaining - Min(r.remaining, p + q))
  {
    var mid := r.(remaining := r.remaining - Min(r.remaining, p));
    MulMono(c.factor, mid.remaining, r.remaining);
    ToEmitNonNegative(c.elapsed, r.rate);
    EmitExact(mid, c);
    MinTwice(r.remaining, p, Quo(c.elapsed * r.rate, ONE18));
  }

  /** A run of updates emits the truncated pieces, as long as the record lasts. */
  lemma {:induction false} UpdatesEmit(r: Incentive, c: Context, es: seq<int>)
    requires ContextOK(c) && RecordOK(r) && r.start < c.now && NoOverflow(r, c, es)
    ensures AfterUpdates(r, c, es) == r.(remaining := r.remaining - Min(r.remaining, Piecewise(r.rate, es)))
    ensures Piecewise(r.rate, es) >= 0
  {
    if es != [] {
      var front, e := es[..|es| - 1], es[|es| - 1];
      UpdatesEmit(r, c, front);
      assert es[|es| - 1] > 0;
      EmitMore(r, c.(elapsed := e), Piecewise(r.rate, front));
    }
  }

  lemma {:induction false} PiecesBound(rate: int, es: seq<int>)
    requires rate >= 0 && es != [] && forall i | 0 <= i < |es| :: es[i] > 0
    ensures Total(es) > 0
    ensures Piecewise(rate, es) <= Quo(Total(es) * rate, ONE18) <= Piecewise(rate, es) + |es| - 1
  {
    var front, e := es[..|es| - 1], es[|es| - 1];
    if front == [] {
      assert Total(es) == e;
    } else {
      PiecesBound(rate, front);
      assert (Total(front) + e) * rate == Total(front) * rate + e * rate;
      assert Total(front) * rate >= 0 && e * rate >= 0;
      QuoOfSum(Total(front) * rate, e * rate);
    }
  }

  lemma QuoOfSum(x: int, y: int)
    requires x >= 0 && y >= 0
    ensures Quo(x, ONE18) + Quo(y, ONE18) <= Quo(x + y, ONE18) <= Quo(x, ONE18) + Quo(y, ONE18) + 1
  {
  }

  /** Cutting an interval into `n` updates never emits more than one update over the
      whole interval, and at most `n - 1` units of 10^-18 less. */
  lemma PartitionEmitsNoMore(r: Incentive, c: Context, es: seq<int>)
    requires ContextOK(c) && RecordOK(r) && r.start < c.now && es != []
    requires NoOverflow(r, c, es) && NoOverflow(r, c, [Total(es)])
    ensures var pieces := r.remaining - AfterUpdates(r, c, es).remaining;
            var once := r.remaining - AfterUpdates(r, c, [Total(es)]).remaining;
            && pieces == Min(r.remaining, Piecewise(r.rate, es))
            && pieces <= once <= pieces + |es| - 1
  {
    UpdatesEmit(r, c, es);
    UpdatesEmit(r, c, [Total(es)]);
    PiecesBound(r.rate, es);
    assert [Total(es)][..0] == [];
    assert Piecewise(r.rate, [Total(es)]) == Quo(Total(es) * r.rate, ONE18);
  }
}
