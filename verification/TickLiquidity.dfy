/** The liquidity a pool keeps at its initialised ticks, and how crossing a tick turns it
    into the liquidity in range. */
module TickLiquidity {
  import opened MapSums
  import opened Stakes
  import opened UptimeAccumulator

  datatype TickInfo = TickInfo(gross: int, net: int)
  type Ticks = map<int, TickInfo>

  function InfoAt(ticks: Ticks, t: int): TickInfo {
    if t in ticks then ticks[t] else TickInfo(0, 0)
  }

  /** `initOrUpdateTick`, liquidity part. */
  function UpdateTick(ticks: Ticks, t: int, delta: int, upper: bool): Ticks {
    var i := InfoAt(ticks, t);
    ticks[t := TickInfo(i.gross + delta, if upper then i.net - delta else i.net + delta)]
  }

  /** Both bounds of a position whose liquidity changes by `delta`. */
  function UpdateBounds(ticks: Ticks, pos: Position, delta: int): Ticks {
    UpdateTick(UpdateTick(ticks, pos.lower, delta, false), pos.upper, delta, true)
  }

  /** The bounds of `pos` that `initOrUpdateTick` flags as empty. */
  function EmptyBounds(ticks: Ticks, pos: Position): set<int> {
    set t | t in {pos.lower, pos.upper} && InfoAt(ticks, t) == TickInfo(0, 0)
  }

  // ---------------------------------------------------------- what the ticks should hold

  function GrossPart(pos: Position, t: int): int {
    if pos.lower == t || pos.upper == t then pos.liquidity else 0
  }

  function NetPart(pos: Position, t: int): int {
    if pos.lower == t then pos.liquidity else if pos.upper == t then -pos.liquidity else 0
  }

  ghost function GrossParts(ps: Positions, t: int): map<string, int> { map n | n in ps :: GrossPart(ps[n], t) }
  ghost function NetParts(ps: Positions, t: int): map<string, int> { map n | n in ps :: NetPart(ps[n], t) }

  ghost function TickOf(ps: Positions, t: int): TickInfo {
    TickInfo(Sum(GrossParts(ps, t)), Sum(NetParts(ps, t)))
  }

  predicate Bounds(pos: Position, t: int) { pos.lower == t || pos.upper == t }

  ghost predicate InUse(ps: Positions, t: int) { exists n | n in ps :: Bounds(ps[n], t) }

  ghost predicate Sized(ps: Positions) {
    forall n | n in ps :: ps[n].lower < ps[n].upper && ps[n].liquidity > 0
  }

  /** Every tick holds the sums over the positions it bounds. */
  ghost predicate Agree(ticks: Ticks, ps: Positions) {
    forall t :: InfoAt(ticks, t) == TickOf(ps, t)
  }

  /** And exactly the ticks that bound a position are initialised. */
  ghost predicate TicksOK(ticks: Ticks, ps: Positions) {
    && Sized(ps) && Agree(ticks, ps)
    && forall t :: t in ticks <==> InUse(ps, t)
  }

  lemma PutParts(ps: Positions, n: string, pos: Position, t: int)
    ensures TickOf(ps[n := pos], t).gross
         == TickOf(ps, t).gross + GrossPart(pos, t) - (if n in ps then GrossPart(ps[n], t) else 0)
    ensures TickOf(ps[n := pos], t).net
         == TickOf(ps, t).net + NetPart(pos, t) - (if n in ps then NetPart(ps[n], t) else 0)
  {
    assert GrossParts(ps[n := pos], t) == GrossParts(ps, t)[n := GrossPart(pos, t)];
    assert NetParts(ps[n := pos], t) == NetParts(ps, t)[n := NetPart(pos, t)];
    SumUpdate(GrossParts(ps, t), n, GrossPart(pos, t));
    SumUpdate(NetParts(ps, t), n, NetPart(pos, t));
  }

  lemma DropParts(ps: Positions, n: string, t: int)
    requires n in ps
    ensures TickOf(ps - {n}, t).gross == TickOf(ps, t).gross - GrossPart(ps[n], t)
    ensures TickOf(ps - {n}, t).net == TickOf(ps, t).net - NetPart(ps[n], t)
  {
    assert GrossParts(ps - {n}, t) == GrossParts(ps, t) - {n};
    assert NetParts(ps - {n}, t) == NetParts(ps, t) - {n};
    SumPick(GrossParts(ps, t), n);
    SumPick(NetParts(ps, t), n);
  }

  lemma UpdatedInfo(ticks: Ticks, pos: Position, delta: int, t: int)
    requires pos.lower < pos.upper
    ensures var part := pos.(liquidity := delta);
            InfoAt(UpdateBounds(ticks, pos, delta), t)
            == TickInfo(InfoAt(ticks, t).gross + GrossPart(part, t), InfoAt(ticks, t).net + NetPart(part, t))
  {
  }

  lemma PutAgreeAt(ticks: Ticks, ps: Positions, n: string, pos: Position, delta: int, t: int)
    requires InfoAt(ticks, t) == TickOf(ps, t) && pos.lower < pos.upper
    requires if n in ps then pos == ps[n].(liquidity := ps[n].liquidity + delta) else pos.liquidity == delta
    ensures InfoAt(UpdateBounds(ticks, pos, delta), t) == TickOf(ps[n := pos], t)
  {
    PutParts(ps, n, pos, t);
    UpdatedInfo(ticks, pos, delta, t);
  }

  lemma DropAgreeAt(ticks: Ticks, ps: Positions, n: string, delta: int, t: int)
    requires InfoAt(ticks, t) == TickOf(ps, t) && n in ps && ps[n].lower < ps[n].upper && delta == -ps[n].liquidity
    ensures InfoAt(UpdateBounds(ticks, ps[n], delta), t) == TickOf(ps - {n}, t)
  {
    DropParts(ps, n, t);
    UpdatedInfo(ticks, ps[n], delta, t);
  }

  /** Opening, resizing or closing a position keeps the ticks in agreement. */
  lemma PutAgree(ticks: Ticks, ps: Positions, n: string, pos: Position, delta: int)
    requires Agree(ticks, ps) && pos.lower < pos.upper
    requires if n in ps then pos == ps[n].(liquidity := ps[n].liquidity + delta) else pos.liquidity == delta
    ensures Agree(UpdateBounds(ticks, pos, delta), ps[n := pos])
  {
    forall t ensures InfoAt(UpdateBounds(ticks, pos, delta), t) == TickOf(ps[n := pos], t) {
      PutAgreeAt(ticks, ps, n, pos, delta, t);
    }
  }

  lemma DropAgree(ticks: Ticks, ps: Positions, n: string, delta: int)
    requires Agree(ticks, ps) && n in ps && ps[n].lower < ps[n].upper && delta == -ps[n].liquidity
    ensures Agree(UpdateBounds(ticks, ps[n], delta), ps - {n})
  {
    forall t ensures InfoAt(UpdateBounds(ticks, ps[n], delta), t) == TickOf(ps - {n}, t) {
      DropAgreeAt(ticks, ps, n, delta, t);
    }
  }

  /** A tick is flagged as empty exactly when no position is bounded by it. */
  lemma EmptyIffUnused(ps: Positions, t: int)
    requires Sized(ps)
    ensures TickOf(ps, t) == TickInfo(0, 0) <==> !InUse(ps, t)
  {
    if InUse(ps, t) {
      var n :| n in ps && Bounds(ps[n], t);
      SumPick(GrossParts(ps, t), n);
      SumNonNegative(GrossParts(ps, t) - {n});
    } else {
      forall n | n in ps ensures GrossPart(ps[n], t) == 0 && NetPart(ps[n], t) == 0 {
        assert !Bounds(ps[n], t);
      }
      AllZero(GrossParts(ps, t));
      AllZero(NetParts(ps, t));
    }
  }

  lemma {:induction false} AllZero(h: map<string, int>)
    requires forall n | n in h :: h[n] == 0
    ensures Sum(h) == 0
    decreases h.Keys
  {
    if h != map[] {
      var n :| n in h;
      SumPick(h, n);
      AllZero(h - {n});
    }
  }

  /** Removing the bounds flagged as empty leaves exactly the ticks in use. */
  lemma CleanOK(ticks: Ticks, ps: Positions, pos: Position)
    requires Sized(ps) && Agree(ticks, ps)
    requires forall t :: InUse(ps, t) ==> t in ticks
    requires forall t | t in ticks :: InUse(ps, t) || Bounds(pos, t)
    ensures TicksOK(ticks - EmptyBounds(ticks, pos), ps)
    ensures forall n | n in ps :: ps[n].lower !in EmptyBounds(ticks, pos) && ps[n].upper !in EmptyBounds(ticks, pos)
  {
    var gone := EmptyBounds(ticks, pos);
    forall t
      ensures InfoAt(ticks - gone, t) == TickOf(ps, t)
      ensures t in ticks - gone <==> InUse(ps, t)
      ensures t in gone ==> !InUse(ps, t)
    {
      EmptyIffUnused(ps, t);
    }
    forall n | n in ps ensures ps[n].lower !in gone && ps[n].upper !in gone {
      assert Bounds(ps[n], ps[n].lower) && Bounds(ps[n], ps[n].upper);
    }
  }

  // ------------------------------------------------------------------------- crossing

  /** `t` is the only tick in use in (a, b]. */
  ghost predicate OnlyTick(ps: Positions, a: int, t: int, b: int) {
    a < t <= b && forall n | n in ps :: && (a < ps[n].lower <= b ==> ps[n].lower == t)
                                        && (a < ps[n].upper <= b ==> ps[n].upper == t)
  }

  /** Crossing one tick upward adds its net liquidity to what is in range. */
  lemma CrossedLiquidity(ps: Positions, a: int, t: int, b: int)
    requires Sized(ps) && OnlyTick(ps, a, t, b)
    ensures ActiveLiquidity(ps, b) == ActiveLiquidity(ps, a) + TickOf(ps, t).net
  {
    SumLinear(LiquidityInRange(ps, a), NetParts(ps, t), 1, LiquidityInRange(ps, b));
  }

  /** Moving past no tick in use leaves the liquidity in range as it is. */
  lemma UncrossedLiquidity(ps: Positions, a: int, b: int)
    requires a <= b && forall n | n in ps :: !(a < ps[n].lower <= b) && !(a < ps[n].upper <= b)
    ensures ActiveLiquidity(ps, a) == ActiveLiquidity(ps, b)
  {
    assert LiquidityInRange(ps, a) == LiquidityInRange(ps, b);
  }
}
