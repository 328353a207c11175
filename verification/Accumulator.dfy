/** `AccumulatorObject`: a handle on one accumulator in a store it shares with others. */
module Accumulator {
  import opened Coins
  import opened Options
  import opened AccumulatorState
  import opened AccumulatorKeys

  datatype StoreError = AlreadyExists | DoesNotExist | BadName

  /** The key-value store shared by all accumulators. */
  class KVStore {
    var m: Store

    constructor ()
      ensures m == map[]
    {
      m := map[];
    }
  }

  /** `MakeAccumulator`. */
  method MakeAccumulator(kv: KVStore, name: string) returns (r: Result<(), StoreError>)
    requires Typed(kv.m)
    modifies kv
    ensures Typed(kv.m) && Touches(old(kv.m), kv.m, name)
    ensures r.Ok? <==> AccumKey(name) !in old(kv.m) && !HasSeparator(name)
    ensures r.Ok? ==> Exists(kv.m, name) && View(kv.m, name) == State(map[], 0, RecordsOf(old(kv.m), name))
    ensures r.Err? ==> kv.m == old(kv.m)
  {
    TouchesNothing(kv.m, name);
    if AccumKey(name) in kv.m {
      return Err(AlreadyExists);
    }
    if HasSeparator(name) {
      return Err(BadName);
    }
    WriteContent(kv.m, name, map[], 0);
    kv.m := kv.m[AccumKey(name) := Content(map[], 0)];
    UnfoldTouches(old(kv.m), kv.m, name);
    r := Ok(());
  }

  /** `GetAccumulator`. */
  method GetAccumulator(kv: KVStore, name: string) returns (r: Result<AccumulatorObject, StoreError>)
    requires Typed(kv.m)
    ensures r.Ok? <==> Exists(kv.m, name)
    ensures r.Ok? ==> fresh(r.value) && r.value.kv == kv && r.value.name == name && r.value.state == View(kv.m, name)
    ensures r.Ok? && !HasSeparator(name) ==> r.value.Valid()
  {
    if AccumKey(name) !in kv.m || !kv.m[AccumKey(name)].Content? {
      return Err(DoesNotExist);
    }
    var accum := new AccumulatorObject(kv, name);
    r := Ok(accum);
  }

  class AccumulatorObject {
    const kv: KVStore
    const name: string
    var valuePerShare: DecCoins
    var totalShares: int

    /** What the store holds for this accumulator. */
    ghost var state: State

    /** The handle agrees with what is stored. */
    ghost predicate Valid()
      reads this, kv
    {
      && !HasSeparator(name) && StoredAs(kv.m, name, state)
      && state.value == valuePerShare && state.total == totalShares
    }

    /** `GetAccumulator` of an accumulator that exists. */
    constructor (kv: KVStore, name: string)
      requires Typed(kv.m) && Exists(kv.m, name)
      ensures this.kv == kv && this.name == name && state == View(kv.m, name)
      ensures !HasSeparator(name) ==> Valid()
    {
      this.kv := kv;
      this.name := name;
      valuePerShare := kv.m[AccumKey(name)].value;
      totalShares := kv.m[AccumKey(name)].total;
      state := View(kv.m, name);
      new;
      UnfoldStored(kv.m, name, state);
    }

    /** `setAccumulator`. */
    method SetAccumulator()
      requires !HasSeparator(name) && StoredAs(kv.m, name, state)
      modifies kv, this`state
      ensures Valid() && Touches(old(kv.m), kv.m, name)
      ensures state == old(state).(value := valuePerShare, total := totalShares)
    {
      UnfoldStored(kv.m, name, state);
      WriteContent(kv.m, name, valuePerShare, totalShares);
      kv.m := kv.m[AccumKey(name) := Content(valuePerShare, totalShares)];
      state := state.(value := valuePerShare, total := totalShares);
      UnfoldStored(kv.m, name, state);
      UnfoldTouches(old(kv.m), kv.m, name);
    }

    /** `initOrUpdatePosition`. */
    method InitOrUpdatePosition(n: string, r: Record)
      requires Valid()
      modifies kv, this`state
      ensures Valid() && Touches(old(kv.m), kv.m, name)
      ensures state == Put(old(state), n, r)
    {
      UnfoldStored(kv.m, name, state);
      WritePosition(kv.m, name, n, r);
      kv.m := kv.m[PositionKey(name, n) := Position(r)];
      state := Put(state, n, r);
      UnfoldStored(kv.m, name, state);
      assert PositionPrefix(name) <= PositionKey(name, n);
      UnfoldTouches(old(kv.m), kv.m, name);
    }

    /** Deletes a position's key from the store. */
    method DropPosition(n: string)
      requires Valid()
      modifies kv, this`state
      ensures Valid() && Touches(old(kv.m), kv.m, name)
      ensures state == old(state).(positions := old(state).positions - {n})
    {
      UnfoldStored(kv.m, name, state);
      RemovePosition(kv.m, name, n);
      kv.m := kv.m - {PositionKey(name, n)};
      state := state.(positions := state.positions - {n});
      UnfoldStored(kv.m, name, state);
      assert PositionPrefix(name) <= PositionKey(name, n);
      UnfoldTouches(old(kv.m), kv.m, name);
    }

    /** `GetPosition`. */
    method GetPosition(n: string) returns (r: Option<Record>)
      requires Valid()
      ensures r.Some? <==> n in state.positions
      ensures r.Some? ==> r.value == state.positions[n]
    {
      UnfoldStored(kv.m, name, state);
      NamesStored(kv.m, name);
      if PositionKey(name, n) !in kv.m {
        return None;
      }
      r := Some(kv.m[PositionKey(name, n)].record);
    }

    /** The total shares as stored. */
    method StoredTotal() returns (t: int)
      requires Valid()
      ensures t == state.total
    {
      UnfoldStored(kv.m, name, state);
      t := kv.m[AccumKey(name)].total;
    }

    /** `GetTotalRewards`. */
    method GetTotalRewards(p: Record) returns (r: Result<DecCoins, Error>)
      requires Valid()
      ensures r == TotalRewards(state, p)
    {
      var growth := Minus(valuePerShare, p.snapshot);
      if AnyNegative(growth) {
        return Err(Panicked);
      }
      r := Ok(Plus(p.unclaimed, Scale(growth, p.shares)));
    }

    /** Writes a record and adds `delta` to the stored total, re-read from the store. */
    method Reshare(n: string, r: Record, delta: int)
      requires Valid()
      modifies this, kv
      ensures Valid() && Touches(old(kv.m), kv.m, name)
      ensures state == Put(old(state), n, r).(total := old(state).total + delta)
    {
      InitOrUpdatePosition(n, r);
      ghost var mid := kv.m;
      var total := StoredTotal();
      totalShares := total + delta;
      SetAccumulator();
      TouchesTwice(old(kv.m), mid, kv.m, name);
    }

    /** `AddToAccumulator`. */
    method AddToAccumulator(amt: DecCoins)
      requires Valid()
      modifies this, kv
      ensures Valid() && Touches(old(kv.m), kv.m, name)
      ensures state == AddedValue(old(state), amt)
    {
      valuePerShare := Plus(valuePerShare, amt);
      SetAccumulator();
    }

    /** `NewPositionIntervalAccumulation`. */
    method NewPosition(n: string, shares: int, interval: DecCoins)
      requires Valid()
      modifies this, kv
      ensures Valid() && Touches(old(kv.m), kv.m, name)
      ensures state == Opened(old(state), n, shares, interval)
    {
      Reshare(n, Record(shares, interval, map[]), shares);
    }

    /** `UpdatePositionIntervalAccumulation`. */
    method UpdatePosition(n: string, shares: int, interval: DecCoins) returns (r: Result<(), Error>)
      requires Valid()
      modifies this, kv
      ensures Valid() && Touches(old(kv.m), kv.m, name)
      ensures match Resized(old(state), n, shares, interval)
              case Ok(st) => r.Ok? && state == st
              case Err(e) => r == Err(e) && state == old(state)
    {
      TouchesNothing(kv.m, name);
      if shares == 0 {
        return Err(ZeroShares);
      }
      if shares < 0 {
        r := RemoveFromPosition(n, -shares, interval);
      } else {
        r := AddToPosition(n, shares, interval);
      }
    }

    /** `AddToPositionIntervalAccumulation`. */
    method AddToPosition(n: string, shares: int, interval: DecCoins) returns (r: Result<(), Error>)
      requires Valid()
      modifies this, kv
      ensures Valid() && Touches(old(kv.m), kv.m, name)
      ensures match Grown(old(state), n, shares, interval)
              case Ok(st) => r.Ok? && state == st
              case Err(e) => r == Err(e) && state == old(state)
    {
      TouchesNothing(kv.m, name);
      if shares <= 0 {
        return Err(NonPositiveShares);
      }
      var p := GetPosition(n);
      if p.None? {
        return Err(NoPosition);
      }
      var rewards :- GetTotalRewards(p.value);
      Reshare(n, Record(p.value.shares + shares, interval, rewards), shares);
      r := Ok(());
    }

    /** `RemoveFromPositionIntervalAccumulation`. */
    method RemoveFromPosition(n: string, shares: int, interval: DecCoins) returns (r: Result<(), Error>)
      requires Valid()
      modifies this, kv
      ensures Valid() && Touches(old(kv.m), kv.m, name)
      ensures match Shrunk(old(state), n, shares, interval)
              case Ok(st) => r.Ok? && state == st
              case Err(e) => r == Err(e) && state == old(state)
    {
      TouchesNothing(kv.m, name);
      if shares <= 0 {
        return Err(NonPositiveShares);
      }
      var p := GetPosition(n);
      if p.None? {
        return Err(NoPosition);
      }
      if shares > p.value.shares {
        return Err(TooManyShares);
      }
      var rewards :- GetTotalRewards(p.value);
      Reshare(n, Record(p.value.shares - shares, interval, rewards), -shares);
      r := Ok(());
    }

    /** `SetPositionIntervalAccumulation`. */
    method SetPositionInterval(n: string, interval: DecCoins) returns (r: Result<(), Error>)
      requires Valid()
      modifies kv, this`state
      ensures Valid() && Touches(old(kv.m), kv.m, name)
      ensures match Resnapped(old(state), n, interval)
              case Ok(st) => r.Ok? && state == st
              case Err(e) => r == Err(e) && state == old(state)
    {
      TouchesNothing(kv.m, name);
      var p := GetPosition(n);
      if p.None? {
        return Err(NoPosition);
      }
      InitOrUpdatePosition(n, p.value.(snapshot := interval));
      r := Ok(());
    }

    /** `ClaimRewards`. */
    method ClaimRewards(n: string) returns (r: Result<(DecCoins, DecCoins), Error>)
      requires Valid()
      modifies kv, this`state
      ensures Valid() && Touches(old(kv.m), kv.m, name)
      ensures match Claimed(old(state), n)
              case Ok(c) => r == Ok((c.coins, c.dust)) && state == c.state
              case Err(e) => r == Err(e) && state == old(state)
    {
      TouchesNothing(kv.m, name);
      var p := GetPosition(n);
      if p.None? {
        return Err(NoPosition);
      }
      var rewards :- GetTotalRewards(p.value);
      if p.value.shares == 0 {
        DropPosition(n);
      } else {
        InitOrUpdatePosition(n, Record(p.value.shares, valuePerShare, map[]));
      }
      r := Ok((Whole(rewards), Change(rewards)));
    }

    /** `DeletePosition`. */
    method DeletePosition(n: string) returns (r: Result<DecCoins, Error>)
      requires Valid()
      modifies this, kv
      ensures Valid() && Touches(old(kv.m), kv.m, name)
      ensures match Deleted(old(state), n)
              case Ok(c) => r == Ok(c.1) && state == c.0
              case Err(e) => r == Err(e) && state == old(state)
    {
      TouchesNothing(kv.m, name);
      var p := GetPosition(n);
      if p.None? {
        return Err(NoPosition);
      }
      var c := ClaimRewards(n);
      if c.Err? {
        return Err(c.error);
      }
      ghost var claimed := kv.m;
      DropPosition(n);
      TouchesTwice(old(kv.m), claimed, kv.m, name);
      ghost var dropped := kv.m;
      totalShares := totalShares - p.value.shares;
      SetAccumulator();
      TouchesTwice(old(kv.m), dropped, kv.m, name);
      r := Ok(Plus(FromWhole(c.value.0), c.value.1));
    }

    /** `AddToUnclaimedRewards`. */
    method AddToUnclaimedRewards(n: string, coins: DecCoins) returns (r: Result<(), Error>)
      requires Valid()
      modifies kv, this`state
      ensures Valid() && Touches(old(kv.m), kv.m, name)
      ensures match Deposited(old(state), n, coins)
              case Ok(st) => r.Ok? && state == st
              case Err(e) => r == Err(e) && state == old(state)
    {
      TouchesNothing(kv.m, name);
      var p := GetPosition(n);
      if p.None? {
        return Err(NoPosition);
      }
      if AnyNegative(coins) {
        return Err(NegativeRewards);
      }
      InitOrUpdatePosition(n, p.value.(unclaimed := Plus(p.value.unclaimed, coins)));
      r := Ok(());
    }
  }
}
