/** The reward accumulator as a state machine: what each operation makes of the
    global value per share, the total shares and the stored positions. */
module AccumulatorState {
  import opened Coins
  import opened Options

  datatype Record = Record(shares: int, snapshot: DecCoins, unclaimed: DecCoins)
  datatype State = State(value: DecCoins, total: int, positions: map<string, Record>)

  /** `Panicked` stands for the panic of `DecCoins.Sub` on a negative difference. */
  datatype Error = NoPosition | NonPositiveShares | ZeroShares | TooManyShares | NegativeRewards | Panicked

  datatype Claim = Claim(state: State, coins: DecCoins, dust: DecCoins)

  const Initial: State := State(map[], 0, map[])

  /** `GetTotalRewards`: stored unclaimed rewards plus the growth since the snapshot. */
  function TotalRewards(st: State, r: Record): Result<DecCoins, Error> {
    var growth := Minus(st.value, r.snapshot);
    if AnyNegative(growth) then Err(Panicked) else Ok(Plus(r.unclaimed, Scale(growth, r.shares)))
  }

  function Put(st: State, name: string, r: Record): State {
    st.(positions := st.positions[name := r])
  }

  function AddedValue(st: State, amt: DecCoins): State {
    st.(value := Plus(st.value, amt))
  }

  /** `NewPositionIntervalAccumulation`; an existing record of that name is overwritten. */
  function Opened(st: State, name: string, shares: int, interval: DecCoins): State {
    Put(st, name, Record(shares, interval, map[])).(total := st.total + shares)
  }

  /** `AddToPositionIntervalAccumulation`. */
  function Grown(st: State, name: string, n: int, interval: DecCoins): Result<State, Error> {
    if n <= 0 then Err(NonPositiveShares)
    else if name !in st.positions then Err(NoPosition)
    else
      var r := st.positions[name];
      var rewards :- TotalRewards(st, r);
      Ok(Put(st, name, Record(r.shares + n, interval, rewards)).(total := st.total + n))
  }

  /** `RemoveFromPositionIntervalAccumulation`. */
  function Shrunk(st: State, name: string, n: int, interval: DecCoins): Result<State, Error> {
    if n <= 0 then Err(NonPositiveShares)
    else if name !in st.positions then Err(NoPosition)
    else if n > st.positions[name].shares then Err(TooManyShares)
    else
      var r := st.positions[name];
      var rewards :- TotalRewards(st, r);
      Ok(Put(st, name, Record(r.shares - n, interval, rewards)).(total := st.total - n))
  }

  /** `UpdatePositionIntervalAccumulation`. */
  function Resized(st: State, name: string, n: int, interval: DecCoins): Result<State, Error> {
    if n == 0 then Err(ZeroShares)
    else if n < 0 then Shrunk(st, name, -n, interval)
    else Grown(st, name, n, interval)
  }

  /** `SetPositionIntervalAccumulation`. */
  function Resnapped(st: State, name: string, interval: DecCoins): Result<State, Error> {
    if name !in st.positions then Err(NoPosition)
    else Ok(Put(st, name, st.positions[name].(snapshot := interval)))
  }

  /** `ClaimRewards`: whole coins out, change returned, the record reset, or
      removed if it has no shares. */
  function Claimed(st: State, name: string): Result<Claim, Error> {
    if name !in st.positions then Err(NoPosition)
    else
      var r := st.positions[name];
      var rewards :- TotalRewards(st, r);
      var after := if r.shares == 0 then st.(positions := st.positions - {name})
                   else Put(st, name, Record(r.shares, st.value, map[]));
      Ok(Claim(after, Whole(rewards), Change(rewards)))
  }

  lemma ClaimedShape(st: State, name: string, rewards: DecCoins)
    requires name in st.positions && TotalRewards(st, st.positions[name]) == Ok(rewards) && st.positions[name].shares != 0
    ensures Claimed(st, name)
         == Ok(Claim(Put(st, name, Record(st.positions[name].shares, st.value, map[])), Whole(rewards), Change(rewards)))
  {
  }

  /** `DeletePosition`: claims, removes the record and its shares; the whole claim is
      returned as decimal coins. */
  function Deleted(st: State, name: string): Result<(State, DecCoins), Error> {
    if name !in st.positions then Err(NoPosition)
    else
      var c :- Claimed(st, name);
      var after := c.state.(positions := c.state.positions - {name}, total := c.state.total - st.positions[name].shares);
      Ok((after, Plus(FromWhole(c.coins), c.dust)))
  }

  /** `AddToUnclaimedRewards`. */
  function Deposited(st: State, name: string, coins: DecCoins): Result<State, Error> {
    if name !in st.positions then Err(NoPosition)
    else if AnyNegative(coins) then Err(NegativeRewards)
    else
      var r := st.positions[name];
      Ok(Put(st, name, r.(unclaimed := Plus(r.unclaimed, coins))))
  }
}
