/** What creating an incentive record does, at once and over all later updates: the pool with
    the record against the pool without it. */
module CreateRules {
  import opened FixedPoint
  import opened Coins
  import opened Emission
  import opened IncentivePool
  import opened IncentiveSteps
  import opened IncentiveKeeps
  import opened SyncRules

  /** The pool with one more record. */
  function With(p: Pool, r: Incentive): Pool { p.(incentives := p.incentives + [r]) }

  /** An incentive is created exactly if its terms are right and time has not gone backwards;
      the synced pool then has one more record, which holds the deposit and the terms. */
  lemma CreateStores(p: Pool, id: nat, denom: string, amount: int, rate: int, start: int, uptime: nat, now: int)
    requires |p.uptimes| == UPTIME_COUNT
    ensures Created(p, id, denom, amount, rate, start, uptime, now).Ok?
       <==> amount > 0 && rate > 0 && now <= start && uptime < 6 && p.lastUpdate <= now
    ensures Created(p, id, denom, amount, rate, start, uptime, now).Ok? ==>
              var q, r := Synced(p, now).value, Created(p, id, denom, amount, rate, start, uptime, now).value;
              && r == q.(incentives := r.incentives) && |r.incentives| == |q.incentives| + 1 && q.incentives <= r.incentives
              && var last := r.incentives[|q.incentives|];
                 && last.id == id && last.denom == denom && last.uptime == uptime && last.rate == rate && last.start == start
                 && last.remaining == amount * 1_000_000_000_000_000_000
  {
    SyncRests(p, now);
  }

  // ----------------------------------------------------------------------- later updates

  /** The pool after updates at these times; one that fails changes nothing. */
  ghost function UpdatedAt(p: Pool, ts: seq<int>): (q: Pool)
    requires |p.uptimes| == UPTIME_COUNT
    ensures |q.uptimes| == UPTIME_COUNT
  {
    if ts == [] then p else
      var before := UpdatedAt(p, ts[..|ts| - 1]);
      var r := Synced(before, ts[|ts| - 1]);
      if r.Ok? then r.value else before
  }

  /** A record on its own: what it has left, what it has given per liquidity, and the time of the last update. */
  datatype Course = Course(left: int, given: int, last: int)

  /** One update at time `t`: nothing up to the start; after it the rate, for all the time since the
      last update, as long as the record lasts. */
  function NextCourse(r: Incentive, liquidity: int, factor: int, c: Course, t: int): Course
  {
    var due := r.rate * (t - c.last) / 1_000_000_000;
    if t <= c.last then c
    else if t <= r.start || liquidity < ONE18 || due * factor >= DEC_LIMIT then c.(last := t)
    else
      var x := if due < c.left then due else c.left;
      Course(c.left - x, c.given + x * factor * ONE18 / liquidity, t)
  }

  function CourseAfter(r: Incentive, liquidity: int, factor: int, last: int, ts: seq<int>): Course
  {
    if ts == [] then Course(r.remaining, 0, last) else
      NextCourse(r, liquidity, factor, CourseAfter(r, liquidity, factor, last, ts[..|ts| - 1]), ts[|ts| - 1])
  }

  /** `p` is `q` with the record `r` in it, where it stands at `c`. */
  ghost predicate Beside(p: Pool, q: Pool, r: Incentive, c: Course) {
    && |p.uptimes| == |q.uptimes| == UPTIME_COUNT
    && p == q.(uptimes := p.uptimes, incentives := p.incentives) && p.lastUpdate == c.last && 0 <= c.left
    && p.incentives == q.incentives + (if c.left > 0 then [r.(remaining := c.left)] else [])
    && forall u, d {:trigger Amt(p.uptimes[u].acc.value, d)} | 0 <= u < UPTIME_COUNT ::
         Amt(p.uptimes[u].acc.value, d) == Amt(q.uptimes[u].acc.value, d) + if u == r.uptime && d == r.denom then c.given else 0
  }

  ghost function Stepped(p: Pool, t: int): Pool
    requires |p.uptimes| == UPTIME_COUNT
  {
    if Synced(p, t).Ok? then Synced(p, t).value else p
  }

  lemma SteppedKeeps(p: Pool, t: int)
    requires PoolInv(p)
    ensures PoolInv(Stepped(p, t)) && Stepped(p, t) == p.(uptimes := Stepped(p, t).uptimes, incentives := Stepped(p, t).incentives, lastUpdate := Stepped(p, t).lastUpdate)
  {
    SyncRests(p, t);
    if t >= p.lastUpdate {
      SyncKeeps(p, t, "");
    }
  }

  lemma {:induction false} RisesSame(p: Pool, q: Pool, now: int, u: nat, d: string, k: nat)
    requires p.liquidity == q.liquidity > 0 && p.factor == q.factor && p.lastUpdate == q.lastUpdate
    requires k <= |q.incentives| && q.incentives <= p.incentives
    ensures Rises(p, now, u, d, k) == Rises(q, now, u, d, k)
  {
    if k > 0 {
      RisesSame(p, q, now, u, d, k - 1);
    }
  }

  /** What the record itself spends and gives in an update. */
  lemma OwnCourse(p: Pool, r: Incentive, c: Course, t: int)
    requires Running(p, t) && p.lastUpdate == c.last && r.rate >= 0 && r.uptime < UPTIME_COUNT && c.left >= 0
    ensures var r', c' := r.(remaining := c.left), NextCourse(r, p.liquidity, p.factor, c, t);
            && c'.last == t && 0 <= c'.left && c'.left == c.left - Spends(r', p, t) && c'.given == c.given + Rise(r', p, t)
  {
    DueIs(r, t - c.last);
    DivBounds(0, p.liquidity, 0);
  }

  lemma GivenNothing(r: Incentive, p: Pool, now: int)
    requires p.liquidity > 0 && Spends(r, p, now) == 0
    ensures Rise(r, p, now) == 0
  {
    assert 0 * p.factor * ONE18 == 0;
  }

  /** The record beside the others in one update. */
  lemma RisesBeside(p: Pool, q: Pool, r: Incentive, c: Course, t: int, u: nat, d: string)
    requires Beside(p, q, r, c) && Running(q, t) && r.rate >= 0 && r.uptime < UPTIME_COUNT
    ensures Rises(p, t, u, d, |p.incentives|) == Rises(q, t, u, d, |q.incentives|)
              + if u == r.uptime && d == r.denom then Rise(r.(remaining := c.left), p, t) else 0
  {
    RisesSame(p, q, t, u, d, |q.incentives|);
    if c.left == 0 {
      DueIs(r, t - c.last);
      GivenNothing(r.(remaining := 0), p, t);
    }
  }

  lemma RestBeside(p: Pool, q: Pool, r: Incentive, c: Course, t: int)
    requires Beside(p, q, r, c) && Running(q, t) && r.rate >= 0 && r.uptime < UPTIME_COUNT
    ensures var left := c.left - Spends(r.(remaining := c.left), p, t);
            WithRest(AfterSpending(p, t)) == WithRest(AfterSpending(q, t)) + if left > 0 then [r.(remaining := left)] else []
  {
    var own := r.(remaining := c.left);
    if c.left > 0 {
      var left := r.(remaining := c.left - Spends(own, p, t));
      assert AfterSpending(p, t) == AfterSpending(q, t) + [left];
      WithRestSnoc(AfterSpending(q, t), left);
    } else {
      DueIs(r, t - c.last);
      assert AfterSpending(p, t) == AfterSpending(q, t);
    }
  }

  lemma RunningStep(p: Pool, q: Pool, r: Incentive, c: Course, t: int)
    requires PoolInv(p) && PoolInv(q) && Beside(p, q, r, c) && Running(q, t) && r.rate >= 0 && r.uptime < UPTIME_COUNT
    ensures Beside(Stepped(p, t), Stepped(q, t), r, NextCourse(r, q.liquidity, q.factor, c, t))
  {
    var p', q', c' := Stepped(p, t), Stepped(q, t), NextCourse(r, q.liquidity, q.factor, c, t);
    OwnCourse(p, r, c, t);
    RestBeside(p, q, r, c, t);
    SyncSpends(p, t, 0, "");
    SyncSpends(q, t, 0, "");
    forall u, d | 0 <= u < UPTIME_COUNT
      ensures Amt(p'.uptimes[u].acc.value, d) == Amt(q'.uptimes[u].acc.value, d) + if u == r.uptime && d == r.denom then c'.given else 0
    {
      SyncSpends(p, t, u, d);
      SyncSpends(q, t, u, d);
      RisesBeside(p, q, r, c, t, u, d);
    }
  }

  lemma RestingStep(p: Pool, q: Pool, r: Incentive, c: Course, t: int)
    requires PoolInv(p) && PoolInv(q) && Beside(p, q, r, c) && !Running(q, t)
    ensures Beside(Stepped(p, t), Stepped(q, t), r, NextCourse(r, q.liquidity, q.factor, c, t))
  {
    SyncRests(p, t);
    SyncRests(q, t);
    if c.left > 0 {
      WithRestSnoc(q.incentives, r.(remaining := c.left));
    } else {
      assert p.incentives == q.incentives;
    }
  }

  /** Over any updates, the pool with a record is the pool without it, but for what the record has
      left and for what it has given to the one accumulator and denomination it names. */
  lemma {:induction false} RecordOverUpdates(q: Pool, r: Incentive, ts: seq<int>)
    requires PoolInv(q) && PoolInv(With(q, r)) && r.remaining > 0 && r.rate >= 0 && r.uptime < UPTIME_COUNT
    ensures PoolInv(UpdatedAt(q, ts)) && PoolInv(UpdatedAt(With(q, r), ts))
    ensures UpdatedAt(q, ts).liquidity == q.liquidity && UpdatedAt(q, ts).factor == q.factor
    ensures Beside(UpdatedAt(With(q, r), ts), UpdatedAt(q, ts), r, CourseAfter(r, q.liquidity, q.factor, q.lastUpdate, ts))
  {
    if ts != [] {
      var front, t := ts[..|ts| - 1], ts[|ts| - 1];
      RecordOverUpdates(q, r, front);
      var a, b, c := UpdatedAt(With(q, r), front), UpdatedAt(q, front), CourseAfter(r, q.liquidity, q.factor, q.lastUpdate, front);
      SteppedKeeps(a, t);
      SteppedKeeps(b, t);
      UnfoldPool(b);
      if Running(b, t) {
        RunningStep(a, b, r, c, t);
      } else {
        RestingStep(a, b, r, c, t);
      }
    }
  }

  /** The same for a record that has just been created. */
  lemma CreatedOverUpdates(p: Pool, id: nat, denom: string, amount: int, rate: int, start: int, uptime: nat, now: int, ts: seq<int>)
    requires PoolInv(p) && Created(p, id, denom, amount, rate, start, uptime, now).Ok?
    ensures var q, r := Synced(p, now).value, Created(p, id, denom, amount, rate, start, uptime, now).value;
            var record := Incentive(id, uptime, denom, amount * 1_000_000_000_000_000_000, rate, start);
            Beside(UpdatedAt(r, ts), UpdatedAt(q, ts), record, CourseAfter(record, q.liquidity, q.factor, now, ts))
  {
    CreateStores(p, id, denom, amount, rate, start, uptime, now);
    SyncKeeps(p, now, "");
    CreatingKeeps(p, id, denom, amount, rate, start, uptime, now, "");
    RecordOverUpdates(Synced(p, now).value, Incentive(id, uptime, denom, amount * ONE18, rate, start), ts);
  }

  // ------------------------------------------------------------------- the course of a record

  /** Up to its start a record spends nothing. */
  lemma {:induction false} WaitsForStart(r: Incentive, liquidity: int, factor: int, last: int, ts: seq<int>)
    requires forall i | 0 <= i < |ts| :: ts[i] <= r.start
    ensures var c := CourseAfter(r, liquidity, factor, last, ts); c.left == r.remaining && c.given == 0
  {
    if ts != [] {
      WaitsForStart(r, liquidity, factor, last, ts[..|ts| - 1]);
      assert ts[|ts| - 1] <= r.start;
    }
  }

  /** What is due over updates at these times. */
  function Dues(rate: int, last: int, ts: seq<int>): int {
    if ts == [] then 0 else
      Dues(rate, last, ts[..|ts| - 1]) + rate * (ts[|ts| - 1] - Before(last, ts)) / 1_000_000_000
  }

  /** The time before the last of `ts`. */
  function Before(last: int, ts: seq<int>): int
    requires ts != []
  {
    if |ts| == 1 then last else ts[|ts| - 2]
  }

  /** Updates one after the other, all after the start, with nothing skipped as too large. */
  ghost predicate Payable(r: Incentive, factor: int, last: int, ts: seq<int>) {
    ts != [] ==>
      var t, nanos := ts[|ts| - 1], ts[|ts| - 1] - Before(last, ts);
      r.start < t && nanos > 0 && !TooLarge(r, factor, nanos) && Payable(r, factor, last, ts[..|ts| - 1])
  }

  /** After its start it spends what is due, as long as it lasts. */
  lemma {:induction false} SpendsAtRate(r: Incentive, liquidity: int, factor: int, last: int, ts: seq<int>)
    requires liquidity >= ONE18 && factor >= 1 && r.rate >= 0 && r.remaining >= 0 && Payable(r, factor, last, ts)
    ensures var c, dues := CourseAfter(r, liquidity, factor, last, ts), Dues(r.rate, last, ts);
            && dues >= 0 && c.left == r.remaining - Min(r.remaining, dues)
            && c.last == if ts == [] then last else ts[|ts| - 1]
  {
    if ts != [] {
      var front, nanos := ts[..|ts| - 1], ts[|ts| - 1] - Before(last, ts);
      SpendsAtRate(r, liquidity, factor, last, front);
      DueIs(r, nanos);
      SpendsMore(r, liquidity, factor, CourseAfter(r, liquidity, factor, last, front), ts[|ts| - 1], Dues(r.rate, last, front));
    }
  }

  lemma SpendsMore(r: Incentive, liquidity: int, factor: int, c: Course, t: int, dues: int)
    requires liquidity >= ONE18 && r.remaining >= 0 && r.start < t && c.last < t && dues >= 0 && c.left == r.remaining - Min(r.remaining, dues)
    requires Due(r, t - c.last) >= 0 && !TooLarge(r, factor, t - c.last)
    ensures var c' := NextCourse(r, liquidity, factor, c, t);
            c'.last == t && c'.left == r.remaining - Min(r.remaining, dues + Due(r, t - c.last))
  {
    MinTwice(r.remaining, dues, Due(r, t - c.last));
  }

  lemma FloorSum(x: int, y: int, p: int)
    requires p > 0
    ensures x / p + y / p <= (x + y) / p <= x / p + y / p + 1
  {
    DivMod(x, p);
    DivMod(y, p);
    assert p * (x / p + y / p) == p * (x / p) + p * (y / p);
    assert p * (x / p + y / p + 2) == p * (x / p + y / p) + 2 * p;
    DivBounds(x + y, p, x / p + y / p);
    DivBounds(x + y, p, x / p + y / p + 2);
  }

  /** And what is due is the rate times the time that has passed, short by less than one unit
      of 10^-18 coins for every update. */
  lemma {:induction false} DuesAreTime(rate: int, last: int, ts: seq<int>)
    requires ts != []
    ensures var whole := rate * (ts[|ts| - 1] - last) / 1_000_000_000;
            Dues(rate, last, ts) <= whole <= Dues(rate, last, ts) + |ts| - 1
  {
    if |ts| == 1 {
      assert ts[..0] == [];
    } else {
      var front, t := ts[..|ts| - 1], ts[|ts| - 1];
      DuesAreTime(rate, last, front);
      var mid := front[|front| - 1];
      assert mid == Before(last, ts);
      FloorSum(rate * (mid - last), rate * (t - mid), 1_000_000_000);
      assert rate * (t - last) == rate * (mid - last) + rate * (t - mid);
    }
  }
}
