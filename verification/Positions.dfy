/** The position projection: quantity, average cost, cost basis and realized profit, trade by trade. */
module Positions {
  import opened Results
  import opened Digits
  import opened Decimals

  const AVERAGE_POLICY := Policy("paper-position-average-v1", SCALE, HalfEven)

  datatype Trade =
    | Buy(quantity: Decimal, consideration: Decimal)
    | Sell(quantity: Decimal, consideration: Decimal)

  datatype Position = Position(quantity: Decimal, averageCost: Decimal, costBasis: Decimal, realizedPnl: Decimal)

  datatype TradeError = InsufficientPosition | Arithmetic | CheckViolated

  const EMPTY := Position(0, 0, 0, 0)

  function Checked(r: Result<Decimal, Error>): Result<Decimal, TradeError> {
    if r.Success? then Success(r.value) else Failure(Arithmetic)
  }

  /** The table's checks on a position row. */
  predicate Storable(p: Position) {
    && p.quantity >= 0 && p.averageCost >= 0 && p.costBasis >= 0
    && (p.quantity > 0 || (p.averageCost == 0 && p.costBasis == 0))
  }

  function Stored(p: Position): Result<Position, TradeError> {
    if Storable(p) then Success(p) else Failure(CheckViolated)
  }

  /** What a sale takes out of the cost basis. */
  function RemovedCost(p: Position, quantity: Decimal): Result<Decimal, Error> {
    Multiply(p.averageCost, quantity, AVERAGE_POLICY)
  }

  function Bought(p: Position, quantity: Decimal, consideration: Decimal): Result<Position, TradeError> {
    var total :- Checked(Add(p.quantity, quantity));
    var basis :- Checked(Add(p.costBasis, consideration));
    var average :- Checked(Divide(basis, total, AVERAGE_POLICY));
    Stored(Position(total, average, basis, p.realizedPnl))
  }

  /** Going flat clears cost basis and average cost, whatever rounding left over. */
  function Sold(p: Position, quantity: Decimal, consideration: Decimal): Result<Position, TradeError> {
    if p.quantity < quantity then Failure(InsufficientPosition)
    else
      var rest :- Checked(Sub(p.quantity, quantity));
      var removed :- Checked(RemovedCost(p, quantity));
      var basis :- Checked(Sub(p.costBasis, removed));
      var profit :- Checked(Sub(consideration, removed));
      var realized :- Checked(Add(p.realizedPnl, profit));
      Stored(Position(rest, if rest == 0 then 0 else p.averageCost, if rest == 0 then 0 else basis, realized))
  }

  function Traded(p: Position, t: Trade): Result<Position, TradeError> {
    if t.Buy? then Bought(p, t.quantity, t.consideration) else Sold(p, t.quantity, t.consideration)
  }

  /** The row of one account and instrument, updated in place. */
  class Projection {
    var row: Position

    constructor ()
      ensures row == EMPTY
    {
      row := EMPTY;
    }

    method UpdatePosition(t: Trade) returns (r: Result<(), TradeError>)
      modifies this
      ensures r == match Traded(old(row), t) { case Success(_) => Success(()) case Failure(e) => Failure(e) }
      ensures row == if Traded(old(row), t).Success? then Traded(old(row), t).value else old(row)
    {
      var quantity, averageCost, costBasis, realizedPnl := row.quantity, row.averageCost, row.costBasis,
        row.realizedPnl;
      if t.Buy? {
        quantity :- Checked(Add(quantity, t.quantity));
        costBasis :- Checked(Add(costBasis, t.consideration));
        averageCost :- Checked(Divide(costBasis, quantity, AVERAGE_POLICY));
      } else {
        if quantity < t.quantity {
          return Failure(InsufficientPosition);
        }
        quantity :- Checked(Sub(quantity, t.quantity));
        var removed :- Checked(Multiply(row.averageCost, t.quantity, AVERAGE_POLICY));
        costBasis :- Checked(Sub(costBasis, removed));
        var profit :- Checked(Sub(t.consideration, removed));
        realizedPnl :- Checked(Add(realizedPnl, profit));
        if quantity == 0 {
          averageCost := 0;
          costBasis := 0;
        }
      }
      var updated := Position(quantity, averageCost, costBasis, realizedPnl);
      if !Storable(updated) {
        return Failure(CheckViolated);
      }
      row := updated;
      return Success(());
    }
  }

  // ---- Accounting over a whole history ----

  /** A position with what its history added up to: money in and out, residuals dropped, and rounding steps taken. */
  datatype Track = Track(p: Position, bought: int, sold: int, dropped: int, base: int, sells: nat)

  /** What rounding leaves in the cost basis when the position goes flat. */
  function Residual(p: Position, t: Trade): int {
    if t.Sell? && t.quantity == p.quantity && RemovedCost(p, t.quantity).Success?
      then p.costBasis - RemovedCost(p, t.quantity).value else 0
  }

  /** A refused trade leaves no trace. */
  function Next(h: Track, t: Trade): Track {
    var r := Traded(h.p, t);
    if r.Failure? then h
    else if t.Buy? then Track(r.value, h.bought + t.consideration, h.sold, h.dropped, r.value.quantity, 0)
    else Track(r.value, h.bought, h.sold + t.consideration, h.dropped + Residual(h.p, t), h.base, h.sells + 1)
  }

  function History(ts: seq<Trade>): Track {
    if ts == [] then Track(EMPTY, 0, 0, 0, 0, 0) else Next(History(ts[..|ts| - 1]), ts[|ts| - 1])
  }

  predicate Accounts(h: Track) {
    h.p.realizedPnl - h.p.costBasis == h.sold - h.bought + h.dropped
  }

  lemma BuyAccounts(h: Track, t: Trade)
    requires Accounts(h) && t.Buy? && Traded(h.p, t).Success?
    ensures Accounts(Next(h, t))
  {
  }

  lemma SellAccounts(h: Track, t: Trade)
    requires Accounts(h) && t.Sell? && Traded(h.p, t).Success?
    ensures Accounts(Next(h, t))
  {
  }

  /** Realized profit minus cost basis is what sales brought, minus what purchases cost, plus the residuals dropped. */
  lemma {:induction false} ProfitIdentity(ts: seq<Trade>)
    ensures var h := History(ts); h.p.realizedPnl - h.p.costBasis == h.sold - h.bought + h.dropped
  {
    if ts != [] {
      var h, t := History(ts[..|ts| - 1]), ts[|ts| - 1];
      ProfitIdentity(ts[..|ts| - 1]);
      if Traded(h.p, t).Success? {
        if t.Buy? {
          BuyAccounts(h, t);
        } else {
          SellAccounts(h, t);
        }
      }
    }
  }

  /** How far the cost basis is from average cost times quantity, at scale 36. */
  function Drift(p: Position): int {
    p.costBasis * UNIT - p.averageCost * p.quantity
  }

  predicate Within(x: int, bound: int) {
    -bound <= 2 * x <= bound
  }

  /** Half a step per share bought last and per sale since, doubled and at scale 36. */
  function Slack(h: Track): int {
    h.base + h.sells * UNIT
  }

  ghost predicate TrackSound(h: Track) {
    Storable(h.p) && h.base >= 0 && Within(Drift(h.p), Slack(h))
  }

  lemma BuyDrift(p: Position, quantity: Decimal, consideration: Decimal)
    requires Storable(p) && quantity > 0 && Bought(p, quantity, consideration).Success?
    ensures var q := Bought(p, quantity, consideration).value; Within(Drift(q), q.quantity) && q.quantity > 0
  {
    var q := Bought(p, quantity, consideration).value;
    FullScaleRounding(q.costBasis, q.quantity, AVERAGE_POLICY);
    RoundingError(q.costBasis * UNIT, q.quantity, HalfEven, q.averageCost);
  }

  /** The drift of a position after a sale, before anything is cleared. */
  function DriftAfter(p: Position, quantity: Decimal, removed: Decimal): int {
    (p.costBasis - removed) * UNIT - p.averageCost * (p.quantity - quantity)
  }

  lemma RemovalError(exact: int, unit: nat, removed: int)
    requires unit > 0 && IsRounded(exact, unit, HalfEven, removed)
    ensures Within(removed * unit - exact, unit)
  {
    RoundingError(exact, unit, HalfEven, removed);
  }

  lemma SplitProducts(basis: int, removed: int, unit: int, average: int, quantity: int, sold: int)
    ensures (basis - removed) * unit - average * (quantity - sold) ==
            (basis * unit - average * quantity) - (removed * unit - average * sold)
  {
  }

  lemma RemovedIsRounded(p: Position, quantity: Decimal)
    ensures RemovedCost(p, quantity).Success? ==>
              IsRounded(p.averageCost * quantity, UNIT, HalfEven, RemovedCost(p, quantity).value)
  {
    FullScaleRounding(p.averageCost, quantity, AVERAGE_POLICY);
  }

  /** Each sale adds at most half a step of drift. */
  lemma SaleDrift(p: Position, quantity: Decimal, removed: Decimal, bound: int)
    requires IsRounded(p.averageCost * quantity, UNIT, HalfEven, removed) && Within(Drift(p), bound)
    ensures Within(DriftAfter(p, quantity, removed), bound + UNIT)
  {
    RemovalError(p.averageCost * quantity, UNIT, removed);
    DriftSum(p.costBasis, removed, UNIT, p.averageCost, p.quantity, quantity, bound);
  }

  lemma DriftSum(basis: int, removed: int, unit: int, average: int, quantity: int, sold: int, bound: int)
    requires Within(basis * unit - average * quantity, bound) && Within(removed * unit - average * sold, unit)
    ensures Within((basis - removed) * unit - average * (quantity - sold), bound + unit)
  {
    SplitProducts(basis, removed, unit, average, quantity, sold);
  }

  /** The row a sale writes. */
  lemma SoldRow(p: Position, quantity: Decimal, consideration: Decimal)
    requires Sold(p, quantity, consideration).Success?
    ensures RemovedCost(p, quantity).Success?
    ensures var q := Sold(p, quantity, consideration).value;
            && q.quantity == p.quantity - quantity
            && (q.quantity == 0 ==> q.averageCost == 0 && q.costBasis == 0)
            && (q.quantity != 0 ==>
                 q.averageCost == p.averageCost && q.costBasis == p.costBasis - RemovedCost(p, quantity).value)
  {
  }

  lemma RowDrift(p: Position, q: Position, quantity: Decimal, removed: Decimal, bound: int)
    requires q.quantity == p.quantity - quantity && Within(DriftAfter(p, quantity, removed), bound) && bound >= 0
    requires q.quantity == 0 ==> q.averageCost == 0 && q.costBasis == 0
    requires q.quantity != 0 ==> q.averageCost == p.averageCost && q.costBasis == p.costBasis - removed
    ensures Within(Drift(q), bound)
  {
  }

  lemma NextSlack(h: Track)
    ensures Slack(h.(sells := h.sells + 1)) == Slack(h) + UNIT
  {
    NextMultiple(h.sells, UNIT);
  }

  lemma StepKeepsTrack(h: Track, t: Trade)
    requires TrackSound(h) && t.quantity > 0
    ensures TrackSound(Next(h, t))
  {
    if Traded(h.p, t).Success? {
      if t.Buy? {
        BuyDrift(h.p, t.quantity, t.consideration);
      } else {
        SaleKeepsTrack(h, t.quantity, t.consideration);
      }
    }
  }

  lemma SaleKeepsTrack(h: Track, quantity: Decimal, consideration: Decimal)
    requires TrackSound(h) && quantity > 0 && Sold(h.p, quantity, consideration).Success?
    ensures Within(Drift(Sold(h.p, quantity, consideration).value), Slack(h.(sells := h.sells + 1)))
  {
    var removed := RemovedCost(h.p, quantity).value;
    SoldRow(h.p, quantity, consideration);
    RemovedIsRounded(h.p, quantity);
    SaleDrift(h.p, quantity, removed, Slack(h));
    NextSlack(h);
    SlackIsPositive(h);
    RowDrift(h.p, Sold(h.p, quantity, consideration).value, quantity, removed, Slack(h) + UNIT);
  }

  lemma SlackIsPositive(h: Track)
    requires h.base >= 0
    ensures Slack(h) >= 0
  {
  }

  /** At all times the drift is at most half a step per share bought last and per sale since. */
  lemma {:induction false} DriftBound(ts: seq<Trade>)
    requires forall i | 0 <= i < |ts| :: ts[i].quantity > 0
    ensures TrackSound(History(ts))
  {
    if ts != [] {
      DriftBound(ts[..|ts| - 1]);
      StepKeepsTrack(History(ts[..|ts| - 1]), ts[|ts| - 1]);
    }
  }

  /** A residual dropped on going flat obeys the same bound. */
  lemma ResidualBound(h: Track, t: Trade)
    requires TrackSound(h) && t.Sell? && t.quantity > 0 && t.quantity == h.p.quantity && Traded(h.p, t).Success?
    ensures Within(Residual(h.p, t) * UNIT, Slack(h) + UNIT)
  {
    RemovedIsRounded(h.p, t.quantity);
    SaleDrift(h.p, t.quantity, RemovedCost(h.p, t.quantity).value, Slack(h));
  }

  // ---- Sales the table refuses ----

  /**
   Within decimal range, a sale of held shares is stored unless it leaves shares but removes more cost than there is.
   */
  lemma SaleIsStoredExactly(p: Position, quantity: Decimal, consideration: Decimal)
    requires Storable(p) && 0 < quantity <= p.quantity && Sold(p, quantity, consideration) != Failure(Arithmetic)
    ensures RemovedCost(p, quantity).Success?
    ensures Sold(p, quantity, consideration).Success? <==>
            quantity == p.quantity || RemovedCost(p, quantity).value <= p.costBasis
    ensures Sold(p, quantity, consideration).Failure? ==> Sold(p, quantity, consideration).error == CheckViolated
  {
  }

  /** A refused sale is one that would leave less, at average cost, than rounding has drifted. */
  lemma RefusedSaleLeavesDust(h: Track, t: Trade)
    requires TrackSound(h) && t.Sell? && t.quantity > 0 && Traded(h.p, t) == Failure(CheckViolated)
    ensures 2 * (h.p.averageCost * (h.p.quantity - t.quantity)) < Slack(h) + UNIT
  {
    SaleIsStoredExactly(h.p, t.quantity, t.consideration);
    var removed := RemovedCost(h.p, t.quantity).value;
    RemovedIsRounded(h.p, t.quantity);
    SaleDrift(h.p, t.quantity, removed, Slack(h));
    DriftBelow(h.p.costBasis - removed, UNIT, h.p.averageCost * (h.p.quantity - t.quantity), Slack(h) + UNIT);
  }

  lemma DriftBelow(basis: int, unit: nat, rest: int, bound: int)
    requires basis < 0 && unit > 0 && Within(basis * unit - rest, bound)
    ensures 2 * rest < bound
  {
    assert basis * unit < 0;
  }

  /** Three million shares bought for two dollars, at the rounded average cost. */
  const MILLIONS: Decimal := 3_000_000_000_000_000_000_000_000
  const DUSTY := Position(MILLIONS, 666_666_666_667, 2_000_000_000_000_000_000, 0)

  /** What a sale of all, or of all but the last step, takes out of the basis. */
  const REMOVED: Decimal := 2_000_000_000_001_000_000

  lemma DustBought()
    ensures Traded(EMPTY, Buy(MILLIONS, 2_000_000_000_000_000_000)) == Success(DUSTY)
  {
    RoundingIsUnique(2_000_000_000_000_000_000 * UNIT, MILLIONS, HalfEven, 666_666_666_667);
    assert Divide(2_000_000_000_000_000_000, MILLIONS, AVERAGE_POLICY) == Success(666_666_666_667);
  }

  lemma DustRemoved(quantity: Decimal)
    requires MILLIONS - 1 <= quantity <= MILLIONS
    ensures RemovedCost(DUSTY, quantity) == Success(REMOVED)
  {
    RoundingIsUnique(666_666_666_667 * quantity, UNIT, HalfEven, REMOVED);
  }

  lemma DustSold(quantity: Decimal, proceeds: Decimal)
    requires MILLIONS - 1 <= quantity <= MILLIONS && 0 < proceeds < LIMIT - 3 * UNIT
    ensures Traded(DUSTY, Sell(quantity, proceeds)) ==
            if quantity == MILLIONS then Success(Position(0, 0, 0, proceeds - REMOVED)) else Failure(CheckViolated)
  {
    DustRemoved(quantity);
  }

  /** Three million shares for two dollars, then all but the last 10^-18 share offered for sale: refused. */
  lemma DustSaleRefused(proceeds: Decimal)
    requires 0 < proceeds < LIMIT - 3 * UNIT
    ensures var bought := Traded(EMPTY, Buy(MILLIONS, 2_000_000_000_000_000_000));
            && bought.Success?
            && Traded(bought.value, Sell(MILLIONS - 1, proceeds)) == Failure(CheckViolated)
            && Traded(bought.value, Sell(MILLIONS, proceeds)).Success?
  {
    DustBought();
    DustSold(MILLIONS - 1, proceeds);
    DustSold(MILLIONS, proceeds);
  }
}
