/** Positions over every run are the accounting of their fills, so its laws hold of every stored row. */
module SecuritiesHistory {
  import opened Results
  import opened Decimals
  import opened Entries
  import opened Securities
  import opened SecuritiesRuns
  import Positions

  function TradeOf(o: Order, f: Fill): Positions.Trade {
    if o.buy then Positions.Buy(f.quantity, f.consideration) else Positions.Sell(f.quantity, f.consideration)
  }

  /** The trades of one position, in the order of their fills. */
  function TradesOf(orders: seq<Order>, fills: seq<Fill>, owner: Owner): seq<Positions.Trade> {
    if fills == [] then []
    else
      var f := fills[|fills| - 1];
      TradesOf(orders, fills[..|fills| - 1], owner)
      + if f.order < |orders| && orders[f.order].owner == owner then [TradeOf(orders[f.order], f)] else []
  }

  /** The stored row of every position is what the accounting of its fills comes to. */
  ghost predicate Accounted(b: Book) {
    && (forall f | f in b.fills :: f.order < |b.orders| && f.quantity > 0)
    && forall owner :: RowMatches(b, owner)
  }

  ghost predicate RowMatches(b: Book, owner: Owner) {
    b.Position(owner) == Positions.History(TradesOf(b.orders, b.fills, owner)).p
  }

  /** Orders keep their owner and side. */
  ghost predicate SameSides(orders: seq<Order>, more: seq<Order>) {
    |orders| <= |more| && forall n | 0 <= n < |orders| ::
      more[n].owner == orders[n].owner && more[n].buy == orders[n].buy
  }

  lemma {:induction false} SameTrades(orders: seq<Order>, more: seq<Order>, fills: seq<Fill>, owner: Owner)
    requires SameSides(orders, more) && forall f | f in fills :: f.order < |orders|
    ensures TradesOf(more, fills, owner) == TradesOf(orders, fills, owner)
  {
    if fills != [] {
      assert fills[|fills| - 1] in fills;
      SameTrades(orders, more, fills[..|fills| - 1], owner);
    }
  }

  lemma {:induction false} TradesArePositive(orders: seq<Order>, fills: seq<Fill>, owner: Owner)
    requires forall f | f in fills :: f.quantity > 0
    ensures forall i | 0 <= i < |TradesOf(orders, fills, owner)| :: TradesOf(orders, fills, owner)[i].quantity > 0
  {
    if fills != [] {
      assert fills[|fills| - 1] in fills;
      TradesArePositive(orders, fills[..|fills| - 1], owner);
    }
  }

  /** Rows of orders and nothing of fills or positions changed. */
  lemma OrdersKeepAccounted(b: Book, u: Book)
    requires Accounted(b) && SameSides(b.orders, u.orders) && u.fills == b.fills && u.positions == b.positions
    ensures Accounted(u)
  {
    forall owner ensures RowMatches(u, owner) {
      assert RowMatches(b, owner);
      SameTrades(b.orders, u.orders, b.fills, owner);
    }
  }

  lemma NextTrade(ts: seq<Positions.Trade>, t: Positions.Trade)
    requires Positions.Traded(Positions.History(ts).p, t).Success?
    ensures Positions.History(ts + [t]).p == Positions.Traded(Positions.History(ts).p, t).value
  {
    assert (ts + [t])[..|ts|] == ts;
  }

  /** What a planned fill writes: its position is the trade applied to the stored row. */
  lemma PlannedPosition(b: Book, o: Order, e: BrokerEvent)
    requires e.kind.Filling? && b.Knows(o.owner) && PlanFill(b, o, e).Success?
    ensures var plan := PlanFill(b, o, e).value;
            PositionAfter(b, o, e.kind.quantity, plan.consideration) == Success(plan.position) && e.kind.quantity > 0
  {
  }

  /** A new fill is one more trade of its order's position. */
  lemma TradeAppended(orders: seq<Order>, more: seq<Order>, fills: seq<Fill>, f: Fill, owner: Owner)
    requires SameSides(orders, more) && f.order < |orders| && forall x | x in fills :: x.order < |orders|
    ensures TradesOf(more, fills + [f], owner) ==
            TradesOf(orders, fills, owner) + if orders[f.order].owner == owner then [TradeOf(orders[f.order], f)]
              else []
  {
    assert (fills + [f])[..|fills|] == fills;
    SameTrades(orders, more, fills, owner);
  }

  lemma FillKeepsRow(b: Book, e: BrokerEvent, plan: FillPlan, owner: Owner)
    requires Accounted(b) && e.kind.Filling? && e.order < |b.orders|
    requires plan.order.owner == b.orders[e.order].owner && plan.order.buy == b.orders[e.order].buy
    requires PositionAfter(b, b.orders[e.order], e.kind.quantity, plan.consideration) == Success(plan.position)
    ensures RowMatches(WithFill(b, e, plan), owner)
  {
    var u := WithFill(b, e, plan);
    var o := b.orders[e.order];
    var f := Fill(e.order, e.id, e.kind.sequence, e.kind.quantity, e.kind.price, plan.consideration);
    var before := TradesOf(b.orders, b.fills, owner);
    TradeAppended(b.orders, u.orders, b.fills, f, owner);
    assert RowMatches(b, owner);
    if owner == o.owner {
      TradedRow(b, o, f, plan.position);
      NextTrade(before, TradeOf(o, f));
    } else {
      assert before + [] == before;
    }
  }

  lemma TradedRow(b: Book, o: Order, f: Fill, p: Positions.Position)
    requires PositionAfter(b, o, f.quantity, f.consideration) == Success(p)
    ensures Positions.Traded(b.Position(o.owner), TradeOf(o, f)) == Success(p)
  {
  }

  lemma ApplyKeepsAccounted(b: Book, n: nat, e: BrokerEvent)
    requires Accounted(b)
    ensures Accounted(Applied(b, n, e).book)
  {
    if Applied(b, n, e).result.Success? && e.id !in b.events {
      if e.kind.Filling? {
        var o := b.orders[n];
        var plan := PlanFill(b, o, e).value;
        PlanFillFacts(b, o, e);
        PlannedPosition(b, o, e);
        forall owner ensures RowMatches(WithFill(b, e, plan), owner) {
          FillKeepsRow(b, e, plan, owner);
        }
      } else {
        OrdersKeepAccounted(b, Applied(b, n, e).book);
      }
    }
  }

  lemma SubmitKeepsAccounted(b: Book, owner: Owner, buy: bool, quantity: Decimal, price: Decimal, e: BrokerEvent)
    requires Accounted(b)
    ensures Accounted(Submitted(b, owner, buy, quantity, price, e).book)
  {
    var more := b.(orders := b.orders + [Order(owner, buy, quantity, 0, 0, PendingSubmission, 0)]);
    OrdersKeepAccounted(b, more);
    ApplyKeepsAccounted(more, |b.orders|, e);
  }

  lemma CancelOnlyOrders(b: Book, n: nat)
    ensures var u := OrderCancelled(b, n).book;
            SameSides(b.orders, u.orders) && u.fills == b.fills && u.positions == b.positions
  {
  }

  lemma CustodyOnlyRows(b: Book, owner: Owner, quantity: Decimal, i: nat)
    ensures var u := Reserved(b, owner, quantity).book;
            u.orders == b.orders && u.fills == b.fills && u.positions == b.positions
    ensures var u := Released(b, i).book;
            u.orders == b.orders && u.fills == b.fills && u.positions == b.positions
  {
  }

  /** Everything but an event leaves fills and positions alone. */
  lemma OnlyOrdersChange(b: Book, s: Step)
    requires !s.Submit? && !s.Apply?
    ensures SameSides(b.orders, After(b, s).orders) && After(b, s).fills == b.fills
            && After(b, s).positions == b.positions
  {
    match s
    case Cancel(n) => CancelOnlyOrders(b, n);
    case Reserve(owner, quantity) => CustodyOnlyRows(b, owner, quantity, 0);
    case Release(i) => CustodyOnlyRows(b, Owner("", ""), 0, i);
    case Elsewhere(_) =>
  }

  lemma StepKeepsAccounted(b: Book, s: Step)
    requires Accounted(b)
    ensures Accounted(After(b, s))
  {
    match s
    case Submit(owner, buy, quantity, price, e) => SubmitKeepsAccounted(b, owner, buy, quantity, price, e);
    case Apply(n, e) => ApplyKeepsAccounted(b, n, e);
    case _ =>
      OnlyOrdersChange(b, s);
      OrdersKeepAccounted(b, After(b, s));
  }

  lemma {:induction false} RunsAreAccounted(b: Book, steps: seq<Step>)
    requires Initial(b)
    ensures Accounted(Run(b, steps))
  {
    if steps == [] {
      forall owner ensures RowMatches(b, owner) {
        assert TradesOf(b.orders, b.fills, owner) == [];
      }
    } else {
      RunsAreAccounted(b, steps[..|steps| - 1]);
      StepKeepsAccounted(Run(b, steps[..|steps| - 1]), steps[|steps| - 1]);
    }
  }

  /**
   After every run, for every stored position: realized profit less cost basis is what its sales brought, less what its
   purchases cost, plus what was dropped on going flat; and the cost basis has drifted by no more than the roundings.
   */
  lemma PositionsAreAccounted(b: Book, steps: seq<Step>, owner: Owner)
    requires Initial(b)
    ensures var u := Run(b, steps);
            var h := Positions.History(TradesOf(u.orders, u.fills, owner));
            var p := u.Position(owner);
            && p == h.p && p.realizedPnl - p.costBasis == h.sold - h.bought + h.dropped
            && Positions.Within(Positions.Drift(p), Positions.Slack(h))
  {
    RunsAreAccounted(b, steps);
    var u := Run(b, steps);
    var ts := TradesOf(u.orders, u.fills, owner);
    assert RowMatches(u, owner);
    TradesArePositive(u.orders, u.fills, owner);
    Positions.ProfitIdentity(ts);
    Positions.DriftBound(ts);
  }
}
