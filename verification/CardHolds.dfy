/** Holds: a customer's HELD balance is what their open authorizations still reserve. */
module CardHolds {
  import opened Results
  import opened Decimals
  import opened Entries
  import opened Sums
  import opened AutoSell
  import opened CardLedger
  import opened Card

  // ---- Amounts of one capture ----

  /** What a capture consumes of the hold is exactly min(released, settled), and a final capture reverses the rest. */
  lemma CaptureConsumes(a: Authorization, previous: Decimal, released: Decimal, amount: Decimal, final: bool,
      k: Conditions)
    requires a.authorizedUsd - a.reversedUsd - released >= 0
    requires CaptureAmounts(a, previous, released, amount, final, k).Success?
    requires CaptureAmounts(a, previous, released, amount, final, k).value.settled > 0
    ensures var m := CaptureAmounts(a, previous, released, amount, final, k).value;
            var remaining := a.authorizedUsd - a.reversedUsd - released;
            && 0 <= m.release <= remaining && m.extra >= 0
            && Minimum(m.release, m.settled) == m.release - m.extra
            && (m.isFinal ==> m.release == remaining)
            && (!m.isFinal ==> m.extra == 0 && m.release == Minimum(remaining, m.settled))
            && (m.isFinal <==> final || previous + amount >= a.merchantAmount)
  {
  }

  /** Amounts captured in order on one authorization, and the tip units each one counts. */
  function TipUnitsSum(authorized: Decimal, amounts: seq<Decimal>): Decimal {
    if amounts == [] then 0
    else
      var n := |amounts| - 1;
      TipUnitsSum(authorized, amounts[..n]) + TipUnits(authorized, Plus(amounts[..n]), Plus(amounts))
  }

  function Plus(amounts: seq<Decimal>): Decimal {
    if amounts == [] then 0 else Plus(amounts[..|amounts| - 1]) + amounts[|amounts| - 1]
  }

  /** Tips telescope: over any series of captures they add up to what exceeds the authorized amount, counted once. */
  lemma {:induction false} TipsTelescope(authorized: Decimal, amounts: seq<Decimal>)
    requires authorized >= 0 && forall i | 0 <= i < |amounts| :: amounts[i] > 0
    ensures TipUnitsSum(authorized, amounts) == PositiveRemainder(Plus(amounts) - authorized)
  {
    if amounts != [] {
      TipsTelescope(authorized, amounts[..|amounts| - 1]);
    }
  }

  // ---- The invariant ----

  function Consumed(cs: seq<Capture>, a: nat): int {
    if cs == [] then 0
    else
      var c := cs[|cs| - 1];
      Consumed(cs[..|cs| - 1], a) + if c.authorization == a then Minimum(c.holdReleasedUsd, c.settledUsd) else 0
  }

  /** What captures of an authorization settled. */
  function SettledTotal(cs: seq<Capture>, a: nat): int {
    if cs == [] then 0
    else var c := cs[|cs| - 1]; SettledTotal(cs[..|cs| - 1], a) + if c.authorization == a then c.settledUsd else 0
  }

  function Remaining(b: Book, a: nat): int
    requires a < |b.authorizations|
  {
    b.authorizations[a].authorizedUsd - b.authorizations[a].reversedUsd - HoldReleased(b.captures, a)
  }

  /**
   While open, everything released was consumed; once closed, the hold is split into consumed and reversed exactly.
   */
  ghost predicate HoldSound(b: Book, a: nat)
    requires a < |b.authorizations|
  {
    var x := b.authorizations[a];
    && x.customer in b.profiles && 0 < x.authorizedUsd < LIMIT && x.reversedUsd >= 0 && HoldReleased(b.captures, a) >= 0
    && x.capturedUsd == SettledTotal(b.captures, a)
    && (x.IsOpen() ==> Remaining(b, a) >= 0 && Consumed(b.captures, a) == HoldReleased(b.captures, a))
    && (x.status.Captured? || x.status.Reversed? ==> x.authorizedUsd == x.reversedUsd + Consumed(b.captures, a))
    && (x.status.Declined? ==> Consumed(b.captures, a) == 0 && HoldReleased(b.captures, a) == 0)
  }

  /** Receivable accounts belong to one customer, and to no clearing or cash role. */
  ghost predicate AccountsApart(b: Book) {
    && (forall c | c in b.profiles :: b.profiles[c].Apart())
    && (forall c, d | c in b.profiles && d in b.profiles ::
          && b.profiles[c].receivable != b.profiles[d].clearing && b.profiles[c].receivable != b.profiles[d].cash
          && (c != d ==> b.profiles[c].receivable != b.profiles[d].receivable))
  }

  /** What an authorization still holds for a customer: nothing once it is closed. */
  function HeldTerm(b: Book, c: Customer): nat -> int {
    (a: nat) => if a < |b.authorizations| && b.authorizations[a].customer == c && b.authorizations[a].IsOpen()
      then Remaining(b, a) else 0
  }

  ghost predicate HoldsMatch(b: Book) {
    forall c | c in b.profiles :: Balance(b.journal, b.profiles[c].HeldKey()) == Sum(HeldTerm(b, c), |b.authorizations|)
  }

  ghost predicate CaptureInOrder(b: Book, c: Capture) {
    c.authorization < |b.authorizations| && c.merchantAmount > 0 && c.holdReleasedUsd >= 0
  }

  ghost predicate HoldsSound(b: Book) {
    && AccountsApart(b)
    && (forall i | 0 <= i < |b.captures| :: CaptureInOrder(b, b.captures[i]))
    && (forall a: nat | a < |b.authorizations| :: HoldSound(b, a))
    && HoldsMatch(b)
  }

  // ---- How a new row or a change of status moves the sums ----

  /** A book that keeps accounts, and changes one authorization and its captures by what its HELD balance moved. */
  lemma HoldsByAuthorization(b: Book, u: Book, i: nat, customer: Customer)
    requires HoldsMatch(b) && AccountsApart(b) && customer in b.profiles && i < |u.authorizations|
    requires |b.authorizations| <= |u.authorizations| <= |b.authorizations| + 1
             && (i == |b.authorizations| || |u.authorizations| == |b.authorizations|)
    requires forall c :: c in u.profiles <==> c in b.profiles
    requires forall c | c in b.profiles :: u.profiles[c].HeldKey() == b.profiles[c].HeldKey()
    requires u.authorizations[i].customer == customer
    requires i < |b.authorizations| ==> b.authorizations[i].customer == customer
    requires forall a: nat | a < |b.authorizations| && a != i ::
             u.authorizations[a] == b.authorizations[a] && HoldReleased(u.captures, a) == HoldReleased(b.captures, a)
    requires forall c | c in b.profiles ::
               Balance(u.journal, b.profiles[c].HeldKey()) - Balance(b.journal, b.profiles[c].HeldKey()) ==
               if c == customer then HeldTerm(u, c)(i) - HeldTerm(b, c)(i) else 0
    ensures HoldsMatch(u)
  {
    forall c | c in u.profiles
      ensures Balance(u.journal, u.profiles[c].HeldKey()) == Sum(HeldTerm(u, c), |u.authorizations|)
    {
      assert Balance(b.journal, b.profiles[c].HeldKey()) == Sum(HeldTerm(b, c), |b.authorizations|);
      HeldSumChange(b, u, i, c);
    }
  }

  lemma HeldSumChange(b: Book, u: Book, i: nat, c: Customer)
    requires |b.authorizations| <= |u.authorizations| <= |b.authorizations| + 1
             && (i == |b.authorizations| || |u.authorizations| == |b.authorizations|)
    requires i < |u.authorizations|
    requires forall a: nat | a < |b.authorizations| && a != i ::
             u.authorizations[a] == b.authorizations[a] && HoldReleased(u.captures, a) == HoldReleased(b.captures, a)
    ensures Sum(HeldTerm(u, c), |u.authorizations|) ==
            Sum(HeldTerm(b, c), |b.authorizations|) + HeldTerm(u, c)(i) - HeldTerm(b, c)(i)
  {
    forall a: nat | a < |b.authorizations| && a != i ensures HeldTerm(u, c)(a) == HeldTerm(b, c)(a) {
    }
    SumChange(HeldTerm(b, c), HeldTerm(u, c), |b.authorizations|, i);
  }

  lemma {:induction false} ReleasedAfter(cs: seq<Capture>, c: Capture, a: nat)
    ensures HoldReleased(cs + [c], a) == HoldReleased(cs, a) + if c.authorization == a then c.holdReleasedUsd else 0
    ensures Consumed(cs + [c], a) == Consumed(cs, a) + if c.authorization == a
            then Minimum(c.holdReleasedUsd, c.settledUsd) else 0
    ensures SettledTotal(cs + [c], a) == SettledTotal(cs, a) + if c.authorization == a then c.settledUsd else 0
  {
    assert (cs + [c])[..|cs|] == cs;
  }

  lemma {:induction false} NothingReleased(cs: seq<Capture>, a: nat)
    requires forall i | 0 <= i < |cs| :: cs[i].authorization != a
    ensures HoldReleased(cs, a) == 0 && Consumed(cs, a) == 0 && SettledTotal(cs, a) == 0
  {
    if cs != [] {
      NothingReleased(cs[..|cs| - 1], a);
    }
  }

  lemma AuthorizationKeepsHolds(b: Book, c: Command, k: Conditions)
    requires HoldsSound(b) && c.AuthorizeCard? && c.customer in b.profiles && PlanAuthorization(b, c, k).Success?
    ensures HoldsSound(WithAuthorization(b, c, PlanAuthorization(b, c, k).value))
  {
    var x := PlanAuthorization(b, c, k).value;
    var u := WithAuthorization(b, c, x);
    var n := |b.authorizations|;
    var p := b.profiles[c.customer];
    forall i | 0 <= i < |b.captures| ensures b.captures[i].authorization != n && CaptureInOrder(u, b.captures[i]) {
      assert CaptureInOrder(b, b.captures[i]);
    }
    NothingReleased(b.captures, n);
    AuthorizedInRange(c, k);
    forall a: nat | a < |u.authorizations| ensures HoldSound(u, a) {
      assert a < n ==> HoldSound(b, a);
    }
    forall d | d in b.profiles
      ensures Balance(u.journal, b.profiles[d].HeldKey()) - Balance(b.journal, b.profiles[d].HeldKey()) ==
              if d == c.customer then HeldTerm(u, d)(n) - HeldTerm(b, d)(n) else 0
    {
      BalanceOfConcat(b.journal, AuthorizationEntries(p, x), b.profiles[d].HeldKey());
      HoldEffect(p, x.authorizedUsd, b.profiles[d].HeldKey());
    }
    HoldsByAuthorization(b, u, n, c.customer);
  }

  lemma AuthorizedInRange(c: Command, k: Conditions)
    requires c.AuthorizeCard? && k.rate.Some? && Converted(c.merchantAmount, k.rate.value, k.markup).Success?
    ensures Converted(c.merchantAmount, k.rate.value, k.markup).value < LIMIT
  {
  }

  /** What a reversal decides about its authorization. */
  lemma ReversalFacts(b: Book, c: Command)
    requires HoldsSound(b) && c.ReverseHold? && c.customer in b.profiles && PlanReversal(b, c).Success? && c.amount > 0
    ensures c.authorization < |b.authorizations|
    ensures var a, x := b.authorizations[c.authorization], PlanReversal(b, c).value;
            && a.customer == c.customer && a.IsOpen() && c.amount <= Remaining(b, c.authorization)
            && x == a.(reversedUsd := a.reversedUsd + c.amount, status := x.status)
            && x.status == if Remaining(b, c.authorization) > c.amount then a.status else AuthorizationStatus.Reversed
  {
  }

  lemma ReversalKeepsRow(b: Book, c: Command, a: nat)
    requires HoldsSound(b) && c.ReverseHold? && c.customer in b.profiles && PlanReversal(b, c).Success? && c.amount > 0
    requires a < |b.authorizations|
    ensures c.authorization < |b.authorizations| && HoldSound(WithReversal(b, c, PlanReversal(b, c).value), a)
    ensures HeldTerm(WithReversal(b, c, PlanReversal(b, c).value), c.customer)(c.authorization) ==
            HeldTerm(b, c.customer)(c.authorization) - c.amount
  {
    ReversalFacts(b, c);
    assert HoldSound(b, a) && HoldSound(b, c.authorization);
  }

  lemma ReversalKeepsHolds(b: Book, c: Command)
    requires HoldsSound(b) && c.ReverseHold? && c.customer in b.profiles && PlanReversal(b, c).Success? && c.amount > 0
    ensures c.authorization < |b.authorizations| && HoldsSound(WithReversal(b, c, PlanReversal(b, c).value))
  {
    ReversalFacts(b, c);
    var u := WithReversal(b, c, PlanReversal(b, c).value);
    var p := b.profiles[c.customer];
    forall a: nat | a < |u.authorizations| ensures HoldSound(u, a) {
      ReversalKeepsRow(b, c, a);
    }
    forall i | 0 <= i < |b.captures| ensures CaptureInOrder(u, b.captures[i]) {
      assert CaptureInOrder(b, b.captures[i]);
    }
    ReversalKeepsRow(b, c, c.authorization);
    forall d | d in b.profiles
      ensures Balance(u.journal, b.profiles[d].HeldKey()) - Balance(b.journal, b.profiles[d].HeldKey()) ==
              if d == c.customer then HeldTerm(u, d)(c.authorization) - HeldTerm(b, d)(c.authorization) else 0
    {
      BalanceOfConcat(b.journal, ReleaseEntries(p, c.amount), b.profiles[d].HeldKey());
      ReleaseEffect(p, c.amount, b.profiles[d].HeldKey());
    }
    HoldsByAuthorization(b, u, c.authorization, c.customer);
  }

  lemma RepaidParts(journal: seq<Entry>, p: Profile, settled: Decimal, soldToday: Decimal, k: Conditions)
    requires !p.mode.MonthlyStatement? && Repaid(journal, p, settled, soldToday, k).Success?
    ensures CashShare(journal, p, settled).Success?
    ensures var cash := CashShare(journal, p, settled).value;
            && Shortfall(journal, p, settled - cash, soldToday, k).Success?
            && Repaid(journal, p, settled, soldToday, k) ==
               RepaidFrom(Shortfall(journal, p, settled - cash, soldToday, k).value, p, settled, cash)
  {
  }

  /** Repaying and selling leave every hold alone and take the repaid amount off the receivable. */
  lemma RepaidEffect(journal: seq<Entry>, p: Profile, settled: Decimal, soldToday: Decimal, k: Conditions, key: Key)
    requires p.Apart() && settled >= 0 && Repaid(journal, p, settled, soldToday, k).Success?
    requires key.account != p.clearing && (key.dimension == Held || key.dimension == Receivable)
    ensures var r := Repaid(journal, p, settled, soldToday, k).value;
            && Balance(r.journal, key) == Balance(journal, key)
               - (if key == p.ReceivableKey() then r.cash + r.auto else 0)
            && r.cash >= 0 && r.auto >= 0 && r.cash + r.auto <= settled
  {
    if !p.mode.MonthlyStatement? {
      RepaidParts(journal, p, settled, soldToday, k);
      var cash := CashShare(journal, p, settled).value;
      var sale := Shortfall(journal, p, settled - cash, soldToday, k).value;
      ShortfallEffect(journal, p, settled - cash, soldToday, k, key);
      RepaidFromEffect(sale, p, settled, cash, key);
    }
  }

  lemma RepaidFromEffect(sale: Sale, p: Profile, settled: Decimal, cash: Decimal, key: Key)
    requires p.Apart() && 0 <= cash <= settled && sale.proceeds >= 0 && RepaidFrom(sale, p, settled, cash).Success?
    requires key.account != p.clearing
    ensures var r := RepaidFrom(sale, p, settled, cash).value;
            && Balance(r.journal, key) == Balance(sale.journal, key) -
               (if key == p.ReceivableKey() || key == p.SettledCash() || key == p.WithdrawableCash()
                 then r.cash + r.auto else 0)
            && r.cash == cash && r.auto >= 0 && r.cash + r.auto <= settled
  {
    var auto := Minimum(sale.proceeds, settled - cash);
    if cash + auto > 0 {
      BalanceOfConcat(sale.journal, RepaymentEntries(p, cash + auto), key);
      RepaymentEffect(p, cash + auto, key);
    }
  }

  lemma ShortfallEffect(journal: seq<Entry>, p: Profile, shortfall: Decimal, soldToday: Decimal, k: Conditions,
      key: Key)
    requires Shortfall(journal, p, shortfall, soldToday, k).Success?
             && (key.dimension == Held || key.dimension == Receivable)
    ensures var sale := Shortfall(journal, p, shortfall, soldToday, k).value;
            Balance(sale.journal, key) == Balance(journal, key) && sale.proceeds >= 0
  {
    if shortfall > 0 && p.mode.CashThenAutoSell? && k.mandate.Some? && k.mandate.value.live {
      var allowed := k.mandate.value.dailyMax - soldToday;
      var start := Sale(journal, [], Minimum(shortfall, PositiveRemainder(allowed)), 0);
      LoopLeavesDimension(start, k.mandate.value.assets, MarketOf(p, k.mandate.value, k), key);
      ProceedsGrow(start, k.mandate.value.assets, MarketOf(p, k.mandate.value, k));
    }
  }

  /** What a capture decides about its authorization's hold. */
  ghost predicate SplitsHold(b: Book, c: Command, plan: CapturePlan)
    requires c.CapturePayment? && c.authorization < |b.authorizations|
  {
    var a := b.authorizations[c.authorization];
    var x := plan.authorization;
    var row := plan.row;
    var remaining := Remaining(b, c.authorization);
    && a.IsOpen() && a.customer == c.customer && row.authorization == c.authorization
    && row.settledUsd > 0 && 0 <= row.holdReleasedUsd <= remaining && row.merchantAmount == c.merchantAmount
    && x.customer == a.customer && x.authorizedUsd == a.authorizedUsd && x.capturedUsd == a.capturedUsd + row.settledUsd
    && x.reversedUsd == a.reversedUsd + row.holdReleasedUsd - Minimum(row.holdReleasedUsd, row.settledUsd)
    && (x.status.Captured? || x.status.PartiallyCaptured?)
    && (x.status.Captured? ==> row.holdReleasedUsd == remaining)
    && (x.status.PartiallyCaptured? ==> row.holdReleasedUsd <= row.settledUsd)
    && row.cashRepaidUsd >= 0 && row.autoSellRepaidUsd >= 0
    && row.cashRepaidUsd + row.autoSellRepaidUsd <= row.settledUsd
    && row.refundedUsd == 0 && row.status.Posting? && row.settledUsd < LIMIT
  }

  /** The journal after a capture: the receivable up by what is not repaid, the hold down by what is released. */
  ghost predicate MovesJournal(b: Book, c: Command, plan: CapturePlan, key: Key)
    requires c.customer in b.profiles
  {
    var p := b.profiles[c.customer];
    Balance(plan.journal, key) == Balance(b.journal, key) +
    if key == p.ReceivableKey() then plan.row.settledUsd - plan.row.cashRepaidUsd - plan.row.autoSellRepaidUsd
    else if key == p.HeldKey() then -plan.row.holdReleasedUsd else 0
  }

  /** A hold or a receivable of some customer. */
  predicate IsCardKey(b: Book, key: Key) {
    (key.dimension == Held || key.dimension == Receivable) && exists c ::
      c in b.profiles && b.profiles[c].receivable == key.account
  }

  lemma SettledForMoves(b: Book, c: Command, m: Amounts, k: Conditions, key: Key)
    requires AccountsApart(b) && c.CapturePayment? && c.customer in b.profiles && SettledFor(b, c, m, k).Success?
    requires m.release >= 0 && IsCardKey(b, key)
    ensures var r := SettledFor(b, c, m, k).value;
            var p := b.profiles[c.customer];
            && m.settled > 0 && r.cash >= 0 && r.auto >= 0 && r.cash + r.auto <= m.settled
            && Balance(r.journal, key) == Balance(b.journal, key) +
               if key == p.ReceivableKey() then m.settled - r.cash - r.auto else if key == p.HeldKey() then -m.release
                 else 0
  {
    var p := b.profiles[c.customer];
    var es := CaptureEntries(p, m.settled, m.release);
    assert es[0].Valid();
    BalanceOfConcat(b.journal, es, key);
    CaptureEffect(p, m.settled, m.release, key);
    RepaidEffect(b.journal + es, p, m.settled, SoldOn(b.sales, c.customer, k.day), k, key);
  }

  /** A planned capture passed every stage, and its plan is made of their results. */
  lemma CaptureParts(b: Book, c: Command, k: Conditions)
    requires c.CapturePayment? && c.customer in b.profiles && PlanCapture(b, c, k).Success?
    ensures AuthorizationFor(b, c).Success? && AmountsFor(b, c, AuthorizationFor(b, c).value, k).Success?
    ensures var a := AuthorizationFor(b, c).value;
            var m := AmountsFor(b, c, a, k).value;
            SettledFor(b, c, m, k).Success? && CaptureRows(c, a, m, SettledFor(b, c, m, k).value) ==
              PlanCapture(b, c, k)
  {
  }

  lemma AmountsSplitHold(b: Book, c: Command, k: Conditions, a: Authorization, m: Amounts)
    requires HoldsSound(b) && c.CapturePayment? && AuthorizationFor(b, c) == Success(a)
             && AmountsFor(b, c, a, k) == Success(m) && m.settled > 0
    ensures var remaining := Remaining(b, c.authorization);
            && 0 <= m.release <= remaining && m.extra == m.release - Minimum(m.release, m.settled) && m.settled < LIMIT
            && (m.isFinal ==> m.release == remaining) && (!m.isFinal ==> m.release <= m.settled)
  {
    assert HoldSound(b, c.authorization);
    CaptureConsumes(a, MerchantTotal(b.captures, c.authorization), HoldReleased(b.captures, c.authorization),
      c.merchantAmount, c.final, k);
    ReleaseOrZero(a, MerchantTotal(b.captures, c.authorization), HoldReleased(b.captures, c.authorization),
      c.merchantAmount, c.final, k);
  }

  lemma ReleaseIsNonNegative(b: Book, c: Command, k: Conditions, a: Authorization, m: Amounts)
    requires c.CapturePayment? && c.customer in b.profiles && AmountsFor(b, c, a, k) == Success(m)
             && SettledFor(b, c, m, k).Success?
    ensures m.settled > 0 && m.release >= 0
  {
    assert CaptureEntries(b.profiles[c.customer], m.settled, m.release)[0].Valid();
    ReleaseOrZero(a, MerchantTotal(b.captures, c.authorization), HoldReleased(b.captures, c.authorization),
      c.merchantAmount, c.final, k);
  }

  lemma ReleaseOrZero(a: Authorization, previous: Decimal, released: Decimal, amount: Decimal, final: bool,
      k: Conditions)
    ensures var r := CaptureAmounts(a, previous, released, amount, final, k);
            r.Success? ==> r.value.settled < LIMIT && (r.value.settled > 0 ==> r.value.release >= 0)
  {
  }

  lemma CapturePlanFacts(b: Book, c: Command, k: Conditions)
    requires HoldsSound(b) && c.CapturePayment? && c.customer in b.profiles && PlanCapture(b, c, k).Success?
    ensures c.authorization < |b.authorizations| && SplitsHold(b, c, PlanCapture(b, c, k).value)
    ensures forall key | IsCardKey(b, key) :: MovesJournal(b, c, PlanCapture(b, c, k).value, key)
  {
    CaptureParts(b, c, k);
    var a := AuthorizationFor(b, c).value;
    var m := AmountsFor(b, c, a, k).value;
    ReleaseIsNonNegative(b, c, k, a, m);
    AmountsSplitHold(b, c, k, a, m);
    PartsMakePlan(b, c, k, a, m, SettledFor(b, c, m, k).value, PlanCapture(b, c, k).value);
  }

  lemma PartsMakePlan(b: Book, c: Command, k: Conditions, a: Authorization, m: Amounts, r: Repayment, plan: CapturePlan)
    requires AccountsApart(b) && c.CapturePayment? && c.customer in b.profiles && AuthorizationFor(b, c) == Success(a)
    requires SettledFor(b, c, m, k) == Success(r) && CaptureRows(c, a, m, r) == Success(plan)
    requires var remaining := Remaining(b, c.authorization);
             && 0 <= m.release <= remaining && m.extra == m.release - Minimum(m.release, m.settled)
             && 0 < m.settled < LIMIT
             && (m.isFinal ==> m.release == remaining) && (!m.isFinal ==> m.release <= m.settled)
    ensures SplitsHold(b, c, plan)
    ensures forall key | IsCardKey(b, key) :: MovesJournal(b, c, plan, key)
  {
    assert IsCardKey(b, b.profiles[c.customer].HeldKey());
    SettledForMoves(b, c, m, k, b.profiles[c.customer].HeldKey());
    forall key | IsCardKey(b, key) ensures MovesJournal(b, c, plan, key) {
      SettledForMoves(b, c, m, k, key);
    }
  }

  lemma BookedCaptureHold(b: Book, c: Command, k: Conditions, plan: CapturePlan, a: nat)
    requires c.CapturePayment? && c.customer in b.profiles && c.authorization < |b.authorizations|
             && SplitsHold(b, c, plan)
    requires a < |b.authorizations| && HoldSound(b, a)
    ensures HoldSound(WithCapture(b, c, k, plan), a)
    ensures a != c.authorization ==> HoldReleased(WithCapture(b, c, k, plan).captures, a) == HoldReleased(b.captures, a)
    ensures a == c.authorization ==>
              HeldTerm(WithCapture(b, c, k, plan), c.customer)(a) ==
                HeldTerm(b, c.customer)(a) - plan.row.holdReleasedUsd
  {
    ReleasedAfter(b.captures, plan.row, a);
  }

  lemma BookedCaptureKeepsHolds(b: Book, c: Command, k: Conditions, plan: CapturePlan)
    requires HoldsSound(b) && c.CapturePayment? && c.customer in b.profiles && c.merchantAmount > 0
    requires c.authorization < |b.authorizations| && SplitsHold(b, c, plan)
    requires forall key | IsCardKey(b, key) :: MovesJournal(b, c, plan, key)
    ensures HoldsSound(WithCapture(b, c, k, plan))
  {
    var u := WithCapture(b, c, k, plan);
    forall a: nat | a < |b.authorizations|
      ensures HoldSound(u, a) && (a != c.authorization ==> HoldReleased(u.captures, a) == HoldReleased(b.captures, a))
    {
      assert HoldSound(b, a);
      BookedCaptureHold(b, c, k, plan, a);
    }
    forall i | 0 <= i < |u.captures| ensures CaptureInOrder(u, u.captures[i]) {
      assert i < |b.captures| ==> CaptureInOrder(b, b.captures[i]);
    }
    BookedCaptureHeld(b, c, k, plan);
  }

  lemma BookedCaptureHeld(b: Book, c: Command, k: Conditions, plan: CapturePlan)
    requires AccountsApart(b) && HoldsMatch(b) && c.CapturePayment? && c.customer in b.profiles
    requires c.authorization < |b.authorizations| && SplitsHold(b, c, plan) && HoldSound(b, c.authorization)
    requires forall key | IsCardKey(b, key) :: MovesJournal(b, c, plan, key)
    requires forall a: nat | a < |b.authorizations| && a != c.authorization ::
               HoldReleased(WithCapture(b, c, k, plan).captures, a) == HoldReleased(b.captures, a)
    ensures HoldsMatch(WithCapture(b, c, k, plan))
  {
    var u := WithCapture(b, c, k, plan);
    BookedCaptureHold(b, c, k, plan, c.authorization);
    forall d | d in b.profiles
      ensures Balance(u.journal, b.profiles[d].HeldKey()) - Balance(b.journal, b.profiles[d].HeldKey()) ==
              if d == c.customer then HeldTerm(u, d)(c.authorization) - HeldTerm(b, d)(c.authorization) else 0
    {
      assert IsCardKey(b, b.profiles[d].HeldKey());
      assert MovesJournal(b, c, plan, b.profiles[d].HeldKey());
    }
    HoldsByAuthorization(b, u, c.authorization, c.customer);
  }

  lemma CaptureKeepsHolds(b: Book, c: Command, k: Conditions)
    requires HoldsSound(b) && c.CapturePayment? && c.customer in b.profiles && c.merchantAmount > 0
             && PlanCapture(b, c, k).Success?
    ensures c.authorization < |b.authorizations| && HoldsSound(WithCapture(b, c, k, PlanCapture(b, c, k).value))
  {
    CapturePlanFacts(b, c, k);
    BookedCaptureKeepsHolds(b, c, k, PlanCapture(b, c, k).value);
  }

  // ---- Transactions that touch no hold ----

  /** The fields of a capture that holds depend on. */
  ghost predicate SameCapture(x: Capture, y: Capture) {
    x.authorization == y.authorization && x.holdReleasedUsd == y.holdReleasedUsd && x.settledUsd == y.settledUsd
    && x.cashRepaidUsd == y.cashRepaidUsd && x.autoSellRepaidUsd == y.autoSellRepaidUsd
    && x.merchantAmount == y.merchantAmount
  }

  lemma {:induction false} SameTotals(cs: seq<Capture>, ds: seq<Capture>, a: nat)
    requires |cs| == |ds| && forall i | 0 <= i < |cs| :: SameCapture(cs[i], ds[i])
    ensures HoldReleased(cs, a) == HoldReleased(ds, a) && Consumed(cs, a) == Consumed(ds, a)
            && SettledTotal(cs, a) == SettledTotal(ds, a)
  {
    if cs != [] {
      SameTotals(cs[..|cs| - 1], ds[..|ds| - 1], a);
      assert SameCapture(cs[|cs| - 1], ds[|ds| - 1]);
    }
  }

  ghost predicate SameAccounts(b: Book, u: Book) {
    && u.profiles.Keys == b.profiles.Keys
    && forall c | c in b.profiles ::
         && u.profiles[c].receivable == b.profiles[c].receivable && u.profiles[c].cash == b.profiles[c].cash
         && u.profiles[c].clearing == b.profiles[c].clearing
  }

  lemma HoldsUntouched(b: Book, u: Book)
    requires HoldsSound(b) && SameAccounts(b, u) && u.authorizations == b.authorizations
    requires |u.captures| == |b.captures| && forall i | 0 <= i < |b.captures| ::
             SameCapture(b.captures[i], u.captures[i])
    requires forall c | c in b.profiles ::
             Balance(u.journal, b.profiles[c].HeldKey()) == Balance(b.journal, b.profiles[c].HeldKey())
    ensures HoldsSound(u)
  {
    forall a: nat | a < |u.authorizations| ensures HoldSound(u, a) {
      assert HoldSound(b, a);
      SameTotals(b.captures, u.captures, a);
    }
    forall c | c in u.profiles
      ensures Balance(u.journal, u.profiles[c].HeldKey()) == Sum(HeldTerm(u, c), |u.authorizations|)
    {
      assert Balance(b.journal, b.profiles[c].HeldKey()) == Sum(HeldTerm(b, c), |b.authorizations|);
      forall a: nat | a < |b.authorizations| ensures HeldTerm(u, c)(a) == HeldTerm(b, c)(a) {
        SameTotals(b.captures, u.captures, a);
      }
      SumSame(HeldTerm(b, c), HeldTerm(u, c), |b.authorizations|);
    }
    forall i | 0 <= i < |u.captures| ensures CaptureInOrder(u, u.captures[i]) {
      assert SameCapture(b.captures[i], u.captures[i]) && CaptureInOrder(b, b.captures[i]);
    }
  }
}
