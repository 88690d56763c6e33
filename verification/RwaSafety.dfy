/** The backing guarantee over every run, what finality is needed for, and what reconciliation can report. */
module RwaSafety {
  import opened Results
  import opened Digits
  import opened Decimals
  import opened Sums
  import opened RwaSaga
  import opened RwaWorld

  // ---- Runs ----

  function Run(w: World, steps: seq<Step>): World {
    if steps == [] then w else After(Run(w, steps[..|steps| - 1]), steps[|steps| - 1])
  }

  /** Every step of the run is truthful where it is taken. */
  predicate TruthfulRun(w: World, steps: seq<Step>) {
    steps != [] ==>
      TruthfulRun(w, steps[..|steps| - 1]) && Truthful(Run(w, steps[..|steps| - 1]), steps[|steps| - 1])
  }

  predicate FinalRun(w: World, steps: seq<Step>) {
    steps != [] ==>
      FinalRun(w, steps[..|steps| - 1]) && Final(Run(w, steps[..|steps| - 1]), steps[|steps| - 1])
  }

  /** A run grows by one step at a time. */
  lemma RunStep(w: World, steps: seq<Step>, s: Step)
    ensures Run(w, steps + [s]) == After(Run(w, steps), s)
    ensures TruthfulRun(w, steps + [s]) <==> TruthfulRun(w, steps) && Truthful(Run(w, steps), s)
    ensures FinalRun(w, steps + [s]) <==> FinalRun(w, steps) && Final(Run(w, steps), s)
  {
    assert (steps + [s])[..|steps + [s]| - 1] == steps;
  }

  const START := World(Tables([], [], [], map[], map[], map[], map[], map[], map[], map[], {}), Chain({}, map[]), {})

  // ---- The gap between supply and locked shares ----

  function GapOf(w: World, asset: Asset): nat -> int {
    (m: nat) => TokensOf(w, asset)(m) - SharesOf(w, asset)(m)
  }

  /** Supply minus locked shares is the sum, mint by mint, of its tokens minus its shares. */
  lemma GapIdentity(w: World, asset: Asset)
    requires Sane(w)
    ensures w.chain.Supply(asset) - w.tables.Locked(asset) == Sum(GapOf(w, asset), |w.tables.mints|)
  {
    var t := w.tables;
    var row := (i: nat) => if i < |t.locks| && t.locks[i].locked && t.locks[i].owner.asset == asset
      then t.locks[i].quantity else 0;
    assert t.Locked(asset) == Sum(row, |t.locks|) by {
      LockedByRow(t, asset, row, |t.locks|);
    }
    SumSame(row, SharesOf(w, asset), |t.locks|);
    SumOfDifference(TokensOf(w, asset), SharesOf(w, asset), GapOf(w, asset), |t.mints|);
  }

  lemma LockedByRow(t: Tables, asset: Asset, row: nat -> int, n: nat)
    requires n == |t.locks|
    requires forall i: nat :: row(i) == if i < |t.locks| && t.locks[i].locked && t.locks[i].owner.asset == asset
             then t.locks[i].quantity else 0
    ensures t.Locked(asset) == Sum(row, n)
  {
    SumSame((i: nat) => if i < |t.locks| && t.locks[i].locked && t.locks[i].owner.asset == asset
      then t.locks[i].quantity else 0, row, n);
  }

  /** Where every mint is backed, supply never exceeds the locked shares. */
  lemma BackedSupply(w: World, asset: Asset)
    requires Sane(w) && AllBacked(w)
    ensures w.chain.Supply(asset) <= w.tables.Locked(asset)
  {
    GapIdentity(w, asset);
    var zero := (m: nat) => 0;
    forall m: nat | m < |w.tables.mints| ensures GapOf(w, asset)(m) <= zero(m) {
      assert Backed(w, m) && RowAgrees(w.tables, m);
    }
    SumOrder(GapOf(w, asset), zero, |w.tables.mints|);
    SumOfZero(zero, |w.tables.mints|);
  }

  lemma {:induction false} SumOfZero(f: nat -> int, n: nat)
    requires forall j: nat | j < n :: f(j) == 0
    ensures Sum(f, n) == 0
  {
    if n > 0 {
      SumOfZero(f, n - 1);
    }
  }

  // ---- Exactly which steps can break backing ----

  /** A chain call that lands after its lock was freed, or a lock freed although its tokens exist. */
  predicate Late(w: World, s: Step) {
    var t := w.tables;
    || (s.ChainMints? && s.mint < |t.mints| && s.mint < |t.locks| && !Executed(w, s.mint) && !t.locks[s.mint].locked)
    || (s.RecoverFailedMint? && s.mint < |t.mints| && s.mint < |t.locks| && !t.mints[s.mint].status.FailedRecovered?
        && t.locks[s.mint].locked && Tokens(w, s.mint) > 0)
  }

  /** Locks are freed only by these two transactions, and a completed burn has no tokens left. */
  lemma SharesAfter(w: World, s: Step, m: MintId)
    requires Sane(w) && Truthful(w, s) && m < |w.tables.mints| && After(w, s).tables.Consistent()
    ensures var v := After(w, s);
            && m < |v.tables.mints|
            && (Shares(v, m) == Shares(w, m)
                || (Shares(v, m) == 0 && v.chain == w.chain
                    && ((s == RecoverFailedMint(m) && !w.tables.mints[m].status.FailedRecovered?
                          && w.tables.locks[m].locked)
                        || (s.FinishRedemption? && Tokens(w, m) == 0))))
    ensures s == RecoverFailedMint(m) && !w.tables.mints[m].status.FailedRecovered? ==> Shares(After(w, s), m) == 0
  {
    assert RowAgrees(w.tables, m);
    match s
    case FinishMint(i, response) => MintFinishedEffect(w.tables, i, response);
    case RecoverFailedMint(i) => FailedMintEffect(w.tables, i);
    case BeginRedemption(c, eligible) => RedemptionBegunEffect(w.tables, c, eligible);
    case FinishRedemption(i, response, answered) =>
      RedemptionFinishedEffect(w.tables, i, response, if answered then Some(RedemptionOp(i) in w.chain.executed)
        else None);
    case _ =>
  }

  /** A chain step changes the tokens of its own mint, and no other step changes any. */
  lemma TokensOfMintAfter(w: World, s: Step, m: MintId)
    requires Sane(w) && m < |w.tables.mints| && Evolves(w.tables, After(w, s).tables)
    ensures var v := After(w, s);
            && (s == ChainMints(m) && !Executed(w, m) ==> Tokens(v, m) == w.tables.mints[m].quantity)
            && (s != ChainMints(m) || Executed(w, m) ==> Tokens(v, m) == Tokens(w, m) || Tokens(v, m) == 0)
            && (!s.ChainMints? && !s.ChainBurns? ==> Tokens(v, m) == Tokens(w, m))
  {
    ChainGrows(w, s);
    assert RowEvolves(w.tables, After(w, s).tables, m) && RowAgrees(w.tables, m);
  }

  /** From a fully backed state, a truthful step leaves every mint backed if and only if it is not late. */
  lemma BackingBreaksExactlyWhenLate(w: World, s: Step)
    requires Sane(w) && AllBacked(w) && Truthful(w, s)
    ensures AllBacked(After(w, s)) <==> !Late(w, s)
  {
    var v := After(w, s);
    StepKeepsSane(w, s);
    RowsStayInAgreement(w, s);
    AtMostOneNewRow(w, s);
    ChainGrows(w, s);
    if Late(w, s) {
      SharesAfter(w, s, s.mint);
      TokensOfMintAfter(w, s, s.mint);
      assert RowAgrees(w.tables, s.mint);
      assert !Backed(v, s.mint);
    } else {
      forall m: nat | m < |v.tables.mints| ensures Backed(v, m) {
        if m < |w.tables.mints| {
          assert Backed(w, m) && RowAgrees(w.tables, m);
          SharesAfter(w, s, m);
          TokensOfMintAfter(w, s, m);
        } else {
          NoTokensYet(v, m);
        }
      }
    }
  }

  /** No step of the run is late. */
  predicate NeverLate(w: World, steps: seq<Step>) {
    steps != [] ==>
      NeverLate(w, steps[..|steps| - 1]) && !Late(Run(w, steps[..|steps| - 1]), steps[|steps| - 1])
  }

  /** Every mint is backed in every state of the run. */
  ghost predicate AlwaysBacked(w: World, steps: seq<Step>) {
    AllBacked(Run(w, steps)) && (steps != [] ==> AlwaysBacked(w, steps[..|steps| - 1]))
  }

  /** A truthful run, final or not, is backed in every state if and only if none of its steps is late. */
  lemma {:induction false} BackedExactlyWhenNeverLate(w: World, steps: seq<Step>)
    requires Sane(w) && AllBacked(w) && TruthfulRun(w, steps)
    ensures Sane(Run(w, steps))
    ensures AlwaysBacked(w, steps) <==> NeverLate(w, steps)
  {
    if steps != [] {
      var front := steps[..|steps| - 1];
      BackedExactlyWhenNeverLate(w, front);
      StepKeepsSane(Run(w, front), steps[|steps| - 1]);
      if AllBacked(Run(w, front)) {
        BackingBreaksExactlyWhenLate(Run(w, front), steps[|steps| - 1]);
      } else {
        assert !AlwaysBacked(w, front);
      }
    }
  }

  // ---- What a late step means for an asset ----

  /** Locked shares of a backed mint that no token stands for yet, or any more. */
  function IdleOf(w: World, asset: Asset): nat -> int {
    (m: nat) => if Backed(w, m) then -GapOf(w, asset)(m) else 0
  }

  lemma LateMintIsUnbacked(w: World, s: Step)
    requires Sane(w) && AllBacked(w) && Truthful(w, s) && Late(w, s)
    ensures var v := After(w, s);
            && Sane(v) && s.mint < |v.tables.mints| && v.tables.mints[s.mint].owner == w.tables.mints[s.mint].owner
            && Tokens(v, s.mint) == w.tables.mints[s.mint].quantity > 0 && Shares(v, s.mint) == 0
            && forall m: nat | m < |v.tables.mints| && m != s.mint :: Backed(v, m)
  {
    var v := After(w, s);
    StepKeepsSane(w, s);
    RowsStayInAgreement(w, s);
    AtMostOneNewRow(w, s);
    ChainGrows(w, s);
    SharesAfter(w, s, s.mint);
    TokensOfMintAfter(w, s, s.mint);
    assert RowAgrees(w.tables, s.mint) && RowEvolves(w.tables, v.tables, s.mint);
    forall m: nat | m < |v.tables.mints| && m != s.mint ensures Backed(v, m) {
      if m < |w.tables.mints| {
        assert Backed(w, m) && RowAgrees(w.tables, m);
        SharesAfter(w, s, m);
        TokensOfMintAfter(w, s, m);
      } else {
        NoTokensYet(v, m);
      }
    }
  }

  /** An asset with one unbacked mint: its supply is covered exactly if the other mints' idle shares cover that mint. */
  lemma OneUnbacked(v: World, asset: Asset, i: MintId)
    requires Sane(v) && i < |v.tables.mints| && Shares(v, i) == 0 && Tokens(v, i) > 0
    requires forall m: nat | m < |v.tables.mints| && m != i :: Backed(v, m)
    ensures v.chain.Supply(asset) - v.tables.Locked(asset) ==
            (if v.tables.mints[i].owner.asset == asset then Tokens(v, i) else 0)
              - Sum(IdleOf(v, asset), |v.tables.mints|)
  {
    var n := |v.tables.mints|;
    var surplus := (m: nat) => -GapOf(v, asset)(m);
    var zero := (m: nat) => 0;
    assert RowAgrees(v.tables, i);
    GapIdentity(v, asset);
    SumOfZero(zero, n);
    SumOfDifference(zero, GapOf(v, asset), surplus, n);
    SumChange(surplus, IdleOf(v, asset), n, i);
  }

  /**
   From full backing, a truthful step leaves an asset's supply within its locked shares if and only if it is not a late
   step on a mint of that asset that is worth more than the idle shares of the asset's other mints.
   */
  lemma SupplyBreaksExactlyWhenLate(w: World, s: Step, asset: Asset)
    requires Sane(w) && AllBacked(w) && Truthful(w, s)
    ensures var v := After(w, s);
            v.chain.Supply(asset) <= v.tables.Locked(asset) <==>
            !(Late(w, s) && w.tables.mints[s.mint].owner.asset == asset
              && w.tables.mints[s.mint].quantity > Sum(IdleOf(v, asset), |v.tables.mints|))
  {
    var v := After(w, s);
    StepKeepsSane(w, s);
    if Late(w, s) {
      LateMintIsUnbacked(w, s);
      OneUnbacked(v, asset, s.mint);
      if w.tables.mints[s.mint].owner.asset != asset {
        IdleIsNonNegative(v, asset);
      }
    } else {
      BackingBreaksExactlyWhenLate(w, s);
      BackedSupply(v, asset);
    }
  }

  lemma IdleIsNonNegative(v: World, asset: Asset)
    requires Sane(v)
    ensures Sum(IdleOf(v, asset), |v.tables.mints|) >= 0
  {
    forall m: nat | m < |v.tables.mints| ensures IdleOf(v, asset)(m) >= 0 {
      assert RowAgrees(v.tables, m);
      assert Backed(v, m) ==> GapOf(v, asset)(m) <= 0;
    }
    SumNonNegative(IdleOf(v, asset), |v.tables.mints|);
  }

  lemma NoTokensYet(v: World, m: MintId)
    requires RowsAgree(v.tables) && m < |v.tables.mints| && !Executed(v, m)
    ensures Tokens(v, m) <= Shares(v, m)
  {
    assert RowAgrees(v.tables, m);
  }

  // ---- With final answers: the invariant of every reachable state ----

  ghost predicate RowSound(w: World, m: MintId)
    requires w.tables.Consistent() && m < |w.tables.mints|
  {
    var t := w.tables;
    && (m in w.refused ==> !Executed(w, m))
    && (t.mints[m].status.FailedRecovered? ==> m in w.refused && !t.locks[m].locked && m !in t.redemptions)
    && (m in t.redemptions ==> t.mints[m].status.Minted?)
    && (!t.locks[m].locked ==>
         t.mints[m].status.FailedRecovered? || (m in t.redemptions && t.redemptions[m].status.Completed?))
    && (m in t.redemptions && t.redemptions[m].status.Completed? ==> !t.locks[m].locked && Burned(w, m))
  }

  ghost predicate RowsSound(w: World) {
    && w.tables.Consistent()
    && (forall m: nat | m < |w.tables.mints| :: RowSound(w, m))
    && (forall m | m in w.refused :: m < |w.tables.mints|)
  }

  /** The shares a customer holds through mint `m`. */
  function HeldThrough(t: Tables, owner: Owner): nat -> int {
    (m: nat) => if m < |t.mints| && m < |t.locks| && t.mints[m].owner == owner && t.mints[m].status.Minted?
      && t.locks[m].locked
      then t.mints[m].quantity else 0
  }

  ghost predicate HoldingsMatch(t: Tables) {
    forall owner :: t.Holding(owner) == Sum(HeldThrough(t, owner), |t.mints|)
  }

  ghost predicate Safe(w: World) {
    Sane(w) && RowsSound(w) && HoldingsMatch(w.tables)
  }

  lemma RowStaysSound(w: World, s: Step, m: MintId)
    requires Sane(w) && RowsSound(w) && Truthful(w, s) && Final(w, s)
    requires After(w, s).tables.Consistent() && m < |w.tables.mints| <= |After(w, s).tables.mints|
    ensures RowSound(After(w, s), m)
  {
    assert RowSound(w, m);
    match s
    case FinishMint(i, response) => MintFinishedEffect(w.tables, i, response);
    case RecoverFailedMint(i) => FailedMintEffect(w.tables, i);
    case BeginRedemption(c, eligible) => RedemptionBegunEffect(w.tables, c, eligible);
    case FinishRedemption(i, response, answered) => FinishedRowStaysSound(w, i, response, answered, m);
    case _ =>
  }

  lemma FinishedRowStaysSound(w: World, i: MintId, response: Response, answered: bool, m: MintId)
    requires Sane(w) && RowsSound(w) && Truthful(w, FinishRedemption(i, response, answered)) && m < |w.tables.mints|
    requires After(w, FinishRedemption(i, response, answered)).tables.Consistent()
    requires m < |After(w, FinishRedemption(i, response, answered)).tables.mints|
    ensures RowSound(After(w, FinishRedemption(i, response, answered)), m)
  {
    assert RowSound(w, m);
    RedemptionFinishedEffect(w.tables, i, response, if answered then Some(RedemptionOp(i) in w.chain.executed)
      else None);
  }

  lemma NewRowIsSound(w: World, s: Step, m: MintId)
    requires Sane(w) && RowsSound(w) && Truthful(w, s)
    requires After(w, s).tables.Consistent() && |w.tables.mints| == m < |After(w, s).tables.mints|
    ensures RowSound(After(w, s), m)
  {
    assert s.BeginMint?;
  }

  lemma RowsStaySound(w: World, s: Step)
    requires Sane(w) && RowsSound(w) && Truthful(w, s) && Final(w, s)
    ensures RowsSound(After(w, s))
  {
    var v := After(w, s);
    RowsStayInAgreement(w, s);
    AtMostOneNewRow(w, s);
    ChainGrows(w, s);
    forall m: nat | m < |v.tables.mints| ensures RowSound(v, m) {
      if m < |w.tables.mints| {
        RowStaysSound(w, s, m);
      } else {
        NewRowIsSound(w, s, m);
      }
    }
  }

  /** A transaction that moves a holding by what its row now contributes keeps the holdings matched. */
  lemma HoldingByRow(t: Tables, u: Tables, i: MintId)
    requires HoldingsMatch(t) && |t.mints| <= |u.mints| <= |t.mints| + 1 && i < |t.mints|
    requires forall owner, m: nat | m < |u.mints| && m != i :: HeldThrough(u, owner)(m) == HeldThrough(t, owner)(m)
    requires forall owner :: u.Holding(owner) - t.Holding(owner) == HeldThrough(u, owner)(i) - HeldThrough(t, owner)(i)
    ensures HoldingsMatch(u)
  {
    forall owner ensures u.Holding(owner) == Sum(HeldThrough(u, owner), |u.mints|) {
      assert t.Holding(owner) == Sum(HeldThrough(t, owner), |t.mints|);
      SumChange(HeldThrough(t, owner), HeldThrough(u, owner), |t.mints|, i);
      if |u.mints| > |t.mints| {
        assert HeldThrough(u, owner)(|t.mints|) == HeldThrough(t, owner)(|t.mints|) == 0;
      }
      SumOfNewZero(HeldThrough(u, owner), |t.mints|, |u.mints|);
    }
  }

  lemma FinishMintKeepsHoldings(w: World, i: MintId, response: Response)
    requires Sane(w) && RowsSound(w) && HoldingsMatch(w.tables)
    ensures HoldingsMatch(MintFinished(w.tables, i, response).tables)
  {
    var t, u := w.tables, MintFinished(w.tables, i, response).tables;
    MintFinishedEffect(t, i, response);
    if u != t {
      assert RowSound(w, i);
      HoldingByRow(t, u, i);
    }
  }

  lemma FailedMintKeepsHoldings(w: World, i: MintId)
    requires Sane(w) && RowsSound(w) && HoldingsMatch(w.tables) && i in w.refused
    ensures HoldingsMatch(FailedMintRecovered(w.tables, i).tables)
  {
    var t, u := w.tables, FailedMintRecovered(w.tables, i).tables;
    FailedMintEffect(t, i);
    if u != t {
      assert RowSound(w, i);
      HoldingByRow(t, u, i);
    }
  }

  lemma FinishRedemptionKeepsHoldings(w: World, i: MintId, response: Response, executed: Option<bool>)
    requires Sane(w) && RowsSound(w) && HoldingsMatch(w.tables)
    ensures HoldingsMatch(RedemptionFinished(w.tables, i, response, executed).tables)
  {
    var t, u := w.tables, RedemptionFinished(w.tables, i, response, executed).tables;
    RedemptionFinishedEffect(t, i, response, executed);
    if u != t {
      assert RowSound(w, i) && RowAgrees(t, i);
      HoldingByRow(t, u, i);
    }
  }

  lemma BeginMintKeepsHoldings(t: Tables, c: MintCommand, eligible: bool, destination: Option<Address>)
    requires RowsAgree(t) && HoldingsMatch(t)
    ensures HoldingsMatch(MintBegun(t, c, eligible, destination).tables)
  {
    var u := MintBegun(t, c, eligible, destination).tables;
    if u != t {
      forall owner ensures u.Holding(owner) == Sum(HeldThrough(u, owner), |u.mints|) {
        assert t.Holding(owner) == Sum(HeldThrough(t, owner), |t.mints|);
        SumSame(HeldThrough(t, owner), HeldThrough(u, owner), |t.mints|);
        SumOfNewZero(HeldThrough(u, owner), |t.mints|, |u.mints|);
      }
    }
  }

  lemma SameRowsSameHoldings(t: Tables, u: Tables)
    requires HoldingsMatch(t) && u.mints == t.mints && u.locks == t.locks && u.holdings == t.holdings
    ensures HoldingsMatch(u)
  {
    forall owner ensures u.Holding(owner) == Sum(HeldThrough(u, owner), |u.mints|) {
      assert t.Holding(owner) == Sum(HeldThrough(t, owner), |t.mints|);
      SumSame(HeldThrough(t, owner), HeldThrough(u, owner), |t.mints|);
    }
  }

  lemma HoldingsStayMatched(w: World, s: Step)
    requires Sane(w) && RowsSound(w) && HoldingsMatch(w.tables) && Truthful(w, s)
    ensures HoldingsMatch(After(w, s).tables)
  {
    var t := w.tables;
    match s
    case BeginMint(c, eligible, destination) => BeginMintKeepsHoldings(t, c, eligible, destination);
    case FinishMint(i, response) => FinishMintKeepsHoldings(w, i, response);
    case RecoverFailedMint(i) => FailedMintKeepsHoldings(w, i);
    case BeginRedemption(c, eligible) =>
      RedemptionBegunEffect(t, c, eligible);
      SameRowsSameHoldings(t, After(w, s).tables);
    case FinishRedemption(i, response, answered) =>
      FinishRedemptionKeepsHoldings(w, i, response, if answered then Some(RedemptionOp(i) in w.chain.executed)
        else None);
    case _ => SameRowsSameHoldings(t, After(w, s).tables);
  }

  lemma StepKeepsSafe(w: World, s: Step)
    requires Safe(w) && Truthful(w, s) && Final(w, s)
    ensures Safe(After(w, s))
  {
    StepKeepsSane(w, s);
    RowsStaySound(w, s);
    HoldingsStayMatched(w, s);
  }

  /** Every reachable state is safe, whatever the interleaving of calls, crashes, retries and recoveries. */
  lemma {:induction false} RunsAreSafe(w: World, steps: seq<Step>)
    requires Safe(w) && TruthfulRun(w, steps) && FinalRun(w, steps)
    ensures Safe(Run(w, steps))
  {
    if steps != [] {
      RunsAreSafe(w, steps[..|steps| - 1]);
      StepKeepsSafe(Run(w, steps[..|steps| - 1]), steps[|steps| - 1]);
    }
  }

  lemma StartIsSafe()
    ensures Safe(START)
  {
  }

  lemma SafeIsBacked(w: World)
    requires Sane(w) && RowsSound(w)
    ensures AllBacked(w)
  {
    forall m: nat | m < |w.tables.mints| ensures Backed(w, m) {
      assert RowSound(w, m) && RowAgrees(w.tables, m);
    }
  }

  /** In every reachable state the token supply of an asset is at most its locked shares. */
  lemma SupplyIsBacked(steps: seq<Step>, asset: Asset)
    requires TruthfulRun(START, steps) && FinalRun(START, steps)
    ensures var w := Run(START, steps); w.chain.Supply(asset) <= w.tables.Locked(asset)
  {
    StartIsSafe();
    RunsAreSafe(START, steps);
    SafeIsBacked(Run(START, steps));
    BackedSupply(Run(START, steps), asset);
  }

  /** In every reachable state a beneficial holding is the sum of the owner's MINTED mints still locked. */
  lemma HoldingIsLockedMints(steps: seq<Step>, owner: Owner)
    requires TruthfulRun(START, steps) && FinalRun(START, steps)
    ensures var t := Run(START, steps).tables; t.Holding(owner) == Sum(HeldThrough(t, owner), |t.mints|)
  {
    StartIsSafe();
    RunsAreSafe(START, steps);
    assert HoldingsMatch(Run(START, steps).tables);
  }

  // ---- Reconciliation ----

  datatype Report = Balanced | Difference(amount: Decimal)

  /** The comparison a reconciliation run records; None when the difference does not fit a decimal. */
  function Reconcile(supply: Decimal, t: Tables, asset: Asset): (r: Option<Report>)
    ensures r == Some(Balanced) <==> supply == t.Locked(asset)
  {
    var difference := Sub(supply, t.Locked(asset));
    assert 0 < LIMIT;
    if difference.Failure? then None
    else if difference.value == 0 then Some(Balanced)
    else Some(Difference(difference.value))
  }

  /** Mint `m` is between two steps: locked before its mint executed, or burned before its lock was freed. */
  predicate InFlight(w: World, m: MintId) {
    m < |w.tables.mints| && m < |w.tables.locks| && w.tables.locks[m].locked && (!Executed(w, m) || Burned(w, m))
  }

  /** Reconciliation balances an asset exactly when none of its mints is in flight. */
  lemma BalancedExactlyAtRest(w: World, asset: Asset)
    requires Safe(w)
    ensures Reconcile(w.chain.Supply(asset), w.tables, asset) == Some(Balanced) <==>
            forall m: nat | m < |w.tables.mints| && w.tables.mints[m].owner.asset == asset :: !InFlight(w, m)
  {
    var n := |w.tables.mints|;
    GapIdentity(w, asset);
    SafeIsBacked(w);
    var surplus := (m: nat) => -GapOf(w, asset)(m);
    var zero := (m: nat) => 0;
    SumOfZero(zero, n);
    SumOfDifference(zero, GapOf(w, asset), surplus, n);
    forall m: nat | m < n ensures surplus(m) >= 0
      && (surplus(m) > 0 <==> w.tables.mints[m].owner.asset == asset && InFlight(w, m))
    {
      assert Backed(w, m) && RowSound(w, m) && RowAgrees(w.tables, m);
    }
    SumNonNegative(surplus, n);
    if forall m: nat | m < n && w.tables.mints[m].owner.asset == asset :: !InFlight(w, m) {
      SumOfZero(surplus, n);
    }
  }

  /** Every mint settled one way or the other and every redemption completed. */
  ghost predicate Quiescent(w: World) {
    && (forall m: nat | m < |w.tables.mints| ::
       w.tables.mints[m].status.Minted? || w.tables.mints[m].status.FailedRecovered?)
    && (forall m | m in w.tables.redemptions :: w.tables.redemptions[m].status.Completed?)
  }

  /** At rest, supply equals locked shares, so reconciliation reports BALANCED. */
  lemma QuiescentIsBalanced(w: World, asset: Asset)
    requires Safe(w) && Quiescent(w)
    ensures w.chain.Supply(asset) == w.tables.Locked(asset)
    ensures Reconcile(w.chain.Supply(asset), w.tables, asset) == Some(Balanced)
  {
    forall m: nat | m < |w.tables.mints| && w.tables.mints[m].owner.asset == asset ensures !InFlight(w, m) {
      assert RowSound(w, m);
    }
    BalancedExactlyAtRest(w, asset);
  }

  // ---- Without final answers ----

  /** A customer with one whole share of asset 0, who asks to mint it. */
  const ALICE := Owner("alice", 0)
  const LATE_MINT := MintCommand("alice", "mint-0001", 0, UNIT, PlatformVault, "")
  const LISTED := START.(tables := START.tables.(positions := map[ALICE := UNIT], enabled := {0}))
  const MINTING := MintOpened(LISTED.tables, LATE_MINT, "vault")
  const RELEASED := FailedMintRecovered(MINTING, 0).tables

  const LATE_RUN: seq<Step> := [
    Elsewhere(map[ALICE := UNIT], {0}),
    BeginMint(LATE_MINT, true, Some("vault")),
    QueryUnexecuted(0),
    RecoverFailedMint(0),
    ChainMints(0)
  ]

  lemma LateSharesAreFree()
    ensures Reservable(LISTED.tables, ALICE, UNIT) && WholeShares(UNIT)
  {
    PowPositive(SCALE, 20);
    assert 0 < UNIT < LIMIT;
    assert LISTED.tables.Reserved(ALICE) == 0;
  }

  lemma LateMintOpens()
    ensures MintBegun(LISTED.tables, LATE_MINT, true, Some("vault")) == Outcome(MINTING, Success(Started(0, true)))
  {
    LateSharesAreFree();
  }

  lemma LateMintReleases()
    ensures RELEASED.locks == [Lock(ALICE, UNIT, false)]
            && RELEASED.mints[..1] == [MINTING.mints[0].(status := FailedRecovered)]
    ensures RELEASED.Locked(0) == 0
  {
    FailedMintEffect(MINTING, 0);
    assert MINTING.locks == [Lock(ALICE, UNIT, true)];
    assert RELEASED.mints == [MINTING.mints[0].(status := FailedRecovered)];
  }

  lemma LateStart()
    ensures Run(START, LATE_RUN[..2]) == LISTED.(tables := MINTING) && TruthfulRun(START, LATE_RUN[..2])
  {
    PrefixStep(0);
    assert Run(START, LATE_RUN[..1]) == LISTED;
    LateMintOpens();
    PrefixStep(1);
  }

  lemma LateRelease()
    ensures Run(START, LATE_RUN[..4]) == LISTED.(tables := RELEASED, refused := {0})
            && TruthfulRun(START, LATE_RUN[..4])
  {
    LateStart();
    PrefixStep(2);
    assert |MINTING.mints| == 1;
    PrefixStep(3);
  }

  lemma PrefixStep(i: nat)
    requires i < |LATE_RUN|
    ensures Run(START, LATE_RUN[..i + 1]) == After(Run(START, LATE_RUN[..i]), LATE_RUN[i])
    ensures TruthfulRun(START, LATE_RUN[..i + 1]) <==>
            TruthfulRun(START, LATE_RUN[..i]) && Truthful(Run(START, LATE_RUN[..i]), LATE_RUN[i])
    ensures FinalRun(START, LATE_RUN[..i + 1]) <==>
            FinalRun(START, LATE_RUN[..i]) && Final(Run(START, LATE_RUN[..i]), LATE_RUN[i])
  {
    assert LATE_RUN[..i + 1] == LATE_RUN[..i] + [LATE_RUN[i]];
    RunStep(START, LATE_RUN[..i], LATE_RUN[i]);
  }

  /** Every answer below is truthful, yet a call still in flight when recovery asked leaves an unbacked token. */
  lemma FinalityIsNeeded()
    ensures TruthfulRun(START, LATE_RUN) && !FinalRun(START, LATE_RUN)
    ensures var w := Run(START, LATE_RUN); w.chain.Supply(0) > w.tables.Locked(0)
  {
    LateRelease();
    LateMintReleases();
    PrefixStep(4);
    assert LATE_RUN[..5] == LATE_RUN;
  }

  // ---- Duplicates and progress ----

  /** In a safe state nothing in the database can block an executed burn: it completes and frees its shares. */
  lemma ExecutedBurnCompletes(w: World, m: MintId, response: Response)
    requires Safe(w) && m in w.tables.redemptions && Burned(w, m) && response.Positive()
    requires w.tables.redemptions[m].owner.asset in w.tables.enabled
    requires var kind := if w.tables.redemptions[m].forced then ForcedRedemptionConfirmedEvent else BurnConfirmedEvent;
             !EventConflicts(w.tables, response.eventId, EventRow(kind, response.payload, RedemptionOp(m)))
    ensures var out := RedemptionFinished(w.tables, m, response, Some(true));
            out.result == Success(Completed) && m < |out.tables.locks| && !out.tables.locks[m].locked
  {
    var t := w.tables;
    var owner := t.redemptions[m].owner;
    assert RowSound(w, m) && RowAgrees(t, m);
    if !t.redemptions[m].status.Completed? {
      assert t.Holding(owner) == Sum(HeldThrough(t, owner), |t.mints|);
      forall i: nat | i < |t.mints| ensures HeldThrough(t, owner)(i) >= 0 {
        assert RowAgrees(t, i);
      }
      SumNonNegative(HeldThrough(t, owner), |t.mints|);
      assert HeldThrough(t, owner)(m) == t.redemptions[m].quantity;
      RedemptionFinishedEffect(t, m, response, Some(true));
      BurnFrees(t, m, response);
    }
  }

  lemma BurnFrees(t: Tables, m: MintId, response: Response)
    requires m in t.redemptions && RedemptionOp(m) in t.operations && t.HasLock(m) && t.locks[m].locked
    requires t.Holding(t.redemptions[m].owner) >= t.redemptions[m].quantity
    requires var kind := if t.redemptions[m].forced then ForcedRedemptionConfirmedEvent else BurnConfirmedEvent;
             !EventConflicts(t, response.eventId, EventRow(kind, response.payload, RedemptionOp(m)))
    ensures var out := RedemptionConfirmed(t, m, response);
            out.result == Success(Completed) && m < |out.tables.locks| && !out.tables.locks[m].locked
  {
  }

  /** A mint command that was accepted once is never started again: every repetition finds the same mint. */
  lemma {:induction false} RepeatedMintFindsTheFirst(w: World, c: MintCommand, eligible: bool,
      destination: Option<Address>, steps: seq<Step>)
    requires RowsAgree(w.tables) && MintBegun(w.tables, c, eligible, destination).result.Success?
    ensures RowsAgree(Run(After(w, BeginMint(c, eligible, destination)), steps).tables)
    ensures var first := After(w, BeginMint(c, eligible, destination));
            var id := MintBegun(w.tables, c, eligible, destination).result.value.id;
            var later := Run(first, steps).tables;
            && (c.customer, c.key) in later.mintKeys && later.mintKeys[(c.customer, c.key)] == (c, id)
            && MintBegun(later, c, true, destination) == Outcome(later, Success(Started(id, false)))
  {
    var first := After(w, BeginMint(c, eligible, destination));
    if steps == [] {
      RowsStayInAgreement(w, BeginMint(c, eligible, destination));
    } else {
      var n := |steps| - 1;
      RepeatedMintFindsTheFirst(w, c, eligible, destination, steps[..n]);
      RowsStayInAgreement(Run(first, steps[..n]), steps[n]);
      KeysAreKept(Run(first, steps[..n]), steps[n], (c.customer, c.key));
    }
  }

  lemma KeysAreKept(w: World, s: Step, key: (Customer, string))
    requires w.tables.Consistent()
    ensures key in w.tables.mintKeys ==>
              key in After(w, s).tables.mintKeys && After(w, s).tables.mintKeys[key] == w.tables.mintKeys[key]
    ensures key in w.tables.redemptionKeys ==>
              key in After(w, s).tables.redemptionKeys
                && After(w, s).tables.redemptionKeys[key] == w.tables.redemptionKeys[key]
  {
    match s
    case FinishMint(i, response) => MintFinishedEffect(w.tables, i, response);
    case RecoverFailedMint(i) => FailedMintEffect(w.tables, i);
    case BeginRedemption(c, eligible) => RedemptionBegunEffect(w.tables, c, eligible);
    case FinishRedemption(i, response, answered) =>
      RedemptionFinishedEffect(w.tables, i, response, if answered then Some(RedemptionOp(i) in w.chain.executed)
        else None);
    case _ =>
  }

  /**
   A redemption command that was accepted once is never started again: every repetition finds the same mint, and no
   other command starts a second redemption of it.
   */
  lemma {:induction false} RepeatedRedemptionFindsTheFirst(w: World, c: RedeemCommand, eligible: bool,
      other: RedeemCommand, steps: seq<Step>)
    requires RowsAgree(w.tables) && RedemptionBegun(w.tables, c, eligible).result.Success?
    requires c.mint in w.tables.redemptions || RedemptionBegun(w.tables, c, eligible).result.value.isNew
    requires other.mint == c.mint
    ensures RowsAgree(Run(After(w, BeginRedemption(c, eligible)), steps).tables)
    ensures var id := RedemptionBegun(w.tables, c, eligible).result.value.id;
            var later := Run(After(w, BeginRedemption(c, eligible)), steps).tables;
            var again := RedemptionBegun(later, other, true);
            && (c.customer, c.key) in later.redemptionKeys && later.redemptionKeys[(c.customer, c.key)] == (c, id)
            && RedemptionBegun(later, c, true) == Outcome(later, Success(Started(id, false)))
            && c.mint in later.redemptions && again.tables == later
            && (again.result.Success? ==> !again.result.value.isNew)
  {
    var first := After(w, BeginRedemption(c, eligible));
    if steps == [] {
      RowsStayInAgreement(w, BeginRedemption(c, eligible));
    } else {
      var n := |steps| - 1;
      var before := Run(first, steps[..n]);
      RepeatedRedemptionFindsTheFirst(w, c, eligible, other, steps[..n]);
      RowsStayInAgreement(before, steps[n]);
      KeysAreKept(before, steps[n], (c.customer, c.key));
      assert RowEvolves(before.tables, After(before, steps[n]).tables, c.mint);
    }
  }
}
