/** Share custody behind the tokens: a mint locks only shares that nothing else has locked, over every run. */
module RwaCustody {
  import opened Results
  import opened Decimals
  import opened Sums
  import opened RwaSaga
  import opened RwaWorld
  import opened RwaSafety
  import Ledger

  // ---- What is reserved and locked, row by row ----

  function ActiveTerm(t: Tables, owner: Owner): nat -> int {
    (i: nat) => if i < |t.reservations| && t.reservations[i].owner == owner && t.reservations[i].active
      then t.reservations[i].quantity else 0
  }

  /** The shares of an owner in active reservations. */
  function ActiveShares(t: Tables, owner: Owner): int {
    Sum(ActiveTerm(t, owner), |t.reservations|)
  }

  function LockedTerm(t: Tables, owner: Owner): nat -> int {
    (i: nat) => if i < |t.locks| && t.locks[i].owner == owner && t.locks[i].locked then t.locks[i].quantity else 0
  }

  /** The LOCKED shares of an owner. */
  function LockedShares(t: Tables, owner: Owner): int {
    Sum(LockedTerm(t, owner), |t.locks|)
  }

  /** The shares of an owner; without a row there are none. */
  function SharesOwned(positions: map<Owner, Decimal>, owner: Owner): Decimal {
    if owner in positions then positions[owner] else 0
  }

  lemma ReservedIsActive(t: Tables, owner: Owner)
    ensures t.Reserved(owner) == ActiveShares(t, owner)
  {
    SumSame((i: nat) => if i < |t.reservations| && t.reservations[i].active && t.reservations[i].owner == owner
      then t.reservations[i].quantity else 0, ActiveTerm(t, owner), |t.reservations|);
  }

  lemma LockedIsActive(t: Tables, owner: Owner)
    requires RowsAgree(t)
    ensures LockedShares(t, owner) == ActiveShares(t, owner) >= 0
  {
    forall m: nat | m < |t.mints| ensures LockedTerm(t, owner)(m) == ActiveTerm(t, owner)(m) >= 0 {
      assert RowAgrees(t, m);
    }
    SumSame(ActiveTerm(t, owner), LockedTerm(t, owner), |t.mints|);
    SumNonNegative(ActiveTerm(t, owner), |t.mints|);
  }

  /** Opening a mint adds its quantity to what its owner has reserved, and to nobody else's. */
  lemma OpeningReserves(t: Tables, c: MintCommand, destination: Address, owner: Owner)
    requires RowsAgree(t)
    ensures ActiveShares(MintOpened(t, c, destination), owner) ==
            ActiveShares(t, owner) + if owner == Owner(c.customer, c.asset) then c.quantity else 0
  {
    SumSame(ActiveTerm(t, owner), ActiveTerm(MintOpened(t, c, destination), owner), |t.reservations|);
  }

  // ---- One command ----

  /** A mint this command has not started before, asked for by an eligible customer who may have the asset delivered. */
  predicate IsNewRequest(t: Tables, c: MintCommand, eligible: bool, destination: Option<Address>) {
    && c.quantity > 0 && c.quantity % UNIT == 0 && !c.custody.UnknownCustody? && eligible && Ledger.IsKey(c.key)
    && (c.customer, c.key) !in t.mintKeys && c.asset in t.enabled && destination.Some?
  }

  predicate Opens(o: Outcome<Started>) {
    o.result.Success? && o.result.value.isNew
  }

  /** A command that opens a mint ends with the owner's active reservations within the owner's position. */
  lemma NewMintFits(t: Tables, c: MintCommand, eligible: bool, destination: Option<Address>)
    requires RowsAgree(t) && Opens(MintBegun(t, c, eligible, destination))
    ensures var owner := Owner(c.customer, c.asset);
            var u := MintBegun(t, c, eligible, destination).tables;
            && owner in u.positions && u.positions == t.positions
            && ActiveShares(u, owner) == ActiveShares(t, owner) + c.quantity <= u.positions[owner]
            && |u.mints| == |t.mints| + 1 && u.mints[|t.mints|].owner == owner
            && u.mints[|t.mints|].destination == destination.value && u.mints[|t.mints|].custody == c.custody
            && MintOp(|t.mints|) in u.operations
            && u.operations[MintOp(|t.mints|)] == Operation(Pending, "", 0, NoFailure, false)
  {
    var owner := Owner(c.customer, c.asset);
    ReservedIsActive(t, owner);
    OpeningReserves(t, c, destination.value, owner);
  }

  /**
   A command opens a mint if and only if it is a new request and its quantity fits the position beside everything
   reserved already. A position is a NUMERIC(38,18).
   */
  lemma MintOpensExactlyWhenItFits(t: Tables, c: MintCommand, eligible: bool, destination: Option<Address>)
    requires RowsAgree(t) && -LIMIT < SharesOwned(t.positions, Owner(c.customer, c.asset)) < LIMIT
    ensures var owner := Owner(c.customer, c.asset);
            var o := MintBegun(t, c, eligible, destination);
            && (Opens(o) <==>
                 && IsNewRequest(t, c, eligible, destination)
                 && c.quantity + ActiveShares(t, owner) <= SharesOwned(t.positions, owner))
            && (!Opens(o) ==> o.tables == t)
  {
    var owner := Owner(c.customer, c.asset);
    ReservedIsActive(t, owner);
    LockedIsActive(t, owner);
  }

  /**
   In a safe state an eligible customer's new key redeems a mint if and only if it is the caller's own, MINTED,
     not being
   redeemed, and of an enabled asset: lock, quantity and holding
     then always agree. The burn is taken from where the mint
   was delivered.
   */
  lemma RedemptionOpensExactly(w: World, c: RedeemCommand, eligible: bool)
    requires Safe(w)
    ensures var t, o := w.tables, RedemptionBegun(w.tables, c, eligible);
            && (Opens(o) <==>
                  && eligible && Ledger.IsKey(c.key) && (c.customer, c.key) !in t.redemptionKeys
                  && c.mint < |t.mints| && t.mints[c.mint].owner.customer == c.customer
                  && t.mints[c.mint].status.Minted? && c.mint !in t.redemptions
                  && t.mints[c.mint].owner.asset in t.enabled)
            && (Opens(o) ==>
                  && c.mint < |t.mints| && c.mint in o.tables.redemptions
                  && o.tables.redemptions[c.mint].source == t.mints[c.mint].destination
                  && o.tables.redemptions[c.mint].forced == c.forced
                  && o.tables.redemptions[c.mint].status == BurnPending)
  {
    var t := w.tables;
    if c.mint < |t.mints| && t.mints[c.mint].status.Minted? && c.mint !in t.redemptions {
      var owner := t.mints[c.mint].owner;
      assert RowSound(w, c.mint) && RowAgrees(t, c.mint);
      assert t.Holding(owner) == Sum(HeldThrough(t, owner), |t.mints|);
      forall i: nat | i < |t.mints| ensures HeldThrough(t, owner)(i) >= 0 {
        assert RowAgrees(t, i);
      }
      SumNonNegative(HeldThrough(t, owner), |t.mints|);
      assert HeldThrough(t, owner)(c.mint) == t.mints[c.mint].quantity;
    }
  }

  // ---- Over every run ----

  /** Securities trading elsewhere lowers no position while shares are in custody. */
  ghost predicate Raises(w: World, s: Step) {
    s.Elsewhere? ==> forall owner :: SharesOwned(w.tables.positions, owner) <= SharesOwned(s.positions, owner)
  }

  ghost predicate RaisingRun(w: World, steps: seq<Step>) {
    steps != [] ==>
      RaisingRun(w, steps[..|steps| - 1]) && Raises(Run(w, steps[..|steps| - 1]), steps[|steps| - 1])
  }

  ghost predicate WithinPositions(t: Tables) {
    forall owner :: LockedShares(t, owner) <= SharesOwned(t.positions, owner)
  }

  /** No step but a new mint locks anything. */
  lemma OnlyMintsLock(w: World, s: Step)
    requires w.tables.Consistent() && !s.BeginMint?
    ensures var t, u := w.tables, After(w, s).tables;
            && |u.locks| == |t.locks|
            && forall m | 0 <= m < |t.locks| :: u.locks[m] == t.locks[m] || u.locks[m] == t.locks[m].(locked := false)
  {
    match s
    case FinishMint(i, response) => MintFinishedEffect(w.tables, i, response);
    case RecoverFailedMint(i) => FailedMintEffect(w.tables, i);
    case BeginRedemption(c, eligible) => RedemptionBegunEffect(w.tables, c, eligible);
    case FinishRedemption(i, response, answered) =>
      RedemptionFinishedEffect(w.tables, i, response, if answered then Some(RedemptionOp(i) in w.chain.executed)
        else None);
    case _ =>
  }

  /** Positions move by trading alone. */
  lemma OnlyTradingMoves(w: World, s: Step)
    ensures !s.Elsewhere? ==> After(w, s).tables.positions == w.tables.positions
  {
    match s
    case FinishMint(i, response) => MintKeepsPositions(w.tables, i, response);
    case FinishRedemption(i, response, answered) =>
      BurnKeepsPositions(w.tables, i, response, if answered then Some(RedemptionOp(i) in w.chain.executed) else None);
    case _ =>
  }

  lemma MintKeepsPositions(t: Tables, i: MintId, response: Response)
    ensures MintFinished(t, i, response).tables.positions == t.positions
  {
  }

  lemma BurnKeepsPositions(t: Tables, i: MintId, response: Response, executed: Option<bool>)
    ensures RedemptionFinished(t, i, response, executed).tables.positions == t.positions
  {
  }

  lemma LockedShrinks(t: Tables, u: Tables, owner: Owner)
    requires RowsAgree(t) && |u.locks| == |t.locks|
    requires forall m | 0 <= m < |t.locks| :: u.locks[m] == t.locks[m] || u.locks[m] == t.locks[m].(locked := false)
    ensures LockedShares(u, owner) <= LockedShares(t, owner)
  {
    forall m: nat | m < |t.locks| ensures LockedTerm(u, owner)(m) <= LockedTerm(t, owner)(m) {
      assert RowAgrees(t, m);
    }
    SumOrder(LockedTerm(u, owner), LockedTerm(t, owner), |t.locks|);
  }

  lemma OtherStepsStayWithin(w: World, s: Step)
    requires RowsAgree(w.tables) && WithinPositions(w.tables) && !s.BeginMint? && Raises(w, s)
    ensures WithinPositions(After(w, s).tables)
  {
    var t, u := w.tables, After(w, s).tables;
    OnlyMintsLock(w, s);
    OnlyTradingMoves(w, s);
    forall owner ensures LockedShares(u, owner) <= SharesOwned(u.positions, owner) {
      assert LockedShares(t, owner) <= SharesOwned(t.positions, owner);
      LockedShrinks(t, u, owner);
    }
  }

  lemma MintsStayWithin(t: Tables, c: MintCommand, eligible: bool, destination: Option<Address>)
    requires RowsAgree(t) && WithinPositions(t)
    ensures WithinPositions(MintBegun(t, c, eligible, destination).tables)
  {
    var u := MintBegun(t, c, eligible, destination).tables;
    if u != t {
      NewMintFits(t, c, eligible, destination);
      MintBegunAgrees(t, c, eligible, destination);
      forall owner ensures LockedShares(u, owner) <= SharesOwned(u.positions, owner) {
        assert LockedShares(t, owner) <= SharesOwned(t.positions, owner);
        OpeningReserves(t, c, destination.value, owner);
        LockedIsActive(t, owner);
        LockedIsActive(u, owner);
      }
    }
  }

  lemma {:induction false} RunsStayWithin(w: World, steps: seq<Step>)
    requires RowsAgree(w.tables) && WithinPositions(w.tables) && RaisingRun(w, steps)
    ensures RowsAgree(Run(w, steps).tables) && WithinPositions(Run(w, steps).tables)
  {
    if steps != [] {
      var before, s := Run(w, steps[..|steps| - 1]), steps[|steps| - 1];
      RunsStayWithin(w, steps[..|steps| - 1]);
      RowsStayInAgreement(before, s);
      if s.BeginMint? {
        MintsStayWithin(before.tables, s.mintCommand, s.eligible, s.destination);
      } else {
        OtherStepsStayWithin(before, s);
      }
    }
  }

  /**
   In every reachable state an owner's LOCKED shares stay within the owner's position, truthful chain or not, as long
   as trading lowers no position.
   */
  lemma LockedStaysWithinPosition(steps: seq<Step>, owner: Owner)
    requires RaisingRun(START, steps)
    ensures var t := Run(START, steps).tables; LockedShares(t, owner) <= SharesOwned(t.positions, owner)
  {
    RunsStayWithin(START, steps);
  }
}
