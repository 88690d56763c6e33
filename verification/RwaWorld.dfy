/**
 The database and the chain together, and the steps that any interleaving of calls, crashes and retries is made of.
 */
module RwaWorld {
  import opened Results
  import opened Decimals
  import opened Sums
  import opened RwaSaga

  /** The token contracts: each operation executes at most once; supply moves only by executed operations. */
  datatype Chain = Chain(executed: set<OperationId>, supply: map<Asset, int>) {
    function Supply(asset: Asset): int {
      if asset in supply then supply[asset] else 0
    }

    function Execute(op: OperationId, asset: Asset, change: int): Chain {
      if op in executed then this   // reverts: already processed
      else Chain(executed + {op}, supply[asset := Supply(asset) + change])
    }
  }

  /** `refused` holds the mints for which a recovery was told that the chain has not executed them. */
  datatype World = World(tables: Tables, chain: Chain, refused: set<MintId>)

  datatype Step =
    | BeginMint(mintCommand: MintCommand, eligible: bool, destination: Option<Address>)
    | ChainMints(mint: MintId)
    | FinishMint(mint: MintId, response: Response)
    | QueryUnexecuted(mint: MintId)
    | RecoverFailedMint(mint: MintId)
    | BeginRedemption(redeemCommand: RedeemCommand, eligible: bool)
    | ChainBurns(mint: MintId)
    | FinishRedemption(mint: MintId, response: Response, answered: bool)
    | Claim(operations: seq<OperationId>)
    | Defer(operation: OperationId, reason: FailureCode)
    | MoveExhausted
    | Elsewhere(positions: map<Owner, Decimal>, enabled: set<Asset>)

  /** What a step does. Chain steps of unknown requests do nothing. */
  function After(w: World, s: Step): World {
    var t := w.tables;
    match s
    case BeginMint(c, eligible, destination) => w.(tables := MintBegun(t, c, eligible, destination).tables)
    case ChainMints(m) =>
      if m < |t.mints| then w.(chain := w.chain.Execute(MintOp(m), t.mints[m].owner.asset, t.mints[m].quantity)) else w
    case FinishMint(m, response) => w.(tables := MintFinished(t, m, response).tables)
    case QueryUnexecuted(m) => if m < |t.mints| then w.(refused := w.refused + {m}) else w
    case RecoverFailedMint(m) => w.(tables := FailedMintRecovered(t, m).tables)
    case BeginRedemption(c, eligible) => w.(tables := RedemptionBegun(t, c, eligible).tables)
    case ChainBurns(m) =>
      if m in t.redemptions then
        w.(chain := w.chain.Execute(RedemptionOp(m), t.redemptions[m].owner.asset, -t.redemptions[m].quantity))
      else w
    case FinishRedemption(m, response, answered) =>
      var answer := if answered then Some(RedemptionOp(m) in w.chain.executed) else None;
      w.(tables := RedemptionFinished(t, m, response, answer).tables)
    case Claim(ops) => w.(tables := Claimed(t, ops))
    case Defer(op, reason) => w.(tables := Deferred(t, op, reason))
    case MoveExhausted => w.(tables := ExhaustedMoved(t))
    case Elsewhere(positions, enabled) => w.(tables := t.(positions := positions, enabled := enabled))
  }

  /** The provider is truthful: a confirmation means executed, and "not executed" is true when it is said. */
  predicate Truthful(w: World, s: Step) {
    match s
    case FinishMint(m, response) => response.Positive() ==> MintOp(m) in w.chain.executed
    case FinishRedemption(m, response, _) => response.Positive() ==> RedemptionOp(m) in w.chain.executed
    case QueryUnexecuted(m) => MintOp(m) !in w.chain.executed
    case RecoverFailedMint(m) => m in w.refused
    case _ => true
  }

  /** The answer "not executed" is final: no call for that mint is still in flight. */
  predicate Final(w: World, s: Step) {
    s.ChainMints? ==> s.mint !in w.refused
  }

  // ---- What holds in every world, even when answers are not final ----

  predicate Burned(w: World, m: MintId) {
    RedemptionOp(m) in w.chain.executed
  }

  predicate Executed(w: World, m: MintId) {
    MintOp(m) in w.chain.executed
  }

  /** Tokens that exist for mint `m`. */
  function Tokens(w: World, m: MintId): int {
    if m < |w.tables.mints| && Executed(w, m) && !Burned(w, m) then w.tables.mints[m].quantity else 0
  }

  /** Shares locked for mint `m`. */
  function Shares(w: World, m: MintId): int {
    if m < |w.tables.locks| && w.tables.locks[m].locked then w.tables.locks[m].quantity else 0
  }

  function TokensOf(w: World, asset: Asset): nat -> int {
    (m: nat) => if m < |w.tables.mints| && w.tables.mints[m].owner.asset == asset then Tokens(w, m) else 0
  }

  function SharesOf(w: World, asset: Asset): nat -> int {
    (m: nat) => if m < |w.tables.locks| && w.tables.locks[m].owner.asset == asset then Shares(w, m) else 0
  }

  /** The mint, lock, reservation and redemption rows of one number describe the same shares. */
  ghost predicate RowAgrees(t: Tables, m: MintId)
    requires t.Consistent() && m < |t.mints|
  {
    var mint := t.mints[m];
    && t.locks[m].owner == mint.owner && t.reservations[m].owner == mint.owner
    && t.locks[m].quantity == mint.quantity && t.reservations[m].quantity == mint.quantity
    && mint.quantity > 0
    && t.locks[m].locked == t.reservations[m].active
    && MintOp(m) in t.operations
    && (m in t.redemptions ==>
          t.redemptions[m].owner == mint.owner && t.redemptions[m].quantity == mint.quantity
            && RedemptionOp(m) in t.operations)
  }

  ghost predicate RowsAgree(t: Tables) {
    t.Consistent() && forall m: nat | m < |t.mints| :: RowAgrees(t, m)
  }

  /** What a mint or redemption is about never changes, and only a MINTED mint gains a redemption. */
  ghost predicate RowEvolves(t: Tables, u: Tables, m: MintId)
    requires m < |t.mints| <= |u.mints|
  {
    && u.mints[m].owner == t.mints[m].owner && u.mints[m].quantity == t.mints[m].quantity
    && (m in t.redemptions ==> m in u.redemptions)
    && (m in u.redemptions && m !in t.redemptions ==> t.mints[m].status.Minted?)
  }

  ghost predicate Evolves(t: Tables, u: Tables) {
    && |t.mints| <= |u.mints| && (forall m | m in u.redemptions :: m < |t.mints|)
    && forall m: nat | m < |t.mints| :: RowEvolves(t, u, m)
  }

  /** The two together, for a change of single rows. */
  ghost predicate Updates(t: Tables, u: Tables) {
    RowsAgree(u) && Evolves(t, u) && |u.mints| == |t.mints|
  }

  /** The chain acts only on requests: no unknown mint executes, and every burn has its redemption and its mint. */
  ghost predicate ChainFollows(w: World) {
    && (forall m: nat | MintOp(m) in w.chain.executed :: m < |w.tables.mints|)
    && (forall m: nat | RedemptionOp(m) in w.chain.executed :: m in w.tables.redemptions)
    && (forall m: nat | m in w.tables.redemptions :: MintOp(m) in w.chain.executed)
    && (forall m: nat | m < |w.tables.mints| && w.tables.mints[m].status.Minted? :: MintOp(m) in w.chain.executed)
  }

  ghost predicate SupplyIsTokens(w: World) {
    forall asset :: w.chain.Supply(asset) == Sum(TokensOf(w, asset), |w.tables.mints|)
  }

  ghost predicate Sane(w: World) {
    RowsAgree(w.tables) && ChainFollows(w) && SupplyIsTokens(w)
  }

  /** Every token of a mint is backed by that mint's own locked shares. */
  predicate Backed(w: World, m: MintId) {
    Tokens(w, m) <= Shares(w, m)
  }

  ghost predicate AllBacked(w: World) {
    forall m: nat | m < |w.tables.mints| :: Backed(w, m)
  }

  /** Row by row, an update that keeps identities, amounts and the pairing of locks keeps everything. */
  lemma UpdatesByRow(t: Tables, u: Tables)
    requires RowsAgree(t) && u.Consistent() && |u.mints| == |t.mints|
    requires forall m: nat | m < |t.mints| :: RowAgrees(u, m) && RowEvolves(t, u, m)
    ensures Updates(t, u)
  {
  }

  lemma TouchUpdates(t: Tables, u: Tables, op: OperationId, status: OperationStatus, txHash: string, error: FailureCode)
    requires RowsAgree(t) && Updates(t, u) && op in u.operations
    ensures Updates(t, Touch(u, op, status, txHash, error))
  {
    var v := Touch(u, op, status, txHash, error);
    forall m: nat | m < |t.mints| ensures RowAgrees(v, m) && RowEvolves(t, v, m) {
      assert RowAgrees(u, m) && RowEvolves(t, u, m);
    }
  }

  lemma MintStatusUpdates(t: Tables, u: Tables, i: MintId, status: MintStatus)
    requires RowsAgree(t) && Updates(t, u) && i < |t.mints|
    ensures Updates(t, WithMintStatus(u, i, status))
  {
    var v := WithMintStatus(u, i, status);
    forall m: nat | m < |t.mints| ensures RowAgrees(v, m) && RowEvolves(t, v, m) {
      assert RowAgrees(u, m) && RowEvolves(t, u, m);
    }
  }

  lemma RedemptionStatusUpdates(t: Tables, u: Tables, i: MintId, status: RedemptionStatus)
    requires RowsAgree(t) && Updates(t, u) && i in t.redemptions && i in u.redemptions
    ensures Updates(t, WithRedemptionStatus(u, i, status))
  {
    var v := WithRedemptionStatus(u, i, status);
    forall m: nat | m < |t.mints| ensures RowAgrees(v, m) && RowEvolves(t, v, m) {
      assert RowAgrees(u, m) && RowEvolves(t, u, m);
    }
  }

  lemma ReleasedUpdates(t: Tables, u: Tables, i: MintId)
    requires RowsAgree(t) && Updates(t, u) && i < |t.mints|
    ensures Updates(t, Released(u, i)) && Released(u, i).redemptions == u.redemptions
  {
    var v := Released(u, i);
    forall m: nat | m < |t.mints| ensures RowAgrees(v, m) && RowEvolves(t, v, m) {
      assert RowAgrees(u, m) && RowEvolves(t, u, m);
    }
  }

  lemma HoldingUpdates(t: Tables, u: Tables, owner: Owner, quantity: Decimal)
    requires RowsAgree(t) && Updates(t, u)
    ensures Updates(t, WithHolding(u, owner, quantity))
  {
    var v := WithHolding(u, owner, quantity);
    forall m: nat | m < |t.mints| ensures RowAgrees(v, m) && RowEvolves(t, v, m) {
      assert RowAgrees(u, m) && RowEvolves(t, u, m);
    }
  }

  lemma EventUpdates(t: Tables, eventId: EventId, row: EventRow)
    requires RowsAgree(t)
    ensures Updates(t, WithEvent(t, eventId, row))
  {
    var v := WithEvent(t, eventId, row);
    forall m: nat | m < |t.mints| ensures RowAgrees(v, m) && RowEvolves(t, v, m) {
      assert RowAgrees(t, m);
    }
  }

  lemma MintBegunAgrees(t: Tables, c: MintCommand, eligible: bool, destination: Option<Address>)
    requires RowsAgree(t)
    ensures RowsAgree(MintBegun(t, c, eligible, destination).tables)
            && Evolves(t, MintBegun(t, c, eligible, destination).tables)
  {
    UpdatesByRow(t, t);
    if MintBegun(t, c, eligible, destination).tables != t {
      var u := MintOpened(t, c, destination.value);
      forall m: nat | m < |t.mints| ensures RowAgrees(u, m) && RowEvolves(t, u, m) {
        assert RowAgrees(t, m);
      }
    }
  }

  lemma MintFinishedAgrees(t: Tables, m: MintId, response: Response)
    requires RowsAgree(t)
    ensures Updates(t, MintFinished(t, m, response).tables)
  {
    UpdatesByRow(t, t);
    if m < |t.mints| {
      assert RowAgrees(t, m);
      MintStatusUpdates(t, t, m, RecoveryRequired);
      TouchUpdates(t, WithMintStatus(t, m, RecoveryRequired), MintOp(m), OutcomeUnknown, response.txHash,
        response.Code());
      MintConfirmedAgrees(t, m, response);
    }
  }

  lemma MintConfirmedAgrees(t: Tables, m: MintId, response: Response)
    requires RowsAgree(t) && Updates(t, t) && m < |t.mints| && MintOp(m) in t.operations
    ensures Updates(t, MintConfirmed(t, m, response).tables)
  {
    var row := EventRow(MintConfirmedEvent, response.payload, MintOp(m));
    var recorded := WithEvent(t, response.eventId, row);
    var owner := t.mints[m].owner;
    var held := WithHolding(recorded, owner, t.Holding(owner) + t.mints[m].quantity);
    EventUpdates(t, response.eventId, row);
    HoldingUpdates(t, recorded, owner, t.Holding(owner) + t.mints[m].quantity);
    MintStatusUpdates(t, held, m, Minted);
    TouchUpdates(t, WithMintStatus(held, m, Minted), MintOp(m), Confirmed, response.txHash, NoFailure);
  }

  lemma FailedMintAgrees(t: Tables, m: MintId)
    requires RowsAgree(t)
    ensures Updates(t, FailedMintRecovered(t, m).tables)
  {
    UpdatesByRow(t, t);
    if m < |t.mints| {
      assert RowAgrees(t, m);
      ReleasedUpdates(t, t, m);
      MintStatusUpdates(t, Released(t, m), m, FailedRecovered);
      TouchUpdates(t, WithMintStatus(Released(t, m), m, FailedRecovered), MintOp(m), OperationFailed, "",
        MintNotExecuted);
    }
  }

  lemma RedemptionBegunAgrees(t: Tables, c: RedeemCommand, eligible: bool)
    requires RowsAgree(t)
    ensures Updates(t, RedemptionBegun(t, c, eligible).tables)
  {
    UpdatesByRow(t, t);
    if RedemptionBegun(t, c, eligible).tables != t {
      var u := RedemptionOpened(t, c);
      forall m: nat | m < |t.mints| ensures RowAgrees(u, m) && RowEvolves(t, u, m) {
        assert RowAgrees(t, m);
      }
    }
  }

  lemma RedemptionFinishedAgrees(t: Tables, m: MintId, response: Response, executed: Option<bool>)
    requires RowsAgree(t)
    ensures Updates(t, RedemptionFinished(t, m, response, executed).tables)
  {
    UpdatesByRow(t, t);
    if m in t.redemptions {
      assert RowAgrees(t, m);
      RedemptionStatusUpdates(t, t, m, BurnRecoveryRequired);
      TouchUpdates(t, WithRedemptionStatus(t, m, BurnRecoveryRequired), RedemptionOp(m), OutcomeUnknown,
        response.txHash, response.Code());
      RedemptionConfirmedAgrees(t, m, response);
    }
  }

  lemma RedemptionConfirmedAgrees(t: Tables, m: MintId, response: Response)
    requires RowsAgree(t) && Updates(t, t) && m in t.redemptions && RedemptionOp(m) in t.operations
    ensures Updates(t, RedemptionConfirmed(t, m, response).tables)
  {
    var redemption := t.redemptions[m];
    var kind := if redemption.forced then ForcedRedemptionConfirmedEvent else BurnConfirmedEvent;
    var row := EventRow(kind, response.payload, RedemptionOp(m));
    var recorded := WithEvent(t, response.eventId, row);
    var quantity := t.Holding(redemption.owner) - redemption.quantity;
    var held := WithHolding(recorded, redemption.owner, quantity);
    EventUpdates(t, response.eventId, row);
    HoldingUpdates(t, recorded, redemption.owner, quantity);
    ReleasedUpdates(t, held, m);
    RedemptionStatusUpdates(t, Released(held, m), m, Completed);
    TouchUpdates(t, WithRedemptionStatus(Released(held, m), m, Completed), RedemptionOp(m), Confirmed, response.txHash,
      NoFailure);
  }

  lemma RowsStayInAgreement(w: World, s: Step)
    requires RowsAgree(w.tables)
    ensures RowsAgree(After(w, s).tables) && Evolves(w.tables, After(w, s).tables)
  {
    var t := w.tables;
    match s
    case BeginMint(c, eligible, destination) => MintBegunAgrees(t, c, eligible, destination);
    case FinishMint(m, response) => MintFinishedAgrees(t, m, response);
    case RecoverFailedMint(m) => FailedMintAgrees(t, m);
    case BeginRedemption(c, eligible) => RedemptionBegunAgrees(t, c, eligible);
    case FinishRedemption(m, response, answered) =>
      RedemptionFinishedAgrees(t, m, response, if answered then Some(RedemptionOp(m) in w.chain.executed) else None);
    case _ =>
      forall m: nat | m < |t.mints| ensures RowAgrees(After(w, s).tables, m) && RowEvolves(t, After(w, s).tables, m) {
        assert RowAgrees(t, m);
      }
  }

  // ---- What each transaction does to the rows ----

  /** The commands that were accepted. */
  predicate SameKeys(t: Tables, u: Tables) {
    u.mintKeys == t.mintKeys && u.redemptionKeys == t.redemptionKeys
  }

  /** A finished mint call sets one status; a first confirmation also adds to the holding. */
  lemma MintFinishedEffect(t: Tables, i: MintId, response: Response)
    ensures var u := MintFinished(t, i, response).tables;
            && u.locks == t.locks && u.redemptions == t.redemptions && SameKeys(t, u)
            && (u != t ==>
                  && i < |t.mints| && !t.mints[i].status.Minted? && !t.mints[i].status.FailedRecovered?
                  && u.mints == t.mints[i :=
                     t.mints[i].(status := if response.Positive() then Minted else RecoveryRequired)]
                  && u.holdings == if response.Positive()
                     then t.holdings[t.mints[i].owner := t.Holding(t.mints[i].owner) + t.mints[i].quantity]
                     else t.holdings)
  {
  }

  lemma FailedMintEffect(t: Tables, i: MintId)
    requires t.Consistent()
    ensures var u := FailedMintRecovered(t, i).tables;
            && u.redemptions == t.redemptions && u.holdings == t.holdings && SameKeys(t, u)
            && (u != t ==>
                  && i < |t.mints| && !t.mints[i].status.FailedRecovered?
                  && u.mints == t.mints[i := t.mints[i].(status := FailedRecovered)]
                  && u.locks == t.locks[i := t.locks[i].(locked := false)])
  {
  }

  lemma RedemptionBegunEffect(t: Tables, c: RedeemCommand, eligible: bool)
    ensures var u := RedemptionBegun(t, c, eligible).tables;
            && u.mints == t.mints && u.locks == t.locks && u.holdings == t.holdings && u.mintKeys == t.mintKeys
            && (u != t ==>
                  && c.mint < |t.mints| && c.mint < |t.locks| && c.mint !in t.redemptions
                  && t.mints[c.mint].status.Minted? && t.locks[c.mint].locked
                  && (c.customer, c.key) !in t.redemptionKeys
                  && u.redemptions == RedemptionOpened(t, c).redemptions
                  && u.redemptionKeys == RedemptionOpened(t, c).redemptionKeys)
  {
  }

  /** A burn is completed once, only on an executed answer, and then lock, reservation and holding fall together. */
  lemma RedemptionConfirmedEffect(t: Tables, i: MintId, response: Response)
    requires t.Consistent() && i in t.redemptions && RedemptionOp(i) in t.operations
    ensures var u := RedemptionConfirmed(t, i, response).tables;
            && u.mints == t.mints && SameKeys(t, u)
            && (u != t ==>
                  && t.locks[i].locked
                  && u.locks == t.locks[i := t.locks[i].(locked := false)]
                  && u.redemptions == t.redemptions[i := t.redemptions[i].(status := Completed)]
                  && u.holdings == t.holdings[t.redemptions[i].owner :=
                     t.Holding(t.redemptions[i].owner) - t.redemptions[i].quantity])
  {
  }

  lemma BurnUnknownEffect(t: Tables, i: MintId, response: Response)
    requires i in t.redemptions && RedemptionOp(i) in t.operations
    ensures var u := BurnUnknown(t, i, response);
            && u.mints == t.mints && u.locks == t.locks && u.holdings == t.holdings && SameKeys(t, u)
            && u.redemptions == t.redemptions[i := t.redemptions[i].(status := BurnRecoveryRequired)]
  {
  }

  lemma RedemptionFinishedEffect(t: Tables, i: MintId, response: Response, executed: Option<bool>)
    requires t.Consistent()
    ensures var u := RedemptionFinished(t, i, response, executed).tables;
            && u.mints == t.mints && SameKeys(t, u)
            && (u != t ==> i in t.redemptions && !t.redemptions[i].status.Completed?)
            && (u != t && u.locks == t.locks ==>
                  u.holdings == t.holdings && u.redemptions ==
                    t.redemptions[i := t.redemptions[i].(status := BurnRecoveryRequired)])
            && (u.locks != t.locks ==>
                  && executed == Some(true) && t.locks[i].locked
                  && u.locks == t.locks[i := t.locks[i].(locked := false)]
                  && u.redemptions == t.redemptions[i := t.redemptions[i].(status := Completed)]
                  && u.holdings == t.holdings[t.redemptions[i].owner :=
                     t.Holding(t.redemptions[i].owner) - t.redemptions[i].quantity])
  {
    if i in t.redemptions && RedemptionOp(i) in t.operations {
      BurnUnknownEffect(t, i, response);
      RedemptionConfirmedEffect(t, i, response);
    }
  }

  /** A mint becomes MINTED only by a positive answer to its own call. */
  lemma NewlyMinted(w: World, s: Step, m: MintId)
    requires w.tables.Consistent() && m < |After(w, s).tables.mints| && After(w, s).tables.mints[m].status.Minted?
    ensures m < |w.tables.mints|
    ensures w.tables.mints[m].status.Minted? || (s.FinishMint? && s.mint == m && s.response.Positive())
  {
    match s
    case FinishMint(i, response) => MintFinishedEffect(w.tables, i, response);
    case RecoverFailedMint(i) => FailedMintEffect(w.tables, i);
    case BeginRedemption(c, eligible) => RedemptionBegunEffect(w.tables, c, eligible);
    case FinishRedemption(i, response, answered) =>
      RedemptionFinishedEffect(w.tables, i, response, if answered then Some(RedemptionOp(i) in w.chain.executed)
        else None);
    case _ =>
  }

  lemma ChainGrows(w: World, s: Step)
    requires w.tables.Consistent()
    ensures w.chain.executed <= After(w, s).chain.executed
    ensures forall op | op in After(w, s).chain.executed && op !in w.chain.executed ::
              (s == ChainMints(op.mint) && op.MintOp? && op.mint < |w.tables.mints|)
              || (s == ChainBurns(op.mint) && op.RedemptionOp? && op.mint in w.tables.redemptions)
  {
  }

  lemma ChainStillFollows(w: World, s: Step)
    requires RowsAgree(w.tables) && ChainFollows(w) && Truthful(w, s)
    ensures ChainFollows(After(w, s))
  {
    var v := After(w, s);
    RowsStayInAgreement(w, s);
    ChainGrows(w, s);
    forall m: nat | m < |v.tables.mints| && v.tables.mints[m].status.Minted? ensures MintOp(m) in v.chain.executed {
      NewlyMinted(w, s, m);
    }
    forall m: nat | m in v.tables.redemptions ensures MintOp(m) in v.chain.executed {
      assert RowEvolves(w.tables, v.tables, m);
    }
    forall m: nat | RedemptionOp(m) in v.chain.executed ensures m in v.tables.redemptions {
      assert RowEvolves(w.tables, v.tables, m);
    }
  }

  /** Supply moves with the tokens of the one mint an executed operation belongs to. */
  lemma TokensAfter(w: World, s: Step, asset: Asset, m: nat)
    requires Sane(w) && Evolves(w.tables, After(w, s).tables)
    ensures TokensOf(After(w, s), asset)(m) == TokensOf(w, asset)(m) +
            if (s.ChainMints? || s.ChainBurns?) && m == s.mint
              then After(w, s).chain.Supply(asset) - w.chain.Supply(asset) else 0
  {
    ChainGrows(w, s);
    if m < |w.tables.mints| {
      assert RowEvolves(w.tables, After(w, s).tables, m) && RowAgrees(w.tables, m);
    }
  }

  lemma SupplyStaysTokens(w: World, s: Step)
    requires Sane(w) && Truthful(w, s)
    ensures SupplyIsTokens(After(w, s))
  {
    var v := After(w, s);
    RowsStayInAgreement(w, s);
    var n := |w.tables.mints|;
    var changed := if s.ChainMints? || s.ChainBurns? then s.mint else n;
    AtMostOneNewRow(w, s);
    if (s.ChainMints? || s.ChainBurns?) && s.mint >= n {
      UnknownMintIsUntouched(w, s);
    }
    forall asset ensures v.chain.Supply(asset) == Sum(TokensOf(v, asset), |v.tables.mints|) {
      assert w.chain.Supply(asset) == Sum(TokensOf(w, asset), n);
      forall m: nat ensures TokensOf(v, asset)(m) == TokensOf(w, asset)(m) +
            if (s.ChainMints? || s.ChainBurns?) && m == s.mint then v.chain.Supply(asset) - w.chain.Supply(asset)
              else 0 {
        TokensAfter(w, s, asset, m);
      }
      SumChange(TokensOf(w, asset), TokensOf(v, asset), n, changed);
      SumOfNewZero(TokensOf(v, asset), n, |v.tables.mints|);   // a new mint has no tokens yet
    }
  }

  lemma UnknownMintIsUntouched(w: World, s: Step)
    requires w.tables.Consistent() && (s.ChainMints? || s.ChainBurns?) && s.mint >= |w.tables.mints|
    ensures After(w, s) == w
  {
  }

  lemma AtMostOneNewRow(w: World, s: Step)
    requires RowsAgree(w.tables)
    ensures |w.tables.mints| <= |After(w, s).tables.mints| <= |w.tables.mints| + 1
  {
    match s
    case FinishMint(i, response) => MintFinishedEffect(w.tables, i, response);
    case RecoverFailedMint(i) => FailedMintEffect(w.tables, i);
    case FinishRedemption(i, response, answered) =>
      RedemptionFinishedEffect(w.tables, i, response, if answered then Some(RedemptionOp(i) in w.chain.executed)
        else None);
    case _ =>
  }

  /** Sanity survives every truthful step, final answers or not. */
  lemma StepKeepsSane(w: World, s: Step)
    requires Sane(w) && Truthful(w, s)
    ensures Sane(After(w, s))
  {
    RowsStayInAgreement(w, s);
    ChainStillFollows(w, s);
    SupplyStaysTokens(w, s);
  }
}
