/** The saga's operations as they run: transactions on the database with provider calls in between. */
module RwaService {
  import opened Results
  import opened Decimals
  import opened Sums
  import opened RwaSaga
  import opened RwaWorld
  import opened RwaSafety
  import Ledger

  /** How the provider behaves during one recovery: whether it answers the query, and the call if one is made. */
  datatype Conditions = Conditions(answers: bool, call: Call, requeryAnswers: bool)

  /** One provider call: whether the chain executes it, and the response, whose confirmation must be true. */
  datatype Call = Call(executes: bool, response: Response) {
    function Answer(executed: bool): Response {
      response.(confirmed := response.confirmed && executed)
    }
  }

  /** The work an operation stands for has reached its end. */
  predicate Settled(t: Tables, op: OperationId) {
    match op
    case MintOp(m) => m < |t.mints| && (t.mints[m].status.Minted? || t.mints[m].status.FailedRecovered?)
    case RedemptionOp(m) => m in t.redemptions && t.redemptions[m].status.Completed?
  }

  function Attempts(t: Tables, op: OperationId): nat {
    if op in t.operations then t.operations[op].attempts else 0
  }

  /** The steps lead from one world to another, truthfully and with final answers. */
  ghost predicate Leads(w: World, steps: seq<Step>, v: World) {
    TruthfulRun(w, steps) && FinalRun(w, steps) && Run(w, steps) == v
  }

  lemma LeadsByStep(w: World, steps: seq<Step>, v: World, s: Step)
    requires Leads(w, steps, v) && Truthful(v, s) && Final(v, s)
    ensures Leads(w, steps + [s], After(v, s))
  {
    RunStep(w, steps, s);
  }

  /** A run can be continued by another. */
  lemma {:induction false} LeadsOn(w: World, steps: seq<Step>, v: World, more: seq<Step>, x: World)
    requires Leads(w, steps, v) && Leads(v, more, x)
    ensures Leads(w, steps + more, x)
  {
    if more == [] {
      assert steps + more == steps;
    } else {
      var n := |more| - 1;
      assert more == more[..n] + [more[n]];
      RunStep(v, more[..n], more[n]);
      LeadsOn(w, steps, v, more[..n], Run(v, more[..n]));
      LeadsByStep(w, steps + more[..n], Run(v, more[..n]), more[n]);
      assert steps + more[..n] + [more[n]] == steps + more;
    }
  }

  predicate Advanced(t: Tables, u: Tables, op: OperationId) {
    Settled(u, op) || Attempts(u, op) > Attempts(t, op)
  }

  ghost predicate OperationKept(t: Tables, u: Tables, op: OperationId) {
    && (Settled(t, op) ==> Settled(u, op))
    && (op in t.operations ==> op in u.operations) && Attempts(t, op) <= Attempts(u, op)
  }

  /** No settled operation becomes unsettled and no attempt is forgotten. */
  ghost predicate KeepsProgress(t: Tables, u: Tables) {
    forall op :: OperationKept(t, u, op)
  }

  lemma ProgressIsTransitive(t: Tables, u: Tables, v: Tables)
    requires KeepsProgress(t, u) && KeepsProgress(u, v)
    ensures KeepsProgress(t, v)
    ensures forall op | Advanced(t, u, op) :: Advanced(t, v, op)
    ensures forall op | Settled(u, op) :: Settled(v, op)
  {
    forall op ensures OperationKept(t, v, op) && (Advanced(t, u, op) ==> Advanced(t, v, op))
      && (Settled(u, op) ==> Settled(v, op))
    {
      assert OperationKept(t, u, op) && OperationKept(u, v, op);
    }
  }

  /** A worker pass over `done`: each operation advanced, and if all were counted, all are settled. */
  ghost predicate Passed(w: World, steps: seq<Step>, v: World, done: seq<OperationId>, completed: nat) {
    && Leads(w, steps, v) && KeepsProgress(w.tables, v.tables) && completed <= |done|
    && (forall i | 0 <= i < |done| :: Advanced(w.tables, v.tables, done[i]))
    && (completed == |done| ==> forall i | 0 <= i < |done| :: Settled(v.tables, done[i]))
  }

  lemma PassedOn(w: World, steps: seq<Step>, v: World, done: seq<OperationId>, completed: nat,
      more: seq<Step>, x: World)
    requires Passed(w, steps, v, done, completed) && Leads(v, more, x) && KeepsProgress(v.tables, x.tables)
    ensures Passed(w, steps + more, x, done, completed)
  {
    LeadsOn(w, steps, v, more, x);
    ProgressIsTransitive(w.tables, v.tables, x.tables);
  }

  lemma StepKeepsProgress(w: World, s: Step)
    requires !s.BeginMint? && !s.BeginRedemption?
    ensures KeepsProgress(w.tables, After(w, s).tables)
  {
    var t, u := w.tables, After(w, s).tables;
    match s
    case FinishMint(m, response) => MintFinishedKeepsProgress(t, m, response);
    case RecoverFailedMint(m) => FailedMintKeepsProgress(t, m);
    case FinishRedemption(m, response, answered) =>
      RedemptionFinishedKeepsProgress(t, m, response, if answered then Some(RedemptionOp(m) in w.chain.executed)
        else None);
    case _ =>
  }

  lemma MintFinishedKeepsProgress(t: Tables, m: MintId, response: Response)
    ensures KeepsProgress(t, MintFinished(t, m, response).tables)
  {
    if MintFinished(t, m, response).tables != t {
      MintFinishedEffect(t, m, response);
      StatusKeepsProgress(t, m, RecoveryRequired, OutcomeUnknown, response.txHash, response.Code());
      var row := EventRow(MintConfirmedEvent, response.payload, MintOp(m));
      var held := WithHolding(WithEvent(t, response.eventId, row), t.mints[m].owner,
        t.Holding(t.mints[m].owner) + t.mints[m].quantity);
      StatusKeepsProgress(held, m, Minted, Confirmed, response.txHash, NoFailure);
      assert held.operations == t.operations && held.mints == t.mints && held.redemptions == t.redemptions;
      forall op ensures OperationKept(t, held, op) {
      }
      ProgressIsTransitive(t, held,
        Touch(WithMintStatus(held, m, Minted), MintOp(m), Confirmed, response.txHash, NoFailure));
    }
  }

  lemma StatusKeepsProgress(t: Tables, m: MintId, status: MintStatus, operation: OperationStatus, txHash: string,
      error: FailureCode)
    requires m < |t.mints| && MintOp(m) in t.operations && !Settled(t, MintOp(m))
    ensures KeepsProgress(t, Touch(WithMintStatus(t, m, status), MintOp(m), operation, txHash, error))
  {
    var u := Touch(WithMintStatus(t, m, status), MintOp(m), operation, txHash, error);
    forall op ensures OperationKept(t, u, op) {
    }
  }

  lemma FinishedMintIsSettled(t: Tables, m: MintId, response: Response)
    ensures MintFinished(t, m, response).result.Success? ==> Settled(MintFinished(t, m, response).tables, MintOp(m))
  {
  }

  lemma FailedMintKeepsProgress(t: Tables, m: MintId)
    ensures KeepsProgress(t, FailedMintRecovered(t, m).tables)
    ensures FailedMintRecovered(t, m).result.Success? ==> Settled(FailedMintRecovered(t, m).tables, MintOp(m))
  {
  }

  lemma RedemptionFinishedKeepsProgress(t: Tables, m: MintId, response: Response, executed: Option<bool>)
    ensures KeepsProgress(t, RedemptionFinished(t, m, response, executed).tables)
    ensures RedemptionFinished(t, m, response, executed).result.Success? ==>
              Settled(RedemptionFinished(t, m, response, executed).tables, RedemptionOp(m))
  {
    if m in t.redemptions && RedemptionOp(m) in t.operations && !t.redemptions[m].status.Completed? {
      BurnKeepsProgress(t, m, BurnRecoveryRequired, OutcomeUnknown, response.txHash, response.Code());
      ConfirmedBurnKeepsProgress(t, m, response);
    }
  }

  lemma BurnKeepsProgress(t: Tables, m: MintId, status: RedemptionStatus, operation: OperationStatus, txHash: string,
      error: FailureCode)
    requires m in t.redemptions && RedemptionOp(m) in t.operations && !Settled(t, RedemptionOp(m))
    ensures KeepsProgress(t, Touch(WithRedemptionStatus(t, m, status), RedemptionOp(m), operation, txHash, error))
  {
    var u := Touch(WithRedemptionStatus(t, m, status), RedemptionOp(m), operation, txHash, error);
    forall op ensures OperationKept(t, u, op) {
    }
  }

  lemma ConfirmedBurnKeepsProgress(t: Tables, m: MintId, response: Response)
    requires m in t.redemptions && RedemptionOp(m) in t.operations && !Settled(t, RedemptionOp(m))
    ensures KeepsProgress(t, RedemptionConfirmed(t, m, response).tables)
    ensures RedemptionConfirmed(t, m, response).result.Success? ==>
            Settled(RedemptionConfirmed(t, m, response).tables, RedemptionOp(m))
  {
    if RedemptionConfirmed(t, m, response).result.Success? {
      RedemptionClosedRows(t, m, response);
      var u := RedemptionConfirmed(t, m, response).tables;
      forall op ensures OperationKept(t, u, op) {
      }
    }
  }

  /** The rows a completed redemption leaves, table by table. */
  lemma RedemptionClosedRows(t: Tables, m: MintId, response: Response)
    requires m in t.redemptions && RedemptionOp(m) in t.operations && t.HasLock(m) && t.locks[m].locked
    requires RedemptionConfirmed(t, m, response).result.Success?
    ensures var redemption := t.redemptions[m];
            var kind := if redemption.forced then ForcedRedemptionConfirmedEvent else BurnConfirmedEvent;
            RedemptionConfirmed(t, m, response).tables == t.(
              redemptions := t.redemptions[m := redemption.(status := Completed)],
              holdings := t.holdings[redemption.owner := t.Holding(redemption.owner) - redemption.quantity],
              locks := t.locks[m := t.locks[m].(locked := false)],
              reservations := t.reservations[m := t.reservations[m].(active := false)],
              operations := t.operations[RedemptionOp(m) :=
                Operation(Confirmed, response.txHash, t.operations[RedemptionOp(m)].attempts + 1, NoFailure, false)],
              events := WithEvent(t, response.eventId, EventRow(kind, response.payload, RedemptionOp(m))).events)
  {
  }

  /** The rows a confirmed mint leaves, table by table. */
  lemma MintConfirmedRows(t: Tables, m: MintId, response: Response)
    requires m < |t.mints| && MintOp(m) in t.operations && MintConfirmed(t, m, response).result.Success?
    ensures var mint := t.mints[m];
            MintConfirmed(t, m, response).tables == t.(
              mints := t.mints[m := mint.(status := Minted)],
              holdings := t.holdings[mint.owner := t.Holding(mint.owner) + mint.quantity],
              operations := t.operations[MintOp(m) :=
                Operation(Confirmed, response.txHash, t.operations[MintOp(m)].attempts + 1, NoFailure, false)],
              events := WithEvent(t, response.eventId,
                EventRow(MintConfirmedEvent, response.payload, MintOp(m))).events)
  {
  }

  /** The mint this command started has this status. */
  predicate MintIs(t: Tables, c: MintCommand, status: MintStatus) {
    && (c.customer, c.key) in t.mintKeys && t.mintKeys[(c.customer, c.key)].0 == c
    && var m := t.mintKeys[(c.customer, c.key)].1; m < |t.mints| && t.mints[m].status == status
  }

  predicate RedemptionIs(t: Tables, c: RedeemCommand, status: RedemptionStatus) {
    && (c.customer, c.key) in t.redemptionKeys && t.redemptionKeys[(c.customer, c.key)].0 == c
    && var m := t.redemptionKeys[(c.customer, c.key)].1; m in t.redemptions && t.redemptions[m].status == status
  }

  /** A finished call answers with the status of its row, or leaves it for recovery. */
  lemma MintFinishedAnswers(t: Tables, m: MintId, response: Response)
    requires m < |t.mints|
    ensures var out := MintFinished(t, m, response);
            && SameKeys(t, out.tables) && |out.tables.mints| == |t.mints|
            && (out.result.Success? ==> out.tables.mints[m].status == out.result.value)
            && (out.result == Failure(OperationUnknown) ==> out.tables.mints[m].status == RecoveryRequired)
  {
    MintFinishedEffect(t, m, response);
  }

  lemma RedemptionFinishedAnswers(t: Tables, m: MintId, response: Response, executed: Option<bool>)
    requires t.Consistent() && m in t.redemptions
    ensures var out := RedemptionFinished(t, m, response, executed);
            && SameKeys(t, out.tables) && m in out.tables.redemptions
            && (out.result.Success? ==> out.result.value == Completed)
            && (out.result == Failure(OperationUnknown) ==> out.tables.redemptions[m].status == BurnRecoveryRequired)
  {
    RedemptionFinishedEffect(t, m, response, executed);
  }

  class Service {
    var database: Tables
    var chain: Chain
    ghost var refused: set<MintId>

    ghost function Now(): World
      reads this
    {
      World(database, chain, refused)
    }

    constructor ()
      ensures Now() == START
    {
      database := START.tables;
      chain := START.chain;
      refused := {};
    }

    // ---- Transactions ----

    method BeginMint(c: MintCommand, eligible: bool, destination: Option<Address>)
        returns (r: Result<Started, SagaError>)
      modifies this`database
      ensures Outcome(database, r) == MintBegun(old(database), c, eligible, destination)
    {
      if c.quantity <= 0 || c.quantity % UNIT != 0 || c.custody == UnknownCustody {
        return Failure(InvalidCommand);
      }
      if !eligible {
        return Failure(InvalidState);
      }
      if !Ledger.IsKey(c.key) {
        return Failure(InvalidCommand);
      }
      var tx := database;
      var id := |tx.mints|;
      if (c.customer, c.key) in tx.mintKeys {
        var (hash, existing) := tx.mintKeys[(c.customer, c.key)];
        return if hash == c then Success(Started(existing, false)) else Failure(IdempotencyConflict);
      }
      tx := tx.(mintKeys := tx.mintKeys[(c.customer, c.key) := (c, id)]);
      if c.asset !in tx.enabled {
        return Failure(AssetNotFound);
      }
      if destination.None? {
        return Failure(AddressNotActive);
      }
      var owner := Owner(c.customer, c.asset);
      if owner !in tx.positions {
        return Failure(InsufficientShares);
      }
      var available := Sub(tx.positions[owner], tx.Reserved(owner));
      if available.Failure? || available.value < c.quantity {
        return Failure(InsufficientShares);
      }
      tx := tx.(reservations := tx.reservations + [Reservation(owner, c.quantity, true)]);
      tx := tx.(locks := tx.locks + [Lock(owner, c.quantity, true)]);
      tx := tx.(mints := tx.mints + [Mint(owner, c.quantity, c.custody, destination.value, UnderlyingLocked)]);
      tx := tx.(operations := tx.operations[MintOp(id) := Operation(Pending, "", 0, NoFailure, false)]);
      tx := tx.(mints := tx.mints[id := tx.mints[id].(status := ChainPending)]);
      database := tx;
      assert database == MintOpened(old(database), c, destination.value);
      return Success(Started(id, true));
    }


    method FinishMint(m: MintId, response: Response) returns (r: Result<MintStatus, SagaError>)
      modifies this`database
      ensures Outcome(database, r) == MintFinished(old(database), m, response)
    {
      var tx := database;
      if m >= |tx.mints| {
        return Failure(NotFound);
      }
      var current := tx.mints[m];
      if current.status == Minted || current.status == FailedRecovered {
        return Success(current.status);
      }
      if MintOp(m) !in tx.operations {
        return Failure(NotFound);
      }
      if response.failed || !response.confirmed {
        var code := ChainOutcomeUnknown;
        if response.failed && response.reverted {
          code := ChainReverted;
        }
        tx := Touch(tx, MintOp(m), OutcomeUnknown, response.txHash, code);
        tx := WithMintStatus(tx, m, RecoveryRequired);
        database := tx;
        return Failure(OperationUnknown);
      }
      r := ConfirmMint(m, response);
    }

    method ConfirmMint(m: MintId, response: Response) returns (r: Result<MintStatus, SagaError>)
      requires m < |database.mints| && MintOp(m) in database.operations
      modifies this`database
      ensures Outcome(database, r) == MintConfirmed(old(database), m, response)
    {
      var tx := database;
      var current := tx.mints[m];
      var operation := Operation(Confirmed, response.txHash, tx.operations[MintOp(m)].attempts + 1, NoFailure, false);
      var row := EventRow(MintConfirmedEvent, response.payload, MintOp(m));
      if EventConflicts(tx, response.eventId, row) {
        return Failure(EventConflict);
      }
      var holding := tx.Holding(current.owner) + current.quantity;
      if holding >= LIMIT {
        return Failure(ConstraintViolation);
      }
      MintConfirmedRows(database, m, response);
      database := tx.(mints := tx.mints[m := current.(status := Minted)], holdings :=
        tx.holdings[current.owner := holding],
        operations := tx.operations[MintOp(m) := operation], events := WithEvent(tx, response.eventId, row).events);
      return Success(Minted);
    }

    method RecoverFailedMint(m: MintId) returns (r: Result<(), SagaError>)
      modifies this`database
      ensures Outcome(database, r) == FailedMintRecovered(old(database), m)
    {
      var tx := database;
      if m >= |tx.mints| {
        return Failure(NotFound);
      }
      if tx.mints[m].status == FailedRecovered {
        return Success(());
      }
      if !tx.HasLock(m) || MintOp(m) !in tx.operations {
        return Failure(NotFound);
      }
      if tx.locks[m].locked {
        tx := tx.(reservations := tx.reservations[m := tx.reservations[m].(active := false)]);
        tx := tx.(locks := tx.locks[m := tx.locks[m].(locked := false)]);
      }
      assert tx == Released(database, m);
      tx := Touch(tx, MintOp(m), OperationFailed, "", MintNotExecuted);
      tx := WithMintStatus(tx, m, FailedRecovered);
      database := tx;
      return Success(());
    }

    method BeginRedemption(c: RedeemCommand, eligible: bool) returns (r: Result<Started, SagaError>)
      modifies this`database
      ensures Outcome(database, r) == RedemptionBegun(old(database), c, eligible)
    {
      if !eligible {
        return Failure(InvalidState);
      }
      if !Ledger.IsKey(c.key) {
        return Failure(InvalidCommand);
      }
      var tx := database;
      if (c.customer, c.key) in tx.redemptionKeys {
        var (hash, existing) := tx.redemptionKeys[(c.customer, c.key)];
        return if hash == c then Success(Started(existing, false)) else Failure(IdempotencyConflict);
      }
      tx := tx.(redemptionKeys := tx.redemptionKeys[(c.customer, c.key) := (c, c.mint)]);
      if c.mint >= |tx.mints| || tx.mints[c.mint].owner.customer != c.customer || tx.mints[c.mint].status != Minted {
        return Failure(HoldingNotFound);
      }
      var mint := tx.mints[c.mint];
      if !tx.HasLock(c.mint) || !tx.locks[c.mint].locked || tx.locks[c.mint].quantity != mint.quantity {
        return Failure(InvalidState);
      }
      if tx.Holding(mint.owner) < mint.quantity {
        return Failure(HoldingNotFound);
      }
      if c.mint in tx.redemptions {
        return Failure(ConstraintViolation);
      }
      tx := tx.(redemptions :=
        tx.redemptions[c.mint := Redemption(mint.owner, mint.quantity, mint.destination, c.forced, Requested)]);
      tx := tx.(operations := tx.operations[RedemptionOp(c.mint) := Operation(Pending, "", 0, NoFailure, false)]);
      tx := WithRedemptionStatus(tx, c.mint, BurnPending);
      if mint.owner.asset !in tx.enabled {
        return Failure(AssetNotFound);
      }
      database := tx;
      assert database == RedemptionOpened(old(database), c);
      return Success(Started(c.mint, true));
    }

    /** The in-transaction query asks the chain again before any share is released. */
    method FinishRedemption(m: MintId, response: Response, answered: bool)
        returns (r: Result<RedemptionStatus, SagaError>)
      modifies this`database
      ensures Outcome(database, r) ==
              RedemptionFinished(old(database), m, response, if answered then Some(RedemptionOp(m) in chain.executed)
              else None)
    {
      var tx := database;
      if m !in tx.redemptions {
        return Failure(NotFound);
      }
      var current := tx.redemptions[m];
      if current.status == Completed {
        return Success(Completed);
      }
      if RedemptionOp(m) !in tx.operations {
        return Failure(NotFound);
      }
      if response.failed || !response.confirmed {
        tx := Touch(tx, RedemptionOp(m), OutcomeUnknown, response.txHash, response.Code());
        tx := WithRedemptionStatus(tx, m, BurnRecoveryRequired);
        database := tx;
        return Failure(OperationUnknown);
      }
      if current.owner.asset !in tx.enabled {
        return Failure(AssetNotFound);
      }
      if !answered || RedemptionOp(m) !in chain.executed {
        return Failure(NeedsRecovery);
      }
      r := ConfirmRedemption(m, response);
    }

    method ConfirmRedemption(m: MintId, response: Response) returns (r: Result<RedemptionStatus, SagaError>)
      requires m in database.redemptions && RedemptionOp(m) in database.operations
      modifies this`database
      ensures Outcome(database, r) == RedemptionConfirmed(old(database), m, response)
    {
      var tx := database;
      var current := tx.redemptions[m];
      var redemptions := tx.redemptions[m := current.(status := BurnConfirmed)];
      if !tx.HasLock(m) || !tx.locks[m].locked {
        return Failure(InvalidState);
      }
      var holding := tx.Holding(current.owner) - current.quantity;
      if holding < 0 {
        return Failure(NotFound);
      }
      var reservations := tx.reservations[m := tx.reservations[m].(active := false)];
      var locks := tx.locks[m := tx.locks[m].(locked := false)];
      var operation := Operation(Confirmed, response.txHash, tx.operations[RedemptionOp(m)].attempts + 1, NoFailure,
        false);
      var row := EventRow(if current.forced then ForcedRedemptionConfirmedEvent
        else BurnConfirmedEvent, response.payload, RedemptionOp(m));
      if EventConflicts(tx, response.eventId, row) {
        return Failure(EventConflict);
      }
      redemptions := redemptions[m := current.(status := Completed)];
      RedemptionClosedRows(database, m, response);
      assert redemptions == database.redemptions[m := current.(status := Completed)];
      database := tx.(redemptions := redemptions, holdings := tx.holdings[current.owner := holding], locks := locks,
        reservations := reservations, operations := tx.operations[RedemptionOp(m) := operation],
        events := WithEvent(tx, response.eventId, row).events);
      return Success(Completed);
    }

    // ---- Provider calls ----

    method CallMint(m: MintId, call: Call) returns (response: Response)
      requires m < |database.mints|
      modifies this`chain
      ensures Now() == if call.executes then After(old(Now()), ChainMints(m)) else old(Now())
      ensures response == call.Answer(MintOp(m) in chain.executed)
    {
      if call.executes {
        chain := chain.Execute(MintOp(m), database.mints[m].owner.asset, database.mints[m].quantity);
      }
      response := call.Answer(MintOp(m) in chain.executed);
    }

    method CallBurn(m: MintId, call: Call) returns (response: Response)
      requires m in database.redemptions
      modifies this`chain
      ensures Now() == if call.executes then After(old(Now()), ChainBurns(m)) else old(Now())
      ensures response == call.Answer(RedemptionOp(m) in chain.executed)
    {
      if call.executes {
        chain := chain.Execute(RedemptionOp(m), database.redemptions[m].owner.asset, -database.redemptions[m].quantity);
      }
      response := call.Answer(RedemptionOp(m) in chain.executed);
    }

    // ---- Operations: transactions with calls in between ----

    /** Locks shares, calls the chain, and records what is known of the outcome; a status returned is the mint's own. */
    method MintShares(c: MintCommand, eligible: bool, destination: Option<Address>, call: Call)
      returns (r: Result<MintStatus, SagaError>, ghost steps: seq<Step>)
      requires Safe(Now())
      modifies this
      ensures Safe(Now()) && Leads(old(Now()), steps, Now())
      ensures r.Success? ==> MintIs(database, c, r.value)
      ensures r == Failure(OperationUnknown) ==> MintIs(database, c, RecoveryRequired)
    {
      ghost var before := Now();
      var started := BeginMint(c, eligible, destination);
      steps := [Step.BeginMint(c, eligible, destination)];
      LeadsByStep(before, [], before, steps[0]);
      StepKeepsSafe(before, steps[0]);
      if started.Failure? {
        return Failure(started.error), steps;
      }
      var m := started.value.id;
      if !started.value.isNew {
        return if m < |database.mints| then Success(database.mints[m].status) else Failure(NotFound), steps;
      }
      ghost var begun := Now();
      var response := CallMint(m, call);
      if call.executes {
        LeadsByStep(before, steps, begun, ChainMints(m));
        StepKeepsSafe(begun, ChainMints(m));
        steps := steps + [ChainMints(m)];
      }
      ghost var called := Now();
      MintFinishedAnswers(called.tables, m, response);
      r := FinishMint(m, response);
      LeadsByStep(before, steps, called, Step.FinishMint(m, response));
      StepKeepsSafe(called, Step.FinishMint(m, response));
      steps := steps + [Step.FinishMint(m, response)];
    }

    /** Records the redemption, burns, and releases shares only after an executed burn; a status returned is its own. */
    method Redeem(c: RedeemCommand, eligible: bool, call: Call, requeryAnswers: bool)
      returns (r: Result<RedemptionStatus, SagaError>, ghost steps: seq<Step>)
      requires Safe(Now())
      modifies this
      ensures Safe(Now()) && Leads(old(Now()), steps, Now())
      ensures r.Success? ==> RedemptionIs(database, c, r.value)
      ensures r == Failure(OperationUnknown) ==> RedemptionIs(database, c, BurnRecoveryRequired)
    {
      ghost var before := Now();
      var started := BeginRedemption(c, eligible);
      steps := [Step.BeginRedemption(c, eligible)];
      LeadsByStep(before, [], before, steps[0]);
      StepKeepsSafe(before, steps[0]);
      if started.Failure? {
        return Failure(started.error), steps;
      }
      var m := started.value.id;
      if !started.value.isNew {
        return if m in database.redemptions then Success(database.redemptions[m].status) else Failure(NotFound), steps;
      }
      ghost var begun := Now();
      ghost var more;
      r, more := BurnAndFinish(m, call, requeryAnswers);
      LeadsOn(before, steps, begun, more, Now());
      steps := steps + more;
    }

    /** The transaction that ends a burn call, as one step of a run. */
    method FinishBurn(m: MintId, response: Response, answered: bool)
      returns (r: Result<RedemptionStatus, SagaError>, ghost steps: seq<Step>)
      requires Safe(Now()) && m in database.redemptions
      requires response.Positive() ==> RedemptionOp(m) in chain.executed
      modifies this`database
      ensures Safe(Now()) && Leads(old(Now()), steps, Now())
      ensures r.Success? ==> r.value == Completed && Settled(database, RedemptionOp(m))
      ensures r == Failure(OperationUnknown) ==>
              m in database.redemptions && database.redemptions[m].status == BurnRecoveryRequired
      ensures KeepsProgress(old(database), database) && SameKeys(old(database), database)
    {
      ghost var before := Now();
      ghost var answer := if answered then Some(RedemptionOp(m) in chain.executed) else None;
      steps := [Step.FinishRedemption(m, response, answered)];
      LeadsByStep(before, [], before, steps[0]);
      StepKeepsSafe(before, steps[0]);
      RedemptionFinishedKeepsProgress(database, m, response, answer);
      RedemptionFinishedAnswers(database, m, response, answer);
      r := FinishRedemption(m, response, answered);
    }

    /** A burn call and the transaction that follows it; recovery repeats this with the same operation. */
    method BurnAndFinish(m: MintId, call: Call, requeryAnswers: bool)
      returns (r: Result<RedemptionStatus, SagaError>, ghost steps: seq<Step>)
      requires Safe(Now()) && m in database.redemptions
      modifies this`chain, this`database
      ensures Safe(Now()) && Leads(old(Now()), steps, Now())
      ensures r.Success? ==> r.value == Completed && Settled(database, RedemptionOp(m))
      ensures r == Failure(OperationUnknown) ==>
              m in database.redemptions && database.redemptions[m].status == BurnRecoveryRequired
      ensures KeepsProgress(old(database), database) && SameKeys(old(database), database)
    {
      ghost var before := Now();
      var response := CallBurn(m, call);
      steps := [];
      if call.executes {
        LeadsByStep(before, steps, before, ChainBurns(m));
        StepKeepsSafe(before, ChainBurns(m));
        steps := steps + [ChainBurns(m)];
      }
      ghost var called := Now();
      ghost var more;
      r, more := FinishBurn(m, response, requeryAnswers);
      LeadsOn(before, steps, called, more, Now());
      steps := steps + more;
    }

    // ---- Recovery ----

    /** Asks the chain about an operation, then finishes, undoes or repeats it. */
    method RecoverOperation(op: OperationId, k: Conditions) returns (r: Result<(), SagaError>, ghost steps: seq<Step>)
      requires Safe(Now())
      modifies this
      ensures Safe(Now()) && Leads(old(Now()), steps, Now())
      ensures r.Success? ==> Settled(database, op)
      ensures KeepsProgress(old(database), database)
    {
      steps := [];
      if op !in database.operations || (op.MintOp? && op.mint >= |database.mints|)
        || (op.RedemptionOp? && op.mint !in database.redemptions) {
        return Failure(InvalidCommand), steps;
      }
      var asset := if op.MintOp? then database.mints[op.mint].owner.asset
        else database.redemptions[op.mint].owner.asset;
      if asset !in database.enabled {
        return Failure(AssetNotFound), steps;
      }
      if !k.answers {
        return Failure(ProviderFailure), steps;
      }
      if op.MintOp? {
        if op in chain.executed {
          var minted;
          minted, steps := FinishExecutedMint(op.mint);
          r := if minted.Success? then Success(()) else Failure(minted.error);
        } else {
          r, steps := UndoMint(op.mint);
        }
      } else {
        var burned;
        if op in chain.executed {
          burned, steps := FinishExecutedBurn(op.mint, k.requeryAnswers);
        } else {
          burned, steps := BurnAndFinish(op.mint, k.call, k.requeryAnswers);
        }
        r := if burned.Success? then Success(()) else Failure(burned.error);
      }
    }

    /**
     The response recovery rebuilds for an operation that the chain reports executed; its event identity is
     replay-stable.
     */
    function Rebuild(op: OperationId): Response
      reads this`database
      requires op in database.operations
    {
      var txHash := database.operations[op].txHash;
      Response(true, false, false, txHash, if txHash == "" then RecoveryEvent(op)
        else Event(txHash), Rebuilt(op, txHash))
    }

    method FinishExecutedMint(m: MintId) returns (r: Result<MintStatus, SagaError>, ghost steps: seq<Step>)
      requires Safe(Now()) && MintOp(m) in database.operations && MintOp(m) in chain.executed
      modifies this`database
      ensures Safe(Now()) && Leads(old(Now()), steps, Now())
      ensures r.Success? ==> Settled(database, MintOp(m))
      ensures KeepsProgress(old(database), database)
    {
      ghost var before := Now();
      var response := Rebuild(MintOp(m));
      steps := [Step.FinishMint(m, response)];
      LeadsByStep(before, [], before, steps[0]);
      StepKeepsSafe(before, steps[0]);
      MintFinishedKeepsProgress(before.tables, m, response);
      FinishedMintIsSettled(before.tables, m, response);
      r := FinishMint(m, response);
    }

    method FinishExecutedBurn(m: MintId, requeryAnswers: bool)
        returns (r: Result<RedemptionStatus, SagaError>, ghost steps: seq<Step>)
      requires Safe(Now()) && RedemptionOp(m) in database.operations && RedemptionOp(m) in chain.executed
               && m in database.redemptions
      modifies this`database
      ensures Safe(Now()) && Leads(old(Now()), steps, Now())
      ensures r.Success? ==> Settled(database, RedemptionOp(m))
      ensures KeepsProgress(old(database), database)
    {
      var response := Rebuild(RedemptionOp(m));
      r, steps := FinishBurn(m, response, requeryAnswers);
    }

    /** The chain says the mint was not executed: its shares are freed. */
    method UndoMint(m: MintId) returns (r: Result<(), SagaError>, ghost steps: seq<Step>)
      requires Safe(Now()) && m < |database.mints| && MintOp(m) !in chain.executed
      modifies this`database, this`refused
      ensures Safe(Now()) && Leads(old(Now()), steps, Now())
      ensures r.Success? ==> Settled(database, MintOp(m))
      ensures KeepsProgress(old(database), database)
    {
      ghost var before := Now();
      refused := refused + {m};
      steps := [QueryUnexecuted(m)];
      LeadsByStep(before, [], before, steps[0]);
      StepKeepsSafe(before, steps[0]);
      ghost var asked := Now();
      r := RecoverFailedMint(m);
      LeadsByStep(before, steps, asked, Step.RecoverFailedMint(m));
      StepKeepsSafe(asked, Step.RecoverFailedMint(m));
      FailedMintKeepsProgress(asked.tables, m);
      steps := steps + [Step.RecoverFailedMint(m)];
    }

    method DeferRecovery(op: OperationId, reason: FailureCode) returns (ghost steps: seq<Step>)
      requires Safe(Now())
      modifies this`database
      ensures Safe(Now()) && Leads(old(Now()), steps, Now())
      ensures KeepsProgress(old(database), database)
      ensures op in old(database).operations ==> Attempts(database, op) > Attempts(old(database), op)
    {
      ghost var before := Now();
      StepKeepsProgress(before, Defer(op, reason));
      steps := [Defer(op, reason)];
      LeadsByStep(before, [], before, steps[0]);
      StepKeepsSafe(before, steps[0]);
      if op in database.operations {
        database := Touch(database, op, OutcomeUnknown, database.operations[op].txHash, reason);
      }
    }

    /** One operation of a worker pass: a failed recovery is put off, with one more attempt on its count. */
    method RecoverOrDefer(op: OperationId, k: Conditions) returns (recovered: bool, ghost steps: seq<Step>)
      requires Safe(Now())
      modifies this
      ensures Safe(Now()) && Leads(old(Now()), steps, Now())
      ensures KeepsProgress(old(database), database)
      ensures recovered ==> Settled(database, op)
      ensures !recovered && op in old(database).operations ==> Attempts(database, op) > Attempts(old(database), op)
    {
      ghost var before := Now();
      var outcome;
      outcome, steps := RecoverOperation(op, k);
      recovered := outcome.Success?;
      if !recovered {
        ghost var failed := Now();
        ghost var more := DeferRecovery(op, RecoveryAttemptFailed);
        ProgressIsTransitive(before.tables, failed.tables, database);
        assert OperationKept(before.tables, failed.tables, op);
        LeadsOn(before, steps, failed, more, Now());
        steps := steps + more;
      }
    }

    /**
     One worker pass: claims due operations, recovers each, and counts the successes. Every claimed operation ends
     settled or with one more attempt on its way to the dead-letter state, and a full count means all are settled.
     */
    method RecoverDueOperations(due: seq<OperationId>, conditions: seq<Conditions>)
      returns (completed: nat, ghost steps: seq<Step>)
      requires Safe(Now()) && |conditions| == |due|
      requires forall i | 0 <= i < |due| :: Claimable(database, due[i])
      modifies this
      ensures Safe(Now())
      ensures Passed(old(Now()), steps, Now(), due, completed)
    {
      ghost var before := Now();
      steps := ClaimOperations(due);
      completed := 0;
      for i := 0 to |due|
        invariant Safe(Now()) && Passed(before, steps, Now(), due[..i], completed)
      {
        assert due[..i + 1] == due[..i] + [due[i]];
        completed, steps := RecoverNext(before, steps, due[..i], completed, due[i], conditions[i]);
      }
      ghost var last := Now();
      assert due[..|due|] == due;
      ghost var more := MoveExhaustedOperations();
      PassedOn(before, steps, last, due, completed, more, Now());
      steps := steps + more;
    }

    method RecoverNext(ghost before: World, ghost steps: seq<Step>, ghost done: seq<OperationId>, completed: nat,
        op: OperationId, k: Conditions)
      returns (total: nat, ghost all: seq<Step>)
      requires Safe(Now()) && Passed(before, steps, Now(), done, completed) && op in before.tables.operations
      modifies this
      ensures Safe(Now()) && Passed(before, all, Now(), done + [op], total)
    {
      ghost var start := Now();
      var recovered;
      ghost var more;
      recovered, more := RecoverOrDefer(op, k);
      assert OperationKept(before.tables, start.tables, op);
      PassedOn(before, steps, start, done, completed, more, Now());
      all := steps + more;
      total := if recovered then completed + 1 else completed;
    }

    method ClaimOperations(due: seq<OperationId>) returns (ghost steps: seq<Step>)
      requires Safe(Now())
      modifies this`database
      ensures Safe(Now()) && Leads(old(Now()), steps, Now())
      ensures KeepsProgress(old(database), database)
      ensures database == Claimed(old(database), due)
    {
      ghost var before := Now();
      steps := [Claim(due)];
      LeadsByStep(before, [], before, steps[0]);
      StepKeepsSafe(before, steps[0]);
      StepKeepsProgress(before, steps[0]);
      database := Claimed(database, due);
    }

    method MoveExhaustedOperations() returns (ghost steps: seq<Step>)
      requires Safe(Now())
      modifies this`database
      ensures Safe(Now()) && Leads(old(Now()), steps, Now())
      ensures KeepsProgress(old(database), database)
      ensures database == ExhaustedMoved(old(database))
    {
      ghost var before := Now();
      steps := [MoveExhausted];
      LeadsByStep(before, [], before, steps[0]);
      StepKeepsSafe(before, steps[0]);
      StepKeepsProgress(before, steps[0]);
      database := ExhaustedMoved(database);
    }
  }
}
