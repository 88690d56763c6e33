/**
 Chain operations over every run: what attempts count, what is claimed or given up,
   and that provider events are about one
 thing.
 */
module RwaOperations {
  import opened Results
  import opened Decimals
  import opened RwaSaga
  import opened RwaWorld
  import opened RwaSafety
  import Ledger

  // ---- Attempts ----

  const FRESH := Operation(Pending, "", 0, NoFailure, false)

  /** Waiting for another attempt. */
  predicate IsOpen(o: Operation) {
    o.status.Pending? || o.status.OutcomeUnknown? || o.status.OperationFailed?
  }

  /** A claim is on an operation that is waiting with attempts left; a dead letter has used them all. */
  predicate OperationSound(o: Operation) {
    && (o.claimed ==> (o.status.Pending? || o.status.OutcomeUnknown?) && o.attempts < 8)
    && (o.status.DeadLetter? ==> o.attempts >= 8)
  }

  ghost predicate OperationsSound(t: Tables) {
    forall op | op in t.operations :: OperationSound(t.operations[op])
  }

  /** The operation a step may finish or put off. */
  function Attempted(s: Step): OperationId {
    match s
    case FinishRedemption(m, _, _) => RedemptionOp(m)
    case Defer(op, _) => op
    case FinishMint(m, _) => MintOp(m)
    case RecoverFailedMint(m) => MintOp(m)
    case _ => MintOp(0)
  }

  predicate Attempts(s: Step) {
    s.FinishMint? || s.FinishRedemption? || s.RecoverFailedMint? || s.Defer?
  }

  /** Operations are the same but for one, which had one more attempt and lost its claim. */
  ghost predicate OneMoreAttempt(t: Tables, u: Tables, op: OperationId) {
    && op in t.operations && u.operations.Keys == t.operations.Keys
    && (forall x | x in t.operations && x != op :: u.operations[x] == t.operations[x])
    && u.operations[op].attempts == t.operations[op].attempts + 1 && !u.operations[op].claimed
    && !u.operations[op].status.DeadLetter?
  }

  lemma MintAttempt(t: Tables, m: MintId, response: Response)
    ensures var u := MintFinished(t, m, response).tables;
            u == t || OneMoreAttempt(t, u, MintOp(m))
  {
  }

  lemma BurnAttempt(t: Tables, m: MintId, response: Response, executed: Option<bool>)
    ensures var u := RedemptionFinished(t, m, response, executed).tables;
            u == t || OneMoreAttempt(t, u, RedemptionOp(m))
  {
  }

  lemma UndoAttempt(t: Tables, m: MintId)
    ensures var u := FailedMintRecovered(t, m).tables; u == t || OneMoreAttempt(t, u, MintOp(m))
  {
  }

  /** Every finishing, undoing or deferring transaction that changes anything is one more attempt of its operation. */
  lemma StepAttempts(w: World, s: Step)
    requires Attempts(s)
    ensures var u := After(w, s).tables; u == w.tables || OneMoreAttempt(w.tables, u, Attempted(s))
  {
    match s
    case FinishMint(m, response) => MintAttempt(w.tables, m, response);
    case FinishRedemption(m, response, answered) =>
      BurnAttempt(w.tables, m, response, if answered then Some(RedemptionOp(m) in w.chain.executed) else None);
    case RecoverFailedMint(m) => UndoAttempt(w.tables, m);
    case Defer(_, _) =>
  }

  /** No other step attempts anything: new operations start open, unclaimed and unattempted. */
  lemma OtherSteps(w: World, s: Step)
    requires !Attempts(s)
    ensures var t, u := w.tables, After(w, s).tables;
            && (forall op | op in t.operations && !s.BeginMint? && !s.BeginRedemption? ::
                 op in u.operations && u.operations[op].attempts == t.operations[op].attempts)
            && (s.BeginMint? ==> u == t || u.operations == t.operations[MintOp(|t.mints|) := FRESH])
            && (s.BeginRedemption? ==>
                 u == t || u.operations == t.operations[RedemptionOp(s.redeemCommand.mint) := FRESH])
  {
  }

  lemma StepKeepsOperations(w: World, s: Step)
    requires OperationsSound(w.tables)
    ensures OperationsSound(After(w, s).tables)
  {
    if Attempts(s) {
      StepAttempts(w, s);
    } else {
      OtherSteps(w, s);
    }
  }

  /** In every reachable state only operations with attempts left are claimed, and only spent ones are given up. */
  lemma {:induction false} OperationsAreSound(steps: seq<Step>)
    ensures OperationsSound(Run(START, steps).tables)
  {
    if steps != [] {
      OperationsAreSound(steps[..|steps| - 1]);
      StepKeepsOperations(Run(START, steps[..|steps| - 1]), steps[|steps| - 1]);
    }
  }

  /** A sweep gives up exactly the operations still open after eight attempts, and every other stays as it was. */
  lemma SweepGivesUpExactly(w: World, op: OperationId)
    requires op in w.tables.operations
    ensures var o, u := w.tables.operations[op], After(w, MoveExhausted).tables.operations[op];
            if IsOpen(o) && o.attempts >= 8 then u == o.(status := DeadLetter, claimed := false) else u == o
  {
  }

  /** A claim takes exactly the asked operations that are due, unclaimed and have attempts left. */
  lemma ClaimTakesExactly(w: World, ops: seq<OperationId>, op: OperationId)
    requires op in w.tables.operations
    ensures var o, u := w.tables.operations[op], After(w, Claim(ops)).tables.operations[op];
            if op in ops && (o.status.Pending? || o.status.OutcomeUnknown?) && o.attempts < 8 && !o.claimed
              then u == o.(claimed := true) else u == o
  {
  }

  /** Putting an operation off leaves it waiting, with the reason. */
  lemma DeferLeavesWaiting(w: World, op: OperationId, reason: FailureCode)
    requires op in w.tables.operations
    ensures var o, u := w.tables.operations[op], After(w, Defer(op, reason)).tables.operations[op];
            u.status == OutcomeUnknown && u.error == reason && u.txHash == o.txHash && u.attempts == o.attempts + 1
  {
  }

  // ---- Provider events ----

  /** Recorded events stay what they are. */
  ghost predicate KeepsEvents(t: Tables, u: Tables) {
    forall id | id in t.events :: id in u.events && u.events[id] == t.events[id]
  }

  lemma MintKeepsEvents(t: Tables, m: MintId, response: Response)
    ensures KeepsEvents(t, MintFinished(t, m, response).tables)
  {
  }

  lemma BurnKeepsEvents(t: Tables, m: MintId, response: Response, executed: Option<bool>)
    ensures KeepsEvents(t, RedemptionFinished(t, m, response, executed).tables)
  {
  }

  lemma StepKeepsEvents(w: World, s: Step)
    ensures KeepsEvents(w.tables, After(w, s).tables)
  {
    match s
    case FinishMint(m, response) => MintKeepsEvents(w.tables, m, response);
    case FinishRedemption(m, response, answered) =>
      BurnKeepsEvents(w.tables, m, response, if answered then Some(RedemptionOp(m) in w.chain.executed) else None);
    case _ =>
  }

  lemma {:induction false} RunKeepsEvents(w: World, steps: seq<Step>)
    ensures KeepsEvents(w.tables, Run(w, steps).tables)
  {
    if steps != [] {
      RunKeepsEvents(w, steps[..|steps| - 1]);
      StepKeepsEvents(Run(w, steps[..|steps| - 1]), steps[|steps| - 1]);
    }
  }

  /**
   The provider event that confirmed a mint is recorded, and at any later time the same identity with another payload,
     or
   for another mint, confirms nothing.
   */
  lemma MintEventIsItsOwn(w: World, m: MintId, response: Response, steps: seq<Step>, n: MintId, other: Response)
    requires MintFinished(w.tables, m, response).result == Success(Minted)
             && MintFinished(w.tables, m, response).tables != w.tables
    requires response.eventId != NoEvent && other.eventId == response.eventId && other.Positive()
    requires n != m || other.payload != response.payload
    ensures var later := Run(w.(tables := MintFinished(w.tables, m, response).tables), steps).tables;
            && response.eventId in later.events
            && later.events[response.eventId] == EventRow(MintConfirmedEvent, response.payload, MintOp(m))
            && MintFinished(later, n, other).tables == later
  {
    var first := w.(tables := MintFinished(w.tables, m, response).tables);
    MintRecords(w.tables, m, response);
    RunKeepsEvents(first, steps);
    RefusedByEvent(Run(first, steps).tables, m, response, n, other);
  }

  lemma MintRecords(t: Tables, m: MintId, response: Response)
    requires MintFinished(t, m, response).result == Success(Minted) && MintFinished(t, m, response).tables != t
    requires response.eventId != NoEvent
    ensures var u := MintFinished(t, m, response).tables;
            response.eventId in u.events
            && u.events[response.eventId] == EventRow(MintConfirmedEvent, response.payload, MintOp(m))
  {
  }

  lemma RefusedByEvent(t: Tables, m: MintId, response: Response, n: MintId, other: Response)
    requires response.eventId in t.events
             && t.events[response.eventId] == EventRow(MintConfirmedEvent, response.payload, MintOp(m))
    requires other.eventId == response.eventId != NoEvent && other.Positive()
    requires n != m || other.payload != response.payload
    ensures MintFinished(t, n, other).tables == t
  {
  }

  /** The same for the event of a burn, which also says whether the redemption was forced. */
  lemma BurnEventIsItsOwn(w: World, m: MintId, response: Response, steps: seq<Step>, n: MintId, other: Response)
    requires RedemptionFinished(w.tables, m, response, Some(true)).result == Success(Completed)
             && RedemptionFinished(w.tables, m, response, Some(true)).tables != w.tables
    requires response.eventId != NoEvent && other.eventId == response.eventId && other.Positive()
    requires n != m || other.payload != response.payload
    ensures var later := Run(w.(tables := RedemptionFinished(w.tables, m, response, Some(true)).tables), steps).tables;
            && response.eventId in later.events && m in w.tables.redemptions
            && later.events[response.eventId] == EventRow(
                 if w.tables.redemptions[m].forced then ForcedRedemptionConfirmedEvent else BurnConfirmedEvent,
                 response.payload, RedemptionOp(m))
            && RedemptionFinished(later, n, other, Some(true)).tables == later
  {
    var first := w.(tables := RedemptionFinished(w.tables, m, response, Some(true)).tables);
    BurnRecords(w.tables, m, response);
    RunKeepsEvents(first, steps);
    BurnRefusedByEvent(Run(first, steps).tables, response.eventId, n, other);
  }

  lemma BurnRecords(t: Tables, m: MintId, response: Response)
    requires RedemptionFinished(t, m, response, Some(true)).result == Success(Completed)
             && RedemptionFinished(t, m, response, Some(true)).tables != t
    requires response.eventId != NoEvent
    ensures var u := RedemptionFinished(t, m, response, Some(true)).tables;
            && m in t.redemptions && response.eventId in u.events
            && u.events[response.eventId] == EventRow(
                 if t.redemptions[m].forced then ForcedRedemptionConfirmedEvent else BurnConfirmedEvent,
                 response.payload, RedemptionOp(m))
  {
  }

  lemma BurnRefusedByEvent(t: Tables, id: EventId, n: MintId, other: Response)
    requires id in t.events && other.eventId == id != NoEvent && other.Positive()
    requires t.events[id].operation != RedemptionOp(n) || t.events[id].payload != other.payload
    ensures RedemptionFinished(t, n, other, Some(true)).tables == t
  {
  }

  // ---- When a burn completes ----

  /**
   A redemption under way completes if and only if the provider's answer is positive, the chain confirms inside the
   transaction that the burn was executed, the asset is enabled, and the event is not about something else.
   */
  lemma BurnCompletesExactly(w: World, m: MintId, response: Response, answered: bool)
    requires Safe(w) && m in w.tables.redemptions && !w.tables.redemptions[m].status.Completed?
    ensures var t, u := w.tables, After(w, FinishRedemption(m, response, answered)).tables;
            && m in u.redemptions
            && (u.redemptions[m].status.Completed? <==>
                 && response.Positive() && answered && Burned(w, m) && t.redemptions[m].owner.asset in t.enabled
                 && !EventConflicts(t, response.eventId, EventRow(
                      if t.redemptions[m].forced then ForcedRedemptionConfirmedEvent else BurnConfirmedEvent,
                      response.payload, RedemptionOp(m))))
  {
    var t := w.tables;
    var executed := if answered then Some(RedemptionOp(m) in w.chain.executed) else None;
    RedemptionFinishedEffect(t, m, response, executed);
    assert RowSound(w, m) && RowAgrees(t, m);
    if response.Positive() && answered && Burned(w, m) && t.redemptions[m].owner.asset in t.enabled
      && !EventConflicts(t, response.eventId, EventRow(
           if t.redemptions[m].forced then ForcedRedemptionConfirmedEvent else BurnConfirmedEvent,
           response.payload, RedemptionOp(m))) {
      ExecutedBurnCompletes(w, m, response);
      Completes(t, m, response);
    }
  }

  lemma Completes(t: Tables, m: MintId, response: Response)
    requires m in t.redemptions && RedemptionFinished(t, m, response, Some(true)).result == Success(Completed)
    ensures var u := RedemptionFinished(t, m, response, Some(true)).tables;
            m in u.redemptions && u.redemptions[m].status.Completed?
  {
  }
}
