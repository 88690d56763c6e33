/**
 The immutable ledger: postings guarded by request and provider-event idempotency, and reversals that
 append the opposite entries. Balances are sums over the entries of the whole history.
 */
module Ledger {
  import opened Results
  import opened Decimals
  import opened Entries

  type TransactionId = nat
  type Instant = int   // 0 is the zero time

  datatype ActorKind = User | Admin | System | Provider | Other(name: string)

  datatype Actor = Actor(kind: ActorKind, id: string) {
    predicate Valid() {
      !kind.Other? && id != ""
    }
  }

  datatype ProviderEvent = ProviderEvent(provider: string, externalId: string, payload: seq<bv8>) {
    predicate Valid() {
      IsProvider(provider) && 0 < |externalId| <= 255 && payload != []
    }

    function Identity(): (string, string) {
      (provider, externalId)
    }
  }

  datatype Command =
    | Posting(scope: string, key: string, kind: string, policyVersion: string, effectiveAt: Instant, actor: Actor,
        entries: seq<Entry>, event: Option<ProviderEvent>)
    | Reversal(scope: string, key: string, original: TransactionId, reason: string, policyVersion: string,
        effectiveAt: Instant, actor: Actor)
  {
    /** What the request hash covers: everything but the idempotency key. The hash is taken to be injective. */
    function Fingerprint(): Command {
      this.(scope := "", key := "")
    }

    predicate ValidMetadata() {
      && IsScope(scope) && IsKey(key)
      && IsCode(if Posting? then kind else reason) && policyVersion != "" && effectiveAt != 0
      && actor.Valid()
    }
  }

  predicate IsLower(c: char) {
    'a' <= c <= 'z'
  }

  predicate IsNumeral(c: char) {
    '0' <= c <= '9'
  }

  predicate IsPunctuation(c: char) {
    c == '.' || c == '_' || c == ':' || c == '-'
  }

  predicate IsCode(s: string) {
    3 <= |s| <= 64 && IsUpper(s[0]) && forall i | 0 <= i < |s| :: IsUpper(s[i]) || IsNumeral(s[i]) || s[i] == '_'
  }

  predicate IsName(s: string) {
    |s| > 0 && IsLower(s[0]) && forall i | 0 <= i < |s| :: IsLower(s[i]) || IsNumeral(s[i]) || IsPunctuation(s[i])
  }

  predicate IsIdentifier(s: string) {
    && |s| > 0 && !IsPunctuation(s[0])
    && forall i | 0 <= i < |s| :: IsUpper(s[i]) || IsLower(s[i]) || IsNumeral(s[i]) || IsPunctuation(s[i])
  }

  predicate IsScope(s: string) {
    3 <= |s| <= 128 && IsName(s)
  }

  predicate IsProvider(s: string) {
    2 <= |s| <= 64 && IsName(s)
  }

  predicate IsKey(s: string) {
    8 <= |s| <= 256 && IsIdentifier(s)
  }

  /** The column check on policy versions, stricter than the service's own. */
  predicate IsStorablePolicy(s: string) {
    1 <= |s| <= 128 && IsIdentifier(s)
  }

  datatype Receipt = Receipt(id: TransactionId, replayed: bool)

  datatype Transaction = Transaction(kind: string, policyVersion: string, effectiveAt: Instant, entries: seq<Entry>)

  datatype RequestRow = RequestRow(fingerprint: Command, id: TransactionId)
  datatype EventRow = EventRow(payload: seq<bv8>, id: TransactionId)

  /** The ledger's tables. A transaction's identifier is its position; an account's is too. */
  datatype Tables = Tables(
    accounts: seq<Currency>,
    transactions: seq<Transaction>,
    requests: map<(string, string), RequestRow>,
    events: map<(string, string), EventRow>,
    reversals: map<TransactionId, TransactionId>)
  {
    /** The foreign key of an entry: its account exists in that currency. */
    predicate Knows(e: Entry) {
      e.account < |accounts| && accounts[e.account] == e.currency
    }

    predicate Accepts(policyVersion: string, entries: seq<Entry>) {
      IsStorablePolicy(policyVersion) && forall i | 0 <= i < |entries| :: Knows(entries[i])
    }

    function History(): seq<Entry> {
      AllEntries(transactions)
    }
  }

  function AllEntries(ts: seq<Transaction>): seq<Entry> {
    if ts == [] then [] else AllEntries(ts[..|ts| - 1]) + ts[|ts| - 1].entries
  }

  // ---- The two operations, as functions of the whole state ----

  type Outcome = (Tables, Result<Receipt, LedgerError>)

  /** An error leaves every table as it was. */
  function Refused(t: Tables, e: LedgerError): Outcome {
    (t, Failure(e))
  }

  /** A replay leaves every table as it was. */
  function Replay(t: Tables, id: TransactionId): Outcome {
    (t, Success(Receipt(id, true)))
  }

  /** The transaction a command asks for. */
  function Asked(t: Tables, c: Command): Transaction
    requires c.Reversal? ==> c.original < |t.transactions|
  {
    if c.Posting? then Transaction(c.kind, c.policyVersion, c.effectiveAt, c.entries)
    else Transaction("REVERSAL", c.policyVersion, c.effectiveAt, Reversed(t.transactions[c.original].entries))
  }

  function Recorded(t: Tables, c: Command): Outcome
    requires c.Reversal? ==> c.original < |t.transactions|
  {
    var id := |t.transactions|;
    (t.(
     transactions := t.transactions + [Asked(t, c)],
     requests := t.requests[(c.scope, c.key) := RequestRow(c.Fingerprint(), id)],
     events := if c.Posting? && c.event.Some?
       then t.events[c.event.value.Identity() := EventRow(c.event.value.payload, id)] else t.events,
     reversals := if c.Reversal? then t.reversals[c.original := id] else t.reversals),
     Success(Receipt(id, false)))
  }

  ghost function Posted(t: Tables, c: Command): Outcome
    requires c.Posting?
  {
    if !c.ValidMetadata() then Refused(t, InvalidCommand)
    else if Check(c.entries).Failure? then Refused(t, Check(c.entries).error)
    else if c.event.Some? && !c.event.value.Valid() then Refused(t, InvalidCommand)
    else if (c.scope, c.key) in t.requests then
      var row := t.requests[(c.scope, c.key)];
      if row.fingerprint == c.Fingerprint() then Replay(t, row.id) else Refused(t, IdempotencyConflict)
    else if c.event.Some? && c.event.value.Identity() in t.events then
      var row := t.events[c.event.value.Identity()];
      if row.payload == c.event.value.payload then Replay(t, row.id) else Refused(t, ProviderEventConflict)
    else if !t.Accepts(c.policyVersion, c.entries) then Refused(t, ConstraintViolation)
    else Recorded(t, c)
  }

  ghost function ReversedBy(t: Tables, c: Command): Outcome
    requires c.Reversal?
  {
    if !c.ValidMetadata() then Refused(t, InvalidCommand)
    else if (c.scope, c.key) in t.requests then
      var row := t.requests[(c.scope, c.key)];
      if row.fingerprint == c.Fingerprint() then Replay(t, row.id) else Refused(t, IdempotencyConflict)
    else if c.original >= |t.transactions| then Refused(t, UnknownTransaction)
    else if c.original in t.reversals then Refused(t, AlreadyReversed)
    else if !t.Accepts(c.policyVersion, Reversed(t.transactions[c.original].entries))
      then Refused(t, ConstraintViolation)
    else Recorded(t, c)
  }

  ghost function Executed(t: Tables, c: Command): Outcome {
    if c.Posting? then Posted(t, c) else ReversedBy(t, c)
  }

  // ---- The service ----

  /** Each method is one database transaction: work happens on `tx`, and only a commit installs it. */
  class Service {
    var database: Tables

    constructor ()
      ensures database == Tables([], [], map[], map[], map[])
    {
      database := Tables([], [], map[], map[], map[]);
    }

    /** The derived debit balance, if it fits the numeric column of the balances view. */
    function ReadBalance(k: Key): Result<Decimal, LedgerError>
      reads this
    {
      if !ValidCurrency(k.currency) then Failure(InvalidCommand)
      else if FromCoefficient(Balance(database.History(), k)).Failure? then Failure(ConstraintViolation)
      else Success(Balance(database.History(), k))
    }

    method OpenAccount(currency: Currency) returns (r: Result<AccountId, LedgerError>)
      modifies this
      ensures r.Success? <==> ValidCurrency(currency)
      ensures r.Success? ==> r.value == |old(database).accounts|
      ensures database == if r.Success? then old(database).(accounts := old(database).accounts + [currency])
              else old(database)
    {
      if !ValidCurrency(currency) {
        return Failure(InvalidCommand);
      }
      var id := |database.accounts|;
      database := database.(accounts := database.accounts + [currency]);
      return Success(id);
    }

    /** Claims the idempotency key: None when newly claimed, the earlier transaction on a matching retry. */
    method AcquireRequest(tx: Tables, c: Command, id: TransactionId)
      returns (acquired: Tables, r: Result<Option<TransactionId>, LedgerError>)
      ensures (c.scope, c.key) !in tx.requests ==>
                acquired == tx.(requests := tx.requests[(c.scope, c.key) := RequestRow(c.Fingerprint(), id)])
                  && r == Success(None)
      ensures (c.scope, c.key) in tx.requests ==>
                && acquired == tx
                && var row := tx.requests[(c.scope, c.key)];
                   r == if row.fingerprint == c.Fingerprint() then Success(Some(row.id))
                     else Failure(IdempotencyConflict)
    {
      var identity := (c.scope, c.key);
      if identity !in tx.requests {
        return tx.(requests := tx.requests[identity := RequestRow(c.Fingerprint(), id)]), Success(None);
      }
      var existing := tx.requests[identity];
      if existing.fingerprint != c.Fingerprint() {
        return tx, Failure(IdempotencyConflict);
      }
      return tx, Success(Some(existing.id));
    }

    method AcquireProviderEvent(tx: Tables, event: ProviderEvent, id: TransactionId)
      returns (acquired: Tables, r: Result<Option<TransactionId>, LedgerError>)
      ensures event.Identity() !in tx.events ==>
                acquired == tx.(events := tx.events[event.Identity() := EventRow(event.payload, id)])
                  && r == Success(None)
      ensures event.Identity() in tx.events ==>
                && acquired == tx
                && var row := tx.events[event.Identity()];
                   r == if row.payload == event.payload then Success(Some(row.id)) else Failure(ProviderEventConflict)
    {
      var identity := event.Identity();
      if identity !in tx.events {
        return tx.(events := tx.events[identity := EventRow(event.payload, id)]), Success(None);
      }
      var existing := tx.events[identity];
      if existing.payload != event.payload {
        return tx, Failure(ProviderEventConflict);
      }
      return tx, Success(Some(existing.id));
    }

    /** Inserts a transaction row and then its entries one by one, in order, as given or with opposite directions. */
    method Insert(tx: Tables, header: Transaction, entries: seq<Entry>, reverse: bool)
        returns (r: Result<Tables, LedgerError>)
      requires header.entries == []
      ensures r.Success? <==> tx.Accepts(header.policyVersion, entries)
      ensures r.Success? ==>
                var all := if reverse then Reversed(entries) else entries;
                r.value == tx.(transactions := tx.transactions + [header.(entries := all)])
      ensures r.Failure? ==> r.error == ConstraintViolation
    {
      if !IsStorablePolicy(header.policyVersion) {
        return Failure(ConstraintViolation);
      }
      var inserted := header;
      var i := 0;
      while i < |entries|
        invariant 0 <= i <= |entries|
        invariant forall j | 0 <= j < i :: tx.Knows(entries[j])
        invariant inserted == header.(entries := if reverse then Reversed(entries)[..i] else entries[..i])
      {
        var entry := entries[i];
        if !tx.Knows(entry) {
          return Failure(ConstraintViolation);
        }
        var row := if reverse then entry.(direction := Opposite(entry.direction)) else entry;
        inserted := inserted.(entries := inserted.entries + [row]);
        i := i + 1;
      }
      assert entries[..i] == entries && Reversed(entries)[..i] == Reversed(entries);
      return Success(tx.(transactions := tx.transactions + [inserted]));
    }

    method Post(c: Command) returns (r: Result<Receipt, LedgerError>)
      requires c.Posting?
      modifies this
      ensures (database, r) == Posted(old(database), c)
    {
      if !c.ValidMetadata() {
        return Failure(InvalidCommand);
      }
      var checked := ValidatePosting(c.entries);
      if checked.Failure? {
        return Failure(checked.error);
      }
      if c.event.Some? && !c.event.value.Valid() {
        return Failure(InvalidCommand);
      }
      var tx := database;
      var id := |tx.transactions|;
      var existing;
      tx, existing := AcquireRequest(tx, c, id);
      if existing.Failure? {
        return Failure(existing.error);
      }
      if existing.value.Some? {
        return Success(Receipt(existing.value.value, true));
      }
      if c.event.Some? {
        tx, existing := AcquireProviderEvent(tx, c.event.value, id);
        if existing.Failure? {
          return Failure(existing.error);
        }
        if existing.value.Some? {
          return Success(Receipt(existing.value.value, true));
        }
      }
      tx :- Insert(tx, Transaction(c.kind, c.policyVersion, c.effectiveAt, []), c.entries, false);
      database := tx;
      return Success(Receipt(id, false));
    }

    method Reverse(c: Command) returns (r: Result<Receipt, LedgerError>)
      requires c.Reversal?
      modifies this
      ensures (database, r) == ReversedBy(old(database), c)
    {
      if !c.ValidMetadata() {
        return Failure(InvalidCommand);
      }
      var tx := database;
      var id := |tx.transactions|;
      var existing;
      tx, existing := AcquireRequest(tx, c, id);
      if existing.Failure? {
        return Failure(existing.error);
      }
      if existing.value.Some? {
        return Success(Receipt(existing.value.value, true));
      }
      if c.original >= |tx.transactions| {
        return Failure(UnknownTransaction);
      }
      var original := tx.transactions[c.original];
      if c.original in tx.reversals {
        return Failure(AlreadyReversed);
      }
      tx := tx.(reversals := tx.reversals[c.original := id]);
      ReversedPlaces(tx, original.entries);
      tx :- Insert(tx, Transaction("REVERSAL", c.policyVersion, c.effectiveAt, []), original.entries, true);
      database := tx;
      return Success(Receipt(id, false));
    }
  }

  lemma ReversedPlaces(t: Tables, es: seq<Entry>)
    ensures (forall i | 0 <= i < |es| :: t.Knows(es[i])) <==> (forall i | 0 <= i < |es| :: t.Knows(Reversed(es)[i]))
  {
    forall i | 0 <= i < |es| ensures t.Knows(es[i]) <==> t.Knows(Reversed(es)[i]) {
    }
  }
}
