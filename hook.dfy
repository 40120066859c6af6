/**
 * Stripe webhook reconciliation (lib/hook.js): the event is inserted first, then a
 * `customer.created` or `customer.updated` event inserts an account for its email unless one is
 * found. The steps run on the caller's client as they are, or inside a transaction of their own.
 *
 * `insEventStripe`, `getAccountUsingEmail` and `insAccount` are called but not defined in
 * lib/api.js; here each is an operation on the tables that either fails with the error the
 * server reports or does what its name says. The event and account tables are keyed by event id
 * and by email, so an insert under a key already present fails with a unique violation.
 */
module Hook {
  import opened Common
  import opened Db

  const CustomerCreated := "customer.created"
  const CustomerUpdated := "customer.updated"

  /** The event and account tables as one client sees them. */
  datatype Tables = Tables(events: map<string, StripeEvent>, accounts: map<string, Account>)

  /** What the hook does to the pool, the transaction and the tables, in order. */
  datatype Step =
    | Acquire | Begin | Commit | Rollback | Release
    | InsertEvent(id: string)
    | LookupAccount(email: string)
    | InsertAccount(account: Account)

  /** The error each collaborator answers with, or none for success. `connect`, `begin` and
      `commit` are consulted only when the hook opens its own transaction. */
  datatype HookReplies = HookReplies(
    connect: Option<Error>,
    begin: Option<Error>,
    insertEvent: Option<Error>,
    lookup: Option<Error>,
    insertAccount: Option<Error>,
    commit: Option<Error>)

  /** `api.insEventStripe(client, event, cb)` */
  function InsEventStripe(t: Tables, event: StripeEvent, fault: Option<Error>): Result<Tables> {
    if fault.Some? then Err(fault.value)
    else if event.id in t.events then Err(UniqueViolation("event", event.id))
    else Ok(t.(events := t.events[event.id := event]))
  }

  /** `api.getAccountUsingEmail(client, email, cb)`: `(err, account)`. */
  function GetAccountUsingEmail(t: Tables, email: string, fault: Option<Error>): (Option<Error>, Option<Account>) {
    if fault.Some? then (fault, None)
    else if email in t.accounts then (None, Some(t.accounts[email]))
    else (None, None)
  }

  /** `api.insAccount(client, email, title, password, customerId, cb)` */
  function InsAccount(t: Tables, account: Account, fault: Option<Error>): Result<Tables> {
    if fault.Some? then Err(fault.value)
    else if account.email in t.accounts then Err(UniqueViolation("account", account.email))
    else Ok(t.(accounts := t.accounts[account.email := account]))
  }

  /** The account a customer event creates: its email, empty title and password, and the
      Stripe customer id. */
  function NewAccount(event: StripeEvent): Account {
    Account(event.objectEmail, "", "", event.objectId)
  }

  /** The tables afterwards, the error given to the callback, and the steps taken. */
  datatype Effect = Effect(tables: Tables, err: Option<Error>, trace: seq<Step>)

  /** `processCustomerCreated` and `processCustomerUpdated`, whose bodies are the same. */
  function CustomerEffect(t: Tables, event: StripeEvent, replies: HookReplies): Effect {
    var email := event.objectEmail;
    var (_, found) := GetAccountUsingEmail(t, email, replies.lookup);  // the error is only logged
    if found.Some? then Effect(t, None, [LookupAccount(email)])
    else
      var trace := [LookupAccount(email), InsertAccount(NewAccount(event))];
      match InsAccount(t, NewAccount(event), replies.insertAccount)
      case Err(e) => Effect(t, Some(e), trace)
      case Ok(t') => Effect(t', None, trace)
  }

  predicate IsCustomerEvent(event: StripeEvent) {
    event.eventType == CustomerCreated || event.eventType == CustomerUpdated
  }

  /** `process(client, done)`: insert the event, then dispatch on its type. */
  function ProcessEffect(t: Tables, event: StripeEvent, replies: HookReplies): Effect {
    match InsEventStripe(t, event, replies.insertEvent)
    case Err(e) => Effect(t, Some(e), [InsertEvent(event.id)])
    case Ok(t1) =>
      if IsCustomerEvent(event) then
        var c := CustomerEffect(t1, event, replies);
        Effect(c.tables, c.err, [InsertEvent(event.id)] + c.trace)
      else Effect(t1, None, [InsertEvent(event.id)])
  }

  /** `processStripeHook`: on a given pool or client, `process` runs as it is; with none, it runs
      inside a transaction that commits its work or discards it. */
  function HookEffect(t: Tables, poolOrClientOrNull: Option<Handle>, event: StripeEvent, replies: HookReplies): Effect {
    if poolOrClientOrNull.Some? then ProcessEffect(t, event, replies)
    else if replies.connect.Some? then Effect(t, replies.connect, [Acquire])
    else if replies.begin.Some? then Effect(t, replies.begin, [Acquire, Begin, Rollback, Release])
    else
      var p := ProcessEffect(t, event, replies);
      if p.err.Some? then Effect(t, p.err, [Acquire, Begin] + p.trace + [Rollback, Release])
      else if replies.commit.Some? then Effect(t, replies.commit, [Acquire, Begin] + p.trace + [Commit, Release])
      else Effect(p.tables, None, [Acquire, Begin] + p.trace + [Commit, Release])
  }

  /** The customer branch on the database: look the email up, insert an account if none came back. */
  method ProcessCustomer(db: Database, event: StripeEvent, replies: HookReplies) returns (err: Option<Error>, trace: seq<Step>)
    modifies db
    ensures Effect(Tables(db.events, db.accounts), err, trace) == CustomerEffect(old(Tables(db.events, db.accounts)), event, replies)
    ensures db.settings == old(db.settings)
  {
    var email := event.objectEmail;
    var lookup := GetAccountUsingEmail(Tables(db.events, db.accounts), email, replies.lookup);
    trace := [LookupAccount(email)];
    if lookup.1.Some? {
      return None, trace;
    }
    var account := NewAccount(event);
    trace := trace + [InsertAccount(account)];
    var inserted := InsAccount(Tables(db.events, db.accounts), account, replies.insertAccount);
    if inserted.Err? {
      return Some(inserted.error), trace;
    }
    db.accounts := inserted.value.accounts;
    err := None;
  }

  /** `process(client, done)` on the database. */
  method Process(db: Database, event: StripeEvent, replies: HookReplies) returns (err: Option<Error>, trace: seq<Step>)
    modifies db
    ensures Effect(Tables(db.events, db.accounts), err, trace) == ProcessEffect(old(Tables(db.events, db.accounts)), event, replies)
    ensures db.settings == old(db.settings)
  {
    var inserted := InsEventStripe(Tables(db.events, db.accounts), event, replies.insertEvent);
    trace := [InsertEvent(event.id)];
    if inserted.Err? {
      return Some(inserted.error), trace;
    }
    db.events := inserted.value.events;
    if IsCustomerEvent(event) {
      var steps;
      err, steps := ProcessCustomer(db, event, replies);
      trace := trace + steps;
      return;
    }
    err := None;  // not processing this event type
  }

  /** `processStripeHook(poolOrClientOrNull, event, callback)` on the database. */
  method ProcessStripeHook(db: Database, poolOrClientOrNull: Option<Handle>, event: StripeEvent, replies: HookReplies)
    returns (err: Option<Error>, trace: seq<Step>)
    modifies db
    ensures Effect(Tables(db.events, db.accounts), err, trace) ==
      HookEffect(old(Tables(db.events, db.accounts)), poolOrClientOrNull, event, replies)
    ensures db.settings == old(db.settings)
  {
    if poolOrClientOrNull.Some? {
      err, trace := Process(db, event, replies);
      return;
    }
    // pgtrans(db.pool, process, callback)
    trace := [Acquire];
    if replies.connect.Some? {
      return replies.connect, trace;
    }
    trace := trace + [Begin];
    if replies.begin.Some? {
      return replies.begin, trace + [Rollback, Release];
    }
    var events, accounts := db.events, db.accounts;
    var steps;
    err, steps := Process(db, event, replies);
    trace := trace + steps;
    if err.Some? {
      db.events, db.accounts := events, accounts;  // ROLLBACK discards the work
      trace := trace + [Rollback, Release];
      return;
    }
    trace := trace + [Commit];
    if replies.commit.Some? {
      db.events, db.accounts := events, accounts;
      err := replies.commit;
    }
    trace := trace + [Release];
  }

  predicate IsTransactionStep(s: Step) {
    s.Acquire? || s.Begin? || s.Commit? || s.Rollback? || s.Release?
  }

  /** Given a pool or client, the hook runs `process` directly: no BEGIN, COMMIT or ROLLBACK. */
  lemma GivenClientMeansNoTransaction(t: Tables, h: Handle, event: StripeEvent, replies: HookReplies)
    ensures HookEffect(t, Some(h), event, replies) == ProcessEffect(t, event, replies)
    ensures forall i :: 0 <= i < |ProcessEffect(t, event, replies).trace| ==>
      !IsTransactionStep(ProcessEffect(t, event, replies).trace[i])
  {
  }

  /** Given none, the hook wraps `process` in BEGIN .. COMMIT, or ROLLBACK when it fails, and
      releases the client last. */
  lemma NoClientMeansTransaction(t: Tables, event: StripeEvent, replies: HookReplies)
    requires replies.connect.None? && replies.begin.None?
    ensures var e := HookEffect(t, None, event, replies);
      var p := ProcessEffect(t, event, replies);
      && e.trace[..2] == [Acquire, Begin]
      && e.trace[2..|e.trace| - 2] == p.trace
      && e.trace[|e.trace| - 2] == (if p.err.None? then Commit else Rollback)
      && e.trace[|e.trace| - 1] == Release
  {
  }

  /** The event is inserted before anything else; when that insert fails the callback gets its
      error and no account is looked up or inserted. */
  lemma EventInsertedFirst(t: Tables, event: StripeEvent, replies: HookReplies)
    ensures ProcessEffect(t, event, replies).trace[0] == InsertEvent(event.id)
    ensures InsEventStripe(t, event, replies.insertEvent).Err? ==>
      ProcessEffect(t, event, replies) == Effect(t, Some(InsEventStripe(t, event, replies.insertEvent).error), [InsertEvent(event.id)])
  {
  }

  /** Any other event type changes only the event table, and completes without error once the
      event is stored. */
  lemma OtherTypesOnlyRecordTheEvent(t: Tables, event: StripeEvent, replies: HookReplies)
    requires !IsCustomerEvent(event)
    ensures var p := ProcessEffect(t, event, replies);
      && p.tables.accounts == t.accounts
      && (p.err.None? <==> InsEventStripe(t, event, replies.insertEvent).Ok?)
      && (p.err.None? ==> p.tables.events == t.events[event.id := event])
  {
  }

  /** A customer event whose email already has an account inserts none. */
  lemma KnownEmailInsertsNoAccount(t: Tables, event: StripeEvent, replies: HookReplies)
    requires IsCustomerEvent(event) && InsEventStripe(t, event, replies.insertEvent).Ok?
    requires replies.lookup.None? && event.objectEmail in t.accounts
    ensures var p := ProcessEffect(t, event, replies);
      && p.err.None?
      && p.tables.accounts == t.accounts
      && p.trace == [InsertEvent(event.id), LookupAccount(event.objectEmail)]
  {
  }

  /** A customer event for an unknown email inserts exactly one account:
      (email, '', '', customer id). */
  lemma UnknownEmailInsertsOneAccount(t: Tables, event: StripeEvent, replies: HookReplies)
    requires IsCustomerEvent(event) && InsEventStripe(t, event, replies.insertEvent).Ok?
    requires event.objectEmail !in t.accounts && replies.insertAccount.None?
    ensures var p := ProcessEffect(t, event, replies);
      && p.err.None?
      && p.tables.accounts == t.accounts[event.objectEmail := Account(event.objectEmail, "", "", event.objectId)]
      && |p.tables.accounts| == |t.accounts| + 1
  {
  }

  /** A failed lookup is only logged: no account came back, so the insert is attempted anyway,
      and for an email already stored it then fails on the unique key. */
  lemma LookupErrorStillInserts(t: Tables, event: StripeEvent, replies: HookReplies)
    requires IsCustomerEvent(event) && InsEventStripe(t, event, replies.insertEvent).Ok?
    requires replies.lookup.Some?
    ensures InsertAccount(NewAccount(event)) in ProcessEffect(t, event, replies).trace
    ensures event.objectEmail in t.accounts && replies.insertAccount.None? ==>
      ProcessEffect(t, event, replies).err == Some(UniqueViolation("account", event.objectEmail))
  {
    var trace := ProcessEffect(t, event, replies).trace;
    assert trace[2] == InsertAccount(NewAccount(event));
  }

  /** `customer.updated` does exactly what `customer.created` does; only the stored event
      differs, by its type. */
  lemma UpdatedActsAsCreated(t: Tables, event: StripeEvent, replies: HookReplies)
    ensures var created := ProcessEffect(t, event.(eventType := CustomerCreated), replies);
      var updated := ProcessEffect(t, event.(eventType := CustomerUpdated), replies);
      && updated.err == created.err
      && updated.trace == created.trace
      && updated.tables.accounts == created.tables.accounts
      && updated.tables.events.Keys == created.tables.events.Keys
      && (forall id :: id in created.tables.events && id != event.id ==> updated.tables.events[id] == created.tables.events[id])
  {
  }

  /** On success exactly one event is added and at most one account. */
  lemma SuccessAddsOneEvent(t: Tables, poolOrClientOrNull: Option<Handle>, event: StripeEvent, replies: HookReplies)
    requires HookEffect(t, poolOrClientOrNull, event, replies).err.None?
    ensures var e := HookEffect(t, poolOrClientOrNull, event, replies);
      && event.id !in t.events
      && e.tables.events == t.events[event.id := event]
      && |e.tables.events| == |t.events| + 1
      && t.accounts.Keys <= e.tables.accounts.Keys
      && |e.tables.accounts| <= |t.accounts| + 1
  {
    var p := ProcessEffect(t, event, replies);
    assert p.err.None?;
    var t1 := t.(events := t.events[event.id := event]);
    if IsCustomerEvent(event) && event.objectEmail !in t.accounts {
      assert p.tables.accounts == t.accounts[event.objectEmail := NewAccount(event)] || p.tables.accounts == t.accounts;
    }
  }

  /** In its own transaction the hook is all or nothing: on any error the tables are as before. */
  lemma OwnTransactionAllOrNothing(t: Tables, event: StripeEvent, replies: HookReplies)
    requires HookEffect(t, None, event, replies).err.Some?
    ensures HookEffect(t, None, event, replies).tables == t
  {
  }

  /** Delivering the same event twice in a fresh transaction each time: the second delivery fails
      on the event's key and changes nothing; nothing here turns that into success. */
  lemma RedeliveryIsAnError(t: Tables, event: StripeEvent)
    ensures var ok := HookReplies(None, None, None, None, None, None);
      var first := HookEffect(t, None, event, ok);
      event.id !in t.events && first.err.None? ==>
        var second := HookEffect(first.tables, None, event, ok);
        second.err == Some(UniqueViolation("event", event.id)) && second.tables == first.tables
  {
  }
}
