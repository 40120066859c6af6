# Donatinator persistence and cache layer, in Dafny

The Donatinator is an Express application that takes one-off and recurring donations through
Stripe. Apart from its HTTP wiring, its logic is a small persistence and cache layer. This
project models that layer and proves what it promises:

- **Query-result helpers** (`Db`, lib/db.js):
  - `exec`, `getOne`, `getAllArr` and `getAllObj` over a server that answers each query with
    rows or an error;
  - `insObj`, which builds `INSERT INTO t(k1, ..., kn) VALUES($1, ..., $n)` together with its
    values.
- **Settings storage** (`Api`, lib/api.js):
  - `selSettings`, which returns the setting rows keyed by name;
  - `saveSettings`, which runs connect, BEGIN, one upsert per setting, then COMMIT, or ROLLBACK
    after the first error, and releases the client at the end.
- **Stripe webhook reconciliation** (`Hook`, lib/hook.js). The event is stored first. A
  `customer.created` or `customer.updated` event then adds an account for its email unless one
  already exists. This runs on the caller's client, or inside a transaction of its own.
- **Process-wide read-through caches** (`Middleware`, lib/middleware.js, and `StripeMiddleware`,
  lib/middleware/stripe.js):
  - the settings, gifts and plans slots;
  - the decide-once configuration latch;
  - the redirect, basic-auth and session guards.
- **Setting normalisers and validators** (`Settings`, lib/settings.js).
- **Lookup tables** (`Valid`, lib/valid.js).

Shared definitions live in `Common`: `Option`, `Result` and the errors the layer can meet. The
decimal numerals, string joining and character counting that the SQL text is made from live in
`Strings`.

Conventions of the model:

- **Collaborators.** The database, `pool.connect`, `pgtrans`, Stripe and the four API functions
  the code calls but lib/api.js does not define are collaborators. Each is represented by its
  answers, given as a parameter:
  - a `Server` function from handle and query to rows or an error;
  - a script of per-step faults (`SaveReplies`, `HookReplies`);
  - Stripe's `PlansReply`.
- **Tables.** The store is a `Db.Database` object holding three tables:
  - settings, keyed by name;
  - Stripe events, keyed by event id;
  - accounts, keyed by email.

  Inserting under a key already present fails with a unique violation. A transaction is a
  snapshot: COMMIT keeps the work and ROLLBACK restores the snapshot.
- **JavaScript values.**
  - A JavaScript object is a sequence of key/value pairs in `Object.keys` order.
  - A row is a map from column name to text; a missing column reads as `"undefined"`, as a
    property key would.
  - A middleware's way of handing the request on (`next()`, `next(err)`, render, redirect,
    deny, or an escaping exception) is a `Signal`.
- **Specification functions.** Imperative code is proved against pure specification functions:
  - `SaveTrace`, `SaveError` and `Upserted` for `saveSettings`;
  - `ProcessEffect` and `HookEffect` for the hook;
  - `Load` and `Reload` for every cache slot;
  - `CheckConfigStep` for the latch;
  - `Exchanged` for the engine's sort.

  The lemmas state the source's promises about those functions.

## Model

| member | source | states |
|---|---|---|
| Db.Exec | lib/db.js:51-56 | a null `poolOrClient` sends the query to the shared pool, a given one to that handle; the answer is passed on unchanged |
| Db.GetOneAsWritten | lib/db.js:58-84 | as written: a string query throws a ReferenceError for `sql`; an object query always goes to the pool, and an error or the first row (null for none) reaches the callback |
| Db.GetOne | lib/db.js:58-84 | corrected: a string query is sent as `{text}` on `poolOrClient` or the pool; an error passes straight through, no rows gives null, otherwise the first row, however many matched |
| Db.GetAllArr | lib/db.js:87-103 | the rows as the server gave them (`[]` for none), or its error, on `poolOrClient` or the pool |
| Db.GetOneIsFirstOfGetAllArr | lib/db.js:69-101 | `getOne` gives exactly the first element of what `getAllArr` gives for the same query, null when that is empty, and the same error |
| Db.GetOneStringMeansObject | lib/db.js:62-67 | corrected `getOne` treats a string query exactly as the object `{text}` |
| Db.GetOneAsWrittenIgnoresClient | lib/db.js:69 | a concrete query where `getOne` as written answers from the pool although a client with a different answer was passed |
| Db.IndexByKeys | lib/db.js:114-123 | the keys of `getAllObj`'s result are exactly the `row[name]` values of the rows (none for no rows) |
| Db.IndexByLast | lib/db.js:118-121 | each key maps to the last row carrying that key |
| Db.GetAllObj | lib/db.js:106-125 | the `forEach` loop builds the map of rows keyed by `row[name]`; a query error is passed on unchanged |
| Db.Placeholders | lib/db.js:136 | one placeholder per key |
| Db.PlaceholdersNumbered | lib/db.js:136 | the i-th placeholder is `$` followed by the numeral of i+1, and no two placeholders are equal |
| Db.InsertQuery | lib/db.js:129-142 | the query is an object with one value per key |
| Db.InsertTwoColumns | lib/db.js:129-142 | the object `{ a : '1', b : '2' }` into table `t` gives exactly `INSERT INTO t(a, b) VALUES($1, $2)` with the values `['1', '2']` |
| Db.InsertHasOnePlaceholderPerKey | lib/db.js:136 | with no `$` in the table name or keys, the text holds exactly as many `$` as the object has keys |
| Db.InsertValuesFollowKeys | lib/db.js:139-142 | the i-th value is the value of the i-th key, in the column order |
| Db.LookupDistinct | lib/db.js:141 | `obj[key]` of a key of the object is that key's value |
| Db.InsObj | lib/db.js:129-144 | the built query is executed on `poolOrClient` or the pool and its answer passed on |
| Strings.Decimal | lib/db.js:136 | the numeral of a number is a non-empty string of digits, with more than one digit exactly from 10 up |
| Strings.DecimalRoundTrip | lib/db.js:136 | reading back the numeral of a number gives the number |
| Strings.DecimalInjective | lib/db.js:136 | different numbers have different numerals |
| Strings.JoinCount | lib/db.js:136 | joining with a separator free of a character counts that character only in the parts |
| Api.SelSettings | lib/api.js:15-17 | the setting rows keyed by their `name` column, or the query's error, always on the pool |
| Api.Upserts | lib/api.js:46-55 | one upsert per pair, in order, with params `[name, val, val]` |
| Api.FirstFailure | lib/api.js:46-58 | the index of the first failing upsert: every earlier one succeeded, and it failed unless past the end |
| Api.SaveSettings | lib/api.js:25-83 | corrected (the fixed half of the `pool.connect` finding on lib/api.js:32-73): the error and steps are `SaveError`/`SaveTrace`; after COMMIT the settings are the upserted table, after any error they are unchanged, and no other table changes |
| Api.BeginBeforeAnyUpsert | lib/api.js:31-43 | after a successful connect, the first two steps are connect and BEGIN |
| Api.CommitOnlyAfterEveryUpsert | lib/api.js:41-62 | COMMIT is issued only when connect, BEGIN and every upsert succeeded, and every upsert came before it |
| Api.FirstFailingUpsertStops | lib/api.js:46-68 | the first failing upsert is the last one issued; then ROLLBACK and release follow, there is no COMMIT, and its error is the one reported |
| Api.RollbackErrorOnlyLogged | lib/api.js:64-75 | whatever ROLLBACK answers, the reported error and the steps are the same |
| Api.ReleasedExactlyOnce | lib/api.js:64-80 | after a successful connect, release is the last step and appears once on both the success and the failure path; it never happens when connect failed |
| Api.SavedSettingsHold | lib/api.js:46-55 | after the upserts every submitted key holds its submitted value and every other setting is unchanged |
| Api.SaveSettingsAsWritten | lib/api.js:25-83 | as written: a failed connect throws a TypeError at ROLLBACK; otherwise the callback gets nothing or the first error |
| Api.ConnectFailureLosesTheError | lib/api.js:32-73 | a failed connect is the error `saveSettings` should report after connect alone, yet the code as written throws instead |
| Hook.ProcessCustomer | lib/hook.js:55-70 | the tables, error and steps are those of `CustomerEffect`, and the settings are untouched |
| Hook.Process | lib/hook.js:18-39 | the tables, error and steps are those of `ProcessEffect` |
| Hook.ProcessStripeHook | lib/hook.js:14-51 | the tables, error and steps are those of `HookEffect`; ROLLBACK restores the tables as they were |
| Hook.GivenClientMeansNoTransaction | lib/hook.js:42-47 | with a pool or client given, `process` runs directly and no acquire, BEGIN, COMMIT, ROLLBACK or release step happens |
| Hook.NoClientMeansTransaction | lib/hook.js:49-50 | with none, the steps are acquire, BEGIN, `process`'s steps, then COMMIT on success or ROLLBACK on error, then release |
| Hook.EventInsertedFirst | lib/hook.js:22-23 | the event insert is the first step; if it fails, that error is reported with nothing else done |
| Hook.OtherTypesOnlyRecordTheEvent | lib/hook.js:28-37 | any other event type leaves the accounts alone and succeeds exactly when the event was stored |
| Hook.KnownEmailInsertsNoAccount | lib/hook.js:58-65 | an account found for the email means no account insert, no error and no account change |
| Hook.UnknownEmailInsertsOneAccount | lib/hook.js:68 | an unknown email adds exactly the account (email, '', '', customer id) |
| Hook.LookupErrorStillInserts | lib/hook.js:58-68 | a lookup error is only logged: the insert is still attempted, failing on the key when the account exists |
| Hook.UpdatedActsAsCreated | lib/hook.js:72-90 | `customer.updated` has the same error, steps and accounts as `customer.created` |
| Hook.SuccessAddsOneEvent | lib/hook.js:22-37 | on success exactly one new event is stored and the accounts grow by at most one, losing none |
| Hook.OwnTransactionAllOrNothing | lib/hook.js:49-50 | in its own transaction, any error leaves the tables as they were |
| Hook.RedeliveryIsAnError | lib/hook.js:22-23 | the same event delivered twice makes the second delivery fail on the event key with nothing changed |
| Middleware.LoadHitIgnoresStore | lib/middleware.js:152-155 | a filled slot is used as it is, the request gets it, whatever the store would answer |
| Middleware.LoadMissIsReload | lib/middleware.js:157-158 | an empty slot makes load behave exactly like reload |
| Middleware.ReloadReplacesOrKeeps | lib/middleware.js:163-179 | reload replaces the slot and the request's value with what it fetched, or on an error keeps both and calls `next(err)` |
| Middleware.LoadSnapshotIsStable | lib/middleware.js:147-155 | once a load has filled the slot, every later load serves that snapshot |
| Middleware.ReloadSettings | lib/middleware.js:161-181 | the loop builds name-to-value settings from the loaded rows; cache and `res.locals.settings` follow `Reload` |
| Middleware.LoadSettings | lib/middleware.js:150-159 | cache and `res.locals.settings` follow `Load`: the cache when set, a reload otherwise |
| Middleware.SettingsFromNames | lib/middleware.js:169-173 | the reloaded settings have exactly the names of the loaded rows |
| Middleware.CacheMirrorsTable | lib/middleware.js:169-177 | rows that hold the setting table reload into exactly that table |
| Middleware.FreshSettingsAfterSave | lib/middleware.js:161-181 | after saving `{currency: nzd, title: Fresh Water}`, a reload serves both values whatever was cached before |
| Middleware.ReloadGifts | lib/middleware.js:200-215 | cache and `res.locals.gifts` follow `Reload`, storing the gift list as it came |
| Middleware.LoadGifts | lib/middleware.js:188-198 | cache and `res.locals.gifts` follow `Load` |
| Middleware.CheckConfig | lib/middleware.js:105-143 | the latch and the signal follow `CheckConfigStep`: decided by the loop over the four names, then repeated |
| Middleware.ConfigDecidedOnce | lib/middleware.js:114-142 | after the first call every later call gives the same outcome whatever the environment; the first passes iff all four values are truthy |
| Middleware.CheckConfigAsWrittenNeverPasses | lib/middleware.js:126-132 | with the environment module as written, the configuration is never okay |
| Middleware.CheckConfigPassesWhenAllSet | lib/middleware.js:126-142 | with the endpoint secret exported, the configuration is okay iff both Stripe keys, the endpoint secret and the database URL are set |
| Middleware.BasicAuth | lib/middleware.js:47-62 | admits iff credentials exist and both name and password match; otherwise 401 with the Basic challenge and `Access denied` |
| Middleware.RedirectTo | lib/middleware.js:64-74 | 302 to `urls[url]` exactly when that entry is truthy, `next()` otherwise |
| Middleware.AdminRedirectSettles | lib/app.js:64-66 | the installed table sends `/admin` to `/admin/` and lets `/admin/` through |
| Middleware.EnsureUser | lib/middleware.js:76-86 | passes iff a user is signed in, storing it in the locals; otherwise 302 to `/sign-in` |
| Middleware.EnsureNoUser | lib/middleware.js:88-94 | passes iff no user is signed in; otherwise 302 to `/admin/` |
| Middleware.GuardsPartitionSessions | lib/middleware.js:76-94 | for every session exactly one of the two guards lets the request through |
| StripeMiddleware.ComparatorIsInconsistent | lib/middleware/stripe.js:28 | of two plans of different amounts the comparator calls one larger and the other equal, so no ascending order is promised |
| StripeMiddleware.SortPlans | lib/middleware/stripe.js:28 | the in-place sort leaves the list the engine's exchanges make of it |
| StripeMiddleware.ExchangeIsPermutation | lib/middleware/stripe.js:28 | a single exchange keeps the length and the multiset of plans |
| StripeMiddleware.SortedIsPermutation | lib/middleware/stripe.js:28 | whatever the engine does, the sorted list is a permutation of the listed plans |
| StripeMiddleware.ReloadPlans | lib/middleware/stripe.js:21-34 | corrected: cache and `res.locals.plans` follow `Reload` over the sorted list; an error leaves both alone with one `next(err)` |
| StripeMiddleware.LoadPlans | lib/middleware/stripe.js:12-19 | cached plans are used without Stripe; an empty slot delegates to the corrected `reloadPlans` |
| StripeMiddleware.ReloadedPlansArePermutation | lib/middleware/stripe.js:28-31 | after a successful reload the cache and the request hold the same permutation of Stripe's list |
| StripeMiddleware.ReloadPlansAsWritten | lib/middleware/stripe.js:21-34 | as written: a listing gives one `next()`; an error gives `next(err)` and then a second signal |
| StripeMiddleware.ReloadPlansAsWrittenSignalsTwice | lib/middleware/stripe.js:23-32 | an error is followed by a TypeError, or by a second `next()` and a replaced cache, where the corrected reload signals once |
| Settings.LeadingSpace | lib/settings.js:14-16 | the count of leading white space: all of it white space, and the next character (if any) not |
| Settings.TrailingSpace | lib/settings.js:14-16 | the count of trailing white space: all of it white space, and the character before it (if any) not |
| Settings.Trim | lib/settings.js:14-16 | `trim` leaves no white space at either end |
| Settings.TrimIsSlice | lib/settings.js:14-16 | what `trim` keeps is a slice of the input with only white space around it |
| Settings.TrimSurrounded | lib/settings.js:14-16 | a string without edge white space, surrounded by white space, trims back to itself |
| Settings.TrimKeepsTrimmed | lib/settings.js:14-16 | a string without edge white space is its own trim |
| Settings.TrimIdempotent | lib/settings.js:14-16 | trimming twice is trimming once |
| Settings.NormaliseTrim | lib/settings.js:14-16 | `normalise.trim` leaves no white space at either end, is no longer than its input, and a second trim keeps it |
| Settings.TrimIgnoresSurroundingSpace | lib/settings.js:14-16 | white space added around an input does not change its trim |
| Settings.Upper | lib/settings.js:18 | every letter a to z becomes upper case and every other character is kept |
| Settings.NormaliseCurrency | lib/settings.js:17-19 | the upper case of the trimmed input, character by character, without edge white space |
| Settings.NormaliseCurrencyIdempotent | lib/settings.js:17-19 | normalising a currency twice is normalising it once |
| Settings.ValidString | lib/settings.js:24-26 | every input is accepted |
| Settings.ValidInteger | lib/settings.js:27-29 | true iff the trimmed input is digits, or `+`/`-` followed by digits |
| Settings.ValidIntegerIsNumeral | lib/settings.js:27-29 | every signed or unsigned numeral, with white space around it, is accepted |
| Settings.ValidIntegerIsSignedDigits | lib/settings.js:27-29 | an accepted input trims to an optional sign followed by one or more digits |
| Settings.ValidCurrency | lib/settings.js:39-42 | true iff the input is exactly three characters A to Z, untrimmed |
| Settings.ValidCurrencyIsNormal | lib/settings.js:17-42 | normalising a valid code leaves it unchanged |
| Settings.LowerCaseCodeNormalisesToValid | lib/settings.js:17-42 | three lower-case letters with white space around them normalise to a valid upper-case code |
| Settings.Validify | lib/settings.js:22-43 | only the two URL validators have no verdict here |
| Settings.Normalise | lib/settings.js:13-20 | whichever normaliser a setting names, the result has no white space at either end |
| Settings.NormaliseIdempotent | lib/settings.js:13-20 | normalising twice with either normaliser is normalising once |
| Settings.SimpleSettings | lib/settings.js:47-80 | `settings.simple` holds `splashImage` then `currency`; the splash image is an optional secure URL that is trimmed, the currency a required code, defaulting to `usd`, that is upper-cased and checked as three capitals |
| Settings.SimpleDefaultsNormaliseToValid | lib/settings.js:47-80 | every simple setting whose validator gives a verdict accepts its own default once normalised |
| Settings.CurrencyDefaultNeedsNormalising | lib/settings.js:64-74 | the default `usd` fails the currency validator as stored and passes, as `USD`, once normalised |
| Valid.IntervalsMatchInterval | lib/valid.js:24-30 | `intervals` has no repeats and holds exactly the keys of `interval`, each of which maps to true |
| Valid.BoolReadsAnswers | lib/valid.js:31-42 | y, yes, true, t and on read as true; n, no, false, f and off read as false; any other word is absent |
| Valid.BoolKeys | lib/valid.js:31-42 | `bool` has exactly those ten keys, with no word both yes and no |

## Left out

- Logging, `middleware.context`, `middleware.rid` (a timestamp and random id), `setTitle` and
  the `log` middleware: output and randomness, with no decision in them.
- Express, views, sessions, body parsing and routing (lib/app.js), the server bootstrap and
  schema migration (server.js), the Stripe SDK set-up (lib/stripe.js), the browser checkout
  code (public/s/js/index.js), and the Joi schemas of lib/validate.js: wiring, I/O, or
  behaviour that lives in a library whose code is not here.
- `validify.url` and `validify.secureUrl`: they delegate to the `validate.js` library, so
  `Settings.Validify` gives them no verdict.
- Real SQL execution and PostgreSQL's `ON CONFLICT`: an upsert is a map update. `pgtrans`
  internals are reduced to acquire, BEGIN, COMMIT or ROLLBACK, and release.
- `insEventStripe`, `getAccountUsingEmail`, `insAccount` and `selGiftsAll` are called but not
  defined in lib/api.js. They are modelled as table operations that fail with the server's
  error or do what their names say. Nothing rewrites test event ids, and nothing treats a
  duplicate event as success, because no such code exists.
- Concurrency: requests sharing the cache slots are taken one at a time.
- Settings.Upper: upper-cases only the letters a to z, because JavaScript's full Unicode case
  mapping (which can change length) is not modelled.
- Settings.IsSpace: the white space set of ECMAScript's `trim` is written out by hand; no
  Unicode database is consulted.
- JavaScript's ordering of integer-like keys before other keys in `Object.keys` is not
  modelled; the pairs are taken in the order given.
- StripeMiddleware.SortPlans: the engine's choice of exchanges is a parameter, because the
  comparator is inconsistent and the resulting order is up to the engine. Only "a permutation
  of the listed plans" is proved.
- Middleware.LoadGifts: the gift list is always truthy here, because `selGiftsAll` is not
  defined; it is assumed to answer an array, like the other `sel…All` helpers built on
  `getAllArr`.
- In JavaScript the cache slot and `res.locals` hold the same object after a load or reload
  (lib/middleware.js:176-177, 192, 210-211; lib/middleware/stripe.js:28-31). The model copies
  values into both, so later changes made through one of them and seen through the other
  (aliasing) are not captured.
- Middleware.CheckConfig: an unset environment variable is read as the empty string, since
  both are falsy.
- A missing `result.data` on a successful Stripe listing is not modelled; a listing always
  carries its data.

## Findings

| source | as written | input that shows it | evidently intended | confidence | as-written member | corrected member |
|---|---|---|---|---|---|---|
| lib/db.js:63-67 | a string query is replaced by `{ text : sql }`, and `sql` is not defined, so a ReferenceError is thrown | `getOne(null, "SELECT 1", cb)` | the string becomes `{ text : query }` | high (not executed) | Db.GetOneAsWritten | Db.GetOneStringMeansObject |
| lib/db.js:69 | the query is sent on `pool`, ignoring the resolved `poolOrClient` | a client inside a transaction whose answer differs from the pool's (`Db.GetOneAsWrittenIgnoresClient`) | `poolOrClient.query(...)`, as in the other helpers | high (not executed) | Db.GetOneAsWrittenIgnoresClient | Db.GetOne |
| lib/api.js:32-73 | after a failed `pool.connect`, the final callback runs `client.query("ROLLBACK")` with `client` undefined, so a TypeError escapes and the caller's callback is never called | `pool.connect` answering an error | report the connect error to the callback without a rollback | high (not executed) | Api.ConnectFailureLosesTheError | Api.SaveSettings |
| lib/middleware/stripe.js:23 | `if (err) next(err)` does not return, so the callback goes on to `result.data` | Stripe answering an error with a null result (TypeError after `next(err)`), or with a result (`next` called twice) | `if (err) return next(err)` | high (not executed) | StripeMiddleware.ReloadPlansAsWrittenSignalsTwice | StripeMiddleware.ReloadPlans |
| lib/middleware.js:126-129 | `checkConfig` requires `env.stripeEndpointSecret`, which lib/env.js never exports, so the configuration is never okay | any environment, even one with every variable set | lib/env.js exports the webhook endpoint secret | medium (not executed) | Middleware.CheckConfigAsWrittenNeverPasses | Middleware.CheckConfigPassesWhenAllSet |
