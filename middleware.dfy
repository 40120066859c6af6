/**
 * The Express middleware of lib/middleware.js: the process-wide read-through caches of settings
 * and gifts, the decide-once configuration latch, and the small per-request guards.
 *
 * A middleware's effect on the request is a `Signal`: it calls `next()`, calls `next(err)`,
 * renders a view, redirects, denies, or an exception escapes. Requests are taken one at a time.
 */
module Middleware {
  import opened Common
  import opened Db
  import Api

  type Settings = map<string, string>

  /** The signed-in user kept in the session (an object, so any value of it is truthy). */
  type User = map<string, string>

  /** A Stripe plan; `amount` is what the plan list is ordered by. */
  datatype Plan = Plan(id: string, amount: int)

  /** `res.locals` as far as the core writes it. */
  datatype Locals = Locals(settings: Option<Settings>, gifts: Option<seq<Row>>, plans: Option<seq<Plan>>, user: Option<User>)

  class Response {
    var locals: Locals

    constructor ()
      ensures locals == Locals(None, None, None, None)
    {
      locals := Locals(None, None, None, None);
    }
  }

  /** How a middleware hands the request on. */
  datatype Signal =
    | Next
    | NextError(error: Error)
    | Render(view: string)
    | Redirect(status: nat, location: string)
    | Deny(status: nat, authenticate: string, body: string)
    | Threw(exception: Error)

  // ---------------------------------------------------------------------------------------------
  // read-through cache slots

  /** A cache slot, the value stored for this request, and how the request was handed on. */
  datatype CacheStep<T> = CacheStep(slot: Option<T>, local: Option<T>, signal: Signal)

  /** `reload*`: always fetch; on success replace the slot and the request's value, on error keep
      both and pass the error to `next`. */
  function Reload<T>(slot: Option<T>, local: Option<T>, fetched: Result<T>): CacheStep<T> {
    match fetched
    case Err(e) => CacheStep(slot, local, NextError(e))
    case Ok(v) => CacheStep(Some(v), Some(v), Next)
  }

  /** `load*`: a filled slot is used as it is; an empty one is reloaded. */
  function Load<T>(slot: Option<T>, local: Option<T>, fetched: Result<T>): CacheStep<T> {
    if slot.Some? then CacheStep(slot, slot, Next) else Reload(slot, local, fetched)
  }

  /** A filled slot answers without the store: whatever the store would say, the outcome is the
      same, and the request gets the cached value. */
  lemma LoadHitIgnoresStore<T>(slot: Option<T>, local: Option<T>, fetched: Result<T>, other: Result<T>)
    requires slot.Some?
    ensures Load(slot, local, fetched) == Load(slot, local, other) == CacheStep(slot, slot, Next)
  {
  }

  /** An empty slot makes `load` behave exactly like `reload`. */
  lemma LoadMissIsReload<T>(local: Option<T>, fetched: Result<T>)
    ensures Load(None, local, fetched) == Reload(None, local, fetched)
  {
  }

  /** `reload` either replaces the slot with what it fetched and hands that to the request, or
      changes nothing and passes the error on. */
  lemma ReloadReplacesOrKeeps<T>(slot: Option<T>, local: Option<T>, fetched: Result<T>)
    ensures var r := Reload(slot, local, fetched);
      && (fetched.Ok? ==> r.slot == Some(fetched.value) && r.local == r.slot && r.signal == Next)
      && (fetched.Err? ==> r.slot == slot && r.local == local && r.signal == NextError(fetched.error))
  {
  }

  /** Once a load has filled the slot, later loads keep serving that same snapshot until a reload. */
  lemma LoadSnapshotIsStable<T>(slot: Option<T>, local: Option<T>, fetched: Result<T>, later: Result<T>, laterLocal: Option<T>)
    requires Load(slot, local, fetched).signal == Next
    ensures var first := Load(slot, local, fetched);
      Load(first.slot, laterLocal, later) == CacheStep(first.slot, first.slot, Next)
  {
  }

  /** The module-level slots of lib/middleware.js. */
  class Caches {
    var configIsOkay: Option<bool>
    var settings: Option<Settings>
    var gifts: Option<seq<Row>>

    constructor ()
      ensures configIsOkay == None && settings == None && gifts == None
    {
      configIsOkay, settings, gifts := None, None, None;
    }
  }

  // ---------------------------------------------------------------------------------------------
  // settings

  /** `newSettings`: each setting's name mapped to its row's `value`. */
  function SettingValues(current: map<string, Row>): Settings {
    map name | name in current :: Column(current[name], "value")
  }

  /** The settings a successful `selSettings` answer turns into. */
  function SettingsFrom(rows: seq<Row>): Settings {
    SettingValues(IndexBy(rows, "name"))
  }

  /** What `reloadSettings` fetches: the pool's answer to the settings query, as name/value pairs. */
  function FetchSettings(server: Server): Result<Settings> {
    match server(Pool, Sql(Api.SelectSettings))
    case Err(e) => Err(e)
    case Ok(rows) => Ok(SettingsFrom(rows))
  }

  /** `reloadSettings` */
  method ReloadSettings(caches: Caches, res: Response, server: Server) returns (signal: Signal)
    modifies caches, res
    ensures CacheStep(caches.settings, res.locals.settings, signal) ==
      Reload(old(caches.settings), old(res.locals.settings), FetchSettings(server))
    ensures res.locals == old(res.locals).(settings := res.locals.settings)
    ensures caches.configIsOkay == old(caches.configIsOkay) && caches.gifts == old(caches.gifts)
  {
    var current := Api.SelSettings(server);
    if current.Err? {
      return NextError(current.error);
    }
    var newSettings: Settings := map[];
    var pending := current.value.Keys;
    while pending != {}
      invariant pending <= current.value.Keys
      invariant newSettings.Keys == current.value.Keys - pending
      invariant forall name :: name in newSettings ==> newSettings[name] == Column(current.value[name], "value")
      decreases pending
    {
      var name :| name in pending;
      newSettings := newSettings[name := Column(current.value[name], "value")];
      pending := pending - {name};
    }
    assert newSettings == SettingValues(current.value);
    caches.settings := Some(newSettings);
    res.locals := res.locals.(settings := Some(newSettings));
    signal := Next;
  }

  /** `loadSettings` */
  method LoadSettings(caches: Caches, res: Response, server: Server) returns (signal: Signal)
    modifies caches, res
    ensures CacheStep(caches.settings, res.locals.settings, signal) ==
      Load(old(caches.settings), old(res.locals.settings), FetchSettings(server))
    ensures res.locals == old(res.locals).(settings := res.locals.settings)
    ensures caches.configIsOkay == old(caches.configIsOkay) && caches.gifts == old(caches.gifts)
  {
    if caches.settings.Some? {
      res.locals := res.locals.(settings := caches.settings);
      return Next;
    }
    signal := ReloadSettings(caches, res, server);
  }

  /** The reloaded settings have exactly the names the rows carry. */
  lemma SettingsFromNames(rows: seq<Row>)
    ensures SettingsFrom(rows).Keys == set i | 0 <= i < |rows| :: Column(rows[i], "name")
  {
    IndexByKeys(rows, "name");
  }

  /** The rows the setting table answers with: one row per setting, carrying its name and value. */
  ghost predicate RowsOfTable(rows: seq<Row>, table: Settings) {
    && (forall i :: 0 <= i < |rows| ==>
         "name" in rows[i] && "value" in rows[i] &&
         rows[i]["name"] in table && table[rows[i]["name"]] == rows[i]["value"])
    && (forall name :: name in table ==> exists i :: 0 <= i < |rows| && Column(rows[i], "name") == name)
  }

  lemma {:induction false} LastRowNamed(rows: seq<Row>, name: string, i: nat) returns (j: nat)
    requires i < |rows| && Column(rows[i], "name") == name
    ensures i <= j < |rows| && Column(rows[j], "name") == name
    ensures forall k :: j < k < |rows| ==> Column(rows[k], "name") != name
    decreases |rows| - i
  {
    if exists k :: i < k < |rows| && Column(rows[k], "name") == name {
      var k :| i < k < |rows| && Column(rows[k], "name") == name;
      j := LastRowNamed(rows, name, k);
    } else {
      j := i;
    }
  }

  /** Reloading from rows that hold the setting table makes the cache equal to that table. */
  lemma CacheMirrorsTable(rows: seq<Row>, table: Settings)
    requires RowsOfTable(rows, table)
    ensures SettingsFrom(rows) == table
  {
    SettingsFromNames(rows);
    forall name | name in table
      ensures SettingsFrom(rows)[name] == table[name]
    {
      var i :| 0 <= i < |rows| && Column(rows[i], "name") == name;
      var j := LastRowNamed(rows, name, i);
      IndexByLast(rows, "name", j);
    }
  }

  /** Saving `{currency: "nzd", title: "Fresh Water"}` and then reloading from the saved table
      serves both new values, whatever an earlier read had cached (say `currency: "usd"`). */
  lemma FreshSettingsAfterSave(table: Settings, stale: Settings, rows: seq<Row>)
    requires RowsOfTable(rows, Api.Upserted(table, [("currency", "nzd"), ("title", "Fresh Water")]))
    ensures var r := Reload(Some(stale), Some(stale), Ok(SettingsFrom(rows)));
      && r.slot.Some? && "currency" in r.slot.value && r.slot.value["currency"] == "nzd"
      && "title" in r.slot.value && r.slot.value["title"] == "Fresh Water"
      && r.local == r.slot
  {
    var saved := [("currency", "nzd"), ("title", "Fresh Water")];
    assert saved[..1][..0] == [];
    assert Api.Upserted(table, saved[..1]) == table["currency" := "nzd"];
    assert Api.Upserted(table, saved) == table["currency" := "nzd"]["title" := "Fresh Water"];
    CacheMirrorsTable(rows, Api.Upserted(table, saved));
  }

  // ---------------------------------------------------------------------------------------------
  // gifts

  /** `reloadGifts`: `fetched` is what `selGiftsAll` answers; the list is stored as it came. */
  method ReloadGifts(caches: Caches, res: Response, fetched: Result<seq<Row>>) returns (signal: Signal)
    modifies caches, res
    ensures CacheStep(caches.gifts, res.locals.gifts, signal) == Reload(old(caches.gifts), old(res.locals.gifts), fetched)
    ensures res.locals == old(res.locals).(gifts := res.locals.gifts)
    ensures caches.configIsOkay == old(caches.configIsOkay) && caches.settings == old(caches.settings)
  {
    if fetched.Err? {
      return NextError(fetched.error);
    }
    caches.gifts := Some(fetched.value);
    res.locals := res.locals.(gifts := Some(fetched.value));
    signal := Next;
  }

  /** `loadGifts` */
  method LoadGifts(caches: Caches, res: Response, fetched: Result<seq<Row>>) returns (signal: Signal)
    modifies caches, res
    ensures CacheStep(caches.gifts, res.locals.gifts, signal) == Load(old(caches.gifts), old(res.locals.gifts), fetched)
    ensures res.locals == old(res.locals).(gifts := res.locals.gifts)
    ensures caches.configIsOkay == old(caches.configIsOkay) && caches.settings == old(caches.settings)
  {
    if caches.gifts.Some? {
      res.locals := res.locals.(gifts := caches.gifts);
      return Next;
    }
    signal := ReloadGifts(caches, res, fetched);
  }

  // ---------------------------------------------------------------------------------------------
  // configuration latch

  const ConfigNames: seq<string> := ["stripePublicKey", "stripeSecretKey", "stripeEndpointSecret", "databaseUrl"]

  /** `!!env[name]`: set, and not the empty string. */
  predicate Truthy(env: map<string, string>, name: string) {
    name in env && env[name] != ""
  }

  /** The configuration is okay when each of the four named values is truthy. */
  predicate ConfigOkay(env: map<string, string>) {
    forall i :: 0 <= i < |ConfigNames| ==> Truthy(env, ConfigNames[i])
  }

  /** `checkConfig` as a step on the latch: decide once, then repeat the decision. */
  function CheckConfigStep(latch: Option<bool>, env: map<string, string>): (Option<bool>, Signal) {
    var decided := if latch.Some? then latch.value else ConfigOkay(env);
    (Some(decided), if decided then Next else Render("setup"))
  }

  /** `checkConfig` */
  method CheckConfig(caches: Caches, env: map<string, string>) returns (signal: Signal)
    modifies caches
    ensures (caches.configIsOkay, signal) == CheckConfigStep(old(caches.configIsOkay), env)
    ensures caches.settings == old(caches.settings) && caches.gifts == old(caches.gifts)
  {
    if caches.configIsOkay.Some? {
      if caches.configIsOkay.value {
        return Next;
      }
      return Render("setup");
    }
    var i := 0;
    while i < |ConfigNames|
      invariant 0 <= i <= |ConfigNames|
      invariant caches.configIsOkay == if exists j :: 0 <= j < i && !Truthy(env, ConfigNames[j]) then Some(false) else None
      invariant caches.settings == old(caches.settings) && caches.gifts == old(caches.gifts)
    {
      if !Truthy(env, ConfigNames[i]) {
        caches.configIsOkay := Some(false);
      }
      i := i + 1;
    }
    if caches.configIsOkay == Some(false) {
      return Render("setup");
    }
    caches.configIsOkay := Some(true);
    signal := Next;
  }

  /** The decision is taken on the first call; every later call, whatever the environment then
      says, repeats it without looking again. */
  lemma ConfigDecidedOnce(latch: Option<bool>, env: map<string, string>, later: map<string, string>)
    ensures CheckConfigStep(CheckConfigStep(latch, env).0, later) == CheckConfigStep(latch, env)
    ensures latch.None? ==> (CheckConfigStep(latch, env).1 == Next <==> ConfigOkay(env))
  {
  }

  /** The names lib/env.js exports; an unset variable reads as "" (both are falsy). It has no
      `stripeEndpointSecret`. */
  function EnvExportsAsWritten(nodeEnv: string, apex: string, port: string, sessionKey: string, databaseUrl: string,
                               stripePublicKey: string, stripeSecretKey: string, username: string, password: string): map<string, string> {
    map["nodeEnv" := nodeEnv, "apex" := apex, "port" := port, "sessionKey" := sessionKey,
        "databaseUrl" := databaseUrl, "stripePublicKey" := stripePublicKey, "stripeSecretKey" := stripeSecretKey,
        "username" := username, "password" := password]
  }

  /** With the environment module as written, `checkConfig` can never pass: the endpoint secret
      it asks for is never exported, whatever the process environment holds. */
  lemma CheckConfigAsWrittenNeverPasses(nodeEnv: string, apex: string, port: string, sessionKey: string, databaseUrl: string,
                                        stripePublicKey: string, stripeSecretKey: string, username: string, password: string)
    ensures !ConfigOkay(EnvExportsAsWritten(nodeEnv, apex, port, sessionKey, databaseUrl, stripePublicKey, stripeSecretKey, username, password))
  {
    var env := EnvExportsAsWritten(nodeEnv, apex, port, sessionKey, databaseUrl, stripePublicKey, stripeSecretKey, username, password);
    assert ConfigNames[2] !in env;
  }

  /** The exports `checkConfig` evidently expects: the same plus the webhook endpoint secret. */
  function EnvExports(nodeEnv: string, apex: string, port: string, sessionKey: string, databaseUrl: string,
                      stripePublicKey: string, stripeSecretKey: string, stripeEndpointSecret: string,
                      username: string, password: string): map<string, string> {
    EnvExportsAsWritten(nodeEnv, apex, port, sessionKey, databaseUrl, stripePublicKey, stripeSecretKey, username, password)
      ["stripeEndpointSecret" := stripeEndpointSecret]
  }

  /** With the endpoint secret exported, the configuration is okay exactly when the two Stripe
      keys, the endpoint secret and the database URL are all set. */
  lemma CheckConfigPassesWhenAllSet(nodeEnv: string, apex: string, port: string, sessionKey: string, databaseUrl: string,
                                    stripePublicKey: string, stripeSecretKey: string, stripeEndpointSecret: string,
                                    username: string, password: string)
    ensures ConfigOkay(EnvExports(nodeEnv, apex, port, sessionKey, databaseUrl, stripePublicKey, stripeSecretKey,
                                  stripeEndpointSecret, username, password))
      <==> stripePublicKey != "" && stripeSecretKey != "" && stripeEndpointSecret != "" && databaseUrl != ""
  {
    var env := EnvExports(nodeEnv, apex, port, sessionKey, databaseUrl, stripePublicKey, stripeSecretKey,
                          stripeEndpointSecret, username, password);
    assert env[ConfigNames[0]] == stripePublicKey && env[ConfigNames[1]] == stripeSecretKey;
    assert env[ConfigNames[2]] == stripeEndpointSecret && env[ConfigNames[3]] == databaseUrl;
  }

  // ---------------------------------------------------------------------------------------------
  // request guards

  /** What the `basic-auth` package parses from the Authorization header. */
  datatype Credentials = Credentials(name: string, pass: string)

  /** `basicAuth(username, pass)`: admit exactly the matching name and password; anyone else gets
      a 401 with a Basic challenge. */
  function BasicAuth(username: string, pass: string, credentials: Option<Credentials>): (s: Signal)
    ensures s == Next <==> credentials.Some? && credentials.value.name == username && credentials.value.pass == pass
    ensures s != Next ==> s == Deny(401, "Basic realm=\"example\"", "Access denied")
  {
    if credentials.None? || credentials.value.name != username || credentials.value.pass != pass then
      Deny(401, "Basic realm=\"example\"", "Access denied")
    else Next
  }

  /** `redirect(urls)`: a 302 to `urls[url]` exactly when that entry is truthy, `next()` otherwise. */
  function RedirectTo(urls: map<string, string>, url: string): (s: Signal)
    ensures s != Next <==> url in urls && urls[url] != ""
    ensures s != Next ==> s == Redirect(302, urls[url])
  {
    if url in urls && urls[url] != "" then Redirect(302, urls[url]) else Next
  }

  /** The table the application installs sends `/admin` to `/admin/` once, and lets `/admin/` pass. */
  lemma AdminRedirectSettles()
    ensures var urls := map["/admin" := "/admin/"];
      RedirectTo(urls, "/admin") == Redirect(302, "/admin/") && RedirectTo(urls, "/admin/") == Next
  {
  }

  /** `ensureUser`: a signed-in user is stored in the locals and passed on; anyone else is sent to
      the sign-in page with the locals untouched. */
  function EnsureUser(user: Option<User>, locals: Locals): (r: (Signal, Locals))
    ensures r.0 == Next <==> user.Some?
    ensures user.Some? ==> r.1 == locals.(user := user)
    ensures user.None? ==> r == (Redirect(302, "/sign-in"), locals)
  {
    if user.None? then (Redirect(302, "/sign-in"), locals) else (Next, locals.(user := user))
  }

  /** `ensureNoUser`: a signed-in user is sent to the admin home; anyone else passes. */
  function EnsureNoUser(user: Option<User>): (s: Signal)
    ensures s == Next <==> user.None?
    ensures user.Some? ==> s == Redirect(302, "/admin/")
  {
    if user.Some? then Redirect(302, "/admin/") else Next
  }

  /** For every session exactly one of `ensureUser` and `ensureNoUser` lets the request through. */
  lemma GuardsPartitionSessions(user: Option<User>, locals: Locals)
    ensures (EnsureUser(user, locals).0 == Next) != (EnsureNoUser(user) == Next)
  {
  }
}
