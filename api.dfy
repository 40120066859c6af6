/**
 * The settings half of lib/api.js: reading every setting keyed by name, and the bulk save that
 * upserts name/value pairs one by one inside a single transaction on a client of its own.
 */
module Api {
  import opened Common
  import opened Db

  const SelectSettings := "SELECT id, name, value FROM setting"
  const UpsertSetting := "INSERT INTO setting(name, value) VALUES($1, $2) ON CONFLICT(name) DO UPDATE SET value = $3"

  /** `selSettings`: the setting rows, read on the pool and keyed by their `name` column. */
  method SelSettings(server: Server) returns (r: Result<map<string, Row>>)
    ensures server(Pool, Sql(SelectSettings)).Err? ==> r == Err(server(Pool, Sql(SelectSettings)).error)
    ensures server(Pool, Sql(SelectSettings)).Ok? ==>
      r == Ok(IndexBy(server(Pool, Sql(SelectSettings)).value, "name"))
  {
    r := GetAllObj(None, Sql(SelectSettings), "name", server);
  }

  /** What `saveSettings` does to the pool and its client, in order. */
  datatype Step = Connect | Issue(query: Query) | Release

  const BeginStep := Issue(Sql("BEGIN"))
  const CommitStep := Issue(Sql("COMMIT"))
  const RollbackStep := Issue(Sql("ROLLBACK"))

  /** The upsert issued for one name/value pair: params `[name, val, val]`. */
  function UpsertStep(pair: (string, string)): Step {
    Issue(Object(UpsertSetting, [pair.0, pair.1, pair.1]))
  }

  function Upserts(settings: Obj): (steps: seq<Step>)
    ensures |steps| == |settings|
  {
    seq(|settings|, i requires 0 <= i < |settings| => UpsertStep(settings[i]))
  }

  /** How the pool and the server answer each step: an error, or none for success. A missing
      entry in `upserts` means that upsert succeeds. */
  datatype SaveReplies = SaveReplies(
    connect: Option<Error>,
    begin: Option<Error>,
    upserts: seq<Option<Error>>,
    commit: Option<Error>,
    rollback: Option<Error>)

  function UpsertReply(replies: SaveReplies, i: nat): Option<Error> {
    if i < |replies.upserts| then replies.upserts[i] else None
  }

  /** The index of the first upsert at or after `i` that fails, or `|settings|` if none does. */
  function FirstFailure(settings: Obj, replies: SaveReplies, i: nat): (k: nat)
    requires i <= |settings|
    ensures i <= k <= |settings|
    ensures forall j :: i <= j < k ==> UpsertReply(replies, j).None?
    ensures k < |settings| ==> UpsertReply(replies, k).Some?
    decreases |settings| - i
  {
    if i == |settings| || UpsertReply(replies, i).Some? then i else FirstFailure(settings, replies, i + 1)
  }

  /** The settings table after the pairs are upserted in order: a later pair overrides. */
  function Upserted(table: map<string, string>, settings: Obj): map<string, string>
    decreases |settings|
  {
    if |settings| == 0 then table
    else
      var last := settings[|settings| - 1];
      Upserted(table, settings[..|settings| - 1])[last.0 := last.1]
  }

  /** The steps `saveSettings` takes: connect; BEGIN; one upsert per pair until one fails;
      COMMIT when all succeeded; ROLLBACK after any failure; then the client is released. */
  function SaveTrace(settings: Obj, replies: SaveReplies): seq<Step> {
    if replies.connect.Some? then [Connect]
    else if replies.begin.Some? then [Connect, BeginStep, RollbackStep, Release]
    else
      var k := FirstFailure(settings, replies, 0);
      if k < |settings| then [Connect, BeginStep] + Upserts(settings[..k + 1]) + [RollbackStep, Release]
      else
        [Connect, BeginStep] + Upserts(settings) + [CommitStep]
        + (if replies.commit.Some? then [RollbackStep] else []) + [Release]
  }

  /** The error handed to the callback: that of the first step that failed. */
  function SaveError(settings: Obj, replies: SaveReplies): Option<Error> {
    if replies.connect.Some? then replies.connect
    else if replies.begin.Some? then replies.begin
    else
      var k := FirstFailure(settings, replies, 0);
      if k < |settings| then UpsertReply(replies, k) else replies.commit
  }

  /** `saveSettings` (with a failed connect reported to the callback; see `SaveSettingsAsWritten`).
      The transaction is a snapshot: what the client wrote becomes the table only at COMMIT. */
  method SaveSettings(db: Database, settings: Obj, replies: SaveReplies) returns (err: Option<Error>, trace: seq<Step>)
    modifies db
    ensures err == SaveError(settings, replies)
    ensures trace == SaveTrace(settings, replies)
    ensures db.settings == if err.None? then Upserted(old(db.settings), settings) else old(db.settings)
    ensures db.events == old(db.events) && db.accounts == old(db.accounts)
  {
    trace := [Connect];
    if replies.connect.Some? {
      // nothing was acquired: there is nothing to roll back and nothing to release
      return replies.connect, trace;
    }
    var pending := db.settings;  // the table as the client sees it inside its transaction
    trace := trace + [BeginStep];
    var failure := replies.begin;
    if failure.None? {
      var i := 0;
      while i < |settings| && failure.None?
        invariant 0 <= i <= |settings|
        invariant trace == [Connect, BeginStep] + Upserts(settings[..i])
        invariant forall j :: 0 <= j < i - 1 ==> UpsertReply(replies, j).None?
        invariant failure.None? ==> (i == 0 || UpsertReply(replies, i - 1).None?)
        invariant failure.None? ==> pending == Upserted(db.settings, settings[..i])
        invariant failure.Some? ==> i > 0 && failure == UpsertReply(replies, i - 1)
      {
        var name, val := settings[i].0, settings[i].1;
        assert settings[..i + 1][..i] == settings[..i];
        assert Upserts(settings[..i + 1]) == Upserts(settings[..i]) + [UpsertStep(settings[i])];
        trace := trace + [Issue(Object(UpsertSetting, [name, val, val]))];
        failure := UpsertReply(replies, i);
        if failure.None? {
          pending := pending[name := val];
        }
        i := i + 1;
      }
      if failure.None? {
        assert settings[..i] == settings;
        trace := trace + [CommitStep];
        failure := replies.commit;
        if failure.None? {
          db.settings := pending;
        }
      }
    }
    if failure.Some? {
      trace := trace + [RollbackStep];  // a failed ROLLBACK is only logged
    }
    trace := trace + [Release];  // done()
    err := failure;
  }

  /** BEGIN is the first statement on the acquired client, ahead of every upsert. */
  lemma BeginBeforeAnyUpsert(settings: Obj, replies: SaveReplies)
    requires replies.connect.None?
    ensures |SaveTrace(settings, replies)| >= 2
    ensures SaveTrace(settings, replies)[..2] == [Connect, BeginStep]
  {
  }

  /** COMMIT is issued only once every pair has been upserted, in order, and each succeeded. */
  lemma CommitOnlyAfterEveryUpsert(settings: Obj, replies: SaveReplies)
    requires CommitStep in SaveTrace(settings, replies)
    ensures replies.connect.None? && replies.begin.None?
    ensures forall i :: 0 <= i < |settings| ==> UpsertReply(replies, i).None?
    ensures SaveTrace(settings, replies)[2..2 + |settings|] == Upserts(settings)
  {
    if replies.connect.Some? || replies.begin.Some? {
      assert false;
    }
    var k := FirstFailure(settings, replies, 0);
    if k < |settings| {
      assert false;
    }
  }

  /** The first failing upsert is the last one issued: ROLLBACK follows at once, COMMIT never
      comes, and the callback gets that upsert's error. */
  lemma FirstFailingUpsertStops(settings: Obj, replies: SaveReplies, k: nat)
    requires replies.connect.None? && replies.begin.None?
    requires k < |settings| && UpsertReply(replies, k).Some?
    requires forall j :: 0 <= j < k ==> UpsertReply(replies, j).None?
    ensures SaveTrace(settings, replies) == [Connect, BeginStep] + Upserts(settings[..k + 1]) + [RollbackStep, Release]
    ensures CommitStep !in SaveTrace(settings, replies)
    ensures SaveError(settings, replies) == UpsertReply(replies, k)
  {
    var f := FirstFailure(settings, replies, 0);
    assert f == k;
    var trace := SaveTrace(settings, replies);
    assert forall i :: 0 <= i < |trace| ==> trace[i] != CommitStep;
  }

  /** Whatever ROLLBACK answers, the callback receives the original error and the steps are
      the same: a failed rollback is only logged. */
  lemma RollbackErrorOnlyLogged(settings: Obj, replies: SaveReplies, rollback: Option<Error>)
    ensures SaveError(settings, replies.(rollback := rollback)) == SaveError(settings, replies)
    ensures SaveTrace(settings, replies.(rollback := rollback)) == SaveTrace(settings, replies)
  {
    var other := replies.(rollback := rollback);
    assert forall i :: UpsertReply(other, i) == UpsertReply(replies, i);
    SameFailure(settings, replies, other, 0);
  }

  lemma {:induction false} SameFailure(settings: Obj, a: SaveReplies, b: SaveReplies, i: nat)
    requires i <= |settings|
    requires forall j :: UpsertReply(a, j) == UpsertReply(b, j)
    ensures FirstFailure(settings, a, i) == FirstFailure(settings, b, i)
    decreases |settings| - i
  {
    if i < |settings| {
      SameFailure(settings, a, b, i + 1);
    }
  }

  /** Once connected, the client is released exactly once, as the very last step, on the success
      path and on every failure path alike; a failed connect releases nothing. */
  lemma ReleasedExactlyOnce(settings: Obj, replies: SaveReplies)
    ensures replies.connect.Some? ==> Release !in SaveTrace(settings, replies)
    ensures replies.connect.None? ==>
      var trace := SaveTrace(settings, replies);
      |trace| > 0 && trace[|trace| - 1] == Release && Release !in trace[..|trace| - 1]
  {
    if replies.connect.None? && replies.begin.None? {
      var trace := SaveTrace(settings, replies);
      var k := FirstFailure(settings, replies, 0);
      var ups := if k < |settings| then Upserts(settings[..k + 1]) else Upserts(settings);
      assert Release !in ups;
      var body := trace[..|trace| - 1];
      if k < |settings| {
        assert body == [Connect, BeginStep] + ups + [RollbackStep];
      } else {
        assert body == [Connect, BeginStep] + ups + [CommitStep] + (if replies.commit.Some? then [RollbackStep] else []);
      }
    }
  }

  /** After a successful save every submitted name holds its submitted value, and every other
      setting is as it was. */
  lemma {:induction false} SavedSettingsHold(table: map<string, string>, settings: Obj)
    requires DistinctKeys(settings)
    ensures forall i :: 0 <= i < |settings| ==>
      settings[i].0 in Upserted(table, settings) && Upserted(table, settings)[settings[i].0] == settings[i].1
    ensures forall name :: (forall i :: 0 <= i < |settings| ==> settings[i].0 != name) ==>
      (name in Upserted(table, settings) <==> name in table) &&
      (name in table ==> Upserted(table, settings)[name] == table[name])
    decreases |settings|
  {
    if |settings| > 0 {
      var init := settings[..|settings| - 1];
      assert forall i :: 0 <= i < |init| ==> init[i] == settings[i];
      SavedSettingsHold(table, init);
    }
  }

  /** `saveSettings` as written: on a failed `pool.connect` the final callback still runs
      `client.query("ROLLBACK")` with `client` undefined, so a TypeError escapes and neither
      `done()` nor the caller's callback is ever invoked. */
  function SaveSettingsAsWritten(settings: Obj, replies: SaveReplies): (r: Delivery<()>)
    ensures replies.connect.Some? ==> r.Threw? && r.exception.TypeError?
    ensures replies.connect.None? && SaveError(settings, replies).None? ==> r == Callback(Ok(()))
    ensures replies.connect.None? && SaveError(settings, replies).Some? ==>
      r == Callback(Err(SaveError(settings, replies).value))
  {
    if replies.connect.Some? then Threw(TypeError("Cannot read property 'query' of undefined"))
    else
      match SaveError(settings, replies)
      case None => Callback(Ok(()))
      case Some(e) => Callback(Err(e))
  }

  /** A pool that cannot connect: as written the caller never hears back, while the corrected
      save reports the connect error and touches nothing. */
  lemma ConnectFailureLosesTheError(settings: Obj, replies: SaveReplies)
    requires replies.connect.Some?
    ensures SaveSettingsAsWritten(settings, replies).Threw?
    ensures SaveError(settings, replies) == replies.connect
    ensures SaveTrace(settings, replies) == [Connect]
  {
  }
}
