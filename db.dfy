/**
 * The persistence gateway of lib/db.js: query helpers over the shared pool or one checked-out
 * client. The PostgreSQL server itself is a collaborator: a `Server` function says what it answers
 * to a query sent on a handle, and `Database` holds the tables the rest of the core writes.
 */
module Db {
  import opened Common
  import opened Strings

  /** A result row as the pg driver delivers it: column name to the column's text. */
  type Row = map<string, string>

  /** What JavaScript yields for a missing property once it is used as a key. */
  const Undefined := "undefined"

  /** `row[column]` used as an object key: a missing column reads as "undefined". */
  function Column(row: Row, column: string): string {
    if column in row then row[column] else Undefined
  }

  /** Where a query goes: the shared pool, or one client checked out of it. */
  datatype Handle = Pool | Client(id: nat)

  /** A query: bare SQL text, or a query object `{ text, values }`. */
  datatype Query = Sql(sql: string) | Object(text: string, values: seq<string>)

  /** The server's answer to a query sent on a handle: the result rows, or the error it raised. */
  type Server = (Handle, Query) -> Result<seq<Row>>

  /** The tables the core writes, as the server holds them between transactions. */
  datatype Account = Account(email: string, title: string, password: string, customerId: string)

  /** One event as Stripe delivers it; only the fields the core reads are kept. */
  datatype StripeEvent = StripeEvent(id: string, eventType: string, objectId: string, objectEmail: string)

  class Database {
    var settings: map<string, string>      // setting: name -> value
    var events: map<string, StripeEvent>   // event: id -> event
    var accounts: map<string, Account>     // account: email -> account

    constructor (settings: map<string, string>, events: map<string, StripeEvent>, accounts: map<string, Account>)
      ensures this.settings == settings && this.events == events && this.accounts == accounts
    {
      this.settings, this.events, this.accounts := settings, events, accounts;
    }
  }

  /** `poolOrClient || pool` */
  function OrPool(poolOrClient: Option<Handle>): Handle {
    if poolOrClient.Some? then poolOrClient.value else Pool
  }

  /** `exec`: sends the query on the given handle, or on the pool when none is given, and hands
      back the server's answer unchanged; an error is passed on as it came, with no retry. */
  function Exec(poolOrClient: Option<Handle>, query: Query, server: Server): (r: Result<seq<Row>>)
    ensures poolOrClient.None? ==> r == server(Pool, query)
    ensures forall h :: poolOrClient == Some(h) ==> r == server(h, query)
  {
    server(OrPool(poolOrClient), query)
  }

  /** How a call ends: the callback is invoked with a result, or an exception escapes first. */
  datatype Delivery<+T> = Callback(result: Result<T>) | Threw(exception: Error)

  /** The first row, or none when there is none (several rows only warn). */
  function FirstRow(rows: seq<Row>): Option<Row> {
    if |rows| == 0 then None else Some(rows[0])
  }

  /** `getOne` as written: a string query throws, since the string branch reads an undeclared
      `sql`, and an object query is always sent on the pool, whatever handle the caller gave. */
  function GetOneAsWritten(poolOrClient: Option<Handle>, query: Query, server: Server): (r: Delivery<Option<Row>>)
    ensures query.Sql? ==> r == Threw(ReferenceError("sql"))
    ensures query.Object? && server(Pool, query).Err? ==> r == Callback(Err(server(Pool, query).error))
    ensures query.Object? && server(Pool, query).Ok? ==> r == Callback(Ok(FirstRow(server(Pool, query).value)))
  {
    if query.Sql? then Threw(ReferenceError("sql"))
    else
      match server(Pool, query)
      case Err(e) => Callback(Err(e))
      case Ok(rows) => Callback(Ok(FirstRow(rows)))
  }

  /** `{ text : sql }`: what the string branch of `getOne` evidently meant to build. */
  function AsObject(query: Query): Query {
    if query.Sql? then Object(query.sql, []) else query
  }

  /** `getOne` as evidently intended: sent on `poolOrClient || pool`, string queries wrapped. */
  function GetOne(poolOrClient: Option<Handle>, query: Query, server: Server): (r: Result<Option<Row>>)
    ensures var answer := server(OrPool(poolOrClient), AsObject(query));
      && (answer.Err? ==> r == Err(answer.error))
      && (answer.Ok? && |answer.value| == 0 ==> r == Ok(None))
      && (answer.Ok? && |answer.value| > 0 ==> r == Ok(Some(answer.value[0])))
  {
    match Exec(poolOrClient, AsObject(query), server)
    case Err(e) => Err(e)
    case Ok(rows) => Ok(FirstRow(rows))
  }

  /** `getAllArr`: `[]` for no rows, otherwise the rows as delivered. */
  function GetAllArr(poolOrClient: Option<Handle>, query: Query, server: Server): (r: Result<seq<Row>>)
    ensures r == Exec(poolOrClient, query, server)
  {
    match Exec(poolOrClient, query, server)
    case Err(e) => Err(e)
    case Ok(rows) => if |rows| == 0 then Ok([]) else Ok(rows)
  }

  /** `getOne` picks exactly the row `getAllArr` would list first, on the same handle. */
  lemma GetOneIsFirstOfGetAllArr(poolOrClient: Option<Handle>, query: Query, server: Server)
    ensures GetAllArr(poolOrClient, AsObject(query), server).Err? ==>
      GetOne(poolOrClient, query, server) == Err(GetAllArr(poolOrClient, AsObject(query), server).error)
    ensures GetAllArr(poolOrClient, AsObject(query), server).Ok? ==>
      GetOne(poolOrClient, query, server) == Ok(FirstRow(GetAllArr(poolOrClient, AsObject(query), server).value))
  {
  }

  /** The string form and the object form of the same SQL give the same answer. */
  lemma GetOneStringMeansObject(poolOrClient: Option<Handle>, sql: string, server: Server)
    ensures GetOne(poolOrClient, Sql(sql), server) == GetOne(poolOrClient, Object(sql, []), server)
  {
  }

  /** A server that keeps a client's uncommitted rows apart from the pool shows that `getOne` as
      written reads outside the caller's transaction. */
  lemma GetOneAsWrittenIgnoresClient()
    ensures var q := Object("SELECT * FROM page WHERE name = $1", ["about"]);
      var server: Server := (h: Handle, q: Query) => if h.Client? then Ok([map["name" := "about"]]) else Ok([]);
      && GetOneAsWritten(Some(Client(1)), q, server) == Callback(Ok(None))
      && GetOne(Some(Client(1)), q, server) == Ok(Some(map["name" := "about"]))
  {
  }

  /** `getAllObj`'s object, built as its `forEach` does: each row stored under `row[name]`, a
      later row replacing an earlier one under the same key. */
  function IndexBy(rows: seq<Row>, name: string): map<string, Row>
    decreases |rows|
  {
    if |rows| == 0 then map[]
    else IndexBy(rows[..|rows| - 1], name)[Column(rows[|rows| - 1], name) := rows[|rows| - 1]]
  }

  /** The keys of `IndexBy` are exactly the values the rows carry in column `name`. */
  lemma {:induction false} IndexByKeys(rows: seq<Row>, name: string)
    ensures IndexBy(rows, name).Keys == set i | 0 <= i < |rows| :: Column(rows[i], name)
    decreases |rows|
  {
    if |rows| > 0 {
      var init := rows[..|rows| - 1];
      IndexByKeys(init, name);
      assert forall i :: 0 <= i < |init| ==> init[i] == rows[i];
      var ks := set i | 0 <= i < |rows| :: Column(rows[i], name);
      var ks' := set i | 0 <= i < |init| :: Column(init[i], name);
      assert ks == ks' + {Column(rows[|rows| - 1], name)};
    }
  }

  /** Each key of `IndexBy` maps to the last row carrying it. */
  lemma {:induction false} IndexByLast(rows: seq<Row>, name: string, j: nat)
    requires j < |rows|
    requires forall i :: j < i < |rows| ==> Column(rows[i], name) != Column(rows[j], name)
    ensures Column(rows[j], name) in IndexBy(rows, name)
    ensures IndexBy(rows, name)[Column(rows[j], name)] == rows[j]
    decreases |rows|
  {
    if j < |rows| - 1 {
      var init := rows[..|rows| - 1];
      assert forall i :: j < i < |init| ==> init[i] == rows[i];
      IndexByLast(init, name, j);
    }
  }

  /** `getAllObj`: the rows of the answer keyed by their column `name`; `{}` when there are none. */
  method GetAllObj(poolOrClient: Option<Handle>, query: Query, name: string, server: Server)
    returns (r: Result<map<string, Row>>)
    ensures Exec(poolOrClient, query, server).Err? ==> r == Err(Exec(poolOrClient, query, server).error)
    ensures Exec(poolOrClient, query, server).Ok? ==> r == Ok(IndexBy(Exec(poolOrClient, query, server).value, name))
  {
    var answer := Exec(poolOrClient, query, server);
    if answer.Err? {
      return Err(answer.error);
    }
    var rows := answer.value;
    if |rows| == 0 {
      return Ok(map[]);
    }
    var data: map<string, Row> := map[];
    var i := 0;
    while i < |rows|
      invariant 0 <= i <= |rows|
      invariant data == IndexBy(rows[..i], name)
    {
      assert rows[..i + 1][..i] == rows[..i];
      data := data[Column(rows[i], name) := rows[i]];
      i := i + 1;
    }
    assert rows[..|rows|] == rows;
    r := Ok(data);
  }

  /** `keys.map((key, i) => '$' + (i+1))` */
  function Placeholders(n: nat): (ps: seq<string>)
    ensures |ps| == n
  {
    seq(n, i requires 0 <= i < n => "$" + Decimal(i + 1))
  }

  /** The placeholders are `$1` .. `$n` in order, and no two are alike. */
  lemma PlaceholdersNumbered(n: nat)
    ensures forall i :: 0 <= i < n ==> Placeholders(n)[i][0] == '$' && ParseDecimal(Placeholders(n)[i][1..]) == i + 1
    ensures forall i, j :: 0 <= i < j < n ==> Placeholders(n)[i] != Placeholders(n)[j]
  {
    forall i | 0 <= i < n
      ensures Placeholders(n)[i][0] == '$' && ParseDecimal(Placeholders(n)[i][1..]) == i + 1
    {
      assert Placeholders(n)[i][1..] == Decimal(i + 1);
      DecimalRoundTrip(i + 1);
    }
    forall i, j | 0 <= i < j < n
      ensures Placeholders(n)[i] != Placeholders(n)[j]
    {
      DecimalInjective(i + 1, j + 1);
      assert Placeholders(n)[i][1..] == Decimal(i + 1);
      assert Placeholders(n)[j][1..] == Decimal(j + 1);
    }
  }

  /** A JavaScript object with string values, its own keys in `Object.keys` order. */
  type Obj = seq<(string, string)>

  function Keys(obj: Obj): (ks: seq<string>)
    ensures |ks| == |obj|
  {
    seq(|obj|, i requires 0 <= i < |obj| => obj[i].0)
  }

  predicate DistinctKeys(obj: Obj) {
    forall i, j :: 0 <= i < j < |obj| ==> obj[i].0 != obj[j].0
  }

  /** `obj[key]`: the value stored under `key` (the first entry, were there several). */
  function Lookup(obj: Obj, key: string): string
    decreases |obj|
  {
    if |obj| == 0 then Undefined else if obj[0].0 == key then obj[0].1 else Lookup(obj[1..], key)
  }

  /** `insObj`'s query: the INSERT text with one numbered placeholder per key, and the values
      looked up key by key in the same order. */
  function InsertQuery(obj: Obj, tablename: string): (q: Query)
    ensures q.Object? && |q.values| == |obj|
  {
    var keys := Keys(obj);
    Object(
      "INSERT INTO " + tablename + "(" + Join(keys, ", ") + ") VALUES(" + Join(Placeholders(|keys|), ", ") + ")",
      seq(|keys|, i requires 0 <= i < |keys| => Lookup(obj, keys[i])))
  }

  /** `insObj`: runs the INSERT on the given handle, or on the pool. */
  function InsObj(poolOrClient: Option<Handle>, obj: Obj, tablename: string, server: Server): (r: Result<seq<Row>>)
    ensures r == server(OrPool(poolOrClient), InsertQuery(obj, tablename))
  {
    Exec(poolOrClient, InsertQuery(obj, tablename), server)
  }

  lemma {:induction false} LookupDistinct(obj: Obj, i: nat)
    requires DistinctKeys(obj) && i < |obj|
    ensures Lookup(obj, obj[i].0) == obj[i].1
    decreases |obj|
  {
    if i > 0 {
      LookupDistinct(obj[1..], i - 1);
    }
  }

  /** The i-th value bound by `insObj` is the value of the i-th key of the column list. */
  lemma InsertValuesFollowKeys(obj: Obj, tablename: string)
    requires DistinctKeys(obj)
    ensures forall i :: 0 <= i < |obj| ==> InsertQuery(obj, tablename).values[i] == obj[i].1
  {
    forall i | 0 <= i < |obj| ensures InsertQuery(obj, tablename).values[i] == obj[i].1 {
      LookupDistinct(obj, i);
    }
  }

  lemma {:induction false} PlaceholderDollars(n: nat, m: nat)
    requires m <= n
    ensures CountIn(Placeholders(n)[n - m..], '$') == m
    decreases m
  {
    var ps := Placeholders(n)[n - m..];
    if m > 0 {
      PlaceholderDollars(n, m - 1);
      assert ps[1..] == Placeholders(n)[n - (m - 1)..];
      var d := Decimal(n - m + 1);
      assert ps[0] == "$" + d;
      assert '$' !in d;
      CountAbsent(d, '$');
      CountAppend("$", d, '$');
    }
  }

  /** When neither the table name nor any key holds a `$`, the INSERT text holds exactly one
      `$` per key: one placeholder per column. */
  lemma InsertHasOnePlaceholderPerKey(obj: Obj, tablename: string)
    requires '$' !in tablename
    requires forall i :: 0 <= i < |obj| ==> '$' !in obj[i].0
    ensures Count(InsertQuery(obj, tablename).text, '$') == |obj|
  {
    var columns, holders := Join(Keys(obj), ", "), Join(Placeholders(|obj|), ", ");
    JoinCount(Keys(obj), ", ", '$');
    KeysHaveNoDollar(Keys(obj));
    JoinCount(Placeholders(|obj|), ", ", '$');
    PlaceholderDollars(|obj|, |obj|);
    assert Placeholders(|obj|)[0..] == Placeholders(|obj|);
    InsertText(obj, tablename);
    var head := "INSERT INTO " + tablename + "(";
    CountAbsent(head, '$');
    CountAbsent(") VALUES(", '$');
    CountAbsent(")", '$');
    CountAppend(head, columns, '$');
    CountAppend(head + columns, ") VALUES(", '$');
    CountAppend(head + columns + ") VALUES(", holders, '$');
    CountAppend(head + columns + ") VALUES(" + holders, ")", '$');
  }

  lemma InsertText(obj: Obj, tablename: string)
    ensures InsertQuery(obj, tablename).text ==
      "INSERT INTO " + tablename + "(" + Join(Keys(obj), ", ") + ") VALUES(" + Join(Placeholders(|obj|), ", ") + ")"
  {
  }

  /** A two-column object: the column list follows the keys, the placeholders are `$1, $2`,
      and the values are bound in key order. */
  lemma InsertTwoColumns()
    ensures InsertQuery([("a", "1"), ("b", "2")], "t").text == "INSERT INTO t(a, b) VALUES($1, $2)"
    ensures InsertQuery([("a", "1"), ("b", "2")], "t").values == ["1", "2"]
  {
    var obj: Obj := [("a", "1"), ("b", "2")];
    var q := InsertQuery(obj, "t");
    assert Keys(obj) == ["a", "b"];
    TwoPlaceholders();
    JoinTwo("a", "b");
    JoinTwo("$1", "$2");
    InsertText(obj, "t");
    assert q.text == "INSERT INTO " + "t" + "(" + "a, b" + ") VALUES(" + "$1, $2" + ")";
    assert q.values[0] == Lookup(obj, "a") == "1";
    assert obj[1..] == [("b", "2")];
    assert q.values[1] == Lookup(obj, "b") == Lookup(obj[1..], "b") == "2";
  }

  lemma TwoPlaceholders()
    ensures Join(Placeholders(2), ", ") == "$1, $2"
  {
    assert Decimal(1) == "1";
    assert Decimal(2) == "2";
    assert Placeholders(2)[0] == "$1";
    assert Placeholders(2)[1] == "$2";
    assert Placeholders(2) == ["$1", "$2"];
    JoinTwo("$1", "$2");
  }

  lemma JoinTwo(x: string, y: string)
    ensures Join([x, y], ", ") == x + ", " + y
  {
    assert [x, y][1..] == [y];
  }

  lemma {:induction false} KeysHaveNoDollar(keys: seq<string>)
    requires forall i :: 0 <= i < |keys| ==> '$' !in keys[i]
    ensures CountIn(keys, '$') == 0
    decreases |keys|
  {
    if |keys| > 0 {
      KeysHaveNoDollar(keys[1..]);
      CountAbsent(keys[0], '$');
    }
  }
}
