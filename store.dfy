/** The three SQLite tables of the bot (schema created by `init_db` in
    main.py) and the SQL statements the handlers run against them. Each
    statement is one atomic step from one database value to the next. */
module Store {
  import opened Wrappers

  const DefaultLanguage: string := "en"

  /** A row of `users`, keyed by `telegram_id` (the primary key). */
  datatype User = User(username: Option<string>, isAdmin: bool, language: string)

  /** A row of `configs`; `kind` is `config_type`, which may be NULL. */
  datatype Config = Config(owner: int, kind: Option<string>, data: string)

  /** A row of `tutorials`; `body` is `content_text`. */
  datatype Tutorial = Tutorial(title: Option<string>, body: Option<string>, fileId: Option<string>)

  /** The database: one map per table, and for each AUTOINCREMENT table the
      next id it hands out. */
  datatype Db = Db(
    users: map<int, User>,
    configs: map<int, Config>,
    nextConfigId: int,
    tutorials: map<int, Tutorial>,
    nextTutorialId: int)

  /** A freshly created database file. */
  const EmptyDb: Db := Db(map[], map[], 1, map[], 1)

  /** AUTOINCREMENT never reuses an id: every id in use is below the counter. */
  ghost predicate Valid(db: Db) {
    && db.nextConfigId >= 1
    && (forall id :: id in db.configs ==> 1 <= id < db.nextConfigId)
    && db.nextTutorialId >= 1
    && (forall id :: id in db.tutorials ==> 1 <= id < db.nextTutorialId)
  }

  predicate Increasing(s: seq<int>) {
    forall i, j :: 0 <= i < j < |s| ==> s[i] < s[j]
  }

  /** `m` is the least element of `s`. */
  predicate IsMin(m: int, s: set<int>) {
    m in s && forall y :: y in s ==> m <= y
  }

  lemma NonEmptyHasMember(s: set<int>)
    ensures s != {} ==> exists x :: x in s
  {
    if forall x :: x !in s {
      assert s == {};
    }
  }

  lemma {:induction false} MinExists(s: set<int>)
    requires s != {}
    ensures exists m :: IsMin(m, s)
    decreases |s|
  {
    NonEmptyHasMember(s);
    var x :| x in s;
    var rest := s - {x};
    if rest == {} {
      forall y | y in s ensures x <= y {
        assert y == x || y in rest;
      }
      assert IsMin(x, s);
    } else {
      MinExists(rest);
      var m :| IsMin(m, rest);
      var least := if x < m then x else m;
      forall y | y in s ensures least <= y {
        if y != x { assert y in rest; }
      }
      assert IsMin(least, s);
    }
  }

  /** The least element followed by the rest in ascending order is the
      whole set in ascending order. */
  lemma PrependMin(m: int, s: set<int>, rest: seq<int>)
    requires IsMin(m, s)
    requires |rest| == |s - {m}|
    requires forall x :: x in rest <==> x in s - {m}
    requires Increasing(rest)
    ensures |[m] + rest| == |s|
    ensures forall x :: x in [m] + rest <==> x in s
    ensures Increasing([m] + rest)
  {
    var r := [m] + rest;
    forall i, j | 0 <= i < j < |r| ensures r[i] < r[j] {
      assert r[j] == rest[j - 1] && r[j] in s - {m};
      if i > 0 {
        assert r[i] == rest[i - 1];
      }
    }
  }

  /** The ids of a table in ascending order: the order in which SQLite scans
      an INTEGER PRIMARY KEY table when the query has no ORDER BY. */
  function Ascending(s: set<int>): (r: seq<int>)
    ensures |r| == |s|
    ensures forall x :: x in r <==> x in s
    ensures Increasing(r)
    decreases |s|
  {
    if s == {} then []
    else
      MinExists(s);
      var m :| IsMin(m, s);
      var rest := Ascending(s - {m});
      PrependMin(m, s, rest);
      [m] + rest
  }

  /** `SELECT language_code FROM users WHERE telegram_id = ?`, defaulting to
      'en' when there is no such row (`get_admin_lang`, `get_user_lang`). */
  function LanguageOf(db: Db, id: int): (lang: string)
    ensures id in db.users ==> lang == db.users[id].language
    ensures id !in db.users ==> lang == DefaultLanguage
  {
    if id in db.users then db.users[id].language else DefaultLanguage
  }

  /** `INSERT INTO users ...` of a new row; the callers check first that the
      id is absent, since the primary key would reject a duplicate. */
  function InsertUser(db: Db, id: int, user: User): (r: Db)
    requires id !in db.users
    ensures r.users.Keys == db.users.Keys + {id} && r.users[id] == user
    ensures forall u :: u in db.users ==> r.users[u] == db.users[u]
    ensures r.configs == db.configs && r.tutorials == db.tutorials
    ensures Valid(db) ==> Valid(r)
  {
    db.(users := db.users[id := user])
  }

  /** `INSERT ... VALUES (?, 1, 'en') ON CONFLICT(telegram_id) DO UPDATE SET
      is_admin = 1`: afterwards the id is an admin; a new row has no username
      and language 'en'; an existing row keeps its username and language. */
  function UpsertAdmin(db: Db, id: int): (r: Db)
    ensures id in r.users && r.users[id].isAdmin
    ensures id !in db.users ==> r.users[id] == User(None, true, DefaultLanguage)
    ensures id in db.users ==>
      r.users[id].username == db.users[id].username && r.users[id].language == db.users[id].language
    ensures r.users.Keys == db.users.Keys + {id}
    ensures forall u :: u in db.users && u != id ==> r.users[u] == db.users[u]
    ensures r.configs == db.configs && r.tutorials == db.tutorials
    ensures r.nextConfigId == db.nextConfigId && r.nextTutorialId == db.nextTutorialId
  {
    if id in db.users then db.(users := db.users[id := db.users[id].(isAdmin := true)])
    else db.(users := db.users[id := User(None, true, DefaultLanguage)])
  }

  /** `UPDATE users SET language_code = ? WHERE telegram_id = ?`: only the
      language of that row changes; no row, no change. */
  function SetLanguage(db: Db, id: int, code: string): (r: Db)
    ensures r.users.Keys == db.users.Keys
    ensures id in db.users ==> r.users[id] == db.users[id].(language := code)
    ensures forall u :: u in db.users && u != id ==> r.users[u] == db.users[u]
    ensures r.configs == db.configs && r.tutorials == db.tutorials
    ensures Valid(db) ==> Valid(r)
  {
    if id in db.users then db.(users := db.users[id := db.users[id].(language := code)]) else db
  }

  /** The ids of the configs that belong to `owner`. */
  function OwnedConfigs(db: Db, owner: int): set<int> {
    set id | id in db.configs && db.configs[id].owner == owner
  }

  /** `DELETE FROM users WHERE telegram_id = ?` with the foreign key
      `ON DELETE CASCADE` of `configs.user_id` in force: the user row and
      every config it owns go, nothing else does. */
  function DeleteUser(db: Db, id: int): (r: Db)
    ensures r.users == db.users - {id}
    ensures forall c :: c in r.configs <==> c in db.configs && db.configs[c].owner != id
    ensures forall c :: c in r.configs ==> r.configs[c] == db.configs[c]
    ensures OwnedConfigs(r, id) == {}
    ensures r.tutorials == db.tutorials
    ensures Valid(db) ==> Valid(r)
  {
    db.(users := db.users - {id},
        configs := map c | c in db.configs && db.configs[c].owner != id :: db.configs[c])
  }

  /** The same DELETE on a connection where SQLite's foreign keys are off,
      as they are on every connection except `init_db`'s: only the user row goes. */
  function DeleteUserWithoutForeignKeys(db: Db, id: int): (r: Db)
    ensures r.users == db.users - {id}
    ensures r.configs == db.configs && r.tutorials == db.tutorials
  {
    db.(users := db.users - {id})
  }

  /** `INSERT INTO configs ...`: the row gets an id no row has had. */
  function InsertConfig(db: Db, c: Config): (r: Db)
    requires Valid(db)
    ensures Valid(r)
    ensures db.nextConfigId !in db.configs
    ensures r.configs == db.configs[db.nextConfigId := c]
    ensures r.nextConfigId > db.nextConfigId
    ensures r.users == db.users && r.tutorials == db.tutorials
  {
    db.(configs := db.configs[db.nextConfigId := c], nextConfigId := db.nextConfigId + 1)
  }

  /** `DELETE FROM configs WHERE id = ?` */
  function DeleteConfig(db: Db, id: int): (r: Db)
    ensures r.configs == db.configs - {id}
    ensures r.users == db.users && r.tutorials == db.tutorials
    ensures Valid(db) ==> Valid(r)
  {
    db.(configs := db.configs - {id})
  }

  /** `INSERT INTO tutorials ...`: the row gets an id no row has had. */
  function InsertTutorial(db: Db, t: Tutorial): (r: Db)
    requires Valid(db)
    ensures Valid(r)
    ensures db.nextTutorialId !in db.tutorials
    ensures r.tutorials == db.tutorials[db.nextTutorialId := t]
    ensures r.nextTutorialId > db.nextTutorialId
    ensures r.users == db.users && r.configs == db.configs
  {
    db.(tutorials := db.tutorials[db.nextTutorialId := t], nextTutorialId := db.nextTutorialId + 1)
  }

  /** `DELETE FROM tutorials WHERE id = ?` */
  function DeleteTutorial(db: Db, id: int): (r: Db)
    ensures r.tutorials == db.tutorials - {id}
    ensures r.users == db.users && r.configs == db.configs
    ensures Valid(db) ==> Valid(r)
  {
    db.(tutorials := db.tutorials - {id})
  }

  /** `SELECT telegram_id FROM users WHERE is_admin = 0`, in table order. */
  function NonAdminIds(db: Db): (ids: seq<int>)
    ensures forall u :: u in ids <==> u in db.users && !db.users[u].isAdmin
    ensures Increasing(ids)
  {
    Ascending(set u | u in db.users && !db.users[u].isAdmin)
  }

  /** `SELECT ... FROM configs WHERE user_id = ?`, in table order. */
  function ConfigIdsOf(db: Db, owner: int): (ids: seq<int>)
    ensures forall c :: c in ids <==> c in db.configs && db.configs[c].owner == owner
    ensures Increasing(ids)
  {
    Ascending(OwnedConfigs(db, owner))
  }

  /** `SELECT id, title FROM tutorials`, in table order. */
  function TutorialIds(db: Db): (ids: seq<int>)
    ensures forall t :: t in ids <==> t in db.tutorials
    ensures Increasing(ids)
  {
    Ascending(db.tutorials.Keys)
  }

  /** Two successive config inserts get two different ids, and neither
      collides with a row that was there before. */
  lemma {:induction false} ConfigIdsAreFresh(db: Db, a: Config, b: Config)
    requires Valid(db)
    ensures var db1 := InsertConfig(db, a);
            var db2 := InsertConfig(db1, b);
            db.nextConfigId != db1.nextConfigId
            && db2.configs[db.nextConfigId] == a && db2.configs[db1.nextConfigId] == b
            && db1.nextConfigId !in db.configs
  {
    var db1 := InsertConfig(db, a);
    assert db1.nextConfigId == db.nextConfigId + 1;
  }

  /** Deleting a user leaves no config owned by that user, however many
      the user had. */
  lemma DeleteUserLeavesNoConfigs(db: Db, id: int)
    ensures ConfigIdsOf(DeleteUser(db, id), id) == []
  {
    assert |ConfigIdsOf(DeleteUser(db, id), id)| == |OwnedConfigs(DeleteUser(db, id), id)|;
  }

  /** As written, the foreign key is off on the handler's connection: a user
      with a config loses the user row but the config stays, orphaned. */
  lemma DeleteWithoutForeignKeysLeavesOrphans()
    ensures var db := Db(map[7 := User(None, false, "en")],
                         map[1 := Config(7, Some("vless"), "x")], 2, map[], 1);
            var r := DeleteUserWithoutForeignKeys(db, 7);
            7 !in r.users && ConfigIdsOf(r, 7) == [1]
  {
    var db := Db(map[7 := User(None, false, "en")],
                 map[1 := Config(7, Some("vless"), "x")], 2, map[], 1);
    var r := DeleteUserWithoutForeignKeys(db, 7);
    assert OwnedConfigs(r, 7) == {1};
    var ids := ConfigIdsOf(r, 7);
    assert |ids| == 1 && 1 in ids;
  }
}
