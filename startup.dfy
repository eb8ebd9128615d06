/** main.py: `init_db` and the `/start` handler `send_welcome`. The schema
    itself is the `Store.Db` type; `ADMIN_IDS` is a parameter. */
module Startup {
  import opened Wrappers
  import opened Store
  import opened Telegram

  /** What upserting the ids of `done` into `db` leaves: each of them an
      admin, an absent one with no username and language 'en', a present
      one with its username and language kept; no other row changes. */
  ghost predicate AdminsUpserted(db: Db, r: Db, done: seq<int>) {
    && (forall u :: u in r.users <==> u in db.users || u in done)
    && (forall a :: a in done && a !in db.users ==> r.users[a] == User(None, true, DefaultLanguage))
    && (forall a :: a in done && a in db.users ==> r.users[a] == db.users[a].(isAdmin := true))
    && (forall u :: u in db.users && u !in done ==> r.users[u] == db.users[u])
    && r.configs == db.configs && r.tutorials == db.tutorials
    && r.nextConfigId == db.nextConfigId && r.nextTutorialId == db.nextTutorialId
  }

  /** One more `INSERT ... ON CONFLICT DO UPDATE SET is_admin = 1` keeps it. */
  lemma UpsertStep(db: Db, r: Db, done: seq<int>, a: int)
    requires AdminsUpserted(db, r, done)
    ensures AdminsUpserted(db, UpsertAdmin(r, a), done + [a])
  {
    var r' := UpsertAdmin(r, a);
    forall u | u in db.users && u !in done + [a]
      ensures r'.users[u] == db.users[u]
    {
      assert u !in done;
    }
  }

  /** The admin upsert loop of `init_db`, run over a database that may
      already hold rows (`CREATE TABLE IF NOT EXISTS`): afterwards every
      listed id is an admin; an id that was absent gets a row with no
      username and language 'en'; one that was present keeps its username
      and language; no other row changes. */
  method InitDb(db: Db, adminIds: seq<int>) returns (r: Db)
    ensures forall u :: u in r.users <==> u in db.users || u in adminIds
    ensures forall a :: a in adminIds ==> r.users[a].isAdmin
    ensures forall a :: a in adminIds && a !in db.users ==> r.users[a] == User(None, true, DefaultLanguage)
    ensures forall a :: a in adminIds && a in db.users ==>
              r.users[a] == db.users[a].(isAdmin := true)
    ensures forall u :: u in db.users && u !in adminIds ==> r.users[u] == db.users[u]
    ensures r.configs == db.configs && r.tutorials == db.tutorials
    ensures r.nextConfigId == db.nextConfigId && r.nextTutorialId == db.nextTutorialId
  {
    r := db;
    var i := 0;
    while i < |adminIds|
      invariant 0 <= i <= |adminIds|
      invariant AdminsUpserted(db, r, adminIds[..i])
    {
      UpsertStep(db, r, adminIds[..i], adminIds[i]);
      assert adminIds[..i + 1] == adminIds[..i] + [adminIds[i]];
      r := UpsertAdmin(r, adminIds[i]);
      i := i + 1;
    }
    assert adminIds[..|adminIds|] == adminIds;
  }

  /** What a handler leaves: the database after it and what it sent. */
  datatype Reply = Reply(db: Db, outs: seq<Out>)

  /** 'welcome_admin' if is_admin else 'welcome' */
  function WelcomeKey(isAdmin: bool): (key: string)
    ensures key == "welcome_admin" <==> isAdmin
  {
    if isAdmin then "welcome_admin" else "welcome"
  }

  /** `send_welcome`: a known user is greeted by the stored role and
      language with no write; an unknown one is inserted first, admin iff
      listed in ADMIN_IDS, with the Telegram username and language 'en'. */
  function SendWelcome(db: Db, actor: int, username: Option<string>, adminIds: seq<int>): (r: Reply)
    ensures actor in db.users ==>
              var u := db.users[actor];
              r.db == db && r.outs == [Show(WelcomeKey(u.isAdmin), u.language, MainMenu(u.isAdmin, u.language))]
    ensures actor !in db.users ==>
              var isAdmin := actor in adminIds;
              && r.db == InsertUser(db, actor, User(username, isAdmin, DefaultLanguage))
              && r.outs == [Show(WelcomeKey(isAdmin), DefaultLanguage, MainMenu(isAdmin, DefaultLanguage))]
    ensures Valid(db) ==> Valid(r.db)
  {
    if actor in db.users then
      var u := db.users[actor];
      Reply(db, [Show(WelcomeKey(u.isAdmin), u.language, MainMenu(u.isAdmin, u.language))])
    else
      var isAdmin := actor in adminIds;
      var db' := InsertUser(db, actor, User(username, isAdmin, DefaultLanguage));
      Reply(db', [Show(WelcomeKey(isAdmin), DefaultLanguage, MainMenu(isAdmin, DefaultLanguage))])
  }

  /** A second /start writes nothing and greets exactly as the first did,
      whatever username it carries. */
  lemma SecondStartChangesNothing(db: Db, actor: int, u1: Option<string>, u2: Option<string>, adminIds: seq<int>)
    ensures var first := SendWelcome(db, actor, u1, adminIds);
            var second := SendWelcome(first.db, actor, u2, adminIds);
      second.db == first.db && second.outs == first.outs
  {
  }
}
