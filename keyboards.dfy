/** keyboards.py: the inline keyboards. The builders that query the database
    are methods that append rows in a loop, as the source does; each is
    proved equal to, or described by, the keyboard it must produce. */
module Keyboards {
  import opened Wrappers
  import opened PyText
  import opened Store
  import opened Callbacks
  import opened Telegram

  /** USERS_PER_PAGE */
  const UsersPerPage: nat := 5

  /** `page * USERS_PER_PAGE` as SQLite reads it in OFFSET: a negative
      offset counts as 0. */
  function Offset(page: int): (o: nat)
    ensures page >= 0 ==> o == page * UsersPerPage
    ensures page < 0 ==> o == 0
  {
    if page <= 0 then 0 else page * UsersPerPage
  }

  /** `LIMIT USERS_PER_PAGE OFFSET page * USERS_PER_PAGE` over the ids in
      table order: at most five ids, consecutive, starting at the offset. */
  function PageItems(ids: seq<int>, page: int): (items: seq<int>)
    ensures |items| <= UsersPerPage
    ensures |items| == if Offset(page) >= |ids| then 0
                       else if |ids| - Offset(page) < UsersPerPage then |ids| - Offset(page)
                       else UsersPerPage
    ensures forall i :: 0 <= i < |items| ==> items[i] == ids[Offset(page) + i]
    ensures forall x :: x in items ==> x in ids
  {
    var lo := Offset(page);
    if lo >= |ids| then []
    else ids[lo..if lo + UsersPerPage <= |ids| then lo + UsersPerPage else |ids|]
  }

  /** `page > 0`: "prev" exactly when the page does not start at the
      first row. */
  function HasPrev(page: int): (b: bool)
    ensures b <==> Offset(page) > 0
  {
    page > 0
  }

  /** `(page + 1) * USERS_PER_PAGE < total_users`: from page 0 on, "next"
      exactly when rows remain after this page. */
  function HasNext(page: int, total: int): (b: bool)
    ensures page >= 0 ==> (b <==> Offset(page + 1) < total)
  {
    (page + 1) * UsersPerPage < total
  }

  /** Every user in the listing is on page k / 5, at position k % 5. */
  lemma EveryUserIsOnItsPage(ids: seq<int>, k: nat)
    requires k < |ids|
    ensures k % UsersPerPage < |PageItems(ids, k / UsersPerPage)|
    ensures PageItems(ids, k / UsersPerPage)[k % UsersPerPage] == ids[k]
  {
    assert Offset(k / UsersPerPage) == (k / UsersPerPage) * UsersPerPage;
    assert Offset(k / UsersPerPage) + k % UsersPerPage == k;
  }

  /** On any page from 0 on, "next" is offered exactly when the next page
      has users: it never leads to an empty page and is never missing. */
  lemma NextIffNextPageHasUsers(ids: seq<int>, page: int)
    requires page >= 0
    ensures HasNext(page, |ids|) <==> PageItems(ids, page + 1) != []
  {
    assert Offset(page + 1) == (page + 1) * UsersPerPage;
  }

  /** "prev" on a page that has users leads to a full page. */
  lemma PrevPageIsFull(ids: seq<int>, page: int)
    requires HasPrev(page) && PageItems(ids, page) != []
    ensures |PageItems(ids, page - 1)| == UsersPerPage
  {
    assert Offset(page) == page * UsersPerPage;
    assert Offset(page - 1) == (page - 1) * UsersPerPage;
  }

  /** With 12 non-admin users: page 0 holds 5 and offers only "next",
      page 2 holds 2 and offers no "next", page 5 is empty with no "next". */
  lemma TwelveUsers(ids: seq<int>)
    requires |ids| == 12
    ensures |PageItems(ids, 0)| == 5 && !HasPrev(0) && HasNext(0, |ids|)
    ensures |PageItems(ids, 2)| == 2 && HasPrev(2) && !HasNext(2, |ids|)
    ensures PageItems(ids, 5) == [] && !HasNext(5, |ids|)
  {
  }

  /** f"@{username}" if username else f"ID: {user_id}" */
  function UserLabel(id: int, username: Option<string>): (name: string)
    ensures |name| >= 1
    ensures name[0] == '@' <==> username.Some? && username.value != ""
    ensures name[0] == '@' ==> name[1..] == username.value
    ensures name[0] != '@' ==> name == "ID: " + IntToString(id)
  {
    if username.Some? && username.value != "" then "@" + username.value
    else "ID: " + IntToString(id)
  }

  function UserButton(db: Db, id: int, itemStem: string): Button
    requires id in db.users
  {
    Button(Plain(UserLabel(id, db.users[id].username)), WithId(itemStem, id))
  }

  /** `nav_buttons`: "prev" when page > 0, then "next" when more users
      follow. They lead to the neighbouring pages: the handler reads
      page - 1 back from "prev" and page + 1 from "next". */
  function NavRow(pageStem: string, page: int, total: int, lang: string): (nav: seq<Button>)
    ensures |nav| == (if HasPrev(page) then 1 else 0) + (if HasNext(page, total) then 1 else 0)
    ensures HasPrev(page) ==> nav[0].text == Localized("prev_btn", lang)
                              && TrailingId(nav[0].callback) == Some(page - 1)
    ensures HasNext(page, total) ==> nav[|nav| - 1].text == Localized("next_btn", lang)
                                     && TrailingId(nav[|nav| - 1].callback) == Some(page + 1)
  {
    TrailingIdRoundTrip(pageStem, page - 1);
    TrailingIdRoundTrip(pageStem, page + 1);
    (if HasPrev(page) then [PrevButton(pageStem, page, lang)] else [])
    + (if HasNext(page, total) then [NextButton(pageStem, page, lang)] else [])
  }

  function PrevButton(pageStem: string, page: int, lang: string): Button {
    Button(Localized("prev_btn", lang), WithId(pageStem, page - 1))
  }

  function NextButton(pageStem: string, page: int, lang: string): Button {
    Button(Localized("next_btn", lang), WithId(pageStem, page + 1))
  }

  lemma TrailingIdRoundTripAll(stem: string)
    ensures forall n :: TrailingId(WithId(stem, n)) == Some(n)
  {
    forall n ensures TrailingId(WithId(stem, n)) == Some(n) {
      TrailingIdRoundTrip(stem, n);
    }
  }

  /** The user rows of one page and, when it is not empty, the navigation
      row: one button per listed non-admin user, whose callback the handler
      reads back as that user's id. */
  function PageRows(db: Db, page: int, lang: string, itemStem: string, pageStem: string): (rows: Keyboard)
    ensures var ids := NonAdminIds(db);
      var items := PageItems(ids, page);
      && |rows| == |items| + (if HasPrev(page) || HasNext(page, |ids|) then 1 else 0)
      && (forall i :: 0 <= i < |items| ==>
            rows[i] == [UserButton(db, items[i], itemStem)]
            && TrailingId(rows[i][0].callback) == Some(items[i]))
      && (HasPrev(page) || HasNext(page, |ids|) ==> rows[|items|] == NavRow(pageStem, page, |ids|, lang))
  {
    var ids := NonAdminIds(db);
    var items := PageItems(ids, page);
    var nav := NavRow(pageStem, page, |ids|, lang);
    UserRowsReadBack(db, items, itemStem);
    UserRows(db, items, itemStem) + (if nav == [] then [] else [nav])
  }

  function UserRows(db: Db, users: seq<int>, itemStem: string): (rows: Keyboard)
    requires forall x :: x in users ==> x in db.users
    ensures |rows| == |users|
    ensures forall i :: 0 <= i < |users| ==> rows[i] == [UserButton(db, users[i], itemStem)]
  {
    seq(|users|, i requires 0 <= i < |users| => [UserButton(db, users[i], itemStem)])
  }

  /** The handler reads every user row's callback back as that user's id. */
  lemma UserRowsReadBack(db: Db, users: seq<int>, itemStem: string)
    requires forall x :: x in users ==> x in db.users
    ensures forall i :: 0 <= i < |users| ==>
              TrailingId(UserRows(db, users, itemStem)[i][0].callback) == Some(users[i])
  {
    forall i | 0 <= i < |users|
      ensures TrailingId(UserRows(db, users, itemStem)[i][0].callback) == Some(users[i])
    {
      TrailingIdRoundTrip(itemStem, users[i]);
    }
  }

  /** The loop of `get_users_keyboard` and `get_users_for_configs_keyboard`:
      one row per user of the page. */
  method UserButtonRows(db: Db, users: seq<int>, itemStem: string) returns (rows: Keyboard)
    requires forall x :: x in users ==> x in db.users
    ensures rows == UserRows(db, users, itemStem)
  {
    rows := [];
    var i := 0;
    while i < |users|
      invariant 0 <= i <= |users|
      invariant |rows| == i
      invariant forall k :: 0 <= k < i ==> rows[k] == [UserButton(db, users[k], itemStem)]
    {
      rows := rows + [[UserButton(db, users[i], itemStem)]];
      i := i + 1;
    }
  }

  /** `nav_buttons`, appended to one by one. */
  method NavButtons(pageStem: string, page: int, total: int, lang: string) returns (nav: seq<Button>)
    ensures nav == NavRow(pageStem, page, total, lang)
  {
    nav := [];
    if page > 0 {
      nav := nav + [PrevButton(pageStem, page, lang)];
    }
    if (page + 1) * UsersPerPage < total {
      nav := nav + [NextButton(pageStem, page, lang)];
    }
  }

  /** The rows the two user listings share: the users of the page, then the
      navigation row only if it holds a button. */
  method UserPageRows(db: Db, page: int, lang: string, itemStem: string, pageStem: string)
    returns (rows: Keyboard)
    ensures rows == PageRows(db, page, lang, itemStem, pageStem)
  {
    var ids := NonAdminIds(db);
    var users := PageItems(ids, page);
    rows := UserButtonRows(db, users, itemStem);
    var nav := NavButtons(pageStem, page, |ids|, lang);
    if nav != [] {
      rows := rows + [nav];
    }
  }

  /** `get_users_keyboard`: the page rows, then "add user", then "back". */
  method UsersKeyboard(db: Db, page: int, lang: string) returns (kb: Keyboard)
    ensures kb == PageRows(db, page, lang, "manage_user", "admin_users_page")
                  + [[Button(Localized("add_user_btn", lang), "add_user")],
                     [Button(Localized("back_to_menu", lang), "admin_menu")]]
  {
    kb := UserPageRows(db, page, lang, "manage_user", "admin_users_page");
    kb := kb + [[Button(Localized("add_user_btn", lang), "add_user")]];
    kb := kb + [[Button(Localized("back_to_menu", lang), "admin_menu")]];
  }

  /** `get_users_for_configs_keyboard`: the page rows, then "back". */
  method UsersForConfigsKeyboard(db: Db, page: int, lang: string) returns (kb: Keyboard)
    ensures kb == PageRows(db, page, lang, "user_configs_manage", "admin_configs_page")
                  + [[Button(Localized("back_to_menu", lang), "admin_menu")]]
  {
    kb := UserPageRows(db, page, lang, "user_configs_manage", "admin_configs_page");
    kb := kb + [[Button(Localized("back_to_menu", lang), "admin_menu")]];
  }

  lemma FileKindTail(kind: string)
    requires StartsWith(kind, "file:")
    ensures ':' in kind && AfterFirst(kind, ':') == kind[5..]
  {
    assert kind == "file" + [':'] + kind[5..];
    AfterFirstOfJoin("file", kind[5..], ':');
  }

  /** The text of a config button after its delete prefix. A `file:` type
      shows what follows its first colon; any other type shows itself and
      the data cut to 20 characters plus "..." when longer. A NULL type
      makes `config_type.startswith` raise: `None`. */
  function ConfigDisplayOf(c: Config, lang: string): (d: Option<ConfigDisplay>)
    ensures d.None? <==> c.kind.None?
    ensures c.kind.Some? && StartsWith(c.kind.value, "file:") ==>
              d == Some(FileDisplay(lang, c.kind.value[5..]))
    ensures c.kind.Some? && !StartsWith(c.kind.value, "file:") ==>
              d.Some? && d.value.DataDisplay? && d.value.kind == c.kind.value
              && (|c.data| <= 20 ==> d.value.shortData == c.data)
              && (|c.data| > 20 ==> d.value.shortData == c.data[..20] + "...")
  {
    match c.kind
    case None => None
    case Some(k) =>
      if StartsWith(k, "file:") then
        FileKindTail(k);
        Some(FileDisplay(lang, AfterFirst(k, ':')))
      else Some(DataDisplay(k, Shorten(c.data, 20)))
  }

  /** A config stored from a document shows exactly the document's name,
      even when the name itself holds colons. */
  lemma DocumentConfigShowsFileName(owner: int, fileName: string, fileId: string, lang: string)
    ensures ConfigDisplayOf(Config(owner, Some("file:" + fileName), fileId), lang)
            == Some(FileDisplay(lang, fileName))
  {
    assert ("file:" + fileName)[..5] == "file:";
    assert ("file:" + fileName)[5..] == fileName;
  }

  function ConfigButton(db: Db, id: int, userId: int, lang: string): Button
    requires id in db.configs && db.configs[id].kind.Some?
  {
    Button(ConfigDelete(lang, ConfigDisplayOf(db.configs[id], lang).value), DeleteConfigData(id, userId))
  }

  /** The three rows under the config buttons. */
  function ConfigsFooter(userId: int, lang: string): Keyboard {
    [[Button(Localized("add_config_btn", lang), WithId("add_config", userId))],
     [Button(Localized("back_to_users_list_btn", lang), "admin_configs_page_0")],
     [Button(Localized("main_menu", lang), "admin_menu")]]
  }

  /** `get_user_configs_management_keyboard` raises for this user: one of
      their configs has a NULL type, on which `startswith` fails. */
  predicate ConfigsKeyboardRaises(db: Db, userId: int) {
    exists c :: c in db.configs && db.configs[c].owner == userId && db.configs[c].kind.None?
  }

  /** The keyboard raises exactly when a config it lists has a NULL type. */
  lemma RaisesIffListedConfigIsNull(db: Db, userId: int)
    ensures var ids := ConfigIdsOf(db, userId);
      ConfigsKeyboardRaises(db, userId) <==> exists i :: 0 <= i < |ids| && db.configs[ids[i]].kind.None?
  {
    var ids := ConfigIdsOf(db, userId);
    if ConfigsKeyboardRaises(db, userId) {
      var c :| c in db.configs && db.configs[c].owner == userId && db.configs[c].kind.None?;
      assert c in ids;
      var i :| 0 <= i < |ids| && ids[i] == c;
    }
  }

  /** One delete button per config, in the order given. */
  function ConfigRows(db: Db, ids: seq<int>, userId: int, lang: string): Keyboard
    requires forall k :: 0 <= k < |ids| ==> ids[k] in db.configs && db.configs[ids[k]].kind.Some?
  {
    seq(|ids|, k requires 0 <= k < |ids| => [ConfigButton(db, ids[k], userId, lang)])
  }

  /** Each config button is read back by `process_delete_config` as
      (its config id, the user's id). */
  lemma ConfigButtonsReadBack(db: Db, ids: seq<int>, userId: int, lang: string, k: nat)
    requires forall j :: 0 <= j < |ids| ==> ids[j] in db.configs && db.configs[ids[j]].kind.Some?
    requires k < |ids|
    ensures DeleteConfigIds(ConfigRows(db, ids, userId, lang)[k][0].callback) == Some((ids[k], userId))
  {
    DeleteConfigRoundTrip(ids[k], userId);
  }

  /** The loop of `get_user_configs_management_keyboard`: a button per
      config until the first with a NULL type, where it raises (`None`). */
  method ConfigButtons(db: Db, ids: seq<int>, userId: int, lang: string) returns (rows: Option<Keyboard>)
    requires forall k :: 0 <= k < |ids| ==> ids[k] in db.configs
    ensures rows.None? <==> exists i :: 0 <= i < |ids| && db.configs[ids[i]].kind.None?
    ensures rows.Some? ==> (forall i :: 0 <= i < |ids| ==> db.configs[ids[i]].kind.Some?)
                           && rows.value == ConfigRows(db, ids, userId, lang)
  {
    var acc: Keyboard := [];
    var i := 0;
    while i < |ids|
      invariant 0 <= i <= |ids|
      invariant |acc| == i
      invariant forall k :: 0 <= k < i ==> db.configs[ids[k]].kind.Some?
      invariant forall k :: 0 <= k < i ==> acc[k] == [ConfigButton(db, ids[k], userId, lang)]
    {
      if db.configs[ids[i]].kind.None? {
        return None;
      }
      acc := acc + [[ConfigButton(db, ids[i], userId, lang)]];
      i := i + 1;
    }
    rows := Some(acc);
  }

  /** `get_user_configs_management_keyboard`: one delete button per config
      of the user, in table order, then "add config", "back to users" and
      "main menu". It raises, here `None`, when one of the configs has a
      NULL type. */
  method UserConfigsKeyboard(db: Db, userId: int, lang: string) returns (kb: Option<Keyboard>)
    ensures var ids := ConfigIdsOf(db, userId);
      kb.None? <==> exists i :: 0 <= i < |ids| && db.configs[ids[i]].kind.None?
    ensures var ids := ConfigIdsOf(db, userId);
      kb.Some? ==> (forall i :: 0 <= i < |ids| ==> db.configs[ids[i]].kind.Some?)
                   && kb.value == ConfigRows(db, ids, userId, lang) + ConfigsFooter(userId, lang)
  {
    var ids := ConfigIdsOf(db, userId);
    assert forall k :: 0 <= k < |ids| ==> ids[k] in db.configs by {
      forall k | 0 <= k < |ids| ensures ids[k] in db.configs {
        assert ids[k] in ids;
      }
    }
    var rows := ConfigButtons(db, ids, userId, lang);
    if rows.None? {
      return None;
    }
    kb := Some(rows.value + ConfigsFooter(userId, lang));
  }

  /** `get_main_keyboard_by_role`: four admin rows or two user rows, and the
      settings row last for everyone. */
  function MainKeyboard(isAdmin: bool, lang: string): (kb: Keyboard)
    ensures |kb| == if isAdmin then 5 else 3
    ensures kb[|kb| - 1] == [Button(Localized("settings", lang), "settings")]
    ensures isAdmin ==>
              && kb[0] == [Button(Localized("manage_users_btn", lang), "admin_users_page_0")]
              && kb[1] == [Button(Localized("manage_configs_btn", lang), "admin_configs_page_0")]
              && kb[2] == [Button(Localized("manage_tutorials_btn", lang), "admin_tutorials_menu")]
              && kb[3] == [Button(Localized("mass_send_btn", lang), "mass_send_start")]
    ensures !isAdmin ==>
              && kb[0] == [Button(Localized("my_configs_btn", lang), "user_configs")]
              && kb[1] == [Button(Localized("help_btn", lang), "user_help")]
  {
    var buttons :=
      if isAdmin then
        [[Button(Localized("manage_users_btn", lang), "admin_users_page_0")],
         [Button(Localized("manage_configs_btn", lang), "admin_configs_page_0")],
         [Button(Localized("manage_tutorials_btn", lang), "admin_tutorials_menu")],
         [Button(Localized("mass_send_btn", lang), "mass_send_start")]]
      else
        [[Button(Localized("my_configs_btn", lang), "user_configs")],
         [Button(Localized("help_btn", lang), "user_help")]];
    buttons + [[Button(Localized("settings", lang), "settings")]]
  }

  /** `get_language_choice_keyboard` */
  function LanguageChoiceKeyboard(): Keyboard {
    [[Button(Plain("English \U{1F1EC}\U{1F1E7}"), "set_lang_en")],
     [Button(Plain("Русский \U{1F1F7}\U{1F1FA}"), "set_lang_ru")]]
  }

  /** The language buttons set exactly "en" and "ru". */
  lemma LanguageButtonsSetTheirCode()
    ensures var kb := LanguageChoiceKeyboard();
      |kb| == 2 && LanguageCode(kb[0][0].callback) == "en" && LanguageCode(kb[1][0].callback) == "ru"
  {
    LanguageCodeRoundTrip("en");
    LanguageCodeRoundTrip("ru");
    assert "set_lang_" + "en" == "set_lang_en";
    assert "set_lang_" + "ru" == "set_lang_ru";
  }

  /** `user_management_keyboard` */
  function UserManagementKeyboard(userId: int, lang: string): Keyboard {
    [[Button(Localized("delete_user_btn", lang), WithId("delete_user", userId))],
     [Button(Localized("back_to_list_btn", lang), "admin_users_page_0")]]
  }

  /** `get_confirm_send_keyboard` */
  function ConfirmSendKeyboard(lang: string): Keyboard {
    [[Button(Localized("send_btn", lang), "send_confirmed")],
     [Button(Localized("cancel_btn", lang), "send_cancelled")]]
  }

  /** `get_skip_media_keyboard` */
  function SkipMediaKeyboard(lang: string): Keyboard {
    [[Button(Localized("skip_btn", lang), "skip_media")]]
  }

  function TutorialDeleteRow(db: Db, id: int, lang: string): seq<Button>
    requires id in db.tutorials
  {
    [Button(TutorialDelete(lang, db.tutorials[id].title), WithId("delete_tutorial", id))]
  }

  /** The two rows under the tutorial buttons of the admin list. */
  function TutorialsAdminFooter(lang: string): Keyboard {
    [[Button(Localized("add_tutorial_btn", lang), "add_tutorial")],
     [Button(Localized("back_to_menu", lang), "admin_menu")]]
  }

  /** One delete button per tutorial, in the order given. */
  function TutorialDeleteRows(db: Db, ids: seq<int>, lang: string): Keyboard
    requires forall x :: x in ids ==> x in db.tutorials
  {
    seq(|ids|, k requires 0 <= k < |ids| => TutorialDeleteRow(db, ids[k], lang))
  }

  /** The loop of `get_tutorials_admin_keyboard`. */
  method TutorialDeleteButtons(db: Db, ids: seq<int>, lang: string) returns (rows: Keyboard)
    requires forall x :: x in ids ==> x in db.tutorials
    ensures rows == TutorialDeleteRows(db, ids, lang)
  {
    rows := [];
    var i := 0;
    while i < |ids|
      invariant 0 <= i <= |ids|
      invariant |rows| == i
      invariant forall k :: 0 <= k < i ==> rows[k] == TutorialDeleteRow(db, ids[k], lang)
    {
      rows := rows + [TutorialDeleteRow(db, ids[i], lang)];
      i := i + 1;
    }
  }

  /** `get_tutorials_admin_keyboard`: a delete button per tutorial, in table
      order, then "add tutorial" and "back". */
  method TutorialsAdminKeyboard(db: Db, lang: string) returns (kb: Keyboard)
    ensures kb == TutorialDeleteRows(db, TutorialIds(db), lang) + TutorialsAdminFooter(lang)
  {
    var rows := TutorialDeleteButtons(db, TutorialIds(db), lang);
    kb := rows + TutorialsAdminFooter(lang);
  }

  /** The "back" button of the users' tutorial list speaks Russian for 'ru'
      and English for every other code. */
  function UserBackButton(lang: string): Button {
    Button(Localized("back_to_menu", if lang == "ru" then "ru" else "en"), "user_main_menu")
  }

  function TutorialViewRow(db: Db, id: int): seq<Button>
    requires id in db.tutorials
  {
    [Button(TutorialView(db.tutorials[id].title), WithId("view_tutorial", id))]
  }

  function NoTutorialsRow(lang: string): seq<Button> {
    [Button(Localized("no_tutorials_yet", lang), "no_op")]
  }

  /** One view button per tutorial, in the order given. */
  function TutorialViewRows(db: Db, ids: seq<int>): Keyboard
    requires forall x :: x in ids ==> x in db.tutorials
  {
    seq(|ids|, k requires 0 <= k < |ids| => TutorialViewRow(db, ids[k]))
  }

  /** The tutorial buttons of both lists are read back by their handlers
      as the id of the tutorial they show. */
  lemma TutorialButtonsReadBack(db: Db, ids: seq<int>, lang: string, k: nat)
    requires forall x :: x in ids ==> x in db.tutorials
    requires k < |ids|
    ensures TrailingId(TutorialDeleteRows(db, ids, lang)[k][0].callback) == Some(ids[k])
    ensures TrailingId(TutorialViewRows(db, ids)[k][0].callback) == Some(ids[k])
  {
    TrailingIdRoundTrip("delete_tutorial", ids[k]);
    TrailingIdRoundTrip("view_tutorial", ids[k]);
  }

  /** The loop of `get_tutorials_user_keyboard`. */
  method TutorialViewButtons(db: Db, ids: seq<int>) returns (rows: Keyboard)
    requires forall x :: x in ids ==> x in db.tutorials
    ensures rows == TutorialViewRows(db, ids)
  {
    rows := [];
    var i := 0;
    while i < |ids|
      invariant 0 <= i <= |ids|
      invariant |rows| == i
      invariant forall k :: 0 <= k < i ==> rows[k] == TutorialViewRow(db, ids[k])
    {
      rows := rows + [TutorialViewRow(db, ids[i])];
      i := i + 1;
    }
  }

  /** `get_tutorials_user_keyboard`: with no tutorials, a single
      `no_tutorials_yet` row; otherwise one view button per tutorial, in
      table order; the back row last in both cases. */
  method TutorialsUserKeyboard(db: Db, lang: string) returns (kb: Keyboard)
    ensures TutorialIds(db) == [] ==> kb == [NoTutorialsRow(lang), [UserBackButton(lang)]]
    ensures TutorialIds(db) != [] ==> kb == TutorialViewRows(db, TutorialIds(db)) + [[UserBackButton(lang)]]
  {
    var ids := TutorialIds(db);
    var rows: Keyboard;
    if ids == [] {
      rows := [NoTutorialsRow(lang)];
    } else {
      rows := TutorialViewButtons(db, ids);
    }
    kb := rows + [[UserBackButton(lang)]];
  }
}
