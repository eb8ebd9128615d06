/** main.py's dispatcher: the `/start` handler registered on the
    dispatcher itself runs first; every other update goes to the admin
    router, then the user router, then the settings router, and within a
    router to the first handler, in registration order, whose filters
    match. An update no handler matches is dropped. */
module Dispatcher {
  import opened Wrappers
  import opened PyText
  import opened Store
  import opened Callbacks
  import opened Telegram
  import opened Keyboards
  import opened Sessions
  import opened AdminHandlers
  import opened UserHandlers
  import opened SettingsHandlers
  import opened Startup

  /** The handler a callback query reaches. */
  datatype Route =
    | AdminMenuRoute | UsersListRoute | ManageUserRoute | DeleteUserRoute | AddUserRoute
    | ConfigUsersListRoute | UserConfigsManageRoute | DeleteConfigRoute | AddConfigRoute
    | TutorialsMenuRoute | DeleteTutorialRoute | AddTutorialRoute | SkipMediaRoute
    | MassSendStartRoute | SendCancelledRoute | SendConfirmedRoute
    | BackToMainMenuRoute | UserConfigsRoute | UserHelpRoute | ViewTutorialRoute
    | SettingsRoute | SetLanguageRoute
    | Unhandled

  /** The first of two filter outcomes that matched. */
  function FirstOf(a: Route, b: Route): (r: Route)
    ensures a != Unhandled ==> r == a
    ensures a == Unhandled ==> r == b
  {
    if a != Unhandled then a else b
  }

  /** The callback filters of the admin router's user section, in
      registration order. */
  function UsersSectionRoute(data: string): (r: Route)
    ensures r in {UsersListRoute, ManageUserRoute, DeleteUserRoute, AddUserRoute, Unhandled}
    ensures r == Unhandled <==>
              && !StartsWith(data, "admin_users_page_") && !StartsWith(data, "manage_user_")
              && !StartsWith(data, "delete_user_") && data != "add_user"
  {
    if StartsWith(data, "admin_users_page_") then UsersListRoute
    else if StartsWith(data, "manage_user_") then ManageUserRoute
    else if StartsWith(data, "delete_user_") then DeleteUserRoute
    else if data == "add_user" then AddUserRoute
    else Unhandled
  }

  /** ... of its config section. */
  function ConfigsSectionRoute(data: string): (r: Route)
    ensures r in {ConfigUsersListRoute, UserConfigsManageRoute, DeleteConfigRoute, AddConfigRoute, Unhandled}
    ensures r == Unhandled <==>
              && !StartsWith(data, "admin_configs_page_") && !StartsWith(data, "user_configs_manage_")
              && !StartsWith(data, "delete_config:") && !StartsWith(data, "add_config_")
  {
    if StartsWith(data, "admin_configs_page_") then ConfigUsersListRoute
    else if StartsWith(data, "user_configs_manage_") then UserConfigsManageRoute
    else if StartsWith(data, "delete_config:") then DeleteConfigRoute
    else if StartsWith(data, "add_config_") then AddConfigRoute
    else Unhandled
  }

  /** ... of its tutorial section; "skip media" also needs the state. */
  function TutorialsSectionRoute(data: string, st: Option<AdminState>): (r: Route)
    ensures r in {TutorialsMenuRoute, DeleteTutorialRoute, AddTutorialRoute, SkipMediaRoute, Unhandled}
    ensures r == SkipMediaRoute ==> st == Some(AddTutorialMedia)
    ensures r == Unhandled <==>
              && data != "admin_tutorials_menu" && !StartsWith(data, "delete_tutorial_")
              && data != "add_tutorial" && (data == "skip_media" ==> st != Some(AddTutorialMedia))
  {
    if data == "admin_tutorials_menu" then TutorialsMenuRoute
    else if StartsWith(data, "delete_tutorial_") then DeleteTutorialRoute
    else if data == "add_tutorial" then AddTutorialRoute
    else if data == "skip_media" && st == Some(AddTutorialMedia) then SkipMediaRoute
    else Unhandled
  }

  /** ... of its mass messaging section; the two confirmation buttons also
      need the state. */
  function MassSendSectionRoute(data: string, st: Option<AdminState>): (r: Route)
    ensures r in {MassSendStartRoute, SendCancelledRoute, SendConfirmedRoute, Unhandled}
    ensures r in {SendCancelledRoute, SendConfirmedRoute} ==> st == Some(MassSendConfirm)
    ensures r == Unhandled <==>
              && data != "mass_send_start"
              && (data == "send_cancelled" || data == "send_confirmed" ==> st != Some(MassSendConfirm))
  {
    if data == "mass_send_start" then MassSendStartRoute
    else if data == "send_cancelled" && st == Some(MassSendConfirm) then SendCancelledRoute
    else if data == "send_confirmed" && st == Some(MassSendConfirm) then SendConfirmedRoute
    else Unhandled
  }

  /** The admin router: the main menu handler, then its four sections in
      the order they are registered. */
  function AdminRouterRoute(data: string, st: Option<AdminState>): (r: Route)
    ensures r !in {BackToMainMenuRoute, UserConfigsRoute, UserHelpRoute, ViewTutorialRoute,
                   SettingsRoute, SetLanguageRoute}
    ensures r == Unhandled <==>
              && data != "admin_menu" && UsersSectionRoute(data) == Unhandled
              && ConfigsSectionRoute(data) == Unhandled && TutorialsSectionRoute(data, st) == Unhandled
              && MassSendSectionRoute(data, st) == Unhandled
  {
    if data == "admin_menu" then AdminMenuRoute
    else FirstOf(UsersSectionRoute(data),
         FirstOf(ConfigsSectionRoute(data),
         FirstOf(TutorialsSectionRoute(data, st), MassSendSectionRoute(data, st))))
  }

  /** The user router's callback filters, in registration order. */
  function UserRouterRoute(data: string): (r: Route)
    ensures r in {BackToMainMenuRoute, UserConfigsRoute, UserHelpRoute, ViewTutorialRoute, Unhandled}
    ensures r == Unhandled <==>
              && data != "user_main_menu" && data != "user_configs" && data != "user_help"
              && !StartsWith(data, "view_tutorial_")
  {
    if data == "user_main_menu" then BackToMainMenuRoute
    else if data == "user_configs" then UserConfigsRoute
    else if data == "user_help" then UserHelpRoute
    else if StartsWith(data, "view_tutorial_") then ViewTutorialRoute
    else Unhandled
  }

  /** The settings router's callback filters, in registration order. */
  function SettingsRouterRoute(data: string): (r: Route)
    ensures r in {SettingsRoute, SetLanguageRoute, Unhandled}
    ensures r == Unhandled <==> data != "settings" && !StartsWith(data, "set_lang_")
  {
    if data == "settings" then SettingsRoute
    else if StartsWith(data, "set_lang_") then SetLanguageRoute
    else Unhandled
  }

  /** The handler a callback reaches: the admin router, then the user
      router, then the settings router. */
  function CallbackRoute(data: string, st: Option<AdminState>): (r: Route)
    ensures r in {BackToMainMenuRoute, UserConfigsRoute, UserHelpRoute, ViewTutorialRoute} ==>
              AdminRouterRoute(data, st) == Unhandled && r == UserRouterRoute(data)
    ensures r in {SettingsRoute, SetLanguageRoute} ==>
              AdminRouterRoute(data, st) == Unhandled && UserRouterRoute(data) == Unhandled
    ensures r == SkipMediaRoute ==> st == Some(AddTutorialMedia)
    ensures r in {SendCancelledRoute, SendConfirmedRoute} ==> st == Some(MassSendConfirm)
    ensures r == Unhandled <==>
              && AdminRouterRoute(data, st) == Unhandled && UserRouterRoute(data) == Unhandled
              && SettingsRouterRoute(data) == Unhandled
  {
    FirstOf(AdminRouterRoute(data, st), FirstOf(UserRouterRoute(data), SettingsRouterRoute(data)))
  }

  /** A string that differs from `p` at position i is neither `p` nor
      starts with it. */
  lemma DiffersAt(s: string, p: string, i: nat)
    requires i < |s| && i < |p| && s[i] != p[i]
    ensures !StartsWith(s, p) && s != p
  {
    if |p| <= |s| {
      assert s[..|p|][i] == s[i];
    }
  }

  lemma WithIdHasPrefix(stem: string, n: int)
    ensures StartsWith(WithId(stem, n), stem + "_")
  {
    assert WithId(stem, n)[..|stem| + 1] == stem + "_";
  }

  /** A callback that differs from each filter of the user section at the
      given positions passes the section by. */
  lemma PassesUsersSection(d: string, i0: nat, i1: nat, i2: nat, i3: nat)
    requires i0 < |d| && i0 < 17 && d[i0] != "admin_users_page_"[i0]
    requires i1 < |d| && i1 < 12 && d[i1] != "manage_user_"[i1]
    requires i2 < |d| && i2 < 12 && d[i2] != "delete_user_"[i2]
    requires i3 < |d| && i3 < 8 && d[i3] != "add_user"[i3]
    ensures UsersSectionRoute(d) == Unhandled
  {
    DiffersAt(d, "admin_users_page_", i0);
    DiffersAt(d, "manage_user_", i1);
    DiffersAt(d, "delete_user_", i2);
    DiffersAt(d, "add_user", i3);
  }

  lemma PassesConfigsSection(d: string, i0: nat, i1: nat, i2: nat, i3: nat)
    requires i0 < |d| && i0 < 19 && d[i0] != "admin_configs_page_"[i0]
    requires i1 < |d| && i1 < 20 && d[i1] != "user_configs_manage_"[i1]
    requires i2 < |d| && i2 < 14 && d[i2] != "delete_config:"[i2]
    requires i3 < |d| && i3 < 11 && d[i3] != "add_config_"[i3]
    ensures ConfigsSectionRoute(d) == Unhandled
  {
    DiffersAt(d, "admin_configs_page_", i0);
    DiffersAt(d, "user_configs_manage_", i1);
    DiffersAt(d, "delete_config:", i2);
    DiffersAt(d, "add_config_", i3);
  }

  lemma PassesTutorialsSection(d: string, st: Option<AdminState>, i0: nat, i1: nat, i2: nat, i3: nat)
    requires i0 < |d| && i0 < 20 && d[i0] != "admin_tutorials_menu"[i0]
    requires i1 < |d| && i1 < 16 && d[i1] != "delete_tutorial_"[i1]
    requires i2 < |d| && i2 < 12 && d[i2] != "add_tutorial"[i2]
    requires i3 < |d| && i3 < 10 && d[i3] != "skip_media"[i3]
    ensures TutorialsSectionRoute(d, st) == Unhandled
  {
    DiffersAt(d, "admin_tutorials_menu", i0);
    DiffersAt(d, "delete_tutorial_", i1);
    DiffersAt(d, "add_tutorial", i2);
    DiffersAt(d, "skip_media", i3);
  }

  lemma PassesMassSendSection(d: string, st: Option<AdminState>, i0: nat, i1: nat, i2: nat)
    requires i0 < |d| && i0 < 15 && d[i0] != "mass_send_start"[i0]
    requires i1 < |d| && i1 < 14 && d[i1] != "send_cancelled"[i1]
    requires i2 < |d| && i2 < 14 && d[i2] != "send_confirmed"[i2]
    ensures MassSendSectionRoute(d, st) == Unhandled
  {
    DiffersAt(d, "mass_send_start", i0);
    DiffersAt(d, "send_cancelled", i1);
    DiffersAt(d, "send_confirmed", i2);
  }

  /** Every callback with a prefix of the users section reaches its
      handler, in any state: no earlier filter matches it. */
  lemma UsersPageCallbacksRoute(d: string, st: Option<AdminState>)
    requires StartsWith(d, "admin_users_page_")
    ensures CallbackRoute(d, st) == UsersListRoute
  {
    assert d[6] == 'u';
    DiffersAt(d, "admin_menu", 6);
  }

  lemma ManageUserCallbacksRoute(d: string, st: Option<AdminState>)
    requires StartsWith(d, "manage_user_")
    ensures CallbackRoute(d, st) == ManageUserRoute
  {
    assert d[0] == 'm';
    DiffersAt(d, "admin_menu", 0);
    DiffersAt(d, "admin_users_page_", 0);
  }

  lemma DeleteUserCallbacksRoute(d: string, st: Option<AdminState>)
    requires StartsWith(d, "delete_user_")
    ensures CallbackRoute(d, st) == DeleteUserRoute
  {
    assert d[0] == 'd';
    DiffersAt(d, "admin_menu", 0);
    DiffersAt(d, "admin_users_page_", 0);
    DiffersAt(d, "manage_user_", 0);
  }

  /** ... of the config section. */
  lemma ConfigsPageCallbacksRoute(d: string, st: Option<AdminState>)
    requires StartsWith(d, "admin_configs_page_")
    ensures CallbackRoute(d, st) == ConfigUsersListRoute
  {
    assert d[0] == 'a' && d[2] == 'm' && d[6] == 'c';
    DiffersAt(d, "admin_menu", 6);
    PassesUsersSection(d, 6, 0, 0, 2);
  }

  lemma UserConfigsManageCallbacksRoute(d: string, st: Option<AdminState>)
    requires StartsWith(d, "user_configs_manage_")
    ensures CallbackRoute(d, st) == UserConfigsManageRoute
  {
    assert d[0] == 'u';
    DiffersAt(d, "admin_menu", 0);
    PassesUsersSection(d, 0, 0, 0, 0);
    DiffersAt(d, "admin_configs_page_", 0);
  }

  lemma DeleteConfigCallbacksRoute(d: string, st: Option<AdminState>)
    requires StartsWith(d, "delete_config:")
    ensures CallbackRoute(d, st) == DeleteConfigRoute
  {
    assert d[0] == 'd' && d[7] == 'c';
    DiffersAt(d, "admin_menu", 0);
    PassesUsersSection(d, 0, 0, 7, 0);
    DiffersAt(d, "admin_configs_page_", 0);
    DiffersAt(d, "user_configs_manage_", 0);
  }

  lemma AddConfigCallbacksRoute(d: string, st: Option<AdminState>)
    requires StartsWith(d, "add_config_")
    ensures CallbackRoute(d, st) == AddConfigRoute
  {
    assert d[0] == 'a' && d[2] == 'd' && d[4] == 'c';
    DiffersAt(d, "admin_menu", 2);
    PassesUsersSection(d, 2, 0, 0, 4);
    DiffersAt(d, "admin_configs_page_", 2);
    DiffersAt(d, "user_configs_manage_", 0);
    DiffersAt(d, "delete_config:", 0);
  }

  /** ... of the tutorial section. */
  lemma DeleteTutorialCallbacksRoute(d: string, st: Option<AdminState>)
    requires StartsWith(d, "delete_tutorial_")
    ensures CallbackRoute(d, st) == DeleteTutorialRoute
  {
    assert d[0] == 'd' && d[7] == 't';
    DiffersAt(d, "admin_menu", 0);
    PassesUsersSection(d, 0, 0, 7, 0);
    PassesConfigsSection(d, 0, 0, 7, 0);
    DiffersAt(d, "admin_tutorials_menu", 0);
  }

  /** ... of the user router: they pass the whole admin router by. */
  lemma ViewTutorialCallbacksRoute(d: string, st: Option<AdminState>)
    requires StartsWith(d, "view_tutorial_")
    ensures CallbackRoute(d, st) == ViewTutorialRoute
  {
    assert d[0] == 'v';
    assert AdminRouterRoute(d, st) == Unhandled by {
      DiffersAt(d, "admin_menu", 0);
      PassesUsersSection(d, 0, 0, 0, 0);
      PassesConfigsSection(d, 0, 0, 0, 0);
      PassesTutorialsSection(d, st, 0, 0, 0, 0);
      PassesMassSendSection(d, st, 0, 0, 0);
    }
    DiffersAt(d, "user_main_menu", 0);
    DiffersAt(d, "user_configs", 0);
    DiffersAt(d, "user_help", 0);
  }

  /** ... of the settings router: every `set_lang_` callback, whatever
      follows the prefix, reaches `process_set_language`. */
  lemma SetLanguageCallbacksRoute(d: string, st: Option<AdminState>)
    requires StartsWith(d, "set_lang_")
    ensures CallbackRoute(d, st) == SetLanguageRoute
  {
    assert d[0] == 's' && d[1] == 'e' && d[2] == 't' && d[3] == '_';
    assert AdminRouterRoute(d, st) == Unhandled by {
      DiffersAt(d, "admin_menu", 0);
      PassesUsersSection(d, 0, 0, 0, 0);
      PassesConfigsSection(d, 0, 0, 0, 0);
      PassesTutorialsSection(d, st, 0, 0, 0, 1);
      PassesMassSendSection(d, st, 0, 2, 2);
    }
    assert UserRouterRoute(d) == Unhandled by {
      DiffersAt(d, "user_main_menu", 0);
      DiffersAt(d, "user_configs", 0);
      DiffersAt(d, "user_help", 0);
      DiffersAt(d, "view_tutorial_", 0);
    }
    DiffersAt(d, "settings", 3);
  }

  /** "skip media" acts only in the state that offered it; pressed later
      (an old message's keyboard) it reaches no handler. */
  lemma SkipMediaCallbackRoutes(d: string, st: Option<AdminState>)
    requires d == "skip_media"
    ensures CallbackRoute(d, st) == (if st == Some(AddTutorialMedia) then SkipMediaRoute else Unhandled)
  {
    assert d[0] == 's' && d[1] == 'k';
    DiffersAt(d, "admin_menu", 0);
    PassesUsersSection(d, 0, 0, 0, 0);
    PassesConfigsSection(d, 0, 0, 0, 0);
    DiffersAt(d, "admin_tutorials_menu", 0);
    DiffersAt(d, "delete_tutorial_", 0);
    DiffersAt(d, "add_tutorial", 0);
    PassesMassSendSection(d, st, 0, 1, 1);
    DiffersAt(d, "user_main_menu", 0);
    DiffersAt(d, "user_configs", 0);
    DiffersAt(d, "user_help", 0);
    DiffersAt(d, "view_tutorial_", 0);
    DiffersAt(d, "settings", 1);
    DiffersAt(d, "set_lang_", 1);
  }

  /** Likewise "cancel" and "send" act only while a confirmation is awaited. */
  lemma CancelCallbackRoutes(d: string, st: Option<AdminState>)
    requires d == "send_cancelled"
    ensures CallbackRoute(d, st) == (if st == Some(MassSendConfirm) then SendCancelledRoute else Unhandled)
  {
    assert d[0] == 's' && d[2] == 'n';
    DiffersAt(d, "admin_menu", 0);
    PassesUsersSection(d, 0, 0, 0, 0);
    PassesConfigsSection(d, 0, 0, 0, 0);
    PassesTutorialsSection(d, st, 0, 0, 0, 2);
    DiffersAt(d, "mass_send_start", 0);
    DiffersAt(d, "user_main_menu", 0);
    DiffersAt(d, "user_configs", 0);
    DiffersAt(d, "user_help", 0);
    DiffersAt(d, "view_tutorial_", 0);
    DiffersAt(d, "settings", 2);
    DiffersAt(d, "set_lang_", 2);
  }

  lemma SendCallbackRoutes(d: string, st: Option<AdminState>)
    requires d == "send_confirmed"
    ensures CallbackRoute(d, st) == (if st == Some(MassSendConfirm) then SendConfirmedRoute else Unhandled)
  {
    assert d[0] == 's' && d[2] == 'n' && d[6] == 'o';
    DiffersAt(d, "admin_menu", 0);
    PassesUsersSection(d, 0, 0, 0, 0);
    PassesConfigsSection(d, 0, 0, 0, 0);
    PassesTutorialsSection(d, st, 0, 0, 0, 2);
    DiffersAt(d, "mass_send_start", 0);
    DiffersAt(d, "send_cancelled", 6);
    DiffersAt(d, "user_main_menu", 0);
    DiffersAt(d, "user_configs", 0);
    DiffersAt(d, "user_help", 0);
    DiffersAt(d, "view_tutorial_", 0);
    DiffersAt(d, "settings", 2);
    DiffersAt(d, "set_lang_", 2);
  }

  /** The "no tutorials yet" placeholder has no handler: no filter of any
      router starts with its first letter. */
  lemma NoOpCallbackIsUnhandled(d: string, st: Option<AdminState>)
    requires d == "no_op"
    ensures CallbackRoute(d, st) == Unhandled
  {
    assert d[0] == 'n';
    DiffersAt(d, "admin_menu", 0);
    PassesUsersSection(d, 0, 0, 0, 0);
    PassesConfigsSection(d, 0, 0, 0, 0);
    PassesTutorialsSection(d, st, 0, 0, 0, 0);
    PassesMassSendSection(d, st, 0, 0, 0);
    DiffersAt(d, "user_main_menu", 0);
    DiffersAt(d, "user_configs", 0);
    DiffersAt(d, "user_help", 0);
    DiffersAt(d, "view_tutorial_", 0);
    DiffersAt(d, "settings", 0);
    DiffersAt(d, "set_lang_", 0);
  }

  /** The main menu's fixed callbacks reach their sections in any state. */
  lemma TutorialsMenuCallbackRoute(d: string, st: Option<AdminState>)
    requires d == "admin_tutorials_menu"
    ensures CallbackRoute(d, st) == TutorialsMenuRoute
  {
    assert d[0] == 'a' && d[2] == 'm' && d[6] == 't';
    DiffersAt(d, "admin_menu", 6);
    PassesUsersSection(d, 6, 0, 0, 2);
    PassesConfigsSection(d, 6, 0, 0, 2);
  }

  lemma MassSendStartCallbackRoute(d: string, st: Option<AdminState>)
    requires d == "mass_send_start"
    ensures CallbackRoute(d, st) == MassSendStartRoute
  {
    assert d[0] == 'm' && d[2] == 's';
    DiffersAt(d, "admin_menu", 0);
    PassesUsersSection(d, 0, 2, 0, 0);
    PassesConfigsSection(d, 0, 0, 0, 0);
    PassesTutorialsSection(d, st, 0, 0, 0, 0);
  }

  lemma UserConfigsCallbackRoute(d: string, st: Option<AdminState>)
    requires d == "user_configs"
    ensures CallbackRoute(d, st) == UserConfigsRoute
  {
    assert |d| == 12 && d[0] == 'u' && d[5] == 'c';
    assert AdminRouterRoute(d, st) == Unhandled by {
      DiffersAt(d, "admin_menu", 0);
      PassesUsersSection(d, 0, 0, 0, 0);
      DiffersAt(d, "admin_configs_page_", 0);
      DiffersAt(d, "delete_config:", 0);
      DiffersAt(d, "add_config_", 0);
      PassesTutorialsSection(d, st, 0, 0, 0, 0);
      PassesMassSendSection(d, st, 0, 0, 0);
    }
    DiffersAt(d, "user_main_menu", 5);
  }

  lemma UserHelpCallbackRoute(d: string, st: Option<AdminState>)
    requires d == "user_help"
    ensures CallbackRoute(d, st) == UserHelpRoute
  {
    assert d[0] == 'u' && d[5] == 'h';
    assert AdminRouterRoute(d, st) == Unhandled by {
      DiffersAt(d, "admin_menu", 0);
      PassesUsersSection(d, 0, 0, 0, 0);
      PassesConfigsSection(d, 0, 5, 0, 0);
      PassesTutorialsSection(d, st, 0, 0, 0, 0);
      PassesMassSendSection(d, st, 0, 0, 0);
    }
    DiffersAt(d, "user_main_menu", 5);
    DiffersAt(d, "user_configs", 5);
  }

  lemma SettingsCallbackRoute(d: string, st: Option<AdminState>)
    requires d == "settings"
    ensures CallbackRoute(d, st) == SettingsRoute
  {
    assert d[0] == 's' && d[1] == 'e' && d[2] == 't';
    assert AdminRouterRoute(d, st) == Unhandled by {
      DiffersAt(d, "admin_menu", 0);
      PassesUsersSection(d, 0, 0, 0, 0);
      PassesConfigsSection(d, 0, 0, 0, 0);
      PassesTutorialsSection(d, st, 0, 0, 0, 1);
      PassesMassSendSection(d, st, 0, 2, 2);
    }
    assert UserRouterRoute(d) == Unhandled by {
      DiffersAt(d, "user_main_menu", 0);
      DiffersAt(d, "user_configs", 0);
      DiffersAt(d, "user_help", 0);
      DiffersAt(d, "view_tutorial_", 0);
    }
  }

  /** The buttons the keyboards build reach the handler that reads them
      back. */
  lemma UsersPageButtonRoutes(n: int, st: Option<AdminState>)
    ensures CallbackRoute(WithId("admin_users_page", n), st) == UsersListRoute
  {
    WithIdHasPrefix("admin_users_page", n);
    UsersPageCallbacksRoute(WithId("admin_users_page", n), st);
  }

  lemma ManageUserButtonRoutes(n: int, st: Option<AdminState>)
    ensures CallbackRoute(WithId("manage_user", n), st) == ManageUserRoute
  {
    WithIdHasPrefix("manage_user", n);
    ManageUserCallbacksRoute(WithId("manage_user", n), st);
  }

  lemma DeleteUserButtonRoutes(userId: int, lang: string, st: Option<AdminState>)
    ensures CallbackRoute(UserManagementKeyboard(userId, lang)[0][0].callback, st) == DeleteUserRoute
  {
    WithIdHasPrefix("delete_user", userId);
    DeleteUserCallbacksRoute(WithId("delete_user", userId), st);
  }

  lemma ConfigsPageButtonRoutes(n: int, st: Option<AdminState>)
    ensures CallbackRoute(WithId("admin_configs_page", n), st) == ConfigUsersListRoute
  {
    WithIdHasPrefix("admin_configs_page", n);
    ConfigsPageCallbacksRoute(WithId("admin_configs_page", n), st);
  }

  lemma UserConfigsManageButtonRoutes(n: int, st: Option<AdminState>)
    ensures CallbackRoute(WithId("user_configs_manage", n), st) == UserConfigsManageRoute
  {
    WithIdHasPrefix("user_configs_manage", n);
    UserConfigsManageCallbacksRoute(WithId("user_configs_manage", n), st);
  }

  lemma DeleteConfigButtonRoutes(configId: int, userId: int, st: Option<AdminState>)
    ensures CallbackRoute(DeleteConfigData(configId, userId), st) == DeleteConfigRoute
  {
    var d := DeleteConfigData(configId, userId);
    assert d[..14] == "delete_config:";
    DeleteConfigCallbacksRoute(d, st);
  }

  lemma AddConfigButtonRoutes(n: int, st: Option<AdminState>)
    ensures CallbackRoute(WithId("add_config", n), st) == AddConfigRoute
  {
    WithIdHasPrefix("add_config", n);
    AddConfigCallbacksRoute(WithId("add_config", n), st);
  }

  lemma DeleteTutorialButtonRoutes(db: Db, id: int, lang: string, st: Option<AdminState>)
    requires id in db.tutorials
    ensures CallbackRoute(TutorialDeleteRow(db, id, lang)[0].callback, st) == DeleteTutorialRoute
  {
    WithIdHasPrefix("delete_tutorial", id);
    DeleteTutorialCallbacksRoute(WithId("delete_tutorial", id), st);
  }

  lemma ViewTutorialButtonRoutes(db: Db, id: int, st: Option<AdminState>)
    requires id in db.tutorials
    ensures CallbackRoute(TutorialViewRow(db, id)[0].callback, st) == ViewTutorialRoute
  {
    WithIdHasPrefix("view_tutorial", id);
    ViewTutorialCallbacksRoute(WithId("view_tutorial", id), st);
  }

  lemma SetLanguageButtonsRoute(st: Option<AdminState>)
    ensures var kb := LanguageChoiceKeyboard();
      && |kb| == 2
      && CallbackRoute(kb[0][0].callback, st) == SetLanguageRoute
      && CallbackRoute(kb[1][0].callback, st) == SetLanguageRoute
  {
    var kb: Keyboard := LanguageChoiceKeyboard();
    assert kb[0][0].callback == "set_lang_" + "en";
    assert kb[1][0].callback == "set_lang_" + "ru";
    SetLanguageCallbacksRoute("set_lang_" + "en", st);
    SetLanguageCallbacksRoute("set_lang_" + "ru", st);
  }

  lemma SkipMediaButtonRoutes(lang: string, st: Option<AdminState>)
    ensures CallbackRoute(SkipMediaKeyboard(lang)[0][0].callback, st)
            == (if st == Some(AddTutorialMedia) then SkipMediaRoute else Unhandled)
  {
    SkipMediaCallbackRoutes("skip_media", st);
  }

  lemma ConfirmButtonsRoute(lang: string, st: Option<AdminState>)
    ensures CallbackRoute(ConfirmSendKeyboard(lang)[0][0].callback, st)
            == (if st == Some(MassSendConfirm) then SendConfirmedRoute else Unhandled)
    ensures CallbackRoute(ConfirmSendKeyboard(lang)[1][0].callback, st)
            == (if st == Some(MassSendConfirm) then SendCancelledRoute else Unhandled)
  {
    SendCallbackRoutes("send_confirmed", st);
    CancelCallbackRoutes("send_cancelled", st);
  }

  lemma NoOpButtonIsUnhandled(lang: string, st: Option<AdminState>)
    ensures CallbackRoute(NoTutorialsRow(lang)[0].callback, st) == Unhandled
  {
    NoOpCallbackIsUnhandled("no_op", st);
  }

  /** The admin menu's four section buttons open the four admin sections,
      in any state. */
  lemma AdminMenuButtonsRoute(lang: string, st: Option<AdminState>)
    ensures var kb := MainKeyboard(true, lang);
      && CallbackRoute(kb[0][0].callback, st) == UsersListRoute
      && CallbackRoute(kb[1][0].callback, st) == ConfigUsersListRoute
      && CallbackRoute(kb[2][0].callback, st) == TutorialsMenuRoute
      && CallbackRoute(kb[3][0].callback, st) == MassSendStartRoute
  {
    var kb: Keyboard := MainKeyboard(true, lang);
    assert StartsWith(kb[0][0].callback, "admin_users_page_");
    UsersPageCallbacksRoute(kb[0][0].callback, st);
    assert StartsWith(kb[1][0].callback, "admin_configs_page_");
    ConfigsPageCallbacksRoute(kb[1][0].callback, st);
    TutorialsMenuCallbackRoute(kb[2][0].callback, st);
    MassSendStartCallbackRoute(kb[3][0].callback, st);
  }

  /** The user menu's buttons open the user's configs and the tutorial
      list, in any state. */
  lemma UserMenuButtonsRoute(lang: string, st: Option<AdminState>)
    ensures var kb := MainKeyboard(false, lang);
      && CallbackRoute(kb[0][0].callback, st) == UserConfigsRoute
      && CallbackRoute(kb[1][0].callback, st) == UserHelpRoute
  {
    var kb: Keyboard := MainKeyboard(false, lang);
    UserConfigsCallbackRoute(kb[0][0].callback, st);
    UserHelpCallbackRoute(kb[1][0].callback, st);
  }

  /** Every main menu button reaches the section it names, in any state:
      the admin menu opens the four admin sections, the user menu the
      user's configs and the tutorial list, and both end with settings. */
  lemma MainMenuButtonsRoute(isAdmin: bool, lang: string, st: Option<AdminState>)
    ensures var kb := MainKeyboard(isAdmin, lang);
      && CallbackRoute(kb[|kb| - 1][0].callback, st) == SettingsRoute
      && (isAdmin ==>
            && CallbackRoute(kb[0][0].callback, st) == UsersListRoute
            && CallbackRoute(kb[1][0].callback, st) == ConfigUsersListRoute
            && CallbackRoute(kb[2][0].callback, st) == TutorialsMenuRoute
            && CallbackRoute(kb[3][0].callback, st) == MassSendStartRoute)
      && (!isAdmin ==>
            && CallbackRoute(kb[0][0].callback, st) == UserConfigsRoute
            && CallbackRoute(kb[1][0].callback, st) == UserHelpRoute)
  {
    var kb: Keyboard := MainKeyboard(isAdmin, lang);
    SettingsCallbackRoute(kb[|kb| - 1][0].callback, st);
    if isAdmin {
      AdminMenuButtonsRoute(lang, st);
    } else {
      UserMenuButtonsRoute(lang, st);
    }
  }

  /** The user card offers the deletion of the user it shows: its first
      button reaches the delete handler, which reads back the same id, and
      its second leads back to page 0 of the users. */
  lemma UserCardOffersDelete(db: Db, actor: int, data: string, st: Option<AdminState>)
    requires TrailingId(data).Some?
    ensures var id := TrailingId(data).value;
            var outs := ProcessManageUser(db, actor, data);
            var kb := UserManagementKeyboard(id, LanguageOf(db, actor));
      && |outs| == 1 && outs[0].UserCard? && outs[0].userId == id
      && outs[0].markup == UserManagement(id, LanguageOf(db, actor))
      && CallbackRoute(kb[0][0].callback, st) == DeleteUserRoute
      && TrailingId(kb[0][0].callback) == Some(id)
      && CallbackRoute(kb[1][0].callback, st) == UsersListRoute
  {
    var id := TrailingId(data).value;
    DeleteUserButtonRoutes(id, LanguageOf(db, actor), st);
    TrailingIdRoundTrip("delete_user", id);
    assert StartsWith("admin_users_page_0", "admin_users_page_");
    UsersPageCallbacksRoute("admin_users_page_0", st);
  }

  /** `Command("start")`: the first word of the text, after any leading
      whitespace, is "/start"; an argument may follow after whitespace. */
  function IsStartCommand(m: Message): (b: bool)
    ensures b ==> m.TextMessage? && StartsWith(TrimStart(m.text), "/start")
    ensures m.TextMessage? && StartsWith(m.text, "/start") && (|m.text| == 6 || IsSpace(m.text[6])) ==> b
  {
    match m
    case TextMessage(text) =>
      StartOpensText(text);
      FirstWord(text) == Some("/start")
    case _ => false
  }

  /** A text that opens with the word "/start" has it first. */
  lemma StartOpensText(text: string)
    ensures StartsWith(text, "/start") && (|text| == 6 || IsSpace(text[6])) ==> FirstWord(text) == Some("/start")
  {
    if StartsWith(text, "/start") && (|text| == 6 || IsSpace(text[6])) {
      assert forall i :: 0 <= i < |"/start"| ==> !IsSpace("/start"[i]);
      FirstWordOfPrefix(text, "/start");
    }
  }

  /** "/start" alone or with an argument is the command. */
  lemma StartCommandAccepted()
    ensures IsStartCommand(TextMessage("/start"))
    ensures IsStartCommand(TextMessage("/start promo"))
  {
    assert StartsWith("/start", "/start");
    assert StartsWith("/start promo", "/start") && IsSpace("/start promo"[6]);
  }

  /** A longer word is not the command. */
  lemma LongerWordIsNotStart()
    ensures !IsStartCommand(TextMessage("/starting"))
  {
    FirstWordOfPrefix("/starting", "/starting");
  }

  /** Nor is a blank text. */
  lemma BlankIsNotStart()
    ensures !IsStartCommand(TextMessage(" \t"))
  {
    assert IsSpace(" \t"[0]) && IsSpace(" \t"[1]);
  }

  /** Only the actor's FSM entry may differ between the two storages. */
  ghost predicate OthersUnchanged(before: map<int, Session>, after: map<int, Session>, actor: int) {
    forall a :: a != actor ==> SessionOf(after, a) == SessionOf(before, a)
  }

  /** The states whose message handler does not take `m`: no workflow,
      a content filter `m` fails, or the confirmation, which only the two
      buttons answer. */
  predicate IgnoresMessage(st: Option<AdminState>, m: Message) {
    || st.None?
    || (st == Some(AddConfigData) && !IsTextOrDocument(m))
    || (st == Some(AddTutorialMedia) && !IsPhotoOrVideo(m))
    || st == Some(MassSendConfirm)
  }

  /** What the message handler of the actor's state does with `m`: the
      database after it, the FSM storage after it and what it sends, in
      terms of the state before. */
  ghost predicate StepEffect(m: Message, actor: int, db0: Db, fsm0: map<int, Session>,
                             db1: Db, fsm1: map<int, Session>, outs: seq<Out>)
  {
    var lang := LanguageOf(db0, actor);
    var s0 := SessionOf(fsm0, actor);
    match s0.state
    case None => db1 == db0 && fsm1 == fsm0 && outs == []
    case Some(AddUserId) =>
      var parsed := IdOfText(m);
      && (parsed.None? ==>
            db1 == db0 && fsm1 == fsm0 && outs == [Show("invalid_id_format", lang, NoMarkup)])
      && (parsed.Some? ==>
            && fsm1 == fsm0 - {actor}
            && (parsed.value in db0.users ==>
                  db1 == db0
                  && outs == [Show("user_already_exists", lang, NoMarkup), Show("users_list", lang, UsersPage(0, lang))])
            && (parsed.value !in db0.users ==>
                  db1 == InsertUser(db0, parsed.value, User(None, false, DefaultLanguage))
                  && outs == [Show("user_added_ok", lang, NoMarkup), Show("users_list", lang, UsersPage(0, lang))]))
    case Some(AddConfigType) =>
      && db1 == db0
      && fsm1 == fsm0[actor := SetState(UpdateData(s0, ConfigType, TextValue(m.MessageText())), AddConfigData)]
      && outs == [Show("add_config_step2", lang, NoMarkup)]
    case Some(AddConfigData) =>
      if !IsTextOrDocument(m) then db1 == db0 && fsm1 == fsm0 && outs == []
      else
        && Valid(db0) && WellFormed(s0)
        && db1 == InsertConfig(db0, NewConfig(s0, m))
        && fsm1 == fsm0 - {actor}
        && outs == [Show("config_added_ok", lang, NoMarkup)] + ConfigsScreen(db1, NewConfig(s0, m).owner, lang)
    case Some(AddTutorialTitle) =>
      && db1 == db0
      && fsm1 == fsm0[actor := SetState(UpdateData(s0, Title, TextValue(m.MessageText())), AddTutorialText)]
      && outs == [Show("add_tutorial_step2", lang, NoMarkup)]
    case Some(AddTutorialText) =>
      && db1 == db0
      && fsm1 == fsm0[actor := SetState(UpdateData(s0, Body, TextValue(m.MessageText())), AddTutorialMedia)]
      && outs == [Show("add_tutorial_step3", lang, SkipMedia(lang))]
    case Some(AddTutorialMedia) =>
      if !IsPhotoOrVideo(m) then db1 == db0 && fsm1 == fsm0 && outs == []
      else
        && Valid(db0) && WellFormed(s0)
        && db1 == InsertTutorial(db0, NewTutorial(s0, Some(MediaFileId(m))))
        && fsm1 == fsm0 - {actor}
        && outs == [Show("tutorial_added_ok_with_media", lang, NoMarkup), Show("tutorials_menu_title", lang, TutorialsAdmin(lang))]
    case Some(MassSendMessage) =>
      && db1 == db0
      && fsm1 == fsm0[actor := SetState(UpdateData(s0, MessageToSend, MessageValue(m)), MassSendConfirm)]
      && outs == [Show("mass_send_confirm_message", lang, ConfirmSend(lang))]
    case Some(MassSendConfirm) => db1 == db0 && fsm1 == fsm0 && outs == []
  }

  /** What the handler `route` names does with callback `data`: the
      database after it, the FSM storage after it and what it sends, in
      terms of the state before. */
  ghost predicate CallbackEffect(route: Route, actor: int, data: string, ok: nat -> bool, photoAccepted: bool,
      db0: Db, fsm0: map<int, Session>, db1: Db, fsm1: map<int, Session>, outs: seq<Out>)
  {
    if route in {AdminMenuRoute, UsersListRoute, ManageUserRoute, DeleteUserRoute, AddUserRoute} then
      UsersSectionEffect(route, actor, data, ok, photoAccepted, db0, fsm0, db1, fsm1, outs)
    else if route in {ConfigUsersListRoute, UserConfigsManageRoute, DeleteConfigRoute, AddConfigRoute} then
      ConfigsSectionEffect(route, actor, data, ok, photoAccepted, db0, fsm0, db1, fsm1, outs)
    else if route in {TutorialsMenuRoute, DeleteTutorialRoute, AddTutorialRoute, SkipMediaRoute} then
      TutorialsSectionEffect(route, actor, data, ok, photoAccepted, db0, fsm0, db1, fsm1, outs)
    else if route in {MassSendStartRoute, SendCancelledRoute, SendConfirmedRoute} then
      MassSendSectionEffect(route, actor, data, ok, photoAccepted, db0, fsm0, db1, fsm1, outs)
    else
      OtherRoutersEffect(route, actor, data, ok, photoAccepted, db0, fsm0, db1, fsm1, outs)
  }

  /** `CallbackEffect` for the admin menu and the user section. */
  ghost predicate UsersSectionEffect(route: Route, actor: int, data: string, ok: nat -> bool, photoAccepted: bool,
      db0: Db, fsm0: map<int, Session>, db1: Db, fsm1: map<int, Session>, outs: seq<Out>)
  {
    var lang := LanguageOf(db0, actor);
    var s0 := SessionOf(fsm0, actor);
    var id := TrailingId(data);
    match route
    case AdminMenuRoute =>
      db1 == db0 && fsm1 == fsm0 - {actor} && outs == [Show("welcome_admin", lang, MainMenu(true, lang))]
    case UsersListRoute => db1 == db0 && fsm1 == fsm0 && outs == ProcessUsersList(db0, actor, data)
    case ManageUserRoute => db1 == db0 && fsm1 == fsm0 && outs == ProcessManageUser(db0, actor, data)
    case DeleteUserRoute =>
      && fsm1 == fsm0
      && (id.None? ==> db1 == db0 && outs == [])
      && (id.Some? ==>
            db1 == DeleteUser(db0, id.value)
            && outs == [Alert("user_deleted_ok", lang), Show("users_list", lang, UsersPage(0, lang))])
    case AddUserRoute =>
      && db1 == db0 && fsm1 == fsm0[actor := SetState(s0, AddUserId)]
      && outs == [Show("ask_for_user_id", lang, NoMarkup)]
    case _ => false
  }

  /** `CallbackEffect` for the config section. */
  ghost predicate ConfigsSectionEffect(route: Route, actor: int, data: string, ok: nat -> bool, photoAccepted: bool,
      db0: Db, fsm0: map<int, Session>, db1: Db, fsm1: map<int, Session>, outs: seq<Out>)
  {
    var lang := LanguageOf(db0, actor);
    var s0 := SessionOf(fsm0, actor);
    var id := TrailingId(data);
    match route
    case ConfigUsersListRoute =>
      db1 == db0 && fsm1 == fsm0 && outs == ProcessConfigUsersList(db0, actor, data)
    case UserConfigsManageRoute =>
      db1 == db0 && fsm1 == fsm0 && outs == ProcessUserConfigsManage(db0, actor, data)
    case DeleteConfigRoute =>
      var ids := DeleteConfigIds(data);
      && fsm1 == fsm0
      && (ids.None? ==> db1 == db0 && outs == [])
      && (ids.Some? ==>
            db1 == DeleteConfig(db0, ids.value.0)
            && outs == [Alert("config_deleted_ok", lang)] + ConfigsScreen(db1, ids.value.1, lang))
    case AddConfigRoute =>
      && db1 == db0
      && (id.None? ==> fsm1 == fsm0 && outs == [])
      && (id.Some? ==>
            fsm1 == fsm0[actor := SetState(UpdateData(s0, CurrentUserId, IdValue(id.value)), AddConfigType)]
            && outs == [Show("add_config_step1", lang, NoMarkup)])
    case _ => false
  }

  /** `CallbackEffect` for the tutorial section. */
  ghost predicate TutorialsSectionEffect(route: Route, actor: int, data: string, ok: nat -> bool, photoAccepted: bool,
      db0: Db, fsm0: map<int, Session>, db1: Db, fsm1: map<int, Session>, outs: seq<Out>)
  {
    var lang := LanguageOf(db0, actor);
    var s0 := SessionOf(fsm0, actor);
    var id := TrailingId(data);
    match route
    case TutorialsMenuRoute => db1 == db0 && fsm1 == fsm0 && outs == ProcessTutorialsMenu(db0, actor)
    case DeleteTutorialRoute =>
      && fsm1 == fsm0
      && (id.None? ==> db1 == db0 && outs == [])
      && (id.Some? ==>
            db1 == DeleteTutorial(db0, id.value)
            && outs == [Alert("tutorial_deleted_ok", lang), Show("tutorials_menu_title", lang, TutorialsAdmin(lang))])
    case AddTutorialRoute =>
      && db1 == db0 && fsm1 == fsm0[actor := SetState(s0, AddTutorialTitle)]
      && outs == [Show("add_tutorial_step1", lang, NoMarkup)]
    case SkipMediaRoute =>
      && Valid(db0) && WellFormed(s0) && s0.state == Some(AddTutorialMedia)
      && db1 == InsertTutorial(db0, NewTutorial(s0, None))
      && fsm1 == fsm0 - {actor}
      && outs == [Show("tutorial_added_ok_no_media", lang, NoMarkup), Show("tutorials_menu_title", lang, TutorialsAdmin(lang))]
    case _ => false
  }

  /** `CallbackEffect` for the mass messaging section. */
  ghost predicate MassSendSectionEffect(route: Route, actor: int, data: string, ok: nat -> bool, photoAccepted: bool,
      db0: Db, fsm0: map<int, Session>, db1: Db, fsm1: map<int, Session>, outs: seq<Out>)
  {
    var lang := LanguageOf(db0, actor);
    var s0 := SessionOf(fsm0, actor);
    match route
    case MassSendStartRoute =>
      && db1 == db0 && fsm1 == fsm0[actor := SetState(s0, MassSendMessage)]
      && outs == [Show("mass_send_ask_message", lang, NoMarkup)]
    case SendCancelledRoute =>
      db1 == db0 && fsm1 == fsm0 - {actor} && outs == [Show("mass_send_cancelled", lang, MainMenu(true, lang))]
    case SendConfirmedRoute =>
      && WellFormed(s0) && s0.state == Some(MassSendConfirm)
      && db1 == db0 && fsm1 == fsm0 - {actor}
      && (var recipients := NonAdminIds(db0);
          var delivered := Delivered(recipients, ok);
          outs == [Show("mass_send_started", lang, NoMarkup)]
                  + Copies(s0.data[MessageToSend].message, delivered)
                  + [Report(lang, |delivered|, |recipients| - |delivered|, MainMenu(true, lang))])
    case _ => false
  }

  /** `CallbackEffect` for the user and settings routers, and no handler at all. */
  ghost predicate OtherRoutersEffect(route: Route, actor: int, data: string, ok: nat -> bool, photoAccepted: bool,
      db0: Db, fsm0: map<int, Session>, db1: Db, fsm1: map<int, Session>, outs: seq<Out>)
  {
    match route
    case BackToMainMenuRoute => db1 == db0 && fsm1 == fsm0 && outs == ProcessBackToMainMenu(db0, actor)
    case UserConfigsRoute => db1 == db0 && fsm1 == fsm0 && ShowsOwnConfigs(db0, actor, outs)
    case UserHelpRoute => db1 == db0 && fsm1 == fsm0 && outs == ProcessUserHelp(db0, actor)
    case ViewTutorialRoute =>
      db1 == db0 && fsm1 == fsm0 && outs == ProcessViewTutorial(db0, actor, data, photoAccepted)
    case SettingsRoute => db1 == db0 && fsm1 == fsm0 && outs == ProcessSettings(db0, actor)
    case SetLanguageRoute =>
      && fsm1 == fsm0
      && (actor !in db0.users ==> db1 == db0 && outs == [])
      && (actor in db0.users ==>
            var code := LanguageCode(data);
            var isAdmin := db0.users[actor].isAdmin;
            db1 == SetLanguage(db0, actor, code)
            && outs == [Show("language_changed", code, NoMarkup),
                        Show(if isAdmin then "welcome_admin" else "welcome", code, MainMenu(isAdmin, code))])
    case Unhandled => db1 == db0 && fsm1 == fsm0 && outs == []
    case _ => false
  }

  /** The states whose messages `HandleUserOrConfigStep` takes. */
  predicate IsUserOrConfigStep(st: Option<AdminState>) {
    st == Some(AddUserId) || st == Some(AddConfigType) || st == Some(AddConfigData)
  }

  /** The message handlers of the user and config workflows. */
  method HandleUserOrConfigStep(b: BotState, actor: int, m: Message) returns (outs: seq<Out>)
    requires b.Valid() && IsUserOrConfigStep(b.StateOf(actor))
    modifies b
    ensures b.Valid()
    ensures OthersUnchanged(old(b.fsm), b.fsm, actor)
    ensures IgnoresMessage(old(b.StateOf(actor)), m) ==>
              b.db == old(b.db) && b.fsm == old(b.fsm) && outs == []
    ensures StepEffect(m, actor, old(b.db), old(b.fsm), b.db, b.fsm, outs)
  {
    var st := b.StateOf(actor);
    if st == Some(AddUserId) {
      outs := ProcessAddUserId(b, actor, m);
    } else if st == Some(AddConfigType) {
      outs := ProcessAddConfigType(b, actor, m);
    } else if st == Some(AddConfigData) && IsTextOrDocument(m) {
      outs := ProcessAddConfigData(b, actor, m);
    } else {
      outs := [];
    }
  }

  predicate IsTutorialStep(st: Option<AdminState>) {
    st == Some(AddTutorialTitle) || st == Some(AddTutorialText) || st == Some(AddTutorialMedia)
  }

  /** The message handlers of the tutorial workflow. */
  method HandleTutorialStep(b: BotState, actor: int, m: Message) returns (outs: seq<Out>)
    requires b.Valid() && IsTutorialStep(b.StateOf(actor))
    modifies b
    ensures b.Valid()
    ensures OthersUnchanged(old(b.fsm), b.fsm, actor)
    ensures IgnoresMessage(old(b.StateOf(actor)), m) ==>
              b.db == old(b.db) && b.fsm == old(b.fsm) && outs == []
    ensures StepEffect(m, actor, old(b.db), old(b.fsm), b.db, b.fsm, outs)
  {
    var st := b.StateOf(actor);
    if st == Some(AddTutorialTitle) {
      outs := ProcessAddTutorialTitle(b, actor, m);
    } else if st == Some(AddTutorialText) {
      outs := ProcessAddTutorialText(b, actor, m);
    } else if IsPhotoOrVideo(m) {
      outs := ProcessAddTutorialMedia(b, actor, m);
    } else {
      outs := [];
    }
  }

  /** The mass messaging workflow's message handler, and no workflow at all. */
  method HandleMassSendStep(b: BotState, actor: int, m: Message) returns (outs: seq<Out>)
    requires b.Valid() && !IsUserOrConfigStep(b.StateOf(actor)) && !IsTutorialStep(b.StateOf(actor))
    modifies b
    ensures b.Valid()
    ensures OthersUnchanged(old(b.fsm), b.fsm, actor)
    ensures IgnoresMessage(old(b.StateOf(actor)), m) ==>
              b.db == old(b.db) && b.fsm == old(b.fsm) && outs == []
    ensures StepEffect(m, actor, old(b.db), old(b.fsm), b.db, b.fsm, outs)
  {
    if b.StateOf(actor) == Some(MassSendMessage) {
      outs := ProcessMassSendMessage(b, actor, m);
    } else {
      outs := [];
    }
  }

  /** A message update: `/start` first, then the message handler of the
      actor's state, if its content filter lets the message through. */
  method DispatchMessage(b: BotState, actor: int, username: Option<string>, m: Message, adminIds: seq<int>)
    returns (outs: seq<Out>)
    requires b.Valid()
    modifies b
    ensures b.Valid()
    ensures OthersUnchanged(old(b.fsm), b.fsm, actor)
    // /start greets, registering an unknown actor, and never touches a workflow in progress
    ensures IsStartCommand(m) ==>
              var r := SendWelcome(old(b.db), actor, username, adminIds);
              b.db == r.db && b.fsm == old(b.fsm) && outs == r.outs
    // any other message goes to the handler of the actor's state
    ensures !IsStartCommand(m) ==> StepEffect(m, actor, old(b.db), old(b.fsm), b.db, b.fsm, outs)
    // a message from an actor outside any workflow is stray: dropped
    ensures !IsStartCommand(m) && old(b.StateOf(actor)).None? ==>
              b.db == old(b.db) && b.fsm == old(b.fsm) && outs == []
    // steps with a content filter drop every other kind of message
    ensures !IsStartCommand(m) && old(b.StateOf(actor)) == Some(AddConfigData) && !IsTextOrDocument(m) ==>
              b.db == old(b.db) && b.fsm == old(b.fsm) && outs == []
    ensures !IsStartCommand(m) && old(b.StateOf(actor)) == Some(AddTutorialMedia) && !IsPhotoOrVideo(m) ==>
              b.db == old(b.db) && b.fsm == old(b.fsm) && outs == []
    // while waiting for the confirmation only the two buttons act
    ensures !IsStartCommand(m) && old(b.StateOf(actor)) == Some(MassSendConfirm) ==>
              b.db == old(b.db) && b.fsm == old(b.fsm) && outs == []
  {
    var st := b.StateOf(actor);
    if IsStartCommand(m) {
      var r := SendWelcome(b.db, actor, username, adminIds);
      b.db := r.db;
      outs := r.outs;
    } else if IsUserOrConfigStep(st) {
      outs := HandleUserOrConfigStep(b, actor, m);
    } else if IsTutorialStep(st) {
      outs := HandleTutorialStep(b, actor, m);
    } else {
      outs := HandleMassSendStep(b, actor, m);
    }
  }

  /** The admin router's main menu handler and its user section. */
  method HandleUsersSection(b: BotState, actor: int, data: string, route: Route, ok: nat -> bool, photoAccepted: bool)
    returns (outs: seq<Out>)
    requires b.Valid()
    requires route in {AdminMenuRoute, UsersListRoute, ManageUserRoute, DeleteUserRoute, AddUserRoute}
    modifies b
    ensures b.Valid()
    ensures OthersUnchanged(old(b.fsm), b.fsm, actor)
    ensures UsersSectionEffect(route, actor, data, ok, photoAccepted, old(b.db), old(b.fsm), b.db, b.fsm, outs)
  {
    match route
    case AdminMenuRoute => outs := ProcessAdminMenu(b, actor);
    case UsersListRoute => outs := ProcessUsersList(b.db, actor, data);
    case ManageUserRoute => outs := ProcessManageUser(b.db, actor, data);
    case DeleteUserRoute => outs := ProcessDeleteUser(b, actor, data);
    case AddUserRoute => outs := ProcessAddUserStart(b, actor);
    case _ => assert false;
  }

  /** The admin router's config section. */
  method HandleConfigsSection(b: BotState, actor: int, data: string, route: Route, ok: nat -> bool, photoAccepted: bool)
    returns (outs: seq<Out>)
    requires b.Valid()
    requires route in {ConfigUsersListRoute, UserConfigsManageRoute, DeleteConfigRoute, AddConfigRoute}
    modifies b
    ensures b.Valid()
    ensures OthersUnchanged(old(b.fsm), b.fsm, actor)
    ensures ConfigsSectionEffect(route, actor, data, ok, photoAccepted, old(b.db), old(b.fsm), b.db, b.fsm, outs)
  {
    match route
    case ConfigUsersListRoute => outs := ProcessConfigUsersList(b.db, actor, data);
    case UserConfigsManageRoute => outs := ProcessUserConfigsManage(b.db, actor, data);
    case DeleteConfigRoute => outs := ProcessDeleteConfig(b, actor, data);
    case AddConfigRoute => outs := ProcessAddConfigStart(b, actor, data);
    case _ => assert false;
  }

  /** The admin router's tutorial section; "skip media" only in its state. */
  method HandleTutorialsSection(b: BotState, actor: int, data: string, route: Route, ok: nat -> bool, photoAccepted: bool)
    returns (outs: seq<Out>)
    requires b.Valid()
    requires route in {TutorialsMenuRoute, DeleteTutorialRoute, AddTutorialRoute, SkipMediaRoute}
    requires route == SkipMediaRoute ==> b.StateOf(actor) == Some(AddTutorialMedia)
    modifies b
    ensures b.Valid()
    ensures OthersUnchanged(old(b.fsm), b.fsm, actor)
    ensures TutorialsSectionEffect(route, actor, data, ok, photoAccepted, old(b.db), old(b.fsm), b.db, b.fsm, outs)
  {
    match route
    case TutorialsMenuRoute => outs := ProcessTutorialsMenu(b.db, actor);
    case DeleteTutorialRoute => outs := ProcessDeleteTutorial(b, actor, data);
    case AddTutorialRoute => outs := ProcessAddTutorialStart(b, actor);
    case SkipMediaRoute => outs := ProcessSkipMedia(b, actor);
    case _ => assert false;
  }

  /** The admin router's mass messaging section; the confirmation buttons
      only while a confirmation is awaited. */
  method HandleMassSendSection(b: BotState, actor: int, data: string, route: Route, ok: nat -> bool, photoAccepted: bool)
    returns (outs: seq<Out>)
    requires b.Valid()
    requires route in {MassSendStartRoute, SendCancelledRoute, SendConfirmedRoute}
    requires route == SendCancelledRoute || route == SendConfirmedRoute ==> b.StateOf(actor) == Some(MassSendConfirm)
    modifies b
    ensures b.Valid()
    ensures OthersUnchanged(old(b.fsm), b.fsm, actor)
    ensures MassSendSectionEffect(route, actor, data, ok, photoAccepted, old(b.db), old(b.fsm), b.db, b.fsm, outs)
  {
    match route
    case MassSendStartRoute => outs := ProcessMassSendStart(b, actor);
    case SendCancelledRoute => outs := ProcessSendCancelled(b, actor);
    case SendConfirmedRoute => outs := ProcessSendConfirmed(b, actor, ok);
    case _ => assert false;
  }

  /** The user router and the settings router. */
  method HandleOtherCallback(b: BotState, actor: int, data: string, route: Route, ok: nat -> bool, photoAccepted: bool)
    returns (outs: seq<Out>)
    requires b.Valid()
    requires route in {BackToMainMenuRoute, UserConfigsRoute, UserHelpRoute, ViewTutorialRoute,
                      SettingsRoute, SetLanguageRoute, Unhandled}
    modifies b
    ensures b.Valid()
    ensures OthersUnchanged(old(b.fsm), b.fsm, actor)
    ensures route == Unhandled ==> b.db == old(b.db) && b.fsm == old(b.fsm) && outs == []
    ensures OtherRoutersEffect(route, actor, data, ok, photoAccepted, old(b.db), old(b.fsm), b.db, b.fsm, outs)
  {
    match route
    case BackToMainMenuRoute => outs := ProcessBackToMainMenu(b.db, actor);
    case UserConfigsRoute => outs := ProcessUserConfigs(b.db, actor);
    case UserHelpRoute => outs := ProcessUserHelp(b.db, actor);
    case ViewTutorialRoute => outs := ProcessViewTutorial(b.db, actor, data, photoAccepted);
    case SettingsRoute => outs := ProcessSettings(b.db, actor);
    case SetLanguageRoute => outs := ProcessSetLanguage(b, actor, data);
    case Unhandled => outs := [];
    case _ => assert false;
  }

  /** A callback query: the handler `CallbackRoute` picks, run in the
      section that registers it. */
  method DispatchCallback(b: BotState, actor: int, data: string, ok: nat -> bool, photoAccepted: bool)
    returns (outs: seq<Out>)
    requires b.Valid()
    modifies b
    ensures b.Valid()
    ensures OthersUnchanged(old(b.fsm), b.fsm, actor)
    // a callback no filter matches changes nothing
    ensures CallbackRoute(data, old(b.StateOf(actor))) == Unhandled ==>
              b.db == old(b.db) && b.fsm == old(b.fsm) && outs == []
    // any other callback has the effect of the handler it reaches
    ensures CallbackEffect(CallbackRoute(data, old(b.StateOf(actor))), actor, data, ok, photoAccepted,
                           old(b.db), old(b.fsm), b.db, b.fsm, outs)
  {
    var route := CallbackRoute(data, b.StateOf(actor));
    if route in {AdminMenuRoute, UsersListRoute, ManageUserRoute, DeleteUserRoute, AddUserRoute} {
      outs := HandleUsersSection(b, actor, data, route, ok, photoAccepted);
    } else if route in {ConfigUsersListRoute, UserConfigsManageRoute, DeleteConfigRoute, AddConfigRoute} {
      outs := HandleConfigsSection(b, actor, data, route, ok, photoAccepted);
    } else if route in {TutorialsMenuRoute, DeleteTutorialRoute, AddTutorialRoute, SkipMediaRoute} {
      outs := HandleTutorialsSection(b, actor, data, route, ok, photoAccepted);
    } else if route in {MassSendStartRoute, SendCancelledRoute, SendConfirmedRoute} {
      outs := HandleMassSendSection(b, actor, data, route, ok, photoAccepted);
    } else {
      outs := HandleOtherCallback(b, actor, data, route, ok, photoAccepted);
    }
  }

  /** One update from `actor`, handled to completion. The environment is
      given as parameters: the sender's Telegram `username`, `ADMIN_IDS`,
      which broadcast copies go through (`ok`) and whether Telegram accepts
      a tutorial's file as a photo. Sessions are partitioned by actor: no
      other actor's FSM entry changes. */
  method Dispatch(b: BotState, actor: int, username: Option<string>, ev: Event,
                  adminIds: seq<int>, ok: nat -> bool, photoAccepted: bool)
    returns (outs: seq<Out>)
    requires b.Valid()
    modifies b
    ensures b.Valid()
    ensures OthersUnchanged(old(b.fsm), b.fsm, actor)
    ensures ev.Incoming? && IsStartCommand(ev.message) ==>
              var r := SendWelcome(old(b.db), actor, username, adminIds);
              b.db == r.db && b.fsm == old(b.fsm) && outs == r.outs
    ensures ev.Incoming? && !IsStartCommand(ev.message) ==>
              StepEffect(ev.message, actor, old(b.db), old(b.fsm), b.db, b.fsm, outs)
    ensures ev.Callback? ==>
              CallbackEffect(CallbackRoute(ev.data, old(b.StateOf(actor))), actor, ev.data, ok, photoAccepted,
                             old(b.db), old(b.fsm), b.db, b.fsm, outs)
  {
    match ev
    case Incoming(m) => outs := DispatchMessage(b, actor, username, m, adminIds);
    case Callback(data) => outs := DispatchCallback(b, actor, data, ok, photoAccepted);
  }
}
