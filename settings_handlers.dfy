/** handlers/settings_handlers.py: the language settings. */
module SettingsHandlers {
  import opened Wrappers
  import opened Store
  import opened Callbacks
  import opened Telegram
  import opened Sessions

  /** `process_settings`: reads the caller's language without a default;
      for an unregistered caller `fetchone()` is None, subscripting it
      raises and nothing is shown. */
  function ProcessSettings(db: Db, actor: int): (outs: seq<Out>)
    ensures actor !in db.users <==> outs == []
    ensures actor in db.users ==> outs == [Show("choose_language", LanguageOf(db, actor), LanguageChoice)]
  {
    if actor !in db.users then []
    else [Show("choose_language", db.users[actor].language, LanguageChoice)]
  }

  /** `process_set_language`: the code is the last `_` piece of the
      callback, unchecked. Only the caller's language changes; the
      confirmation and the main menu come in the new language, chosen by
      the caller's stored role. For an unregistered caller the UPDATE
      matches no row and reading `is_admin` raises: nothing changes and
      nothing is shown. */
  method ProcessSetLanguage(b: BotState, actor: int, data: string) returns (outs: seq<Out>)
    requires b.Valid()
    modifies b
    ensures b.Valid()
    ensures b.fsm == old(b.fsm)
    ensures actor !in old(b.db.users) ==> b.db == old(b.db) && outs == []
    ensures actor in old(b.db.users) ==>
              var code := LanguageCode(data);
              var isAdmin := old(b.db.users[actor].isAdmin);
              && b.db == SetLanguage(old(b.db), actor, code)
              && LanguageOf(b.db, actor) == code
              && b.db.users[actor].isAdmin == isAdmin
              && outs == [Show("language_changed", code, NoMarkup),
                          Show(if isAdmin then "welcome_admin" else "welcome", code, MainMenu(isAdmin, code))]
  {
    var code := LanguageCode(data);
    if actor !in b.db.users {
      return [];
    }
    b.db := SetLanguage(b.db, actor, code);
    var isAdmin := b.db.users[actor].isAdmin;
    outs := [Show("language_changed", code, NoMarkup),
             Show(if isAdmin then "welcome_admin" else "welcome", code, MainMenu(isAdmin, code))];
  }
}
