/** handlers/user_handlers.py: the user router. Everything here reads the
    database and replies; nothing is written. */
module UserHandlers {
  import opened Wrappers
  import opened PyText
  import opened Store
  import opened Callbacks
  import opened Telegram
  import opened Keyboards

  /** `process_back_to_main_menu` */
  function ProcessBackToMainMenu(db: Db, actor: int): (outs: seq<Out>)
    ensures var lang := LanguageOf(db, actor);
      outs == [Show("welcome", lang, MainMenu(false, lang))]
  {
    var lang := LanguageOf(db, actor);
    [Show("welcome", lang, MainMenu(false, lang))]
  }

  /** What one config becomes in "my configs": a `file:` config is sent as
      the document whose file id is its data, captioned with the text
      after the first colon; any other is sent as text. A NULL type makes
      `config_type.startswith` raise: `None`. */
  function ConfigMessage(c: Config, chatId: int, lang: string): (o: Option<Out>)
    ensures o.None? <==> c.kind.None?
    ensures c.kind.Some? && StartsWith(c.kind.value, "file:") ==>
              o == Some(SendDocument(chatId, c.data, lang, c.kind.value[5..]))
    ensures c.kind.Some? && !StartsWith(c.kind.value, "file:") ==>
              o == Some(ConfigText(lang, c.kind.value, c.data))
  {
    match c.kind
    case None => None
    case Some(k) =>
      if StartsWith(k, "file:") then
        FileKindTail(k);
        Some(SendDocument(chatId, c.data, lang, AfterFirst(k, ':')))
      else Some(ConfigText(lang, k, c.data))
  }

  /** The messages for the first n configs of `ids`. */
  function Rendered(db: Db, ids: seq<int>, chatId: int, lang: string, n: nat): (outs: seq<Out>)
    requires n <= |ids|
    requires forall k :: 0 <= k < n ==> ids[k] in db.configs && db.configs[ids[k]].kind.Some?
    ensures |outs| == n
    ensures forall k :: 0 <= k < n ==> Some(outs[k]) == ConfigMessage(db.configs[ids[k]], chatId, lang)
  {
    seq(n, k requires 0 <= k < n => ConfigMessage(db.configs[ids[k]], chatId, lang).value)
  }

  /** The main menu message that ends the user's screens. */
  function NextAction(lang: string): Out {
    Show("next_action", lang, MainMenu(false, lang))
  }

  function YourConfigs(lang: string): Out {
    Show("your_configs", lang, NoMarkup)
  }

  /** The loop of `process_user_configs`: the messages of the configs in
      order, stopping at the first with a NULL type; `n` configs were sent. */
  method RenderConfigs(db: Db, ids: seq<int>, chatId: int, lang: string) returns (rendered: seq<Out>, n: nat)
    requires forall k :: 0 <= k < |ids| ==> ids[k] in db.configs
    ensures n <= |ids|
    ensures forall k :: 0 <= k < n ==> db.configs[ids[k]].kind.Some?
    ensures n < |ids| ==> db.configs[ids[n]].kind.None?
    ensures rendered == Rendered(db, ids, chatId, lang, n)
  {
    rendered := [];
    n := 0;
    while n < |ids|
      invariant 0 <= n <= |ids|
      invariant forall k :: 0 <= k < n ==> db.configs[ids[k]].kind.Some?
      invariant rendered == Rendered(db, ids, chatId, lang, n)
    {
      var msg := ConfigMessage(db.configs[ids[n]], chatId, lang);
      if msg.None? {
        return;
      }
      rendered := rendered + [msg.value];
      n := n + 1;
    }
  }

  /** What "my configs" sends: the caller's own configs, in table order,
      between "your configs" and the main menu; only `no_configs_yet` when
      there are none. At the first config with a NULL type the handler
      raises: the messages sent so far stay and the menu never comes. */
  ghost predicate ShowsOwnConfigs(db: Db, actor: int, outs: seq<Out>) {
    var ids := ConfigIdsOf(db, actor);
    var lang := LanguageOf(db, actor);
    && (ids == [] ==> outs == [Show("no_configs_yet", lang, NoMarkup), NextAction(lang)])
    && (ids != [] && (forall k :: 0 <= k < |ids| ==> db.configs[ids[k]].kind.Some?) ==>
          outs == [YourConfigs(lang)] + Rendered(db, ids, actor, lang, |ids|) + [NextAction(lang)])
    && ((exists k :: 0 <= k < |ids| && db.configs[ids[k]].kind.None?) ==>
          exists j :: 0 <= j < |ids| && db.configs[ids[j]].kind.None?
            && (forall k :: 0 <= k < j ==> db.configs[ids[k]].kind.Some?)
            && outs == [YourConfigs(lang)] + Rendered(db, ids, actor, lang, j))
  }

  /** `process_user_configs` */
  method ProcessUserConfigs(db: Db, actor: int) returns (outs: seq<Out>)
    ensures ShowsOwnConfigs(db, actor, outs)
  {
    var lang := LanguageOf(db, actor);
    var ids := ConfigIdsOf(db, actor);
    if ids == [] {
      outs := [Show("no_configs_yet", lang, NoMarkup), NextAction(lang)];
      return;
    }
    assert forall k :: 0 <= k < |ids| ==> ids[k] in db.configs by {
      forall k | 0 <= k < |ids| ensures ids[k] in db.configs {
        assert ids[k] in ids;
      }
    }
    var rendered, n := RenderConfigs(db, ids, actor, lang);
    if n < |ids| {
      outs := [YourConfigs(lang)] + rendered;
    } else {
      outs := [YourConfigs(lang)] + rendered + [NextAction(lang)];
    }
  }

  /** "My configs" shows the caller's configs and no one else's: every
      document or text it sends comes from a config the caller owns. */
  lemma OnlyOwnConfigsAreShown(db: Db, actor: int, k: nat)
    requires var ids := ConfigIdsOf(db, actor);
      k < |ids| && forall j :: 0 <= j < |ids| ==> db.configs[ids[j]].kind.Some?
    ensures var ids := ConfigIdsOf(db, actor);
      var c := db.configs[ids[k]];
      c.owner == actor
      && Rendered(db, ids, actor, LanguageOf(db, actor), |ids|)[k]
         == ConfigMessage(c, actor, LanguageOf(db, actor)).value
  {
    var ids := ConfigIdsOf(db, actor);
    assert ids[k] in ids;
  }

  /** `process_user_help` */
  function ProcessUserHelp(db: Db, actor: int): (outs: seq<Out>)
    ensures var lang := LanguageOf(db, actor);
      outs == [Show("choose_tutorial", lang, TutorialsUser(lang))]
  {
    var lang := LanguageOf(db, actor);
    [Show("choose_tutorial", lang, TutorialsUser(lang))]
  }

  /** `if file_id:`: a non-empty file id. */
  predicate HasMedia(t: Tutorial) {
    t.fileId.Some? && t.fileId.value != ""
  }

  /** `process_view_tutorial`: the id is the last `_` piece. An unknown id
      gets the `error_not_found` alert and the menu message stays. A known
      one replaces the menu message by the tutorial: as a photo when it has
      media (as a video if Telegram refuses the photo, `photoAccepted`
      false), as text otherwise, and then the user's main menu. A tutorial
      with neither media nor text makes `answer(None)` raise once the menu
      message is gone: nothing follows. */
  function ProcessViewTutorial(db: Db, actor: int, data: string, photoAccepted: bool): (outs: seq<Out>)
    ensures TrailingId(data).None? ==> outs == []
    ensures TrailingId(data).Some? && TrailingId(data).value !in db.tutorials ==>
              outs == [Alert("error_not_found", LanguageOf(db, actor))]
    ensures TrailingId(data).Some? && TrailingId(data).value in db.tutorials ==>
              var t := db.tutorials[TrailingId(data).value];
              var lang := LanguageOf(db, actor);
              && |outs| >= 1 && outs[0] == DeleteMenu
              && (!HasMedia(t) && t.body.None? ==> outs == [DeleteMenu])
              && (HasMedia(t) || t.body.Some? ==>
                    && |outs| == 3
                    && (HasMedia(t) && photoAccepted ==> outs[1] == SendPhoto(actor, t.fileId.value, t.body))
                    && (HasMedia(t) && !photoAccepted ==> outs[1] == SendVideo(actor, t.fileId.value, t.body))
                    && (!HasMedia(t) ==> outs[1] == SendText(t.body.value))
                    && outs[2] == Show("next_action", lang, MainMenu(false, lang)))
  {
    var lang := LanguageOf(db, actor);
    match TrailingId(data)
    case None => []
    case Some(id) =>
      if id !in db.tutorials then [Alert("error_not_found", lang)]
      else
        var t := db.tutorials[id];
        if HasMedia(t) then
          var media :=
            if photoAccepted then SendPhoto(actor, t.fileId.value, t.body)
            else SendVideo(actor, t.fileId.value, t.body);
          [DeleteMenu, media, Show("next_action", lang, MainMenu(false, lang))]
        else
          match t.body
          case None => [DeleteMenu]
          case Some(text) => [DeleteMenu, SendText(text), Show("next_action", lang, MainMenu(false, lang))]
  }

  /** Every button of the users' tutorial list opens its own tutorial: the
      menu message goes, and a text tutorial is sent as its text. */
  lemma TutorialButtonsOpenTheirTutorial(db: Db, actor: int, id: int, photoAccepted: bool)
    requires id in db.tutorials
    ensures var outs := ProcessViewTutorial(db, actor, TutorialViewRow(db, id)[0].callback, photoAccepted);
            var t := db.tutorials[id];
      && |outs| >= 1 && outs[0] == DeleteMenu
      && (!HasMedia(t) && t.body.Some? ==> |outs| == 3 && outs[1] == SendText(t.body.value))
  {
    TrailingIdRoundTrip("view_tutorial", id);
  }
}
