/** handlers/admin_handlers.py: the admin router. Handlers that change the
    database or the actor's FSM entry are methods on the `BotState`; the
    ones that only read the database and reply are functions. A handler
    that raises before its first effect (a callback id `int()` cannot
    read, a keyboard that cannot be built) is modelled by its effects up
    to the exception: the outputs already sent and the writes already
    committed stay. */
module AdminHandlers {
  import opened Wrappers
  import opened PyText
  import opened Store
  import opened Callbacks
  import opened Telegram
  import opened Keyboards
  import opened Sessions

  /** `int(message.text)`: None when there is no text (TypeError) or it is
      not a number (ValueError). */
  function IdOfText(m: Message): (r: Option<int>)
    ensures m.MessageText().None? ==> r.None?
    ensures m.TextMessage? ==> r == ParseInt(m.text)
  {
    match m.MessageText()
    case None => None
    case Some(t) => ParseInt(t)
  }

  /** `F.content_type.in_({ContentType.TEXT, ContentType.DOCUMENT})` */
  predicate IsTextOrDocument(m: Message) {
    m.TextMessage? || m.DocumentMessage?
  }

  /** `F.content_type.in_({ContentType.PHOTO, ContentType.VIDEO})`; a message
      whose photo list is empty has no photo content type. */
  predicate IsPhotoOrVideo(m: Message) {
    (m.PhotoMessage? && |m.sizes| > 0) || m.VideoMessage?
  }

  /** The "user configs" screen after a change for `userId`, unless
      building its keyboard raises. */
  function ConfigsScreen(db: Db, userId: int, lang: string): (outs: seq<Out>)
    ensures ConfigsKeyboardRaises(db, userId) <==> outs == []
    ensures !ConfigsKeyboardRaises(db, userId) ==>
              outs == [Show("user_configs_title", lang, UserConfigsManagement(userId, lang))]
  {
    if ConfigsKeyboardRaises(db, userId) then []
    else [Show("user_configs_title", lang, UserConfigsManagement(userId, lang))]
  }

  // ---------------------------------------------------------------- menu

  /** `process_admin_menu`: any workflow in progress is dropped. */
  method ProcessAdminMenu(b: BotState, actor: int) returns (outs: seq<Out>)
    requires b.Valid()
    modifies b
    ensures b.Valid()
    ensures b.db == old(b.db) && b.fsm == old(b.fsm) - {actor}
    ensures b.StateOf(actor).None?
    ensures var lang := LanguageOf(old(b.db), actor);
      outs == [Show("welcome_admin", lang, MainMenu(true, lang))]
  {
    b.fsm := b.fsm - {actor};
    var lang := LanguageOf(b.db, actor);
    outs := [Show("welcome_admin", lang, MainMenu(true, lang))];
  }

  // ---------------------------------------------------- user management

  /** `process_users_list`: the page number is the last `_` piece. */
  function ProcessUsersList(db: Db, actor: int, data: string): (outs: seq<Out>)
    ensures TrailingId(data).None? <==> outs == []
    ensures TrailingId(data).Some? ==>
              outs == [Show("users_list", LanguageOf(db, actor),
                            UsersPage(TrailingId(data).value, LanguageOf(db, actor)))]
  {
    match TrailingId(data)
    case None => []
    case Some(page) =>
      var lang := LanguageOf(db, actor);
      [Show("users_list", lang, UsersPage(page, lang))]
  }

  /** `user[0] if user and user[0] else "N/A"` */
  function DisplayName(db: Db, id: int): (name: string)
    ensures id in db.users && db.users[id].username.Some? && db.users[id].username.value != "" ==>
              name == db.users[id].username.value
    ensures id !in db.users || db.users[id].username.None? || db.users[id].username.value == "" ==>
              name == "N/A"
  {
    if id in db.users && db.users[id].username.Some? && db.users[id].username.value != "" then
      db.users[id].username.value
    else "N/A"
  }

  /** `process_manage_user`: the user card, "N/A" for a missing row or an
      empty username, with the delete and back-to-list buttons for that id. */
  function ProcessManageUser(db: Db, actor: int, data: string): (outs: seq<Out>)
    ensures TrailingId(data).None? <==> outs == []
    ensures TrailingId(data).Some? ==>
              var id := TrailingId(data).value;
              outs == [UserCard(LanguageOf(db, actor), id, DisplayName(db, id), UserManagement(id, LanguageOf(db, actor)))]
  {
    match TrailingId(data)
    case None => []
    case Some(id) => [UserCard(LanguageOf(db, actor), id, DisplayName(db, id), UserManagement(id, LanguageOf(db, actor)))]
  }

  /** `process_delete_user`: the DELETE with the cascade its comment
      relies on; back to page 0 of the users. */
  method ProcessDeleteUser(b: BotState, actor: int, data: string) returns (outs: seq<Out>)
    requires b.Valid()
    modifies b
    ensures b.Valid()
    ensures b.fsm == old(b.fsm)
    ensures TrailingId(data).None? ==> b.db == old(b.db) && outs == []
    ensures TrailingId(data).Some? ==>
              var lang := LanguageOf(old(b.db), actor);
              && b.db == DeleteUser(old(b.db), TrailingId(data).value)
              && outs == [Alert("user_deleted_ok", lang), Show("users_list", lang, UsersPage(0, lang))]
  {
    var parsed := TrailingId(data);
    if parsed.None? {
      return [];
    }
    var lang := LanguageOf(b.db, actor);
    b.db := DeleteUser(b.db, parsed.value);
    outs := [Alert("user_deleted_ok", lang), Show("users_list", lang, UsersPage(0, lang))];
  }

  /** `process_add_user_start` */
  method ProcessAddUserStart(b: BotState, actor: int) returns (outs: seq<Out>)
    requires b.Valid()
    modifies b
    ensures b.Valid()
    ensures b.db == old(b.db)
    ensures b.fsm == old(b.fsm)[actor := SetState(SessionOf(old(b.fsm), actor), AddUserId)]
    ensures outs == [Show("ask_for_user_id", LanguageOf(old(b.db), actor), NoMarkup)]
  {
    var lang := LanguageOf(b.db, actor);
    outs := [Show("ask_for_user_id", lang, NoMarkup)];
    b.fsm := b.fsm[actor := SetState(SessionOf(b.fsm, actor), AddUserId)];
  }

  /** `process_add_user_id`: text int() cannot read is answered with
      `invalid_id_format` and the actor stays in `add_user_id`; an id is
      inserted with language 'en' unless it is already there, and the
      workflow ends either way. */
  method ProcessAddUserId(b: BotState, actor: int, m: Message) returns (outs: seq<Out>)
    requires b.Valid() && b.StateOf(actor) == Some(AddUserId)
    modifies b
    ensures b.Valid()
    ensures var lang := LanguageOf(old(b.db), actor);
      IdOfText(m).None? ==>
        && b.db == old(b.db) && b.fsm == old(b.fsm)
        && b.StateOf(actor) == Some(AddUserId)
        && outs == [Show("invalid_id_format", lang, NoMarkup)]
    ensures var lang := LanguageOf(old(b.db), actor);
      IdOfText(m).Some? ==>
        var id := IdOfText(m).value;
        && b.fsm == old(b.fsm) - {actor}
        && (id in old(b.db.users) ==>
              b.db == old(b.db)
              && outs == [Show("user_already_exists", lang, NoMarkup), Show("users_list", lang, UsersPage(0, lang))])
        && (id !in old(b.db.users) ==>
              b.db == InsertUser(old(b.db), id, User(None, false, DefaultLanguage))
              && outs == [Show("user_added_ok", lang, NoMarkup), Show("users_list", lang, UsersPage(0, lang))])
  {
    var lang := LanguageOf(b.db, actor);
    var parsed := IdOfText(m);
    if parsed.None? {
      return [Show("invalid_id_format", lang, NoMarkup)];
    }
    var id := parsed.value;
    if id in b.db.users {
      outs := [Show("user_already_exists", lang, NoMarkup)];
    } else {
      b.db := InsertUser(b.db, id, User(None, false, DefaultLanguage));
      outs := [Show("user_added_ok", lang, NoMarkup)];
    }
    b.fsm := b.fsm - {actor};
    outs := outs + [Show("users_list", lang, UsersPage(0, lang))];
  }

  // -------------------------------------------------- config management

  /** `process_config_users_list` */
  function ProcessConfigUsersList(db: Db, actor: int, data: string): (outs: seq<Out>)
    ensures TrailingId(data).None? <==> outs == []
    ensures TrailingId(data).Some? ==>
              outs == [Show("choose_user_for_config", LanguageOf(db, actor),
                            ConfigUsersPage(TrailingId(data).value, LanguageOf(db, actor)))]
  {
    match TrailingId(data)
    case None => []
    case Some(page) =>
      var lang := LanguageOf(db, actor);
      [Show("choose_user_for_config", lang, ConfigUsersPage(page, lang))]
  }

  /** `process_user_configs_manage`: nothing is shown when the id cannot be
      read or the user has a config with a NULL type. */
  function ProcessUserConfigsManage(db: Db, actor: int, data: string): (outs: seq<Out>)
    ensures outs == [] <==> TrailingId(data).None? || ConfigsKeyboardRaises(db, TrailingId(data).value)
    ensures outs != [] ==> outs == [Show("user_configs_title", LanguageOf(db, actor),
                                         UserConfigsManagement(TrailingId(data).value, LanguageOf(db, actor)))]
  {
    match TrailingId(data)
    case None => []
    case Some(id) => ConfigsScreen(db, id, LanguageOf(db, actor))
  }

  /** `process_delete_config`: removes the config whose id is the middle
      piece of `delete_config:<cid>:<uid>`, then shows the configs of uid. */
  method ProcessDeleteConfig(b: BotState, actor: int, data: string) returns (outs: seq<Out>)
    requires b.Valid()
    modifies b
    ensures b.Valid()
    ensures b.fsm == old(b.fsm)
    ensures DeleteConfigIds(data).None? ==> b.db == old(b.db) && outs == []
    ensures DeleteConfigIds(data).Some? ==>
              var (cid, uid) := DeleteConfigIds(data).value;
              var lang := LanguageOf(old(b.db), actor);
              && b.db == DeleteConfig(old(b.db), cid)
              && outs == [Alert("config_deleted_ok", lang)] + ConfigsScreen(b.db, uid, lang)
  {
    var parsed := DeleteConfigIds(data);
    if parsed.None? {
      return [];
    }
    var (cid, uid) := parsed.value;
    var lang := LanguageOf(b.db, actor);
    b.db := DeleteConfig(b.db, cid);
    outs := [Alert("config_deleted_ok", lang)] + ConfigsScreen(b.db, uid, lang);
  }

  /** `process_add_config_start`: remembers whose config it is. */
  method ProcessAddConfigStart(b: BotState, actor: int, data: string) returns (outs: seq<Out>)
    requires b.Valid()
    modifies b
    ensures b.Valid()
    ensures b.db == old(b.db)
    ensures TrailingId(data).None? ==> b.fsm == old(b.fsm) && outs == []
    ensures TrailingId(data).Some? ==>
              && b.fsm == old(b.fsm)[actor := SetState(UpdateData(SessionOf(old(b.fsm), actor), CurrentUserId,
                                                                    IdValue(TrailingId(data).value)), AddConfigType)]
              && outs == [Show("add_config_step1", LanguageOf(old(b.db), actor), NoMarkup)]
  {
    var parsed := TrailingId(data);
    if parsed.None? {
      return [];
    }
    var lang := LanguageOf(b.db, actor);
    var s := UpdateData(SessionOf(b.fsm, actor), CurrentUserId, IdValue(parsed.value));
    b.fsm := b.fsm[actor := SetState(s, AddConfigType)];
    outs := [Show("add_config_step1", lang, NoMarkup)];
  }

  /** `process_add_config_type`: keeps `message.text`, None for a message
      without text. */
  method ProcessAddConfigType(b: BotState, actor: int, m: Message) returns (outs: seq<Out>)
    requires b.Valid() && b.StateOf(actor) == Some(AddConfigType)
    modifies b
    ensures b.Valid()
    ensures b.db == old(b.db)
    ensures b.fsm == old(b.fsm)[actor := SetState(UpdateData(SessionOf(old(b.fsm), actor), ConfigType,
                                                              TextValue(m.MessageText())), AddConfigData)]
    ensures outs == [Show("add_config_step2", LanguageOf(old(b.db), actor), NoMarkup)]
  {
    var lang := LanguageOf(b.db, actor);
    var s := UpdateData(SessionOf(b.fsm, actor), ConfigType, TextValue(m.MessageText()));
    b.fsm := b.fsm[actor := SetState(s, AddConfigData)];
    outs := [Show("add_config_step2", lang, NoMarkup)];
  }

  /** The row `process_add_config_data` inserts: owned by the user captured
      at the start; a document gives type "file:<name>" and its file id as
      data, whatever type was captured; text gives the captured type and
      the text. */
  function NewConfig(s: Session, m: Message): (c: Config)
    requires WellFormed(s) && s.state == Some(AddConfigData) && IsTextOrDocument(m)
    ensures c.owner == s.data[CurrentUserId].id
    ensures m.DocumentMessage? ==> c.kind == Some("file:" + m.fileName) && c.data == m.fileId
    ensures m.TextMessage? ==> c.kind == s.data[ConfigType].text && c.data == m.text
  {
    var owner := s.data[CurrentUserId].id;
    if m.DocumentMessage? then Config(owner, Some("file:" + m.fileName), m.fileId)
    else Config(owner, s.data[ConfigType].text, m.text)
  }

  /** A document sent as config data shows its own file name in the admin
      keyboard, whatever type was typed at the previous step. */
  lemma DocumentConfigIsListedByName(s: Session, m: Message, lang: string)
    requires WellFormed(s) && s.state == Some(AddConfigData) && m.DocumentMessage?
    ensures ConfigDisplayOf(NewConfig(s, m), lang) == Some(FileDisplay(lang, m.fileName))
  {
    DocumentConfigShowsFileName(s.data[CurrentUserId].id, m.fileName, m.fileId, lang);
  }

  /** `process_add_config_data`: exactly one config row is inserted under a
      fresh id and the workflow ends. */
  method ProcessAddConfigData(b: BotState, actor: int, m: Message) returns (outs: seq<Out>)
    requires b.Valid() && b.StateOf(actor) == Some(AddConfigData) && IsTextOrDocument(m)
    modifies b
    ensures b.Valid()
    ensures var c := NewConfig(SessionOf(old(b.fsm), actor), m);
            var lang := LanguageOf(old(b.db), actor);
      && b.db == InsertConfig(old(b.db), c)
      && b.fsm == old(b.fsm) - {actor}
      && outs == [Show("config_added_ok", lang, NoMarkup)] + ConfigsScreen(b.db, c.owner, lang)
  {
    var lang := LanguageOf(b.db, actor);
    var c := NewConfig(SessionOf(b.fsm, actor), m);
    b.db := InsertConfig(b.db, c);
    b.fsm := b.fsm - {actor};
    outs := [Show("config_added_ok", lang, NoMarkup)] + ConfigsScreen(b.db, c.owner, lang);
  }

  // ------------------------------------------------ tutorial management

  /** `process_tutorials_menu` */
  function ProcessTutorialsMenu(db: Db, actor: int): (outs: seq<Out>)
    ensures outs == [Show("tutorials_menu_title", LanguageOf(db, actor), TutorialsAdmin(LanguageOf(db, actor)))]
  {
    var lang := LanguageOf(db, actor);
    [Show("tutorials_menu_title", lang, TutorialsAdmin(lang))]
  }

  /** `process_delete_tutorial` */
  method ProcessDeleteTutorial(b: BotState, actor: int, data: string) returns (outs: seq<Out>)
    requires b.Valid()
    modifies b
    ensures b.Valid()
    ensures b.fsm == old(b.fsm)
    ensures TrailingId(data).None? ==> b.db == old(b.db) && outs == []
    ensures TrailingId(data).Some? ==>
              var lang := LanguageOf(old(b.db), actor);
              && b.db == DeleteTutorial(old(b.db), TrailingId(data).value)
              && outs == [Alert("tutorial_deleted_ok", lang), Show("tutorials_menu_title", lang, TutorialsAdmin(lang))]
  {
    var parsed := TrailingId(data);
    if parsed.None? {
      return [];
    }
    var lang := LanguageOf(b.db, actor);
    b.db := DeleteTutorial(b.db, parsed.value);
    outs := [Alert("tutorial_deleted_ok", lang), Show("tutorials_menu_title", lang, TutorialsAdmin(lang))];
  }

  /** `process_add_tutorial_start` */
  method ProcessAddTutorialStart(b: BotState, actor: int) returns (outs: seq<Out>)
    requires b.Valid()
    modifies b
    ensures b.Valid()
    ensures b.db == old(b.db)
    ensures b.fsm == old(b.fsm)[actor := SetState(SessionOf(old(b.fsm), actor), AddTutorialTitle)]
    ensures outs == [Show("add_tutorial_step1", LanguageOf(old(b.db), actor), NoMarkup)]
  {
    var lang := LanguageOf(b.db, actor);
    b.fsm := b.fsm[actor := SetState(SessionOf(b.fsm, actor), AddTutorialTitle)];
    outs := [Show("add_tutorial_step1", lang, NoMarkup)];
  }

  /** `process_add_tutorial_title` */
  method ProcessAddTutorialTitle(b: BotState, actor: int, m: Message) returns (outs: seq<Out>)
    requires b.Valid() && b.StateOf(actor) == Some(AddTutorialTitle)
    modifies b
    ensures b.Valid()
    ensures b.db == old(b.db)
    ensures b.fsm == old(b.fsm)[actor := SetState(UpdateData(SessionOf(old(b.fsm), actor), Title,
                                                              TextValue(m.MessageText())), AddTutorialText)]
    ensures outs == [Show("add_tutorial_step2", LanguageOf(old(b.db), actor), NoMarkup)]
  {
    var lang := LanguageOf(b.db, actor);
    var s := UpdateData(SessionOf(b.fsm, actor), Title, TextValue(m.MessageText()));
    b.fsm := b.fsm[actor := SetState(s, AddTutorialText)];
    outs := [Show("add_tutorial_step2", lang, NoMarkup)];
  }

  /** `process_add_tutorial_text`: offers "skip media". */
  method ProcessAddTutorialText(b: BotState, actor: int, m: Message) returns (outs: seq<Out>)
    requires b.Valid() && b.StateOf(actor) == Some(AddTutorialText)
    modifies b
    ensures b.Valid()
    ensures b.db == old(b.db)
    ensures b.fsm == old(b.fsm)[actor := SetState(UpdateData(SessionOf(old(b.fsm), actor), Body,
                                                              TextValue(m.MessageText())), AddTutorialMedia)]
    ensures var lang := LanguageOf(old(b.db), actor);
      outs == [Show("add_tutorial_step3", lang, SkipMedia(lang))]
  {
    var lang := LanguageOf(b.db, actor);
    var s := UpdateData(SessionOf(b.fsm, actor), Body, TextValue(m.MessageText()));
    b.fsm := b.fsm[actor := SetState(s, AddTutorialMedia)];
    outs := [Show("add_tutorial_step3", lang, SkipMedia(lang))];
  }

  /** The row the media step inserts: the title and text captured at the
      two earlier steps, and the media's file id if any. */
  function NewTutorial(s: Session, fileId: Option<string>): (t: Tutorial)
    requires WellFormed(s) && s.state == Some(AddTutorialMedia)
    ensures t.title == s.data[Title].text && t.body == s.data[Body].text && t.fileId == fileId
  {
    Tutorial(s.data[Title].text, s.data[Body].text, fileId)
  }

  /** `message.photo[-1].file_id` (the largest size) for a photo,
      `message.video.file_id` for a video. */
  function MediaFileId(m: Message): (f: string)
    requires IsPhotoOrVideo(m)
    ensures m.PhotoMessage? ==> f == m.sizes[|m.sizes| - 1]
    ensures m.VideoMessage? ==> f == m.fileId
  {
    if m.PhotoMessage? then m.sizes[|m.sizes| - 1] else m.fileId
  }

  /** `process_skip_media`: the tutorial is stored without a file. */
  method ProcessSkipMedia(b: BotState, actor: int) returns (outs: seq<Out>)
    requires b.Valid() && b.StateOf(actor) == Some(AddTutorialMedia)
    modifies b
    ensures b.Valid()
    ensures var lang := LanguageOf(old(b.db), actor);
      && b.db == InsertTutorial(old(b.db), NewTutorial(SessionOf(old(b.fsm), actor), None))
      && b.fsm == old(b.fsm) - {actor}
      && outs == [Show("tutorial_added_ok_no_media", lang, NoMarkup), Show("tutorials_menu_title", lang, TutorialsAdmin(lang))]
  {
    var lang := LanguageOf(b.db, actor);
    var t := NewTutorial(SessionOf(b.fsm, actor), None);
    b.db := InsertTutorial(b.db, t);
    b.fsm := b.fsm - {actor};
    outs := [Show("tutorial_added_ok_no_media", lang, NoMarkup), Show("tutorials_menu_title", lang, TutorialsAdmin(lang))];
  }

  /** `process_add_tutorial_media`: the tutorial is stored with the file id
      of the photo's largest size or of the video. */
  method ProcessAddTutorialMedia(b: BotState, actor: int, m: Message) returns (outs: seq<Out>)
    requires b.Valid() && b.StateOf(actor) == Some(AddTutorialMedia) && IsPhotoOrVideo(m)
    modifies b
    ensures b.Valid()
    ensures var lang := LanguageOf(old(b.db), actor);
      && b.db == InsertTutorial(old(b.db), NewTutorial(SessionOf(old(b.fsm), actor), Some(MediaFileId(m))))
      && b.fsm == old(b.fsm) - {actor}
      && outs == [Show("tutorial_added_ok_with_media", lang, NoMarkup), Show("tutorials_menu_title", lang, TutorialsAdmin(lang))]
  {
    var lang := LanguageOf(b.db, actor);
    var fileId := MediaFileId(m);
    var t := NewTutorial(SessionOf(b.fsm, actor), Some(fileId));
    b.db := InsertTutorial(b.db, t);
    b.fsm := b.fsm - {actor};
    outs := [Show("tutorial_added_ok_with_media", lang, NoMarkup), Show("tutorials_menu_title", lang, TutorialsAdmin(lang))];
  }

  // ------------------------------------------------------------ mass send

  /** The recipients whose copy goes through, in order, when attempt k
      (counting from 0) succeeds exactly when `ok(k)`. */
  function Delivered(recipients: seq<int>, ok: nat -> bool): (d: seq<int>)
    ensures |d| <= |recipients|
    ensures forall u :: u in d ==> u in recipients
    decreases |recipients|
  {
    if recipients == [] then []
    else
      var n := |recipients| - 1;
      Delivered(recipients[..n], ok) + (if ok(n) then [recipients[n]] else [])
  }

  /** The number of attempts among the first n that succeed. */
  function Successes(ok: nat -> bool, n: nat): (k: nat)
    ensures k <= n
  {
    if n == 0 then 0 else Successes(ok, n - 1) + (if ok(n - 1) then 1 else 0)
  }

  /** Every recipient is attempted: the number delivered depends only on
      how many attempts succeed, not on who the recipients are. */
  lemma {:induction false} DeliveredCount(recipients: seq<int>, ok: nat -> bool)
    ensures |Delivered(recipients, ok)| == Successes(ok, |recipients|)
    decreases |recipients|
  {
    if recipients != [] {
      DeliveredCount(recipients[..|recipients| - 1], ok);
    }
  }

  /** The attempts among the first n that succeed, in the order they are made. */
  function SucceedingAttempts(ok: nat -> bool, n: nat): (idx: seq<nat>)
    ensures Increasing(idx)
    ensures forall k: nat :: k in idx <==> k < n && ok(k)
  {
    if n == 0 then []
    else
      var earlier := SucceedingAttempts(ok, n - 1);
      assert forall j :: 0 <= j < |earlier| ==> earlier[j] < n - 1 by {
        forall j | 0 <= j < |earlier| ensures earlier[j] < n - 1 {
          assert earlier[j] in earlier;
        }
      }
      earlier + (if ok(n - 1) then [n - 1] else [])
  }

  /** `Delivered` is the recipients at the succeeding attempts, in the order
      they are attempted: the j-th delivered copy goes to the recipient of
      the j-th succeeding attempt, and no other recipient gets one. */
  lemma {:induction false} DeliveredInOrder(recipients: seq<int>, ok: nat -> bool)
    ensures var idx := SucceedingAttempts(ok, |recipients|);
            var d := Delivered(recipients, ok);
      && |d| == |idx|
      && forall j :: 0 <= j < |idx| ==> idx[j] < |recipients| && d[j] == recipients[idx[j]]
    decreases |recipients|
  {
    if recipients != [] {
      var n := |recipients| - 1;
      var prefix := recipients[..n];
      DeliveredInOrder(prefix, ok);
      var idx0, d0 := SucceedingAttempts(ok, n), Delivered(prefix, ok);
      var idx, d := SucceedingAttempts(ok, n + 1), Delivered(recipients, ok);
      assert idx == idx0 + (if ok(n) then [n] else []);
      assert d == d0 + (if ok(n) then [recipients[n]] else []);
      forall j | 0 <= j < |idx|
        ensures idx[j] < |recipients| && d[j] == recipients[idx[j]]
      {
        if j < |idx0| {
          assert idx0[j] < n && d0[j] == prefix[idx0[j]];
        }
      }
    }
  }

  function Copies(payload: Message, to: seq<int>): (outs: seq<Out>)
    ensures |outs| == |to|
    ensures forall i :: 0 <= i < |to| ==> outs[i] == Copy(payload, to[i])
  {
    seq(|to|, i requires 0 <= i < |to| => Copy(payload, to[i]))
  }

  /** The loop of `process_send_confirmed`: one `copy_to` per recipient in
      order; a TelegramAPIError counts as a failure and the loop goes on,
      so every recipient is counted once, as a success or as a failure. */
  method Broadcast(payload: Message, recipients: seq<int>, ok: nat -> bool)
    returns (success: nat, fail: nat, outs: seq<Out>)
    ensures success == |Delivered(recipients, ok)|
    ensures success + fail == |recipients|
    ensures outs == Copies(payload, Delivered(recipients, ok))
  {
    success, fail := 0, 0;
    outs := [];
    var i := 0;
    while i < |recipients|
      invariant 0 <= i <= |recipients|
      invariant success == |Delivered(recipients[..i], ok)|
      invariant success + fail == i
      invariant outs == Copies(payload, Delivered(recipients[..i], ok))
    {
      assert recipients[..i + 1][..i] == recipients[..i];
      if ok(i) {
        outs := outs + [Copy(payload, recipients[i])];
        success := success + 1;
      } else {
        fail := fail + 1;
      }
      i := i + 1;
    }
    assert recipients[..|recipients|] == recipients;
  }

  /** Ten recipients of which the fourth and the eighth fail: eight copies
      are delivered and two failures are counted. */
  lemma TenRecipientsTwoFailures(recipients: seq<int>)
    requires |recipients| == 10
    ensures var ok := (k: nat) => k != 3 && k != 7;
      |Delivered(recipients, ok)| == 8 && |recipients| - |Delivered(recipients, ok)| == 2
  {
    var ok := (k: nat) => k != 3 && k != 7;
    DeliveredCount(recipients, ok);
    assert Successes(ok, 4) == 3;
    assert Successes(ok, 8) == 6;
    assert Successes(ok, 10) == 8;
  }

  /** `process_mass_send_start` */
  method ProcessMassSendStart(b: BotState, actor: int) returns (outs: seq<Out>)
    requires b.Valid()
    modifies b
    ensures b.Valid()
    ensures b.db == old(b.db)
    ensures b.fsm == old(b.fsm)[actor := SetState(SessionOf(old(b.fsm), actor), MassSendMessage)]
    ensures outs == [Show("mass_send_ask_message", LanguageOf(old(b.db), actor), NoMarkup)]
  {
    var lang := LanguageOf(b.db, actor);
    b.fsm := b.fsm[actor := SetState(SessionOf(b.fsm, actor), MassSendMessage)];
    outs := [Show("mass_send_ask_message", lang, NoMarkup)];
  }

  /** `process_mass_send_message`: any message is kept as it is. */
  method ProcessMassSendMessage(b: BotState, actor: int, m: Message) returns (outs: seq<Out>)
    requires b.Valid() && b.StateOf(actor) == Some(MassSendMessage)
    modifies b
    ensures b.Valid()
    ensures b.db == old(b.db)
    ensures b.fsm == old(b.fsm)[actor := SetState(UpdateData(SessionOf(old(b.fsm), actor), MessageToSend,
                                                              MessageValue(m)), MassSendConfirm)]
    ensures var lang := LanguageOf(old(b.db), actor);
      outs == [Show("mass_send_confirm_message", lang, ConfirmSend(lang))]
  {
    var lang := LanguageOf(b.db, actor);
    var s := UpdateData(SessionOf(b.fsm, actor), MessageToSend, MessageValue(m));
    b.fsm := b.fsm[actor := SetState(s, MassSendConfirm)];
    outs := [Show("mass_send_confirm_message", lang, ConfirmSend(lang))];
  }

  /** `process_send_cancelled`: the kept message is dropped, nothing is sent. */
  method ProcessSendCancelled(b: BotState, actor: int) returns (outs: seq<Out>)
    requires b.Valid() && b.StateOf(actor) == Some(MassSendConfirm)
    modifies b
    ensures b.Valid()
    ensures b.db == old(b.db) && b.fsm == old(b.fsm) - {actor}
    ensures var lang := LanguageOf(old(b.db), actor);
      outs == [Show("mass_send_cancelled", lang, MainMenu(true, lang))]
  {
    var lang := LanguageOf(b.db, actor);
    b.fsm := b.fsm - {actor};
    outs := [Show("mass_send_cancelled", lang, MainMenu(true, lang))];
  }

  /** `process_send_confirmed`: the workflow ends before sending; the kept
      message is copied to the non-admin users of that moment, in table
      order, and the counts are reported with the admin menu. */
  method ProcessSendConfirmed(b: BotState, actor: int, ok: nat -> bool) returns (outs: seq<Out>)
    requires b.Valid() && b.StateOf(actor) == Some(MassSendConfirm)
    modifies b
    ensures b.Valid()
    ensures b.db == old(b.db) && b.fsm == old(b.fsm) - {actor}
    ensures var lang := LanguageOf(old(b.db), actor);
            var payload := SessionOf(old(b.fsm), actor).data[MessageToSend].message;
            var recipients := NonAdminIds(old(b.db));
            var delivered := Delivered(recipients, ok);
      outs == [Show("mass_send_started", lang, NoMarkup)]
              + Copies(payload, delivered)
              + [Report(lang, |delivered|, |recipients| - |delivered|, MainMenu(true, lang))]
  {
    var lang := LanguageOf(b.db, actor);
    var payload := SessionOf(b.fsm, actor).data[MessageToSend].message;
    b.fsm := b.fsm - {actor};
    outs := [Show("mass_send_started", lang, NoMarkup)];
    var recipients := NonAdminIds(b.db);
    var success, fail, copies := Broadcast(payload, recipients, ok);
    outs := outs + copies + [Report(lang, success, fail, MainMenu(true, lang))];
  }
}
