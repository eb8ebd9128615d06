# Connex bot: a verified model of its workflows and record store

Connex is a Telegram bot built on aiogram and SQLite. Through inline keyboards it lets
administrators manage users, the VPN configurations ("configs") that belong to them, help
tutorials and mass messages. Ordinary users use it to read their own configs and the tutorials.
This project models the bot's core in Dafny:

- `Store` (store.dfy): the three SQLite tables (`users`, `configs`, `tutorials`) as maps,
  with an AUTOINCREMENT counter for each of the two tables that has one. Each SQL statement the
  handlers run is a function from one database value to the next. Scans return ids in
  ascending key order, the order SQLite uses on an INTEGER PRIMARY KEY table when the query
  has no ORDER BY.
- `Sessions` (sessions.dfy): aiogram's per-actor FSM storage. Each actor has a state from
  `AdminStates` and a data dictionary. `BotState` is the class that holds the database and
  this storage, and the handlers change it in place.
- `AdminHandlers`, `UserHandlers` and `SettingsHandlers` model the three routers of
  handlers/:
  - a handler that writes, or that moves the actor's workflow, is a method on `BotState`;
  - a handler that only reads and replies is a function;
  - what a handler sends is an ordered list of `Out` values.
- `Keyboards` (keyboards.py): the keyboards. Each builder that loops over rows is a method
  proved equal to a specification of the rows. Pagination is stated as a window over the
  ordered list of non-admin users.
- `Callbacks` and `PyText`: how callback data is written (`f"manage_user_{id}"`,
  `f"delete_config:{cid}:{uid}"`) and read back (`split("_")[-1]`, `split(":")`, `int()`),
  with round-trip lemmas.
- `Startup` (main.py): `init_db`'s admin upsert loop and the `/start` handler.
- `Dispatcher`: routing of an update, in the order main.py and the routers register handlers:
  - the dispatcher's own `/start` handler comes first;
  - then the admin router, the user router and the settings router, in that order;
  - within a router, the first handler whose filters match wins.

The environment is given as parameters. That covers `ADMIN_IDS`, the sender's username,
which broadcast copies Telegram accepts, and whether Telegram accepts a tutorial file as a
photo. Localized texts stay symbolic, as a (key, language) pair.

Where the code disagrees with its own comments or schema, the model follows the code. In
particular:

- `state.set_state` keeps the data dictionary; only `state.clear()` empties it.
- `process_add_config_type` accepts any message. A message without text stores `None` as
  the config type (a NULL `config_type`).
- A NULL config type makes `config_type.startswith` raise. The admin config keyboard and
  "my configs" then fail: the messages sent so far stay, and nothing after them is sent.
- The admin router has no admin filter. Any user who sends an admin callback reaches the
  admin handler; the model does not restrict the actor.
- `process_settings` and `process_set_language` subscript `fetchone()`. For an unregistered
  caller they raise, and nothing is shown.
- The delete-user cascade does not happen as written (see Findings). The handler's model
  uses the cascading delete that the schema and the handler's comment intend.

## Model

| member | source | states |
|---|---|---|
| `PyText.Split` | handlers/admin_handlers.py:158 | `str.split` gives at least one piece, and no piece holds the separator |
| `PyText.JoinSplit` | handlers/admin_handlers.py:158 | splitting loses nothing: joining the pieces with the separator gives the string back |
| `PyText.SplitWithoutSeparator` | handlers/admin_handlers.py:158 | a string without the separator splits into itself alone |
| `PyText.SplitAppend` | handlers/admin_handlers.py:158 | appending a separator and a separator-free tail adds exactly that tail as one more piece |
| `PyText.LastSegmentAfter` | handlers/admin_handlers.py:55 | `split(sep)[-1]` of `s + sep + t`, with no separator in t, is t, whatever s holds |
| `PyText.AfterFirstOfJoin` | keyboards.py:117 | `split(':', 1)[1]` is everything after the first colon, colons included |
| `PyText.Shorten` | keyboards.py:119 | strings of at most n characters stay as they are; longer ones become their first n characters followed by "..." |
| `PyText.NatToString` | keyboards.py:58 | `str(n)` of a non-negative number is a non-empty run of decimal digits |
| `PyText.ParseInt` | handlers/admin_handlers.py:112 | `int()` succeeds only on a non-empty string whose characters after the first are digits, and always on a digit string |
| `PyText.NatToStringValue` | keyboards.py:58 | the digits `str(n)` writes denote n |
| `PyText.ParseIntToString` | handlers/admin_handlers.py:65 | `int(str(n)) == n` for every integer, negative ones included |
| `PyText.NoSeparatorInNumber` | keyboards.py:58 | `str(n)` never holds '_' or ':', the callback separators |
| `PyText.LastSegment` | handlers/admin_handlers.py:55 | `split(sep)[-1]` is the tail after the last separator: it holds no separator, ends the string, and is preceded by the separator unless it is the whole string |
| `PyText.IntToString` | keyboards.py:58 | `str(n)` is a non-empty run of decimal digits, led by a single '-' exactly when n is negative |
| `PyText.TrimStart` | main.py:78 | `lstrip()` removes exactly the leading whitespace: what it drops is whitespace, and what it keeps is a tail that does not start with whitespace |
| `PyText.Word` | main.py:78 | the longest prefix without whitespace: whitespace or the end of the string follows it |
| `PyText.FirstWord` | main.py:78 | `split(maxsplit=1)[0]` is absent exactly for a blank string, and otherwise a non-empty word without whitespace |
| `PyText.FirstWordOfPrefix` | main.py:78 | a text that starts with a whole word (followed by whitespace or by nothing) has that word first |
| `Callbacks.WithIdShape` | keyboards.py:58 | `f"{stem}_{n}"` starts with the stem and '_', and the rest is `str(n)`: digits, with '-' only for a negative n |
| `Callbacks.TrailingId` | handlers/admin_handlers.py:55 | data without '_' is parsed whole; any id read is `int()` of a '_'-free tail of the data |
| `Callbacks.TrailingIdRoundTrip` | handlers/admin_handlers.py:55 | every `f"{stem}_{n}"` is read back as n by `int(data.split("_")[-1])`, although stems hold '_' themselves |
| `Callbacks.SplitThree` | handlers/admin_handlers.py:158 | three separator-free pieces joined by ':' split back into exactly those three |
| `Callbacks.DeleteConfigRoundTrip` | handlers/admin_handlers.py:158-159 | `f"delete_config:{cid}:{uid}"` unpacks back into (cid, uid) |
| `Callbacks.DeleteConfigIds` | handlers/admin_handlers.py:158-159 | the unpacking fails unless `split(":")` gives exactly three pieces; the ids read are `int()` of the second and third |
| `Callbacks.LanguageCode` | handlers/settings_handlers.py:29 | the code is the '_'-free tail that ends the data |
| `Callbacks.LanguageCodeRoundTrip` | handlers/settings_handlers.py:29 | `set_lang_{code}` gives back code when code has no '_' |
| `Callbacks.LanguageCodeIsNotValidated` | handlers/settings_handlers.py:29 | the code is not checked: `set_lang_pt_BR` sets "BR" |
| `Store.MinExists` | handlers/admin_handlers.py:351 | a non-empty set of ids has a least element (the next row of a key-ordered scan) |
| `Store.PrependMin` | handlers/admin_handlers.py:351 | the least id followed by the rest in ascending order is the whole set in ascending order |
| `Store.Ascending` | handlers/admin_handlers.py:351 | a scan returns every id of the set exactly once, in strictly increasing order |
| `Store.LanguageOf` | handlers/admin_handlers.py:21-27 | `get_admin_lang` / `get_user_lang`: the stored language_code, or 'en' when the row is absent |
| `Store.InsertUser` | handlers/admin_handlers.py:120 | a new user row with that key; every other row and both other tables are unchanged; ids stay fresh |
| `Store.UpsertAdmin` | main.py:63-67 | afterwards the id is an admin. An absent id gets no username and 'en'. A present id keeps its username and language. No other row changes |
| `Store.SetLanguage` | handlers/settings_handlers.py:34 | only the language of that row changes; with no row, nothing changes |
| `Store.DeleteUser` | handlers/admin_handlers.py:88-92 | the user row and exactly the configs it owns are removed (ON DELETE CASCADE); no other config changes |
| `Store.DeleteUserWithoutForeignKeys` | handlers/admin_handlers.py:90 | as written: on a connection where foreign keys are off, only the user row goes |
| `Store.InsertConfig` | handlers/admin_handlers.py:209-210 | the row is stored under an id no row has had, and the counter moves past it |
| `Store.DeleteConfig` | handlers/admin_handlers.py:164 | exactly the config with that id is removed; users and tutorials are untouched |
| `Store.InsertTutorial` | handlers/admin_handlers.py:278 | the row is stored under an id no row has had, and the counter moves past it |
| `Store.DeleteTutorial` | handlers/admin_handlers.py:238 | exactly the tutorial with that id is removed |
| `Store.NonAdminIds` | handlers/admin_handlers.py:351 | `WHERE is_admin = 0`: exactly the non-admin users, in key order |
| `Store.ConfigIdsOf` | handlers/user_handlers.py:36 | `WHERE user_id = ?`: exactly the configs of that owner, in key order |
| `Store.TutorialIds` | keyboards.py:135 | every tutorial, in key order |
| `Store.ConfigIdsAreFresh` | main.py:45 | two successive inserts get two distinct ids, neither used before, and both rows are kept |
| `Store.DeleteUserLeavesNoConfigs` | main.py:49 | with the cascade, a deleted user has no configs left |
| `Store.DeleteWithoutForeignKeysLeavesOrphans` | main.py:30 | as written, a deleted user's config stays and is still listed for the removed id |
| `Sessions.SessionOf` | handlers/admin_handlers.py:194 | an actor with no storage entry reads as no state and no data |
| `Sessions.SetState` | handlers/admin_handlers.py:180 | `set_state` changes the state and keeps the data dictionary |
| `Sessions.UpdateData` | handlers/admin_handlers.py:179 | `update_data` sets one key, keeps every other key and the state |
| `Sessions.BotState.constructor` | main.py:124 | after `init_db` the state is valid and no one is in a workflow |
| `Startup.UpsertStep` | main.py:62-67 | one more upsert keeps the loop's invariant: the ids done so far are upserted, and nothing else changed |
| `Startup.InitDb` | main.py:62-67 | after the loop, the keys are the old users plus ADMIN_IDS. An absent admin gets `(None, admin, 'en')`. A present one gets only is_admin set. Others and the other tables are unchanged |
| `Startup.WelcomeKey` | main.py:111 | the key is 'welcome_admin' exactly when is_admin |
| `Startup.SendWelcome` | main.py:85-118 | a known user is greeted by the stored role and language, with no write. An unknown one is inserted (admin iff listed, with the username and 'en') and greeted with that role and 'en' |
| `Startup.SecondStartChangesNothing` | main.py:92-97 | a second /start writes nothing and greets as the first did |
| `Keyboards.PageItems` | keyboards.py:50-51 | at most five users: those from position page*5 on, consecutively (none for an offset past the end or a negative page's clamped offset) |
| `Keyboards.Offset` | keyboards.py:50 | the OFFSET is page*5 for a page from 0 on; SQLite reads a negative offset as 0 |
| `Keyboards.HasPrev` | keyboards.py:61 | "prev" is offered exactly when the page does not start at the first row |
| `Keyboards.HasNext` | keyboards.py:63 | from page 0 on, "next" is offered exactly when rows remain after this page |
| `Keyboards.UserLabel` | keyboards.py:57 | "@" and the username when there is a non-empty one, otherwise "ID: " and the id |
| `Keyboards.EveryUserIsOnItsPage` | keyboards.py:50-51 | the k-th non-admin user is listed on page k / 5 at position k % 5 |
| `Keyboards.NextIffNextPageHasUsers` | keyboards.py:63 | "next" is offered exactly when the next page has users |
| `Keyboards.PrevPageIsFull` | keyboards.py:61 | "prev" on a page with users leads to a full page |
| `Keyboards.TwelveUsers` | keyboards.py:60-64 | with 12 users, page 0 has 5 and only "next"; page 2 has 2 and no "next"; page 5 is empty with no "next" |
| `Keyboards.NavRow` | keyboards.py:60-64 | "prev" iff page > 0, read back as page-1; "next" iff (page+1)*5 < total, read back as page+1; the row holds nothing else |
| `Keyboards.TrailingIdRoundTripAll` | keyboards.py:58 | every id written after any stem is read back |
| `Keyboards.PageRows` | keyboards.py:55-66 | one row per listed user, which its handler reads back as that user's id, then the navigation row only when it is not empty |
| `Keyboards.UserRowsReadBack` | keyboards.py:58 | every user row's callback is read back by its handler as that user's id |
| `Keyboards.UserButtonRows` | keyboards.py:56-58 | the loop appends one user button row per user of the page, in order |
| `Keyboards.NavButtons` | keyboards.py:60-64 | the appended navigation buttons are exactly the prev/next row |
| `Keyboards.UserPageRows` | keyboards.py:55-66 | the two loops together build the page rows |
| `Keyboards.UsersKeyboard` | keyboards.py:45-70 | page rows, then "add user", then "back" |
| `Keyboards.UsersForConfigsKeyboard` | keyboards.py:80-105 | page rows with the config-management callbacks, then "back" |
| `Keyboards.FileKindTail` | keyboards.py:117 | for a `file:` type, the text after the first colon is everything after "file:" |
| `Keyboards.ConfigDisplayOf` | keyboards.py:115-120 | a `file:` type shows what follows the first colon. Another type shows itself and its data, cut to 20 characters plus "..." when longer. A NULL type raises |
| `Keyboards.DocumentConfigShowsFileName` | keyboards.py:116-117 | a config stored from a document shows exactly the document name, even with colons in it |
| `Keyboards.RaisesIffListedConfigIsNull` | keyboards.py:115-116 | the keyboard raises exactly when one of the user's listed configs has a NULL type |
| `Keyboards.ConfigButtonsReadBack` | keyboards.py:123 | every delete button is read back by its handler as (its config id, the user id) |
| `Keyboards.ConfigButtons` | keyboards.py:114-123 | the loop gives one delete button per config in order, or raises exactly when one has a NULL type |
| `Keyboards.UserConfigsKeyboard` | keyboards.py:107-128 | the user's configs in key order, then "add config", "back to users" and "main menu"; raises exactly when a config has a NULL type |
| `Keyboards.MainKeyboard` | keyboards.py:11-28 | admins get users ("admin_users_page_0"), configs ("admin_configs_page_0"), tutorials ("admin_tutorials_menu") and mass send ("mass_send_start"); users get their configs ("user_configs") and help ("user_help"); "settings" is the last row for everyone; every caption in the given language |
| `Keyboards.LanguageButtonsSetTheirCode` | keyboards.py:37-41 | the two language buttons set exactly "en" and "ru" |
| `Keyboards.TutorialDeleteButtons` | keyboards.py:139-141 | one delete row per tutorial, in order |
| `Keyboards.TutorialsAdminKeyboard` | keyboards.py:132-145 | a delete row per tutorial in key order, then "add tutorial" and "back" |
| `Keyboards.TutorialButtonsReadBack` | keyboards.py:141 | the delete and view buttons are read back as the id of their tutorial |
| `Keyboards.TutorialViewButtons` | keyboards.py:158-159 | one view row per tutorial, in order |
| `Keyboards.TutorialsUserKeyboard` | keyboards.py:147-168 | no tutorials: a single `no_tutorials_yet` row; otherwise a view row per tutorial in key order. The back row is last in both cases |
| `AdminHandlers.IdOfText` | handlers/admin_handlers.py:112 | `int(message.text)` fails (TypeError) on a message without text and is `int()` of the text otherwise |
| `AdminHandlers.ConfigsScreen` | handlers/admin_handlers.py:216-219 | the configs screen is shown unless the user has a NULL-type config, which makes building it raise |
| `AdminHandlers.ProcessAdminMenu` | handlers/admin_handlers.py:41-49 | the actor's workflow state and data are dropped, and the admin menu is shown |
| `AdminHandlers.ProcessUsersList` | handlers/admin_handlers.py:53-61 | the page number is the last `_` piece; an unreadable one raises before anything is shown |
| `AdminHandlers.DisplayName` | handlers/admin_handlers.py:73 | the stored username when there is a non-empty one, "N/A" otherwise |
| `AdminHandlers.ProcessManageUser` | handlers/admin_handlers.py:63-81 | the card of the user whose id is the last `_` piece, in the actor's language, with the user-management keyboard for that id |
| `AdminHandlers.ProcessDeleteUser` | handlers/admin_handlers.py:83-99 | an unreadable id raises before anything happens. Otherwise the user and the configs it owns are deleted (the cascade the handler's comment relies on), then the alert and users page 0 follow; the FSM is untouched |
| `AdminHandlers.ProcessAddUserStart` | handlers/admin_handlers.py:101-106 | the actor enters `add_user_id`; the database is unchanged |
| `AdminHandlers.ProcessAddUserId` | handlers/admin_handlers.py:108-131 | unreadable text: `invalid_id_format`, no write, state kept. A present id: no write. An absent id: exactly one row with language 'en'. Both end the workflow |
| `AdminHandlers.ProcessConfigUsersList` | handlers/admin_handlers.py:136-144 | the page number is the last `_` piece |
| `AdminHandlers.ProcessUserConfigsManage` | handlers/admin_handlers.py:146-154 | nothing is shown exactly when the id cannot be read or the keyboard raises |
| `AdminHandlers.ProcessDeleteConfig` | handlers/admin_handlers.py:156-172 | exactly the config named by the middle piece is deleted; the configs screen of the last piece follows |
| `AdminHandlers.ProcessAddConfigStart` | handlers/admin_handlers.py:175-182 | the owner id is kept and the actor enters `add_config_type` |
| `AdminHandlers.ProcessAddConfigType` | handlers/admin_handlers.py:184-189 | `message.text` (None for non-text) is kept as the type and the actor enters `add_config_data` |
| `AdminHandlers.NewConfig` | handlers/admin_handlers.py:195-205 | the row is owned by the captured user. A document gives `"file:"+name` and its file id, whatever type was captured. Text gives the captured type and the text |
| `AdminHandlers.DocumentConfigIsListedByName` | handlers/admin_handlers.py:198-201 | a document config is listed by its file name, whatever type was typed before |
| `AdminHandlers.ProcessAddConfigData` | handlers/admin_handlers.py:191-219 | exactly one config row under a fresh id, the workflow cleared, then the owner's configs screen |
| `AdminHandlers.ProcessTutorialsMenu` | handlers/admin_handlers.py:222-229 | exactly one screen: the tutorials menu title with the tutorials admin keyboard, both in the actor's language |
| `AdminHandlers.ProcessDeleteTutorial` | handlers/admin_handlers.py:232-245 | exactly the tutorial named by the last `_` piece is deleted |
| `AdminHandlers.ProcessAddTutorialStart` | handlers/admin_handlers.py:247-252 | the actor enters `add_tutorial_title` |
| `AdminHandlers.ProcessAddTutorialTitle` | handlers/admin_handlers.py:254-259 | the title is kept and the actor enters `add_tutorial_text` |
| `AdminHandlers.ProcessAddTutorialText` | handlers/admin_handlers.py:261-269 | the text is kept, the actor enters `add_tutorial_media` and "skip" is offered |
| `AdminHandlers.NewTutorial` | handlers/admin_handlers.py:278 | the stored tutorial carries the title and text captured at the two earlier steps |
| `AdminHandlers.MediaFileId` | handlers/admin_handlers.py:293-297 | the file id of the photo's last (largest) size, or of the video |
| `AdminHandlers.ProcessSkipMedia` | handlers/admin_handlers.py:271-287 | a tutorial without a file under a fresh id, then the workflow is cleared |
| `AdminHandlers.ProcessAddTutorialMedia` | handlers/admin_handlers.py:289-310 | a tutorial with the media's file id under a fresh id, then the workflow is cleared |
| `AdminHandlers.Delivered` | handlers/admin_handlers.py:355-364 | the delivered recipients are some of the recipients, no more of them than there are |
| `AdminHandlers.DeliveredCount` | handlers/admin_handlers.py:355-364 | the number delivered is the number of successful attempts: every recipient is attempted |
| `AdminHandlers.SucceedingAttempts` | handlers/admin_handlers.py:355-364 | the attempts that succeed, in increasing order: exactly the k below the number of recipients with `ok(k)` |
| `AdminHandlers.DeliveredInOrder` | handlers/admin_handlers.py:355-364 | the j-th delivered copy goes to the recipient of the j-th succeeding attempt, and there are no other deliveries |
| `AdminHandlers.Copies` | handlers/admin_handlers.py:359 | one copy of the payload per delivered recipient, in order |
| `AdminHandlers.Broadcast` | handlers/admin_handlers.py:355-364 | success counts the delivered copies; success + fail is the number of recipients; the copies go out in order |
| `AdminHandlers.TenRecipientsTwoFailures` | handlers/admin_handlers.py:355-364 | ten recipients, two of them failing: eight delivered, two failures |
| `AdminHandlers.ProcessMassSendStart` | handlers/admin_handlers.py:313-318 | the actor enters `mass_send_message` |
| `AdminHandlers.ProcessMassSendMessage` | handlers/admin_handlers.py:320-328 | any message is kept as the payload; the actor enters `mass_send_confirm` |
| `AdminHandlers.ProcessSendCancelled` | handlers/admin_handlers.py:330-338 | the workflow is cleared and nothing is sent |
| `AdminHandlers.ProcessSendConfirmed` | handlers/admin_handlers.py:340-373 | the workflow is cleared before sending; the payload goes to the non-admin users of that moment, in key order; the report has success and fail counts adding up to their number and comes with the admin main menu in the actor's language |
| `UserHandlers.ProcessBackToMainMenu` | handlers/user_handlers.py:20-27 | the non-admin main menu in the caller's language |
| `UserHandlers.ConfigMessage` | handlers/user_handlers.py:44-50 | a `file:` config goes as the document its data names, captioned with the text after the first colon. Any other goes as text. A NULL type raises |
| `UserHandlers.Rendered` | handlers/user_handlers.py:44-50 | one message per config, each its config's message |
| `UserHandlers.RenderConfigs` | handlers/user_handlers.py:44-50 | the loop sends the configs in order up to the first NULL type, where it stops |
| `UserHandlers.ProcessUserConfigs` | handlers/user_handlers.py:29-56 | `ShowsOwnConfigs`: no configs gives only `no_configs_yet`, then the menu. Otherwise "your configs", the caller's configs in key order, then the menu. At the first NULL type: the messages before it and no menu |
| `UserHandlers.OnlyOwnConfigsAreShown` | handlers/user_handlers.py:36 | every config shown belongs to the caller |
| `UserHandlers.ProcessUserHelp` | handlers/user_handlers.py:58-65 | the users' tutorial list in the caller's language |
| `UserHandlers.ProcessViewTutorial` | handlers/user_handlers.py:67-98 | an unreadable id shows nothing; an unknown id gives only the `error_not_found` alert. A known one removes the menu message, then sends the tutorial (photo, or video when the photo is refused, or its text without media) and the menu. A tutorial with neither media nor text stops after the removal, where `answer(None)` raises |
| `UserHandlers.TutorialButtonsOpenTheirTutorial` | handlers/user_handlers.py:71 | each button of the users' list opens its own tutorial: the menu message goes, and a text tutorial is sent as its own text |
| `SettingsHandlers.ProcessSettings` | handlers/settings_handlers.py:11-24 | nothing is shown exactly when the caller has no row; otherwise the language choice in their language |
| `SettingsHandlers.ProcessSetLanguage` | handlers/settings_handlers.py:27-48 | only the caller's language changes, to the unchecked code, and is_admin is kept. Confirmation and menu come in the new code, chosen by the stored role. An unregistered caller: no change, nothing shown |
| `Dispatcher.FirstOf` | main.py:73-75 | a router is consulted only when the earlier ones matched nothing |
| `Dispatcher.UsersSectionRoute` | handlers/admin_handlers.py:53-101 | the user section takes a callback exactly when one of its four filters matches, and answers only with its own handlers |
| `Dispatcher.ConfigsSectionRoute` | handlers/admin_handlers.py:136-175 | the config section takes a callback exactly when one of its four filters matches, and answers only with its own handlers |
| `Dispatcher.TutorialsSectionRoute` | handlers/admin_handlers.py:222-271 | the tutorial section takes a callback exactly when one of its filters matches; "skip_media" only in `add_tutorial_media` |
| `Dispatcher.MassSendSectionRoute` | handlers/admin_handlers.py:313-340 | the mass messaging section takes "mass_send_start" always, and the cancel and confirm buttons only in `mass_send_confirm` |
| `Dispatcher.AdminRouterRoute` | handlers/admin_handlers.py:41-340 | the admin router answers only with admin handlers, and takes a callback exactly when the menu filter or one of its sections matches |
| `Dispatcher.UserRouterRoute` | handlers/user_handlers.py:20-67 | the user router takes a callback exactly when one of its four filters matches, and answers only with its own handlers |
| `Dispatcher.SettingsRouterRoute` | handlers/settings_handlers.py:11-27 | the settings router takes "settings" and the `set_lang_` callbacks and nothing else |
| `Dispatcher.CallbackRoute` | main.py:73-75 | a user handler is reached only when the admin router matches nothing, a settings handler only when neither earlier router matches; state-bound buttons act only in their state; no handler exactly when no filter of any router matches |
| `Dispatcher.UsersPageCallbacksRoute` | handlers/admin_handlers.py:53 | every `admin_users_page_` callback reaches the users list |
| `Dispatcher.ManageUserCallbacksRoute` | handlers/admin_handlers.py:63 | every `manage_user_` callback reaches the user card |
| `Dispatcher.DeleteUserCallbacksRoute` | handlers/admin_handlers.py:83 | every `delete_user_` callback reaches the delete handler |
| `Dispatcher.ConfigsPageCallbacksRoute` | handlers/admin_handlers.py:136 | every `admin_configs_page_` callback reaches the config users list |
| `Dispatcher.UserConfigsManageCallbacksRoute` | handlers/admin_handlers.py:146 | every `user_configs_manage_` callback reaches the config management screen |
| `Dispatcher.DeleteConfigCallbacksRoute` | handlers/admin_handlers.py:156 | every `delete_config:` callback reaches the delete handler |
| `Dispatcher.AddConfigCallbacksRoute` | handlers/admin_handlers.py:175 | every `add_config_` callback reaches the add-config start |
| `Dispatcher.DeleteTutorialCallbacksRoute` | handlers/admin_handlers.py:232 | every `delete_tutorial_` callback reaches the delete handler |
| `Dispatcher.ViewTutorialCallbacksRoute` | handlers/user_handlers.py:67 | every `view_tutorial_` callback passes the admin router and reaches the viewer |
| `Dispatcher.SetLanguageCallbacksRoute` | handlers/settings_handlers.py:27 | every `set_lang_` callback passes the other routers and reaches the language setter |
| `Dispatcher.SkipMediaCallbackRoutes` | handlers/admin_handlers.py:271 | "skip_media" acts only in `add_tutorial_media`; otherwise no handler takes it |
| `Dispatcher.CancelCallbackRoutes` | handlers/admin_handlers.py:330 | "send_cancelled" acts only in `mass_send_confirm` |
| `Dispatcher.SendCallbackRoutes` | handlers/admin_handlers.py:340 | "send_confirmed" acts only in `mass_send_confirm` |
| `Dispatcher.NoOpCallbackIsUnhandled` | keyboards.py:156 | the "no tutorials yet" button reaches no handler |
| `Dispatcher.UsersPageButtonRoutes` | keyboards.py:62 | the users page buttons reach the users list |
| `Dispatcher.ManageUserButtonRoutes` | keyboards.py:58 | the user buttons reach the user card |
| `Dispatcher.DeleteUserButtonRoutes` | keyboards.py:74 | the delete-user button reaches the delete handler |
| `Dispatcher.UserCardOffersDelete` | handlers/admin_handlers.py:63-81 | the user card carries the keyboard of the user it shows: its delete button reaches the delete handler with that same id, and its back button reaches users page 0 |
| `Dispatcher.TutorialsMenuCallbackRoute` | handlers/admin_handlers.py:222 | "admin_tutorials_menu" reaches the tutorials menu in every state |
| `Dispatcher.MassSendStartCallbackRoute` | handlers/admin_handlers.py:313 | "mass_send_start" reaches the mass-send start in every state |
| `Dispatcher.UserConfigsCallbackRoute` | handlers/user_handlers.py:29 | "user_configs" passes the admin router and reaches the user's configs |
| `Dispatcher.UserHelpCallbackRoute` | handlers/user_handlers.py:58 | "user_help" passes the admin router and reaches the tutorial list |
| `Dispatcher.SettingsCallbackRoute` | handlers/settings_handlers.py:11 | "settings" passes the admin and user routers and reaches the settings screen |
| `Dispatcher.AdminMenuButtonsRoute` | keyboards.py:11-28 | the four admin menu buttons reach the users list, the config users list, the tutorials menu and the mass-send start |
| `Dispatcher.UserMenuButtonsRoute` | keyboards.py:11-28 | the two user menu buttons reach the user's configs and the tutorial list |
| `Dispatcher.MainMenuButtonsRoute` | keyboards.py:11-28 | every main menu button, admin or user, reaches the section it names, and the last one reaches settings |
| `Dispatcher.ConfigsPageButtonRoutes` | keyboards.py:98 | the config users page buttons reach the config users list |
| `Dispatcher.UserConfigsManageButtonRoutes` | keyboards.py:94 | the config user buttons reach the config management screen |
| `Dispatcher.DeleteConfigButtonRoutes` | keyboards.py:123 | the delete-config buttons reach the delete handler |
| `Dispatcher.AddConfigButtonRoutes` | keyboards.py:125 | the add-config button reaches the add-config start |
| `Dispatcher.DeleteTutorialButtonRoutes` | keyboards.py:141 | the delete-tutorial buttons reach the delete handler |
| `Dispatcher.ViewTutorialButtonRoutes` | keyboards.py:159 | the view-tutorial buttons reach the viewer |
| `Dispatcher.SetLanguageButtonsRoute` | keyboards.py:37-41 | both language buttons reach the language setter |
| `Dispatcher.SkipMediaButtonRoutes` | keyboards.py:178-181 | the skip button acts only in `add_tutorial_media` |
| `Dispatcher.ConfirmButtonsRoute` | keyboards.py:172-176 | send and cancel act only in `mass_send_confirm` |
| `Dispatcher.NoOpButtonIsUnhandled` | keyboards.py:156 | the placeholder row's button reaches no handler |
| `Dispatcher.IsStartCommand` | main.py:78 | `Command("start")` takes only a text message whose first word after leading whitespace is "/start", and takes every one that starts with "/start" followed by whitespace or by nothing |
| `Dispatcher.StartOpensText` | main.py:78 | a text that starts with "/start" followed by whitespace or by nothing has "/start" as its first word |
| `Dispatcher.StartCommandAccepted` | main.py:78 | "/start" and "/start promo" are the command |
| `Dispatcher.LongerWordIsNotStart` | main.py:78 | "/starting" is not the command |
| `Dispatcher.BlankIsNotStart` | main.py:78 | a blank text is not the command |
| `Dispatcher.HandleUserOrConfigStep` | handlers/admin_handlers.py:108-219 | `StepEffect` in `add_user_id`, `add_config_type` and `add_config_data`: the new database, sessions and messages are those of the state's handler, or nothing changes when its filter refuses the message; no other actor's session changes |
| `Dispatcher.HandleTutorialStep` | handlers/admin_handlers.py:254-310 | `StepEffect` in the three tutorial states: title and text are kept and the workflow moves on; a photo or video stores the tutorial and ends it; any other message at the media step changes nothing |
| `Dispatcher.HandleMassSendStep` | handlers/admin_handlers.py:320-328 | `StepEffect` in `mass_send_message` (the message is kept and the confirmation asked), and in `mass_send_confirm` or outside a workflow, where nothing changes and nothing is sent |
| `Dispatcher.DispatchMessage` | main.py:78-79 | /start greets as `send_welcome` does and never touches a workflow. Any other message has the `StepEffect` of the actor's state: outside a workflow, refused by a content filter, or awaiting the confirmation, it changes nothing and sends nothing |
| `Dispatcher.HandleUsersSection` | handlers/admin_handlers.py:41-131 | `UsersSectionEffect`: for each route of the admin menu and the user handlers, the new database, sessions and messages are exactly those of its handler; state stays valid; only the actor's session may change |
| `Dispatcher.HandleConfigsSection` | handlers/admin_handlers.py:136-219 | `ConfigsSectionEffect`: for each route of the config handlers, the new database, sessions and messages are exactly those of its handler; state stays valid; only the actor's session may change |
| `Dispatcher.HandleTutorialsSection` | handlers/admin_handlers.py:222-310 | `TutorialsSectionEffect`: for each route of the tutorial handlers, the new database, sessions and messages are exactly those of its handler; state stays valid; only the actor's session may change |
| `Dispatcher.HandleMassSendSection` | handlers/admin_handlers.py:313-373 | `MassSendSectionEffect`: for each route of the mass messaging handlers, the new database, sessions and messages are exactly those of its handler; state stays valid; only the actor's session may change |
| `Dispatcher.HandleOtherCallback` | handlers/user_handlers.py:20-98 | `OtherRoutersEffect`: the user and settings handlers have their own effects; an unmatched callback changes nothing and sends nothing |
| `Dispatcher.DispatchCallback` | main.py:73-75 | `CallbackEffect` of the route `CallbackRoute` picks: exactly the effect of that handler, nothing for an unmatched callback; only the actor's session may change |
| `Dispatcher.Dispatch` | main.py:73-79 | per update: /start greets, another message has its `StepEffect`, a callback its `CallbackEffect`; the state stays valid (ids fresh, every session holding the keys its next handler reads) and other actors' sessions are untouched |

## Left out

- Telegram I/O is recorded as an ordered list of outgoing actions, not performed. `edit_text` and `answer` with a text are both `Show`. The empty `callback.answer()` calls, `parse_mode` and `reply_markup=None` are not recorded.
- `localization.get_text` is not part of this model: texts are (key, language) pairs, and the `format` of `manage_user_title` and `mass_send_finished` is a value holding its arguments.
- The aiogram filter machinery and the FSM storage backend are replaced by the routing functions and a map from actor to session. Updates are handled one at a time, to completion; the async concurrency is left out.
- `asyncio.sleep(0.1)` between broadcast copies and the `print` of a failure are left out (timing and logging only).
- `PyText.ParseInt`: Python's `int()` also strips whitespace and accepts '_' between digits and non-ASCII digits; the model accepts only an optional sign and ASCII digits.
- SQLite stores 64-bit integers; ids and pages beyond that range, which make `sqlite3` raise OverflowError, are not modelled (integers are unbounded).
- A document without a file name (`file_name` None, giving the type "file:None") is not modelled; the document's name is a string.
- Exceptions other than the ones named here are not modelled. The model covers: `int()` failing; `startswith` on a NULL type; subscripting a missing row in the settings handlers; `TelegramAPIError` in the broadcast; the photo-to-video fallback. A failing `send_document`, a failing video fallback and non-Telegram errors in `copy_to` are left out.
- `get_back_to_menu_keyboard` (keyboards.py:30-33) is not modelled: no handler uses it.
- `main()`, polling and `BOT_TOKEN` are left out; `ADMIN_IDS` is a parameter.
- Dispatcher.IsStartCommand: aiogram's `Command` also reads a media message's caption, so a photo, video or document captioned "/start" is the command there. Incoming messages here carry no caption, so the model never greets one. The `/start@botname` form, checked against the bot's own username, is left out as well.
- AdminHandlers.ProcessDeleteUser: models the cascading delete (`Store.DeleteUser`) that the schema and the handler's comment intend. As written, the handler's connection has foreign keys off and the configs stay (`Store.DeleteUserWithoutForeignKeys`, see Findings).

## Findings

| source | as written | input that shows it | evidently intended | confidence | as-written member | corrected member |
|---|---|---|---|---|---|---|
| main.py:30 | `PRAGMA foreign_keys = ON` runs only on `init_db`'s connection. SQLite applies it per connection, so `process_delete_user`'s new connection deletes the user row but not the user's configs | user 7 owning config 1, then the callback `delete_user_7`: config 1 stays, still owned by 7 | the configs of a deleted user are deleted, as the `ON DELETE CASCADE` at main.py:49 and the comment at handlers/admin_handlers.py:91 say | not executed | `Store.DeleteWithoutForeignKeysLeavesOrphans` | `Store.DeleteUserLeavesNoConfigs` |
