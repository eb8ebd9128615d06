/** The values the bot exchanges with Telegram: incoming messages and
    callback queries, keyboard buttons, and the outgoing messages recorded
    in order instead of being sent. */
module Telegram {
  import opened Wrappers

  /** An incoming message, by content type. */
  datatype Message =
    | TextMessage(text: string)
    | DocumentMessage(fileId: string, fileName: string)
    | PhotoMessage(sizes: seq<string>)    // one file id per size, largest last
    | VideoMessage(fileId: string)
  {
    /** `message.text`: `None` for anything but a plain-text message. */
    function MessageText(): Option<string> {
      if TextMessage? then Some(text) else None
    }
  }

  /** An update: a message, or a callback query with its data string. */
  datatype Event = Incoming(message: Message) | Callback(data: string)

  /** What a config button shows after its delete prefix. */
  datatype ConfigDisplay =
    | FileDisplay(lang: string, fileName: string)   // f"{get_text('file_prefix', lang)}: {name}"
    | DataDisplay(kind: string, shortData: string)  // f"{config_type}: {short_data}"

  /** A button label; texts from the localization table stay symbolic. */
  datatype Label =
    | Localized(key: string, lang: string)
    | Plain(text: string)
    | ConfigDelete(lang: string, display: ConfigDisplay)
    | TutorialDelete(lang: string, title: Option<string>)
    | TutorialView(title: Option<string>)

  datatype Button = Button(text: Label, callback: string)

  /** An inline keyboard: rows of buttons, top to bottom. */
  type Keyboard = seq<seq<Button>>

  /** The `reply_markup` a handler attaches, named by the keyboards.py
      builder it calls and that builder's arguments. */
  datatype Markup =
    | NoMarkup
    | MainMenu(isAdmin: bool, lang: string)
    | UsersPage(page: int, lang: string)
    | ConfigUsersPage(page: int, lang: string)
    | UserManagement(userId: int, lang: string)
    | UserConfigsManagement(userId: int, lang: string)
    | TutorialsAdmin(lang: string)
    | TutorialsUser(lang: string)
    | SkipMedia(lang: string)
    | ConfirmSend(lang: string)
    | LanguageChoice

  /** One outgoing action, in the order the handler performs it. */
  datatype Out =
    | Show(key: string, lang: string, markup: Markup)        // answer / edit_text of get_text(key, lang)
    | Alert(key: string, lang: string)                       // callback.answer(get_text(key, lang))
    | UserCard(lang: string, userId: int, username: string, markup: Markup)  // 'manage_user_title' formatted
    | ConfigText(lang: string, kind: string, data: string)   // a text config shown to its owner
    | SendDocument(chatId: int, fileId: string, lang: string, fileName: string)
    | SendPhoto(chatId: int, fileId: string, caption: Option<string>)
    | SendVideo(chatId: int, fileId: string, caption: Option<string>)
    | SendText(text: string)                                 // callback.message.answer(text)
    | DeleteMenu                                             // callback.message.delete()
    | Copy(message: Message, chatId: int)                    // message_to_send.copy_to(chat_id)
    | Report(lang: string, success: nat, fail: nat, markup: Markup)  // 'mass_send_finished' formatted
}
