/** The mutable state of the running bot: the database and aiogram's FSM
    storage, which keeps one state from `AdminStates` and one data
    dictionary per actor. */
module Sessions {
  import opened Wrappers
  import opened Telegram
  import Store

  /** `AdminStates` */
  datatype AdminState =
    | AddUserId
    | AddConfigType
    | AddConfigData
    | AddTutorialTitle
    | AddTutorialText
    | AddTutorialMedia
    | MassSendMessage
    | MassSendConfirm

  /** The keys the handlers write with `update_data`. */
  datatype DataKey = CurrentUserId | ConfigType | Title | Body | MessageToSend

  /** What is stored under a key: `current_user_id` is an int, `config_type`,
      `title` and `text` are `message.text` (None for a non-text message),
      `message_to_send` is the whole message. */
  datatype Value = IdValue(id: int) | TextValue(text: Option<string>) | MessageValue(message: Message)

  datatype Session = Session(state: Option<AdminState>, data: map<DataKey, Value>)

  /** What `state.clear()` leaves: no state and no data. */
  const Idle: Session := Session(None, map[])

  function SessionOf(fsm: map<int, Session>, actor: int): (s: Session)
    ensures actor in fsm ==> s == fsm[actor]
    ensures actor !in fsm ==> s == Idle
  {
    if actor in fsm then fsm[actor] else Idle
  }

  predicate HasId(s: Session, k: DataKey) {
    k in s.data && s.data[k].IdValue?
  }

  predicate HasText(s: Session, k: DataKey) {
    k in s.data && s.data[k].TextValue?
  }

  /** Each state holds the keys that its handler reads with `data[...]`:
      those reads never raise KeyError. */
  predicate WellFormed(s: Session) {
    match s.state
    case Some(AddConfigType) => HasId(s, CurrentUserId)
    case Some(AddConfigData) => HasId(s, CurrentUserId) && HasText(s, ConfigType)
    case Some(AddTutorialText) => HasText(s, Title)
    case Some(AddTutorialMedia) => HasText(s, Title) && HasText(s, Body)
    case Some(MassSendConfirm) => MessageToSend in s.data && s.data[MessageToSend].MessageValue?
    case _ => true
  }

  /** `state.set_state(st)`: aiogram keeps the data dictionary. */
  function SetState(s: Session, st: AdminState): (r: Session)
    ensures r.state == Some(st) && r.data == s.data
  {
    Session(Some(st), s.data)
  }

  /** `state.update_data(k=v)` */
  function UpdateData(s: Session, k: DataKey, v: Value): (r: Session)
    ensures r.state == s.state
    ensures k in r.data && r.data[k] == v
    ensures forall j :: j != k ==> (j in r.data <==> j in s.data)
    ensures forall j :: j != k && j in s.data ==> r.data[j] == s.data[j]
  {
    s.(data := s.data[k := v])
  }

  /** The database and the FSM storage. `clear()` drops the actor's entry,
      which aiogram's storage reads back as `Idle`. */
  class BotState {
    var db: Store.Db
    var fsm: map<int, Session>

    ghost predicate Valid()
      reads this
    {
      && Store.Valid(db)
      && forall a :: a in fsm ==> WellFormed(fsm[a])
    }

    function StateOf(actor: int): Option<AdminState>
      reads this
    {
      SessionOf(fsm, actor).state
    }

    /** `init_db` has run; no one is in a workflow. */
    constructor (db0: Store.Db)
      requires Store.Valid(db0)
      ensures Valid() && db == db0 && fsm == map[]
    {
      db := db0;
      fsm := map[];
    }
  }
}
