/**
 * The dialogue engine of bot.py as a function: the conversational states, the
 * inbound events, the replies, the order in which message handlers are tried (`Route`)
 * and what each handler does to the store and to the sender's state.
 */
module Dialogue {
  import opened Models
  import opened Database
  import opened Menu

  // ---------------------------------------------------------------- conversational state

  /**
   * What the FSM storage keeps for one (chat, user): no state, the form in
   * progress with its data, or one of the admin panel states (for the two
   * button-editing states, the `editing_button_id` kept in the data).
   */
  datatype FsmState =
    | Idle
    | InForm(buttonId: int, questions: seq<Json>, answers: seq<Option<string>>)
    | GreetingText
    | GreetingPhoto
    | NewButtonText
    | ButtonResponseType
    | ButtonResponseContent(editingButtonId: int)
    | ButtonQuestions(editingButtonId: int)
    | RequestsChat

  /** The storage key: aiogram keeps one state per user in each chat. */
  datatype Key = Key(chat: int, user: int)

  function StateOf(fsm: map<Key, FsmState>, k: Key): FsmState {
    if k in fsm then fsm[k] else Idle
  }

  /** The FSM storage after `set_state(s)` (or `clear()` for `Idle`) under key `k`: only that key's state changes. */
  function Updated(fsm: map<Key, FsmState>, k: Key, s: FsmState): (r: map<Key, FsmState>)
    ensures StateOf(r, k) == s
    ensures forall k' :: k' != k ==> StateOf(r, k') == StateOf(fsm, k')
  {
    if StateOf(fsm, k) == s then fsm else fsm[k := s]
  }

  // ---------------------------------------------------------------- inbound events

  datatype ChatType = Private | Group | Supergroup | Channel

  /** A message: `photo` lists the sizes of an attached photo (largest last), `document` the file id of an attachment. */
  datatype Message = Message(
    chat: int,
    chatType: ChatType,
    user: int,
    username: Option<string>,
    text: Option<string>,
    caption: Option<string>,
    photo: seq<string>,
    document: Option<string>)

  /** The callback data of the admin inline keyboards, already split into its parts. */
  datatype CallbackData =
    | CbGreeting                                    // "admin:greeting"
    | CbGreetingEdit                                // "admin:greeting_edit"
    | CbGreetingPhoto                               // "admin:greeting_photo"
    | CbGreetingPhotoDel                            // "admin:greeting_photo_del"
    | CbButtonsList                                 // "admin:buttons_list"
    | CbButtonDetail(id: int)                       // "admin:btn:<id>"
    | CbButtonAdd                                   // "admin:btn_add"
    | CbSetType(buttonId: int, kind: ResponseType)  // "admin:btn_set_type:<id>:<kind>"
    | CbRequests                                    // "admin:requests"
    | CbRequestSet                                  // "admin:req_set"
    | CbStats                                       // "admin:stats"
    | CbTest                                        // "admin:test"
    | CbMain                                        // "admin:main"
    | CbOther(raw: string)

  datatype Event =
    | Msg(m: Message)
    | Tap(chat: int, user: int, data: CallbackData)

  function KeyOf(ev: Event): Key {
    match ev
    case Msg(m) => Key(m.chat, m.user)
    case Tap(chat, user, _) => Key(chat, user)
  }

  /** The administrator ids and the bot's own username (for `/cmd@username`). */
  datatype Config = Config(admins: set<int>, me: string)

  /** `is_admin`: membership in the configured administrator ids. */
  predicate IsAdmin(cfg: Config, user: int) {
    user in cfg.admins
  }

  // ---------------------------------------------------------------- message filters

  predicate IsSpace(c: char) {
    c == ' ' || c == '\t' || c == '\n' || c == '\r'
  }

  function TrimLeft(s: string): (r: string)
    ensures |r| <= |s| && r == s[|s| - |r|..]
    ensures |r| > 0 ==> !IsSpace(r[0])
    ensures forall i :: 0 <= i < |s| - |r| ==> IsSpace(s[i])
  {
    if |s| > 0 && IsSpace(s[0]) then TrimLeft(s[1..]) else s
  }

  /** How many spaces `s` starts with. */
  function LeadingSpaces(s: string): (n: nat)
    ensures n <= |s|
    ensures forall i :: 0 <= i < n ==> IsSpace(s[i])
    ensures n < |s| ==> !IsSpace(s[n])
  {
    if |s| > 0 && IsSpace(s[0]) then 1 + LeadingSpaces(s[1..]) else 0
  }

  /** Where the spaces `s` ends with begin. */
  function TrailingStart(s: string): (n: nat)
    ensures n <= |s|
    ensures forall i :: n <= i < |s| ==> IsSpace(s[i])
    ensures n > 0 ==> !IsSpace(s[n - 1])
  {
    if |s| > 0 && IsSpace(s[|s| - 1]) then TrailingStart(s[..|s| - 1]) else |s|
  }

  /**
   * `str.strip()`: the part of `s` that starts after its leading spaces and
   * is followed only by spaces, and neither starts nor ends with one.
   */
  function Strip(s: string): (r: string)
    ensures LeadingSpaces(s) + |r| <= |s| && r == s[LeadingSpaces(s)..LeadingSpaces(s) + |r|]
    ensures forall i :: LeadingSpaces(s) + |r| <= i < |s| ==> IsSpace(s[i])
    ensures |r| > 0 ==> !IsSpace(r[0]) && !IsSpace(r[|r| - 1])
  {
    var a := LeadingSpaces(s);
    var b := TrailingStart(s);
    if a < b then s[a..b] else ""
  }

  /** The characters of `s` before the first space. */
  function FirstWord(s: string): (w: string)
    ensures w <= s
    ensures forall i :: 0 <= i < |w| ==> !IsSpace(w[i])
  {
    if |s| == 0 || IsSpace(s[0]) then "" else [s[0]] + FirstWord(s[1..])
  }

  /** `s.partition(c)`: what lies before the first `c`, and what lies after it. */
  function Partition(s: string, c: char): (r: (string, string))
    ensures r.0 <= s && c !in r.0
  {
    if |s| == 0 then ("", "")
    else if s[0] == c then ("", s[1..])
    else
      var (before, after) := Partition(s[1..], c);
      ([s[0]] + before, after)
  }

  /** `message.text or message.caption`: the text the command filter reads. */
  function CommandText(m: Message): Option<string> {
    if Truthy(m.text) then m.text else m.caption
  }

  /**
   * The command a message carries for the `Command` filter: the first word of its
   * text (or caption) without the leading "/", when that word is `/name` or
   * `/name@<this bot>`; None otherwise.
   */
  function CommandName(cfg: Config, m: Message): Option<string> {
    var t := CommandText(m);
    if !Truthy(t) then None
    else
      var w := FirstWord(TrimLeft(t.value));
      if |w| == 0 || w[0] != '/' then None
      else
        var (command, mention) := Partition(w[1..], '@');
        if mention == "" || mention == cfg.me then Some(command) else None
  }

  /** The three commands the routers register. */
  datatype Command = StartCommand | PanelCommand | SetGroupCommand

  function Classify(name: string): Option<Command> {
    if name == "start" then Some(StartCommand)
    else if name == "panel" then Some(PanelCommand)
    else if name == "setgroup" then Some(SetGroupCommand)
    else None
  }

  /** The registered command a message carries; None for any other message, other commands included. */
  function CommandOf(cfg: Config, m: Message): Option<Command> {
    match CommandName(cfg, m)
    case None => None
    case Some(name) => Classify(name)
  }

  /** The `Command(...)` filter of one of the registered commands. */
  predicate IsCommand(cfg: Config, m: Message, c: Command) {
    CommandOf(cfg, m) == Some(c)
  }

  /** The filter of `handle_menu_click`: a non-empty text that does not start with "/". */
  predicate IsMenuText(m: Message) {
    Truthy(m.text) && m.text.value[0] != '/'
  }

  // ---------------------------------------------------------------- replies

  /** The rendered fields of the staff notification of a completed form. */
  datatype Notification = Notification(
    name: string,
    task: string,
    contact: string,
    time: string,
    username: string,
    userId: int)

  /** What a step sends, as abstract tokens of the transport calls. */
  datatype Output =
    | Say(text: string)                     // a plain text reply in the sender's chat
    | Ask(question: Json)                   // a form question, sent as it is stored
    | SendDocument(file: string)            // a stored file sent as a document
    | GreetWithPhoto(photo: string, caption: Option<string>, keyboard: Option<Layout>)
    | Greet(greeting: Option<string>, keyboard: Option<Layout>)
    | ControlPanel                          // the admin panel menu
    | Alert(text: string)                   // a callback answer shown as an alert
    | ButtonCreated(text: string, buttonId: int)  // the confirmation with the four response kind choices
    | GreetingScreen(text: string, hasPhoto: bool)
    | ButtonsScreen(buttons: seq<Button>)
    | RequestsScreen(target: Option<int>)
    | StatsScreen(total: nat)
    | Notify(chat: int, note: Notification) // sent to the requests group

  const UseMenu := "Пожалуйста, используйте кнопки из меню 👇"
  const InfoSoon := "Информация скоро появится"
  const FileMissing := "Файл не найден."
  const LinkPrefix := "🔗 "
  const DefaultQuestion := "Ваше имя?"
  const SubmitFailed := "Ошибка при отправке заявки. Попробуйте позже."
  const Thanks := "✅ Спасибо! Заявка передана, свяжемся в течение 2 часов."
  const NoValue := "—"
  const AdminOnly := "🚫 Эта команда доступна только администраторам."
  const GroupBound := "✅ Эта группа установлена для заявок!"
  const SendInGroup := "Отправьте /setgroup в нужной группе"
  const AskGreetingText := "Введите новый текст приветствия:"
  const GreetingSaved := "✅ Текст обновлён!"
  const AskGreetingPhoto := "Отправьте фото:"
  const PhotoSaved := "✅ Фото установлено!"
  const PhotoDeleted := "✅ Фото удалено"
  const AskButtonText := "Введите текст новой кнопки:"
  const ButtonMissing := "Кнопка не найдена"
  const ContentSaved := "✅ Ответ сохранён!"
  const BadQuestions := "Неверный формат. Используйте JSON-массив строк."
  const QuestionsSaved := "✅ Вопросы сохранены!"
  const HowToBind := "Добавьте бота в группу и отправьте там /setgroup"
  const PreviewSent := "👁️ Предпросмотр отправлен"

  /** The prompt `admin_btn_set_type` sends for each response kind. */
  function KindPrompt(kind: ResponseType): string {
    match kind
    case Text => "Введите текст ответа:"
    case Link => "Введите URL:"
    case File => "Отправьте PDF или укажите путь (static/prices.pdf):"
    case Form => "Введите вопросы в формате JSON:\nПример: [\"Имя\", \"Задача\", \"Контакт\"]"
  }

  // ---------------------------------------------------------------- outside inputs of one step

  /**
   * What the model takes from outside for one event: whether the handler's
   * commit and the closing commit of the unit of work succeed, whether the
   * notification send succeeds, whether the stored file path exists, what
   * `json.loads` makes of the message text (None when it raises), and the
   * current time as `%H:%M`.
   */
  datatype Oracles = Oracles(
    commitOk: bool,
    exitCommitOk: bool,
    notifyOk: bool,
    fileExists: bool,
    parsed: Option<Json>,
    now: string)

  /**
   * The result of one handler: the committed store, the sender's new state, the
   * replies sent, and whether the handler ended with an exception.
   */
  datatype Effect = Effect(db: Db, state: FsmState, out: seq<Output>, raised: bool)

  // ---------------------------------------------------------------- dispatch

  /** The message handlers, in the order the dispatcher tries them. */
  datatype Handler =
    | HandleFormInput
    | HandleMenuClick
    | CmdStart
    | CmdPanel
    | SetGroupFromChat
    | AdminGreetingSave
    | AdminGreetingPhotoSave
    | AdminBtnAddText
    | AdminBtnSaveContent
    | AdminBtnSaveQuestions
    | NoHandler

  /**
   * The handler that receives a message: the user router before the admin
   * router, and within each the handlers in registration order; the first whose
   * filters all pass takes the message.
   */
  function Route(cfg: Config, st: FsmState, m: Message): Handler {
    if st.InForm? then HandleFormInput
    else if st.Idle? && IsMenuText(m) then HandleMenuClick
    else
      match CommandOf(cfg, m)
      case Some(StartCommand) => CmdStart
      case Some(PanelCommand) => CmdPanel
      case Some(SetGroupCommand) => SetGroupFromChat
      case None => StateHandler(st, m)
  }

  /** The admin router's handlers filtered by state alone, for a message that is no registered command. */
  function StateHandler(st: FsmState, m: Message): Handler {
    match st
    case GreetingText => AdminGreetingSave
    case GreetingPhoto => if |m.photo| > 0 then AdminGreetingPhotoSave else NoHandler
    case NewButtonText => AdminBtnAddText
    case ButtonResponseContent(_) => AdminBtnSaveContent
    case ButtonQuestions(_) => AdminBtnSaveQuestions
    case _ => NoHandler
  }

  // ---------------------------------------------------------------- the end-user handlers

  /** The questions a form button asks: the stored list, or the single default question when none is stored. */
  function FormQuestions(b: Button): seq<Json> {
    if b.formQuestions.Some? then b.formQuestions.value else [JStr(DefaultQuestion)]
  }

  /** `handle_menu_click` for a text that passed its filter. */
  function MenuClick(db: Db, text: string, o: Oracles): Effect {
    match FindActive(db.buttons, text)
    case None => Effect(db, Idle, [Say(UseMenu)], false)
    case Some(b) =>
      match b.responseType
      case Text =>
        Effect(db, Idle, [Say(if Truthy(b.responseContent) then b.responseContent.value else InfoSoon)], false)
      case File =>
        Effect(db, Idle, [if Truthy(b.responseContent) && o.fileExists
                          then SendDocument(b.responseContent.value) else Say(FileMissing)], false)
      case Link =>
        Effect(db, Idle, [Say(LinkPrefix + PyStr(b.responseContent))], false)
      case Form =>
        var qs := FormQuestions(b);
        // the state is set before `questions[0]` is read, so an empty list raises after it
        if |qs| == 0 then Effect(db, InForm(b.id, qs, []), [], true)
        else Effect(db, InForm(b.id, qs, []), [Ask(qs[0])], false)
  }

  /** The notification target: `requests_chat_id` when it is set and not 0. */
  function NotifyTarget(a: AdminSettings): Option<int> {
    if a.requestsChatId.Some? && a.requestsChatId.value != 0 then a.requestsChatId else None
  }

  /** Answer `i` as the notification prints it, "—" when the form had fewer answers. */
  function Slot(answers: seq<Option<string>>, i: nat): string {
    if i < |answers| then PyStr(answers[i]) else NoValue
  }

  function NoteFor(answers: seq<Option<string>>, m: Message, now: string): Notification {
    Notification(Slot(answers, 0), Slot(answers, 1), Slot(answers, 2), now,
                 if Truthy(m.username) then m.username.value else NoValue, m.user)
  }

  /** What reaches the requests group: nothing without a target, nothing when the send raises. */
  function Notifications(a: AdminSettings, answers: seq<Option<string>>, m: Message, o: Oracles): seq<Output> {
    var target := NotifyTarget(a);
    if target.Some? && o.notifyOk then [Notify(target.value, NoteFor(answers, m, o.now))] else []
  }

  /** The row `handle_form_input` stores for a completed form. */
  function ResponseRow(db: Db, st: FsmState, answers: seq<Option<string>>, m: Message, now: string): FormResponse
    requires st.InForm?
  {
    FormResponse(NextKey(ResponseIds(db.responses)), m.user, Some(st.buttonId), answers, now)
  }

  /** `handle_form_input`: records one answer, then asks the next question or stores the response. */
  function FormInput(db: Db, st: FsmState, m: Message, o: Oracles): Effect
    requires Seeded(db) && st.InForm?
  {
    var answers := st.answers + [m.text];
    if |answers| < |st.questions| then
      Effect(db, st.(answers := answers), [Ask(st.questions[|answers|])], false)
    else if !o.commitOk then
      Effect(db, Idle, [Say(SubmitFailed)], false)
    else
      var stored := db.(responses := db.responses + [ResponseRow(db, st, answers, m, o.now)]);
      Effect(stored, Idle, Notifications(stored.adminSettings[0], answers, m, o) + [Say(Thanks)], false)
  }

  /** What `cmd_start` sends: the greeting with its photo when one is set, the keyboard beneath. */
  function StartReply(db: Db): seq<Output>
    requires Seeded(db)
  {
    var s := db.botSettings[0];
    var kb := MainKeyboardOf(db);
    if Truthy(s.greetingPhoto) then [GreetWithPhoto(s.greetingPhoto.value, s.greetingText, kb)]
    else [Greet(s.greetingText, kb)]
  }

  // ---------------------------------------------------------------- the admin handlers

  /** What `cmd_panel` sends. */
  function PanelReply(cfg: Config, user: int): Output {
    if IsAdmin(cfg, user) then ControlPanel else Say(AdminOnly)
  }

  /** `set_group_from_chat`. */
  function SetGroup(cfg: Config, db: Db, st: FsmState, m: Message, o: Oracles): Effect
    requires Seeded(db)
  {
    if !IsAdmin(cfg, m.user) then Effect(db, st, [], false)
    else if m.chatType == Group || m.chatType == Supergroup then
      if o.commitOk then Effect(SetRequestsChat(db, m.chat), st, [Say(GroupBound)], false)
      else Effect(db, st, [], true)
    else Effect(db, st, [Say(SendInGroup)], false)
  }

  /** `admin_greeting_save`: stores the message text (None for a message without text). */
  function GreetingSave(cfg: Config, db: Db, st: FsmState, m: Message, o: Oracles): Effect
    requires Seeded(db)
  {
    if o.commitOk then Effect(SetGreetingText(db, m.text), Idle, [Say(GreetingSaved), PanelReply(cfg, m.user)], false)
    else Effect(db, st, [], true)
  }

  /** `admin_greeting_photo_save`: stores the file id of the largest photo size. */
  function GreetingPhotoSave(cfg: Config, db: Db, st: FsmState, m: Message, o: Oracles): Effect
    requires Seeded(db) && |m.photo| > 0
  {
    if o.commitOk then
      Effect(SetGreetingPhoto(db, Some(m.photo[|m.photo| - 1])), Idle, [Say(PhotoSaved), PanelReply(cfg, m.user)], false)
    else Effect(db, st, [], true)
  }

  /** `admin_greeting`: the greeting screen; `len(None)` raises when no greeting text is stored. */
  function GreetingMenu(db: Db, st: FsmState): Effect
    requires Seeded(db)
  {
    var s := db.botSettings[0];
    if s.greetingText.None? then Effect(db, st, [], true)
    else Effect(db, st, [GreetingScreen(s.greetingText.value, Truthy(s.greetingPhoto))], false)
  }

  /** `admin_greeting_photo_del`: clears the photo, then shows the greeting screen. */
  function GreetingPhotoDel(db: Db, st: FsmState, o: Oracles): Effect
    requires Seeded(db)
  {
    if !o.commitOk then Effect(db, st, [], true)
    else
      var cleared := SetGreetingPhoto(db, None);
      var screen := GreetingMenu(cleared, st);
      Effect(cleared, st, [Alert(PhotoDeleted)] + screen.out, screen.raised)
  }

  /** `admin_btn_add_text`: adds a button with the stripped text; a message without text raises. */
  function ButtonAdd(db: Db, st: FsmState, m: Message, o: Oracles): Effect {
    if m.text.None? then Effect(db, st, [], true)
    else
      var text := Strip(m.text.value);
      var b := NewButton(db.buttons, text);
      if o.commitOk then Effect(db.(buttons := db.buttons + [b]), Idle, [ButtonCreated(text, b.id)], false)
      else Effect(db, st, [], true)
  }

  /** `admin_btn_set_type`: writes the kind, then waits for questions (a form) or for the content. */
  function ButtonSetType(db: Db, st: FsmState, id: int, kind: ResponseType, o: Oracles): Effect {
    match FindButton(db.buttons, id)
    case None => Effect(db, st, [Alert(ButtonMissing)], false)
    case Some(i) =>
      if !o.commitOk then Effect(db, st, [], true)
      else
        Effect(SetButton(db, i, db.buttons[i].(responseType := kind)),
               if kind == Form then ButtonQuestions(id) else ButtonResponseContent(id),
               [Say(KindPrompt(kind))], false)
  }

  /** `admin_btn_save_content`: a file button takes an attached document's file id, every other case the text. */
  function ButtonSaveContent(cfg: Config, db: Db, st: FsmState, m: Message, o: Oracles): Effect
    requires st.ButtonResponseContent?
  {
    match FindButton(db.buttons, st.editingButtonId)
    case None => Effect(db, Idle, [PanelReply(cfg, m.user)], false)
    case Some(i) =>
      var b := db.buttons[i];
      var content := if b.responseType == File && m.document.Some? then m.document else m.text;
      if !o.commitOk then Effect(db, st, [], true)
      else Effect(SetButton(db, i, b.(responseContent := content)), Idle,
                  [Say(ContentSaved), PanelReply(cfg, m.user)], false)
  }

  /** What `json.loads` of the message text gives when it is a list; a missing text makes it raise. */
  function ParsedList(m: Message, o: Oracles): Option<seq<Json>> {
    if m.text.Some? && o.parsed.Some? && o.parsed.value.JList? then Some(o.parsed.value.items) else None
  }

  /** `admin_btn_save_questions`: anything but a JSON list is refused in place. */
  function ButtonSaveQuestions(cfg: Config, db: Db, st: FsmState, m: Message, o: Oracles): Effect
    requires st.ButtonQuestions?
  {
    match ParsedList(m, o)
    case None => Effect(db, st, [Say(BadQuestions)], false)
    case Some(items) =>
      match FindButton(db.buttons, st.editingButtonId)
      case None => Effect(db, Idle, [PanelReply(cfg, m.user)], false)
      case Some(i) =>
        if !o.commitOk then Effect(db, st, [], true)
        else Effect(SetButton(db, i, db.buttons[i].(formQuestions := Some(items))), Idle,
                    [Say(QuestionsSaved), PanelReply(cfg, m.user)], false)
  }

  // ---------------------------------------------------------------- one event

  /** A message from the sender whose state is `st`, handled by the handler `Route` picks. */
  function MessageStep(cfg: Config, db: Db, st: FsmState, m: Message, o: Oracles): (e: Effect)
    requires Seeded(db)
    ensures Seeded(e.db)
  {
    match Route(cfg, st, m)
    case HandleFormInput => FormInput(db, st, m, o)
    case HandleMenuClick => MenuClick(db, m.text.value, o)
    case CmdStart => Effect(db, st, StartReply(db), false)
    case CmdPanel => Effect(db, st, [PanelReply(cfg, m.user)], false)
    case SetGroupFromChat => SetGroup(cfg, db, st, m, o)
    case AdminGreetingSave => GreetingSave(cfg, db, st, m, o)
    case AdminGreetingPhotoSave => GreetingPhotoSave(cfg, db, st, m, o)
    case AdminBtnAddText => ButtonAdd(db, st, m, o)
    case AdminBtnSaveContent => ButtonSaveContent(cfg, db, st, m, o)
    case AdminBtnSaveQuestions => ButtonSaveQuestions(cfg, db, st, m, o)
    case NoHandler => Effect(db, st, [], false)
  }

  /**
   * A callback query from the sender whose state is `st`: each `admin:` handler
   * is selected by the data alone, whoever pressed the button, and whatever
   * state the sender is in.
   */
  function TapStep(db: Db, st: FsmState, data: CallbackData, o: Oracles): (e: Effect)
    requires Seeded(db)
    ensures Seeded(e.db)
  {
    match data
    case CbGreeting => GreetingMenu(db, st)
    case CbGreetingEdit => Effect(db, GreetingText, [Say(AskGreetingText)], false)
    case CbGreetingPhoto => Effect(db, GreetingPhoto, [Say(AskGreetingPhoto)], false)
    case CbGreetingPhotoDel => GreetingPhotoDel(db, st, o)
    case CbButtonsList => Effect(db, st, [ButtonsScreen(SortByOrder(db.buttons))], false)
    case CbButtonDetail(_) => Effect(db, st, [], false)   // no handler is registered for it
    case CbButtonAdd => Effect(db, NewButtonText, [Say(AskButtonText)], false)
    case CbSetType(id, kind) => ButtonSetType(db, st, id, kind, o)
    case CbRequests => Effect(db, st, [RequestsScreen(NotifyTarget(db.adminSettings[0]))], false)
    case CbRequestSet => Effect(db, st, [Say(HowToBind)], false)
    case CbStats => Effect(db, st, [StatsScreen(|db.responses|)], false)
    case CbTest => Effect(db, st, StartReply(db) + [Alert(PreviewSent)], false)
    case CbMain => Effect(db, st, [ControlPanel], false)
    case CbOther(_) => Effect(db, st, [], false)
  }

  /**
   * One event from the sender whose state is `st`, applied to the committed
   * store. On an exception the unit of work rolls back what was not committed,
   * and every handler commits its writes last, so the store in the effect is
   * the one that stands.
   */
  function Step(cfg: Config, db: Db, st: FsmState, ev: Event, o: Oracles): (e: Effect)
    requires Seeded(db)
    ensures Seeded(e.db)
  {
    match ev
    case Msg(m) => MessageStep(cfg, db, st, m, o)
    case Tap(_, _, data) => TapStep(db, st, data, o)
  }

  /**
   * Whether some handler's filters accept the event. The session middleware is
   * registered as an inner middleware of the routers, so it opens (and later
   * commits and closes) a unit of work only for an event some handler takes.
   */
  predicate Handled(cfg: Config, st: FsmState, ev: Event) {
    match ev
    case Msg(m) => Route(cfg, st, m) != NoHandler
    case Tap(_, _, data) => !(data.CbButtonDetail? || data.CbOther?)
  }
}
