/** Record shapes of the bot's store: the four tables of models.py. */
module Models {

  datatype Option<+T> = None | Some(value: T)

  /** Python truthiness of an optional string column: None and "" are false. */
  predicate Truthy(s: Option<string>) {
    s.Some? && s.value != ""
  }

  /** What an f-string prints for an optional string: None prints as "None". */
  function PyStr(s: Option<string>): string {
    if s.Some? then s.value else "None"
  }

  /** The four response kinds of a menu button (models.py:19). */
  datatype ResponseType = Text | File | Link | Form

  /** A decoded JSON value, as far as the bot looks into one. */
  datatype Json = JStr(s: string) | JList(items: seq<Json>) | JOther(repr: string)

  /** Singleton greeting record; both columns are nullable. */
  datatype BotSettings = BotSettings(id: int, greetingText: Option<string>, greetingPhoto: Option<string>)

  /**
   * A main-menu button. `formQuestions` holds the decoded JSON list stored in the
   * column (None for SQL NULL).
   */
  datatype Button = Button(
    id: int,
    text: string,
    order: int,
    isActive: bool,
    responseType: ResponseType,
    responseContent: Option<string>,
    formQuestions: Option<seq<Json>>)

  /** One completed form; `answers` is the decoded JSON list (a photo answer is null). */
  datatype FormResponse = FormResponse(
    id: int,
    userId: int,
    buttonId: Option<int>,
    answers: seq<Option<string>>,
    createdAt: string)

  /** Singleton notification settings; the target chat is nullable. */
  datatype AdminSettings = AdminSettings(id: int, requestsChatId: Option<int>, requestsTemplate: Option<string>)

  /** Declared width of `buttons.text` (String(64)). */
  const LabelMax: nat := 64

  predicate LabelFits(b: Button) {
    |b.text| <= LabelMax
  }
}
