# Shop bot dialogue engine, modelled in Dafny

The system is a Telegram bot for a small business. It shows a reply keyboard
of menu buttons. Each button answers with a text, a file, a link, or a short
questionnaire ("form"). A completed form is stored as a request and forwarded
to a staff group. Administrators use a control panel of inline buttons to edit
the greeting, add buttons, choose each button's kind and content, and bind the
staff group. Everything is kept in a four-table SQLite store behind a session
that commits or rolls back once per update.

The model covers `bot.py`, `database.py` and `models.py`, in six Dafny files.

- `models.dfy` (module `Models`) holds the four tables' rows: `BotSettings`,
  `Button`, `FormResponse` and `AdminSettings`. Nullable columns are `Option`
  values. The `response_type` column is the `ResponseType` enumeration. The
  `form_questions` column is held already decoded, as an optional list of JSON
  values.
- `database.dfy` (module `Database`) holds the store and its operations:
  - the tables as sequences of rows in insertion order (`Db`);
  - how integer keys and button orders are assigned (`NextKey`, `NextOrder`);
  - the row updates the handlers make;
  - the session of `get_db` as a class with a committed and a pending state,
    whose methods change state in place;
  - `init_db`'s insert-if-absent seeding, both as a method on that session
    and as the function `Seed`.
- `menu.dfy` (module `Menu`) holds the main keyboard of `get_main_keyboard`:
  - the stable sort by `order` and the `is_active` filter;
  - the row-building loop, as a method proved against `Chunk`;
  - the lookup of a typed label among the active buttons.
- `dialogue.dfy` (module `Dialogue`) is the conversation as a function:
  - the FSM state of each (chat, user) pair, the inbound messages and callback
    queries, and the replies as abstract tokens;
  - `Route`, the order in which the dispatcher tries the message handlers;
  - one function per handler giving its committed store, the sender's new
    state, the replies and whether it raised;
  - `Step`, one whole update.
- `engine.dfy` (module `Engine`) holds the class `Bot`. Its handlers change
  the session and the FSM storage in place. `HandleUpdate` is proved to end
  exactly where `Dialogue.Step` says (in the table: "ends as F" means the
  committed store, the sender's state, the replies and the exception flag are
  the ones F gives).
- `properties.dfy` (module `Properties`) proves these about the model:
  - what routing reaches;
  - that no update ever deletes a row or changes a key;
  - that answering a whole form in a run of messages from one sender stores exactly one
    response and notifies the group;
  - what the keyboard shows after a button is added;
  - what the seeded store looks like.

Things the outside world decides become explicit inputs of one update
(`Dialogue.Oracles`):
- whether each commit succeeds, both the handler's own and the closing one in
  `get_db`;
- whether sending the staff notification succeeds;
- whether a stored file path exists;
- what `json.loads` makes of a text;
- the current time.

The model follows the code as written, including where it departs from what
the bot is meant to do:
- `/start` does not reset the sender's FSM state.
- A user filling in a form who sends `/start` has that text recorded as an answer.
- A form button whose stored question list is empty (`"[]"`) puts the sender
  into the form state and then raises `IndexError` on `questions[0]`. The next
  message then completes the form with one answer.
- `/setgroup` from a non-administrator gets no reply.
- Only `/panel` and `/setgroup` check `is_admin`. Every `admin:` callback and
  every admin state handler runs for whoever triggers it.
- Question lists are checked only for being a JSON list, not for holding
  strings.

## Model

| member | source | states |
|---|---|---|
| Database.NextKey | models.py:15 | the integer primary key given to a new row is larger than every existing key, is 1 for an empty table, and otherwise is one past the largest key |
| Database.NextOrder | bot.py:275-276 | a new button's order is larger than every existing order, 1 when there is no button, otherwise one past the largest order |
| Database.FindButton | bot.py:293 | the lookup by id finds the first button with that id, and finds nothing exactly when no button has it |
| Database.SetGreetingText | bot.py:220-222 | only the first settings row's greeting text changes to the new value; its photo, its key and every other table stay as they were |
| Database.SetGreetingPhoto | bot.py:236-238 | only the first settings row's photo changes; the greeting text, the key and the other tables are kept |
| Database.SetRequestsChat | bot.py:187-189 | only the first admin settings row's requests chat changes to the given chat; the template, the key and the other tables are kept |
| Database.SetButton | bot.py:298 | the button at one index is replaced and every other row of every table is kept |
| Database.Seed | database.py:48-104 | each of the three tables gets its default rows only when it is empty, a filled table is kept as it is, and the responses are never touched; afterwards both singleton tables hold a row |
| Database.Session.constructor | database.py:37 | a new session sees exactly the stored rows and is open |
| Database.Session.Begin | bot.py:46-48 | the scoped session starts a new unit of work that sees only committed rows |
| Database.Session.AddBotSettings | database.py:55-58 | adding a row appends it to the pending settings table and commits nothing |
| Database.Session.AddAdminSettings | database.py:62-72 | adding a row appends it to the pending admin settings table and commits nothing |
| Database.Session.AddButton | database.py:76-82 | adding a button appends it to the pending button table and commits nothing |
| Database.Session.AddResponse | bot.py:84-90 | adding a response appends it to the pending responses and commits nothing |
| Database.Session.Commit | bot.py:91 | a successful commit makes the pending rows durable; a failing one raises and leaves the stored rows as they were |
| Database.Session.Rollback | bot.py:94 | rolling back drops every uncommitted change |
| Database.Session.Close | database.py:44-45 | closing keeps the stored rows and drops what was not committed |
| Database.Session.Exit | database.py:34-45 | on a normal exit the pending rows are committed; an exception from the body or from that commit rolls back and is raised again; the session is closed on every path |
| Database.AddSeedButtons | database.py:75-103 | the four default buttons are appended, in insertion order, to the pending button table |
| Database.InitDb | database.py:48-104 | after `init_db` the store holds `Seed` of the old store when the commit succeeds and the old store when it fails; it raises exactly when one of the two commits fails |
| Menu.SortByOrder | bot.py:53 | `order_by(Button.order)` gives a permutation of the buttons sorted by order |
| Menu.Active | bot.py:53 | the active filter keeps exactly the active buttons, each as often as the table holds it, and finds none exactly when no button is active |
| Menu.ActiveByOrder | bot.py:53 | the keyboard query gives the active buttons sorted by order, each as often as the table holds it and no inactive one |
| Menu.ChunkFlatten | bot.py:56-63 | reading the keyboard rows in turn gives back every label in order |
| Menu.ChunkShape | bot.py:56-63 | every row holds one or two labels, only the last may hold one, and there are half as many rows as labels, rounded up |
| Menu.LayoutStep | bot.py:57-60 | one turn of the loop adds the label to the open row and closes a full row, keeping the rows so far equal to the labels so far cut in twos |
| Menu.LayoutRows | bot.py:56-63 | the row-building loop produces exactly the labels cut into rows of two |
| Menu.MainKeyboardOf | bot.py:52-65 | no keyboard exactly when no button is active; otherwise its rows hold the active labels in order, two per row |
| Menu.MainKeyboard | bot.py:52-65 | `get_main_keyboard` returns no keyboard exactly when no button is active; otherwise its rows hold the active labels in order, two per row |
| Menu.FindActive | bot.py:126-129 | the lookup of a typed label finds the first active button, in table order, with exactly that label, and finds nothing exactly when there is none |
| Dialogue.Strip | bot.py:274 | the stripped label is the part of the text that begins after its leading spaces and is followed only by spaces, and it neither begins nor ends with a space |
| Dialogue.Step | bot.py:42-49 | no update removes the settings rows that each handler's `first()` reads |
| Dialogue.Updated | bot.py:147-148 | `set_state` or `clear()` under one (chat, user) key gives that key the new state and keeps every other key's state |
| Dialogue.LeadingSpaces | bot.py:274 | the count of leading spaces stops at the first character that is not a space |
| Dialogue.TrailingStart | bot.py:274 | the trailing spaces start just after the last character that is not a space |
| Engine.Bot.constructor | bot.py:398-402 | the bot starts on a seeded store with a new, closed session of its own and no FSM state stored |
| Engine.Bot.SetState | bot.py:147-148 | setting the state of one (chat, user) leaves every other key's state as it was |
| Engine.Bot.FormInputStep | bot.py:68-121 | `handle_form_input` ends as `FormInput`: it records the answer, asks the next question or stores the response, notifies the group and clears the state |
| Engine.Bot.MenuClickStep | bot.py:124-149 | `handle_menu_click` ends as `MenuClick`: it answers by the button's kind, or starts the form |
| Engine.Bot.StartStep | bot.py:152-160 | `/start` sends the greeting, with its photo when one is set, over the keyboard of the stored buttons |
| Engine.Bot.SetGroupStep | bot.py:182-193 | `/setgroup` ends as `SetGroup` |
| Engine.Bot.GreetingSaveStep | bot.py:218-225 | the greeting save ends as `GreetingSave` |
| Engine.Bot.GreetingPhotoSaveStep | bot.py:234-242 | the photo save ends as `GreetingPhotoSave` |
| Engine.Bot.GreetingMenuStep | bot.py:196-209 | the greeting screen shows the stored text and whether a photo is set, and raises when no text is stored |
| Engine.Bot.GreetingPhotoDelStep | bot.py:245-251 | the photo delete ends as `GreetingPhotoDel` |
| Engine.Bot.ButtonAddStep | bot.py:272-286 | the new-button handler ends as `ButtonAdd` |
| Engine.Bot.ButtonSetTypeStep | bot.py:289-313 | choosing a response kind ends as `ButtonSetType` |
| Engine.Bot.ButtonSaveContentStep | bot.py:316-329 | the content save ends as `ButtonSaveContent` |
| Engine.Bot.ButtonSaveQuestionsStep | bot.py:332-350 | the questions save ends as `ButtonSaveQuestions` |
| Engine.Bot.DispatchMessage | bot.py:403-404 | a message runs the handler `Route` picks, and ends as `MessageStep` |
| Engine.Bot.DispatchGreeting | bot.py:218-242 | a message the greeting editor's state selects runs the text or photo save, and ends as `MessageStep` |
| Engine.Bot.DispatchButtonEditor | bot.py:272-350 | a message the button editor's state selects runs the label, content or questions save, and ends as `MessageStep` |
| Engine.Bot.ShowScreen | bot.py:353-395 | the read-only panel callbacks change neither the store nor the sender's state, and send what `TapStep` says |
| Engine.Bot.DispatchTap | bot.py:196-395 | a callback query runs the handler its data selects, whatever the sender's state and whoever sent it, and ends as `TapStep` |
| Engine.Bot.HandleUpdate | bot.py:42-49 | one update leaves exactly the store, FSM storage and replies `Step` gives; the session middleware runs only when a handler takes the event, so it raises when the handler raised or, for a handled event, when the closing commit failed, and an event no handler takes leaves the bot untouched |
| Properties.RouteForm | bot.py:68-69 | a user filling in a form has every message, commands included, taken by the form handler |
| Properties.RouteMenu | bot.py:124-125 | with no state, a text not starting with "/" is a menu click |
| Properties.RouteSetGroup | bot.py:182-183 | outside a form and outside the menu, `/setgroup` goes to its handler in every state |
| Properties.RouteState | bot.py:218-333 | any other message goes to the admin handler of the sender's state; a greeting photo state needs a photo; other states drop the message |
| Properties.RouteByState | bot.py:218-333 | once the form, menu and command handlers have declined a message, the sender's state alone selects its handler |
| Properties.GrowsTransitive | bot.py:405 | "no deleted rows and no changed keys" carries over from one update to the next, as polling handles them one after another |
| Properties.ReplaceButtonPreserves | bot.py:298 | editing a button in place keeps every key and the uniqueness of keys |
| Properties.FormInputPreserves | bot.py:83-91 | a message in a form appends at most one response, with a fresh key, deletes none and leaves every other table as it was |
| Properties.AppendNewButton | bot.py:277-279 | a new button's key is fresh, so keys stay unique |
| Properties.ButtonAddPreserves | bot.py:272-286 | saving a new label appends at most one button, with a fresh key, keeps keys unique and leaves every other table as it was |
| Properties.SaveContentPreserves | bot.py:316-329 | saving content deletes no row and keeps keys unique |
| Properties.SaveQuestionsPreserves | bot.py:332-350 | saving questions deletes no row and keeps keys unique |
| Properties.SetTypePreserves | bot.py:289-313 | setting a kind deletes no row and keeps keys unique |
| Properties.MessageStepPreserves | bot.py:68-350 | no message ever deletes a row or changes a key, and keys stay unique |
| Properties.FormStepPreserves | bot.py:68-121 | a message in a form deletes no row and keeps keys unique |
| Properties.MenuStepPreserves | bot.py:124-149 | a menu click never writes to the store |
| Properties.CommandStepPreserves | bot.py:152-193 | a command writes at most the requests chat of the admin settings |
| Properties.StateStepPreserves | bot.py:218-350 | an admin state handler deletes no row and keeps keys unique |
| Properties.TapStepPreserves | bot.py:196-395 | no callback query deletes a row, changes a key or touches the responses |
| Properties.StepGrows | bot.py:42-49 | no update deletes a row or changes a key; responses are only appended |
| Properties.UnhandledIsDropped | bot.py:42-49 | an event no handler takes (a message no filter accepts, a button-detail or unknown callback) changes nothing and sends nothing |
| Properties.StepKeepsKeysUnique | bot.py:42-49 | unique keys in each table stay unique across any update |
| Properties.SeedKeepsKeysUnique | database.py:74-103 | seeding keeps keys unique |
| Properties.Run | bot.py:400-405 | a run of updates from any senders, each handled in the state its own (chat, user) key holds, never removes the settings rows |
| Properties.RunGrows | bot.py:398-407 | across any run of updates no row is deleted and no key changes |
| Properties.OthersKeepState | bot.py:400 | the FSM storage keeps one state per (chat, user): a run of events none of which comes from a sender leaves that sender's state as it was |
| Properties.FormAsksNext | bot.py:73-77 | while questions remain, an answer is recorded and the next question asked, and nothing is written |
| Properties.FormSubmitFails | bot.py:93-98 | a failing commit of the last answer stores nothing, reports the failure and clears the state |
| Properties.FormSubmitStores | bot.py:79-121 | the last answer stores one response with every answer, the sender and the button; it notifies the group exactly when a nonzero chat is set and the send succeeds; it thanks the user and clears the state |
| Properties.NoteSlots | bot.py:102-113 | the notification shows the first three answers, "—" for missing ones, the time and the sender |
| Properties.AnsweringAsks | bot.py:68-121 | answering a form message by message asks each remaining question in turn before the final step |
| Properties.AnsweringCompletes | bot.py:68-121 | answering every remaining question stores exactly one response with all the answers, asks each question in turn, notifies, thanks, and clears the state |
| Properties.RunIsAnswering | bot.py:68-69 | while a form is open, a run of messages all from the same sender is all handled by the form handler, in that sender's state |
| Properties.FormRunCompletes | bot.py:68-121 | a run of messages from the same sender answering every remaining question of that sender's open form ends with that sender's state cleared, one response stored with all answers, and each question, the notification and the thanks sent in order |
| Properties.RunFormHead | bot.py:68-69 | the first message of a run, from a sender in a form, is handled by the form handler in that sender's state, and only that sender's state is replaced |
| Properties.MenuClickOutcomes | bot.py:124-149 | a menu click never writes; an unknown label is refused; a text button sends its content, or the placeholder when it has none; a file button sends its file when it names one that exists, otherwise the "file missing" reply; a link button sends the link line; a form button sets the form state, asks its first question, and raises exactly when it has no questions |
| Properties.EmptyFormTakesNextMessage | bot.py:145-149 | a form button with an empty question list raises after setting the state, and the next message from the same sender then completes that form with a single answer and clears the state |
| Properties.CommandNameOf | bot.py:152 | a text that is "/" and a name without spaces or "@" carries that command |
| Properties.SlashStart | bot.py:152 | "/start" is the start command and is not a menu text |
| Properties.StartKeepsState | bot.py:152-160 | `/start` outside a form only sends the greeting, and keeps the sender's state and the store |
| Properties.FormCapturesStart | bot.py:68-77 | inside a form, "/start" is recorded as an answer and the greeting is not sent |
| Properties.PanelGate | bot.py:167-179 | `/panel` shows the panel to administrators and refuses everyone else, writing nothing |
| Properties.SetGroupOutcomes | bot.py:182-193 | `/setgroup` is silent for non-administrators; in a group it binds that chat as the notification target; elsewhere it asks to be sent in a group |
| Properties.AnyoneCanEditGreeting | bot.py:212-225 | any user who presses the greeting edit button and then, as the same sender in the same chat, sends a text replaces the greeting |
| Properties.GreetingPhotoNeedsPhoto | bot.py:234 | in the photo state a message without a photo is ignored and the state kept |
| Properties.GreetingPhotoSaved | bot.py:234-242 | a photo stores the file id of its largest size, changes nothing else and clears the state |
| Properties.GreetingPhotoDeleted | bot.py:245-251 | deleting the photo clears it, alerts, and shows the greeting screen, raising when no greeting text is stored |
| Properties.ButtonAddAppends | bot.py:272-286 | a new button is appended with the stripped label; it is active, a text button with empty content, with a fresh key and an order one past the largest |
| Properties.InsertBeforeLast | bot.py:53 | inserting a smaller order in front of a largest last button keeps that button last |
| Properties.SortAppendLargest | bot.py:53 | a button whose order exceeds all others sorts last |
| Properties.ActiveConcat | bot.py:53 | the filter keeps table order: the active buttons of two tables joined are those of each, joined |
| Properties.ActiveAppend | bot.py:53 | an appended active button is the last active one |
| Properties.ActiveBelow | bot.py:53 | filtering keeps an upper bound on orders |
| Properties.LargestOrderComesLast | bot.py:53 | an active button whose order exceeds all others is the last button the keyboard query gives |
| Properties.KeyboardAfterAppend | bot.py:52-65 | such a button appears as the last label of the keyboard, after the earlier labels in their order |
| Properties.NewButtonShownLast | bot.py:272-286 | a button added through the panel shows as the last key of the main keyboard |
| Properties.SetTypeOutcomes | bot.py:289-313 | an unknown id is reported; otherwise the kind is written and the editor waits for questions (a form) or content |
| Properties.SaveContentOutcomes | bot.py:316-329 | a file button takes an attached document's id, every other case the text; a missing button is skipped; the state is cleared |
| Properties.SaveQuestionsOutcomes | bot.py:332-350 | anything but a JSON list is refused and the editor keeps waiting; any list is stored for the button |
| Properties.SeedIdempotent | database.py:48-104 | running the seeding twice is running it once |
| Properties.SeedKeepsFilledTables | database.py:48-104 | a store whose tables are all filled is not changed by seeding |
| Properties.SeedButtonsShape | database.py:75-103 | the seeded buttons have keys and orders 1 to 4, are active, have labels within 64 characters, and have distinct keys |
| Properties.ActiveAll | bot.py:53 | buttons that are all active pass the filter unchanged |
| Properties.SortSorted | bot.py:53 | sorting buttons already in order leaves them as they are |
| Properties.ShownAsTheyAre | bot.py:53 | active buttons already in order are shown as they are |
| Properties.SeedButtonsShown | database.py:75-103 | the seeded buttons are shown in their seeding order |
| Properties.ChunkFour | bot.py:56-63 | four labels make two rows of two |
| Properties.SeedLabels | database.py:75-103 | the seeded labels are prices, order, contacts and FAQ |
| Properties.SeedKeyboard | database.py:48-104 | a freshly seeded store shows the seeded buttons as its keyboard |
| Properties.DefaultKeyboard | database.py:48-104 | a freshly seeded store's keyboard is ["Узнать цены", "Заказать"] over ["Контакты", "FAQ"] |

## Left out

- Transport: the Telegram API calls are abstract `Output` tokens. This covers
  message rendering, keyboard markup objects, `edit_text` versus `answer`,
  and `callback.answer()` without text.
- Polling, `delete_webhook`, logging, and loading the configuration
  (`config.py` is not part of this model); the administrator ids and the
  bot's username are a `Config` value.
- Clock, file system and JSON parsing are inputs of each update (`Oracles`):
  `datetime.now()`, `os.path.exists` and `json.loads`.
- Concurrency: updates are handled one at a time. The per-thread scoped
  session is one `Session` object reused across updates.
- Dialogue.IsSpace: `str.strip()` and `str.split()` also cut Unicode
  whitespace; the model treats only space, tab, newline and carriage return
  as spaces.
- Dialogue.CommandName: a mention is compared with the bot's username exactly;
  the case-insensitive comparison is not modelled.
- Models.LabelFits: `String(64)` on `Button.text` is not enforced by SQLite,
  and the model does not enforce it either. `ButtonAdd` stores labels of any
  length.
- The foreign key of `FormResponse.button_id` is not checked by the model. A
  rejected insert is a failing commit (`commitOk == false`).
- Column defaults (`order` 0, `is_active` true, `response_type` "text",
  `greeting_text` and `requests_template`) are not modelled: every insert in
  the source (`bot.py:84-90`, `bot.py:277`, `database.py:55-103`) sets those
  columns itself, so no default ever applies.
- Crafted callback data is left out. A non-numeric id (`ValueError`) or an
  unknown response kind (`KeyError` on `prompts`) cannot arise, because data
  is parsed into `CallbackData` before it reaches the model.
  `admin:btn:<id>` has no handler and is dropped.
- Dialogue.TapStep: the greeting screen holds the whole text, without the 100-character
  preview truncation; the button list shows the sorted buttons without the status marks.
- Menu.SortByOrder: SQLite gives no order among equal `order` values; the
  model keeps table order, a stable sort.
- Form questions that are not strings are sent as they are stored (`Ask(Json)`).
  The model does not say how Telegram treats them.
- An exception raised while sending a reply (as opposed to the staff
  notification) is not modelled.
- The `requests_template` column is stored and never read, as in the source.
  The notification is built from a fixed layout.
- The FSM storage keeps one `FsmState` per key. The form's `answers` list
  stored in data lives inside the `InForm` state.
