/**
 * The handlers of bot.py as they run: each one reads and writes the rows of
 * the open session in place, commits, and sets the sender's FSM state, and each
 * is proved to do what the corresponding function of `Dialogue` says.
 */
module Engine {
  import opened Models
  import opened Database
  import opened Menu
  import opened Dialogue

  class Bot {
    const cfg: Config
    const session: Session
    var fsm: map<Key, FsmState>

    /** Between two events: the store is seeded and the session is closed with nothing pending. */
    ghost predicate Valid()
      reads this, session
    {
      Seeded(session.committed) && session.pending == session.committed && !session.isOpen
    }

    /** While one event is handled: the unit of work is open and nothing is pending yet. */
    ghost predicate Ready()
      reads this, session
    {
      Seeded(session.committed) && session.pending == session.committed && session.isOpen
    }

    /** The handler has done what effect `e` says, for the sender with key `k`. */
    twostate predicate Realizes(k: Key, e: Effect, out: seq<Output>, raised: bool)
      reads this, session
    {
      && session.committed == e.db
      && fsm == Updated(old(fsm), k, e.state)
      && out == e.out
      && raised == e.raised
      && session.isOpen
      && (!raised ==> session.pending == session.committed)
    }

    /** Startup after `init_db` has seeded the store. */
    constructor (cfg: Config, db: Db)
      requires Seeded(db)
      ensures Valid() && this.cfg == cfg && session.committed == db && fsm == map[]
      ensures fresh(session)
    {
      this.cfg := cfg;
      session := new Session(db);
      fsm := map[];
      new;
      session.Close();
    }

    method SetState(k: Key, s: FsmState)
      modifies this
      ensures fsm == Updated(old(fsm), k, s)
    {
      fsm := Updated(fsm, k, s);
    }

    // ------------------------------------------------------------ end-user handlers

    /** `handle_form_input`. */
    method FormInputStep(k: Key, m: Message, o: Oracles) returns (out: seq<Output>, raised: bool)
      requires Ready() && StateOf(fsm, k).InForm?
      modifies this, session
      ensures Realizes(k, FormInput(old(session.committed), old(StateOf(fsm, k)), m, o), out, raised)
    {
      var st := StateOf(fsm, k);
      var answers := st.answers + [m.text];
      raised := false;
      if |answers| < |st.questions| {
        SetState(k, st.(answers := answers));
        out := [Ask(st.questions[|answers|])];
        return;
      }
      var row := FormResponse(NextKey(ResponseIds(session.pending.responses)), m.user, Some(st.buttonId), answers, o.now);
      session.AddResponse(row);
      var failed := session.Commit(o.commitOk);
      if failed {
        session.Rollback();
        out := [Say(SubmitFailed)];
        SetState(k, Idle);
        return;
      }
      out := [];
      var target := NotifyTarget(session.pending.adminSettings[0]);
      if target.Some? {
        // an exception from the send is logged and swallowed
        if o.notifyOk {
          out := out + [Notify(target.value, NoteFor(answers, m, o.now))];
        }
      }
      out := out + [Say(Thanks)];
      SetState(k, Idle);
    }

    /** `handle_menu_click` for a text that passed its filter. */
    method MenuClickStep(k: Key, text: string, o: Oracles) returns (out: seq<Output>, raised: bool)
      requires Ready() && StateOf(fsm, k) == Idle
      modifies this, session
      ensures Realizes(k, MenuClick(old(session.committed), text, o), out, raised)
    {
      raised := false;
      var found := FindActive(session.pending.buttons, text);
      if found.None? {
        out := [Say(UseMenu)];
        return;
      }
      var b := found.value;
      match b.responseType
      case Text =>
        out := [Say(if Truthy(b.responseContent) then b.responseContent.value else InfoSoon)];
      case File =>
        if Truthy(b.responseContent) && o.fileExists {
          out := [SendDocument(b.responseContent.value)];
        } else {
          out := [Say(FileMissing)];
        }
      case Link =>
        out := [Say(LinkPrefix + PyStr(b.responseContent))];
      case Form =>
        var qs := FormQuestions(b);
        SetState(k, InForm(b.id, qs, []));
        if |qs| == 0 {
          // `questions[0]` raises IndexError
          out := [];
          raised := true;
        } else {
          out := [Ask(qs[0])];
        }
    }

    /** `cmd_start`: the greeting and the main keyboard; the sender's state is left as it is. */
    method StartStep() returns (out: seq<Output>)
      requires Ready()
      ensures out == StartReply(session.committed)
    {
      var settings := session.pending.botSettings[0];
      var kb := MainKeyboard(session.pending);
      if Truthy(settings.greetingPhoto) {
        out := [GreetWithPhoto(settings.greetingPhoto.value, settings.greetingText, kb)];
      } else {
        out := [Greet(settings.greetingText, kb)];
      }
    }

    // ------------------------------------------------------------ admin handlers

    /** `set_group_from_chat`. */
    method SetGroupStep(k: Key, m: Message, o: Oracles) returns (out: seq<Output>, raised: bool)
      requires Ready()
      modifies this, session
      ensures Realizes(k, SetGroup(cfg, old(session.committed), old(StateOf(fsm, k)), m, o), out, raised)
    {
      out, raised := [], false;
      if !IsAdmin(cfg, m.user) {
        return;
      }
      if m.chatType == Group || m.chatType == Supergroup {
        session.pending := SetRequestsChat(session.pending, m.chat);
        raised := session.Commit(o.commitOk);
        if raised {
          return;
        }
        out := [Say(GroupBound)];
      } else {
        out := [Say(SendInGroup)];
      }
    }

    /** `admin_greeting_save`. */
    method GreetingSaveStep(k: Key, m: Message, o: Oracles) returns (out: seq<Output>, raised: bool)
      requires Ready()
      modifies this, session
      ensures Realizes(k, GreetingSave(cfg, old(session.committed), old(StateOf(fsm, k)), m, o), out, raised)
    {
      out := [];
      session.pending := SetGreetingText(session.pending, m.text);
      raised := session.Commit(o.commitOk);
      if raised {
        return;
      }
      out := [Say(GreetingSaved)];
      SetState(k, Idle);
      out := out + [PanelReply(cfg, m.user)];
    }

    /** `admin_greeting_photo_save`. */
    method GreetingPhotoSaveStep(k: Key, m: Message, o: Oracles) returns (out: seq<Output>, raised: bool)
      requires Ready() && |m.photo| > 0
      modifies this, session
      ensures Realizes(k, GreetingPhotoSave(cfg, old(session.committed), old(StateOf(fsm, k)), m, o), out, raised)
    {
      out := [];
      var fileId := m.photo[|m.photo| - 1];
      session.pending := SetGreetingPhoto(session.pending, Some(fileId));
      raised := session.Commit(o.commitOk);
      if raised {
        return;
      }
      out := [Say(PhotoSaved)];
      SetState(k, Idle);
      out := out + [PanelReply(cfg, m.user)];
    }

    /** `admin_greeting`: the greeting screen of the open session. */
    method GreetingMenuStep() returns (out: seq<Output>, raised: bool)
      requires session.isOpen && Seeded(session.pending)
      ensures out == GreetingMenu(session.pending, Idle).out && raised == GreetingMenu(session.pending, Idle).raised
    {
      var settings := session.pending.botSettings[0];
      if settings.greetingText.None? {
        // `len(None)` raises TypeError
        out, raised := [], true;
      } else {
        out, raised := [GreetingScreen(settings.greetingText.value, Truthy(settings.greetingPhoto))], false;
      }
    }

    /** `admin_greeting_photo_del`. */
    method GreetingPhotoDelStep(k: Key, o: Oracles) returns (out: seq<Output>, raised: bool)
      requires Ready()
      modifies this, session
      ensures Realizes(k, GreetingPhotoDel(old(session.committed), old(StateOf(fsm, k)), o), out, raised)
    {
      out := [];
      session.pending := SetGreetingPhoto(session.pending, None);
      raised := session.Commit(o.commitOk);
      if raised {
        return;
      }
      out := [Alert(PhotoDeleted)];
      var screen;
      screen, raised := GreetingMenuStep();
      out := out + screen;
    }

    /** `admin_btn_add_text`. */
    method ButtonAddStep(k: Key, m: Message, o: Oracles) returns (out: seq<Output>, raised: bool)
      requires Ready()
      modifies this, session
      ensures Realizes(k, ButtonAdd(old(session.committed), old(StateOf(fsm, k)), m, o), out, raised)
    {
      out := [];
      if m.text.None? {
        // `None.strip()` raises AttributeError
        raised := true;
        return;
      }
      var text := Strip(m.text.value);
      var b := NewButton(session.pending.buttons, text);
      session.AddButton(b);
      raised := session.Commit(o.commitOk);
      if raised {
        return;
      }
      out := [ButtonCreated(text, b.id)];
      SetState(k, Idle);
    }

    /** `admin_btn_set_type`. */
    method ButtonSetTypeStep(k: Key, id: int, kind: ResponseType, o: Oracles) returns (out: seq<Output>, raised: bool)
      requires Ready()
      modifies this, session
      ensures Realizes(k, ButtonSetType(old(session.committed), old(StateOf(fsm, k)), id, kind, o), out, raised)
    {
      out, raised := [], false;
      var i := FindButton(session.pending.buttons, id);
      if i.None? {
        out := [Alert(ButtonMissing)];
        return;
      }
      var b := session.pending.buttons[i.value];
      session.pending := SetButton(session.pending, i.value, b.(responseType := kind));
      raised := session.Commit(o.commitOk);
      if raised {
        return;
      }
      out := [Say(KindPrompt(kind))];
      if kind == Form {
        SetState(k, ButtonQuestions(id));
      } else {
        SetState(k, ButtonResponseContent(id));
      }
    }

    /** `admin_btn_save_content`. */
    method ButtonSaveContentStep(k: Key, m: Message, o: Oracles) returns (out: seq<Output>, raised: bool)
      requires Ready() && StateOf(fsm, k).ButtonResponseContent?
      modifies this, session
      ensures Realizes(k, ButtonSaveContent(cfg, old(session.committed), old(StateOf(fsm, k)), m, o), out, raised)
    {
      out, raised := [], false;
      var id := StateOf(fsm, k).editingButtonId;
      var i := FindButton(session.pending.buttons, id);
      if i.Some? {
        var b := session.pending.buttons[i.value];
        var content := if b.responseType == File && m.document.Some? then m.document else m.text;
        session.pending := SetButton(session.pending, i.value, b.(responseContent := content));
        raised := session.Commit(o.commitOk);
        if raised {
          return;
        }
        out := [Say(ContentSaved)];
      }
      SetState(k, Idle);
      out := out + [PanelReply(cfg, m.user)];
    }

    /** `admin_btn_save_questions`. */
    method ButtonSaveQuestionsStep(k: Key, m: Message, o: Oracles) returns (out: seq<Output>, raised: bool)
      requires Ready() && StateOf(fsm, k).ButtonQuestions?
      modifies this, session
      ensures Realizes(k, ButtonSaveQuestions(cfg, old(session.committed), old(StateOf(fsm, k)), m, o), out, raised)
    {
      out, raised := [], false;
      var questions := ParsedList(m, o);
      if questions.None? {
        out := [Say(BadQuestions)];
        return;
      }
      var id := StateOf(fsm, k).editingButtonId;
      var i := FindButton(session.pending.buttons, id);
      if i.Some? {
        var b := session.pending.buttons[i.value];
        session.pending := SetButton(session.pending, i.value, b.(formQuestions := questions));
        raised := session.Commit(o.commitOk);
        if raised {
          return;
        }
        out := [Say(QuestionsSaved)];
      }
      SetState(k, Idle);
      out := out + [PanelReply(cfg, m.user)];
    }

    // ------------------------------------------------------------ one update

    /** The handler `Route` picks for a message, run in the open unit of work. */
    method DispatchMessage(k: Key, m: Message, o: Oracles) returns (out: seq<Output>, raised: bool)
      requires Ready()
      modifies this, session
      ensures Realizes(k, MessageStep(cfg, old(session.committed), old(StateOf(fsm, k)), m, o), out, raised)
    {
      out, raised := [], false;
      var st := StateOf(fsm, k);
      match Route(cfg, st, m) {
        case HandleFormInput =>
          out, raised := FormInputStep(k, m, o);
        case HandleMenuClick =>
          out, raised := MenuClickStep(k, m.text.value, o);
        case CmdStart =>
          out := StartStep();
        case CmdPanel =>
          out := [PanelReply(cfg, m.user)];
        case SetGroupFromChat =>
          out, raised := SetGroupStep(k, m, o);
        case AdminGreetingSave =>
          out, raised := DispatchGreeting(k, m, o);
        case AdminGreetingPhotoSave =>
          out, raised := DispatchGreeting(k, m, o);
        case NoHandler =>
        case _ =>
          out, raised := DispatchButtonEditor(k, m, o);
      }
    }

    /** The greeting editor's handlers, which the sender's state selects for a message no earlier handler took. */
    method DispatchGreeting(k: Key, m: Message, o: Oracles) returns (out: seq<Output>, raised: bool)
      requires Ready()
      requires var h := Route(cfg, StateOf(fsm, k), m); h.AdminGreetingSave? || h.AdminGreetingPhotoSave?
      modifies this, session
      ensures Realizes(k, MessageStep(cfg, old(session.committed), old(StateOf(fsm, k)), m, o), out, raised)
    {
      if Route(cfg, StateOf(fsm, k), m).AdminGreetingSave? {
        out, raised := GreetingSaveStep(k, m, o);
      } else {
        out, raised := GreetingPhotoSaveStep(k, m, o);
      }
    }

    /** The button editor's handlers, which the sender's state selects for a message no earlier handler took. */
    method DispatchButtonEditor(k: Key, m: Message, o: Oracles) returns (out: seq<Output>, raised: bool)
      requires Ready()
      requires var h := Route(cfg, StateOf(fsm, k), m);
        h.AdminBtnAddText? || h.AdminBtnSaveContent? || h.AdminBtnSaveQuestions?
      modifies this, session
      ensures Realizes(k, MessageStep(cfg, old(session.committed), old(StateOf(fsm, k)), m, o), out, raised)
    {
      match Route(cfg, StateOf(fsm, k), m) {
        case AdminBtnAddText =>
          out, raised := ButtonAddStep(k, m, o);
        case AdminBtnSaveContent =>
          out, raised := ButtonSaveContentStep(k, m, o);
        case AdminBtnSaveQuestions =>
          out, raised := ButtonSaveQuestionsStep(k, m, o);
      }
    }

    /** The callback queries whose handlers only read: they neither write the store nor set a state. */
    static predicate ReadOnlyTap(data: CallbackData) {
      !(data.CbGreetingEdit? || data.CbGreetingPhoto? || data.CbGreetingPhotoDel? || data.CbButtonAdd? || data.CbSetType?)
    }

    /** The read-only callback handlers: a screen of the panel, the preview, or nothing at all. */
    method ShowScreen(k: Key, data: CallbackData, o: Oracles) returns (out: seq<Output>, raised: bool)
      requires Ready() && ReadOnlyTap(data)
      ensures var e := TapStep(session.committed, StateOf(fsm, k), data, o);
        e.db == session.committed && e.state == StateOf(fsm, k) && out == e.out && raised == e.raised
    {
      out, raised := [], false;
      match data {
        case CbGreeting =>
          out, raised := GreetingMenuStep();
        case CbButtonsList =>
          out := [ButtonsScreen(SortByOrder(session.pending.buttons))];
        case CbRequests =>
          out := [RequestsScreen(NotifyTarget(session.pending.adminSettings[0]))];
        case CbRequestSet =>
          out := [Say(HowToBind)];
        case CbStats =>
          out := [StatsScreen(|session.pending.responses|)];
        case CbTest =>
          out := StartStep();
          out := out + [Alert(PreviewSent)];
        case CbMain =>
          out := [ControlPanel];
        case CbButtonDetail(_) =>
        case CbOther(_) =>
      }
    }

    /** The handler the data of a callback query selects, run in the open unit of work. */
    method DispatchTap(k: Key, data: CallbackData, o: Oracles) returns (out: seq<Output>, raised: bool)
      requires Ready()
      modifies this, session
      ensures Realizes(k, TapStep(old(session.committed), old(StateOf(fsm, k)), data, o), out, raised)
    {
      match data {
        case CbGreetingEdit =>
          SetState(k, GreetingText);
          out, raised := [Say(AskGreetingText)], false;
        case CbGreetingPhoto =>
          SetState(k, GreetingPhoto);
          out, raised := [Say(AskGreetingPhoto)], false;
        case CbGreetingPhotoDel =>
          out, raised := GreetingPhotoDelStep(k, o);
        case CbButtonAdd =>
          SetState(k, NewButtonText);
          out, raised := [Say(AskButtonText)], false;
        case CbSetType(id, kind) =>
          out, raised := ButtonSetTypeStep(k, id, kind, o);
        case _ =>
          out, raised := ShowScreen(k, data, o);
      }
    }

    /**
     * One update as the dispatcher delivers it: when a handler takes the event,
     * the session middleware opens a unit of work, the handler runs, and
     * `get_db` commits or rolls back and closes; an event no handler takes is
     * dropped without a session.
     */
    method HandleUpdate(ev: Event, o: Oracles) returns (out: seq<Output>, raised: bool)
      requires Valid()
      modifies this, session
      ensures Valid()
      ensures var e := Step(cfg, old(session.committed), StateOf(old(fsm), KeyOf(ev)), ev, o);
        && session.committed == e.db
        && fsm == Updated(old(fsm), KeyOf(ev), e.state)
        && out == e.out
        && raised == (e.raised || (Handled(cfg, StateOf(old(fsm), KeyOf(ev)), ev) && !o.exitCommitOk))
      ensures !Handled(cfg, StateOf(old(fsm), KeyOf(ev)), ev) ==> unchanged(this, session)
    {
      var k := KeyOf(ev);
      if !Handled(cfg, StateOf(fsm, k), ev) {
        return [], false;
      }
      session.Begin();
      var bodyRaised;
      match ev {
        case Msg(m) =>
          out, bodyRaised := DispatchMessage(k, m, o);
        case Tap(_, _, data) =>
          out, bodyRaised := DispatchTap(k, data, o);
      }
      raised := session.Exit(bodyRaised, o.exitCommitOk);
    }
  }
}
