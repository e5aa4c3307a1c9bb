/**
 * What the bot promises across its handlers: which handler a message reaches,
 * the store only grows and keeps its keys unique, a form collects one answer
 * per question and stores exactly one response, the button and greeting
 * editors, and the seeded defaults.
 */
module Properties {
  import opened Models
  import opened Database
  import opened Menu
  import opened Dialogue

  // ---------------------------------------------------------------- which handler a message reaches

  /** A sender inside a form: every message is the next answer, commands and menu labels included. */
  lemma RouteForm(cfg: Config, db: Db, st: FsmState, m: Message, o: Oracles)
    requires Seeded(db) && st.InForm?
    ensures Step(cfg, db, st, Msg(m), o) == FormInput(db, st, m, o)
  {
  }

  /** An idle sender's menu text goes to the menu, before any command or state handler. */
  lemma RouteMenu(cfg: Config, db: Db, m: Message, o: Oracles)
    requires Seeded(db) && IsMenuText(m)
    ensures Step(cfg, db, Idle, Msg(m), o) == MenuClick(db, m.text.value, o)
  {
  }

  /** Outside a form and outside the menu, `/setgroup` is handled as that command, whatever the state. */
  lemma RouteSetGroup(cfg: Config, db: Db, st: FsmState, m: Message, o: Oracles)
    requires Seeded(db) && IsCommand(cfg, m, SetGroupCommand) && !st.InForm? && (st.Idle? ==> !IsMenuText(m))
    ensures Step(cfg, db, st, Msg(m), o) == SetGroup(cfg, db, st, m, o)
  {
    assert Route(cfg, st, m) == SetGroupFromChat;
    SetGroupRouted(cfg, db, st, m, o);
  }

  // What each command handler does once `Route` has picked it.

  lemma StartRouted(cfg: Config, db: Db, st: FsmState, m: Message, o: Oracles)
    requires Seeded(db) && Route(cfg, st, m) == CmdStart
    ensures Step(cfg, db, st, Msg(m), o) == Effect(db, st, StartReply(db), false)
  {
  }

  lemma PanelRouted(cfg: Config, db: Db, st: FsmState, m: Message, o: Oracles)
    requires Seeded(db) && Route(cfg, st, m) == CmdPanel
    ensures Step(cfg, db, st, Msg(m), o) == Effect(db, st, [PanelReply(cfg, m.user)], false)
  {
  }

  lemma SetGroupRouted(cfg: Config, db: Db, st: FsmState, m: Message, o: Oracles)
    requires Seeded(db) && Route(cfg, st, m) == SetGroupFromChat
    ensures Step(cfg, db, st, Msg(m), o) == SetGroup(cfg, db, st, m, o)
  {
  }

  /**
   * Any other message outside a form and outside the menu goes to the admin
   * handler of the sender's state, with no check of who sent it; in every
   * other state, the idle one included, it is dropped without a reply.
   */
  lemma RouteState(cfg: Config, db: Db, st: FsmState, m: Message, o: Oracles)
    requires Seeded(db) && !st.InForm? && !(st.Idle? && IsMenuText(m)) && CommandOf(cfg, m).None?
    ensures Step(cfg, db, st, Msg(m), o)
         == match st
            case GreetingText => GreetingSave(cfg, db, st, m, o)
            case GreetingPhoto =>
              if |m.photo| > 0 then GreetingPhotoSave(cfg, db, st, m, o) else Effect(db, st, [], false)
            case NewButtonText => ButtonAdd(db, st, m, o)
            case ButtonResponseContent(_) => ButtonSaveContent(cfg, db, st, m, o)
            case ButtonQuestions(_) => ButtonSaveQuestions(cfg, db, st, m, o)
            case _ => Effect(db, st, [], false)
  {
    RouteByState(cfg, st, m);
  }

  lemma RouteByState(cfg: Config, st: FsmState, m: Message)
    requires !st.InForm? && !(st.Idle? && IsMenuText(m)) && CommandOf(cfg, m).None?
    ensures Route(cfg, st, m) == StateHandler(st, m)
  {
  }

  // ---------------------------------------------------------------- the store only grows, keys stay unique

  predicate UniqueButtonKeys(bs: seq<Button>) {
    forall i, j :: 0 <= i < j < |bs| ==> bs[i].id != bs[j].id
  }

  predicate UniqueResponseKeys(rs: seq<FormResponse>) {
    forall i, j :: 0 <= i < j < |rs| ==> rs[i].id != rs[j].id
  }

  predicate KeysUnique(db: Db) {
    UniqueButtonKeys(db.buttons) && UniqueResponseKeys(db.responses)
  }

  lemma GrowsTransitive(d0: Db, d1: Db, d2: Db)
    requires Grows(d0, d1) && Grows(d1, d2)
    ensures Grows(d0, d2)
  {
  }

  /** Replacing a button by one with the same key keeps the store growing and its keys unique. */
  lemma {:induction false} ReplaceButtonPreserves(db: Db, i: nat, b: Button)
    requires i < |db.buttons| && b.id == db.buttons[i].id
    ensures Grows(db, SetButton(db, i, b))
    ensures KeysUnique(db) ==> KeysUnique(SetButton(db, i, b))
  {
    assert forall j :: 0 <= j < |db.buttons| ==> SetButton(db, i, b).buttons[j].id == db.buttons[j].id;
  }

  /** A completed form appends one response under a fresh key and touches nothing else. */
  lemma {:induction false} FormInputPreserves(db: Db, st: FsmState, m: Message, o: Oracles)
    requires Seeded(db) && st.InForm?
    ensures Grows(db, FormInput(db, st, m, o).db)
    ensures KeysUnique(db) ==> KeysUnique(FormInput(db, st, m, o).db)
    ensures var d := FormInput(db, st, m, o).db;
      && d.botSettings == db.botSettings && d.adminSettings == db.adminSettings && d.buttons == db.buttons
      && |d.responses| <= |db.responses| + 1
  {
    var answers := st.answers + [m.text];
    if |answers| >= |st.questions| && o.commitOk {
      var r := ResponseRow(db, st, answers, m, o.now);
      assert forall i :: 0 <= i < |db.responses| ==> ResponseIds(db.responses)[i] == db.responses[i].id < r.id;
    }
  }

  /** A new button goes after the others under a key larger than every existing one. */
  lemma {:induction false} AppendNewButton(db: Db, text: string)
    ensures var d := db.(buttons := db.buttons + [NewButton(db.buttons, text)]);
      Grows(db, d) && (KeysUnique(db) ==> KeysUnique(d))
  {
    var b := NewButton(db.buttons, text);
    assert forall i :: 0 <= i < |db.buttons| ==> ButtonIds(db.buttons)[i] == db.buttons[i].id < b.id;
  }

  /** Saving a new button's text appends at most that one button under a fresh key and touches nothing else. */
  lemma {:induction false} ButtonAddPreserves(db: Db, st: FsmState, m: Message, o: Oracles)
    ensures Grows(db, ButtonAdd(db, st, m, o).db)
    ensures KeysUnique(db) ==> KeysUnique(ButtonAdd(db, st, m, o).db)
    ensures var d := ButtonAdd(db, st, m, o).db;
      && d.botSettings == db.botSettings && d.adminSettings == db.adminSettings && d.responses == db.responses
      && |d.buttons| <= |db.buttons| + 1
  {
    if m.text.Some? {
      AppendNewButton(db, Strip(m.text.value));
    }
  }

  lemma {:induction false} SaveContentPreserves(cfg: Config, db: Db, st: FsmState, m: Message, o: Oracles)
    requires st.ButtonResponseContent?
    ensures Grows(db, ButtonSaveContent(cfg, db, st, m, o).db)
    ensures KeysUnique(db) ==> KeysUnique(ButtonSaveContent(cfg, db, st, m, o).db)
  {
    match FindButton(db.buttons, st.editingButtonId) {
      case None =>
      case Some(i) =>
        var b := db.buttons[i];
        var content := if b.responseType == File && m.document.Some? then m.document else m.text;
        ReplaceButtonPreserves(db, i, b.(responseContent := content));
    }
  }

  lemma {:induction false} SaveQuestionsPreserves(cfg: Config, db: Db, st: FsmState, m: Message, o: Oracles)
    requires st.ButtonQuestions?
    ensures Grows(db, ButtonSaveQuestions(cfg, db, st, m, o).db)
    ensures KeysUnique(db) ==> KeysUnique(ButtonSaveQuestions(cfg, db, st, m, o).db)
  {
    match ParsedList(m, o) {
      case None =>
      case Some(items) =>
        match FindButton(db.buttons, st.editingButtonId) {
          case None =>
          case Some(i) => ReplaceButtonPreserves(db, i, db.buttons[i].(formQuestions := Some(items)));
        }
    }
  }

  lemma {:induction false} SetTypePreserves(db: Db, st: FsmState, id: int, kind: ResponseType, o: Oracles)
    ensures Grows(db, ButtonSetType(db, st, id, kind, o).db)
    ensures KeysUnique(db) ==> KeysUnique(ButtonSetType(db, st, id, kind, o).db)
  {
    match FindButton(db.buttons, id) {
      case None =>
      case Some(i) => ReplaceButtonPreserves(db, i, db.buttons[i].(responseType := kind));
    }
  }

  /** A message never deletes a row, never changes a key, only appends responses, and never duplicates a key. */
  lemma {:induction false} MessageStepPreserves(cfg: Config, db: Db, st: FsmState, m: Message, o: Oracles)
    requires Seeded(db)
    ensures Grows(db, MessageStep(cfg, db, st, m, o).db)
    ensures KeysUnique(db) ==> KeysUnique(MessageStep(cfg, db, st, m, o).db)
  {
    if st.InForm? {
      FormStepPreserves(cfg, db, st, m, o);
    } else if st.Idle? && IsMenuText(m) {
      MenuStepPreserves(cfg, db, m, o);
    } else if CommandOf(cfg, m).Some? {
      CommandStepPreserves(cfg, db, st, m, o);
    } else {
      StateStepPreserves(cfg, db, st, m, o);
    }
  }

  lemma {:induction false} FormStepPreserves(cfg: Config, db: Db, st: FsmState, m: Message, o: Oracles)
    requires Seeded(db) && st.InForm?
    ensures Grows(db, MessageStep(cfg, db, st, m, o).db)
    ensures KeysUnique(db) ==> KeysUnique(MessageStep(cfg, db, st, m, o).db)
  {
    RouteForm(cfg, db, st, m, o);
    FormInputPreserves(db, st, m, o);
  }

  /** The menu writes nothing. */
  lemma {:induction false} MenuStepPreserves(cfg: Config, db: Db, m: Message, o: Oracles)
    requires Seeded(db) && IsMenuText(m)
    ensures MessageStep(cfg, db, Idle, m, o).db == db
  {
    RouteMenu(cfg, db, m, o);
    MenuClickOutcomes(db, m.text.value, o);
  }

  /** A command writes at most the notification target. */
  lemma {:induction false} CommandStepPreserves(cfg: Config, db: Db, st: FsmState, m: Message, o: Oracles)
    requires Seeded(db) && !st.InForm? && !(st.Idle? && IsMenuText(m)) && CommandOf(cfg, m).Some?
    ensures var d := MessageStep(cfg, db, st, m, o).db;
      d == db || d == SetRequestsChat(db, m.chat)
  {
    match CommandOf(cfg, m).value
    case StartCommand => StartKeepsState(cfg, db, st, m, o);
    case PanelCommand => PanelGate(cfg, db, st, m, o);
    case SetGroupCommand =>
      RouteSetGroup(cfg, db, st, m, o);
      SetGroupOutcomes(cfg, db, st, m, o);
  }

  /** The admin handlers selected by state never delete a row, change a key or duplicate one. */
  lemma {:induction false} StateStepPreserves(cfg: Config, db: Db, st: FsmState, m: Message, o: Oracles)
    requires Seeded(db) && !st.InForm? && !(st.Idle? && IsMenuText(m)) && CommandOf(cfg, m).None?
    ensures Grows(db, MessageStep(cfg, db, st, m, o).db)
    ensures KeysUnique(db) ==> KeysUnique(MessageStep(cfg, db, st, m, o).db)
  {
    RouteState(cfg, db, st, m, o);
    match st {
      case NewButtonText => ButtonAddPreserves(db, st, m, o);
      case ButtonResponseContent(_) => SaveContentPreserves(cfg, db, st, m, o);
      case ButtonQuestions(_) => SaveQuestionsPreserves(cfg, db, st, m, o);
      case _ =>
    }
  }

  /** A callback query never deletes a row, never changes a key, never duplicates one, and never touches the responses. */
  lemma {:induction false} TapStepPreserves(db: Db, st: FsmState, data: CallbackData, o: Oracles)
    requires Seeded(db)
    ensures Grows(db, TapStep(db, st, data, o).db)
    ensures KeysUnique(db) ==> KeysUnique(TapStep(db, st, data, o).db)
    ensures TapStep(db, st, data, o).db.responses == db.responses
  {
    if data.CbSetType? {
      SetTypePreserves(db, st, data.buttonId, data.kind, o);
    }
  }

  lemma {:induction false} StepGrows(cfg: Config, db: Db, st: FsmState, ev: Event, o: Oracles)
    requires Seeded(db)
    ensures Grows(db, Step(cfg, db, st, ev, o).db)
  {
    match ev {
      case Msg(m) => MessageStepPreserves(cfg, db, st, m, o);
      case Tap(_, _, data) => TapStepPreserves(db, st, data, o);
    }
  }

  /** No handler ever gives two buttons, or two responses, the same key. */
  lemma {:induction false} StepKeepsKeysUnique(cfg: Config, db: Db, st: FsmState, ev: Event, o: Oracles)
    requires Seeded(db) && KeysUnique(db)
    ensures KeysUnique(Step(cfg, db, st, ev, o).db)
  {
    match ev {
      case Msg(m) => MessageStepPreserves(cfg, db, st, m, o);
      case Tap(_, _, data) => TapStepPreserves(db, st, data, o);
    }
  }

  /** Seeding keeps keys unique: the default buttons go only into an empty table. */
  lemma SeedKeepsKeysUnique(db: Db, chat: Option<int>)
    requires KeysUnique(db)
    ensures KeysUnique(Seed(db, chat))
  {
  }

  /** An event no handler takes changes nothing and sends nothing, whatever the outside inputs. */
  lemma UnhandledIsDropped(cfg: Config, db: Db, st: FsmState, ev: Event, o: Oracles)
    requires Seeded(db) && !Handled(cfg, st, ev)
    ensures Step(cfg, db, st, ev, o) == Effect(db, st, [], false)
  {
  }

  // ---------------------------------------------------------------- runs of events

  /** Where a run of events leaves the store and the FSM storage, and everything sent on the way. */
  datatype Outcome = Outcome(db: Db, fsm: map<Key, FsmState>, out: seq<Output>)

  /**
   * Events from any senders handled in turn, each with its own outside inputs:
   * each event is handled in the state stored under its own key, and only that
   * key's state is replaced.
   */
  function Run(cfg: Config, db: Db, fsm: map<Key, FsmState>, evs: seq<Event>, os: seq<Oracles>): (r: Outcome)
    requires Seeded(db) && |evs| == |os|
    ensures Seeded(r.db)
    decreases |evs|
  {
    if |evs| == 0 then Outcome(db, fsm, [])
    else
      var k := KeyOf(evs[0]);
      var e := Step(cfg, db, StateOf(fsm, k), evs[0], os[0]);
      var r := Run(cfg, e.db, Updated(fsm, k, e.state), evs[1..], os[1..]);
      Outcome(r.db, r.fsm, e.out + r.out)
  }

  /** A run never deletes a row nor changes a key, however many events it holds. */
  lemma {:induction false} RunGrows(cfg: Config, db: Db, fsm: map<Key, FsmState>, evs: seq<Event>, os: seq<Oracles>)
    requires Seeded(db) && |evs| == |os|
    ensures Grows(db, Run(cfg, db, fsm, evs, os).db)
    decreases |evs|
  {
    if |evs| > 0 {
      var k := KeyOf(evs[0]);
      var e := Step(cfg, db, StateOf(fsm, k), evs[0], os[0]);
      StepGrows(cfg, db, StateOf(fsm, k), evs[0], os[0]);
      RunGrows(cfg, e.db, Updated(fsm, k, e.state), evs[1..], os[1..]);
      GrowsTransitive(db, e.db, Run(cfg, e.db, Updated(fsm, k, e.state), evs[1..], os[1..]).db);
    }
  }

  /** Whatever a run holds, the state of a sender who sent none of its events is left as it was. */
  lemma {:induction false} OthersKeepState(cfg: Config, db: Db, fsm: map<Key, FsmState>, evs: seq<Event>,
                                           os: seq<Oracles>, k: Key)
    requires Seeded(db) && |evs| == |os|
    requires forall i :: 0 <= i < |evs| ==> KeyOf(evs[i]) != k
    ensures StateOf(Run(cfg, db, fsm, evs, os).fsm, k) == StateOf(fsm, k)
    decreases |evs|
  {
    if |evs| > 0 {
      var k0 := KeyOf(evs[0]);
      var e := Step(cfg, db, StateOf(fsm, k0), evs[0], os[0]);
      assert forall i :: 0 <= i < |evs[1..]| ==> evs[1..][i] == evs[i + 1];
      OthersKeepState(cfg, e.db, Updated(fsm, k0, e.state), evs[1..], os[1..], k);
    }
  }

  /** Every message of the list comes from the same user in the same chat. */
  predicate From(ms: seq<Message>, k: Key) {
    forall i :: 0 <= i < |ms| ==> Key(ms[i].chat, ms[i].user) == k
  }

  function Msgs(ms: seq<Message>): (evs: seq<Event>)
    ensures |evs| == |ms| && forall i :: 0 <= i < |ms| ==> evs[i] == Msg(ms[i])
  {
    seq(|ms|, i requires 0 <= i < |ms| => Msg(ms[i]))
  }

  function Texts(ms: seq<Message>): (ts: seq<Option<string>>)
    ensures |ts| == |ms| && forall i :: 0 <= i < |ms| ==> ts[i] == ms[i].text
  {
    seq(|ms|, i requires 0 <= i < |ms| => ms[i].text)
  }

  function Asks(qs: seq<Json>): (out: seq<Output>)
    ensures |out| == |qs| && forall i :: 0 <= i < |qs| ==> out[i] == Ask(qs[i])
  {
    if |qs| == 0 then [] else [Ask(qs[0])] + Asks(qs[1..])
  }

  // ---------------------------------------------------------------- the form

  /** While questions remain, the message is recorded as the next answer and the next question is asked. */
  lemma FormAsksNext(db: Db, st: FsmState, m: Message, o: Oracles)
    requires Seeded(db) && st.InForm? && |st.answers| + 1 < |st.questions|
    ensures FormInput(db, st, m, o)
         == Effect(db, st.(answers := st.answers + [m.text]), [Ask(st.questions[|st.answers| + 1])], false)
  {
  }

  /** The last answer fails to commit: nothing is stored, nobody is notified, and the form is over. */
  lemma FormSubmitFails(db: Db, st: FsmState, m: Message, o: Oracles)
    requires Seeded(db) && st.InForm? && |st.answers| + 1 >= |st.questions| && !o.commitOk
    ensures FormInput(db, st, m, o) == Effect(db, Idle, [Say(SubmitFailed)], false)
  {
  }

  /**
   * The last answer commits: exactly one response is appended, holding every
   * answer, the staff group hears of it exactly when a non-zero target is set and
   * the send succeeds, and the sender is thanked last.
   */
  lemma {:induction false} FormSubmitStores(db: Db, st: FsmState, m: Message, o: Oracles)
    requires Seeded(db) && st.InForm? && |st.answers| + 1 >= |st.questions| && o.commitOk
    ensures var e := FormInput(db, st, m, o);
      && e.state == Idle && !e.raised
      && e.db == db.(responses := db.responses + [e.db.responses[|db.responses|]])
      && e.db.responses[|db.responses|]
         == FormResponse(NextKey(ResponseIds(db.responses)), m.user, Some(st.buttonId), st.answers + [m.text], o.now)
      && |e.out| > 0 && e.out[|e.out| - 1] == Say(Thanks)
      && ((exists i :: 0 <= i < |e.out| && e.out[i].Notify?)
          <==> db.adminSettings[0].requestsChatId.Some? && db.adminSettings[0].requestsChatId.value != 0 && o.notifyOk)
      && (forall i :: 0 <= i < |e.out| && e.out[i].Notify? ==>
            Some(e.out[i].chat) == db.adminSettings[0].requestsChatId
            && e.out[i].note == NoteFor(st.answers + [m.text], m, o.now))
  {
    var e := FormInput(db, st, m, o);
    var notes := Notifications(db.adminSettings[0], st.answers + [m.text], m, o);
    assert e.out == notes + [Say(Thanks)];
    assert forall i :: 0 <= i < |e.out| && e.out[i].Notify? ==> i < |notes|;
    if notes != [] {
      assert e.out[0].Notify?;
    }
  }

  /** The notification names the first three answers, "—" for each one the form did not have. */
  lemma NoteSlots(answers: seq<Option<string>>, m: Message, now: string)
    ensures var n := NoteFor(answers, m, now);
      && n.name == (if |answers| > 0 then PyStr(answers[0]) else NoValue)
      && n.task == (if |answers| > 1 then PyStr(answers[1]) else NoValue)
      && n.contact == (if |answers| > 2 then PyStr(answers[2]) else NoValue)
      && n.time == now && n.userId == m.user
  {
  }

  /** Where answering a form leaves the store and the sender's state, and everything sent on the way. */
  datatype FormOutcome = FormOutcome(db: Db, state: FsmState, out: seq<Output>)

  /** The messages a sender inside a form sends, each taken by the form handler, until the form is over. */
  function Answering(db: Db, st: FsmState, ms: seq<Message>, os: seq<Oracles>): (r: FormOutcome)
    requires Seeded(db) && |ms| == |os|
    ensures Seeded(r.db)
    decreases |ms|
  {
    if |ms| == 0 || !st.InForm? then FormOutcome(db, st, [])
    else
      var e := FormInput(db, st, ms[0], os[0]);
      var r := Answering(e.db, e.state, ms[1..], os[1..]);
      FormOutcome(r.db, r.state, e.out + r.out)
  }

  /**
   * Answering a form to the end: starting with the answers `pre`, one message per
   * remaining question is recorded and asks each following question in turn,
   * and the last message is handled with every answer before it recorded.
   */
  lemma {:induction false} AnsweringAsks(db: Db, b: int, qs: seq<Json>, pre: seq<Option<string>>,
                                         ms: seq<Message>, os: seq<Oracles>)
    requires Seeded(db) && |ms| == |os| > 0 && |pre| + |ms| == |qs|
    ensures var f := FormInput(db, InForm(b, qs, pre + Texts(ms[..|ms| - 1])), ms[|ms| - 1], os[|os| - 1]);
      Answering(db, InForm(b, qs, pre), ms, os) == FormOutcome(f.db, f.state, Asks(qs[|pre| + 1..]) + f.out)
    decreases |ms|
  {
    if |ms| == 1 {
      AnsweringAsksOne(db, b, qs, pre, ms, os);
    } else {
      AnsweringAsks(db, b, qs, pre + [ms[0].text], ms[1..], os[1..]);
      AnsweringAsksMore(db, b, qs, pre, ms, os);
    }
  }

  lemma AnsweringAsksOne(db: Db, b: int, qs: seq<Json>, pre: seq<Option<string>>, ms: seq<Message>, os: seq<Oracles>)
    requires Seeded(db) && |ms| == |os| == 1 && |pre| + 1 == |qs|
    ensures var f := FormInput(db, InForm(b, qs, pre + Texts(ms[..|ms| - 1])), ms[|ms| - 1], os[|os| - 1]);
      Answering(db, InForm(b, qs, pre), ms, os) == FormOutcome(f.db, f.state, Asks(qs[|pre| + 1..]) + f.out)
  {
    AnsweringOne(db, InForm(b, qs, pre), ms[0], os[0]);
    assert ms == [ms[0]] && os == [os[0]];
    assert ms[..0] == [];
    assert pre + Texts([]) == pre;
    assert qs[|pre| + 1..] == [];
  }

  /** The step of `AnsweringAsks`: what holds of the run from the second message on holds of the whole run. */
  lemma AnsweringAsksMore(db: Db, b: int, qs: seq<Json>, pre: seq<Option<string>>, ms: seq<Message>, os: seq<Oracles>)
    requires Seeded(db) && |ms| == |os| > 1 && |pre| + |ms| == |qs|
    requires var pre' := pre + [ms[0].text];
      var f := FormInput(db, InForm(b, qs, pre' + Texts(ms[1..][..|ms[1..]| - 1])), ms[1..][|ms[1..]| - 1], os[1..][|os[1..]| - 1]);
      Answering(db, InForm(b, qs, pre'), ms[1..], os[1..]) == FormOutcome(f.db, f.state, Asks(qs[|pre'| + 1..]) + f.out)
    ensures var f := FormInput(db, InForm(b, qs, pre + Texts(ms[..|ms| - 1])), ms[|ms| - 1], os[|os| - 1]);
      Answering(db, InForm(b, qs, pre), ms, os) == FormOutcome(f.db, f.state, Asks(qs[|pre| + 1..]) + f.out)
  {
    AnsweringNext(db, InForm(b, qs, pre), ms, os);
    TextsShift(pre, ms);
    AsksShift(qs, |pre| + 1);
    LastShift(ms);
    LastShift(os);
  }

  /** Recording the first message's text, then the texts of the rest but its last, records all but the last. */
  lemma TextsShift(pre: seq<Option<string>>, ms: seq<Message>)
    requires |ms| > 1
    ensures pre + [ms[0].text] + Texts(ms[1..][..|ms[1..]| - 1]) == pre + Texts(ms[..|ms| - 1])
  {
    assert ms[1..][..|ms[1..]| - 1] == ms[1..|ms| - 1];
    assert ms[..|ms| - 1] == [ms[0]] + ms[1..|ms| - 1];
  }

  lemma AsksShift(qs: seq<Json>, k: nat)
    requires k < |qs|
    ensures Asks(qs[k..]) == [Ask(qs[k])] + Asks(qs[k + 1..])
  {
    assert qs[k..][1..] == qs[k + 1..];
  }

  lemma LastShift<T>(xs: seq<T>)
    requires |xs| > 1
    ensures xs[1..][|xs[1..]| - 1] == xs[|xs| - 1]
  {
  }

  /**
   * A form answered to the end with a committed last answer: each following
   * question is asked in turn, one response is stored with every answer in
   * order, and the sender is left idle.
   */
  lemma AnsweringCompletes(db: Db, b: int, qs: seq<Json>, pre: seq<Option<string>>,
                           ms: seq<Message>, os: seq<Oracles>)
    requires Seeded(db) && |ms| == |os| > 0 && |pre| + |ms| == |qs|
    requires os[|os| - 1].commitOk
    ensures var r := Answering(db, InForm(b, qs, pre), ms, os);
      var last := ms[|ms| - 1];
      var answers := pre + Texts(ms);
      && r.state == Idle
      && r.db == db.(responses := db.responses
                     + [FormResponse(NextKey(ResponseIds(db.responses)), last.user, Some(b), answers, os[|os| - 1].now)])
      && r.out == Asks(qs[|pre| + 1..]) + Notifications(db.adminSettings[0], answers, last, os[|os| - 1]) + [Say(Thanks)]
  {
    AnsweringAsks(db, b, qs, pre, ms, os);
    var before := pre + Texts(ms[..|ms| - 1]);
    assert ms == ms[..|ms| - 1] + [ms[|ms| - 1]];
    assert Texts(ms) == Texts(ms[..|ms| - 1]) + [ms[|ms| - 1].text];
    assert before + [ms[|ms| - 1].text] == pre + Texts(ms);
  }

  /** A single message inside a form is all the form handler does with it. */
  lemma AnsweringOne(db: Db, st: FsmState, m: Message, o: Oracles)
    requires Seeded(db) && st.InForm?
    ensures var e := FormInput(db, st, m, o);
      Answering(db, st, [m], [o]) == FormOutcome(e.db, e.state, e.out)
  {
    var e := FormInput(db, st, m, o);
    assert [m][1..] == [] && [o][1..] == [];
    assert Answering(e.db, e.state, [], []) == FormOutcome(e.db, e.state, []);
    assert e.out + [] == e.out;
  }

  /** An answer before the last one asks the next question and the form goes on. */
  lemma AnsweringNext(db: Db, st: FsmState, ms: seq<Message>, os: seq<Oracles>)
    requires Seeded(db) && st.InForm? && |st.answers| + 1 < |st.questions| && |ms| == |os| > 0
    ensures var r := Answering(db, st.(answers := st.answers + [ms[0].text]), ms[1..], os[1..]);
      Answering(db, st, ms, os) == FormOutcome(r.db, r.state, [Ask(st.questions[|st.answers| + 1])] + r.out)
  {
    FormAsksNext(db, st, ms[0], os[0]);
  }

  /**
   * Until its last answer, every message of a sender inside a form reaches the
   * form handler, when that sender alone is writing: the store, the replies
   * and the sender's state are those of `Answering`.
   */
  lemma {:induction false} RunIsAnswering(cfg: Config, db: Db, fsm: map<Key, FsmState>, k: Key,
                                          ms: seq<Message>, os: seq<Oracles>)
    requires Seeded(db) && |ms| == |os| && From(ms, k)
    requires StateOf(fsm, k).InForm? && |StateOf(fsm, k).answers| + |ms| <= |StateOf(fsm, k).questions|
    ensures var r := Run(cfg, db, fsm, Msgs(ms), os);
      var a := Answering(db, StateOf(fsm, k), ms, os);
      r.db == a.db && r.out == a.out && StateOf(r.fsm, k) == a.state
    decreases |ms|
  {
    if |ms| > 0 {
      var st := StateOf(fsm, k);
      RunFormHead(cfg, db, fsm, ms, os);
      var e := FormInput(db, st, ms[0], os[0]);
      if |ms| > 1 {
        FormAsksNext(db, st, ms[0], os[0]);
        assert forall i :: 0 <= i < |ms[1..]| ==> ms[1..][i] == ms[i + 1];
        RunIsAnswering(cfg, e.db, Updated(fsm, k, e.state), k, ms[1..], os[1..]);
      } else {
        assert Msgs(ms[1..]) == [];
      }
    }
  }

  /** The dispatcher's view of a form answered to the end by one sender: what `AnsweringCompletes` states holds of the run. */
  lemma FormRunCompletes(cfg: Config, db: Db, fsm: map<Key, FsmState>, k: Key, b: int, qs: seq<Json>,
                         pre: seq<Option<string>>, ms: seq<Message>, os: seq<Oracles>)
    requires Seeded(db) && |ms| == |os| > 0 && |pre| + |ms| == |qs| && From(ms, k)
    requires StateOf(fsm, k) == InForm(b, qs, pre) && os[|os| - 1].commitOk
    ensures var r := Run(cfg, db, fsm, Msgs(ms), os);
      var last := ms[|ms| - 1];
      var answers := pre + Texts(ms);
      && StateOf(r.fsm, k) == Idle
      && r.db == db.(responses := db.responses
                     + [FormResponse(NextKey(ResponseIds(db.responses)), last.user, Some(b), answers, os[|os| - 1].now)])
      && r.out == Asks(qs[|pre| + 1..]) + Notifications(db.adminSettings[0], answers, last, os[|os| - 1]) + [Say(Thanks)]
  {
    RunIsAnswering(cfg, db, fsm, k, ms, os);
    AnsweringCompletes(db, b, qs, pre, ms, os);
  }

  /** The first message of a run, from a sender inside a form, is handled as a form answer in that sender's state. */
  lemma RunFormHead(cfg: Config, db: Db, fsm: map<Key, FsmState>, ms: seq<Message>, os: seq<Oracles>)
    requires Seeded(db) && |ms| == |os| > 0 && StateOf(fsm, Key(ms[0].chat, ms[0].user)).InForm?
    ensures var k := Key(ms[0].chat, ms[0].user);
      var e := FormInput(db, StateOf(fsm, k), ms[0], os[0]);
      var r := Run(cfg, e.db, Updated(fsm, k, e.state), Msgs(ms[1..]), os[1..]);
      Run(cfg, db, fsm, Msgs(ms), os) == Outcome(r.db, r.fsm, e.out + r.out)
  {
    RouteForm(cfg, db, StateOf(fsm, Key(ms[0].chat, ms[0].user)), ms[0], os[0]);
    assert Msgs(ms)[0] == Msg(ms[0]);
    assert Msgs(ms)[1..] == Msgs(ms[1..]);
  }

  // ---------------------------------------------------------------- the main menu

  /**
   * A menu text: nothing is written; an unknown label gets the hint; a text
   * button answers with its content (or the placeholder when it has none); a
   * file button sends its file when it names one that exists (otherwise the
   * "file missing" reply); a link button sends the link line; and a form button
   * starts its form, which raises when its question list is empty.
   */
  lemma MenuClickOutcomes(db: Db, text: string, o: Oracles)
    ensures var e := MenuClick(db, text, o);
      var found := FindActive(db.buttons, text);
      && e.db == db
      && (found.None? ==> e == Effect(db, Idle, [Say(UseMenu)], false))
      && (found.Some? && found.value.responseType != Form ==> e.state == Idle && |e.out| == 1 && !e.raised)
      && (found.Some? && found.value.responseType == Text ==>
            e.out == [Say(if Truthy(found.value.responseContent) then found.value.responseContent.value else InfoSoon)])
      && (found.Some? && found.value.responseType == File ==>
            (e.out[0].SendDocument? <==> Truthy(found.value.responseContent) && o.fileExists)
            && (e.out[0].SendDocument? ==> e.out[0] == SendDocument(found.value.responseContent.value))
            && (!e.out[0].SendDocument? ==> e.out[0] == Say(FileMissing)))
      && (found.Some? && found.value.responseType == Link ==>
            e.out == [Say(LinkPrefix + PyStr(found.value.responseContent))])
      && (found.Some? && found.value.responseType == Form ==>
            var qs := FormQuestions(found.value);
            && e.state == InForm(found.value.id, qs, [])
            && (e.raised <==> |qs| == 0)
            && (|qs| > 0 ==> e.out == [Ask(qs[0])]))
  {
  }

  /**
   * A form button whose stored list is empty: the click raises after the form has
   * started, so the sender's next message, whatever it is, is stored as a
   * response with that single answer.
   */
  lemma EmptyFormTakesNextMessage(cfg: Config, db: Db, fsm: map<Key, FsmState>, m: Message, next: Message,
                                   o: Oracles, o2: Oracles)
    requires Seeded(db) && IsMenuText(m) && o2.commitOk
    requires StateOf(fsm, Key(m.chat, m.user)) == Idle && Key(next.chat, next.user) == Key(m.chat, m.user)
    requires FindActive(db.buttons, m.text.value).Some?
    requires FindActive(db.buttons, m.text.value).value.responseType == Form
    requires FindActive(db.buttons, m.text.value).value.formQuestions == Some([])
    ensures var b := FindActive(db.buttons, m.text.value).value;
      var r := Run(cfg, db, fsm, [Msg(m), Msg(next)], [o, o2]);
      && Step(cfg, db, Idle, Msg(m), o) == Effect(db, InForm(b.id, [], []), [], true)
      && r.db.responses
         == db.responses + [FormResponse(NextKey(ResponseIds(db.responses)), next.user, Some(b.id), [next.text], o2.now)]
      && StateOf(r.fsm, Key(m.chat, m.user)) == Idle
  {
    var k := Key(m.chat, m.user);
    var b := FindActive(db.buttons, m.text.value).value;
    RouteMenu(cfg, db, m, o);
    var e1 := Step(cfg, db, Idle, Msg(m), o);
    var fsm1 := Updated(fsm, k, e1.state);
    RouteForm(cfg, db, InForm(b.id, [], []), next, o2);
    assert [] + [next.text] == [next.text];
    var e2 := Step(cfg, db, InForm(b.id, [], []), Msg(next), o2);
    var evs: seq<Event> := [Msg(m), Msg(next)];
    var os := [o, o2];
    assert evs[1..] == [Msg(next)] && os[1..] == [o2];
    assert evs[1..][1..] == [] && os[1..][1..] == [];
    assert Run(cfg, e2.db, Updated(fsm1, k, e2.state), [], []).db == e2.db;
    assert Run(cfg, db, fsm1, [Msg(next)], [o2]).db == e2.db;
  }

  // ---------------------------------------------------------------- commands

  /** A word without spaces is its own first word. */
  lemma {:induction false} FirstWordWhole(s: string)
    requires forall i :: 0 <= i < |s| ==> !IsSpace(s[i])
    ensures FirstWord(s) == s
  {
    if |s| > 0 {
      FirstWordWhole(s[1..]);
      assert s == [s[0]] + s[1..];
    }
  }

  /** Partitioning at a character the string lacks leaves it whole. */
  lemma {:induction false} PartitionAbsent(s: string, c: char)
    requires c !in s
    ensures Partition(s, c) == (s, "")
  {
    if |s| > 0 {
      PartitionAbsent(s[1..], c);
      assert s == [s[0]] + s[1..];
    }
  }

  /** A text that is "/" followed by one word without spaces or "@" names that word as its command. */
  lemma CommandNameOf(cfg: Config, m: Message, name: string)
    requires m.text == Some(['/'] + name)
    requires forall i :: 0 <= i < |name| ==> !IsSpace(name[i]) && name[i] != '@'
    ensures CommandName(cfg, m) == Some(name)
  {
    var t := ['/'] + name;
    assert TrimLeft(t) == t;
    FirstWordWhole(t);
    assert t[1..] == name;
    PartitionAbsent(name, '@');
  }

  /** A message whose text is exactly "/start" is the start command and never menu text. */
  lemma SlashStart(cfg: Config, m: Message)
    requires m.text == Some("/start")
    ensures IsCommand(cfg, m, StartCommand) && !IsMenuText(m)
  {
    assert "/start" == ['/'] + "start";
    CommandNameOf(cfg, m, "start");
  }

  /** `/start` greets and shows the keyboard in every state but a form; it neither writes nor resets the state. */
  lemma StartKeepsState(cfg: Config, db: Db, st: FsmState, m: Message, o: Oracles)
    requires Seeded(db) && IsCommand(cfg, m, StartCommand) && !st.InForm? && (st.Idle? ==> !IsMenuText(m))
    ensures Step(cfg, db, st, Msg(m), o) == Effect(db, st, StartReply(db), false)
  {
    assert Route(cfg, st, m) == CmdStart;
    StartRouted(cfg, db, st, m, o);
  }

  /** Inside a form, even `/start` is recorded as an answer and the greeting is not sent. */
  lemma FormCapturesStart(cfg: Config, db: Db, st: FsmState, m: Message, o: Oracles)
    requires Seeded(db) && st.InForm? && m.text == Some("/start") && |st.answers| + 1 < |st.questions|
    ensures Step(cfg, db, st, Msg(m), o).state.answers == st.answers + [Some("/start")]
    ensures Step(cfg, db, st, Msg(m), o).out != StartReply(db)
  {
    RouteForm(cfg, db, st, m, o);
    FormAsksNext(db, st, m, o);
  }

  /** `/panel` opens the panel for an administrator and refuses everybody else; nothing is written. */
  lemma PanelGate(cfg: Config, db: Db, st: FsmState, m: Message, o: Oracles)
    requires Seeded(db) && IsCommand(cfg, m, PanelCommand) && !st.InForm? && (st.Idle? ==> !IsMenuText(m))
    ensures Step(cfg, db, st, Msg(m), o)
         == Effect(db, st, [if IsAdmin(cfg, m.user) then ControlPanel else Say(AdminOnly)], false)
  {
    assert Route(cfg, st, m) == CmdPanel;
    PanelRouted(cfg, db, st, m, o);
  }

  /**
   * `/setgroup`: ignored without a reply for a non-administrator; in a group or
   * supergroup it makes that chat the target of every later notification; in
   * any other chat it only explains itself.
   */
  lemma SetGroupOutcomes(cfg: Config, db: Db, st: FsmState, m: Message, o: Oracles)
    requires Seeded(db)
    ensures var e := SetGroup(cfg, db, st, m, o);
      && e.state == st
      && (!IsAdmin(cfg, m.user) ==> e == Effect(db, st, [], false))
      && (IsAdmin(cfg, m.user) && (m.chatType == Group || m.chatType == Supergroup) && o.commitOk ==>
            && e.db == SetRequestsChat(db, m.chat) && e.out == [Say(GroupBound)]
            && NotifyTarget(e.db.adminSettings[0]) == (if m.chat != 0 then Some(m.chat) else None))
      && (IsAdmin(cfg, m.user) && !(m.chatType == Group || m.chatType == Supergroup) ==>
            e == Effect(db, st, [Say(SendInGroup)], false))
  {
  }

  // ---------------------------------------------------------------- the greeting editor

  /**
   * The panel's callbacks check nobody: any sender who presses "edit the
   * greeting" and then sends a message that is no registered command rewrites
   * the greeting.
   */
  lemma AnyoneCanEditGreeting(cfg: Config, db: Db, fsm: map<Key, FsmState>, chat: int, user: int, m: Message,
                              o1: Oracles, o2: Oracles)
    requires Seeded(db) && CommandOf(cfg, m).None? && o2.commitOk && Key(m.chat, m.user) == Key(chat, user)
    ensures var r := Run(cfg, db, fsm, [Tap(chat, user, CbGreetingEdit), Msg(m)], [o1, o2]);
      r.db == SetGreetingText(db, m.text) && StateOf(r.fsm, Key(chat, user)) == Idle
      && r.out == [Say(AskGreetingText), Say(GreetingSaved), PanelReply(cfg, m.user)]
  {
    var k := Key(chat, user);
    var e1 := Step(cfg, db, StateOf(fsm, k), Tap(chat, user, CbGreetingEdit), o1);
    assert e1 == Effect(db, GreetingText, [Say(AskGreetingText)], false);
    var fsm1 := Updated(fsm, k, GreetingText);
    RouteState(cfg, db, GreetingText, m, o2);
    var e2 := Step(cfg, db, GreetingText, Msg(m), o2);
    assert e2 == Effect(SetGreetingText(db, m.text), Idle, [Say(GreetingSaved), PanelReply(cfg, m.user)], false);
    var fsm2 := Updated(fsm1, k, Idle);
    var evs: seq<Event> := [Tap(chat, user, CbGreetingEdit), Msg(m)];
    var os := [o1, o2];
    assert evs[1..] == [Msg(m)] && os[1..] == [o2];
    assert evs[1..][1..] == [] && os[1..][1..] == [];
    assert Run(cfg, e2.db, fsm2, [], []) == Outcome(e2.db, fsm2, []);
    assert Run(cfg, db, fsm1, [Msg(m)], [o2]) == Outcome(e2.db, fsm2, e2.out);
    assert Run(cfg, db, fsm, evs, os) == Outcome(e2.db, fsm2, e1.out + e2.out);
  }

  /** Waiting for the photo, a message without one is not handled: nothing is written and the wait goes on. */
  lemma GreetingPhotoNeedsPhoto(cfg: Config, db: Db, m: Message, o: Oracles)
    requires Seeded(db) && CommandOf(cfg, m).None? && |m.photo| == 0
    ensures Step(cfg, db, GreetingPhoto, Msg(m), o) == Effect(db, GreetingPhoto, [], false)
  {
    RouteState(cfg, db, GreetingPhoto, m, o);
  }

  /** A photo sent while waiting for it: the file id of its largest size becomes the greeting photo. */
  lemma GreetingPhotoSaved(cfg: Config, db: Db, st: FsmState, m: Message, o: Oracles)
    requires Seeded(db) && |m.photo| > 0 && o.commitOk
    ensures var e := GreetingPhotoSave(cfg, db, st, m, o);
      && e.db.botSettings[0].greetingPhoto == Some(m.photo[|m.photo| - 1])
      && e.db.botSettings[0].greetingText == db.botSettings[0].greetingText
      && e.db.buttons == db.buttons && e.db.responses == db.responses && e.db.adminSettings == db.adminSettings
      && e.state == Idle && !e.raised && e.out == [Say(PhotoSaved), PanelReply(cfg, m.user)]
  {
  }

  /** Deleting the photo clears it and shows the greeting screen, which raises when no greeting text is stored. */
  lemma GreetingPhotoDeleted(db: Db, st: FsmState, o: Oracles)
    requires Seeded(db) && o.commitOk
    ensures var e := TapStep(db, st, CbGreetingPhotoDel, o);
      && e.db == SetGreetingPhoto(db, None)
      && e.state == st
      && e.out[0] == Alert(PhotoDeleted)
      && (e.raised <==> db.botSettings[0].greetingText.None?)
      && (!e.raised ==> e.out == [Alert(PhotoDeleted), GreetingScreen(db.botSettings[0].greetingText.value, false)])
  {
  }

  // ---------------------------------------------------------------- the button editor

  /**
   * A new button's label, committed: one button is appended after the existing
   * ones, unchanged, with the stripped label, a fresh key, an order one past the
   * largest (1 for the first button), active, answering with an empty text.
   */
  lemma {:induction false} ButtonAddAppends(db: Db, st: FsmState, m: Message, o: Oracles)
    requires m.text.Some? && o.commitOk
    ensures var e := ButtonAdd(db, st, m, o);
      && |e.db.buttons| == |db.buttons| + 1
      && e.db.buttons[..|db.buttons|] == db.buttons
      && e.db.botSettings == db.botSettings && e.db.adminSettings == db.adminSettings
      && e.db.responses == db.responses
      && var b := e.db.buttons[|db.buttons|];
         && b.text == Strip(m.text.value) && b.isActive && b.responseType == Text && b.responseContent == Some("")
         && (forall i :: 0 <= i < |db.buttons| ==> db.buttons[i].id < b.id && db.buttons[i].order < b.order)
         && (|db.buttons| == 0 ==> b.order == 1)
         && (|db.buttons| > 0 ==> exists i :: 0 <= i < |db.buttons| && db.buttons[i].order == b.order - 1)
         && e.state == Idle && e.out == [ButtonCreated(b.text, b.id)]
  {
    var b := NewButton(db.buttons, Strip(m.text.value));
    var ids := ButtonIds(db.buttons);
    assert forall i :: 0 <= i < |db.buttons| ==> ids[i] == db.buttons[i].id;
    assert (db.buttons + [b])[..|db.buttons|] == db.buttons;
  }

  /** Every button of `bs` has an order below `k`. */
  predicate OrdersBelow(bs: seq<Button>, k: int) {
    forall i :: 0 <= i < |bs| ==> bs[i].order < k
  }

  /** Inserting below the last button's order does not move that button. */
  lemma {:induction false} InsertBeforeLast(x: Button, t: seq<Button>, b: Button)
    requires x.order < b.order
    ensures Insert(x, t + [b]) == Insert(x, t) + [b]
  {
    if |t| > 0 && x.order > t[0].order {
      assert (t + [b])[1..] == t[1..] + [b];
      InsertBeforeLast(x, t[1..], b);
    }
  }

  /** Sorting by order keeps a last button whose order is the strictly largest at the end. */
  lemma {:induction false} SortAppendLargest(s: seq<Button>, b: Button)
    requires OrdersBelow(s, b.order)
    ensures SortByOrder(s + [b]) == SortByOrder(s) + [b]
  {
    if |s| == 0 {
      assert s + [b] == [b];
    } else {
      assert (s + [b])[1..] == s[1..] + [b];
      SortAppendLargest(s[1..], b);
      InsertBeforeLast(s[0], SortByOrder(s[1..]), b);
    }
  }

  /** The filter keeps table order: the active buttons of two tables joined are those of each, joined. */
  lemma {:induction false} ActiveConcat(s: seq<Button>, t: seq<Button>)
    ensures Active(s + t) == Active(s) + Active(t)
  {
    if |s| > 0 {
      assert (s + t)[0] == s[0];
      assert (s + t)[1..] == s[1..] + t;
      ActiveConcat(s[1..], t);
    } else {
      assert s + t == t;
    }
  }

  lemma {:induction false} ActiveAppend(s: seq<Button>, b: Button)
    requires b.isActive
    ensures Active(s + [b]) == Active(s) + [b]
  {
    if |s| == 0 {
      assert s + [b] == [b];
    } else {
      assert (s + [b])[1..] == s[1..] + [b];
      ActiveAppend(s[1..], b);
    }
  }

  lemma {:induction false} ActiveBelow(s: seq<Button>, k: int)
    requires OrdersBelow(s, k)
    ensures OrdersBelow(Active(s), k)
  {
    if |s| > 0 {
      ActiveBelow(s[1..], k);
    }
  }

  /**
   * An active button whose order is larger than every other is shown after all
   * of them, which keep their own order.
   */
  lemma {:induction false} LargestOrderComesLast(bs: seq<Button>, b: Button)
    requires b.isActive && OrdersBelow(bs, b.order)
    ensures ActiveByOrder(bs + [b]) == ActiveByOrder(bs) + [b]
  {
    ActiveAppend(bs, b);
    ActiveBelow(bs, b.order);
    SortAppendLargest(Active(bs), b);
  }

  /** Appending an active button with the largest order puts its label after every label shown before. */
  lemma KeyboardAfterAppend(db: Db, b: Button)
    requires b.isActive && OrdersBelow(db.buttons, b.order)
    ensures var kb := MainKeyboardOf(db.(buttons := db.buttons + [b]));
      kb.Some? && Flatten(kb.value) == Labels(ActiveByOrder(db.buttons)) + [b.text]
  {
    LargestOrderComesLast(db.buttons, b);
    var shown := ActiveByOrder(db.buttons);
    assert Labels(shown + [b]) == Labels(shown) + [b.text];
  }

  /** A button just added is the last key of the main keyboard, after the keys it had. */
  lemma NewButtonShownLast(db: Db, st: FsmState, m: Message, o: Oracles)
    requires m.text.Some? && o.commitOk
    ensures var kb := MainKeyboardOf(ButtonAdd(db, st, m, o).db);
      && kb.Some?
      && Flatten(kb.value) == Labels(ActiveByOrder(db.buttons)) + [Strip(m.text.value)]
  {
    KeyboardAfterAppend(db, NewButton(db.buttons, Strip(m.text.value)));
  }

  /** Choosing a response kind writes only that kind and then waits for the questions (a form) or the content. */
  lemma SetTypeOutcomes(db: Db, st: FsmState, id: int, kind: ResponseType, o: Oracles)
    ensures var e := ButtonSetType(db, st, id, kind, o);
      match FindButton(db.buttons, id)
      case None => e == Effect(db, st, [Alert(ButtonMissing)], false)
      case Some(i) =>
        o.commitOk ==>
          && e.db == SetButton(db, i, db.buttons[i].(responseType := kind))
          && e.state == (if kind == Form then ButtonQuestions(id) else ButtonResponseContent(id))
          && e.out == [Say(KindPrompt(kind))]
  {
  }

  /** The content a button answers with: an attached document for a file button, otherwise the message text. */
  lemma SaveContentOutcomes(cfg: Config, db: Db, id: int, m: Message, o: Oracles)
    requires o.commitOk
    ensures var e := ButtonSaveContent(cfg, db, ButtonResponseContent(id), m, o);
      && e.state == Idle && !e.raised
      && match FindButton(db.buttons, id)
         case None => e.db == db && e.out == [PanelReply(cfg, m.user)]
         case Some(i) =>
           var b := db.buttons[i];
           && e.db == SetButton(db, i, b.(responseContent := if b.responseType == File && m.document.Some?
                                                            then m.document else m.text))
           && e.out == [Say(ContentSaved), PanelReply(cfg, m.user)]
  {
  }

  /**
   * Questions for a form button: anything that is not a JSON list is refused
   * and the editor keeps waiting; any list is stored as it is, an empty one
   * included.
   */
  lemma SaveQuestionsOutcomes(cfg: Config, db: Db, id: int, m: Message, o: Oracles)
    requires o.commitOk
    ensures var e := ButtonSaveQuestions(cfg, db, ButtonQuestions(id), m, o);
      && (ParsedList(m, o).None? ==> e == Effect(db, ButtonQuestions(id), [Say(BadQuestions)], false))
      && (ParsedList(m, o).Some? ==>
            && e.state == Idle && !e.raised
            && match FindButton(db.buttons, id)
               case None => e.db == db
               case Some(i) => e.db == SetButton(db, i, db.buttons[i].(formQuestions := ParsedList(m, o))))
  {
  }

  // ---------------------------------------------------------------- seeding

  /** Seeding twice is seeding once: the second pass finds every table filled. */
  lemma SeedIdempotent(db: Db, chat: Option<int>, chat2: Option<int>)
    ensures Seed(Seed(db, chat), chat2) == Seed(db, chat)
  {
  }

  /** A store that is already seeded is left exactly as it is. */
  lemma SeedKeepsFilledTables(db: Db, chat: Option<int>)
    requires Seeded(db) && |db.buttons| > 0
    ensures Seed(db, chat) == db
  {
  }

  /** The seeded buttons: keys and orders 1 to 4, all active, distinct keys, labels within the column width. */
  lemma SeedButtonsShape()
    ensures |SeedButtons()| == 4
    ensures forall i :: 0 <= i < 4 ==> SeedButtons()[i].id == i + 1 && SeedButtons()[i].order == i + 1
    ensures forall i :: 0 <= i < 4 ==> SeedButtons()[i].isActive && LabelFits(SeedButtons()[i])
    ensures UniqueButtonKeys(SeedButtons())
  {
  }

  /** Buttons that are all active are their own active subsequence. */
  lemma {:induction false} ActiveAll(bs: seq<Button>)
    requires forall i :: 0 <= i < |bs| ==> bs[i].isActive
    ensures Active(bs) == bs
  {
    if |bs| > 0 {
      ActiveAll(bs[1..]);
      assert bs == [bs[0]] + bs[1..];
    }
  }

  /** Sorting buttons already in order leaves them as they are. */
  lemma {:induction false} SortSorted(bs: seq<Button>)
    requires SortedByOrder(bs)
    ensures SortByOrder(bs) == bs
  {
    if |bs| > 0 {
      SortSorted(bs[1..]);
      assert bs == [bs[0]] + bs[1..];
    }
  }

  /** Buttons all active and already in order are shown as they are. */
  lemma ShownAsTheyAre(bs: seq<Button>)
    requires SortedByOrder(bs) && forall i :: 0 <= i < |bs| ==> bs[i].isActive
    ensures ActiveByOrder(bs) == bs
  {
    ActiveAll(bs);
    SortSorted(bs);
  }

  /** The seeded buttons are shown as they are. */
  lemma SeedButtonsShown()
    ensures ActiveByOrder(SeedButtons()) == SeedButtons()
  {
    SeedButtonsShape();
    ShownAsTheyAre(SeedButtons());
  }

  lemma ChunkFour(a: string, b: string, c: string, d: string)
    ensures Chunk([a, b, c, d]) == [[a, b], [c, d]]
  {
    var ls := [a, b, c, d];
    assert ls[..2] == [a, b] && ls[2..] == [c, d];
  }

  lemma SeedLabels()
    ensures Labels(SeedButtons()) == ["Узнать цены", OrderLabel, "Контакты", "FAQ"]
  {
  }

  lemma SeedKeyboard(chat: Option<int>)
    ensures MainKeyboardOf(Seed(EmptyDb, chat)) == Some(Chunk(Labels(SeedButtons())))
  {
    SeedButtonsShown();
  }

  /** The keyboard a freshly seeded store shows: two rows of two. */
  lemma DefaultKeyboard(chat: Option<int>)
    ensures MainKeyboardOf(Seed(EmptyDb, chat)) == Some([["Узнать цены", OrderLabel], ["Контакты", "FAQ"]])
  {
    SeedKeyboard(chat);
    SeedLabels();
    ChunkFour("Узнать цены", OrderLabel, "Контакты", "FAQ");
  }
}
