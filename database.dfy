/**
 * The store (database.py): the four tables as sequences of rows in insertion
 * order, the session's commit / rollback / close discipline (`get_db`) and the
 * insert-if-absent seeding (`init_db`).
 */
module Database {
  import opened Models

  datatype Db = Db(
    botSettings: seq<BotSettings>,
    adminSettings: seq<AdminSettings>,
    buttons: seq<Button>,
    responses: seq<FormResponse>)

  const EmptyDb := Db([], [], [], [])

  /** Both singleton tables hold a row, so `query(...).first()` finds one. */
  predicate Seeded(db: Db) {
    |db.botSettings| > 0 && |db.adminSettings| > 0
  }

  /** What a handler step may do to the tables: rows are never deleted, keys never change, responses only appended. */
  predicate Grows(d0: Db, d1: Db) {
    && |d1.botSettings| == |d0.botSettings|
    && |d1.adminSettings| == |d0.adminSettings|
    && |d0.buttons| <= |d1.buttons|
    && (forall i :: 0 <= i < |d0.buttons| ==> d1.buttons[i].id == d0.buttons[i].id)
    && d0.responses <= d1.responses
  }

  // ---------------------------------------------------------------- keys and orders

  function Max(xs: seq<int>): (m: int)
    requires |xs| > 0
    ensures forall i :: 0 <= i < |xs| ==> xs[i] <= m
    ensures exists i :: 0 <= i < |xs| && xs[i] == m
  {
    if |xs| == 1 then xs[0]
    else
      var rest := Max(xs[1..]);
      if xs[0] >= rest then xs[0] else rest
  }

  function ButtonIds(bs: seq<Button>): (ids: seq<int>)
    ensures |ids| == |bs| && forall i :: 0 <= i < |bs| ==> ids[i] == bs[i].id
  {
    seq(|bs|, i requires 0 <= i < |bs| => bs[i].id)
  }

  function ButtonOrders(bs: seq<Button>): (os: seq<int>)
    ensures |os| == |bs| && forall i :: 0 <= i < |bs| ==> os[i] == bs[i].order
  {
    seq(|bs|, i requires 0 <= i < |bs| => bs[i].order)
  }

  function ResponseIds(rs: seq<FormResponse>): (ids: seq<int>)
    ensures |ids| == |rs| && forall i :: 0 <= i < |rs| ==> ids[i] == rs[i].id
  {
    seq(|rs|, i requires 0 <= i < |rs| => rs[i].id)
  }

  /** The integer primary key the store gives the next inserted row: one past the largest, 1 for an empty table. */
  function NextKey(ids: seq<int>): (k: int)
    ensures forall i :: 0 <= i < |ids| ==> ids[i] < k
    ensures |ids| == 0 ==> k == 1
    ensures |ids| > 0 ==> exists i :: 0 <= i < |ids| && ids[i] == k - 1
  {
    if |ids| == 0 then 1 else Max(ids) + 1
  }

  /** `order` of a newly added button: one past the largest existing order, 1 when there is no button. */
  function NextOrder(bs: seq<Button>): (o: int)
    ensures forall i :: 0 <= i < |bs| ==> bs[i].order < o
    ensures |bs| == 0 ==> o == 1
    ensures |bs| > 0 ==> exists i :: 0 <= i < |bs| && bs[i].order == o - 1
  {
    NextKey(ButtonOrders(bs))
  }

  // ---------------------------------------------------------------- queries and row updates

  /** `query(Button).filter(Button.id == id).first()`, as an index into the table. */
  function FindButton(bs: seq<Button>, id: int): (r: Option<nat>)
    ensures r.Some? ==> r.value < |bs| && bs[r.value].id == id
    ensures r.Some? ==> forall j :: 0 <= j < r.value ==> bs[j].id != id
    ensures r.None? <==> forall j :: 0 <= j < |bs| ==> bs[j].id != id
  {
    if |bs| == 0 then None
    else if bs[0].id == id then Some(0)
    else
      match FindButton(bs[1..], id)
      case None => None
      case Some(j) => Some(j + 1)
  }

  /** `settings.greeting_text = t` on the first settings row. */
  function SetGreetingText(db: Db, t: Option<string>): (r: Db)
    requires Seeded(db)
    ensures Seeded(r) && r.botSettings[0].greetingText == t
    ensures r.botSettings[0].id == db.botSettings[0].id
    ensures r.botSettings[0].greetingPhoto == db.botSettings[0].greetingPhoto
    ensures |r.botSettings| == |db.botSettings| && r.botSettings[1..] == db.botSettings[1..]
    ensures r.adminSettings == db.adminSettings && r.buttons == db.buttons && r.responses == db.responses
  {
    db.(botSettings := db.botSettings[0 := db.botSettings[0].(greetingText := t)])
  }

  /** `settings.greeting_photo = p` on the first settings row. */
  function SetGreetingPhoto(db: Db, p: Option<string>): (r: Db)
    requires Seeded(db)
    ensures Seeded(r) && r.botSettings[0].greetingPhoto == p
    ensures r.botSettings[0].id == db.botSettings[0].id
    ensures r.botSettings[0].greetingText == db.botSettings[0].greetingText
    ensures |r.botSettings| == |db.botSettings| && r.botSettings[1..] == db.botSettings[1..]
    ensures r.adminSettings == db.adminSettings && r.buttons == db.buttons && r.responses == db.responses
  {
    db.(botSettings := db.botSettings[0 := db.botSettings[0].(greetingPhoto := p)])
  }

  /** `settings.requests_chat_id = chat` on the first admin settings row. */
  function SetRequestsChat(db: Db, chat: int): (r: Db)
    requires Seeded(db)
    ensures Seeded(r) && r.adminSettings[0].requestsChatId == Some(chat)
    ensures r.adminSettings[0].id == db.adminSettings[0].id
    ensures r.adminSettings[0].requestsTemplate == db.adminSettings[0].requestsTemplate
    ensures |r.adminSettings| == |db.adminSettings| && r.adminSettings[1..] == db.adminSettings[1..]
    ensures r.botSettings == db.botSettings && r.buttons == db.buttons && r.responses == db.responses
  {
    db.(adminSettings := db.adminSettings[0 := db.adminSettings[0].(requestsChatId := Some(chat))])
  }

  /** Replaces the button at index `i` by `b`. */
  function SetButton(db: Db, i: nat, b: Button): (r: Db)
    requires i < |db.buttons|
    ensures |r.buttons| == |db.buttons| && r.buttons[i] == b
    ensures forall j :: 0 <= j < |db.buttons| && j != i ==> r.buttons[j] == db.buttons[j]
    ensures r.botSettings == db.botSettings && r.adminSettings == db.adminSettings && r.responses == db.responses
  {
    db.(buttons := db.buttons[i := b])
  }

  /** The row `admin_btn_add_text` inserts for a label. */
  function NewButton(bs: seq<Button>, text: string): Button {
    Button(NextKey(ButtonIds(bs)), text, NextOrder(bs), true, Text, Some(""), None)
  }

  // ---------------------------------------------------------------- seeding

  const DefaultGreeting := "👋 Добро пожаловать! Выберите, что вас интересует:"

  const DefaultTemplate :=
    "📋 НОВАЯ ЗАЯВКА\nИмя: {answers[0]}\nЗадача: {answers[1]}\nКонтакт: {answers[2]}\nВремя: {time}\nПользователь: @{username} (ID: {user_id})"

  const OrderLabel := "Заказать"

  const OrderQuestions: seq<Json> :=
    [JStr("Как вас зовут?"), JStr("Что нужно сделать?"), JStr("Оставьте контакт (телефон или email)")]

  const PricesReply := "Цены от 5000 руб. Подробнее на сайте: https://example.com/prices"
  const ContactsReply := "📞 +7 (999) 123-45-67\n📧 info@example.com\n🌐 https://example.com"
  const FaqReply := "❓ Частые вопросы:\n— Сроки: от 3 дней\n— Предоплата: 50%\n— Гарантия: 30 дней"

  /** The four buttons seeded into an empty button table, keys 1 to 4 in insertion order. */
  function SeedButtons(): seq<Button> {
    [ Button(1, "Узнать цены", 1, true, Text, Some(PricesReply), None),
      Button(2, OrderLabel, 2, true, Form, None, Some(OrderQuestions)),
      Button(3, "Контакты", 3, true, Text, Some(ContactsReply), None),
      Button(4, "FAQ", 4, true, Text, Some(FaqReply), None) ]
  }

  /** What `init_db` leaves in the session: each table is seeded only when it is empty. */
  function Seed(db: Db, requestsChatId: Option<int>): (r: Db)
    ensures Seeded(r)
    ensures r.responses == db.responses
    ensures |db.botSettings| > 0 ==> r.botSettings == db.botSettings
    ensures |db.botSettings| == 0 ==> r.botSettings == [BotSettings(1, Some(DefaultGreeting), None)]
    ensures |db.adminSettings| > 0 ==> r.adminSettings == db.adminSettings
    ensures |db.adminSettings| == 0 ==>
      r.adminSettings == [AdminSettings(1, requestsChatId, Some(DefaultTemplate))]
    ensures |db.buttons| > 0 ==> r.buttons == db.buttons
    ensures |db.buttons| == 0 ==> r.buttons == SeedButtons()
  {
    Db(
      if |db.botSettings| == 0 then [BotSettings(1, Some(DefaultGreeting), None)] else db.botSettings,
      if |db.adminSettings| == 0 then [AdminSettings(1, requestsChatId, Some(DefaultTemplate))] else db.adminSettings,
      if |db.buttons| == 0 then SeedButtons() else db.buttons,
      db.responses)
  }

  // ---------------------------------------------------------------- the session

  /**
   * A unit of work. `committed` is what the database durably holds, `pending`
   * what the session sees: committed rows plus the changes not yet committed.
   */
  class Session {
    var committed: Db
    var pending: Db
    var isOpen: bool

    /** `SessionLocal()`: a fresh unit of work over the stored rows. */
    constructor (db: Db)
      ensures committed == db && pending == db && isOpen
    {
      committed := db;
      pending := db;
      isOpen := true;
    }

    /** Starting the next unit of work on the same (thread-scoped) session. */
    method Begin()
      modifies this
      ensures isOpen && committed == old(committed) && pending == old(committed)
    {
      pending := committed;
      isOpen := true;
    }

    /** `db.add(row)` for each table. */
    method AddBotSettings(row: BotSettings)
      requires isOpen
      modifies this
      ensures isOpen && committed == old(committed)
      ensures pending == old(pending).(botSettings := old(pending).botSettings + [row])
    {
      pending := pending.(botSettings := pending.botSettings + [row]);
    }

    method AddAdminSettings(row: AdminSettings)
      requires isOpen
      modifies this
      ensures isOpen && committed == old(committed)
      ensures pending == old(pending).(adminSettings := old(pending).adminSettings + [row])
    {
      pending := pending.(adminSettings := pending.adminSettings + [row]);
    }

    method AddButton(row: Button)
      requires isOpen
      modifies this
      ensures isOpen && committed == old(committed)
      ensures pending == old(pending).(buttons := old(pending).buttons + [row])
    {
      pending := pending.(buttons := pending.buttons + [row]);
    }

    method AddResponse(row: FormResponse)
      requires isOpen
      modifies this
      ensures isOpen && committed == old(committed)
      ensures pending == old(pending).(responses := old(pending).responses + [row])
    {
      pending := pending.(responses := pending.responses + [row]);
    }

    /** `db.commit()`; `ok == false` is a commit that raises, which writes nothing. */
    method Commit(ok: bool) returns (raised: bool)
      requires isOpen
      modifies this
      ensures isOpen && raised == !ok && pending == old(pending)
      ensures committed == (if ok then old(pending) else old(committed))
    {
      if ok {
        committed := pending;
      }
      raised := !ok;
    }

    /** `db.rollback()`: the uncommitted changes are dropped. */
    method Rollback()
      requires isOpen
      modifies this
      ensures isOpen && committed == old(committed) && pending == old(committed)
    {
      pending := committed;
    }

    /** `db.close()`: releases the connection; whatever was not committed is gone. */
    method Close()
      modifies this
      ensures !isOpen && committed == old(committed) && pending == old(committed)
    {
      pending := committed;
      isOpen := false;
    }

    /**
     * What `get_db` does once the body of the `with` block has finished:
     * commit on a normal exit, roll back and re-raise on an exception (also
     * one raised by that commit), and close on every path.
     */
    method Exit(bodyRaised: bool, commitOk: bool) returns (raised: bool)
      requires isOpen
      modifies this
      ensures !isOpen
      ensures raised == (bodyRaised || !commitOk)
      ensures committed == (if raised then old(committed) else old(pending))
      ensures pending == committed
    {
      if !bodyRaised {
        var failed := Commit(commitOk);
        if failed {
          Rollback();
        }
        raised := failed;
      } else {
        Rollback();
        raised := true;
      }
      Close();
    }
  }

  /** The four `db.add(Button(...))` calls of `init_db`, in order. */
  method AddSeedButtons(s: Session)
    requires s.isOpen
    modifies s
    ensures s.isOpen && s.committed == old(s.committed)
    ensures s.pending == old(s.pending).(buttons := old(s.pending).buttons + SeedButtons())
  {
    var seeds := SeedButtons();
    s.AddButton(seeds[0]);
    s.AddButton(seeds[1]);
    s.AddButton(seeds[2]);
    s.AddButton(seeds[3]);
    assert s.pending.buttons == old(s.pending).buttons + [seeds[0], seeds[1], seeds[2], seeds[3]];
    assert [seeds[0], seeds[1], seeds[2], seeds[3]] == seeds;
  }

  /**
   * `init_db`: inside one unit of work, inserts the greeting row, the admin
   * settings row (with the configured chat) and the default buttons, each only
   * when its table is empty, then commits. `commitOk` is the outcome of that
   * commit, `exitCommitOk` that of the closing commit in `get_db`.
   */
  method InitDb(db: Db, requestsChatId: Option<int>, commitOk: bool, exitCommitOk: bool)
    returns (stored: Db, raised: bool)
    ensures stored == (if commitOk then Seed(db, requestsChatId) else db)
    ensures raised == (!commitOk || !exitCommitOk)
  {
    var s := new Session(db);
    if |s.pending.botSettings| == 0 {
      s.AddBotSettings(BotSettings(NextKey([]), Some(DefaultGreeting), None));
    }
    if |s.pending.adminSettings| == 0 {
      s.AddAdminSettings(AdminSettings(NextKey([]), requestsChatId, Some(DefaultTemplate)));
    }
    if |s.pending.buttons| == 0 {
      AddSeedButtons(s);
    }
    assert s.pending == Seed(db, requestsChatId);
    var failed := s.Commit(commitOk);
    raised := s.Exit(failed, exitCommitOk);
    stored := s.committed;
  }
}
