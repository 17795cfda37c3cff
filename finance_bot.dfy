/** finance_bot.py, the newer version of the bot: a `Database` over the
    `transactions` table and a three-step conversation (menu button,
    category, amount) driven by aiogram 3's per-user state machine.

    aiogram 3 tries the handlers in the order they are registered, and a
    handler registered without a state filter fires in every state; so the
    two menu buttons restart the conversation from anywhere, while the
    balance and statistics buttons only answer when no entry is under way. */
module FinanceBot {

  import opened Wrappers
  import opened Text
  import opened Ledger

  const StartCommand: string := "/start"
  const IncomeButton: string := "📈 Добавить доход"
  const ExpenseButton: string := "📉 Добавить расход"
  const BalanceButton: string := "💰 Баланс"
  const StatsButton: string := "📊 Статистика"

  /** The categories offered for an income and for an expense. */
  const IncomeCategories: seq<string> := ["Зарплата", "Подарок", "Прочее"]
  const ExpenseCategories: seq<string> := ["Еда", "Транспорт", "Прочее"]

  // ---------------------------------------------------------------------
  // The database
  // ---------------------------------------------------------------------

  /** `Database`: the `transactions` table as the sequence of its rows, and
      the next AUTOINCREMENT id. The connection and cursor are not modelled. */
  class Database {
    var rows: seq<Tx>
    var nextId: nat

    /** Ids grow with insertion order and stay below the next one. */
    ghost predicate Valid()
      reads this
    {
      && (forall i, j :: 0 <= i < j < |rows| ==> rows[i].id < rows[j].id)
      && (forall t :: t in rows ==> t.id < nextId)
    }

    constructor ()
      ensures Valid() && rows == [] && nextId == 1
    {
      rows := [];
      nextId := 1;
    }

    /** `add_transaction`: one INSERT of the row dated `today`, reported
        as True. When the insert raises (`storeFails`) the error is logged,
        nothing is written and False is returned. */
    method AddTransaction(userId: int, kind: Kind, amount: int, category: string,
                          today: Date, storeFails: bool) returns (ok: bool)
      requires Valid()
      modifies this
      ensures Valid()
      ensures ok == !storeFails
      ensures ok ==> rows == old(rows) + [Tx(old(nextId), userId, kind, amount, category, today)]
                     && nextId == old(nextId) + 1
      ensures !ok ==> rows == old(rows) && nextId == old(nextId)
    {
      if storeFails {
        return false;
      }
      rows := rows + [Tx(nextId, userId, kind, amount, category, today)];
      nextId := nextId + 1;
      return true;
    }

    /** `get_balance`: the SUM of the user's income amounts and of their
        expense amounts. The guard tests the fetched row, which an aggregate
        query always returns, rather than its value, so a type without rows
        comes back as NULL (`None`) instead of 0. */
    function GetBalance(u: int): (r: (Option<int>, Option<int>))
      reads this
      ensures r.0.None? <==> forall t :: t in rows && t.userId == u ==> t.kind != Income
      ensures r.1.None? <==> forall t :: t in rows && t.userId == u ==> t.kind != Expense
      ensures r.0.Some? ==> r.0.value == Sum(Select(rows, BalanceQuery(u, Income)))
      ensures r.1.Some? ==> r.1.value == Sum(Select(rows, BalanceQuery(u, Expense)))
    {
      var income := SqlSum(Select(rows, BalanceQuery(u, Income)));
      var expense := SqlSum(Select(rows, BalanceQuery(u, Expense)));
      SqlSumIsNull(rows, BalanceQuery(u, Income));
      SqlSumIsNull(rows, BalanceQuery(u, Expense));
      (income, expense)
    }

    /** `get_monthly_stats`: the user's expenses of the month of `today`,
        one summed line per category, the largest total first. */
    function GetMonthlyStats(u: int, today: Date): (report: seq<CategoryTotal>)
      reads this
      ensures IsCategoryReport(Select(rows, MonthQuery(u, today)), report)
    {
      MonthlyStats(rows, u, today)
    }
  }

  // ---------------------------------------------------------------------
  // The conversation, one user at a time
  // ---------------------------------------------------------------------

  /** The states of `TransactionStates` the handlers enter, `Idle` being no
      state at all. (`transaction_type` and `category` are declared but
      never entered.) */
  datatype Step = Idle | WaitingForTransaction | Amount

  /** The FSM data of one user: the keys `transaction_type` and `category`. */
  datatype Draft = Draft(kind: Option<Kind>, category: Option<string>)

  datatype Session = Session(step: Step, draft: Draft)

  /** What `state.clear()` leaves, and what a user who never wrote has. */
  const Cleared: Session := Session(Idle, Draft(None, None))

  /** The list `select_category` checks against: the income list when the
      draft's type is income, the expense list otherwise. */
  function CategoriesFor(kind: Option<Kind>): (r: seq<string>)
    ensures r != []
    ensures forall c :: c in r ==> Trimmed(c) && c != StartCommand && c != IncomeButton && c != ExpenseButton
  {
    if kind == Some(Income) then IncomeCategories else ExpenseCategories
  }

  /** The sessions the handlers can produce: no data while idle, a type
      once a menu button was pressed, and while an amount is awaited an
      accepted category of that type. */
  predicate WellFormed(s: Session) {
    && (s.step == Idle ==> s.draft == Draft(None, None))
    && (s.step != Idle ==> s.draft.kind.Some?)
    && (s.step == Amount ==>
          s.draft.category.Some? && s.draft.category.value in CategoriesFor(s.draft.kind))
  }

  /** What a finished conversation may commit: a positive amount and a
      category offered for its type. */
  predicate ValidEntry(e: Entry) {
    e.amount > 0 && e.category in CategoriesFor(Some(e.kind))
  }

  /** The five menu texts are pairwise different: they differ in their
      first character. */
  lemma MenuTextsDistinct()
    ensures StartCommand != IncomeButton && StartCommand != ExpenseButton
    ensures StartCommand != BalanceButton && StartCommand != StatsButton
    ensures IncomeButton != ExpenseButton && IncomeButton != BalanceButton
    ensures IncomeButton != StatsButton && ExpenseButton != BalanceButton
    ensures ExpenseButton != StatsButton && BalanceButton != StatsButton
  {
    assert StartCommand[0] == '/' && IncomeButton[0] == '📈' && ExpenseButton[0] == '📉';
    assert BalanceButton[0] == '💰' && StatsButton[0] == '📊';
  }

  /** The handler aiogram 3 picks for a text: the first registered one
      whose filters pass. */
  datatype Handler =
    | StartHandler | AddIncome | AddExpense | SelectCategory | ProcessAmount
    | BalanceHandler | StatisticsHandler | UnknownHandler

  function Route(step: Step, text: string): (r: Handler)
    ensures r.StartHandler? <==> text == StartCommand
    ensures r.AddIncome? <==> text == IncomeButton
    ensures r.AddExpense? <==> text == ExpenseButton
    ensures r.SelectCategory? <==> && step == WaitingForTransaction && text != StartCommand
                                   && text != IncomeButton && text != ExpenseButton
    ensures r.ProcessAmount? <==> && step == Amount && text != StartCommand
                                  && text != IncomeButton && text != ExpenseButton
    ensures r.BalanceHandler? <==> step == Idle && text == BalanceButton
    ensures r.StatisticsHandler? <==> step == Idle && text == StatsButton
  {
    MenuTextsDistinct();
    if text == StartCommand then StartHandler
    else if text == IncomeButton then AddIncome
    else if text == ExpenseButton then AddExpense
    else if step == WaitingForTransaction then SelectCategory
    else if step == Amount then ProcessAmount
    else
      assert step == Idle;
      if text == BalanceButton then BalanceHandler
      else if text == StatsButton then StatisticsHandler
      else UnknownHandler
  }

  /** `add_income` / `add_expense`: enter `waiting_for_transaction` and
      record the type. `update_data` merges, so a category chosen earlier
      stays in the draft until the next one replaces it. */
  function Begin(s: Session, kind: Kind): (r: Session)
    ensures WellFormed(r)
    ensures r.step == WaitingForTransaction && r.draft.kind == Some(kind)
    ensures r.draft.category == s.draft.category
  {
    Session(WaitingForTransaction, s.draft.(kind := Some(kind)))
  }

  /** `select_category`: a stripped text from the type's list is recorded
      and moves on to `amount`; any other text leaves the session as it is. */
  function ChooseCategory(s: Session, text: string): (r: Session)
    ensures WellFormed(s) && s.step != Idle ==> WellFormed(r)
    ensures r.draft.kind == s.draft.kind
    ensures Strip(text) in CategoriesFor(s.draft.kind) ==>
              r.step == Amount && r.draft.category == Some(Strip(text))
    ensures Strip(text) !in CategoriesFor(s.draft.kind) ==> r == s
  {
    var selected := Strip(text);
    if selected in CategoriesFor(s.draft.kind) then
      Session(Amount, s.draft.(category := Some(selected)))
    else s
  }

  /** `process_amount`: what the stripped text commits, if it parses to a
      positive amount. `parse` stands for Python's `float`, `None` for the
      ValueError it raises. */
  function AmountEntry(s: Session, text: string, parse: string -> Option<int>): (r: Option<Entry>)
    requires WellFormed(s) && s.step == Amount
    ensures r.Some? <==> parse(Strip(text)).Some? && parse(Strip(text)).value > 0
    ensures r.Some? ==> && ValidEntry(r.value) && r.value.amount == parse(Strip(text)).value
                        && r.value.kind == s.draft.kind.value
                        && r.value.category == s.draft.category.value
  {
    var amount := parse(Strip(text));
    if amount.None? || amount.value <= 0 then None
    else Some(Entry(s.draft.kind.value, amount.value, s.draft.category.value))
  }

  /** One message of a user's conversation: the session afterwards and the
      entry handed to `add_transaction`, if any. Every step keeps the
      session well formed; only a message in the `amount` step commits, it
      commits a valid entry built from the draft, and the session is then
      cleared. */
  function Transition(s: Session, text: string, parse: string -> Option<int>)
    : (r: (Session, Option<Entry>))
    requires WellFormed(s)
    ensures WellFormed(r.0)
    ensures r.1.Some? ==> && s.step == Amount && ValidEntry(r.1.value) && r.0 == Cleared
                          && r.1.value.kind == s.draft.kind.value
                          && r.1.value.category == s.draft.category.value
  {
    match Route(s.step, text)
    case AddIncome => (Begin(s, Income), None)
    case AddExpense => (Begin(s, Expense), None)
    case SelectCategory => (ChooseCategory(s, text), None)
    case ProcessAmount =>
      var entry := AmountEntry(s, text, parse);
      if entry.Some? then (Cleared, entry) else (s, None)
    case _ => (s, None)
  }

  /** A sequence of messages from one user: the final session and the
      entries committed, in order. Every entry is valid. */
  function Run(s: Session, texts: seq<string>, parse: string -> Option<int>)
    : (r: (Session, seq<Entry>))
    requires WellFormed(s)
    ensures WellFormed(r.0)
    ensures |r.1| <= |texts|
    ensures forall e :: e in r.1 ==> ValidEntry(e)
    decreases |texts|
  {
    if texts == [] then (s, [])
    else
      var first := Transition(s, texts[0], parse);
      var rest := Run(first.0, texts[1..], parse);
      (rest.0, (if first.1.Some? then [first.1.value] else []) + rest.1)
  }

  /** A conversation split in two is the first part, then the second one
      from the session the first part left: the entries of the whole are
      those of the first part followed by those of the second. */
  lemma {:induction false} RunAppend(s: Session, a: seq<string>, b: seq<string>,
                                     parse: string -> Option<int>)
    requires WellFormed(s)
    ensures var first := Run(s, a, parse);
            var second := Run(first.0, b, parse);
            Run(s, a + b, parse) == (second.0, first.1 + second.1)
    decreases |a|
  {
    if a == [] {
      assert a + b == b;
      assert Run(s, a, parse) == (s, []);
      assert [] + Run(s, b, parse).1 == Run(s, b, parse).1;
    } else {
      var step := Transition(s, a[0], parse);
      assert (a + b)[0] == a[0] && (a + b)[1..] == a[1..] + b;
      RunAppend(step.0, a[1..], b, parse);
      var first := Run(step.0, a[1..], parse);
      var second := Run(first.0, b, parse);
      var head := if step.1.Some? then [step.1.value] else [];
      assert head + (first.1 + second.1) == (head + first.1) + second.1;
    }
  }

  /** Pressing a button of the category keyboard sends that category's own
      text, which the category step accepts as it is. */
  lemma KeyboardCategoryAccepted(s: Session, c: string, parse: string -> Option<int>)
    requires WellFormed(s) && s.step == WaitingForTransaction
    requires c in CategoriesFor(s.draft.kind)
    ensures Transition(s, c, parse) == (Session(Amount, s.draft.(category := Some(c))), None)
  {
    StripTrimmed(c);
  }

  /** The menu button that starts an entry of a type. */
  function ButtonFor(kind: Kind): string {
    if kind == Income then IncomeButton else ExpenseButton
  }

  /** Either menu button starts the flow afresh from any state, with the
      button's type in the draft, and commits nothing. The draft's old
      category, if any, is kept until a new one is chosen. */
  lemma ButtonRestarts(s: Session, kind: Kind, parse: string -> Option<int>)
    requires WellFormed(s)
    ensures Transition(s, ButtonFor(kind), parse) == (Begin(s, kind), None)
    ensures Begin(s, kind).step == WaitingForTransaction
    ensures Begin(s, kind).draft == Draft(Some(kind), s.draft.category)
  {
  }

  /** In `waiting_for_transaction`, a text other than a menu button is
      accepted exactly when, stripped, it is in the draft type's list;
      acceptance records it and moves to `amount`, refusal changes nothing. */
  lemma CategoryStep(s: Session, text: string, parse: string -> Option<int>)
    requires WellFormed(s) && s.step == WaitingForTransaction
    requires text != StartCommand && text != IncomeButton && text != ExpenseButton
    ensures Transition(s, text, parse).1 == None
    ensures Strip(text) in CategoriesFor(s.draft.kind) ==>
              Transition(s, text, parse).0 == Session(Amount, s.draft.(category := Some(Strip(text))))
    ensures Strip(text) !in CategoriesFor(s.draft.kind) ==> Transition(s, text, parse).0 == s
  {
  }

  /** In `amount`, a text that does not parse or parses to an amount of at
      most 0 changes nothing and commits nothing; a positive amount commits
      exactly one entry with the draft's type and category and clears the
      session. */
  lemma AmountStep(s: Session, text: string, parse: string -> Option<int>)
    requires WellFormed(s) && s.step == Amount
    requires text != StartCommand && text != IncomeButton && text != ExpenseButton
    ensures var amount := parse(Strip(text));
            && (amount.None? || amount.value <= 0 ==> Transition(s, text, parse) == (s, None))
            && (amount.Some? && amount.value > 0 ==>
                  Transition(s, text, parse)
                  == (Cleared, Some(Entry(s.draft.kind.value, amount.value, s.draft.category.value))))
  {
  }

  /** A whole entry: from any state, a menu button, a text that strips to
      one of the type's categories and a text that parses to a positive
      amount commit exactly one entry of that type, category and amount,
      and leave the user idle. */
  lemma {:induction false} EntryConversation(s: Session, kind: Kind, categoryText: string,
                                             amountText: string, amount: int,
                                             parse: string -> Option<int>)
    requires WellFormed(s)
    requires Strip(categoryText) in CategoriesFor(Some(kind))
    requires categoryText != StartCommand && categoryText != IncomeButton && categoryText != ExpenseButton
    requires amountText != StartCommand && amountText != IncomeButton && amountText != ExpenseButton
    requires parse(Strip(amountText)) == Some(amount) && amount > 0
    ensures Run(s, [ButtonFor(kind), categoryText, amountText], parse)
         == (Cleared, [Entry(kind, amount, Strip(categoryText))])
  {
    var s1 := Begin(s, kind);
    var s2 := Session(Amount, s1.draft.(category := Some(Strip(categoryText))));
    var e := Entry(kind, amount, Strip(categoryText));
    EntrySteps(s, kind, categoryText, amountText, amount, parse);
    RunStep(s2, amountText, [], parse);
    assert [e] + [] == [e];
    RunStep(s1, categoryText, [amountText], parse);
    assert [] + [e] == [e];
    RunStep(s, ButtonFor(kind), [categoryText, amountText], parse);
    assert [ButtonFor(kind)] + [categoryText, amountText] == [ButtonFor(kind), categoryText, amountText];
  }

  /** The three transitions of `EntryConversation`, one at a time. */
  lemma EntrySteps(s: Session, kind: Kind, categoryText: string,
                   amountText: string, amount: int, parse: string -> Option<int>)
    requires WellFormed(s)
    requires Strip(categoryText) in CategoriesFor(Some(kind))
    requires categoryText != StartCommand && categoryText != IncomeButton && categoryText != ExpenseButton
    requires amountText != StartCommand && amountText != IncomeButton && amountText != ExpenseButton
    requires parse(Strip(amountText)) == Some(amount) && amount > 0
    ensures Transition(s, ButtonFor(kind), parse) == (Begin(s, kind), None)
    ensures Transition(Begin(s, kind), categoryText, parse)
         == (Session(Amount, Begin(s, kind).draft.(category := Some(Strip(categoryText)))), None)
    ensures Transition(Session(Amount, Begin(s, kind).draft.(category := Some(Strip(categoryText)))),
                       amountText, parse)
         == (Cleared, Some(Entry(kind, amount, Strip(categoryText))))
  {
    var s1 := Begin(s, kind);
    var s2 := Session(Amount, s1.draft.(category := Some(Strip(categoryText))));
    ButtonRestarts(s, kind, parse);
    assert Transition(s1, categoryText, parse) == (s2, None) by {
      CategoryStep(s1, categoryText, parse);
    }
    assert Transition(s2, amountText, parse) == (Cleared, Some(Entry(kind, amount, Strip(categoryText)))) by {
      AmountStep(s2, amountText, parse);
    }
  }

  /** What the two state handlers do to the session, once routing has
      chosen them. */
  lemma StateTransition(s: Session, text: string, parse: string -> Option<int>)
    requires WellFormed(s)
    ensures Route(s.step, text).SelectCategory? ==>
              Transition(s, text, parse) == (ChooseCategory(s, text), None)
    ensures Route(s.step, text).ProcessAmount? ==>
              && s.step == Amount
              && Transition(s, text, parse)
                 == (var entry := AmountEntry(s, text, parse);
                     if entry.Some? then (Cleared, entry) else (s, None))
  {
  }

  /** A text no state handler takes commits nothing, and only the two
      entry buttons change the session. */
  lemma CommandTransition(s: Session, text: string, parse: string -> Option<int>)
    requires WellFormed(s)
    requires !Route(s.step, text).SelectCategory? && !Route(s.step, text).ProcessAmount?
    ensures Transition(s, text, parse)
         == (if text == IncomeButton then Begin(s, Income)
             else if text == ExpenseButton then Begin(s, Expense)
             else s, None)
  {
  }

  /** Storing one user's session leaves every other user's alone. */
  lemma UpdateKeepsOthers(sessions: map<int, Session>, u: int, x: Session)
    ensures sessions[u := x] - {u} == sessions - {u}
  {
  }

  /** `Run` on a non-empty list: the first message, then the rest. */
  lemma RunStep(s: Session, text: string, rest: seq<string>, parse: string -> Option<int>)
    requires WellFormed(s)
    ensures var first := Transition(s, text, parse);
            var after := Run(first.0, rest, parse);
            Run(s, [text] + rest, parse)
            == (after.0, (if first.1.Some? then [first.1.value] else []) + after.1)
  {
    assert ([text] + rest)[0] == text && ([text] + rest)[1..] == rest;
  }

  // ---------------------------------------------------------------------
  // The bot: handlers over the database and every user's session
  // ---------------------------------------------------------------------

  /** What a handler answers, without the text and keyboards. */
  datatype Reply =
    | Greeting                                          // start_command
    | CategoryPrompt(kind: Kind, options: seq<string>)  // add_income, add_expense
    | InvalidCategory
    | AmountPrompt
    | NotANumber
    | NotPositive
    | Saved
    | SaveFailed
    | BalanceReport(income: int, expense: int, net: int)
    | NoReply      // get_balance raised on a NULL sum: aiogram logs it, the user gets nothing
    | NoStatistics
    | Statistics(report: seq<CategoryTotal>)
    | NotUnderstood

  /** The dispatcher with its memory storage: the database and the session
      of every user who has written. */
  class Bot {
    const db: Database
    var sessions: map<int, Session>

    /** Every session is well formed and every row the bot wrote carries a
        positive amount and a category offered for its type. */
    ghost predicate Valid()
      reads this, db
    {
      && db.Valid()
      && (forall u :: u in sessions ==> WellFormed(sessions[u]))
      && (forall t :: t in db.rows ==> ValidEntry(Entry(t.kind, t.amount, t.category)))
    }

    /** The session of user `u`; a user without one has no state and no data. */
    function SessionOf(u: int): Session
      reads this
    {
      if u in sessions then sessions[u] else Cleared
    }

    constructor ()
      ensures Valid() && fresh(db) && db.rows == [] && db.nextId == 1 && sessions == map[]
    {
      db := new Database();
      sessions := map[];
    }

    /** `add_income`: set the state and the type, offer the income categories. */
    method AddIncome(u: int) returns (reply: Reply)
      requires Valid()
      modifies this
      ensures Valid()
      ensures sessions == old(sessions)[u := Begin(old(SessionOf(u)), Income)]
      ensures reply == CategoryPrompt(Income, IncomeCategories)
    {
      sessions := sessions[u := Begin(SessionOf(u), Income)];
      reply := CategoryPrompt(Income, CategoriesFor(Some(Income)));
    }

    /** `add_expense`: set the state and the type, offer the expense categories. */
    method AddExpense(u: int) returns (reply: Reply)
      requires Valid()
      modifies this
      ensures Valid()
      ensures sessions == old(sessions)[u := Begin(old(SessionOf(u)), Expense)]
      ensures reply == CategoryPrompt(Expense, ExpenseCategories)
    {
      sessions := sessions[u := Begin(SessionOf(u), Expense)];
      reply := CategoryPrompt(Expense, CategoriesFor(Some(Expense)));
    }

    /** `select_category`, reached in `waiting_for_transaction`. */
    method SelectCategory(u: int, text: string) returns (reply: Reply)
      requires Valid() && SessionOf(u).step == WaitingForTransaction
      modifies this
      ensures Valid()
      ensures sessions == old(sessions)[u := ChooseCategory(old(SessionOf(u)), text)]
      ensures reply == if Strip(text) in CategoriesFor(old(SessionOf(u)).draft.kind)
                       then AmountPrompt else InvalidCategory
    {
      var selected := Strip(text);
      var data := sessions[u].draft;
      var categories := CategoriesFor(data.kind);
      if selected !in categories {
        reply := InvalidCategory;
        return;
      }
      sessions := sessions[u := Session(Amount, data.(category := Some(selected)))];
      reply := AmountPrompt;
    }

    /** `process_amount`, reached in `amount`. */
    method ProcessAmount(u: int, text: string, parse: string -> Option<int>,
                         today: Date, storeFails: bool) returns (reply: Reply)
      requires Valid() && SessionOf(u).step == Amount
      modifies this, db
      ensures Valid()
      ensures var entry := AmountEntry(old(SessionOf(u)), text, parse);
              && (entry.None? ==>
                    && sessions == old(sessions) && db.rows == old(db.rows)
                    && reply == if parse(Strip(text)).None? then NotANumber else NotPositive)
              && (entry.Some? ==>
                    && sessions == old(sessions)[u := Cleared]
                    && db.rows == old(db.rows)
                         + (if storeFails then []
                            else [Tx(old(db.nextId), u, entry.value.kind, entry.value.amount,
                                     entry.value.category, today)])
                    && reply == if storeFails then SaveFailed else Saved)
      ensures db.nextId == old(db.nextId) + |db.rows| - |old(db.rows)|
    {
      var data := Strip(text);
      var amount := parse(data);
      if amount.None? {
        reply := NotANumber;
        return;
      }
      if amount.value <= 0 {
        reply := NotPositive;
        return;
      }
      var draft := sessions[u].draft;
      var ok := db.AddTransaction(u, draft.kind.value, amount.value, draft.category.value,
                                  today, storeFails);
      reply := if ok then Saved else SaveFailed;
      sessions := sessions[u := Cleared];
    }

    /** The balance button handler: income minus expense. Subtracting a
        NULL sum raises, so the user gets an answer only once they have
        recorded at least one income and one expense. */
    method ShowBalance(u: int) returns (reply: Reply)
      ensures reply.BalanceReport? <==>
                (exists t :: t in db.rows && t.userId == u && t.kind == Income)
                && (exists t :: t in db.rows && t.userId == u && t.kind == Expense)
      ensures !reply.BalanceReport? ==> reply == NoReply
      ensures reply.BalanceReport? ==>
                && reply.income == Sum(Select(db.rows, BalanceQuery(u, Income)))
                && reply.expense == Sum(Select(db.rows, BalanceQuery(u, Expense)))
                && reply.net == reply.income - reply.expense
    {
      var totals := db.GetBalance(u);
      if totals.0.None? || totals.1.None? {
        return NoReply;
      }
      var income, expense := totals.0.value, totals.1.value;
      reply := BalanceReport(income, expense, income - expense);
    }

    /** The statistics button handler: the monthly report, or a notice when
        the user has no expense this month. */
    method ShowStatistics(u: int, today: Date) returns (reply: Reply)
      ensures reply.NoStatistics? <==> Select(db.rows, MonthQuery(u, today)) == []
      ensures !reply.NoStatistics? ==>
                reply.Statistics? && IsCategoryReport(Select(db.rows, MonthQuery(u, today)), reply.report)
    {
      var stats := db.GetMonthlyStats(u, today);
      if stats == [] {
        return NoStatistics;
      }
      assert stats[0].0 in Keys(stats);
      reply := Statistics(stats);
    }

    /** One incoming text from user `u`, routed as aiogram 3 routes it. The
        user's session moves as `Transition` says, no other session changes,
        and the table gains exactly the committed entry unless the insert
        fails. */
    method HandleMessage(u: int, text: string, parse: string -> Option<int>,
                         today: Date, storeFails: bool) returns (reply: Reply)
      requires Valid()
      modifies this, db
      ensures Valid()
      ensures var r := Transition(old(SessionOf(u)), text, parse);
              && SessionOf(u) == r.0
              && sessions - {u} == old(sessions) - {u}
              && db.rows == old(db.rows)
                   + (if r.1.None? || storeFails then []
                      else [Tx(old(db.nextId), u, r.1.value.kind, r.1.value.amount,
                               r.1.value.category, today)])
      ensures db.nextId == old(db.nextId) + |db.rows| - |old(db.rows)|
    {
      var s := SessionOf(u);
      var handler := Route(s.step, text);
      if handler.SelectCategory? {
        StateTransition(s, text, parse);
        reply := SelectCategory(u, text);
        UpdateKeepsOthers(old(sessions), u, ChooseCategory(s, text));
      } else if handler.ProcessAmount? {
        StateTransition(s, text, parse);
        reply := ProcessAmount(u, text, parse, today, storeFails);
        UpdateKeepsOthers(old(sessions), u, Cleared);
      } else {
        CommandTransition(s, text, parse);
        reply := HandleCommand(u, text, today);
      }
    }

    /** A text that no state handler takes: `/start`, a menu button or
        anything else. Only the two entry buttons change the session, and
        the table is not touched. */
    method HandleCommand(u: int, text: string, today: Date) returns (reply: Reply)
      requires Valid()
      requires !Route(SessionOf(u).step, text).SelectCategory?
      requires !Route(SessionOf(u).step, text).ProcessAmount?
      modifies this
      ensures Valid()
      ensures SessionOf(u) == if text == IncomeButton then Begin(old(SessionOf(u)), Income)
                              else if text == ExpenseButton then Begin(old(SessionOf(u)), Expense)
                              else old(SessionOf(u))
      ensures sessions - {u} == old(sessions) - {u}
      ensures text == StartCommand ==> reply == Greeting
      ensures text == IncomeButton ==> reply == CategoryPrompt(Income, IncomeCategories)
      ensures text == ExpenseButton ==> reply == CategoryPrompt(Expense, ExpenseCategories)
      ensures text == BalanceButton ==> reply.BalanceReport? || reply == NoReply
      ensures text == StatsButton ==> reply.NoStatistics? || reply.Statistics?
      ensures (&& text != StartCommand && text != IncomeButton && text != ExpenseButton
               && text != BalanceButton && text != StatsButton) ==> reply == NotUnderstood
    {
      match Route(SessionOf(u).step, text)
      case StartHandler =>
        reply := Greeting;
      case AddIncome =>
        reply := AddIncome(u);
        UpdateKeepsOthers(old(sessions), u, Begin(old(SessionOf(u)), Income));
      case AddExpense =>
        reply := AddExpense(u);
        UpdateKeepsOthers(old(sessions), u, Begin(old(SessionOf(u)), Expense));
      case BalanceHandler =>
        reply := ShowBalance(u);
      case StatisticsHandler =>
        reply := ShowStatistics(u, today);
      case UnknownHandler =>
        reply := NotUnderstood;
    }
  }

  /** A first entry on a fresh bot: the expense button, an expense
      category and a positive amount store exactly one row, with id 1; the
      balance button then gets no answer, because the user has no income
      row and the income SUM is NULL. */
  method FirstExpense(u: int, categoryText: string, amountText: string, amount: int,
                      parse: string -> Option<int>, today: Date)
    returns (rows: seq<Tx>, balance: Reply)
    requires Strip(categoryText) in ExpenseCategories
    requires categoryText != StartCommand && categoryText != IncomeButton && categoryText != ExpenseButton
    requires amountText != StartCommand && amountText != IncomeButton && amountText != ExpenseButton
    requires parse(Strip(amountText)) == Some(amount) && amount > 0
    ensures rows == [Tx(1, u, Expense, amount, Strip(categoryText), today)]
    ensures balance == NoReply
  {
    EntrySteps(Cleared, Expense, categoryText, amountText, amount, parse);
    var bot := new Bot();
    var s1 := Begin(Cleared, Expense);
    var s2 := Session(Amount, s1.draft.(category := Some(Strip(categoryText))));
    var reply := bot.HandleMessage(u, ExpenseButton, parse, today, false);
    assert bot.SessionOf(u) == s1 && bot.db.rows == [] && bot.db.nextId == 1;
    reply := bot.HandleMessage(u, categoryText, parse, today, false);
    assert bot.SessionOf(u) == s2 && bot.db.rows == [] && bot.db.nextId == 1;
    reply := bot.HandleMessage(u, amountText, parse, today, false);
    rows := bot.db.rows;
    assert rows == [Tx(1, u, Expense, amount, Strip(categoryText), today)];
    assert forall t :: t in rows ==> t.kind == Expense;
    balance := bot.ShowBalance(u);
  }
}
