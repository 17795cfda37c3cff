/** main.py, the older version of the bot: the same `transactions` table and
    a one-step conversation in which a menu button is followed by a single
    message "<amount> <category>", on aiogram 2.

    aiogram 2 runs a handler registered without a `state` argument only
    while the user has no state. So once a menu button has set
    `waiting_for_transaction`, every text the user sends, the menu buttons
    and `/start` included, goes to `process_transaction`. */
module LegacyBot {

  import opened Wrappers
  import opened Text
  import opened Ledger

  const StartCommand: string := "/start"
  const IncomeButton: string := "📈 Добавить доход"
  const ExpenseButton: string := "📉 Добавить расход"
  const BalanceButton: string := "💰 Баланс"
  const StatsButton: string := "📊 Статистика"

  /** The data key `process_transaction` reads the type from, and the mark
      it looks for in that key's value. */
  const LastButtonKey: string := "last_button"
  const IncomeMark: string := "📈"

  // ---------------------------------------------------------------------
  // The database
  // ---------------------------------------------------------------------

  /** `Database`: the `transactions` table as the sequence of its rows, and
      the next AUTOINCREMENT id. The connection and cursor are not modelled. */
  class Database {
    var rows: seq<Tx>
    var nextId: nat

    /** Ids grow with insertion order and stay below the next one. */
    ghost predicate Valid()
      reads this
    {
      && (forall i, j :: 0 <= i < j < |rows| ==> rows[i].id < rows[j].id)
      && (forall t :: t in rows ==> t.id < nextId)
    }

    constructor ()
      ensures Valid() && rows == [] && nextId == 1
    {
      rows := [];
      nextId := 1;
    }

    /** `add_transaction`: one INSERT of the row dated `today`, reported
        as True. When the insert raises (`storeFails`) the error is logged,
        nothing is written and False is returned. */
    method AddTransaction(userId: int, kind: Kind, amount: int, category: string,
                          today: Date, storeFails: bool) returns (ok: bool)
      requires Valid()
      modifies this
      ensures Valid()
      ensures ok == !storeFails
      ensures ok ==> rows == old(rows) + [Tx(old(nextId), userId, kind, amount, category, today)]
                     && nextId == old(nextId) + 1
      ensures !ok ==> rows == old(rows) && nextId == old(nextId)
    {
      if storeFails {
        return false;
      }
      rows := rows + [Tx(nextId, userId, kind, amount, category, today)];
      nextId := nextId + 1;
      return true;
    }

    /** `get_balance`: the SUM of the user's income amounts and of their
        expense amounts, a NULL sum being read as 0. */
    function GetBalance(u: int): (r: (int, int))
      reads this
      ensures r.0 == Sum(Select(rows, BalanceQuery(u, Income)))
      ensures r.1 == Sum(Select(rows, BalanceQuery(u, Expense)))
      ensures (forall t :: t in rows && t.userId == u ==> t.kind != Income) ==> r.0 == 0
      ensures (forall t :: t in rows && t.userId == u ==> t.kind != Expense) ==> r.1 == 0
    {
      var income := SqlSum(Select(rows, BalanceQuery(u, Income)));
      var expense := SqlSum(Select(rows, BalanceQuery(u, Expense)));
      SqlSumIsNull(rows, BalanceQuery(u, Income));
      SqlSumIsNull(rows, BalanceQuery(u, Expense));
      (if income.Some? then income.value else 0, if expense.Some? then expense.value else 0)
    }

    /** `get_monthly_stats`: the user's expenses of the month of `today`,
        one summed line per category, the largest total first. */
    function GetMonthlyStats(u: int, today: Date): (report: seq<CategoryTotal>)
      reads this
      ensures IsCategoryReport(Select(rows, MonthQuery(u, today)), report)
    {
      MonthlyStats(rows, u, today)
    }
  }

  // ---------------------------------------------------------------------
  // The conversation, one user at a time
  // ---------------------------------------------------------------------

  /** `TransactionStates.waiting_for_transaction`, `Idle` being no state. */
  datatype Step = Idle | WaitingForTransaction

  /** A user's state and FSM data, a dictionary from keys to texts. */
  datatype Session = Session(step: Step, data: map<string, string>)

  /** What `state.finish()` leaves, and what a user who never wrote has. */
  const Finished: Session := Session(Idle, map[])

  /** Python's `data.get(key, '')`. */
  function Get(data: map<string, string>, key: string): string {
    if key in data then data[key] else ""
  }

  /** The type `process_transaction` records: income when the value stored
      under `last_button` contains the income mark, expense otherwise. */
  function KindOf(data: map<string, string>): (r: Kind)
    ensures r == Income <==> LastButtonKey in data
                             && exists i: nat :: OccursAt(data[LastButtonKey], IncomeMark, i)
  {
    EmptyContainsOnlyEmpty(IncomeMark);
    if Contains(Get(data, LastButtonKey), IncomeMark) then Income else Expense
  }

  /** The five menu texts are pairwise different: they differ in their
      first character. */
  lemma MenuTextsDistinct()
    ensures StartCommand != IncomeButton && StartCommand != ExpenseButton
    ensures StartCommand != BalanceButton && StartCommand != StatsButton
    ensures IncomeButton != ExpenseButton && IncomeButton != BalanceButton
    ensures IncomeButton != StatsButton && ExpenseButton != BalanceButton
    ensures ExpenseButton != StatsButton && BalanceButton != StatsButton
  {
    assert StartCommand[0] == '/' && IncomeButton[0] == '📈' && ExpenseButton[0] == '📉';
    assert BalanceButton[0] == '💰' && StatsButton[0] == '📊';
  }

  /** The handler aiogram 2 picks for a text. */
  datatype Handler =
    | StartHandler | AddIncome | AddExpense | BalanceHandler | StatisticsHandler
    | ProcessTransaction | UnknownHandler

  function Route(step: Step, text: string): (r: Handler)
    ensures r.ProcessTransaction? <==> step == WaitingForTransaction
    ensures r.StartHandler? <==> step == Idle && text == StartCommand
    ensures r.AddIncome? <==> step == Idle && text == IncomeButton
    ensures r.AddExpense? <==> step == Idle && text == ExpenseButton
    ensures r.BalanceHandler? <==> step == Idle && text == BalanceButton
    ensures r.StatisticsHandler? <==> step == Idle && text == StatsButton
  {
    MenuTextsDistinct();
    if step == WaitingForTransaction then ProcessTransaction
    else
      assert step == Idle;
      if text == StartCommand then StartHandler
      else if text == IncomeButton then AddIncome
      else if text == ExpenseButton then AddExpense
      else if text == BalanceButton then BalanceHandler
      else if text == StatsButton then StatisticsHandler
      else UnknownHandler
  }

  /** How `process_transaction` reads one message. */
  datatype Outcome =
    | NoSpace            // fewer than two parts after split(" ", 1)
    | BadNumber          // float() raised ValueError
    | BadAmount          // amount <= 0
    | Commit(entry: Entry)

  /** `process_transaction` on a text: split at the first space, the head
      is the amount (`parse` stands for Python's `float`), the stripped
      remainder is the category, and the type comes from the FSM data. */
  function Interpret(data: map<string, string>, text: string,
                     parse: string -> Option<int>): (r: Outcome)
    ensures r.NoSpace? <==> ' ' !in text
    ensures r.BadNumber? <==> ' ' in text && parse(SplitOnce(text, ' ').value.0).None?
    ensures r.BadAmount? <==> && ' ' in text && parse(SplitOnce(text, ' ').value.0).Some?
                              && parse(SplitOnce(text, ' ').value.0).value <= 0
    ensures r.Commit? ==> && r.entry.amount > 0 && r.entry.kind == KindOf(data)
                          && var parts := SplitOnce(text, ' ').value;
                             parse(parts.0) == Some(r.entry.amount)
                             && r.entry.category == Strip(parts.1)
  {
    match SplitOnce(text, ' ')
    case None => NoSpace
    case Some((head, tail)) =>
      var amount := parse(head);
      if amount.None? then BadNumber
      else if amount.value <= 0 then BadAmount
      else Commit(Entry(KindOf(data), amount.value, Strip(tail)))
  }

  /** One message of a user's conversation: the session afterwards and the
      entry handed to `add_transaction`, if any. The menu buttons set the
      state and leave the data alone; only `process_transaction` commits,
      and it commits a positive amount typed by the data, then finishes the
      conversation. A session without data keeps none. */
  function Transition(s: Session, text: string, parse: string -> Option<int>)
    : (r: (Session, Option<Entry>))
    ensures s.data == map[] ==> r.0.data == map[]
    ensures r.1.None? ==> r.0.data == s.data
    ensures r.1.None? && s.step == WaitingForTransaction ==> r.0 == s
    ensures s.step == Idle && (text == IncomeButton || text == ExpenseButton) ==>
              r == (Session(WaitingForTransaction, s.data), None)
    ensures r.1.Some? ==> && s.step == WaitingForTransaction && r.0 == Finished
                          && r.1.value.amount > 0 && r.1.value.kind == KindOf(s.data)
  {
    match Route(s.step, text)
    case AddIncome => (Session(WaitingForTransaction, s.data), None)
    case AddExpense => (Session(WaitingForTransaction, s.data), None)
    case ProcessTransaction =>
      (match Interpret(s.data, text, parse)
       case Commit(e) => (Finished, Some(e))
       case _ => (s, None))
    case _ => (s, None)
  }

  /** A sequence of messages from one user: the final session and the
      entries committed, in order. */
  function Run(s: Session, texts: seq<string>, parse: string -> Option<int>)
    : (r: (Session, seq<Entry>))
    ensures |r.1| <= |texts|
    ensures forall e :: e in r.1 ==> e.amount > 0
    decreases |texts|
  {
    if texts == [] then (s, [])
    else
      var first := Transition(s, texts[0], parse);
      var rest := Run(first.0, texts[1..], parse);
      (rest.0, (if first.1.Some? then [first.1.value] else []) + rest.1)
  }

  /** With no `last_button` key the type is expense. */
  lemma EmptyDataMeansExpense()
    ensures KindOf(map[]) == Expense
  {
    EmptyContainsOnlyEmpty(IncomeMark);
  }

  /** Both menu buttons lead to the same session: the state is set and
      the type is not recorded anywhere. */
  lemma ButtonsIndistinguishable(s: Session, parse: string -> Option<int>)
    requires s.step == Idle
    ensures Transition(s, IncomeButton, parse) == Transition(s, ExpenseButton, parse)
                                              == (Session(WaitingForTransaction, s.data), None)
  {
  }

  /** Nothing ever writes `last_button`, so a conversation that starts
      without data commits only expenses, whichever button was pressed. */
  lemma {:induction false} EveryEntryIsExpense(s: Session, texts: seq<string>,
                                               parse: string -> Option<int>)
    requires s.data == map[]
    ensures Run(s, texts, parse).0.data == map[]
    ensures forall e :: e in Run(s, texts, parse).1 ==> e.kind == Expense
    decreases |texts|
  {
    if texts != [] {
      EmptyDataMeansExpense();
      var first := Transition(s, texts[0], parse);
      EveryEntryIsExpense(first.0, texts[1..], parse);
    }
  }

  /** While waiting, a message "<amount> <category>" whose amount has no
      space in it and parses to a positive number commits exactly that
      amount with the stripped remainder as category, and finishes. */
  lemma OneStepEntry(s: Session, amountText: string, categoryText: string, amount: int,
                     parse: string -> Option<int>)
    requires s.step == WaitingForTransaction
    requires ' ' !in amountText
    requires parse(amountText) == Some(amount) && amount > 0
    ensures Transition(s, amountText + " " + categoryText, parse)
         == (Finished, Some(Entry(KindOf(s.data), amount, Strip(categoryText))))
  {
    SplitOnceJoin(amountText, ' ', categoryText);
    assert amountText + [' '] + categoryText == amountText + " " + categoryText;
  }

  /** While waiting, a message is rejected, the session kept and nothing
      committed, exactly when it has no space, its head does not parse, or
      the parsed amount is not positive. */
  lemma RejectedInput(s: Session, text: string, parse: string -> Option<int>)
    requires s.step == WaitingForTransaction
    ensures Transition(s, text, parse) == (s, None) <==>
              || ' ' !in text
              || (var parts := SplitOnce(text, ' ').value;
                  parse(parts.0).None? || parse(parts.0).value <= 0)
  {
  }

  /** From no state, either menu button followed by "<amount> <category>"
      commits one EXPENSE of that amount and category and finishes. */
  lemma ButtonThenEntry(button: string, amountText: string, categoryText: string,
                        amount: int, parse: string -> Option<int>)
    requires button == IncomeButton || button == ExpenseButton
    requires ' ' !in amountText
    requires parse(amountText) == Some(amount) && amount > 0
    ensures Run(Finished, [button, amountText + " " + categoryText], parse)
         == (Finished, [Entry(Expense, amount, Strip(categoryText))])
  {
    var s1 := Session(WaitingForTransaction, map[]);
    var text := amountText + " " + categoryText;
    var e := Entry(Expense, amount, Strip(categoryText));
    assert Transition(Finished, button, parse) == (s1, None);
    assert Transition(s1, text, parse) == (Finished, Some(e)) by {
      EmptyDataMeansExpense();
      OneStepEntry(s1, amountText, categoryText, amount, parse);
    }
    RunSingle(s1, text, parse);
    RunPair(Finished, button, text, parse);
    assert [] + [e] == [e];
  }

  /** While waiting, every text is read as "<amount> <category>": the
      session finishes on a commit and stays as it is otherwise. */
  lemma WaitingTransition(s: Session, text: string, parse: string -> Option<int>)
    requires s.step == WaitingForTransaction
    ensures var outcome := Interpret(s.data, text, parse);
            Transition(s, text, parse)
            == if outcome.Commit? then (Finished, Some(outcome.entry)) else (s, None)
  {
  }

  /** With no state, only the two menu buttons change the session: they
      set the state and keep the data. Nothing is committed. */
  lemma IdleTransition(s: Session, text: string, parse: string -> Option<int>)
    requires s.step == Idle
    ensures Transition(s, text, parse)
         == (if text == IncomeButton || text == ExpenseButton
             then Session(WaitingForTransaction, s.data) else s, None)
  {
  }

  /** A conversation split in two is the first part, then the second one
      from the session the first part left: the entries of the whole are
      those of the first part followed by those of the second. */
  lemma {:induction false} RunAppend(s: Session, a: seq<string>, b: seq<string>,
                                     parse: string -> Option<int>)
    ensures var first := Run(s, a, parse);
            var second := Run(first.0, b, parse);
            Run(s, a + b, parse) == (second.0, first.1 + second.1)
    decreases |a|
  {
    if a == [] {
      assert a + b == b;
      assert Run(s, a, parse) == (s, []);
      assert [] + Run(s, b, parse).1 == Run(s, b, parse).1;
    } else {
      var step := Transition(s, a[0], parse);
      assert (a + b)[0] == a[0] && (a + b)[1..] == a[1..] + b;
      RunAppend(step.0, a[1..], b, parse);
      var first := Run(step.0, a[1..], parse);
      var second := Run(first.0, b, parse);
      var head := if step.1.Some? then [step.1.value] else [];
      assert head + (first.1 + second.1) == (head + first.1) + second.1;
    }
  }

  /** `Run` on one message. */
  lemma RunSingle(s: Session, text: string, parse: string -> Option<int>)
    ensures var first := Transition(s, text, parse);
            Run(s, [text], parse) == (first.0, if first.1.Some? then [first.1.value] else [])
  {
    assert [text][1..] == [];
    var first := Transition(s, text, parse);
    assert (if first.1.Some? then [first.1.value] else []) + []
        == (if first.1.Some? then [first.1.value] else []);
  }

  /** `Run` on two messages. */
  lemma RunPair(s: Session, a: string, b: string, parse: string -> Option<int>)
    ensures var first := Transition(s, a, parse);
            var second := Run(first.0, [b], parse);
            Run(s, [a, b], parse)
            == (second.0, (if first.1.Some? then [first.1.value] else []) + second.1)
  {
    assert [a, b][1..] == [b];
  }

  // ---------------------------------------------------------------------
  // The bot: handlers over the database and every user's session
  // ---------------------------------------------------------------------

  /** What a handler answers, without the text and keyboards. */
  datatype Reply =
    | Greeting                                      // start_command
    | EntryPrompt(kind: Kind)                       // add_income, add_expense
    | NoSeparator
    | NotANumber
    | NotPositive
    | Saved
    | SaveFailed
    | BalanceReport(income: int, expense: int, net: int)
    | NoStatistics
    | Statistics(report: seq<CategoryTotal>)
    | NotUnderstood

  /** The dispatcher with its memory storage: the database and the session
      of every user who has written. */
  class Bot {
    const db: Database
    var sessions: map<int, Session>

    /** No session ever holds data, and every row the bot wrote is an
        expense with a positive amount. */
    ghost predicate Valid()
      reads this, db
    {
      && db.Valid()
      && (forall u :: u in sessions ==> sessions[u].data == map[])
      && (forall t :: t in db.rows ==> t.kind == Expense && t.amount > 0)
    }

    /** The session of user `u`; a user without one has no state and no data. */
    function SessionOf(u: int): Session
      reads this
    {
      if u in sessions then sessions[u] else Finished
    }

    constructor ()
      ensures Valid() && fresh(db) && db.rows == [] && db.nextId == 1 && sessions == map[]
    {
      db := new Database();
      sessions := map[];
    }

    /** `add_income`: prompt for "<amount> <category>" and set the state;
        the data is not touched. */
    method AddIncome(u: int) returns (reply: Reply)
      requires Valid()
      modifies this
      ensures Valid()
      ensures sessions == old(sessions)[u := Session(WaitingForTransaction, old(SessionOf(u)).data)]
      ensures reply == EntryPrompt(Income)
    {
      sessions := sessions[u := Session(WaitingForTransaction, SessionOf(u).data)];
      reply := EntryPrompt(Income);
    }

    /** `add_expense`: the same state, with the expense prompt. */
    method AddExpense(u: int) returns (reply: Reply)
      requires Valid()
      modifies this
      ensures Valid()
      ensures sessions == old(sessions)[u := Session(WaitingForTransaction, old(SessionOf(u)).data)]
      ensures reply == EntryPrompt(Expense)
    {
      sessions := sessions[u := Session(WaitingForTransaction, SessionOf(u).data)];
      reply := EntryPrompt(Expense);
    }

    /** `process_transaction`, reached in `waiting_for_transaction`. */
    method ProcessTransaction(u: int, text: string, parse: string -> Option<int>,
                              today: Date, storeFails: bool) returns (reply: Reply)
      requires Valid() && SessionOf(u).step == WaitingForTransaction
      modifies this, db
      ensures Valid()
      ensures var outcome := Interpret(old(SessionOf(u)).data, text, parse);
              && (!outcome.Commit? ==>
                    && sessions == old(sessions) && db.rows == old(db.rows)
                    && reply == match outcome
                                case NoSpace => NoSeparator
                                case BadNumber => Reply.NotANumber
                                case _ => Reply.NotPositive)
              && (outcome.Commit? ==>
                    && sessions == old(sessions)[u := Finished]
                    && db.rows == old(db.rows)
                         + (if storeFails then []
                            else [Tx(old(db.nextId), u, outcome.entry.kind, outcome.entry.amount,
                                     outcome.entry.category, today)])
                    && reply == if storeFails then SaveFailed else Saved)
      ensures db.nextId == old(db.nextId) + |db.rows| - |old(db.rows)|
    {
      var data := SplitOnce(text, ' ');
      if data.None? {
        reply := NoSeparator;
        return;
      }
      var amount := parse(data.value.0);
      if amount.None? {
        reply := Reply.NotANumber;
        return;
      }
      var category := Strip(data.value.1);
      if amount.value <= 0 {
        reply := Reply.NotPositive;
        return;
      }
      var kind := KindOf(SessionOf(u).data);
      EmptyDataMeansExpense();
      var ok := db.AddTransaction(u, kind, amount.value, category, today, storeFails);
      reply := if ok then Saved else SaveFailed;
      sessions := sessions[u := Finished];
    }

    /** The balance button handler: income minus expense, always answered. */
    method ShowBalance(u: int) returns (reply: Reply)
      ensures reply.BalanceReport?
      ensures reply.income == Sum(Select(db.rows, BalanceQuery(u, Income)))
      ensures reply.expense == Sum(Select(db.rows, BalanceQuery(u, Expense)))
      ensures reply.net == reply.income - reply.expense
    {
      var totals := db.GetBalance(u);
      var income, expense := totals.0, totals.1;
      reply := BalanceReport(income, expense, income - expense);
    }

    /** The statistics button handler: the monthly report, or a notice when
        the user has no expense this month. */
    method ShowStatistics(u: int, today: Date) returns (reply: Reply)
      ensures reply.NoStatistics? <==> Select(db.rows, MonthQuery(u, today)) == []
      ensures !reply.NoStatistics? ==>
                reply.Statistics? && IsCategoryReport(Select(db.rows, MonthQuery(u, today)), reply.report)
    {
      var stats := db.GetMonthlyStats(u, today);
      if stats == [] {
        return NoStatistics;
      }
      assert stats[0].0 in Keys(stats);
      reply := Statistics(stats);
    }

    /** One incoming text from user `u`, routed as aiogram 2 routes it. The
        user's session moves as `Transition` says, no other session changes,
        the table gains exactly the committed entry unless the insert fails,
        and every row stays an expense. */
    method HandleMessage(u: int, text: string, parse: string -> Option<int>,
                         today: Date, storeFails: bool) returns (reply: Reply)
      requires Valid()
      modifies this, db
      ensures Valid()
      ensures var r := Transition(old(SessionOf(u)), text, parse);
              && SessionOf(u) == r.0
              && sessions - {u} == old(sessions) - {u}
              && db.rows == old(db.rows)
                   + (if r.1.None? || storeFails then []
                      else [Tx(old(db.nextId), u, r.1.value.kind, r.1.value.amount,
                               r.1.value.category, today)])
      ensures db.nextId == old(db.nextId) + |db.rows| - |old(db.rows)|
    {
      var s := SessionOf(u);
      if s.step == WaitingForTransaction {
        WaitingTransition(s, text, parse);
        reply := ProcessTransaction(u, text, parse, today, storeFails);
      } else {
        IdleTransition(s, text, parse);
        reply := HandleIdle(u, text, today);
      }
    }

    /** A text from a user with no state: the handlers registered without
        a state, tried in order. Only the two menu buttons change the
        session, and the table is not touched. */
    method HandleIdle(u: int, text: string, today: Date) returns (reply: Reply)
      requires Valid() && SessionOf(u).step == Idle
      modifies this
      ensures Valid()
      ensures SessionOf(u) == if text == IncomeButton || text == ExpenseButton
                              then Session(WaitingForTransaction, old(SessionOf(u)).data)
                              else old(SessionOf(u))
      ensures sessions - {u} == old(sessions) - {u}
      ensures text == StartCommand ==> reply == Greeting
      ensures text == IncomeButton ==> reply == EntryPrompt(Income)
      ensures text == ExpenseButton ==> reply == EntryPrompt(Expense)
      ensures text == BalanceButton ==> reply.BalanceReport?
      ensures text == StatsButton ==> reply.NoStatistics? || reply.Statistics?
      ensures (&& text != StartCommand && text != IncomeButton && text != ExpenseButton
               && text != BalanceButton && text != StatsButton) ==> reply == NotUnderstood
    {
      match Route(Idle, text)
      case StartHandler =>
        reply := Greeting;
      case AddIncome =>
        reply := AddIncome(u);
      case AddExpense =>
        reply := AddExpense(u);
      case BalanceHandler =>
        reply := ShowBalance(u);
      case StatisticsHandler =>
        reply := ShowStatistics(u, today);
      case UnknownHandler =>
        reply := NotUnderstood;
    }
  }
}
