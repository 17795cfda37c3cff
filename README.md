# FinBot in Dafny

A model of FinBot, a small Telegram bot that keeps a personal ledger of
incomes and expenses in SQLite. The repository holds two versions of it, and
both are modelled here.

- `finance_bot.py` is the newer version, on aiogram 3. A menu button starts
  an entry. The user then picks a category from a fixed list for the type
  and types an amount. The entry is stored, and the balance and monthly
  statistics buttons read it back.
- `main.py` is the older version, on aiogram 2. After a menu button, one
  message `"<amount> <category>"` carries the whole entry.

Files:

- `wrappers.dfy`: the `Option` type. It stands for SQL NULL, a failed parse
  and a missing FSM data field.
- `text.dfy`: the three Python string operations the handlers use.
  - `str.strip()`, with Python's white-space set.
  - `str.split(" ", 1)`.
  - The substring test `sub in s`.
- `ledger.dfy`: the `transactions` table as a sequence of rows, and the
  meaning of the queries run against it.
  - The `WHERE` filter.
  - `SUM(amount)`, which is NULL over no rows.
  - `GROUP BY category ORDER BY total DESC`. It is specified by a predicate
    that leaves the order of equal totals open, as SQL does, and it is
    computed by an insertion sort.
- `finance_bot.dfy`: the newer version.
  - A `Database` class, whose `AddTransaction` method appends a row.
  - Pure functions for one conversation step (`Transition`) and for a
    sequence of messages (`Run`).
  - A `Bot` class whose handler methods update the per-user sessions and
    the database. Their contracts are tied to `Transition`.
- `legacy_bot.dfy`: the same structure for the older version.

Two behaviours of the code are modelled as written and proved.

- In `finance_bot.py`, `get_balance` tests the fetched row rather than its
  value. The row always exists, so a type with no rows gives NULL.
  Subtracting NULL in the balance handler raises. So a user gets no balance
  answer until they have recorded both an income and an expense
  (`FinanceBot.Bot.ShowBalance`, `FinanceBot.FirstExpense`).
- In `main.py`, the type is read from a `last_button` data key that no
  handler writes. So every stored row is an expense, even after the income
  button (`LegacyBot.EveryEntryIsExpense`, `LegacyBot.ButtonThenEntry`, and
  the `LegacyBot.Bot.Valid` invariant).

Two routing rules decide which handler a text reaches.

- aiogram 3 tries handlers in registration order, and a handler without a
  state filter fires in every state. So in `finance_bot.py` the two entry
  buttons restart the flow from any state, and `/start` is answered in every
  state without changing it. A category or amount step takes every other
  text, including the balance and statistics buttons.
- aiogram 2 runs a handler registered without `state=` only when the user
  has no state. So in `main.py`, once a button has set
  `waiting_for_transaction`, every text goes to `process_transaction`.

`update_data` merges into the stored data. So a category chosen in an
abandoned entry stays in the draft after a menu button
(`FinanceBot.ButtonRestarts`).

Three things the handlers depend on are parameters:

- `parse: string -> Option<int>` stands for Python's `float()`. `None` means
  it raised `ValueError`.
- `today: Date` stands for `datetime.now()`.
- `storeFails: bool` says whether the `INSERT` raises. It stands for that
  alone.

## Model

| member | source | states |
|---|---|---|
| Text.Strip | finance_bot.py:156 | the result is a part of the text between two all-white-space margins, and it neither starts nor ends with white space |
| Text.StripPadded | finance_bot.py:179 | stripping a text padded with white space on both sides gives back the text, if it has no outer white space |
| Text.StripIdempotent | finance_bot.py:156 | stripping twice is stripping once |
| Text.SplitOnce | main.py:158 | `split(" ", 1)` has one part exactly when the text has no space; otherwise the head has no space, and head, space and tail rebuild the text |
| Text.SplitOnceJoin | main.py:158 | splitting `head + " " + tail` gives back `head` and `tail` when `head` has no space, whatever the tail holds |
| Text.EmptyContainsOnlyEmpty | main.py:175 | only the empty text occurs in the empty text, so the `'📈' in ''` test is false |
| Text.Contains | main.py:175 | Python's `sub in s`: true exactly when `sub` occurs in `s` at some index |
| Ledger.Select | finance_bot.py:62 | `WHERE user_id = ? AND type = ?`: a row is selected exactly when it is in the table and matches the user, the type and, for the monthly query, the year and month |
| Ledger.SqlSum | finance_bot.py:62-64 | `SUM(amount)` is NULL over no rows, and otherwise the sum of their amounts |
| Ledger.SumAfterInsert | finance_bot.py:49-70 | one inserted row raises the SUM of each query it matches by its own amount, and turns a NULL SUM into that amount; the SUM of every other query is unchanged |
| Ledger.SumIgnoresUnmatched | finance_bot.py:62-68 | rows of other users, of the other type, or of other months never change a SUM |
| Ledger.SqlSumIsNull | finance_bot.py:62-64 | `SUM(amount)` is NULL exactly when no row matches the query |
| Ledger.SelectAppend | finance_bot.py:62 | filtering the table after an append filters the old rows, then the new ones |
| Ledger.SumAppend | finance_bot.py:62 | the SUM of two concatenated row lists is the sum of their SUMs |
| Ledger.SelectNone | finance_bot.py:62 | a query selects nothing from rows none of which it matches |
| Ledger.InCategory | finance_bot.py:79 | a `GROUP BY` bucket holds exactly the rows of that category |
| Ledger.CategoriesOf | finance_bot.py:79 | the distinct categories: no repeats, and exactly the categories that occur |
| Ledger.Insert | finance_bot.py:80 | inserting a pair into a list sorted by total keeps it sorted, adds exactly that pair, and keeps the categories distinct |
| Ledger.SortByTotal | finance_bot.py:80 | `ORDER BY total DESC`: a permutation of the groups with non-increasing totals and distinct categories |
| Ledger.MonthlyStats | finance_bot.py:72-83 | one pair for each category among the user's expense rows of the current month, each with its category's sum, with no category repeated, largest total first |
| Ledger.CategoryReportUnique | finance_bot.py:74-81 | any two reports valid for the same rows hold the same pairs; only the order of equal totals may differ |
| Ledger.StatsIgnoreUnmatched | finance_bot.py:77-78 | adding an income, another user's row or a row of another month leaves the monthly report unchanged |
| FinanceBot.Database.constructor | finance_bot.py:26-47 | on a new database file, the table starts empty and ids start at 1 |
| FinanceBot.Database.AddTransaction | finance_bot.py:49-59 | on success it appends exactly one row, with the next id, the given user, type, amount and category and today's date, and returns True; if the insert raises it returns False and the table is unchanged; ids stay increasing |
| FinanceBot.Database.GetBalance | finance_bot.py:61-70 | each component is NULL exactly when the user has no row of that type; otherwise it is the sum of the user's rows of that type |
| FinanceBot.Database.GetMonthlyStats | finance_bot.py:72-83 | the result is a valid monthly category report of the user's expenses this month |
| FinanceBot.CategoriesFor | finance_bot.py:160-163 | the list checked is never empty, and none of its categories has outer white space or equals `/start` or an entry button |
| FinanceBot.Route | finance_bot.py:124-240 | the handler aiogram 3 picks: `/start` and the two entry buttons win in every state; in `waiting_for_transaction` and `amount` every other text goes to the state's handler; the balance and statistics buttons are answered only with no state |
| FinanceBot.Begin | finance_bot.py:138-151 | the session is well formed, in `waiting_for_transaction`, with the button's type, and keeps the category chosen before |
| FinanceBot.ChooseCategory | finance_bot.py:154-171 | a stripped text in the type's list becomes the category and moves to `amount`; any other text leaves the session as it is; the type is kept, and a well-formed session stays well formed |
| FinanceBot.AmountEntry | finance_bot.py:176-191 | an entry exists exactly when the stripped text parses to a positive amount; it is valid and carries that amount with the draft's type and category |
| FinanceBot.Transition | finance_bot.py:137-207 | every step keeps the session well formed; only a step in `amount` commits; the commit is a positive amount in a category of its type, taken from the draft; the session is then cleared |
| FinanceBot.Run | finance_bot.py:124-240 | over any sequence of messages, every committed entry has a positive amount and a category offered for its type, and there is at most one entry per message |
| FinanceBot.RunAppend | finance_bot.py:124-240 | handling two message sequences one after the other is handling their concatenation: the entries are those of the first followed by those of the second |
| FinanceBot.ButtonRestarts | finance_bot.py:137-151 | from any state, an entry button sets `waiting_for_transaction` and the button's type, keeps a previously chosen category, and commits nothing |
| FinanceBot.CategoryStep | finance_bot.py:153-173 | in `waiting_for_transaction`, a stripped text from the type's list is stored and moves to `amount`; any other text changes nothing |
| FinanceBot.KeyboardCategoryAccepted | finance_bot.py:116-120 | a button of the category keyboard sends a text the category step accepts unchanged, moving to `amount` with that category |
| FinanceBot.AmountStep | finance_bot.py:175-204 | in `amount`, a text that does not parse or parses to at most 0 changes nothing; a positive amount commits one entry with the draft's type and category, and clears the session |
| FinanceBot.EntrySteps | finance_bot.py:137-201 | the three transitions of a full entry (button, category, amount), each stated exactly |
| FinanceBot.EntryConversation | finance_bot.py:137-201 | button, category and amount from any state commit exactly one entry of that type, category and amount, and leave the user without state |
| FinanceBot.CommandTransition | finance_bot.py:124-151 | a text that no state handler takes commits nothing; only the two entry buttons change the session |
| FinanceBot.Bot.constructor | finance_bot.py:21-22 | a fresh dispatcher has no sessions, and a new database file has an empty table |
| FinanceBot.Bot.AddIncome | finance_bot.py:138-143 | sets `waiting_for_transaction` and type income, keeps the rest of the data, and offers the income categories |
| FinanceBot.Bot.AddExpense | finance_bot.py:146-151 | sets `waiting_for_transaction` and type expense, keeps the rest of the data, and offers the expense categories |
| FinanceBot.Bot.SelectCategory | finance_bot.py:154-173 | the session becomes `ChooseCategory`'s result; the reply asks for the amount exactly when the stripped text is in the type's list |
| FinanceBot.Bot.ProcessAmount | finance_bot.py:176-207 | no number or an amount of at most 0 changes nothing and says which error it was; a positive amount inserts one row, unless the insert fails, and clears the session either way; every stored row stays valid |
| FinanceBot.Bot.ShowBalance | finance_bot.py:210-220 | answers exactly when the user has both an income and an expense row, with the two sums and their difference; otherwise there is no answer |
| FinanceBot.Bot.ShowStatistics | finance_bot.py:223-235 | says there are no statistics exactly when the user has no expense this month; otherwise answers with a valid monthly report |
| FinanceBot.Bot.HandleMessage | finance_bot.py:124-240 | the sender's session moves as `Transition` says; no other session changes; the table gains exactly the committed row, unless the insert fails; every stored row is valid |
| FinanceBot.Bot.HandleCommand | finance_bot.py:124-240 | `/start`, the menu buttons and unknown texts reach their handlers in registration order; only the entry buttons change the session |
| FinanceBot.FirstExpense | finance_bot.py:146-213 | on a fresh bot over a new database file, the expense button, an expense category and a positive amount store exactly one row with id 1; the balance button then gets no answer |
| LegacyBot.Database.constructor | main.py:26-42 | on a new database file, the table starts empty and ids start at 1 |
| LegacyBot.Database.AddTransaction | main.py:44-54 | on success it appends exactly one row dated today with the next id and returns True; if the insert raises it returns False and the table is unchanged |
| LegacyBot.Database.GetBalance | main.py:56-63 | each component is the sum of the user's rows of that type, and it is 0 when there are none |
| LegacyBot.Database.GetMonthlyStats | main.py:65-76 | the result is a valid monthly category report of the user's expenses this month |
| LegacyBot.KindOf | main.py:175 | the type is income exactly when a `last_button` key is present and its value contains the income mark |
| LegacyBot.Route | main.py:101-195 | the handler aiogram 2 picks: while waiting, `process_transaction` takes every text; with no state, `/start` and each menu button reach their own handler, in both directions |
| LegacyBot.Interpret | main.py:155-175 | no space gives the split error; a head that does not parse gives the number error; a head that parses to at most 0 gives the amount error; any other text commits, with the parsed head as a positive amount, the stripped remainder as category, and the type given by the data |
| LegacyBot.Transition | main.py:114-190 | with no state, the buttons set `waiting_for_transaction` and keep the data; only `process_transaction` commits, a positive amount typed by the data, and the conversation then finishes; a rejected message while waiting keeps the session; a session without data keeps none |
| LegacyBot.Run | main.py:101-195 | over any sequence of messages, every committed amount is positive, and there is at most one entry per message |
| LegacyBot.RunAppend | main.py:101-195 | handling two message sequences one after the other is handling their concatenation: the entries are those of the first followed by those of the second |
| LegacyBot.EmptyDataMeansExpense | main.py:175 | with no `last_button` key, the type is expense |
| LegacyBot.ButtonsIndistinguishable | main.py:114-124 | with no state, both buttons lead to the same session, so the type is recorded nowhere |
| LegacyBot.EveryEntryIsExpense | main.py:114-184 | from a session without data, every committed entry is an expense, whatever buttons were pressed |
| LegacyBot.OneStepEntry | main.py:154-184 | while waiting, `"<amount> <category>"` with a positive amount commits that amount with the stripped remainder as category, and finishes |
| LegacyBot.RejectedInput | main.py:158-172 | while waiting, a message changes nothing and commits nothing exactly when it has no space, its head does not parse, or the amount is not positive |
| LegacyBot.ButtonThenEntry | main.py:114-184 | from no state, either button followed by `"<amount> <category>"` commits one expense of that amount and category |
| LegacyBot.WaitingTransition | main.py:154-190 | while waiting, every text, the menu buttons included, is read as `"<amount> <category>"` |
| LegacyBot.IdleTransition | main.py:101-195 | with no state, only the two buttons change the session, and nothing is committed |
| LegacyBot.Bot.constructor | main.py:20-22 | a fresh dispatcher has no sessions, and a new database file has an empty table |
| LegacyBot.Bot.AddIncome | main.py:115-118 | sets `waiting_for_transaction`, leaves the data untouched, and prompts for an income |
| LegacyBot.Bot.AddExpense | main.py:121-124 | sets `waiting_for_transaction`, leaves the data untouched, and prompts for an expense |
| LegacyBot.Bot.ProcessTransaction | main.py:155-190 | no space, no number or an amount of at most 0 changes nothing and says which; otherwise one row is inserted, unless the insert fails, and the state is finished either way; every stored row stays a positive expense |
| LegacyBot.Bot.ShowBalance | main.py:127-137 | always answers, with the user's income sum, expense sum and their difference |
| LegacyBot.Bot.ShowStatistics | main.py:140-152 | says there are no statistics exactly when the user has no expense this month; otherwise answers with a valid monthly report |
| LegacyBot.Bot.HandleMessage | main.py:101-195 | the sender's session moves as `Transition` says; no other session changes; the table gains exactly the committed row, unless the insert fails; every stored row is a positive expense |
| LegacyBot.Bot.HandleIdle | main.py:101-195 | with no state, `/start`, the buttons and unknown texts reach their handlers; only the two entry buttons change the session |

## Left out

- Telegram I/O is not modelled. That covers `Bot`, the dispatcher, polling, `message.answer` and the keyboards. Replies are the `Reply` datatype, without their texts or the `:.2f` formatting.
- `connect`, `create_tables`, `close` and the cursor are not modelled. The table is a field that the methods reassign.
- The model starts from a new database file. Both versions open the same `finance.db` and create the table only if it is missing. Rows kept across restarts, with AUTOINCREMENT going on from them, are not modelled. Neither are rows written by the other version, whose free-text categories `FinanceBot.Bot.Valid` would not admit.
- Sessions are keyed by user alone. aiogram 3 and aiogram 2 both key FSM state by chat and user together. An entry started in one chat and continued in another is not modelled: the source sends that message to the handler for no state.
- A failing `conn.commit()` after a successful `INSERT` is not modelled. `add_transaction` then returns False, but the row stays pending on the open connection. Later `SELECT`s already count it, and the next successful commit makes it permanent. Failing `SELECT`s are not modelled either. `storeFails` stands only for an `INSERT` that raises.
- FinanceBot.Database.AddTransaction: promises an unchanged table on False only when the `INSERT` itself raises. A failing commit is not modelled.
- LegacyBot.Database.AddTransaction: the same as `FinanceBot.Database.AddTransaction`. A failing commit is not modelled.
- asyncio is not modelled. Messages are handled one at a time.
- `float()` is the `parse` parameter. Amounts are integers, so REAL rounding, `inf` and float sums are not modelled.
- `float("nan")` is not modelled. `nan <= 0` is false, so both versions would store a NaN amount, and SQLite stores it as NULL. The positive-amount promises of `FinanceBot.Run`, `LegacyBot.Run` and both `Bot.Valid` invariants hold only because `parse` returns integers.
- `datetime.now()` is the `today` parameter. The `strftime('%Y-%m', date)` test compares year and month.
- Messages without text are not modelled. In `main.py`, aiogram 2 registers handlers for text messages only, so no handler runs. In `finance_bot.py` with no state, `handle_unknown` answers them. In `waiting_for_transaction` or `amount`, `message.text.strip()` raises before anything changes.
- aiogram 2's `commands=['start']` filter also accepts `/start` with arguments, with a bot mention, or in other letter case. The model matches the exact text `/start`.
- The generic `except Exception` branches of `process_amount` and `process_transaction` are not modelled. No other exception can be raised inside the model.
- `TransactionStates.transaction_type` and `TransactionStates.category` are not modelled. No handler enters them.
- test.py is not part of this model. It only reads an environment variable.
- FinanceBot.Bot.HandleMessage: states the session and table effects but not the reply. The reply is stated by the handler it calls.
- LegacyBot.Bot.HandleMessage: the same as `FinanceBot.Bot.HandleMessage`. The reply is stated by the handler it calls.
- FinanceBot.Bot.HandleCommand: for the balance and statistics buttons it states only the kind of reply. `ShowBalance` and `ShowStatistics` state the contents.
- LegacyBot.Bot.HandleIdle: the same as `FinanceBot.Bot.HandleCommand`. For the balance and statistics buttons it states only the kind of reply.
- FinanceBot.EntryConversation: requires the category text not to be `/start` or an entry button. Those texts are routed to their own handlers first. Stripped, none of them is in a category list.
