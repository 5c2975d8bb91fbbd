# A verified model of the civil-servant reference bot

The bot is a Telegram bot that serves a question-and-answer reference
organised by category. Ordinary users pick a category from a keyboard, get
the numbered list of its questions, and pick a number to read the question
with its answer. Users listed in the `admins` table can open an admin
conversation with `/admin` and add a category, then questions and their
answers, one after the other, until `/cancel`.

The project models the two core files:

- `database.py`, the SQLite store (module `Store`). `Tables` is the value of
  the three tables (`categories`, `questions`, `admins`) with their
  AUTOINCREMENT counters. `WellFormed` states the schema's constraints:
  increasing primary keys below their counters, UNIQUE category names, and
  the FOREIGN KEY from questions to categories. The functions `WithCategory`,
  `WithQuestion`, `WithAnswer` and `WithAdmin` give the effect of each
  INSERT or UPDATE, and `GetCategories`, `GetQuestionsByCategory` and
  `IsAdmin` are the read-only queries. The class `Store.Database` keeps the
  tables in fields; its methods update them in place and are proved against
  those functions.
- `bot.py`, the dialogue (module `Dialogue`). Each handler is a function
  `On*` of the user's `user_data`, the tables and the message text. It
  returns the new `user_data`, the new tables (admin handlers only), the
  reply, and the next conversation state. `RouteOf` is the order in which
  `main()` registers the handlers, and `Step` is one message routed and
  handled. The class `Dialogue.Session` holds one user's `user_data` and
  conversation state; its handler methods are proved against the `On*`
  functions.

Supporting modules:

- `Text` models the Python string operations the handlers use: `strip()`,
  `isdigit()`, `int()` on a digit string, `f"{n}"`, and the first word of a
  command.
- `StoreProperties` and `StoreHistory` prove what the SQL statements
  guarantee, for one call and for any history of calls.
- `DialogueProperties` proves what one message, or any run of messages,
  does.
- `Scenarios` follows one admin and one user through a complete session.

The model follows the code, including these behaviours of it:

- `add_question` on a category that does not exist does nothing. It
  raises no error.
- `update_answer` sets the answer on every row of the category whose
  question text matches, not just on one.
- `get_questions_by_category` always puts the 'ответ' key in each record.
  So the fallback text 'Ответ отсутствует.' in `question_handler` never
  applies, and a NULL answer is shown as it is. `QuestionAndAnswer`
  carries the stored `Option`.
- `/cancel` ends the conversation but keeps `user_data`.
- During the admin conversation, "Назад" and every other non-command text
  go to the current state's handler. The Back handler is not reached then.
- A user who is not an admin gets a refusal message and stays outside the
  conversation.

## Model

| member | source | states |
|---|---|---|
| Text.Strip | bot.py:52 | `strip()` returns a slice of the text with only whitespace cut off on either side, none left at either end, and the text itself when it has no whitespace |
| Text.NatToString | bot.py:77-78 | `f"{n}"` is a digit string without a leading zero that `int()` reads back as `n` |
| Text.FirstWord | bot.py:302 | the command word is a whitespace-free prefix of the message, ended by whitespace or the end of the text |
| Store.FindCategory | database.py:65-66 | the category lookup by name finds the first row with that name, or None exactly when no row has it |
| Store.RecordsOfMembers | database.py:91-97 | a record is among a category id's records iff some row carrying that id has that question and answer |
| Store.Rewrite | database.py:77-82 | the UPDATE keeps every row's id, category and question, and sets the answer exactly on the rows of that category with that question |
| Store.GetCategories | database.py:51-58 | get_categories lists the name of every row, in row order, without duplicates when the schema holds |
| Store.CategoryListed | database.py:51-66 | a name is listed by get_categories iff the lookup by name finds a row |
| Store.Database.constructor | database.py:3-35 | init_db on a new database file gives empty tables that satisfy the schema, with counters at 1 |
| Store.Database.AddCategory | database.py:38-48 | the in-place insert has the effect of `WithCategory` and keeps the schema |
| Store.Database.AddQuestion | database.py:61-70 | the in-place insert has the effect of `WithQuestion` and keeps the schema |
| Store.Database.UpdateAnswer | database.py:73-84 | the in-place update has the effect of `WithAnswer` and keeps the schema |
| Store.Database.AddAdmin | database.py:102-112 | the in-place insert adds the id to the admins table and keeps the schema |
| Store.WithCategoryKeepsWellFormed | database.py:9-14 | inserting a category keeps ids increasing, names UNIQUE, and every question's category present |
| Store.WithQuestionKeepsWellFormed | database.py:17-25 | inserting a question keeps the AUTOINCREMENT order and the FOREIGN KEY |
| Store.WithAnswerKeepsWellFormed | database.py:73-84 | updating answers keeps the schema's constraints |
| StoreProperties.AddCategoryIdempotent | database.py:42-46 | after add_category the name is listed, and a second add_category with the same name changes nothing |
| StoreProperties.CategoryListedOnce | database.py:12 | after add_category(name), get_categories lists the name exactly once |
| StoreProperties.InCategoryIsFoundId | database.py:94-95 | with unique names, a question joins the category name exactly when it carries the id found by name |
| StoreProperties.JoinedByFoundId | database.py:91-97 | the join filtered by name equals the rows filtered by the category's id |
| StoreProperties.JoinedOfMissing | database.py:91-97 | the join for a name that no category has is empty |
| StoreProperties.QuestionsAreTheJoin | database.py:87-99 | get_questions_by_category returns exactly the literal join, in row order, and nothing for an unknown category |
| StoreProperties.AddQuestionEffect | database.py:61-70 | add_question appends one row with the category's id, the question and the answer, and changes nothing else; on an unknown category it changes nothing |
| StoreProperties.QuestionsAfterAdd | database.py:61-70 | after add_question, that category's records end with the new record, and every other category's records are unchanged |
| StoreProperties.UpdateAnswerEffect | database.py:73-84 | update_answer changes exactly the answers of the rows of that category with that question; on an unknown category it changes nothing |
| StoreProperties.RecordsOfRewrite | database.py:77-82 | seen through one category's records, the UPDATE re-answers that category's matching records and no other category's |
| StoreProperties.AnswersAfterUpdate | database.py:73-99 | after update_answer, the category's records with that question carry the new answer, and all other records are unchanged |
| StoreProperties.ReanswerAppend | database.py:77-82 | re-answering one more record appends that record, re-answered |
| StoreProperties.RecordsOfAppend | database.py:91-97 | one more row adds its record at the end iff it carries the id |
| StoreProperties.AddedQuestionIsLast | database.py:38-70 | add_category then add_question: the category's records end with the new, unanswered question, and the schema holds |
| StoreProperties.AddThenAnswerRoundTrip | database.py:38-99 | add_category, add_question, then update_answer: the category's last record is the question with that answer, and every record with that question has that answer |
| StoreHistory.ApplyKeepsWellFormed | database.py:38-112 | every store call keeps the schema's constraints |
| StoreHistory.ReplayKeepsWellFormed | database.py:17-25 | no history of calls breaks the schema, so no question is ever left without its category |
| StoreHistory.AdminIffAdded | database.py:102-122 | is_admin(id) holds after a history iff it held before or the history called add_admin(id) |
| StoreHistory.AdminIffAddedFromEmpty | database.py:102-122 | starting from init_db, is_admin(id) holds iff add_admin(id) was called |
| StoreHistory.ListedAfterAdd | database.py:38-58 | after add_category(n), the listed names are those listed before, plus n |
| StoreHistory.ListedAfterApply | database.py:38-112 | only add_category changes the listed names, and only by its own name |
| StoreHistory.CategoryIffAdded | database.py:38-58 | a name is listed after a history iff it was listed before or the history called add_category with it |
| StoreHistory.CategoriesFromEmpty | database.py:38-58 | starting from init_db, a name is listed iff add_category was called with it, and then it is listed exactly once |
| Dialogue.CategoryKeyboardButtons | bot.py:32-36 | one button per stored category, in the store's order, and Back as the last button |
| Dialogue.QuestionKeyboardButtons | bot.py:78 | buttons whose `int()` values are 1..count in order, then Back |
| Dialogue.NumberedLinesShape | bot.py:77 | line i starts with the numeral of i+1, then ". ", then question i |
| Dialogue.OnQuestion | bot.py:92-150 | the reply is the question with its answer iff a category is remembered and the number is in 1..count; otherwise it is one error message over the category keyboard |
| Dialogue.OnCategory | bot.py:51-88 | the remembered question is untouched, and the remembered category is kept, cleared, or set to the stripped text |
| Dialogue.OnAdmin | bot.py:172-190 | /admin enters AddCategory iff the user is in the admins table; user_data and the store are untouched |
| Dialogue.RouteOf | bot.py:298-317 | inside the conversation, non-command text goes to the current state's own handler and /cancel to the fallback; outside it, /admin opens the panel, the exact text Back goes to the Back handler and any other non-command text to category_handler; /start always reaches start; /admin inside the conversation, /cancel outside it and every other command are unhandled |
| Dialogue.Session.constructor | bot.py:301-309 | a new user starts with empty user_data and outside the conversation |
| Dialogue.Session.Start | bot.py:40-47 | /start replies with the welcome over the category keyboard |
| Dialogue.Session.QuestionHandler | bot.py:92-150 | the imperative handler's reply is `OnQuestion` of the session's user_data |
| Dialogue.Session.BackToCategories | bot.py:158-168 | forgets the current category and replies with the category keyboard |
| Dialogue.Session.CategoryHandler | bot.py:51-88 | the new user_data and reply are those of `OnCategory` |
| Dialogue.Session.AdminPanel | bot.py:172-190 | the reply and next state are those of `OnAdmin` |
| Dialogue.Session.Cancel | bot.py:264-271 | replies with the cancellation and returns END |
| Dialogue.Session.AddCategoryAdmin | bot.py:194-208 | the new user_data, store, reply and state are those of `OnAddCategory` |
| Dialogue.Session.AddQuestionAdmin | bot.py:212-234 | the new user_data, store, reply and state are those of `OnAddQuestion` |
| Dialogue.Session.AddAnswerAdmin | bot.py:238-260 | the new user_data, store, reply and state are those of `OnAddAnswer` |
| Dialogue.Session.Dispatch | bot.py:301-317 | one message changes the session and the store exactly as `Step` says |
| DialogueProperties.CommandSeenThroughStrip | bot.py:304-306 | text whose stripped form does not start with '/' is not a command |
| DialogueProperties.BackIsNotDigits | bot.py:57-62 | "Назад" is never taken as a question number, and it is not a command |
| DialogueProperties.CommandByFirstWord | bot.py:302-308 | a message whose command word starts with '/' is a command |
| DialogueProperties.RoutedToCategoryHandler | bot.py:313-317 | outside the conversation, text whose stripped form is not empty, not a command and not Back is routed to category_handler |
| DialogueProperties.ReachesCategoryHandler | bot.py:313-317 | such a message changes the session exactly as category_handler does and leaves the store alone |
| DialogueProperties.NumberReachesQuestionHandler | bot.py:57-60 | outside the conversation, with a category remembered, a number is answered by question_handler and changes neither the session nor the store |
| DialogueProperties.RejectedNumber | bot.py:119-133 | a number outside 1..count gets "no questions" for an empty category and "wrong number" otherwise |
| DialogueProperties.NumberButtonSelectsQuestion | bot.py:77-78 | button k of the question keyboard shows question k with its stored answer and the list again; nothing else changes |
| DialogueProperties.NumberSelection | bot.py:106-150 | with a category remembered, a number in 1..count shows that question with its stored answer and lists the questions again; any other number gets "no questions" for an empty category and "wrong number" otherwise |
| DialogueProperties.DigitsWithoutCategoryAreLookups | bot.py:57-88 | a number sent while no category is remembered is looked up as a category name: it is listed and remembered when it names a category with questions, and gets "no such category" otherwise |
| DialogueProperties.FoundQuestionsNameACategory | database.py:87-99 | a name that has questions is a stored category |
| DialogueProperties.CategorySelection | bot.py:62-88 | text naming a category that has questions (which then exists) shows its numbered list and remembers it; any other text gets "no such category" and nothing changes; the store is never written |
| DialogueProperties.BackClearsCategory | bot.py:62-65 | Back, stripped, outside the conversation forgets the current category and shows the category keyboard |
| DialogueProperties.AdminEntry | bot.py:172-190 | an admin's /admin enters AddCategory with the cancel keyboard; anyone else is refused; user_data and the store are untouched |
| DialogueProperties.CancelEndsConversation | bot.py:264-271 | /cancel ends the conversation from any state and keeps user_data; outside the conversation no handler takes it |
| DialogueProperties.MissingRememberedValueEnds | bot.py:219-252 | a missing category or question in AddQuestion/AddAnswer ends the conversation without writing |
| DialogueProperties.CategoryStep | bot.py:194-208 | in AddCategory, text other than /cancel creates the category, remembers it and moves to AddQuestion |
| DialogueProperties.QuestionStep | bot.py:212-234 | in AddQuestion with a category remembered, text other than /cancel is stored as an unanswered question, remembered, and the state moves to AddAnswer |
| DialogueProperties.AnswerStep | bot.py:238-260 | in AddAnswer with both remembered, text other than /cancel is stored as the answer and the state returns to AddQuestion |
| DialogueProperties.AdminFlowStoresAnswer | bot.py:194-260 | category, question and answer in turn leave the question with that answer last in the category, with both remembered and the state back at AddQuestion |
| DialogueProperties.StepKeepsWellFormed | bot.py:194-260 | no message breaks the store's constraints or changes the admins table |
| DialogueProperties.OnlyConversationWrites | bot.py:301-317 | outside the admin conversation, no message writes to the store |
| DialogueProperties.NonAdminStep | bot.py:172-190 | outside the conversation, one message from a non-admin leaves the conversation and the store as they were |
| DialogueProperties.NonAdminNeverWrites | bot.py:172-190 | a user who is not an admin never enters the conversation and never changes the store, whatever they send |
| DialogueProperties.RunKeepsWellFormed | bot.py:301-317 | the store stays well-formed through any run of messages |
| Scenarios.AdminOpensPanel | bot.py:172-190 | a seeded admin's /admin opens the panel |
| Scenarios.AdminSendsCategory | bot.py:194-208 | "Test" creates category 1 and moves to AddQuestion |
| Scenarios.AdminSendsQuestion | bot.py:212-234 | "Q1?" is stored without an answer, remembered, and the state moves to AddAnswer |
| Scenarios.AdminSendsAnswer | bot.py:238-260 | "A1" is stored on that question and the state returns to AddQuestion |
| Scenarios.StoredRecords | database.py:87-99 | the category then holds exactly the record ("Q1?", "A1") |
| Scenarios.AnsweredAfterAdmin | database.py:51-99 | after the admin's run, "Test" is the only category, holding only ("Q1?", "A1") |
| Scenarios.OneQuestionListing | bot.py:77-78 | the listing of one question is "1. Q1?" over the buttons "1" and Back |
| Scenarios.UserOpensCategory | bot.py:67-88 | another user sending "Test" gets the listing and the category is remembered |
| Scenarios.UserPicksFirst | bot.py:135-150 | "1" shows "Q1?" with "A1" and the listing again, and changes nothing |
| Scenarios.UserPicksSeventh | bot.py:127-133 | "7" gets "wrong number" over the category keyboard |
| Scenarios.AdminAddsQuestion | bot.py:194-260 | the admin's four messages, played through `Database` and `Session`, leave the store holding the answered question |
| Scenarios.UserBrowses | bot.py:51-150 | the other user's three messages, played through `Session`, give the listing, the answer and the out-of-range reply, and leave "Test" remembered |
| Scenarios.AdminThenUser | bot.py:282-317 | from init_db and add_admin, the whole run gives the stored record, the listing, the answer, the out-of-range reply, and the remembered category |

## Left out

- Telegram transport: updates, chats, `reply_text` and keyboard rendering are left out. Replies are modelled as message kinds with their data and keyboards, not as the Russian wording.
- Logging (`logging`, the log file) has no effect on behaviour.
- SQLite plumbing is left out: connect, commit, close, and the I/O errors they can raise. AUTOINCREMENT is modelled as a counter that only grows, and query results come in insertion order, which SQLite does not formally promise without ORDER BY.
- Handlers are sequential: the asynchronous event loop and concurrent updates from several users are not modelled.
- `error_handler` and the `except Exception` of `question_handler` only catch faults of code outside the model, such as network or database errors. The model has no such faults.
- `Text.IsSpace` and `Text.IsDigit` cover ASCII only. Python's `strip()` and `isdigit()` also accept Unicode whitespace and digits.
- `Text.DigitsValue` models `int()` only on strings of ASCII digits, which is the only way `question_handler` is reached (through `isdigit()` in `category_handler`). Signs, underscores and other forms `int()` accepts are not modelled.
- `Dialogue.IsCommand` treats a message as a command when its text starts with '/', standing in for Telegram's bot_command entity. Command matching uses the first word as written: `/cmd@botname` forms and case-insensitive matching are not modelled.
- `Dialogue.RouteOf` matches the Back filter `^(Назад)$` as exact equality. Python's `$` also matches before a final newline, which is not modelled.
- Non-text messages (photos, stickers) are not modelled. `Route.Unhandled` covers every message no handler takes.
- `populate_db.py` is not part of this model.
- Store.Database.constructor: models `init_db` on a new database file only. On an existing file, `CREATE TABLE IF NOT EXISTS` keeps the stored rows, so a restart of `main()` starts from whatever tables were saved. The store and dialogue lemmas are stated over any well-formed tables and so cover that start too.
- The bot token and the hard-coded admin id in `main()` are configuration. The scenario takes the admin id as a parameter.
