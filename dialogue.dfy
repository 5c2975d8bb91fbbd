/**
 * The dialogue of bot.py: navigation by category and question number, and
 * the admin conversation that adds categories, questions and answers.
 *
 * Each handler is a function `On*` of the user's `user_data`, the tables and
 * the message text, giving the new `user_data`, the new tables, the reply
 * and (for the admin conversation) the next conversation state. `RouteOf`
 * is the order in which the handlers registered in main() get a message,
 * and `Step` is one message handled. The class `Session` holds one user's
 * state; its handler methods update it in place and are proved against the
 * `On*` functions.
 *
 * A reply is a list of messages, each a message kind with the keyboard it
 * carries; the wording of the texts and the Telegram markup are not modelled.
 */
module Dialogue {
  import opened Wrappers
  import opened Text
  import opened Store

  /** The admin ConversationHandler: its three states, and End for "no
      conversation" (ConversationHandler.END). */
  datatype AdminState = AddCategory | AddQuestion | AddAnswer | End

  /** `context.user_data`: the two keys the bot uses, None when absent. */
  datatype UserData = UserData(currentCategory: Option<string>, currentQuestion: Option<string>)

  const NoUserData: UserData := UserData(None, None)

  /** A user_data value as `if value:` reads it in Python: present and not
      the empty string. */
  predicate Truthy(v: Option<string>) {
    v.Some? && v.value != ""
  }

  const Back: string := "Назад"
  const CancelCommand: string := "/cancel"
  const AdminCommand: string := "/admin"
  const StartCommand: string := "/start"

  /** The reply_markup of a message: none given (the client keeps its
      keyboard), ReplyKeyboardRemove, or a ReplyKeyboardMarkup with one
      button per row. */
  datatype Keyboard = KeepKeyboard | RemoveKeyboard | Buttons(choices: seq<string>)

  datatype MessageKind =
    | Welcome
    | NoSuchCategory
    | QuestionList(category: string, lines: seq<string>)
    | ChooseCategoryFirst
    | NotANumber
    | NoQuestions
    | WrongNumber
    | QuestionAndAnswer(question: string, answer: Option<string>)
    | BackToList
    | AccessDenied
    | AdminWelcome
    | CategoryCreated(category: string)
    | QuestionAdded(question: string)
    | AnswerAdded(stored: string)
    | Cancelled
    | StartOver

  datatype Message = Message(kind: MessageKind, keyboard: Keyboard)

  // ---------------------------------------------------------------------
  // Keyboards and lists

  /** generate_category_keyboard: one button per stored category, in the
      store's order, and Back last. */
  function CategoryKeyboard(t: Tables): Keyboard {
    Buttons(GetCategories(t) + [Back])
  }

  /** The category keyboard has one button per stored category, in the
      store's order, and Back last. */
  lemma CategoryKeyboardButtons(t: Tables)
    ensures var k := CategoryKeyboard(t);
      && k.Buttons? && |k.choices| == |t.categories| + 1
      && k.choices[|k.choices| - 1] == Back
      && forall i | 0 <= i < |t.categories| :: k.choices[i] == t.categories[i].name
  {
  }

  /** The keyboard under a question list: the numbers 1..count, and Back
      last. */
  function QuestionKeyboard(count: nat): Keyboard {
    Buttons(seq(count, i requires 0 <= i < count => NatToString(i + 1)) + [Back])
  }

  /** Each number button reads back through int() as its position plus
      one, and Back is last. */
  lemma QuestionKeyboardButtons(count: nat)
    ensures var k := QuestionKeyboard(count);
      && k.Buttons? && |k.choices| == count + 1 && k.choices[count] == Back
      && forall i | 0 <= i < count :: IsDigits(k.choices[i]) && DigitsValue(k.choices[i]) == i + 1
  {
  }

  /** The lines of a question list, "1. " before the first question and
      so on. */
  function NumberedLines(rs: seq<Record>): seq<string> {
    seq(|rs|, i requires 0 <= i < |rs| => NatToString(i + 1) + ". " + rs[i].question)
  }

  /** Line i of a question list is the numeral of i + 1, then ". ",
      then the text of question i. */
  lemma NumberedLinesShape(rs: seq<Record>)
    ensures var lines := NumberedLines(rs);
      && |lines| == |rs|
      && forall i | 0 <= i < |rs| ::
           var numeral := NatToString(i + 1);
           |lines[i]| == |numeral| + 2 + |rs[i].question|
           && lines[i][..|numeral|] == numeral
           && lines[i][|numeral|..|numeral| + 2] == ". "
           && lines[i][|numeral| + 2..] == rs[i].question
  {
  }

  const CancelKeyboard: Keyboard := Buttons([CancelCommand])

  // ---------------------------------------------------------------------
  // Navigation handlers

  /** start: the welcome message over the category keyboard. */
  function OnStart(t: Tables): seq<Message> {
    [Message(Welcome, CategoryKeyboard(t))]
  }

  /** What question_handler accepts: a remembered category, a number, and
      1 <= number <= the number of that category's questions. */
  predicate ValidSelection(d: UserData, t: Tables, raw: string) {
    && Truthy(d.currentCategory)
    && IsDigits(Strip(raw))
    && 1 <= DigitsValue(Strip(raw)) <= |GetQuestionsByCategory(t, d.currentCategory.value)|
  }

  /** question_handler. It reads user_data and the store and changes
      neither. An accepted number shows that question with its stored
      answer (a NULL answer as it is) and lists the questions again; every
      other input gets one error message over the category keyboard. */
  function OnQuestion(d: UserData, t: Tables, raw: string): (r: seq<Message>)
    ensures |r| > 0
    ensures r[0].kind.QuestionAndAnswer? <==> ValidSelection(d, t, raw)
    ensures ValidSelection(d, t, raw) ==>
      var rs := GetQuestionsByCategory(t, d.currentCategory.value);
      var n := DigitsValue(Strip(raw));
      r == [Message(QuestionAndAnswer(rs[n - 1].question, rs[n - 1].answer), KeepKeyboard),
            Message(QuestionList(d.currentCategory.value, NumberedLines(rs)), QuestionKeyboard(|rs|))]
    ensures !ValidSelection(d, t, raw) ==> |r| == 1 && r[0].keyboard == CategoryKeyboard(t)
  {
    if !Truthy(d.currentCategory) then [Message(ChooseCategoryFirst, CategoryKeyboard(t))]
    else
      var text := Strip(raw);
      if !IsDigits(text) then [Message(NotANumber, CategoryKeyboard(t))]
      else
        var index: int := DigitsValue(text) - 1;
        var category := d.currentCategory.value;
        var rs := GetQuestionsByCategory(t, category);
        if rs == [] then [Message(NoQuestions, CategoryKeyboard(t))]
        else if index < 0 || index >= |rs| then [Message(WrongNumber, CategoryKeyboard(t))]
        else [Message(QuestionAndAnswer(rs[index].question, rs[index].answer), KeepKeyboard),
              Message(QuestionList(category, NumberedLines(rs)), QuestionKeyboard(|rs|))]
  }

  /** The effect of a navigation handler: new user_data and the reply. */
  datatype Response = Response(data: UserData, reply: seq<Message>)

  /** back_to_categories: forget the current category and show the
      category keyboard. */
  function OnBack(d: UserData, t: Tables): Response {
    Response(d.(currentCategory := None), [Message(BackToList, CategoryKeyboard(t))])
  }

  /** category_handler: a number while a category is remembered goes to
      question_handler, Back goes to back_to_categories, and any other text
      is looked up as a category name. */
  function OnCategory(d: UserData, t: Tables, raw: string): (r: Response)
    ensures r.data.currentQuestion == d.currentQuestion
    ensures r.data.currentCategory in {d.currentCategory, None, Some(Strip(raw))}
  {
    var text := Strip(raw);
    if IsDigits(text) && Truthy(d.currentCategory) then Response(d, OnQuestion(d, t, raw))
    else if text == Back then OnBack(d, t)
    else
      var rs := GetQuestionsByCategory(t, text);
      if rs == [] then Response(d, [Message(NoSuchCategory, CategoryKeyboard(t))])
      else Response(d.(currentCategory := Some(text)),
                    [Message(QuestionList(text, NumberedLines(rs)), QuestionKeyboard(|rs|))])
  }

  // ---------------------------------------------------------------------
  // Admin conversation handlers

  /** The effect of an admin handler: new user_data, new tables, the reply
      and the state it returns to the ConversationHandler. */
  datatype AdminResponse = AdminResponse(data: UserData, tables: Tables, reply: seq<Message>, next: AdminState)

  /** admin_panel: only an id in the admins table enters the conversation;
      user_data and the store are never touched. */
  function OnAdmin(d: UserData, t: Tables, userId: int): (r: AdminResponse)
    ensures r.data == d && r.tables == t
    ensures r.next == AddCategory <==> IsAdmin(t, userId)
    ensures r.next in {AddCategory, End}
  {
    if !IsAdmin(t, userId) then AdminResponse(d, t, [Message(AccessDenied, RemoveKeyboard)], End)
    else AdminResponse(d, t, [Message(AdminWelcome, CancelKeyboard)], AddCategory)
  }

  /** cancel: ends the conversation; user_data is left as it is. */
  function OnCancel(d: UserData, t: Tables): AdminResponse {
    AdminResponse(d, t, [Message(Cancelled, RemoveKeyboard)], End)
  }

  /** add_category_admin. */
  function OnAddCategory(d: UserData, t: Tables, raw: string): AdminResponse {
    var category := Strip(raw);
    if category == CancelCommand then OnCancel(d, t)
    else AdminResponse(d.(currentCategory := Some(category)), WithCategory(t, category),
                       [Message(CategoryCreated(category), CancelKeyboard)], AddQuestion)
  }

  /** add_question_admin: the question is stored without an answer. */
  function OnAddQuestion(d: UserData, t: Tables, raw: string): AdminResponse {
    var question := Strip(raw);
    if question == CancelCommand then OnCancel(d, t)
    else if !Truthy(d.currentCategory) then AdminResponse(d, t, [Message(StartOver, RemoveKeyboard)], End)
    else AdminResponse(d.(currentQuestion := Some(question)),
                       WithQuestion(t, d.currentCategory.value, question, None),
                       [Message(QuestionAdded(question), CancelKeyboard)], AddAnswer)
  }

  /** add_answer_admin: loops back to AddQuestion for the same category. */
  function OnAddAnswer(d: UserData, t: Tables, raw: string): AdminResponse {
    var answer := Strip(raw);
    if answer == CancelCommand then OnCancel(d, t)
    else if !Truthy(d.currentCategory) || !Truthy(d.currentQuestion) then
      AdminResponse(d, t, [Message(StartOver, RemoveKeyboard)], End)
    else AdminResponse(d, WithAnswer(t, d.currentCategory.value, d.currentQuestion.value, answer),
                       [Message(AnswerAdded(answer), CancelKeyboard)], AddQuestion)
  }

  // ---------------------------------------------------------------------
  // Routing

  /** The handler a message reaches. */
  datatype Route =
    | ToStart | ToAdminPanel | ToAddCategory | ToAddQuestion | ToAddAnswer | ToCancel
    | ToBack | ToCategory | Unhandled

  /** A message that Telegram marks as a bot command. */
  predicate IsCommand(raw: string) {
    |raw| > 0 && raw[0] == '/'
  }

  /** The handlers in the order main() registers them: the admin
      ConversationHandler first (entry /admin only outside a conversation;
      inside one, every non-command text goes to the current state's
      handler and /cancel to the fallback), then /start, then the exact
      text Back, then category_handler for any other non-command text. */
  function RouteOf(conversation: AdminState, raw: string): (r: Route)
    ensures conversation == AddCategory && !IsCommand(raw) ==> r == ToAddCategory
    ensures conversation == AddQuestion && !IsCommand(raw) ==> r == ToAddQuestion
    ensures conversation == AddAnswer && !IsCommand(raw) ==> r == ToAddAnswer
    ensures conversation == End && !IsCommand(raw) && raw != Back ==> r == ToCategory
    ensures IsCommand(raw) && conversation == End && FirstWord(raw) == AdminCommand ==> r == ToAdminPanel
    ensures IsCommand(raw) && conversation != End && FirstWord(raw) == AdminCommand ==> r == Unhandled
    ensures IsCommand(raw) && conversation != End && FirstWord(raw) == CancelCommand ==> r == ToCancel
    ensures IsCommand(raw) && conversation == End && FirstWord(raw) == CancelCommand ==> r == Unhandled
    ensures IsCommand(raw) && FirstWord(raw) == StartCommand ==> r == ToStart
    ensures IsCommand(raw) && FirstWord(raw) !in {AdminCommand, CancelCommand, StartCommand} ==> r == Unhandled
    ensures r in {ToBack, ToCategory} ==> conversation == End && !IsCommand(raw)
    ensures r == ToBack <==> conversation == End && raw == Back
    ensures r == ToAdminPanel ==> conversation == End
    ensures r == ToCancel ==> conversation != End
  {
    if IsCommand(raw) then
      var command := FirstWord(raw);
      if conversation == End && command == AdminCommand then ToAdminPanel
      else if conversation != End && command == CancelCommand then ToCancel
      else if command == StartCommand then ToStart
      else Unhandled
    else
      match conversation
      case AddCategory => ToAddCategory
      case AddQuestion => ToAddQuestion
      case AddAnswer => ToAddAnswer
      case End => if raw == Back then ToBack else ToCategory
  }

  /** One user's state and the tables after one message, with the reply. */
  datatype Turn = Turn(data: UserData, conversation: AdminState, tables: Tables, reply: seq<Message>)

  function Finish(r: AdminResponse): Turn {
    Turn(r.data, r.next, r.tables, r.reply)
  }

  /** One message from the user `userId`, routed and handled. */
  function Step(d: UserData, conversation: AdminState, t: Tables, userId: int, raw: string): Turn {
    match RouteOf(conversation, raw)
    case ToStart => Turn(d, conversation, t, OnStart(t))
    case ToAdminPanel => Finish(OnAdmin(d, t, userId))
    case ToAddCategory => Finish(OnAddCategory(d, t, raw))
    case ToAddQuestion => Finish(OnAddQuestion(d, t, raw))
    case ToAddAnswer => Finish(OnAddAnswer(d, t, raw))
    case ToCancel => Finish(OnCancel(d, t))
    case ToBack =>
      var r := OnBack(d, t);
      Turn(r.data, conversation, t, r.reply)
    case ToCategory =>
      var r := OnCategory(d, t, raw);
      Turn(r.data, conversation, t, r.reply)
    case Unhandled => Turn(d, conversation, t, [])
  }

  // ---------------------------------------------------------------------
  // One user's session, updated in place

  class Session {
    const userId: int
    var currentCategory: Option<string>
    var currentQuestion: Option<string>
    var conversation: AdminState

    function Data(): UserData
      reads this
    {
      UserData(currentCategory, currentQuestion)
    }

    constructor (userId: int)
      ensures this.userId == userId && Data() == NoUserData && conversation == End
    {
      this.userId := userId;
      currentCategory, currentQuestion := None, None;
      conversation := End;
    }

    method Start(db: Database) returns (reply: seq<Message>)
      ensures reply == OnStart(db.Snapshot())
    {
      reply := [Message(Welcome, CategoryKeyboard(db.Snapshot()))];
    }

    method QuestionHandler(db: Database, raw: string) returns (reply: seq<Message>)
      ensures reply == OnQuestion(Data(), db.Snapshot(), raw)
    {
      var keyboard := CategoryKeyboard(db.Snapshot());
      if !Truthy(currentCategory) {
        reply := [Message(ChooseCategoryFirst, keyboard)];
        return;
      }
      var text := Strip(raw);
      if !IsDigits(text) {
        reply := [Message(NotANumber, keyboard)];
        return;
      }
      var index: int := DigitsValue(text) - 1;
      var category := currentCategory.value;
      var questions := GetQuestionsByCategory(db.Snapshot(), category);
      if questions == [] {
        reply := [Message(NoQuestions, keyboard)];
        return;
      }
      if index < 0 || index >= |questions| {
        reply := [Message(WrongNumber, keyboard)];
        return;
      }
      reply := [Message(QuestionAndAnswer(questions[index].question, questions[index].answer), KeepKeyboard),
                Message(QuestionList(category, NumberedLines(questions)), QuestionKeyboard(|questions|))];
    }

    method BackToCategories(db: Database) returns (reply: seq<Message>)
      modifies this
      ensures Response(Data(), reply) == OnBack(old(Data()), db.Snapshot())
      ensures conversation == old(conversation)
    {
      if currentCategory.Some? {
        currentCategory := None;
      }
      reply := [Message(BackToList, CategoryKeyboard(db.Snapshot()))];
    }

    method CategoryHandler(db: Database, raw: string) returns (reply: seq<Message>)
      modifies this
      ensures Response(Data(), reply) == OnCategory(old(Data()), db.Snapshot(), raw)
      ensures conversation == old(conversation)
    {
      var text := Strip(raw);
      if IsDigits(text) && Truthy(currentCategory) {
        reply := QuestionHandler(db, raw);
        return;
      }
      if text == Back {
        reply := BackToCategories(db);
        return;
      }
      var questions := GetQuestionsByCategory(db.Snapshot(), text);
      if questions == [] {
        reply := [Message(NoSuchCategory, CategoryKeyboard(db.Snapshot()))];
        return;
      }
      reply := [Message(QuestionList(text, NumberedLines(questions)), QuestionKeyboard(|questions|))];
      currentCategory := Some(text);
    }

    method AdminPanel(db: Database) returns (reply: seq<Message>, next: AdminState)
      ensures AdminResponse(Data(), db.Snapshot(), reply, next) == OnAdmin(Data(), db.Snapshot(), userId)
    {
      if !IsAdmin(db.Snapshot(), userId) {
        reply, next := [Message(AccessDenied, RemoveKeyboard)], End;
        return;
      }
      reply, next := [Message(AdminWelcome, CancelKeyboard)], AddCategory;
    }

    method Cancel(db: Database) returns (reply: seq<Message>, next: AdminState)
      ensures AdminResponse(Data(), db.Snapshot(), reply, next) == OnCancel(Data(), db.Snapshot())
    {
      reply, next := [Message(Cancelled, RemoveKeyboard)], End;
    }

    method AddCategoryAdmin(db: Database, raw: string) returns (reply: seq<Message>, next: AdminState)
      requires db.Valid()
      modifies this, db
      ensures db.Valid() && conversation == old(conversation)
      ensures AdminResponse(Data(), db.Snapshot(), reply, next) == OnAddCategory(old(Data()), old(db.Snapshot()), raw)
    {
      var category := Strip(raw);
      if category == CancelCommand {
        reply, next := Cancel(db);
        return;
      }
      db.AddCategory(category);
      currentCategory := Some(category);
      reply, next := [Message(CategoryCreated(category), CancelKeyboard)], AddQuestion;
    }

    method AddQuestionAdmin(db: Database, raw: string) returns (reply: seq<Message>, next: AdminState)
      requires db.Valid()
      modifies this, db
      ensures db.Valid() && conversation == old(conversation)
      ensures AdminResponse(Data(), db.Snapshot(), reply, next) == OnAddQuestion(old(Data()), old(db.Snapshot()), raw)
    {
      var question := Strip(raw);
      if question == CancelCommand {
        reply, next := Cancel(db);
        return;
      }
      var category := currentCategory;
      if !Truthy(category) {
        reply, next := [Message(StartOver, RemoveKeyboard)], End;
        return;
      }
      db.AddQuestion(category.value, question, None);
      currentQuestion := Some(question);
      reply, next := [Message(QuestionAdded(question), CancelKeyboard)], AddAnswer;
    }

    method AddAnswerAdmin(db: Database, raw: string) returns (reply: seq<Message>, next: AdminState)
      requires db.Valid()
      modifies this, db
      ensures db.Valid() && conversation == old(conversation)
      ensures AdminResponse(Data(), db.Snapshot(), reply, next) == OnAddAnswer(old(Data()), old(db.Snapshot()), raw)
    {
      var answer := Strip(raw);
      if answer == CancelCommand {
        reply, next := Cancel(db);
        return;
      }
      var category, question := currentCategory, currentQuestion;
      if !Truthy(category) || !Truthy(question) {
        reply, next := [Message(StartOver, RemoveKeyboard)], End;
        return;
      }
      db.UpdateAnswer(category.value, question.value, answer);
      reply, next := [Message(AnswerAdded(answer), CancelKeyboard)], AddQuestion;
    }

    /** One incoming message, handed to the handler RouteOf picks; the admin
        handlers' returned state becomes the conversation state. */
    method Dispatch(db: Database, raw: string) returns (reply: seq<Message>)
      requires db.Valid()
      modifies this, db
      ensures db.Valid()
      ensures Turn(Data(), conversation, db.Snapshot(), reply)
           == Step(old(Data()), old(conversation), old(db.Snapshot()), userId, raw)
    {
      var next: AdminState;
      match RouteOf(conversation, raw)
      case ToStart =>
        reply := Start(db);
      case ToAdminPanel =>
        reply, next := AdminPanel(db);
        conversation := next;
      case ToAddCategory =>
        reply, next := AddCategoryAdmin(db, raw);
        conversation := next;
      case ToAddQuestion =>
        reply, next := AddQuestionAdmin(db, raw);
        conversation := next;
      case ToAddAnswer =>
        reply, next := AddAnswerAdmin(db, raw);
        conversation := next;
      case ToCancel =>
        reply, next := Cancel(db);
        conversation := next;
      case ToBack =>
        reply := BackToCategories(db);
      case ToCategory =>
        reply := CategoryHandler(db, raw);
      case Unhandled =>
        reply := [];
    }
  }
}
