/**
 * What the dialogue of bot.py guarantees, stated over `Step`: one message
 * routed and handled.
 */
module DialogueProperties {
  import opened Wrappers
  import opened Text
  import opened Store
  import opened StoreProperties
  import opened Dialogue

  /** The state after several messages from the same user. */
  function Run(d: UserData, conversation: AdminState, t: Tables, userId: int, texts: seq<string>): Turn {
    if texts == [] then Turn(d, conversation, t, [])
    else
      var before := Run(d, conversation, t, userId, texts[..|texts| - 1]);
      Step(before.data, before.conversation, before.tables, userId, texts[|texts| - 1])
  }

  // ---------------------------------------------------------------------
  // Facts about the text of a message

  /** Text without whitespace is its own strip. */
  lemma StripOfUnspaced(s: string)
    requires forall i | 0 <= i < |s| :: !IsSpace(s[i])
    ensures Strip(s) == s
  {
  }

  /** Text without whitespace is its own first word. */
  lemma FirstWordOfUnspaced(s: string)
    requires forall i | 0 <= i < |s| :: !IsSpace(s[i])
    ensures FirstWord(s) == s
  {
  }

  /** A message whose stripped text begins with something other than '/'
      is not a command. */
  lemma CommandSeenThroughStrip(raw: string)
    ensures |Strip(raw)| > 0 && Strip(raw)[0] != '/' ==> !IsCommand(raw)
  {
    var r := Strip(raw);
    var k: nat :| SliceBetweenSpaces(raw, k, r);
    if |r| > 0 && IsCommand(raw) {
      assert !IsSpace(raw[0]);
      assert k == 0;
      assert r[0] == raw[0];
    }
  }

  /** A message whose first word starts with '/' is a command. */
  lemma CommandByFirstWord(raw: string)
    requires |FirstWord(raw)| > 0 && FirstWord(raw)[0] == '/'
    ensures IsCommand(raw)
  {
    assert raw[0] == FirstWord(raw)[0];
  }

  lemma BackIsItsStrip()
    ensures Strip(Back) == Back
  {
    StripOfUnspaced(Back);
  }

  lemma BackIsNotDigits()
    ensures !IsDigits(Back) && Back[0] != '/'
  {
    assert !IsDigit(Back[0]);
  }

  // ---------------------------------------------------------------------
  // Navigation

  /** Outside the conversation, text whose stripped form is neither empty,
      nor a command, nor Back is routed to category_handler. */
  lemma RoutedToCategoryHandler(raw: string)
    requires |Strip(raw)| > 0 && Strip(raw)[0] != '/' && Strip(raw) != Back
    ensures RouteOf(End, raw) == ToCategory
  {
    CommandSeenThroughStrip(raw);
    BackIsItsStrip();
  }

  /** What category_handler does is what the message does. */
  lemma ReachesCategoryHandler(d: UserData, t: Tables, userId: int, raw: string)
    requires |Strip(raw)| > 0 && Strip(raw)[0] != '/' && Strip(raw) != Back
    ensures Step(d, End, t, userId, raw)
         == Turn(OnCategory(d, t, raw).data, End, t, OnCategory(d, t, raw).reply)
  {
    RoutedToCategoryHandler(raw);
  }

  /** The k-th number button under a question list selects question k:
      the reply shows that question with its stored answer and lists the
      questions again, and nothing else changes. */
  lemma NumberButtonSelectsQuestion(d: UserData, t: Tables, userId: int, k: nat)
    requires Truthy(d.currentCategory)
    requires k < |GetQuestionsByCategory(t, d.currentCategory.value)|
    ensures
      var rs := GetQuestionsByCategory(t, d.currentCategory.value);
      var button := QuestionKeyboard(|rs|).choices[k];
      Step(d, End, t, userId, button)
        == Turn(d, End, t,
                [Message(QuestionAndAnswer(rs[k].question, rs[k].answer), KeepKeyboard),
                 Message(QuestionList(d.currentCategory.value, NumberedLines(rs)), QuestionKeyboard(|rs|))])
  {
    var rs := GetQuestionsByCategory(t, d.currentCategory.value);
    var button := QuestionKeyboard(|rs|).choices[k];
    assert IsDigits(button) && DigitsValue(button) == k + 1;
    StripOfUnspaced(button);
    BackIsNotDigits();
    assert button != Back by {
      assert IsDigit(button[0]);
    }
    assert ValidSelection(d, t, button);
  }

  /** With a category remembered, question_handler accepts a number iff
      1 <= number <= the number of the category's questions, and then
      shows that question with its stored answer and lists the questions
      again; a rejected number gets "no questions" when the category is
      empty and "wrong number" otherwise. */
  lemma NumberSelection(d: UserData, t: Tables, raw: string)
    requires Truthy(d.currentCategory) && IsDigits(Strip(raw))
    ensures
      var n := DigitsValue(Strip(raw));
      var category := d.currentCategory.value;
      var rs := GetQuestionsByCategory(t, category);
      && (1 <= n <= |rs| ==>
            OnQuestion(d, t, raw)
              == [Message(QuestionAndAnswer(rs[n - 1].question, rs[n - 1].answer), KeepKeyboard),
                  Message(QuestionList(category, NumberedLines(rs)), QuestionKeyboard(|rs|))])
      && (!(1 <= n <= |rs|) ==>
            OnQuestion(d, t, raw) == [Message(if rs == [] then NoQuestions else WrongNumber, CategoryKeyboard(t))])
  {
    if !(1 <= DigitsValue(Strip(raw)) <= |GetQuestionsByCategory(t, d.currentCategory.value)|) {
      RejectedNumber(d, t, raw);
    } else {
      assert ValidSelection(d, t, raw);
    }
  }

  /** question_handler's reply to a number outside 1..count. */
  lemma RejectedNumber(d: UserData, t: Tables, raw: string)
    requires Truthy(d.currentCategory) && IsDigits(Strip(raw))
    requires !(1 <= DigitsValue(Strip(raw)) <= |GetQuestionsByCategory(t, d.currentCategory.value)|)
    ensures OnQuestion(d, t, raw)
         == [Message(if GetQuestionsByCategory(t, d.currentCategory.value) == [] then NoQuestions else WrongNumber,
                     CategoryKeyboard(t))]
  {
  }

  /** Outside the conversation and with a category remembered, a number
      goes through category_handler to question_handler, so the session and
      the store stay as they were and the reply is question_handler's. */
  lemma NumberReachesQuestionHandler(d: UserData, t: Tables, userId: int, raw: string)
    requires Truthy(d.currentCategory) && IsDigits(Strip(raw))
    ensures Step(d, End, t, userId, raw) == Turn(d, End, t, OnQuestion(d, t, raw))
  {
    BackIsNotDigits();
    assert Strip(raw)[0] != '/' by {
      assert IsDigit(Strip(raw)[0]);
    }
    ReachesCategoryHandler(d, t, userId, raw);
    assert OnCategory(d, t, raw) == Response(d, OnQuestion(d, t, raw));
  }

  /** A number while no category is remembered is looked up as a category
      name, never taken as a question number. */
  lemma DigitsWithoutCategoryAreLookups(d: UserData, t: Tables, userId: int, raw: string)
    requires !Truthy(d.currentCategory) && IsDigits(Strip(raw))
    ensures
      var r := Step(d, End, t, userId, raw);
      var text := Strip(raw);
      var rs := GetQuestionsByCategory(t, text);
      && r.tables == t && r.conversation == End
      && (rs == [] ==> r.data == d && r.reply == [Message(NoSuchCategory, CategoryKeyboard(t))])
      && (rs != [] ==>
            && r.data == d.(currentCategory := Some(text))
            && r.reply == [Message(QuestionList(text, NumberedLines(rs)), QuestionKeyboard(|rs|))])
  {
    BackIsNotDigits();
    assert Strip(raw)[0] != '/' by {
      assert IsDigit(Strip(raw)[0]);
    }
    CommandSeenThroughStrip(raw);
    CategorySelection(d, t, userId, raw);
  }

  lemma FoundQuestionsNameACategory(t: Tables, name: string)
    requires GetQuestionsByCategory(t, name) != []
    ensures name in GetCategories(t)
  {
    var k :| FindCategory(t.categories, name) == Some(k);
    assert t.categories[k].name == name;
  }

  /** Outside the admin conversation, text that is neither Back nor a
      question number selects the category it names when that category
      has a question (it then exists), and lists its questions under the
      number keyboard; otherwise, for a missing category and an empty one
      alike, the reply says there is no such category and the session is
      unchanged. The store is never written. */
  lemma CategorySelection(d: UserData, t: Tables, userId: int, raw: string)
    requires !IsCommand(raw) && Strip(raw) != Back
    requires !(IsDigits(Strip(raw)) && Truthy(d.currentCategory))
    ensures
      var r := Step(d, End, t, userId, raw);
      var text := Strip(raw);
      var rs := GetQuestionsByCategory(t, text);
      && r.tables == t && r.conversation == End
      && (rs != [] ==>
            && text in GetCategories(t)
            && r.data == d.(currentCategory := Some(text))
            && r.reply == [Message(QuestionList(text, NumberedLines(rs)), QuestionKeyboard(|rs|))])
      && (rs == [] ==> r.data == d && r.reply == [Message(NoSuchCategory, CategoryKeyboard(t))])
  {
    var text := Strip(raw);
    if GetQuestionsByCategory(t, text) != [] {
      FoundQuestionsNameACategory(t, text);
    }
    BackIsItsStrip();
    assert RouteOf(End, raw) == ToCategory;
    var r := OnCategory(d, t, raw);
    assert Step(d, End, t, userId, raw) == Turn(r.data, End, t, r.reply);
  }

  /** Back, outside the admin conversation and whatever whitespace
      surrounds it, forgets the current category (if any) and replies with
      the full category keyboard. */
  lemma BackClearsCategory(d: UserData, t: Tables, userId: int, raw: string)
    requires Strip(raw) == Back
    ensures Step(d, End, t, userId, raw)
         == Turn(d.(currentCategory := None), End, t, [Message(BackToList, CategoryKeyboard(t))])
  {
    BackIsNotDigits();
    CommandSeenThroughStrip(raw);
  }

  // ---------------------------------------------------------------------
  // The admin conversation

  /** /admin outside a conversation: an admin enters AddCategory, anyone
      else is refused and stays outside; user_data and the store are left
      as they were either way. */
  lemma AdminEntry(d: UserData, t: Tables, userId: int, raw: string)
    requires FirstWord(raw) == AdminCommand
    ensures !IsAdmin(t, userId) ==>
      Step(d, End, t, userId, raw) == Turn(d, End, t, [Message(AccessDenied, RemoveKeyboard)])
    ensures IsAdmin(t, userId) ==>
      Step(d, End, t, userId, raw) == Turn(d, AddCategory, t, [Message(AdminWelcome, CancelKeyboard)])
  {
    CommandByFirstWord(raw);
    assert RouteOf(End, raw) == ToAdminPanel;
    assert Step(d, End, t, userId, raw) == Finish(OnAdmin(d, t, userId));
  }

  /** /cancel ends the conversation from any of its states and keeps
      user_data; outside a conversation no handler takes it. */
  lemma CancelEndsConversation(d: UserData, conversation: AdminState, t: Tables, userId: int, raw: string)
    requires FirstWord(raw) == CancelCommand
    ensures conversation != End ==>
      Step(d, conversation, t, userId, raw) == Turn(d, End, t, [Message(Cancelled, RemoveKeyboard)])
    ensures conversation == End ==> Step(d, End, t, userId, raw) == Turn(d, End, t, [])
  {
    CommandByFirstWord(raw);
    if conversation != End {
      assert RouteOf(conversation, raw) == ToCancel;
      assert Step(d, conversation, t, userId, raw) == Finish(OnCancel(d, t));
    } else {
      assert RouteOf(End, raw) == Unhandled;
    }
  }

  /** In AddQuestion or AddAnswer, a missing (or empty) remembered category
      or question ends the conversation without writing to the store. */
  lemma MissingRememberedValueEnds(d: UserData, conversation: AdminState, t: Tables, userId: int, raw: string)
    requires conversation in {AddQuestion, AddAnswer}
    requires !IsCommand(raw) && Strip(raw) != CancelCommand
    requires !Truthy(d.currentCategory) || (conversation == AddAnswer && !Truthy(d.currentQuestion))
    ensures Step(d, conversation, t, userId, raw) == Turn(d, End, t, [Message(StartOver, RemoveKeyboard)])
  {
  }

  /** In AddCategory, any text other than /cancel creates the category
      (or leaves an existing one), remembers it and moves to AddQuestion. */
  lemma CategoryStep(d: UserData, t: Tables, userId: int, raw: string)
    requires !IsCommand(raw) && Strip(raw) != CancelCommand
    ensures Step(d, AddCategory, t, userId, raw)
         == Turn(d.(currentCategory := Some(Strip(raw))), AddQuestion, WithCategory(t, Strip(raw)),
                 [Message(CategoryCreated(Strip(raw)), CancelKeyboard)])
  {
    assert RouteOf(AddCategory, raw) == ToAddCategory;
  }

  /** In AddQuestion with a category remembered, any text other than
      /cancel is stored as a question of that category without an answer,
      remembered, and the state moves to AddAnswer. */
  lemma QuestionStep(d: UserData, t: Tables, userId: int, raw: string)
    requires !IsCommand(raw) && Strip(raw) != CancelCommand && Truthy(d.currentCategory)
    ensures Step(d, AddQuestion, t, userId, raw)
         == Turn(d.(currentQuestion := Some(Strip(raw))), AddAnswer,
                 WithQuestion(t, d.currentCategory.value, Strip(raw), None),
                 [Message(QuestionAdded(Strip(raw)), CancelKeyboard)])
  {
    assert RouteOf(AddQuestion, raw) == ToAddQuestion;
  }

  /** In AddAnswer with a category and a question remembered, any text
      other than /cancel is stored as the answer of that question and the
      state returns to AddQuestion, keeping both. */
  lemma AnswerStep(d: UserData, t: Tables, userId: int, raw: string)
    requires !IsCommand(raw) && Strip(raw) != CancelCommand
    requires Truthy(d.currentCategory) && Truthy(d.currentQuestion)
    ensures Step(d, AddAnswer, t, userId, raw)
         == Turn(d, AddQuestion, WithAnswer(t, d.currentCategory.value, d.currentQuestion.value, Strip(raw)),
                 [Message(AnswerAdded(Strip(raw)), CancelKeyboard)])
  {
    assert RouteOf(AddAnswer, raw) == ToAddAnswer;
  }

  /** Category, question and answer sent in turn from AddCategory: the
      store then lists the question with that answer last in the category,
      user_data remembers both, and the conversation is back in AddQuestion
      ready for the next question. */
  lemma AdminFlowStoresAnswer(d: UserData, t: Tables, userId: int, category: string, question: string, answer: string)
    requires WellFormed(t)
    requires !IsCommand(category) && !IsCommand(question) && !IsCommand(answer)
    requires Strip(category) !in {"", CancelCommand}
    requires Strip(question) !in {"", CancelCommand}
    requires Strip(answer) != CancelCommand
    ensures
      var s1 := Step(d, AddCategory, t, userId, category);
      var s2 := Step(s1.data, s1.conversation, s1.tables, userId, question);
      var s3 := Step(s2.data, s2.conversation, s2.tables, userId, answer);
      var rs := GetQuestionsByCategory(s3.tables, Strip(category));
      && s1.conversation == AddQuestion && s2.conversation == AddAnswer && s3.conversation == AddQuestion
      && s3.data == UserData(Some(Strip(category)), Some(Strip(question)))
      && |rs| > 0 && rs[|rs| - 1] == Record(Strip(question), Some(Strip(answer)))
  {
    var c, q, a := Strip(category), Strip(question), Strip(answer);
    CategoryStep(d, t, userId, category);
    var s1 := Step(d, AddCategory, t, userId, category);
    QuestionStep(s1.data, s1.tables, userId, question);
    var s2 := Step(s1.data, s1.conversation, s1.tables, userId, question);
    assert s2.tables == WithQuestion(WithCategory(t, c), c, q, None);
    AnswerStep(s2.data, s2.tables, userId, answer);
    AddThenAnswerRoundTrip(t, c, q, a);
  }

  // ---------------------------------------------------------------------
  // Invariants over whole runs

  /** No message breaks the store's constraints, and no message changes
      the admins table. */
  lemma StepKeepsWellFormed(d: UserData, conversation: AdminState, t: Tables, userId: int, raw: string)
    requires WellFormed(t)
    ensures WellFormed(Step(d, conversation, t, userId, raw).tables)
    ensures Step(d, conversation, t, userId, raw).tables.admins == t.admins
  {
    var text := Strip(raw);
    var s := Step(d, conversation, t, userId, raw);
    match RouteOf(conversation, raw)
    case ToAddCategory =>
      assert s == Finish(OnAddCategory(d, t, raw));
      if text != CancelCommand {
        assert s.tables == WithCategory(t, text);
        WithCategoryKeepsWellFormed(t, text);
      }
    case ToAddQuestion =>
      assert s == Finish(OnAddQuestion(d, t, raw));
      if text != CancelCommand && Truthy(d.currentCategory) {
        assert s.tables == WithQuestion(t, d.currentCategory.value, text, None);
        WithQuestionKeepsWellFormed(t, d.currentCategory.value, text, None);
      }
    case ToAddAnswer =>
      assert s == Finish(OnAddAnswer(d, t, raw));
      if text != CancelCommand && Truthy(d.currentCategory) && Truthy(d.currentQuestion) {
        assert s.tables == WithAnswer(t, d.currentCategory.value, d.currentQuestion.value, text);
        WithAnswerKeepsWellFormed(t, d.currentCategory.value, d.currentQuestion.value, text);
      }
    case ToAdminPanel =>
      assert s == Finish(OnAdmin(d, t, userId));
    case ToCancel =>
      assert s == Finish(OnCancel(d, t));
    case _ =>
      assert s.tables == t;
  }

  /** Only the admin conversation's handlers write to the store. */
  lemma OnlyConversationWrites(d: UserData, conversation: AdminState, t: Tables, userId: int, raw: string)
    requires conversation == End
    ensures Step(d, conversation, t, userId, raw).tables == t
  {
  }

  /** Outside the conversation, a message from a user who is not an admin
      leaves the conversation and the store as they were. */
  lemma NonAdminStep(d: UserData, t: Tables, userId: int, raw: string)
    requires !IsAdmin(t, userId)
    ensures Step(d, End, t, userId, raw).conversation == End
    ensures Step(d, End, t, userId, raw).tables == t
  {
    var s := Step(d, End, t, userId, raw);
    match RouteOf(End, raw)
    case ToAdminPanel =>
      assert s == Finish(OnAdmin(d, t, userId));
    case ToStart =>
    case ToBack =>
    case ToCategory =>
    case Unhandled =>
  }

  /** A user who is not an admin never enters the conversation and never
      changes the store, whatever they send. */
  lemma {:induction false} NonAdminNeverWrites(d: UserData, t: Tables, userId: int, texts: seq<string>)
    requires !IsAdmin(t, userId)
    ensures Run(d, End, t, userId, texts).conversation == End
    ensures Run(d, End, t, userId, texts).tables == t
  {
    if texts != [] {
      NonAdminNeverWrites(d, t, userId, texts[..|texts| - 1]);
      var before := Run(d, End, t, userId, texts[..|texts| - 1]);
      NonAdminStep(before.data, t, userId, texts[|texts| - 1]);
    }
  }

  /** Starting from well-formed tables, the store stays well-formed through
      any run of messages. */
  lemma {:induction false} RunKeepsWellFormed(d: UserData, conversation: AdminState, t: Tables, userId: int, texts: seq<string>)
    requires WellFormed(t)
    ensures WellFormed(Run(d, conversation, t, userId, texts).tables)
  {
    if texts != [] {
      var init := texts[..|texts| - 1];
      RunKeepsWellFormed(d, conversation, t, userId, init);
      var before := Run(d, conversation, t, userId, init);
      StepKeepsWellFormed(before.data, before.conversation, before.tables, userId, texts[|texts| - 1]);
    }
  }
}
