/**
 * End-to-end runs of the bot: an admin creates category "Test" with
 * question "Q1?" and answer "A1"; then another user opens "Test", picks
 * question 1, and picks 7, which is out of range. The lemmas follow the
 * run one message at a time; the method plays it through the `Database`
 * and `Session` objects.
 */
module Scenarios {
  import opened Wrappers
  import opened Text
  import opened Store
  import opened Dialogue
  import opened DialogueProperties

  function Seeded(adminId: int): Tables { Tables([], [], {adminId}, 1, 1) }
  function WithTest(adminId: int): Tables { Tables([Category(1, "Test")], [], {adminId}, 2, 1) }
  function WithQ1(adminId: int): Tables { Tables([Category(1, "Test")], [Question(1, 1, "Q1?", None)], {adminId}, 2, 2) }
  function WithA1(adminId: int): Tables { Tables([Category(1, "Test")], [Question(1, 1, "Q1?", Some("A1"))], {adminId}, 2, 2) }

  lemma AdminOpensPanel(adminId: int)
    ensures Step(NoUserData, End, Seeded(adminId), adminId, AdminCommand)
         == Turn(NoUserData, AddCategory, Seeded(adminId), [Message(AdminWelcome, CancelKeyboard)])
  {
    AdminCommandIsOneWord();
    AdminEntry(NoUserData, Seeded(adminId), adminId, AdminCommand);
  }

  lemma AdminCommandIsOneWord()
    ensures FirstWord(AdminCommand) == AdminCommand
  {
    FirstWordOfUnspaced(AdminCommand);
  }

  lemma AdminSendsCategory(adminId: int)
    ensures Step(NoUserData, AddCategory, Seeded(adminId), adminId, "Test")
         == Turn(UserData(Some("Test"), None), AddQuestion, WithTest(adminId),
                 [Message(CategoryCreated("Test"), CancelKeyboard)])
  {
    StripOfUnspaced("Test");
    assert "Test" != CancelCommand;
    CategoryStep(NoUserData, Seeded(adminId), adminId, "Test");
    assert Names(Seeded(adminId).categories) == [];
  }

  lemma AdminSendsQuestion(adminId: int)
    ensures Step(UserData(Some("Test"), None), AddQuestion, WithTest(adminId), adminId, "Q1?")
         == Turn(UserData(Some("Test"), Some("Q1?")), AddAnswer, WithQ1(adminId),
                 [Message(QuestionAdded("Q1?"), CancelKeyboard)])
  {
    StripOfUnspaced("Q1?");
    assert "Q1?" != CancelCommand;
    QuestionStep(UserData(Some("Test"), None), WithTest(adminId), adminId, "Q1?");
    assert FindCategory(WithTest(adminId).categories, "Test") == Some(0);
  }

  lemma AdminSendsAnswer(adminId: int)
    ensures Step(UserData(Some("Test"), Some("Q1?")), AddAnswer, WithQ1(adminId), adminId, "A1")
         == Turn(UserData(Some("Test"), Some("Q1?")), AddQuestion, WithA1(adminId),
                 [Message(AnswerAdded("A1"), CancelKeyboard)])
  {
    StripOfUnspaced("A1");
    assert "A1" != CancelCommand;
    AnswerStep(UserData(Some("Test"), Some("Q1?")), WithQ1(adminId), adminId, "A1");
    var t := WithQ1(adminId);
    assert FindCategory(t.categories, "Test") == Some(0);
    assert t.questions[..0] == [];
    assert Rewrite(t.questions, 1, "Q1?", "A1") == WithA1(adminId).questions;
  }

  lemma StoredRecords(adminId: int)
    ensures GetQuestionsByCategory(WithA1(adminId), "Test") == [Record("Q1?", Some("A1"))]
  {
    assert FindCategory(WithA1(adminId).categories, "Test") == Some(0);
    var qs := WithA1(adminId).questions;
    assert qs[..0] == [];
  }

  /** The listing of a category holding only "Q1?". */
  lemma OneQuestionListing()
    ensures NumberedLines([Record("Q1?", Some("A1"))]) == ["1. Q1?"]
    ensures QuestionKeyboard(1) == Buttons(["1", Back])
  {
    var one := NatToString(1);
    assert one == "1" by {
      assert one == [DigitChar(1)];
    }
    var lines := NumberedLines([Record("Q1?", Some("A1"))]);
    assert |lines| == 1;
    assert lines[0] == one + ". " + "Q1?";
    assert one + ". " + "Q1?" == "1. Q1?";
    assert lines == [lines[0]];
    var k := QuestionKeyboard(1);
    assert k.choices[0] == one;
    assert k.choices == [k.choices[0], k.choices[1]];
  }

  /** The user-side steps hold on any tables whose one category is "Test"
      holding only ("Q1?", "A1"), such as WithA1. */
  predicate Answered(t: Tables) {
    && GetCategories(t) == ["Test"]
    && GetQuestionsByCategory(t, "Test") == [Record("Q1?", Some("A1"))]
  }

  lemma AnsweredAfterAdmin(adminId: int)
    ensures Answered(WithA1(adminId))
  {
    StoredRecords(adminId);
    var t := WithA1(adminId);
    assert t.categories[..0] == [];
  }

  lemma UserOpensCategory(t: Tables, userId: int)
    requires Answered(t)
    ensures Step(NoUserData, End, t, userId, "Test")
         == Turn(UserData(Some("Test"), None), End, t,
                 [Message(QuestionList("Test", ["1. Q1?"]), Buttons(["1", Back]))])
  {
    StripOfUnspaced("Test");
    OneQuestionListing();
    assert "Test" != Back by {
      assert "Test"[0] != Back[0];
    }
    assert "Test" in GetCategories(t);
    assert !IsCommand("Test");
    assert !IsDigits("Test") by {
      assert !IsDigit("Test"[0]);
    }
    CategorySelection(NoUserData, t, userId, "Test");
  }

  /** The reply to button 1 under the listing of "Test". */
  const PickedFirst: seq<Message> :=
    [Message(QuestionAndAnswer("Q1?", Some("A1")), KeepKeyboard),
     Message(QuestionList("Test", ["1. Q1?"]), Buttons(["1", Back]))]

  lemma UserPicksFirst(t: Tables, userId: int)
    requires Answered(t)
    ensures Step(UserData(Some("Test"), None), End, t, userId, "1")
         == Turn(UserData(Some("Test"), None), End, t, PickedFirst)
  {
    OneQuestionListing();
    NumberButtonSelectsQuestion(UserData(Some("Test"), None), t, userId, 0);
  }

  lemma UserPicksSeventh(t: Tables, userId: int)
    requires Answered(t)
    ensures Step(UserData(Some("Test"), None), End, t, userId, "7")
         == Turn(UserData(Some("Test"), None), End, t, [Message(WrongNumber, Buttons(["Test", Back]))])
  {
    StripOfUnspaced("7");
    assert IsDigits("7") && DigitsValue("7") == 7 by {
      assert "7"[..0] == [];
    }
    var d := UserData(Some("Test"), None);
    NumberReachesQuestionHandler(d, t, userId, "7");
    NumberSelection(d, t, "7");
    assert CategoryKeyboard(t) == Buttons(["Test", Back]);
  }

  /** One message sent to a session whose outcome is already known. */
  method Send(s: Session, db: Database, raw: string, ghost expected: Turn) returns (reply: seq<Message>)
    requires db.Valid()
    requires Step(s.Data(), s.conversation, db.Snapshot(), s.userId, raw) == expected
    modifies s, db
    ensures db.Valid()
    ensures s.Data() == expected.data && s.conversation == expected.conversation
    ensures db.Snapshot() == expected.tables && reply == expected.reply
  {
    reply := s.Dispatch(db, raw);
  }

  /** The admin's part of the run, played through the objects. */
  method AdminAddsQuestion(db: Database, admin: Session)
    requires db.Valid() && db.Snapshot() == Seeded(admin.userId)
    requires admin.Data() == NoUserData && admin.conversation == End
    modifies db, admin
    ensures db.Valid() && db.Snapshot() == WithA1(admin.userId)
  {
    var id := admin.userId;
    AdminOpensPanel(id);
    var reply := Send(admin, db, AdminCommand,
      Turn(NoUserData, AddCategory, Seeded(id), [Message(AdminWelcome, CancelKeyboard)]));
    AdminSendsCategory(id);
    reply := Send(admin, db, "Test",
      Turn(UserData(Some("Test"), None), AddQuestion, WithTest(id), [Message(CategoryCreated("Test"), CancelKeyboard)]));
    AdminSendsQuestion(id);
    reply := Send(admin, db, "Q1?",
      Turn(UserData(Some("Test"), Some("Q1?")), AddAnswer, WithQ1(id), [Message(QuestionAdded("Q1?"), CancelKeyboard)]));
    AdminSendsAnswer(id);
    reply := Send(admin, db, "A1",
      Turn(UserData(Some("Test"), Some("Q1?")), AddQuestion, WithA1(id), [Message(AnswerAdded("A1"), CancelKeyboard)]));
  }

  /** The other user's part of the run, played through the objects. */
  method UserBrowses(db: Database, user: Session)
    returns (listing: seq<Message>, picked: seq<Message>, outOfRange: seq<Message>)
    requires db.Valid() && Answered(db.Snapshot())
    requires user.Data() == NoUserData && user.conversation == End
    modifies db, user
    ensures listing == [Message(QuestionList("Test", ["1. Q1?"]), Buttons(["1", Back]))]
    ensures picked == PickedFirst
    ensures outOfRange == [Message(WrongNumber, Buttons(["Test", Back]))]
    ensures user.currentCategory == Some("Test")
  {
    ghost var t := db.Snapshot();
    UserOpensCategory(t, user.userId);
    listing := Send(user, db, "Test",
      Turn(UserData(Some("Test"), None), End, t, [Message(QuestionList("Test", ["1. Q1?"]), Buttons(["1", Back]))]));
    UserPicksFirst(t, user.userId);
    picked := Send(user, db, "1", Turn(UserData(Some("Test"), None), End, t, PickedFirst));
    UserPicksSeventh(t, user.userId);
    outOfRange := Send(user, db, "7",
      Turn(UserData(Some("Test"), None), End, t, [Message(WrongNumber, Buttons(["Test", Back]))]));
  }

  /** The run above, played through the objects of the program: a fresh
      database with one admin, the admin's four messages, then another
      user's three. */
  method AdminThenUser(adminId: int)
    returns (stored: seq<Record>, listing: seq<Message>, picked: seq<Message>, outOfRange: seq<Message>, userCategory: Option<string>)
    ensures stored == [Record("Q1?", Some("A1"))]
    ensures listing == [Message(QuestionList("Test", ["1. Q1?"]), Buttons(["1", Back]))]
    ensures picked == PickedFirst
    ensures outOfRange == [Message(WrongNumber, Buttons(["Test", Back]))]
    ensures userCategory == Some("Test")
  {
    var db := new Database();
    db.AddAdmin(adminId);
    var admin := new Session(adminId);
    AdminAddsQuestion(db, admin);
    AnsweredAfterAdmin(adminId);
    stored := GetQuestionsByCategory(db.Snapshot(), "Test");
    var user := new Session(adminId + 1);
    listing, picked, outOfRange := UserBrowses(db, user);
    userCategory := user.currentCategory;
  }
}
