/**
 * What the statements of database.py guarantee, stated over the `Tables`
 * value: insertion is idempotent, question inserts and answer updates touch
 * exactly the rows they should, and the query returns the join it claims.
 */
module StoreProperties {
  import opened Wrappers
  import opened Store

  /** How many times `x` occurs in `s`. */
  function Occurrences(s: seq<string>, x: string): nat {
    if s == [] then 0
    else Occurrences(s[..|s| - 1], x) + (if s[|s| - 1] == x then 1 else 0)
  }

  lemma {:induction false} OccurrencesOfAbsent(s: seq<string>, x: string)
    requires x !in s
    ensures Occurrences(s, x) == 0
  {
    if s != [] {
      assert forall y | y in s[..|s| - 1] :: y in s;
      OccurrencesOfAbsent(s[..|s| - 1], x);
    }
  }

  /** In a sequence without duplicates, every element occurs exactly once. */
  lemma {:induction false} DistinctOccursOnce(s: seq<string>, x: string)
    requires forall i, j | 0 <= i < j < |s| :: s[i] != s[j]
    requires x in s
    ensures Occurrences(s, x) == 1
  {
    var init := s[..|s| - 1];
    if s[|s| - 1] == x {
      assert x !in init by {
        forall i | 0 <= i < |init| ensures init[i] != x {
          assert init[i] == s[i];
        }
      }
      OccurrencesOfAbsent(init, x);
    } else {
      assert x in init by {
        var i :| 0 <= i < |s| && s[i] == x;
        assert init[i] == x;
      }
      DistinctOccursOnce(init, x);
    }
  }

  // ---------------------------------------------------------------------
  // add_category

  /** A second add_category with the same name changes nothing, and the name
      is listed after the first. */
  lemma AddCategoryIdempotent(t: Tables, name: string)
    ensures name in GetCategories(WithCategory(t, name))
    ensures WithCategory(WithCategory(t, name), name) == WithCategory(t, name)
  {
    var t' := WithCategory(t, name);
    assert t'.categories[|t'.categories| - 1].name == name || name in Names(t.categories);
  }

  /** After add_category(name), get_categories lists `name` exactly once,
      whether or not it was there before. */
  lemma CategoryListedOnce(t: Tables, name: string)
    requires WellFormed(t)
    ensures Occurrences(GetCategories(WithCategory(t, name)), name) == 1
  {
    WithCategoryKeepsWellFormed(t, name);
    AddCategoryIdempotent(t, name);
    DistinctOccursOnce(GetCategories(WithCategory(t, name)), name);
  }

  // ---------------------------------------------------------------------
  // The join of get_questions_by_category, written literally

  /** The question row belongs to a category row named `name` (the join
      condition `q.category_id = c.id AND c.name = ?`). */
  predicate InCategory(cats: seq<Category>, q: Question, name: string) {
    exists k | 0 <= k < |cats| :: cats[k].id == q.categoryId && cats[k].name == name
  }

  /** The rows of the join, in question-row order. */
  function Joined(cats: seq<Category>, qs: seq<Question>, name: string): seq<Record> {
    if qs == [] then []
    else
      Joined(cats, qs[..|qs| - 1], name)
        + (if InCategory(cats, qs[|qs| - 1], name) then [RecordOf(qs[|qs| - 1])] else [])
  }

  /** With unique ids and names, the row found by name is the only one a
      question of that category can join with. */
  lemma InCategoryIsFoundId(t: Tables, name: string, k: nat, q: Question)
    requires WellFormed(t)
    requires FindCategory(t.categories, name) == Some(k)
    ensures InCategory(t.categories, q, name) <==> q.categoryId == t.categories[k].id
  {
    if InCategory(t.categories, q, name) {
      var j :| 0 <= j < |t.categories| && t.categories[j].id == q.categoryId && t.categories[j].name == name;
      assert j == k;
    }
  }

  lemma {:induction false} JoinedByFoundId(t: Tables, qs: seq<Question>, name: string, k: nat)
    requires WellFormed(t)
    requires FindCategory(t.categories, name) == Some(k)
    ensures Joined(t.categories, qs, name) == RecordsOf(qs, t.categories[k].id)
  {
    if qs != [] {
      JoinedByFoundId(t, qs[..|qs| - 1], name, k);
      InCategoryIsFoundId(t, name, k, qs[|qs| - 1]);
    }
  }

  lemma {:induction false} JoinedOfMissing(cats: seq<Category>, qs: seq<Question>, name: string)
    requires FindCategory(cats, name).None?
    ensures Joined(cats, qs, name) == []
  {
    if qs != [] {
      JoinedOfMissing(cats, qs[..|qs| - 1], name);
    }
  }

  /** get_questions_by_category returns exactly the joined rows of the
      category, in insertion order; for an unknown category, nothing. */
  lemma QuestionsAreTheJoin(t: Tables, name: string)
    requires WellFormed(t)
    ensures GetQuestionsByCategory(t, name) == Joined(t.categories, t.questions, name)
    ensures name !in GetCategories(t) ==> GetQuestionsByCategory(t, name) == []
  {
    match FindCategory(t.categories, name)
    case None => JoinedOfMissing(t.categories, t.questions, name);
    case Some(k) => JoinedByFoundId(t, t.questions, name, k);
  }

  // ---------------------------------------------------------------------
  // add_question

  /** On an existing category, add_question appends one row carrying that
      category's id, the question and the answer, and changes nothing else;
      on an unknown category it changes nothing. */
  lemma AddQuestionEffect(t: Tables, name: string, text: string, answer: Option<string>)
    requires WellFormed(t)
    ensures name !in GetCategories(t) ==> WithQuestion(t, name, text, answer) == t
    ensures name in GetCategories(t) ==>
      var t' := WithQuestion(t, name, text, answer);
      && t'.categories == t.categories && t'.admins == t.admins
      && |t'.questions| == |t.questions| + 1
      && t'.questions[..|t.questions|] == t.questions
      && var row := t'.questions[|t.questions|];
         row.text == text && row.answer == answer && InCategory(t.categories, row, name)
  {
  }

  /** add_question(name, text, answer) adds the record (text, answer) at the
      end of name's questions and leaves every other category's questions
      as they were. */
  lemma QuestionsAfterAdd(t: Tables, name: string, text: string, answer: Option<string>, other: string)
    requires WellFormed(t)
    ensures GetQuestionsByCategory(WithQuestion(t, name, text, answer), other)
         == GetQuestionsByCategory(t, other)
            + (if other == name && name in GetCategories(t) then [Record(text, answer)] else [])
  {
    var t' := WithQuestion(t, name, text, answer);
    match FindCategory(t.categories, name)
    case None =>
    case Some(k) =>
      var row := t'.questions[|t.questions|];
      assert t'.questions[..|t'.questions| - 1] == t.questions;
      match FindCategory(t.categories, other)
      case None =>
      case Some(j) =>
        assert (t.categories[j].id == row.categoryId) <==> j == k;
  }

  // ---------------------------------------------------------------------
  // update_answer

  /** update_answer(name, text, answer) sets `answer` on every row of the
      category `name` whose question is `text`, and on no other row; when
      the category does not exist nothing changes. */
  lemma UpdateAnswerEffect(t: Tables, name: string, text: string, answer: string)
    requires WellFormed(t)
    ensures name !in GetCategories(t) ==> WithAnswer(t, name, text, answer) == t
    ensures var t' := WithAnswer(t, name, text, answer);
      && t'.categories == t.categories && t'.admins == t.admins
      && |t'.questions| == |t.questions|
      && forall i | 0 <= i < |t.questions| ::
           t'.questions[i] == if InCategory(t.categories, t.questions[i], name) && t.questions[i].text == text
                              then t.questions[i].(answer := Some(answer))
                              else t.questions[i]
  {
    var t' := WithAnswer(t, name, text, answer);
    match FindCategory(t.categories, name)
    case None =>
    case Some(k) =>
      forall i | 0 <= i < |t.questions|
        ensures t'.questions[i] == if InCategory(t.categories, t.questions[i], name) && t.questions[i].text == text
                                   then t.questions[i].(answer := Some(answer))
                                   else t.questions[i]
      {
        InCategoryIsFoundId(t, name, k, t.questions[i]);
      }
  }

  /** Reanswering one more record appends that record, reanswered. */
  lemma ReanswerAppend(rs: seq<Record>, x: Record, text: string, answer: string)
    ensures Reanswer(rs + [x], text, answer)
         == Reanswer(rs, text, answer) + [if x.question == text then Record(text, Some(answer)) else x]
  {
    assert (rs + [x])[..|rs|] == rs;
  }

  /** The records of one more row: those of the rows before, then that
      row's record if it carries the id. */
  lemma RecordsOfAppend(qs: seq<Question>, q: Question, id: nat)
    ensures RecordsOf(qs + [q], id) == RecordsOf(qs, id) + (if q.categoryId == id then [RecordOf(q)] else [])
  {
    assert (qs + [q])[..|qs|] == qs;
  }

  lemma {:induction false} RecordsOfRewrite(qs: seq<Question>, id: nat, text: string, answer: string, other: nat)
    ensures RecordsOf(Rewrite(qs, id, text, answer), other)
         == if other == id then Reanswer(RecordsOf(qs, id), text, answer) else RecordsOf(qs, other)
  {
    if qs != [] {
      var init := qs[..|qs| - 1];
      var q := qs[|qs| - 1];
      var q' := if q.categoryId == id && q.text == text then q.(answer := Some(answer)) else q;
      assert qs == init + [q];
      assert Rewrite(qs, id, text, answer) == Rewrite(init, id, text, answer) + [q'];
      RecordsOfRewrite(init, id, text, answer, other);
      RecordsOfAppend(Rewrite(init, id, text, answer), q', other);
      RecordsOfAppend(init, q, other);
      if other == id && q.categoryId == id {
        ReanswerAppend(RecordsOf(init, id), RecordOf(q), text, answer);
      }
    }
  }

  /** Seen through get_questions_by_category: after update_answer(name, text,
      answer), name's records whose question is `text` carry `answer`, the
      rest of name's records and every other category's are unchanged. */
  lemma AnswersAfterUpdate(t: Tables, name: string, text: string, answer: string, other: string)
    requires WellFormed(t)
    ensures GetQuestionsByCategory(WithAnswer(t, name, text, answer), other)
         == if other == name then Reanswer(GetQuestionsByCategory(t, name), text, answer)
            else GetQuestionsByCategory(t, other)
  {
    match FindCategory(t.categories, name)
    case None =>
      if other == name {
        assert GetQuestionsByCategory(t, name) == [];
      }
    case Some(k) =>
      match FindCategory(t.categories, other)
      case None =>
      case Some(j) =>
        RecordsOfRewrite(t.questions, t.categories[k].id, text, answer, t.categories[j].id);
        assert (t.categories[j].id == t.categories[k].id) <==> j == k;
  }

  /** add_category(c) then add_question(c, q): c's records end with q,
      still unanswered. */
  lemma AddedQuestionIsLast(t: Tables, c: string, q: string)
    requires WellFormed(t)
    ensures WellFormed(WithQuestion(WithCategory(t, c), c, q, None))
    ensures
      var rs := GetQuestionsByCategory(WithQuestion(WithCategory(t, c), c, q, None), c);
      |rs| > 0 && rs[|rs| - 1] == Record(q, None)
  {
    var t1 := WithCategory(t, c);
    WithCategoryKeepsWellFormed(t, c);
    AddCategoryIdempotent(t, c);
    QuestionsAfterAdd(t1, c, q, None, c);
    WithQuestionKeepsWellFormed(t1, c, q, None);
  }

  /** add_category(c), add_question(c, q), update_answer(c, q, a): the last of
      c's questions is then (q, a), and every question of c that reads q has
      the answer a. */
  lemma AddThenAnswerRoundTrip(t: Tables, c: string, q: string, a: string)
    requires WellFormed(t)
    ensures
      var t1 := WithCategory(t, c);
      var t2 := WithQuestion(t1, c, q, None);
      var rs := GetQuestionsByCategory(WithAnswer(t2, c, q, a), c);
      && |rs| > 0 && rs[|rs| - 1] == Record(q, Some(a))
      && forall i | 0 <= i < |rs| :: rs[i].question == q ==> rs[i].answer == Some(a)
  {
    var t2 := WithQuestion(WithCategory(t, c), c, q, None);
    AddedQuestionIsLast(t, c, q);
    AnswersAfterUpdate(t2, c, q, a, c);
  }
}
