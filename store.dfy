/**
 * The question store of database.py: three SQLite tables (categories,
 * questions, admins) held in memory.
 *
 * `Tables` is the value of the whole database and the `With*` functions are
 * the effect of each INSERT or UPDATE statement on it; the class `Database`
 * keeps the tables in fields and its methods, proved against those
 * functions, update the fields in place. The read-only queries are functions
 * of a `Tables` value.
 */
module Store {
  import opened Wrappers

  /** A row of `categories`: AUTOINCREMENT id and a UNIQUE, NOT NULL name. */
  datatype Category = Category(id: nat, name: string)

  /** A row of `questions`; `answer` is NULL until an answer is stored. */
  datatype Question = Question(id: nat, categoryId: nat, text: string, answer: Option<string>)

  /** One element of the list built by get_questions_by_category: the
      dictionary with the keys 'вопрос' (question) and 'ответ' (answer).
      Both keys are always present; a NULL answer is carried as None. */
  datatype Record = Record(question: string, answer: Option<string>)

  /** The three tables and the two AUTOINCREMENT counters. */
  datatype Tables = Tables(
    categories: seq<Category>,
    questions: seq<Question>,
    admins: set<int>,
    nextCategoryId: nat,
    nextQuestionId: nat)

  /** What init_db creates: empty tables, counters that start at 1. */
  const Empty: Tables := Tables([], [], {}, 1, 1)

  predicate HasCategoryId(cats: seq<Category>, id: nat) {
    exists k | 0 <= k < |cats| :: cats[k].id == id
  }

  /** The schema's constraints: primary keys handed out in increasing order
      and below their counter, UNIQUE category names, and every question's
      category_id referring to an existing category (the FOREIGN KEY). */
  ghost predicate WellFormed(t: Tables) {
    && (forall i, j | 0 <= i < j < |t.categories| :: t.categories[i].id < t.categories[j].id)
    && (forall i | 0 <= i < |t.categories| :: t.categories[i].id < t.nextCategoryId)
    && (forall i, j | 0 <= i < j < |t.categories| :: t.categories[i].name != t.categories[j].name)
    && (forall i, j | 0 <= i < j < |t.questions| :: t.questions[i].id < t.questions[j].id)
    && (forall i | 0 <= i < |t.questions| :: t.questions[i].id < t.nextQuestionId)
    && (forall i | 0 <= i < |t.questions| :: HasCategoryId(t.categories, t.questions[i].categoryId))
  }

  /** The `name` column, in row order. */
  function Names(cats: seq<Category>): (names: seq<string>)
    ensures |names| == |cats|
    ensures forall i | 0 <= i < |cats| :: names[i] == cats[i].name
  {
    if cats == [] then [] else Names(cats[..|cats| - 1]) + [cats[|cats| - 1].name]
  }

  /** `SELECT id FROM categories WHERE name = ?` and `fetchone()`: the
      position of the first row with that name, or None when there is none. */
  function FindCategory(cats: seq<Category>, name: string): (r: Option<nat>)
    ensures r.Some? ==> r.value < |cats| && cats[r.value].name == name
    ensures r.Some? ==> forall k | 0 <= k < r.value :: cats[k].name != name
    ensures r.None? ==> forall k | 0 <= k < |cats| :: cats[k].name != name
  {
    if cats == [] then None
    else if cats[0].name == name then Some(0)
    else match FindCategory(cats[1..], name)
      case None => None
      case Some(k) => Some(k + 1)
  }

  function RecordOf(q: Question): Record {
    Record(q.text, q.answer)
  }

  /** The records of the rows whose category_id is `id`, in row order. */
  function RecordsOf(qs: seq<Question>, id: nat): (r: seq<Record>)
    ensures |r| <= |qs|
  {
    if qs == [] then []
    else RecordsOf(qs[..|qs| - 1], id) + (if qs[|qs| - 1].categoryId == id then [RecordOf(qs[|qs| - 1])] else [])
  }

  /** The records of a category id are exactly the records of the rows
      carrying that id. */
  lemma {:induction false} RecordsOfMembers(qs: seq<Question>, id: nat, x: Record)
    ensures x in RecordsOf(qs, id) <==> exists i | 0 <= i < |qs| :: qs[i].categoryId == id && RecordOf(qs[i]) == x
  {
    if qs != [] {
      var init := qs[..|qs| - 1];
      RecordsOfMembers(init, id, x);
      if x in RecordsOf(init, id) {
        var i :| 0 <= i < |init| && init[i].categoryId == id && RecordOf(init[i]) == x;
        assert qs[i] == init[i];
      }
      if exists i | 0 <= i < |qs| :: qs[i].categoryId == id && RecordOf(qs[i]) == x {
        var i :| 0 <= i < |qs| && qs[i].categoryId == id && RecordOf(qs[i]) == x;
        if i < |init| {
          assert init[i] == qs[i];
        }
      }
    }
  }

  /** `UPDATE questions SET answer = ? WHERE category_id = id AND question = ?`
      over a sequence of rows. */
  function Rewrite(qs: seq<Question>, id: nat, text: string, answer: string): (r: seq<Question>)
    ensures |r| == |qs|
    ensures forall i | 0 <= i < |qs| ::
      r[i].id == qs[i].id && r[i].categoryId == qs[i].categoryId && r[i].text == qs[i].text &&
      r[i].answer == (if qs[i].categoryId == id && qs[i].text == text then Some(answer) else qs[i].answer)
  {
    if qs == [] then []
    else
      var q := qs[|qs| - 1];
      Rewrite(qs[..|qs| - 1], id, text, answer)
        + [if q.categoryId == id && q.text == text then q.(answer := Some(answer)) else q]
  }

  /** The same UPDATE seen through the records of one category: every record
      whose question is `text` gets `answer`. */
  function Reanswer(rs: seq<Record>, text: string, answer: string): (r: seq<Record>)
    ensures |r| == |rs|
    ensures forall i | 0 <= i < |rs| ::
      r[i] == if rs[i].question == text then Record(text, Some(answer)) else rs[i]
  {
    if rs == [] then []
    else
      var x := rs[|rs| - 1];
      Reanswer(rs[..|rs| - 1], text, answer)
        + [if x.question == text then Record(text, Some(answer)) else x]
  }

  // ---------------------------------------------------------------------
  // Statements that change the tables

  /** add_category: `INSERT INTO categories (name)`; an IntegrityError on the
      UNIQUE name is swallowed, so a duplicate leaves the tables as they are. */
  function WithCategory(t: Tables, name: string): Tables {
    if name in Names(t.categories) then t
    else t.(categories := t.categories + [Category(t.nextCategoryId, name)],
            nextCategoryId := t.nextCategoryId + 1)
  }

  /** add_question: look up the category's id; insert a row only when it
      was found. */
  function WithQuestion(t: Tables, categoryName: string, text: string, answer: Option<string>): Tables {
    match FindCategory(t.categories, categoryName)
    case None => t
    case Some(k) =>
      t.(questions := t.questions + [Question(t.nextQuestionId, t.categories[k].id, text, answer)],
         nextQuestionId := t.nextQuestionId + 1)
  }

  /** update_answer: the subquery for the category's id is NULL when the
      category is missing, and then no row matches. */
  function WithAnswer(t: Tables, categoryName: string, text: string, answer: string): Tables {
    match FindCategory(t.categories, categoryName)
    case None => t
    case Some(k) => t.(questions := Rewrite(t.questions, t.categories[k].id, text, answer))
  }

  /** add_admin: `INSERT INTO admins (id)`; a duplicate primary key is
      swallowed. */
  function WithAdmin(t: Tables, id: int): Tables {
    t.(admins := t.admins + {id})
  }

  // ---------------------------------------------------------------------
  // Read-only queries

  /** get_categories: `SELECT name FROM categories`, in insertion order. */
  function GetCategories(t: Tables): (names: seq<string>)
    ensures |names| == |t.categories|
    ensures forall k | 0 <= k < |t.categories| :: names[k] == t.categories[k].name
    ensures WellFormed(t) ==> forall i, j | 0 <= i < j < |names| :: names[i] != names[j]
  {
    Names(t.categories)
  }

  /** A name is listed by get_categories iff the lookup by name finds it. */
  lemma CategoryListed(t: Tables, name: string)
    ensures name in GetCategories(t) <==> FindCategory(t.categories, name).Some?
  {
    var names := GetCategories(t);
    if name in names {
      var k :| 0 <= k < |names| && names[k] == name;
      assert t.categories[k].name == name;
    }
    if FindCategory(t.categories, name).Some? {
      assert names[FindCategory(t.categories, name).value] == name;
    }
  }

  /** get_questions_by_category: the questions joined with their category,
      restricted to the category named `name`, in insertion order. Empty
      both for an unknown category and for a category without questions. */
  function GetQuestionsByCategory(t: Tables, name: string): seq<Record> {
    match FindCategory(t.categories, name)
    case None => []
    case Some(k) => RecordsOf(t.questions, t.categories[k].id)
  }

  /** is_admin: `SELECT id FROM admins WHERE id = ?` found a row. */
  predicate IsAdmin(t: Tables, id: int) {
    id in t.admins
  }

  // ---------------------------------------------------------------------
  // The tables as the program holds them

  /** The SQLite file: each table is a field that the statements reassign. */
  class Database {
    var categories: seq<Category>
    var questions: seq<Question>
    var admins: set<int>
    var nextCategoryId: nat
    var nextQuestionId: nat

    function Snapshot(): Tables
      reads this
    {
      Tables(categories, questions, admins, nextCategoryId, nextQuestionId)
    }

    ghost predicate Valid()
      reads this
    {
      WellFormed(Snapshot())
    }

    /** init_db on a new database file. */
    constructor ()
      ensures Valid() && Snapshot() == Empty
    {
      categories, questions, admins := [], [], {};
      nextCategoryId, nextQuestionId := 1, 1;
    }

    method AddCategory(name: string)
      requires Valid()
      modifies this
      ensures Valid()
      ensures Snapshot() == WithCategory(old(Snapshot()), name)
    {
      ghost var before := Snapshot();
      if name !in Names(categories) {
        categories := categories + [Category(nextCategoryId, name)];
        nextCategoryId := nextCategoryId + 1;
      }
      WithCategoryKeepsWellFormed(before, name);
    }

    method AddQuestion(categoryName: string, text: string, answer: Option<string>)
      requires Valid()
      modifies this
      ensures Valid()
      ensures Snapshot() == WithQuestion(old(Snapshot()), categoryName, text, answer)
    {
      ghost var before := Snapshot();
      var found := FindCategory(categories, categoryName);
      if found.Some? {
        questions := questions + [Question(nextQuestionId, categories[found.value].id, text, answer)];
        nextQuestionId := nextQuestionId + 1;
      }
      WithQuestionKeepsWellFormed(before, categoryName, text, answer);
    }

    method UpdateAnswer(categoryName: string, text: string, answer: string)
      requires Valid()
      modifies this
      ensures Valid()
      ensures Snapshot() == WithAnswer(old(Snapshot()), categoryName, text, answer)
    {
      ghost var before := Snapshot();
      var found := FindCategory(categories, categoryName);
      if found.Some? {
        questions := Rewrite(questions, categories[found.value].id, text, answer);
      }
      WithAnswerKeepsWellFormed(before, categoryName, text, answer);
    }

    method AddAdmin(id: int)
      requires Valid()
      modifies this
      ensures Valid()
      ensures Snapshot() == WithAdmin(old(Snapshot()), id)
    {
      admins := admins + {id};
    }
  }

  // ---------------------------------------------------------------------
  // The schema's constraints hold after every statement

  lemma WithCategoryKeepsWellFormed(t: Tables, name: string)
    requires WellFormed(t)
    ensures WellFormed(WithCategory(t, name))
  {
    var t' := WithCategory(t, name);
    if name !in Names(t.categories) {
      forall i | 0 <= i < |t.questions|
        ensures HasCategoryId(t'.categories, t'.questions[i].categoryId)
      {
        var k :| 0 <= k < |t.categories| && t.categories[k].id == t.questions[i].categoryId;
        assert t'.categories[k] == t.categories[k];
      }
    }
  }

  lemma WithQuestionKeepsWellFormed(t: Tables, categoryName: string, text: string, answer: Option<string>)
    requires WellFormed(t)
    ensures WellFormed(WithQuestion(t, categoryName, text, answer))
  {
  }

  lemma WithAnswerKeepsWellFormed(t: Tables, categoryName: string, text: string, answer: string)
    requires WellFormed(t)
    ensures WellFormed(WithAnswer(t, categoryName, text, answer))
  {
  }
}
