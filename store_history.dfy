/**
 * Histories of calls into database.py: what the tables hold after any
 * sequence of add_category, add_question, update_answer and add_admin calls.
 */
module StoreHistory {
  import opened Wrappers
  import opened Store
  import opened StoreProperties

  /** One call into the store that writes. */
  datatype Call =
    | AddCategoryCall(name: string)
    | AddQuestionCall(category: string, text: string, answer: Option<string>)
    | UpdateAnswerCall(category: string, text: string, newAnswer: string)
    | AddAdminCall(id: int)

  function Apply(t: Tables, c: Call): Tables {
    match c
    case AddCategoryCall(name) => WithCategory(t, name)
    case AddQuestionCall(category, text, answer) => WithQuestion(t, category, text, answer)
    case UpdateAnswerCall(category, text, newAnswer) => WithAnswer(t, category, text, newAnswer)
    case AddAdminCall(id) => WithAdmin(t, id)
  }

  /** The tables after the calls, in order. */
  function Replay(t: Tables, calls: seq<Call>): Tables {
    if calls == [] then t else Apply(Replay(t, calls[..|calls| - 1]), calls[|calls| - 1])
  }

  lemma ApplyKeepsWellFormed(t: Tables, c: Call)
    requires WellFormed(t)
    ensures WellFormed(Apply(t, c))
  {
    match c
    case AddCategoryCall(name) => WithCategoryKeepsWellFormed(t, name);
    case AddQuestionCall(category, text, answer) => WithQuestionKeepsWellFormed(t, category, text, answer);
    case UpdateAnswerCall(category, text, newAnswer) => WithAnswerKeepsWellFormed(t, category, text, newAnswer);
    case AddAdminCall(id) =>
  }

  /** No history breaks the schema's constraints; in particular no question
      is ever left without its category. */
  lemma {:induction false} ReplayKeepsWellFormed(t: Tables, calls: seq<Call>)
    requires WellFormed(t)
    ensures WellFormed(Replay(t, calls))
    ensures forall q | q in Replay(t, calls).questions :: HasCategoryId(Replay(t, calls).categories, q.categoryId)
  {
    if calls != [] {
      ReplayKeepsWellFormed(t, calls[..|calls| - 1]);
      ApplyKeepsWellFormed(Replay(t, calls[..|calls| - 1]), calls[|calls| - 1]);
    }
  }

  /** is_admin(id) holds after a history iff it held before or the history
      called add_admin(id). */
  lemma {:induction false} AdminIffAdded(t: Tables, calls: seq<Call>, id: int)
    ensures IsAdmin(Replay(t, calls), id) <==> IsAdmin(t, id) || AddAdminCall(id) in calls
  {
    if calls != [] {
      var init := calls[..|calls| - 1];
      AdminIffAdded(t, init, id);
      assert calls == init + [calls[|calls| - 1]];
    }
  }

  /** From the empty database of init_db: is_admin(id) iff add_admin(id) was
      called. */
  lemma AdminIffAddedFromEmpty(calls: seq<Call>, id: int)
    ensures IsAdmin(Replay(Empty, calls), id) <==> AddAdminCall(id) in calls
  {
    AdminIffAdded(Empty, calls, id);
  }

  /** After add_category(n), the listed names are those listed before
      and n. */
  lemma ListedAfterAdd(t: Tables, n: string, name: string)
    ensures name in GetCategories(WithCategory(t, n)) <==> name in GetCategories(t) || name == n
  {
    AddCategoryIdempotent(t, n);
    if n !in Names(t.categories) {
      var cats := t.categories + [Category(t.nextCategoryId, n)];
      assert cats[..|t.categories|] == t.categories;
      assert Names(cats) == Names(t.categories) + [n];
    }
  }

  /** Only add_category changes the listed names, and only by its own. */
  lemma ListedAfterApply(t: Tables, c: Call, name: string)
    ensures name in GetCategories(Apply(t, c)) <==> name in GetCategories(t) || c == AddCategoryCall(name)
  {
    match c
    case AddCategoryCall(n) =>
      ListedAfterAdd(t, n, name);
    case _ =>
      assert Apply(t, c).categories == t.categories;
  }

  /** A category is listed after a history iff it was listed before or the
      history called add_category with its name. */
  lemma {:induction false} CategoryIffAdded(t: Tables, calls: seq<Call>, name: string)
    ensures name in GetCategories(Replay(t, calls)) <==> name in GetCategories(t) || AddCategoryCall(name) in calls
  {
    if calls != [] {
      var init := calls[..|calls| - 1];
      var last := calls[|calls| - 1];
      var before := Replay(t, init);
      CategoryIffAdded(t, init, name);
      assert calls == init + [last];
      assert AddCategoryCall(name) in calls <==> AddCategoryCall(name) in init || last == AddCategoryCall(name);
      ListedAfterApply(before, last, name);
    }
  }

  /** From the empty database: every name passed to add_category is listed
      by get_categories exactly once, and no other name is listed. */
  lemma CategoriesFromEmpty(calls: seq<Call>, name: string)
    ensures name in GetCategories(Replay(Empty, calls)) <==> AddCategoryCall(name) in calls
    ensures AddCategoryCall(name) in calls ==> Occurrences(GetCategories(Replay(Empty, calls)), name) == 1
  {
    CategoryIffAdded(Empty, calls, name);
    ReplayKeepsWellFormed(Empty, calls);
    if AddCategoryCall(name) in calls {
      DistinctOccursOnce(GetCategories(Replay(Empty, calls)), name);
    }
  }
}
