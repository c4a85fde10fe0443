/**
 * The task search: four optional criteria combined with AND, evaluated
 * over a sequence of tasks. The label criterion looks its label up first,
 * and an unknown label id is an error rather than an empty result.
 */
module TaskSpecification {
  import opened Wrappers
  import opened UserEntity
  import opened TaskModel

  /** The query parameters; each is null when not given. */
  datatype TaskParams = TaskParams(
    assigneeId: Option<UserId>,
    labelId: Option<int>,
    titleCont: Option<string>,
    status: Option<string>)

  /** No parameter given. */
  const NoParams: TaskParams := TaskParams(None, None, None, None)

  /** `findById(labelId).orElseThrow()` on an unknown id. */
  datatype SpecError = LabelNotFound(labelId: int)

  /** `withAssigneeId`: the task's assignee has that id; an unassigned task
      never matches a given id. */
  predicate AssigneeMatches(assigneeId: Option<UserId>, t: Task)
  {
    assigneeId.None? || (t.assignee.Some? && t.assignee.value.id == assigneeId.value)
  }

  /** `withLabelId`, once the label is looked up: the label is one of the
      task's labels. */
  predicate LabelMatches(wanted: Option<Label>, t: Task)
  {
    wanted.None? || wanted.value in t.labels
  }

  /** `withTaskStatus`: the task's status has exactly that slug. */
  predicate StatusMatches(status: Option<string>, t: Task)
  {
    status.None? || (t.taskStatus.Some? && t.taskStatus.value.slug == Some(status.value))
  }

  /** `pattern` occurs in `text` starting at position `i`. */
  predicate OccursAt(text: string, pattern: string, i: int)
  {
    0 <= i && i + |pattern| <= |text| && text[i..i + |pattern|] == pattern
  }

  /** `text LIKE '%' + pattern + '%'`, taking every character of the
      pattern literally. */
  predicate Contains(text: string, pattern: string)
  {
    exists i :: 0 <= i <= |text| - |pattern| && OccursAt(text, pattern, i)
  }

  /** SQL `LOWER` on one character (ASCII letters). */
  function LowerChar(c: char): (d: char)
    ensures 'A' <= c <= 'Z' ==> d as int == c as int + 32
    ensures !('A' <= c <= 'Z') ==> d == c
  {
    if 'A' <= c <= 'Z' then (c as int + 32) as char else c
  }

  function Lower(s: string): (r: string)
    ensures |r| == |s| && forall i :: 0 <= i < |s| ==> r[i] == LowerChar(s[i])
  {
    seq(|s|, i requires 0 <= i < |s| => LowerChar(s[i]))
  }

  /** Lowering twice is lowering once. */
  lemma LowerIdempotent(s: string)
    ensures Lower(Lower(s)) == Lower(s)
  {
  }

  /** Lowering commutes with taking a slice. */
  lemma LowerSlice(s: string, i: int, j: int)
    requires 0 <= i <= j <= |s|
    ensures Lower(s)[i..j] == Lower(s[i..j])
  {
  }

  /** An occurrence of the pattern is an occurrence of its lowered form in
      the lowered text. */
  lemma OccursLowered(text: string, pattern: string, i: int)
    requires OccursAt(text, pattern, i)
    ensures OccursAt(Lower(text), Lower(pattern), i)
  {
    LowerSlice(text, i, i + |pattern|);
  }

  /** `withTitleCont` as written: the name is lowered, the parameter is
      not. A null name never matches. */
  predicate TitleMatchesAsWritten(titleCont: Option<string>, t: Task)
  {
    titleCont.None? || (t.name.Some? && Contains(Lower(t.name.value), titleCont.value))
  }

  /** `withTitleCont` as its documentation describes it, case-insensitive:
      both the name and the parameter are lowered. */
  predicate TitleMatches(titleCont: Option<string>, t: Task)
  {
    titleCont.None? || (t.name.Some? && Contains(Lower(t.name.value), Lower(titleCont.value)))
  }

  /** As written, a parameter with a capital letter never matches the task
      whose name it is a literal part of: searching "Fix" misses "Fix bug". */
  lemma TitleAsWrittenMissesCapitals()
    ensures var t := NewTask().(name := Some("Fix bug"));
      !TitleMatchesAsWritten(Some("Fix"), t) && TitleMatches(Some("Fix"), t)
  {
    var t := NewTask().(name := Some("Fix bug"));
    var low := Lower("Fix bug");
    assert low[0] == 'f';
    forall i | 0 <= i <= |low| - 3 ensures !OccursAt(low, "Fix", i) {
      assert low[i] != 'F';
      assert low[i..i + 3][0] == low[i];
    }
    assert OccursAt("Fix bug", "Fix", 0);
    OccursLowered("Fix bug", "Fix", 0);
  }

  /** The corrected criterion matches every task whose name contains the
      parameter, in any case, and ignores the parameter's case. */
  lemma TitleMatchesIgnoresCase(q: string, t: Task)
    ensures TitleMatches(Some(Lower(q)), t) == TitleMatches(Some(q), t)
    ensures t.name.Some? && Contains(t.name.value, q) ==> TitleMatches(Some(q), t)
  {
    LowerIdempotent(q);
    if t.name.Some? && Contains(t.name.value, q) {
      var i :| 0 <= i <= |t.name.value| - |q| && OccursAt(t.name.value, q, i);
      OccursLowered(t.name.value, q, i);
    }
  }

  /** For a parameter already in lower case, the code as written and the
      corrected criterion agree. */
  lemma TitleAgreesOnLowerCase(q: string, t: Task)
    requires Lower(q) == q
    ensures TitleMatchesAsWritten(Some(q), t) == TitleMatches(Some(q), t)
  {
  }

  /** The criteria once the label is resolved: `build(params)`. */
  datatype TaskFilter = TaskFilter(params: TaskParams, wanted: Option<Label>)

  /** `build(params)`: looks up the label of a given `labelId`, failing
      when there is none. */
  function Build(labels: map<int, Label>, params: TaskParams): (r: Result<TaskFilter, SpecError>)
    ensures r.Err? <==> params.labelId.Some? && params.labelId.value !in labels
    ensures r.Err? ==> r.error == LabelNotFound(params.labelId.value)
    ensures r.Ok? ==> r.value.params == params
    ensures r.Ok? ==> (params.labelId.None? <==> r.value.wanted.None?)
    ensures r.Ok? && params.labelId.Some? ==> r.value.wanted == Some(labels[params.labelId.value])
  {
    match params.labelId
    case None => Ok(TaskFilter(params, None))
    case Some(id) => if id in labels then Ok(TaskFilter(params, Some(labels[id]))) else Err(LabelNotFound(id))
  }

  /** Which title criterion a search uses: the code's, or the
      case-insensitive one its documentation describes. */
  datatype TitleRule = AsWritten | CaseInsensitive

  predicate TitleCriterion(rule: TitleRule, titleCont: Option<string>, t: Task)
  {
    match rule
    case AsWritten => TitleMatchesAsWritten(titleCont, t)
    case CaseInsensitive => TitleMatches(titleCont, t)
  }

  /** A task matches when it satisfies every criterion; a null parameter's
      criterion holds of every task. */
  predicate Matches(rule: TitleRule, f: TaskFilter, t: Task)
  {
    && AssigneeMatches(f.params.assigneeId, t)
    && LabelMatches(f.wanted, t)
    && TitleCriterion(rule, f.params.titleCont, t)
    && StatusMatches(f.params.status, t)
  }

  /** The tasks that match, in their order. */
  function Select(rule: TitleRule, f: TaskFilter, tasks: seq<Task>): (r: seq<Task>)
    ensures |r| <= |tasks|
    ensures forall t :: t in r <==> t in tasks && Matches(rule, f, t)
    ensures IsSubsequence(r, tasks)
  {
    if |tasks| == 0 then []
    else if Matches(rule, f, tasks[0]) then [tasks[0]] + Select(rule, f, tasks[1..])
    else Select(rule, f, tasks[1..])
  }

  /** `a` is `b` with some elements dropped, the rest in order. */
  predicate IsSubsequence<T(==)>(a: seq<T>, b: seq<T>)
    decreases |b|
  {
    if |a| == 0 then true
    else if |b| == 0 then false
    else if a[0] == b[0] then IsSubsequence(a[1..], b[1..])
    else IsSubsequence(a, b[1..])
  }

  /** `findAll(build(params))` over the stored tasks, with the title
      criterion as the code has it. */
  function Search(labels: map<int, Label>, params: TaskParams, tasks: seq<Task>): (r: Result<seq<Task>, SpecError>)
    ensures r.Err? <==> Build(labels, params).Err?
    ensures r.Ok? ==> r.value == Select(AsWritten, Build(labels, params).value, tasks)
  {
    match Build(labels, params)
    case Err(e) => Err(e)
    case Ok(f) => Ok(Select(AsWritten, f, tasks))
  }

  /** The same search with the case-insensitive title criterion. */
  function SearchCorrected(labels: map<int, Label>, params: TaskParams, tasks: seq<Task>): (r: Result<seq<Task>, SpecError>)
    ensures r.Err? <==> Build(labels, params).Err?
    ensures r.Ok? ==> r.value == Select(CaseInsensitive, Build(labels, params).value, tasks)
  {
    match Build(labels, params)
    case Err(e) => Err(e)
    case Ok(f) => Ok(Select(CaseInsensitive, f, tasks))
  }

  /** The two searches differ only when the title parameter has a capital
      letter: without one, or with a lower-case one, they find the same. */
  lemma {:induction false} SearchesAgreeOnLowerCase(labels: map<int, Label>, params: TaskParams, tasks: seq<Task>)
    requires params.titleCont.Some? ==> Lower(params.titleCont.value) == params.titleCont.value
    ensures Search(labels, params, tasks) == SearchCorrected(labels, params, tasks)
  {
    if Build(labels, params).Ok? {
      SelectSameRules(Build(labels, params).value, tasks);
    }
  }

  lemma {:induction false} SelectSameRules(f: TaskFilter, tasks: seq<Task>)
    requires f.params.titleCont.Some? ==> Lower(f.params.titleCont.value) == f.params.titleCont.value
    ensures Select(AsWritten, f, tasks) == Select(CaseInsensitive, f, tasks)
  {
    if |tasks| > 0 {
      SelectSameRules(f, tasks[1..]);
      if f.params.titleCont.Some? {
        TitleAgreesOnLowerCase(f.params.titleCont.value, tasks[0]);
      }
    }
  }

  /** The search as written misses "Fix bug" when asked for "Fix"; the
      corrected search finds it. */
  lemma SearchMissesCapitals()
    ensures Search(map[], TaskParams(None, None, Some("Fix"), None), [NewTask().(name := Some("Fix bug"))]) == Ok([])
    ensures SearchCorrected(map[], TaskParams(None, None, Some("Fix"), None), [NewTask().(name := Some("Fix bug"))])
         == Ok([NewTask().(name := Some("Fix bug"))])
  {
    var t := NewTask().(name := Some("Fix bug"));
    var f := Build(map[], TaskParams(None, None, Some("Fix"), None)).value;
    TitleAsWrittenMissesCapitals();
    assert !Matches(AsWritten, f, t) && Matches(CaseInsensitive, f, t);
    assert [t][1..] == [];
    assert Select(AsWritten, f, [t]) == Select(AsWritten, f, []);
    assert Select(CaseInsensitive, f, [t]) == [t] + Select(CaseInsensitive, f, []);
    assert Select(CaseInsensitive, f, []) == [];
    assert [t] + [] == [t];
  }

  /** With no parameter, every task is found, in order, by either search. */
  lemma NoParamsFindsAll(labels: map<int, Label>, tasks: seq<Task>)
    ensures Search(labels, NoParams, tasks) == Ok(tasks)
    ensures SearchCorrected(labels, NoParams, tasks) == Ok(tasks)
  {
    var f := Build(labels, NoParams).value;
    SelectAllMatching(AsWritten, f, tasks);
    SelectAllMatching(CaseInsensitive, f, tasks);
  }

  lemma {:induction false} SelectAllMatching(rule: TitleRule, f: TaskFilter, tasks: seq<Task>)
    requires forall t :: t in tasks ==> Matches(rule, f, t)
    ensures Select(rule, f, tasks) == tasks
  {
    if |tasks| > 0 {
      SelectAllMatching(rule, f, tasks[1..]);
    }
  }

  /** `p` is `q` with more parameters given: every parameter of `q` is
      given in `p` with the same value. */
  predicate Narrows(p: TaskParams, q: TaskParams)
  {
    && (q.assigneeId.Some? ==> p.assigneeId == q.assigneeId)
    && (q.labelId.Some? ==> p.labelId == q.labelId)
    && (q.titleCont.Some? ==> p.titleCont == q.titleCont)
    && (q.status.Some? ==> p.status == q.status)
  }

  /** Giving an extra parameter never enlarges the result: the narrower
      search finds a subsequence of what the wider one finds. */
  lemma NarrowerFindsLess(labels: map<int, Label>, p: TaskParams, q: TaskParams, tasks: seq<Task>)
    requires Narrows(p, q) && Search(labels, p, tasks).Ok?
    ensures Search(labels, q, tasks).Ok? && SearchCorrected(labels, q, tasks).Ok?
    ensures IsSubsequence(Search(labels, p, tasks).value, Search(labels, q, tasks).value)
    ensures IsSubsequence(SearchCorrected(labels, p, tasks).value, SearchCorrected(labels, q, tasks).value)
  {
    SelectNarrower(AsWritten, Build(labels, p).value, Build(labels, q).value, tasks);
    SelectNarrower(CaseInsensitive, Build(labels, p).value, Build(labels, q).value, tasks);
  }

  lemma {:induction false} SelectNarrower(rule: TitleRule, f: TaskFilter, g: TaskFilter, tasks: seq<Task>)
    requires forall t :: Matches(rule, f, t) ==> Matches(rule, g, t)
    ensures IsSubsequence(Select(rule, f, tasks), Select(rule, g, tasks))
    decreases |tasks|
  {
    if |tasks| > 0 {
      SelectNarrower(rule, f, g, tasks[1..]);
    }
  }

  /** An unassigned task is never found by an assignee search. */
  lemma UnassignedNeverMatches(labels: map<int, Label>, params: TaskParams, tasks: seq<Task>, t: Task)
    requires params.assigneeId.Some? && t.assignee.None?
    requires Search(labels, params, tasks).Ok?
    ensures t !in Search(labels, params, tasks).value
    ensures t !in SearchCorrected(labels, params, tasks).value
  {
  }
}
