/**
  The dynamic view-query builder of DSTI_db_interface/queries_and_dynamic_queries.py.

  Four renderers turn identifiers into SQL fragments by string interpolation,
  each failing with DynamicQueryMissingParameters when an argument is falsy
  (absent, 0 or ""). BuildViewQuery assembles the statement behind the view
  vw_AllSurveyData: for every survey one SELECT with one column per question
  row, the selects joined by " UNION ". The two database reads the source
  performs (the survey ids, and per survey its question rows) are inputs.
*/
module DynamicQueries {
  import opened Text

  datatype Option<T> = None | Some(value: T)

  /** The exception class; `message` is the first constructor argument, if any. */
  datatype QueryError = DynamicQueryMissingParameters(message: Option<string>)

  datatype Result<T> = Ok(value: T) | Err(error: QueryError)

  /** Every renderer raises the exception class itself, with no message. */
  const MissingParameters: QueryError := DynamicQueryMissingParameters(None)

  const DefaultMessage: string :=
    "Additional parameters are needed to\n                   generate the requested query. Running an\n                   incomplete query against the database can\n                   have unexpected results and cause unecessary\n                   storage and performance costs."

  const MessagePrefix: string := "DynamicQueryMissingParameters, "

  /**
    `str()` of the exception: a given non-empty message, between the class
    name and a trailing space, or else the fixed explanation.
  */
  function ErrorText(e: QueryError): (r: string)
    ensures e.message.Some? && e.message.value != "" ==>
      && StartsWith(r, MessagePrefix)
      && EndsWith(r, " ")
      && |r| == |MessagePrefix| + |e.message.value| + 1
      && r[|MessagePrefix|..|r| - 1] == e.message.value
    ensures e.message.None? || e.message.value == "" ==> r == DefaultMessage
  {
    match e.message
    case Some(m) => if m != "" then MessagePrefix + m + " " else DefaultMessage
    case None => DefaultMessage
  }

  /** Python truthiness of an integer argument that defaults to None. */
  predicate FalsyId(id: Option<int>) {
    id.None? || id.value == 0
  }

  /** Python truthiness of a text argument that defaults to None. */
  predicate FalsyText(t: Option<string>) {
    t.None? || t.value == ""
  }

  /** The column alias of a question: ANS_Q followed by its id. */
  function Alias(questionId: int): string {
    "ANS_Q" + Decimal(questionId)
  }

  lemma AliasInjective(q1: int, q2: int)
    requires Alias(q1) == Alias(q2)
    ensures q1 == q2
  {
    assert Decimal(q1) == Alias(q1)[5..] == Alias(q2)[5..] == Decimal(q2);
    DecimalInjective(q1, q2);
  }

  // ---------------------------------------------------------------------
  // The four renderers: the interpolated text, and the guard in front of it.
  // ---------------------------------------------------------------------

  // Fixed parts of the templates, whitespace as in the source.
  const AnswerColumnOpen: string := "\n\t\t\t,COALESCE("
  const AnswerColumnLookup: string :=
    "\n\t\t\t\t(\n\t\t\t\t\tSELECT a.Answer_Value\n\t\t\t\t\tFROM Answer as a\n\t\t\t\t\tWHERE\n\t\t\t\t\t\ta.UserId = u.UserId\n\t\t\t\t\t\tAND "
  const AnswerColumnAnd: string := "\n\t\t\t\t\t\tAND "
  const AnswerColumnClose: string := "\n\t\t\t\t"
  const ColumnTail: string := "\n            "
  const NullColumnLead: string := "\n                "
  const OuterSelect: string := "SELECT"
  const OuterUserId: string := "\n\t\t\t\t\tUserId\n\t\t\t\t\t"
  const SurveyIdColumn: string := " as SurveyId\n\t\t\t\t\t  "
  const OuterExists: string :=
    "\n\t\t\tFROM\n\t\t\t\t[User] as u\n\t\t\tWHERE EXISTS\n\t\t\t(\n\t\t\t\t\tSELECT *\n\t\t\t\t\tFROM Answer as a\n\t\t\t\t\tWHERE u.UserId = a.UserId\n\t\t\t\t\t"
  const OuterClose: string := " \n\t\t\t)"
  const MembershipSelect: string :=
    "SELECT *\n                FROM\n                (\n                    SELECT\n                        SurveyId,\n                        QuestionId,\n                        1 as InSurvey\n                    FROM\n                        SurveyStructure\n                    "
  const MembershipFilter: string := "WHERE\n                        SurveyId = "
  const NonMembershipSelect: string := "\n                    UNION\n                    SELECT \n                        "
  const NonMembershipTag: string := " as SurveyId,"
  const NonMembershipFrom: string :=
    "\n                        Q.QuestionId,\n                        0 as InSurvey\n                    FROM\n                        Question as Q\n                    WHERE NOT EXISTS\n                    (\n                        SELECT *\n                        FROM SurveyStructure as S\n                        "
  const NotExistsGuard: string := " AND S.QuestionId = Q.QuestionId"
  const MembershipClose: string := "\n                    )\n                ) as t\n                "
  const MembershipOrder: string := "ORDER BY QuestionId"

  /** Text of the answer-lookup column: the user's answer to the question in the survey, -1 when none. */
  function AnswerColumnText(surveyId: int, questionId: int): string {
    AnswerColumnOpen + AnswerColumnLookup + ("a.SurveyId = " + Decimal(surveyId))
      + AnswerColumnAnd + ("a.QuestionId = " + Decimal(questionId))
      + AnswerColumnClose + ("), -1) AS " + Alias(questionId)) + ColumnTail
  }

  /** The answer column opens with a comma, filters on both ids and falls back to -1 under the question's alias. */
  lemma AnswerColumnContent(surveyId: int, questionId: int)
    ensures StartsWith(AnswerColumnText(surveyId, questionId), AnswerColumnOpen)
    ensures Contains(AnswerColumnText(surveyId, questionId), "a.SurveyId = " + Decimal(surveyId))
    ensures Contains(AnswerColumnText(surveyId, questionId), "a.QuestionId = " + Decimal(questionId))
    ensures Contains(AnswerColumnText(surveyId, questionId), "), -1) AS " + Alias(questionId))
  {
    var survey := "a.SurveyId = " + Decimal(surveyId);
    var question := "a.QuestionId = " + Decimal(questionId);
    var alias := "), -1) AS " + Alias(questionId);
    var t1 := AnswerColumnOpen + AnswerColumnLookup;
    var t2 := t1 + survey;
    var t3 := t2 + AnswerColumnAnd + question;
    var t4 := t3 + AnswerColumnClose + alias;
    assert AnswerColumnText(surveyId, questionId) == t4 + ColumnTail;
    StartsWithAppend(AnswerColumnOpen, AnswerColumnLookup, AnswerColumnOpen);
    StartsWithAppend(t1, survey, AnswerColumnOpen);
    StartsWithAppend(t2, AnswerColumnAnd, AnswerColumnOpen);
    StartsWithAppend(t2 + AnswerColumnAnd, question, AnswerColumnOpen);
    StartsWithAppend(t3, AnswerColumnClose, AnswerColumnOpen);
    StartsWithAppend(t3 + AnswerColumnClose, alias, AnswerColumnOpen);
    StartsWithAppend(t4, ColumnTail, AnswerColumnOpen);
    ContainsSuffix(t1, survey);
    ContainsAppend(t2, AnswerColumnAnd, survey);
    ContainsAppend(t2 + AnswerColumnAnd, question, survey);
    ContainsAppend(t3, AnswerColumnClose, survey);
    ContainsAppend(t3 + AnswerColumnClose, alias, survey);
    ContainsAppend(t4, ColumnTail, survey);
    ContainsSuffix(t2 + AnswerColumnAnd, question);
    ContainsAppend(t3, AnswerColumnClose, question);
    ContainsAppend(t3 + AnswerColumnClose, alias, question);
    ContainsAppend(t4, ColumnTail, question);
    ContainsSuffix(t3 + AnswerColumnClose, alias);
    ContainsAppend(t4, ColumnTail, alias);
  }

  function AnswerColumnTemplate(surveyId: Option<int>, questionId: Option<int>): (r: Result<string>)
    ensures r.Err? <==> FalsyId(surveyId) || FalsyId(questionId)
    ensures r.Err? ==> r.error == MissingParameters
    ensures r.Ok? ==> r.value == AnswerColumnText(surveyId.value, questionId.value)
  {
    if FalsyId(surveyId) || FalsyId(questionId) then Err(MissingParameters)
    else Ok(AnswerColumnText(surveyId.value, questionId.value))
  }

  /** Text of the column for a question the survey does not ask: a NULL under the question's alias. */
  function NullColumnText(questionId: int): string {
    NullColumnLead + (", NULL AS " + Alias(questionId)) + ColumnTail
  }

  /** Stripped of its surrounding whitespace, the NULL column is exactly ", NULL AS ANS_Q<id>". */
  lemma NullColumnContent(questionId: int)
    ensures Padded(NullColumnText(questionId), ", NULL AS " + Alias(questionId))
  {
    var core := ", NULL AS " + Alias(questionId);
    assert IsBlank(NullColumnLead) && IsBlank(ColumnTail);
    assert NullColumnText(questionId) == NullColumnLead + core + ColumnTail;
    PaddedAt(NullColumnLead, core, ColumnTail);
  }

  function NullColumnTemplate(questionId: Option<int>): (r: Result<string>)
    ensures r.Err? <==> FalsyId(questionId)
    ensures r.Err? ==> r.error == MissingParameters
    ensures r.Ok? ==> r.value == NullColumnText(questionId.value)
  {
    if FalsyId(questionId) then Err(MissingParameters) else Ok(NullColumnText(questionId.value))
  }

  /** Text of one survey's SELECT: UserId, the survey id, then the columns, over the users with an answer in the survey. */
  function OuterUnionText(surveyId: int, answerColumns: string): string {
    OuterSelect + OuterUserId + (", " + Decimal(surveyId) + SurveyIdColumn + answerColumns)
      + OuterExists + ("AND a.SurveyId = " + Decimal(surveyId)) + OuterClose
  }

  /**
    The select starts with SELECT, puts the survey id as the SurveyId column
    with the answer columns right after it, restricts to users with an answer
    in the survey, and ends with the closing parenthesis of the EXISTS.
  */
  lemma OuterUnionContent(surveyId: int, answerColumns: string)
    ensures StartsWith(OuterUnionText(surveyId, answerColumns), "SELECT")
    ensures Contains(OuterUnionText(surveyId, answerColumns), ", " + Decimal(surveyId) + SurveyIdColumn + answerColumns)
    ensures Contains(OuterUnionText(surveyId, answerColumns), "AND a.SurveyId = " + Decimal(surveyId))
    ensures EndsWith(OuterUnionText(surveyId, answerColumns), ")")
  {
    var columns := ", " + Decimal(surveyId) + SurveyIdColumn + answerColumns;
    var guard := "AND a.SurveyId = " + Decimal(surveyId);
    var t1 := OuterSelect + OuterUserId;
    var t2 := t1 + columns;
    var t3 := t2 + OuterExists + guard;
    assert OuterUnionText(surveyId, answerColumns) == t3 + OuterClose;
    StartsWithAppend(OuterSelect, OuterUserId, OuterSelect);
    StartsWithAppend(t1, columns, OuterSelect);
    StartsWithAppend(t2, OuterExists, OuterSelect);
    StartsWithAppend(t2 + OuterExists, guard, OuterSelect);
    StartsWithAppend(t3, OuterClose, OuterSelect);
    ContainsSuffix(t1, columns);
    ContainsAppend(t2, OuterExists, columns);
    ContainsAppend(t2 + OuterExists, guard, columns);
    ContainsAppend(t3, OuterClose, columns);
    ContainsSuffix(t2 + OuterExists, guard);
    ContainsAppend(t3, OuterClose, guard);
    assert EndsWith(OuterClose, ")");
    EndsWithPrepend(t3, OuterClose, ")");
  }

  function OuterUnionTemplate(surveyId: Option<int>, answerColumns: Option<string>): (r: Result<string>)
    ensures r.Err? <==> FalsyId(surveyId) || FalsyText(answerColumns)
    ensures r.Err? ==> r.error == MissingParameters
    ensures r.Ok? ==> r.value == OuterUnionText(surveyId.value, answerColumns.value)
  {
    if FalsyId(surveyId) || FalsyText(answerColumns) then Err(MissingParameters)
    else Ok(OuterUnionText(surveyId.value, answerColumns.value))
  }

  /**
    Text of the membership query: every question once, tagged InSurvey 1 when
    SurveyStructure links it to the survey and 0 otherwise, ordered by QuestionId.
  */
  function QuestionsInSurveyText(surveyId: int): string {
    MembershipSelect + (MembershipFilter + Decimal(surveyId))
      + NonMembershipSelect + (Decimal(surveyId) + NonMembershipTag)
      + NonMembershipFrom + ("WHERE S.SurveyId = " + Decimal(surveyId) + NotExistsGuard)
      + MembershipClose + MembershipOrder
  }

  /**
    The survey id filters the membership branch, tags the rows of the
    non-membership branch and appears in its NOT EXISTS guard; the rows come
    ordered by QuestionId.
  */
  lemma QuestionsInSurveyContent(surveyId: int)
    ensures Contains(QuestionsInSurveyText(surveyId), MembershipFilter + Decimal(surveyId))
    ensures Contains(QuestionsInSurveyText(surveyId), Decimal(surveyId) + NonMembershipTag)
    ensures Contains(QuestionsInSurveyText(surveyId), "WHERE S.SurveyId = " + Decimal(surveyId) + NotExistsGuard)
    ensures EndsWith(QuestionsInSurveyText(surveyId), MembershipOrder)
  {
    var member := MembershipFilter + Decimal(surveyId);
    var nonMember := Decimal(surveyId) + NonMembershipTag;
    var guard := "WHERE S.SurveyId = " + Decimal(surveyId) + NotExistsGuard;
    var t1 := MembershipSelect + member;
    var t2 := t1 + NonMembershipSelect + nonMember;
    var t3 := t2 + NonMembershipFrom + guard;
    var t4 := t3 + MembershipClose;
    assert QuestionsInSurveyText(surveyId) == t4 + MembershipOrder;
    ContainsSuffix(MembershipSelect, member);
    ContainsAppend(t1, NonMembershipSelect, member);
    ContainsAppend(t1 + NonMembershipSelect, nonMember, member);
    ContainsAppend(t2, NonMembershipFrom, member);
    ContainsAppend(t2 + NonMembershipFrom, guard, member);
    ContainsAppend(t3, MembershipClose, member);
    ContainsAppend(t4, MembershipOrder, member);
    ContainsSuffix(t1 + NonMembershipSelect, nonMember);
    ContainsAppend(t2, NonMembershipFrom, nonMember);
    ContainsAppend(t2 + NonMembershipFrom, guard, nonMember);
    ContainsAppend(t3, MembershipClose, nonMember);
    ContainsAppend(t4, MembershipOrder, nonMember);
    ContainsSuffix(t2 + NonMembershipFrom, guard);
    ContainsAppend(t3, MembershipClose, guard);
    ContainsAppend(t4, MembershipOrder, guard);
    EndsWithPrepend(t4, MembershipOrder, MembershipOrder);
  }

  function QuestionsInSurveyQuery(surveyId: Option<int>): (r: Result<string>)
    ensures r.Err? <==> FalsyId(surveyId)
    ensures r.Err? ==> r.error == MissingParameters
    ensures r.Ok? ==> r.value == QuestionsInSurveyText(surveyId.value)
  {
    if FalsyId(surveyId) then Err(MissingParameters) else Ok(QuestionsInSurveyText(surveyId.value))
  }

  /** Called without arguments, every renderer raises. */
  lemma RenderersRaiseWithoutArguments()
    ensures AnswerColumnTemplate(None, None) == Err(MissingParameters)
    ensures NullColumnTemplate(None) == Err(MissingParameters)
    ensures OuterUnionTemplate(None, None) == Err(MissingParameters)
    ensures QuestionsInSurveyQuery(None) == Err(MissingParameters)
  {
  }

  /** Called with id 1 (and a non-empty column text), every renderer returns its text. */
  lemma RenderersAcceptTestArguments()
    ensures AnswerColumnTemplate(Some(1), Some(1)) == Ok(AnswerColumnText(1, 1))
    ensures NullColumnTemplate(Some(1)) == Ok(NullColumnText(1))
    ensures OuterUnionTemplate(Some(1), Some("1")) == Ok(OuterUnionText(1, "1"))
    ensures QuestionsInSurveyQuery(Some(1)) == Ok(QuestionsInSurveyText(1))
  {
  }

  // ---------------------------------------------------------------------
  // What the assembled statement is, stated over the structural inputs.
  // ---------------------------------------------------------------------

  /** One row of the membership query: a question and whether the survey asks it. */
  datatype QuestionRow = QuestionRow(questionId: int, inSurvey: int)

  /** The column a row contributes: the NULL template when InSurvey is 0, the answer template for any other value. */
  function ColumnText(surveyId: int, row: QuestionRow): string {
    if row.inSurvey == 0 then NullColumnText(row.questionId)
    else AnswerColumnText(surveyId, row.questionId)
  }

  /** Which template fires for which flag. */
  lemma ColumnContent(surveyId: int, row: QuestionRow)
    ensures row.inSurvey == 0 ==> Padded(ColumnText(surveyId, row), ", NULL AS " + Alias(row.questionId))
    ensures row.inSurvey != 0 ==>
      && StartsWith(ColumnText(surveyId, row), AnswerColumnOpen)
      && Contains(ColumnText(surveyId, row), "a.SurveyId = " + Decimal(surveyId))
      && Contains(ColumnText(surveyId, row), "a.QuestionId = " + Decimal(row.questionId))
      && Contains(ColumnText(surveyId, row), "), -1) AS " + Alias(row.questionId))
  {
    if row.inSurvey == 0 {
      NullColumnContent(row.questionId);
    } else {
      AnswerColumnContent(surveyId, row.questionId);
    }
  }

  /** The column of each row, in the order of the rows. */
  function ColumnTexts(surveyId: int, rows: seq<QuestionRow>): seq<string> {
    seq(|rows|, i requires 0 <= i < |rows| => ColumnText(surveyId, rows[i]))
  }

  /** The columns of one survey, one after another. */
  function ColumnsText(surveyId: int, rows: seq<QuestionRow>): string {
    Concat(ColumnTexts(surveyId, rows))
  }

  /** Every row contributes a non-empty column. */
  lemma ColumnTextNonEmpty(surveyId: int, row: QuestionRow)
    ensures |ColumnText(surveyId, row)| > 0
  {
    if row.inSurvey == 0 {
      assert |NullColumnText(row.questionId)| >= |NullColumnLead|;
    } else {
      assert |AnswerColumnText(surveyId, row.questionId)| >= |AnswerColumnOpen|;
    }
  }

  /** The column text is at least as long as the row list, and so empty exactly when there are no rows. */
  lemma ColumnsTextEmpty(surveyId: int, rows: seq<QuestionRow>)
    ensures |ColumnsText(surveyId, rows)| >= |rows|
    ensures ColumnsText(surveyId, rows) == "" <==> rows == []
  {
    var texts := ColumnTexts(surveyId, rows);
    forall i | 0 <= i < |texts|
      ensures |texts[i]| > 0
    {
      ColumnTextNonEmpty(surveyId, rows[i]);
    }
    ConcatUpToLength(texts, |texts|);
  }

  /** The columns of two row lists one after the other are the columns of the first followed by those of the second. */
  lemma ColumnsTextAppend(surveyId: int, a: seq<QuestionRow>, b: seq<QuestionRow>)
    ensures ColumnsText(surveyId, a + b) == ColumnsText(surveyId, a) + ColumnsText(surveyId, b)
  {
    assert ColumnTexts(surveyId, a + b) == ColumnTexts(surveyId, a) + ColumnTexts(surveyId, b);
    ConcatAppend(ColumnTexts(surveyId, a), ColumnTexts(surveyId, b));
  }

  /** Row k's column stands between the columns of the rows before it and those after it. */
  lemma ColumnsInRowOrder(surveyId: int, rows: seq<QuestionRow>, k: int)
    requires 0 <= k < |rows|
    ensures ColumnsText(surveyId, rows) ==
      ColumnsText(surveyId, rows[..k]) + ColumnText(surveyId, rows[k]) + ColumnsText(surveyId, rows[k + 1..])
  {
    assert rows == rows[..k] + [rows[k]] + rows[k + 1..];
    ColumnsTextAppend(surveyId, rows[..k] + [rows[k]], rows[k + 1..]);
    ColumnsTextAppend(surveyId, rows[..k], [rows[k]]);
    assert ColumnTexts(surveyId, [rows[k]]) == [ColumnText(surveyId, rows[k])];
    ConcatOne(ColumnText(surveyId, rows[k]));
  }

  /** One survey's SELECT over its columns. */
  function SurveySelectText(surveyId: int, rows: seq<QuestionRow>): string {
    OuterUnionText(surveyId, ColumnsText(surveyId, rows))
  }

  /**
    The renderers raise for this survey: its id is 0, it has no question rows
    (its column text is then empty), or one of its rows has question id 0.
  */
  predicate SurveyFails(surveyId: int, rows: seq<QuestionRow>) {
    surveyId == 0 || rows == [] || MissingQuestion(rows)
  }

  /** Some row carries question id 0, which the column templates refuse. */
  predicate MissingQuestion(rows: seq<QuestionRow>) {
    exists i :: 0 <= i < |rows| && rows[i].questionId == 0
  }

  /** The template a row selects raises: its question id is 0, or it is an answer column and the survey id is 0. */
  predicate ColumnFails(surveyId: int, row: QuestionRow) {
    row.questionId == 0 || (row.inSurvey != 0 && surveyId == 0)
  }

  /** What the template for one row yields. */
  function ColumnResult(surveyId: int, row: QuestionRow): Result<string> {
    if ColumnFails(surveyId, row) then Err(MissingParameters) else Ok(ColumnText(surveyId, row))
  }

  /** None of the first n rows makes its template raise: what the inner loop has established after n rows. */
  predicate ColumnsSucceed(surveyId: int, rows: seq<QuestionRow>, n: int)
    requires 0 <= n <= |rows|
    decreases n
  {
    n == 0 || (ColumnsSucceed(surveyId, rows, n - 1) && !ColumnFails(surveyId, rows[n - 1]))
  }

  lemma {:induction false} ColumnsSucceedIff(surveyId: int, rows: seq<QuestionRow>, n: int)
    requires 0 <= n <= |rows|
    ensures ColumnsSucceed(surveyId, rows, n) <==> forall m :: 0 <= m < n ==> !ColumnFails(surveyId, rows[m])
    decreases n
  {
    if n > 0 {
      ColumnsSucceedIff(surveyId, rows, n - 1);
    }
  }

  /** Once a row's template raises, no longer prefix of the rows succeeds. */
  lemma {:induction false} ColumnsFailFrom(surveyId: int, rows: seq<QuestionRow>, i: int, n: int)
    requires 0 <= i < n <= |rows| && ColumnFails(surveyId, rows[i])
    ensures !ColumnsSucceed(surveyId, rows, n)
    decreases n
  {
    if n > i + 1 {
      ColumnsFailFrom(surveyId, rows, i, n - 1);
    }
  }

  /** Some survey among the given ones makes a renderer raise. */
  predicate SomeSurveyFails(surveyIds: seq<int>, rowsOf: int -> seq<QuestionRow>) {
    exists j :: 0 <= j < |surveyIds| && SurveyFails(surveyIds[j], rowsOf(surveyIds[j]))
  }

  /** None of the first n surveys makes a renderer raise: what the outer loop has established after n surveys. */
  predicate SurveysSucceed(surveyIds: seq<int>, rowsOf: int -> seq<QuestionRow>, n: int)
    requires 0 <= n <= |surveyIds|
    decreases n
  {
    n == 0 || (SurveysSucceed(surveyIds, rowsOf, n - 1) && !SurveyFails(surveyIds[n - 1], rowsOf(surveyIds[n - 1])))
  }

  lemma {:induction false} SurveysSucceedIff(surveyIds: seq<int>, rowsOf: int -> seq<QuestionRow>, n: int)
    requires 0 <= n <= |surveyIds|
    ensures SurveysSucceed(surveyIds, rowsOf, n) <==>
      forall j :: 0 <= j < n ==> !SurveyFails(surveyIds[j], rowsOf(surveyIds[j]))
    decreases n
  {
    if n > 0 {
      SurveysSucceedIff(surveyIds, rowsOf, n - 1);
    }
  }

  /** The per-survey selects, in the order of the survey ids. */
  function SelectTexts(surveyIds: seq<int>, rowsOf: int -> seq<QuestionRow>): seq<string> {
    seq(|surveyIds|, j requires 0 <= j < |surveyIds| => SurveySelectText(surveyIds[j], rowsOf(surveyIds[j])))
  }

  const UnionSeparator: string := " UNION "

  /** The parts with the separator between neighbours and nowhere else. */
  function JoinUnion(parts: seq<string>): string
    decreases |parts|
  {
    if parts == [] then ""
    else if |parts| == 1 then parts[0]
    else JoinUnion(parts[..|parts| - 1]) + UnionSeparator + parts[|parts| - 1]
  }

  function TotalLength(parts: seq<string>): nat
    decreases |parts|
  {
    if parts == [] then 0 else TotalLength(parts[..|parts| - 1]) + |parts[|parts| - 1]|
  }

  /** n parts are joined with exactly n - 1 separators. */
  lemma {:induction false} JoinUnionLength(parts: seq<string>)
    requires |parts| >= 1
    ensures |JoinUnion(parts)| == TotalLength(parts) + |UnionSeparator| * (|parts| - 1)
    decreases |parts|
  {
    if |parts| == 1 {
      assert parts[..0] == [];
    } else {
      JoinUnionLength(parts[..|parts| - 1]);
    }
  }

  /** Every part occurs in the joined text. */
  lemma {:induction false} JoinUnionContainsEach(parts: seq<string>, j: int)
    requires 0 <= j < |parts|
    ensures Contains(JoinUnion(parts), parts[j])
    decreases |parts|
  {
    var n := |parts|;
    if n == 1 {
      ContainsAt("", parts[0], "");
      assert "" + parts[0] + "" == parts[0];
    } else if j == n - 1 {
      ContainsAt(JoinUnion(parts[..n - 1]) + UnionSeparator, parts[j], "");
      assert JoinUnion(parts[..n - 1]) + UnionSeparator + parts[j] + "" == JoinUnion(parts);
    } else {
      JoinUnionContainsEach(parts[..n - 1], j);
      ContainsExtended("", JoinUnion(parts[..n - 1]), UnionSeparator + parts[n - 1], parts[j]);
      assert "" + JoinUnion(parts[..n - 1]) + (UnionSeparator + parts[n - 1]) == JoinUnion(parts);
    }
  }

  /** What the outer loop accumulates after n surveys: each of the first n parts followed by the separator. */
  function Terminated(parts: seq<string>, n: int): string
    requires 0 <= n <= |parts|
    decreases n
  {
    if n == 0 then "" else Terminated(parts, n - 1) + parts[n - 1] + UnionSeparator
  }

  /** Python's `s[:-n]`: all but the last n characters, "" when s is no longer than n (and `s[:-0]` is ""). */
  function WithoutLast(s: string, n: nat): string {
    if n == 0 || |s| <= n then "" else s[..|s| - n]
  }

  lemma {:induction false} TerminatedIsJoinPlusSeparator(parts: seq<string>, n: int)
    requires 1 <= n <= |parts|
    ensures Terminated(parts, n) == JoinUnion(parts[..n]) + UnionSeparator
    decreases n
  {
    if n > 1 {
      TerminatedIsJoinPlusSeparator(parts, n - 1);
      assert parts[..n][..n - 1] == parts[..n - 1];
    }
  }

  /** Slicing off seven characters removes exactly the trailing " UNION ". */
  lemma TrailingSeparatorRemoved(parts: seq<string>)
    ensures WithoutLast(Terminated(parts, |parts|), |UnionSeparator|) == JoinUnion(parts)
  {
    if parts != [] {
      TerminatedIsJoinPlusSeparator(parts, |parts|);
      assert parts[..|parts|] == parts;
      var t := Terminated(parts, |parts|);
      assert t[..|t| - |UnionSeparator|] == JoinUnion(parts);
    }
  }

  /**
    The statement the builder is to produce: an error when any survey makes a
    renderer raise, otherwise the selects of all surveys, in input order,
    joined by " UNION ".
  */
  function ViewQuery(surveyIds: seq<int>, rowsOf: int -> seq<QuestionRow>): Result<string> {
    if SomeSurveyFails(surveyIds, rowsOf) then
      Err(MissingParameters)
    else
      Ok(JoinUnion(SelectTexts(surveyIds, rowsOf)))
  }

  /** An empty survey list gives the empty statement. */
  lemma NoSurveysGiveEmptyQuery(rowsOf: int -> seq<QuestionRow>)
    ensures ViewQuery([], rowsOf) == Ok("")
  {
  }

  /**
    A survey without question rows makes the whole build raise: its column
    text is empty, and the outer template refuses an empty text.
  */
  lemma SurveyWithoutRowsFails(surveyIds: seq<int>, rowsOf: int -> seq<QuestionRow>, j: int)
    requires 0 <= j < |surveyIds| && rowsOf(surveyIds[j]) == []
    ensures ViewQuery(surveyIds, rowsOf) == Err(MissingParameters)
    ensures OuterUnionTemplate(Some(surveyIds[j]), Some(ColumnsText(surveyIds[j], rowsOf(surveyIds[j])))).Err?
  {
    assert SurveyFails(surveyIds[j], rowsOf(surveyIds[j]));
  }

  /** n surveys give n selects separated by n - 1 separators. */
  lemma ViewQueryLength(surveyIds: seq<int>, rowsOf: int -> seq<QuestionRow>)
    requires |surveyIds| >= 1
    requires ViewQuery(surveyIds, rowsOf).Ok?
    ensures |ViewQuery(surveyIds, rowsOf).value|
      == TotalLength(SelectTexts(surveyIds, rowsOf)) + |UnionSeparator| * (|surveyIds| - 1)
  {
    JoinUnionLength(SelectTexts(surveyIds, rowsOf));
  }

  /** Every survey's select, with its columns, is part of the statement. */
  lemma ViewQueryContainsEverySurvey(surveyIds: seq<int>, rowsOf: int -> seq<QuestionRow>, j: int)
    requires 0 <= j < |surveyIds|
    requires ViewQuery(surveyIds, rowsOf).Ok?
    ensures Contains(ViewQuery(surveyIds, rowsOf).value, SurveySelectText(surveyIds[j], rowsOf(surveyIds[j])))
    ensures Contains(SurveySelectText(surveyIds[j], rowsOf(surveyIds[j])), ColumnsText(surveyIds[j], rowsOf(surveyIds[j])))
  {
    JoinUnionContainsEach(SelectTexts(surveyIds, rowsOf), j);
    var s := surveyIds[j];
    var columns := ColumnsText(s, rowsOf(s));
    var lead := ", " + Decimal(s) + SurveyIdColumn;
    var text := SurveySelectText(s, rowsOf(s));
    OuterUnionContent(s, columns);
    ContainsRight(text, lead, columns);
  }

  // ---------------------------------------------------------------------
  // The builder itself.
  // ---------------------------------------------------------------------

  /** One iteration of the inner loop: the template that the row's InSurvey flag selects. */
  method RenderColumn(surveyId: int, row: QuestionRow) returns (r: Result<string>)
    ensures r == ColumnResult(surveyId, row)
  {
    if row.inSurvey == 0 {
      r := NullColumnTemplate(Some(row.questionId));
    } else {
      r := AnswerColumnTemplate(Some(surveyId), Some(row.questionId));
    }
  }

  /**
    The inner loop of get_dynamic_query_to_update_vw_AllSurveyData: one
    column per membership row, the NULL template for InSurvey 0 and the
    answer template otherwise, appended in row order. It raises as soon as a
    template does: for a row with question id 0, or for an answer column of
    survey 0.
  */
  method RenderColumns(surveyId: int, rows: seq<QuestionRow>) returns (r: Result<string>)
    ensures r.Ok? <==> ColumnsSucceed(surveyId, rows, |rows|)
    ensures r.Ok? ==> r.value == ColumnsText(surveyId, rows)
    ensures r.Err? ==> r.error == MissingParameters
  {
    var answerColumns := "";
    for i := 0 to |rows|
      invariant ColumnsSucceed(surveyId, rows, i)
      invariant answerColumns == ConcatUpTo(ColumnTexts(surveyId, rows), i)
    {
      var column := RenderColumn(surveyId, rows[i]);
      if column.Err? {
        ColumnsFailFrom(surveyId, rows, i, |rows|);
        return Err(column.error);
      }
      answerColumns := answerColumns + column.value;
    }
    return Ok(answerColumns);
  }

  /**
    The body of the outer loop of get_dynamic_query_to_update_vw_AllSurveyData
    for one survey: render its columns, then wrap them in the outer SELECT.
    Either step may raise.
  */
  method RenderSurvey(surveyId: int, rows: seq<QuestionRow>) returns (r: Result<string>)
    ensures r.Ok? <==> !SurveyFails(surveyId, rows)
    ensures r.Ok? ==> r.value == SurveySelectText(surveyId, rows)
    ensures r.Err? ==> r.error == MissingParameters
  {
    var columns := RenderColumns(surveyId, rows);
    ColumnsSucceedIff(surveyId, rows, |rows|);
    if columns.Err? {
      return Err(columns.error);
    }
    ColumnsTextEmpty(surveyId, rows);
    r := OuterUnionTemplate(Some(surveyId), Some(columns.value));
  }

  /**
    get_dynamic_query_to_update_vw_AllSurveyData, with the survey ids and the
    membership rows of each survey given as inputs. Accumulates each survey's
    select followed by " UNION ", then drops the last seven characters; any
    renderer that raises ends the build with its error.
  */
  method BuildViewQuery(surveyIds: seq<int>, rowsOf: int -> seq<QuestionRow>) returns (r: Result<string>)
    ensures r == ViewQuery(surveyIds, rowsOf)
  {
    var query := "";
    for k := 0 to |surveyIds|
      invariant SurveysSucceed(surveyIds, rowsOf, k)
      invariant query == Terminated(SelectTexts(surveyIds, rowsOf), k)
    {
      var select := RenderSurvey(surveyIds[k], rowsOf(surveyIds[k]));
      if select.Err? {
        return Err(select.error);
      }
      query := query + select.value + UnionSeparator;
    }
    SurveysSucceedIff(surveyIds, rowsOf, |surveyIds|);
    TrailingSeparatorRemoved(SelectTexts(surveyIds, rowsOf));
    r := Ok(WithoutLast(query, |UnionSeparator|));
  }
}
