# DSTI survey database interface — verified model of the dynamic view query and the file-name checks

This project models two parts of the DSTI_db_interface package in Dafny.

**The dynamic query builder** (`DSTI_db_interface/queries_and_dynamic_queries.py`).
- Four renderers turn identifiers into SQL text by string interpolation:
  - the answer-lookup column, which falls back to -1;
  - the NULL column for a question the survey does not ask;
  - one survey's `SELECT … WHERE EXISTS` wrapper;
  - the query that lists every question with its `InSurvey` flag.
- Each renderer raises `DynamicQueryMissingParameters` when an argument is falsy. That means absent, the integer 0, or the empty string.
- `get_dynamic_query_to_update_vw_AllSurveyData` builds the statement behind the view `vw_AllSurveyData`. It walks the surveys, and within each survey it walks the question rows. Each row contributes one column, and the columns are wrapped in the survey's select. Each select is followed by `" UNION "`, and the last seven characters are sliced off at the end.

The model has the same parts:
- The renderers are pure functions returning a `Result`, with the exception as the error value.
- The builder is an imperative method `BuildViewQuery`. Its outer loop over the surveys accumulates the statement. Its inner loop over the rows, `RenderColumns`, accumulates the column text.
- The method is proved equal to a specification function, `ViewQuery`, over the same inputs. That function is the selects of all surveys in input order, joined by `" UNION "`, or an error when some survey makes a renderer raise.
- The two database reads the source performs become inputs:
  - the list of survey ids;
  - for each survey, its `(QuestionId, InSurvey)` rows, as a function from survey id to rows.

**The file-name checks** (`DSTI_db_interface/file_utilities.py`).
- `is_permitted_filename` is a predicate. It holds when the lower-cased name ends in `.csv` and the name matches `^[A-Za-z0-9_.]+$`.
- `is_valid_read_filepath` checks the path's extension, case-sensitively. It also asks the file system whether the path exists; here that answer is a boolean input.

`text.dfy` holds the string helpers both modules use:
- Python's rendering of an integer in an f-string, with its inverse;
- prefix, suffix and substring tests;
- "equal up to surrounding whitespace".

## Model

| member | source | states |
|---|---|---|
| DynamicQueries.ErrorText | DSTI_db_interface/queries_and_dynamic_queries.py:12-27 | with a non-empty message the text starts with "DynamicQueryMissingParameters, ", ends with a space and the message can be read back from between them; without one (no argument or a falsy one) it is the fixed explanation |
| DynamicQueries.AliasInjective | DSTI_db_interface/queries_and_dynamic_queries.py:52 | distinct question ids give distinct column aliases `ANS_Q<id>` |
| Text.DecimalInjective | DSTI_db_interface/queries_and_dynamic_queries.py:50-52 | distinct integers are interpolated as distinct texts |
| Text.DecimalShape | DSTI_db_interface/queries_and_dynamic_queries.py:50-52 | an interpolated integer is non-empty text, starts with '-' exactly when negative, and is all digits otherwise |
| Text.DecimalValueOfNat | DSTI_db_interface/queries_and_dynamic_queries.py:50-52 | the interpolated digits of a natural number read back as that number |
| DynamicQueries.AnswerColumnTemplate | DSTI_db_interface/queries_and_dynamic_queries.py:33-53 | raises exactly when the survey id or the question id is falsy (absent or 0), with the bare exception; otherwise returns the answer column text |
| DynamicQueries.AnswerColumnContent | DSTI_db_interface/queries_and_dynamic_queries.py:43-53 | the answer column starts with `,COALESCE(` on a new line, filters on `a.SurveyId = <survey id>` and `a.QuestionId = <question id>`, and defaults to -1 under the alias `ANS_Q<question id>` |
| DynamicQueries.NullColumnTemplate | DSTI_db_interface/queries_and_dynamic_queries.py:56-68 | raises exactly when the question id is falsy; otherwise returns the NULL column text |
| DynamicQueries.NullColumnContent | DSTI_db_interface/queries_and_dynamic_queries.py:66-68 | stripped of surrounding whitespace, the NULL column is exactly `, NULL AS ANS_Q<question id>` |
| DynamicQueries.OuterUnionTemplate | DSTI_db_interface/queries_and_dynamic_queries.py:71-96 | raises exactly when the survey id is falsy or the column text is absent or empty; otherwise returns the survey's select |
| DynamicQueries.OuterUnionContent | DSTI_db_interface/queries_and_dynamic_queries.py:84-96 | the select starts with SELECT, has `, <survey id> as SurveyId` immediately followed by the column text, restricts to users with an answer `AND a.SurveyId = <survey id>`, and ends with `)` |
| DynamicQueries.QuestionsInSurveyQuery | DSTI_db_interface/queries_and_dynamic_queries.py:116-152 | raises exactly when the survey id is falsy; otherwise returns the membership query text |
| DynamicQueries.QuestionsInSurveyContent | DSTI_db_interface/queries_and_dynamic_queries.py:127-152 | the survey id filters the membership branch, tags the rows of the non-membership branch and appears in its NOT EXISTS guard; the query ends with `ORDER BY QuestionId` |
| DynamicQueries.RenderersRaiseWithoutArguments | DSTI_db_interface/tests/test_queries_and_dynamic_queries.py:33-41 | each of the four renderers called without arguments raises |
| DynamicQueries.RenderersAcceptTestArguments | DSTI_db_interface/tests/test_queries_and_dynamic_queries.py:44-51 | each renderer called with id 1 (and a non-empty column text) returns a text |
| DynamicQueries.ColumnContent | DSTI_db_interface/queries_and_dynamic_queries.py:215-226 | a row with InSurvey 0 contributes the NULL column of its question; a row with any other flag contributes the answer column for the survey and question |
| DynamicQueries.ColumnsTextEmpty | DSTI_db_interface/queries_and_dynamic_queries.py:192-226 | every row contributes at least one character, so the column text is empty exactly when the survey has no rows |
| DynamicQueries.ColumnsTextAppend | DSTI_db_interface/queries_and_dynamic_queries.py:215-226 | the columns of two row lists one after the other are the columns of the first followed by those of the second |
| DynamicQueries.ColumnsInRowOrder | DSTI_db_interface/queries_and_dynamic_queries.py:215-226 | row k's column stands after the columns of the rows before it and before those of the rows after it |
| DynamicQueries.RenderColumn | DSTI_db_interface/queries_and_dynamic_queries.py:216-226 | a row with InSurvey 0 yields the NULL column and raises only for question id 0; any other row yields the answer column and raises for question id 0 or survey id 0 |
| DynamicQueries.ColumnsSucceedIff | DSTI_db_interface/queries_and_dynamic_queries.py:215-226 | the inner loop gets past the first n rows exactly when none of those rows makes its template raise |
| DynamicQueries.ColumnsFailFrom | DSTI_db_interface/queries_and_dynamic_queries.py:215-226 | once one row's template raises, the inner loop cannot get past that row or any later one |
| DynamicQueries.RenderColumns | DSTI_db_interface/queries_and_dynamic_queries.py:192-226 | succeeds exactly when no row makes its template raise, and then the accumulated text is the columns of all rows in row order; otherwise the error is the bare exception |
| DynamicQueries.RenderSurvey | DSTI_db_interface/queries_and_dynamic_queries.py:192-232 | one survey raises exactly when its id is 0, it has no rows, or a row has question id 0; otherwise the result is the survey's select around its columns |
| DynamicQueries.SurveysSucceedIff | DSTI_db_interface/queries_and_dynamic_queries.py:184-234 | the outer loop gets past the first n surveys exactly when none of them makes a renderer raise |
| DynamicQueries.JoinUnionLength | DSTI_db_interface/queries_and_dynamic_queries.py:234-237 | n parts are joined with exactly n - 1 separators of seven characters |
| DynamicQueries.JoinUnionContainsEach | DSTI_db_interface/queries_and_dynamic_queries.py:234-237 | every part occurs in the joined text |
| DynamicQueries.TerminatedIsJoinPlusSeparator | DSTI_db_interface/queries_and_dynamic_queries.py:234 | appending each select followed by " UNION " gives the joined selects plus one trailing " UNION " |
| DynamicQueries.TrailingSeparatorRemoved | DSTI_db_interface/queries_and_dynamic_queries.py:236-237 | slicing off the last seven characters of the accumulated text leaves exactly the selects joined by " UNION ", also for no surveys |
| DynamicQueries.NoSurveysGiveEmptyQuery | DSTI_db_interface/queries_and_dynamic_queries.py:177-239 | with no surveys the statement is the empty string |
| DynamicQueries.SurveyWithoutRowsFails | DSTI_db_interface/queries_and_dynamic_queries.py:81-82 | a survey with no question rows makes the outer template, and so the whole build, raise |
| DynamicQueries.ViewQueryLength | DSTI_db_interface/queries_and_dynamic_queries.py:184-237 | the statement for n surveys is as long as their n selects plus n - 1 separators |
| DynamicQueries.ViewQueryContainsEverySurvey | DSTI_db_interface/queries_and_dynamic_queries.py:184-234 | every survey's select occurs in the statement, and each select contains that survey's columns |
| DynamicQueries.BuildViewQuery | DSTI_db_interface/queries_and_dynamic_queries.py:155-239 | the result is the statement `ViewQuery` specifies: the bare exception when some survey raises, otherwise the selects of all surveys in input order joined by " UNION " |
| FileUtilities.PermittedFilenameIff | DSTI_db_interface/file_utilities.py:6-23 | a name is permitted exactly when every character is in `[A-Za-z0-9_.]`, there are at least four, and the last four are '.', 'c', 's', 'v' in either case |
| FileUtilities.LowerEndsWithCsv | DSTI_db_interface/file_utilities.py:14 | the lower-cased name ends with ".csv" exactly when its last four characters are '.', 'c', 's', 'v' in either case |
| FileUtilities.ExtensionCaseInsensitive | DSTI_db_interface/file_utilities.py:12-14 | with any extension that lower-cases to ".csv", a name is permitted exactly when its stem consists of permitted characters |
| FileUtilities.TrailingLineFeedRefused | DSTI_db_interface/file_utilities.py:12-18 | a final line feed, which `$` lets through the character-class match, is refused by the extension test |
| FileUtilities.ForeignCharacterRefused | DSTI_db_interface/file_utilities.py:12-18 | one character outside the class makes a name refused, whatever its extension |
| FileUtilities.PermittedFilenameExamples | DSTI_db_interface/tests/test_file_utilities.py:18-23 | "test_54.csv" is accepted; "test_54.txt", "query results.csv", "my-file-namecsv" and "my_file_namecsv" are refused |
| FileUtilities.AccentedFilenameExamples | DSTI_db_interface/tests/test_file_utilities.py:24-25 | the names with è and à are refused |
| FileUtilities.AccentedFilenameExamplesMiddle | DSTI_db_interface/tests/test_file_utilities.py:26-27 | the names with é and â are refused |
| FileUtilities.AccentedFilenameExamplesLast | DSTI_db_interface/tests/test_file_utilities.py:28-29 | the names with ù and ê are refused |
| FileUtilities.ValidReadFilepathIff | DSTI_db_interface/file_utilities.py:86-94 | a path is readable exactly when it exists and is some text followed by the expected extension |
| FileUtilities.ReadFilepathExamples | DSTI_db_interface/file_utilities.py:86-94 | with the default ".txt", an existing "queries/view.txt" is accepted; it is refused when it does not exist, and ".TXT" and ".csv" paths are refused |

## Left out

- `get_survey_ids`, `get_question_ids` and `get_questions_in_survey` (queries_and_dynamic_queries.py:99-112, 242-247) query the database through pandas. The builder takes their results as inputs: the survey ids, and a function from survey id to that survey's rows.
- `BuildViewQuery` receives the rows of each survey as a function of the survey id. So it cannot model a database whose contents change between two reads of the same survey.
- What the generated SQL means to the database is not modelled: COALESCE, UNION's removal of duplicates, EXISTS, and the ordering of rows. In particular, rows ordered by QuestionId is a promise of the database's ORDER BY, not of the code.
- Identifiers are modelled as integers, rendered the way Python renders an `int` (also a numpy integer). The renderers accept any Python value, but the package passes them integers read from the database. The column text is modelled as a string. The project's test passes the integer 1 there, which is truthy like any non-empty text.
- The exception's message is modelled as a string. Python accepts any object as the first argument, and formats it with `str.format`.
- `FileUtilities.Lower` only lower-cases ASCII letters. Python's `str.lower` also maps other letters, and can change the length of a string. This cannot change the verdict of `is_permitted_filename`, because the character-class test accepts ASCII characters only.
- Python's `re` engine is not modelled. The pattern is expressed as a predicate over characters, including the line feed that `$` accepts at the end.
- `os.path.exists` becomes the boolean input `pathExists` of `FileUtilities.IsValidReadFilepath`.
- `FileUtilities.IsValidReadFilepath` has no default parameter value. The default ".txt" is the constant `DefaultReadType`.
- The remaining helpers of file_utilities.py are not part of this model: `get_user_text_file`, `get_target_filepath_to_save`, `get_sql_from_text_file_as_text` and `is_valid_write_filepath`. They are interactive input loops and file-system checks.
- Not part of this model, because they are database, user-interface and installation code:
  - db_api.py;
  - db_connection.py;
  - cli_user_interface.py;
  - dependency_installation.py;
  - update_view.py;
  - Scripts/app.py.
