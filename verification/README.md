# Risk-maturity questionnaire: a Dafny model of its scoring core

The application is a self-assessment questionnaire that rates an organisation's
enterprise risk-management maturity. It has two tracks:

- **Executive track.** A respondent picks a role, 'csuite' or 'senior_leader'. Senior
  leaders do not see the questions tagged `role: 'csuite'`. The respondent then walks
  through the categories one at a time, answering yes/no questions. At the end the
  controller counts the yes answers, scores each category and classifies the total with
  `EXECUTIVE_SCORE_RANGES`.
- **NFP/NGO track.** An executive sees all fourteen categories of `NFP_DATA`. The four
  other roles lose every element tagged `role: 'executive'`, and with them any category
  left empty. Each category gets a raw score and a fraction. The grand total is classified
  with `NFP_SCORE_RANGES`.

The results page turns an executive result into two bar-chart series, as percentages of
each category's size in the full bank, with the Defined and Optimized benchmarks beside
them. It also checks the e-mail address before submitting. The printable summary turns the
generated guidance text into HTML, line by line: `### ` headings, `* ` bullet lists,
`1. ` numbered lists and paragraphs, with at most one list open at a time.

The modules follow the source files:

| module | models |
|---|---|
| `Types` | the records of `types.ts` |
| `Strings` | the JavaScript string operations the core relies on: `\s`, `trim`, `startsWith`, and the first-occurrence search `IndexOf` that implements `split('\n')`; `DecimalString` is not a source operation but generates the literal ids "ck" and "k.n" of the NFP table |
| `Bands` | the first-match walk over a score-range table that both controllers share |
| `Constants` | `constants.ts`: the 67 executive questions, the 14 NFP categories with their 107 elements, the score ranges and the benchmark tables |
| `ExecutiveAssessment` | `components/ExecutiveAssessment.tsx`: pure filtering and scoring functions, the result computation as a method, and the controller state as the class `ExecutiveSession` |
| `NfpAssessment` | `components/NfpAssessment.tsx`, in the same shape, with the class `NfpSession` |
| `ResultsPage` | the chart data, `validateEmail` and the guard part of the e-mail submit handler (class `EmailForm`) in `components/ResultsPage.tsx` |
| `PrintableSummary` | `markdownToPrintableHtml` in `components/PrintableSummary.tsx`: the loop is a method driving the class `HtmlWriter`, specified by a function from lines to output pieces |

The model keeps the code's behaviour where it surprises:

- The executive total counts every `true` in the answer map, whether or not the question
  is still shown.
- The executive ranges stop at 15 while the bank holds 67 questions, so a total above 15
  is 'Unknown'.
- The NFP ranges cover 1 to 99 while the bank holds 107 elements, so a total of 0, or of
  100 to 107, is 'Unknown'.
- Choosing an NFP role resets neither the answers nor the category index.
- `categoryMaxScores` is never filled in.
- The `industry` and `country` tags are carried but never read.

The code has no industry or country filter, no questions that depend on other answers, and
no percentage bands: the role is the only filter (components/ExecutiveAssessment.tsx:126-133,
components/NfpAssessment.tsx:110-120), and the levels come from the score ranges alone.

## Model

| member | source | states |
|---|---|---|
| Bands.FirstMatch | components/ExecutiveAssessment.tsx:212-218 | the walk over a range table (here and at components/NfpAssessment.tsx:177-184): the index found holds the score, no earlier range does, and None exactly when no range holds it |
| Bands.Classify | components/NfpAssessment.tsx:173-184 | the level and text of the first range holding the score, and 'Unknown' with the generic text when no range holds it |
| Bands.ClassifyScore | components/ExecutiveAssessment.tsx:212-225 | the loop over the ranges returns the level and interpretation of the first range holding the score, or 'Unknown' with the generic text |
| Bands.UnknownIffUncovered | components/NfpAssessment.tsx:174-184 | with no range labelled 'Unknown', the result is 'Unknown' exactly when no range holds the score, and then the text is the generic one |
| Bands.ContiguousDisjoint | constants.ts:740-761 | in a contiguous table every earlier range ends below every later one starts |
| Bands.ContiguousCoverage | constants.ts:740-761 | a contiguous table holds exactly the scores from its first minimum to its last maximum |
| Bands.ClassifyContiguous | components/NfpAssessment.tsx:174-184 | in a contiguous table a covered score gets the level of the range holding it, and a score outside the span is 'Unknown' |
| Strings.TrimStart | components/PrintableSummary.tsx:85 | only whitespace is removed, from the front, and what is left does not start with whitespace |
| Strings.TrimEnd | components/PrintableSummary.tsx:85 | only whitespace is removed, from the back, and what is left does not end with whitespace |
| Strings.BlankIffTrimEmpty | components/PrintableSummary.tsx:85 | `IsBlank` (all whitespace) holds exactly when `trim()` gives the empty string |
| Strings.IndexOf | components/PrintableSummary.tsx:56 | the first occurrence of the character, or -1 exactly when it does not occur |
| Strings.DigitChar | constants.ts:528-738 | the digit character whose value is the given digit |
| Strings.DecimalRoundTrip | constants.ts:528-738 | the decimal rendering of a number is a non-empty digit string that reads back as the number |
| Strings.DecimalInjective | constants.ts:528-738 | distinct numbers render differently |
| Constants.ExecutiveQuestionIds | constants.ts:51-463 | the executive bank has 67 questions, with ids 1 to 67 in order |
| Constants.ExecutiveQuestionIdsUnique | constants.ts:51-463 | no two executive questions share an id |
| Constants.ExecutiveScoreRangesShape | constants.ts:465-486 | five contiguous, disjoint, ascending ranges from 0 to 15, labelled Initial to Optimized |
| Constants.ExecutiveScoreRangesCoverage | constants.ts:465-486 | a total is in some executive range exactly when it is between 0 and 15; outside that it is 'Unknown' |
| Constants.NfpScoreRangesShape | constants.ts:740-761 | five contiguous, disjoint, ascending ranges from 1 to 99, labelled Initial to Optimized |
| Constants.NfpScoreRangesCoverage | constants.ts:740-761 | a total is in some NFP range exactly when it is between 1 and 99; 0 and 100 or more are 'Unknown' |
| Constants.ExecutiveBenchmarksOrdered | constants.ts:488-525 | both tiers list the same categories, Defined never exceeds Optimized, and neither lists 'Industry Specific' |
| Constants.NfpBenchmarksOrdered | constants.ts:763-778 | both tiers list the same categories and Defined never exceeds Optimized |
| Constants.NfpDataIds | constants.ts:528-738 | fourteen categories "c1" to "c14", and element n of category k is "k.n" |
| Constants.DecimalHasNoDot | constants.ts:528-738 | a decimal rendering holds no '.' |
| Constants.DotIndexAfterPrefix | constants.ts:528-738 | in "a.b" with no '.' in a, `IndexOf` finds the first '.' right after a |
| Constants.ElementIdInjective | constants.ts:528-738 | an element id "k.n" determines both k and n |
| Constants.NfpIdsUnique | constants.ts:528-738 | category ids are pairwise distinct, and so are element ids across the whole table |
| Constants.NumberedIdsUnique | constants.ts:528-738 | categories numbered "ck" in order with elements "k.n" have pairwise distinct category ids and pairwise distinct element ids |
| Constants.CategoryIdInjective | constants.ts:528-738 | a category id "ck" determines k |
| Constants.NfpExecutiveOnlyCategory | constants.ts:586-595 | category "c4" holds only executive elements, and every other category holds an element open to all roles |
| ExecutiveAssessment.WithoutCSuite | components/ExecutiveAssessment.tsx:132 | dropping the 'csuite' questions never lengthens the list |
| ExecutiveAssessment.FilterQuestions | components/ExecutiveAssessment.tsx:126-133 | no role gives no questions, 'csuite' gives the whole bank, and any other role gives exactly the questions not tagged 'csuite' |
| ExecutiveAssessment.WithoutCSuiteMembers | components/ExecutiveAssessment.tsx:132 | a question survives exactly when it was in the list and is not tagged 'csuite' |
| ExecutiveAssessment.WithoutCSuiteAppend | components/ExecutiveAssessment.tsx:132 | filtering distributes over concatenation, so order is kept |
| ExecutiveAssessment.WithoutCSuiteCategoryCount | components/ExecutiveAssessment.tsx:132 | filtering never raises a category's question count |
| ExecutiveAssessment.Categories | components/ExecutiveAssessment.tsx:135-139 | the category list has no duplicates and holds exactly the categories of the questions |
| ExecutiveAssessment.FirstIndex | components/ExecutiveAssessment.tsx:137-138 | the position of the first question of a category, with none of that category before it |
| ExecutiveAssessment.FirstIndexOfPrefix | components/ExecutiveAssessment.tsx:137-138 | extending the list does not move a first appearance already present |
| ExecutiveAssessment.CategoriesInFirstAppearanceOrder | components/ExecutiveAssessment.tsx:137-138 | the categories are listed in the order of their first question, as a JavaScript Set keeps insertion order |
| ExecutiveAssessment.QuestionsIn | components/ExecutiveAssessment.tsx:144 | exactly the questions of the category, from the list |
| ExecutiveAssessment.CategoryCountAppend | components/ExecutiveAssessment.tsx:144 | a category's question count adds up over concatenation |
| ExecutiveAssessment.CategoryCountSnoc | components/ResultsPage.tsx:300-303 | one more question adds one to its own category's count only |
| ExecutiveAssessment.CategoriesSnoc | components/ExecutiveAssessment.tsx:137 | one more question adds its category at the end if it is new, and changes nothing otherwise |
| ExecutiveAssessment.CategoryCountPositive | components/ExecutiveAssessment.tsx:135-139 | a category is listed exactly when it has at least one question |
| ExecutiveAssessment.TotalScore | components/ExecutiveAssessment.tsx:200 | the number of `true` answers: at most the number of answers, and 0 exactly when no answer is `true` |
| ExecutiveAssessment.CategoryCompletionStatus | components/ExecutiveAssessment.tsx:141-153 | one entry per listed category, true exactly when every question of that category has a non-null answer |
| ExecutiveAssessment.AnsweringKeepsComplete | components/ExecutiveAssessment.tsx:167-169 | answering a question never makes a complete category incomplete |
| ExecutiveAssessment.CategoryScore | components/ExecutiveAssessment.tsx:206-210 | a category's yes count never exceeds its question count |
| ExecutiveAssessment.CategoryScoreSnoc | components/ExecutiveAssessment.tsx:206-210 | one more question adds one to its own category's score exactly when it was answered yes |
| ExecutiveAssessment.ComputeResult | components/ExecutiveAssessment.tsx:197-226 | no result before the end or with no questions; otherwise the total counts every yes in the map, the maximum is the number of filtered questions, each listed category holds its filtered yes count, the level is the first range holding the total, and the per-category maxima are unset |
| ExecutiveAssessment.ZeroScores | components/ExecutiveAssessment.tsx:203-204 | one entry per listed category, each zero |
| ExecutiveAssessment.AddYesAnswers | components/ExecutiveAssessment.tsx:206-210 | after the loop, every category holds its listed zero plus the number of its filtered questions answered yes |
| ExecutiveAssessment.AddYesAnswerStep | components/ExecutiveAssessment.tsx:207-208 | one pass of the loop body keeps the scores equal to the yes counts of the questions seen so far |
| ExecutiveAssessment.YesIds | components/ExecutiveAssessment.tsx:200 | the ids of the listed questions answered yes, and only those |
| ExecutiveAssessment.SumOfCategoryScoresStep | components/ExecutiveAssessment.tsx:206-210 | one more question raises the sum of category scores by one exactly when it was answered yes |
| ExecutiveAssessment.SumOfCategoryScoresIsYesCount | components/ExecutiveAssessment.tsx:203-210 | when every question's category is listed, the category scores add up to the number of questions answered yes |
| ExecutiveAssessment.SumOfCategoryScoresEmpty | components/ExecutiveAssessment.tsx:204 | with no questions every category scores zero |
| ExecutiveAssessment.YesCountIsYesIds | components/ExecutiveAssessment.tsx:200 | with distinct ids, the number of questions answered yes is the number of their ids |
| ExecutiveAssessment.YesIdsWithinTotal | components/ExecutiveAssessment.tsx:200 | the yes ids of the shown questions are among all yes keys of the map |
| ExecutiveAssessment.TotalScoreAndCategoryScores | components/ExecutiveAssessment.tsx:200-210 | the category scores never add up to more than the total, and they equal it when every yes answer belongs to a shown question |
| ExecutiveAssessment.YesIdsCoverTotal | components/ExecutiveAssessment.tsx:200 | when every yes key belongs to a shown question, the total is the number of shown questions answered yes |
| ExecutiveAssessment.TotalScoreMonotone | components/ExecutiveAssessment.tsx:167-169 | answering yes never lowers the total |
| ExecutiveAssessment.CategoryScoreMonotone | components/ExecutiveAssessment.tsx:167-169 | answering yes never lowers a category score |
| ExecutiveAssessment.CategoryScoreWithinBank | components/ExecutiveAssessment.tsx:126-133 | whatever the role, a category score never exceeds that category's size in the full bank |
| ExecutiveAssessment.AllYes | components/ExecutiveAssessment.tsx:167-169 | the answer map with yes for every given question and for nothing else |
| ExecutiveAssessment.YesCountOfAllAnswered | components/ExecutiveAssessment.tsx:206-210 | when every question is answered yes, the yes count is the number of questions |
| ExecutiveAssessment.FullMarks | components/ExecutiveAssessment.tsx:200-201 | with distinct ids, answering every question yes makes the total equal the maximum |
| ExecutiveAssessment.CSuiteFullMarks | components/ExecutiveAssessment.tsx:128-130 | a 'csuite' respondent sees the whole bank, and answering everything yes scores the bank's size |
| ExecutiveAssessment.CSuiteFullMarksAreUnknown | components/ExecutiveAssessment.tsx:212-225 | a 'csuite' respondent answering all 67 questions yes scores 67, which no range holds, so the level is 'Unknown' |
| ExecutiveAssessment.ExecutiveSession.constructor | components/ExecutiveAssessment.tsx:79-82 | a fresh controller: no role, no answers, first category, results hidden |
| ExecutiveAssessment.ExecutiveSession.CurrentCategoryQuestions | components/ExecutiveAssessment.tsx:155-159 | exactly the shown questions of the current category, none when the index names no category, and no 'csuite' question for a senior leader |
| ExecutiveAssessment.ExecutiveSession.SelectRole | components/ExecutiveAssessment.tsx:161-165 | sets the role, clears the answers, returns to the first category and keeps the index in range |
| ExecutiveAssessment.ExecutiveSession.Answer | components/ExecutiveAssessment.tsx:167-169 | records one answer, leaves every other answer as it was, repeats are idempotent, and the index stays in range |
| ExecutiveAssessment.ExecutiveSession.Next | components/ExecutiveAssessment.tsx:171-178 | moves to the next category, or on the last one shows the results, keeping the index in range |
| ExecutiveAssessment.ExecutiveSession.Back | components/ExecutiveAssessment.tsx:180-184 | moves to the previous category, staying put at the first |
| ExecutiveAssessment.ExecutiveSession.SelectCategory | components/ExecutiveAssessment.tsx:267 | jumps to the chosen sidebar category |
| ExecutiveAssessment.ExecutiveSession.Result | components/ExecutiveAssessment.tsx:197-226 | the result of the current role, answers and categories, as `ComputeResult` states it |
| NfpAssessment.OpenElements | components/NfpAssessment.tsx:118 | dropping the executive elements never lengthens a category |
| NfpAssessment.OpenElementsAppend | components/NfpAssessment.tsx:118 | filtering the elements distributes over concatenation, so their order is kept |
| NfpAssessment.OpenElementsMembers | components/NfpAssessment.tsx:118 | an element survives exactly when it is not tagged 'executive' |
| NfpAssessment.OpenElementsNonEmpty | components/NfpAssessment.tsx:118-119 | something survives exactly when some element is not tagged 'executive' |
| NfpAssessment.StripExecutive | components/NfpAssessment.tsx:116-118 | keeps the category's id, title and country and exactly its open elements, which exist exactly when it has one |
| NfpAssessment.NonEmptyCategories | components/NfpAssessment.tsx:119 | dropping empty categories never lengthens the list |
| NfpAssessment.NonEmptyCategoriesAppend | components/NfpAssessment.tsx:119 | dropping empty categories distributes over concatenation, so their order is kept |
| NfpAssessment.NonEmptyCategoriesMembers | components/NfpAssessment.tsx:119 | a category survives exactly when it was listed and has an element |
| NfpAssessment.StripAll | components/NfpAssessment.tsx:116-118 | one entry per category, in order, keeping its id, title and country, holding only its elements not tagged 'executive', and non-empty exactly when it has such an element |
| NfpAssessment.StripAllAppend | components/NfpAssessment.tsx:116-118 | stripping distributes over concatenation |
| NfpAssessment.FilterNfpData | components/NfpAssessment.tsx:110-120 | no role gives nothing, 'executive' gives the whole table, and any other role gives exactly the stripped categories that keep an element, none holding an executive element |
| NfpAssessment.FilterNfpDataAppend | components/NfpAssessment.tsx:110-120 | for every role, filtering two parts of a table one after the other gives the filter of the whole, in the same order |
| NfpAssessment.FilterNfpDataOne | components/NfpAssessment.tsx:116-119 | for a role other than 'executive', a single category is kept, stripped, exactly when it has an element not tagged 'executive' |
| NfpAssessment.NonEmptyCategoriesDropsOne | components/NfpAssessment.tsx:119 | when exactly one category is empty, the filter removes that one and keeps the rest in order |
| NfpAssessment.NonEmptyCategoriesKeepsAll | components/NfpAssessment.tsx:119 | when no category is empty, the filter keeps them all |
| NfpAssessment.SkipsOnlyClosedCategory | components/NfpAssessment.tsx:116-119 | when exactly one category has no open element, a non-executive role loses that one only and keeps the others stripped and in order |
| NfpAssessment.StrippedEmptyOnlyAt | components/NfpAssessment.tsx:116-119 | stripping leaves empty exactly the categories without an open element |
| NfpAssessment.RemainingIds | components/NfpAssessment.tsx:119 | with distinct ids, removing a category removes its id from the list |
| NfpAssessment.ManagerSkipsExecutiveCategory | components/NfpAssessment.tsx:110-120 | every non-executive role sees 13 categories, in order, without "c4" |
| NfpAssessment.RawScore | components/NfpAssessment.tsx:159 | the yes count is at most the number of elements, zero exactly when none is answered yes, and full exactly when all are |
| NfpAssessment.Fraction | components/NfpAssessment.tsx:160 | the share of the total that the raw score is (times the total it gives the raw score), and 0 for an empty total |
| NfpAssessment.FractionBounds | components/NfpAssessment.tsx:160 | the fraction is between 0 and 1, 1 exactly for a full non-empty score, 0 exactly for no score or no elements, and times the total gives the raw score |
| NfpAssessment.CategoryResult | components/NfpAssessment.tsx:157-168 | keeps the category's id and title, counts its elements, scores its yes answers, takes their fraction, and has a percentage between 0 and 1 that is 1 exactly when all are yes and 0 exactly when none is |
| NfpAssessment.CategoryResults | components/NfpAssessment.tsx:157-168 | one result per filtered category, in order, each naming its category, counting its elements and scoring its yes answers within them, with a percentage between 0 and 1 |
| NfpAssessment.SumRawScores | components/NfpAssessment.tsx:170 | no category's raw score exceeds the total, which is 0 exactly when every raw score is |
| NfpAssessment.SumElements | components/NfpAssessment.tsx:171 | no category's size exceeds the total, which is 0 exactly when every category is empty |
| NfpAssessment.TotalScoreBounds | components/NfpAssessment.tsx:170-171 | the total never exceeds the number of elements, and equals it exactly when every element is answered yes |
| NfpAssessment.ComputeResult | components/NfpAssessment.tsx:154-188 | no result before the end; otherwise the category results, the total of their raw scores, the number of elements, their fraction between 0 and 1, and the first range holding the total (no guard against an empty filter) |
| NfpAssessment.RawScoreMonotone | components/NfpAssessment.tsx:124-126 | answering yes never lowers a category's raw score |
| NfpAssessment.TotalScoreMonotone | components/NfpAssessment.tsx:124-126 | answering yes never lowers the total |
| NfpAssessment.SumElementsAppend | components/NfpAssessment.tsx:171 | the element count adds up over concatenation |
| NfpAssessment.SumElementsOfCounts | components/NfpAssessment.tsx:171 | the element count is the sum of the per-category sizes |
| NfpAssessment.NfpDataSize | constants.ts:528-738 | the NFP table holds 107 elements |
| NfpAssessment.AllYes | components/NfpAssessment.tsx:124-126 | an answer map with yes for every element of the table |
| NfpAssessment.FullMarks | components/NfpAssessment.tsx:170-171 | answering every element yes makes the total equal the number of elements |
| NfpAssessment.ExecutiveFullMarks | components/NfpAssessment.tsx:112-114 | an 'executive' respondent sees the whole table, and answering every element yes scores its size |
| NfpAssessment.ExecutiveExtremesAreUnknown | components/NfpAssessment.tsx:174-184 | a total of 0 is 'Unknown', an executive answering everything yes scores 107, and every total from 100 to 107 is 'Unknown' |
| NfpAssessment.NfpSession.constructor | components/NfpAssessment.tsx:69-72 | a fresh controller: no role, no answers, first category, results hidden |
| NfpAssessment.NfpSession.CurrentCategory | components/NfpAssessment.tsx:122 | present exactly when the index names a filtered category; for a role other than 'executive' it is non-empty and holds no executive element |
| NfpAssessment.NfpSession.SelectRole | components/NfpAssessment.tsx:199 | sets the role and nothing else |
| NfpAssessment.NfpSession.Answer | components/NfpAssessment.tsx:124-126 | records one answer, leaves every other answer as it was, repeats are idempotent, and the index stays in range |
| NfpAssessment.NfpSession.Next | components/NfpAssessment.tsx:128-135 | moves to the next category, or on the last one shows the results, keeping the index in range |
| NfpAssessment.NfpSession.Back | components/NfpAssessment.tsx:137-141 | moves to the previous category, staying put at the first |
| NfpAssessment.NfpSession.SelectCategory | components/NfpAssessment.tsx:229 | jumps to the chosen sidebar category, which becomes the current one |
| NfpAssessment.NfpSession.Result | components/NfpAssessment.tsx:154-188 | the result of the current role and answers with every clause of `ComputeResult`: category results, totals, the total within the element count, their fraction, and the classification |
| ResultsPage.CountPerCategory | components/ResultsPage.tsx:300-303 | the keys are the bank's categories in first-appearance order, and each count is that category's question count, at least 1 |
| ResultsPage.CountStep | components/ResultsPage.tsx:301 | one pass of the reduce body keeps the keys and counts right for the questions seen so far |
| ResultsPage.Percent | components/ResultsPage.tsx:311-312 | never negative, at most 100 when the score is within the maximum, and 0 exactly for a zero score |
| ResultsPage.Series | components/ResultsPage.tsx:305-314 | one bar per category key, named after it, with the score and the benchmark as percentages of the category's size: never negative, at most 100 when within a positive count, and a zero benchmark bar for a category the tier does not list |
| ResultsPage.ExecutiveChartData | components/ResultsPage.tsx:296-328 | no chart data off the executive track or without a result; otherwise the two series name the same categories and chart the result's scores against each benchmark tier |
| ResultsPage.YourScoreWithinRange | components/ResultsPage.tsx:311 | a respondent's bar for a listed category stays between 0 and 100 |
| ResultsPage.MissingBenchmarkIsZero | components/ResultsPage.tsx:307 | a category missing from a benchmark tier gets a zero benchmark bar |
| ResultsPage.PublishedBenchmarkBars | components/ResultsPage.tsx:307-323 | 'Industry Specific' gets zero in both tiers, and the Defined bar never exceeds the Optimized bar |
| ResultsPage.ValidateEmail | components/ResultsPage.tsx:358-361 | accepts only addresses of at least five characters holding an '@' that is not the first; the exact agreement with the pattern is `ValidateEmailMatchesPattern` |
| ResultsPage.ValidateEmailSound | components/ResultsPage.tsx:358-361 | every address the check accepts matches `^[^\s@]+@[^\s@]+\.[^\s@]+$` |
| ResultsPage.ValidateEmailComplete | components/ResultsPage.tsx:358-361 | every address matching the pattern is accepted |
| ResultsPage.ValidateEmailMatchesPattern | components/ResultsPage.tsx:358-361 | the check accepts exactly the addresses matching the pattern |
| ResultsPage.EmailForm.constructor | components/ResultsPage.tsx:289-294 | empty address, not loading, marked valid, no error, not submitted |
| ResultsPage.EmailForm.Submit | components/ResultsPage.tsx:363-376 | the API is called exactly when not already loading and the address is valid; an invalid address sets the error message and the invalid mark; a valid one clears the error and starts loading; while loading nothing changes |
| ResultsPage.EmailForm.EmailChange | components/ResultsPage.tsx:392-398 | stores the new address, and if an error was shown clears it and marks the address valid again |
| PrintableSummary.SplitLines | components/PrintableSummary.tsx:56 | at least one line, none holding a line break |
| PrintableSummary.JoinSplitLines | components/PrintableSummary.tsx:56 | joining the lines with line breaks gives back the text |
| PrintableSummary.SplitJoinLines | components/PrintableSummary.tsx:56 | splitting joined lines that hold no line break gives back the lines |
| PrintableSummary.DigitRun | components/PrintableSummary.tsx:78 | the length of the run of leading digits, with a non-digit after it |
| PrintableSummary.NumberPrefixUnique | components/PrintableSummary.tsx:78 | `^\d+\.\s` matches exactly the numbered lines, and at one length only |
| PrintableSummary.StripNumber | components/PrintableSummary.tsx:84 | removes exactly what `^\d+\.\s` matches: the line is its number prefix followed by the result, and for any match length k the result is the line from k + 2 on |
| PrintableSummary.SerializeAppend | components/PrintableSummary.tsx:57-93 | the HTML of two runs of pieces is the HTML of the first followed by that of the second |
| PrintableSummary.Step | components/PrintableSummary.tsx:68-90 | after a line a bullet list is open exactly when it is a bullet line, and a numbered list exactly when it is a numbered line |
| PrintableSummary.Run | components/PrintableSummary.tsx:67-91 | after the loop, the list left open is the kind of the last line when that is a list line, and none otherwise |
| PrintableSummary.Convert | components/PrintableSummary.tsx:54-95 | empty input gives no output; its well-formedness and content are `ConvertWellFormed` and `ConvertContents` |
| PrintableSummary.HtmlWriter.constructor | components/PrintableSummary.tsx:57-58 | empty HTML and no list open |
| PrintableSummary.HtmlWriter.CloseList | components/PrintableSummary.tsx:60-65 | appends the closing tag of the open list, if any, and leaves no list open |
| PrintableSummary.HtmlWriter.Emit | components/PrintableSummary.tsx:70 | appends one piece's HTML and nothing else |
| PrintableSummary.HtmlWriter.AddItem | components/PrintableSummary.tsx:71-84 | appends an item, after closing any other list and opening this kind, and leaves this kind open |
| PrintableSummary.HtmlWriter.AddBlock | components/PrintableSummary.tsx:68-70 | closes any open list, then appends a heading or paragraph, leaving no list open |
| PrintableSummary.HtmlWriter.AddLine | components/PrintableSummary.tsx:68-90 | appends exactly what the line-conversion function gives for the line in the current list state, and moves to its next state |
| PrintableSummary.MarkdownToPrintableHtml | components/PrintableSummary.tsx:54-95 | the HTML is the conversion of all lines followed by the final close, and empty input gives empty HTML |
| PrintableSummary.TrackAppend | components/PrintableSummary.tsx:58 | reading two runs of pieces is reading the first, then the second from where it ended |
| PrintableSummary.StepTracks | components/PrintableSummary.tsx:67-91 | each line's pieces read cleanly from the list state before it and end in the state after it |
| PrintableSummary.ListItemTracks | components/PrintableSummary.tsx:71-84 | an item's pieces read cleanly and leave its list kind open |
| PrintableSummary.RunTracks | components/PrintableSummary.tsx:67-91 | the pieces of all lines read cleanly and end in the list state the loop ends in |
| PrintableSummary.ConvertWellFormed | components/PrintableSummary.tsx:54-95 | lists never nest, every item is inside a list, every list is closed by its own tag, and none is left open |
| PrintableSummary.TrackPairs | components/PrintableSummary.tsx:60-65 | reading cleanly, opening and closing tags pair up, counting the list open at each end |
| PrintableSummary.ConvertPairsLists | components/PrintableSummary.tsx:54-95 | every `<ul>` or `<ol>` opened is closed exactly once |
| PrintableSummary.ContentsAppend | components/PrintableSummary.tsx:67-91 | the headings, items and paragraphs of two runs are those of the first and then those of the second |
| PrintableSummary.LineContentCount | components/PrintableSummary.tsx:68-90 | a line shows one piece exactly when it is not blank |
| PrintableSummary.StepContents | components/PrintableSummary.tsx:68-90 | whatever list is open, a line shows the piece its first matching test decides |
| PrintableSummary.RunContents | components/PrintableSummary.tsx:67-91 | the content of all lines is what they show one by one, one piece per non-blank line |
| PrintableSummary.ConvertContents | components/PrintableSummary.tsx:54-95 | the output's headings, items and paragraphs are, in order, what the lines show, one per non-blank line |
| PrintableSummary.ListLinesAreNotHeadings | components/PrintableSummary.tsx:68-78 | bullet and numbered lines are never headings, and a numbered line is never a bullet line, so the order of the tests does not matter for them |
| PrintableSummary.SwitchingListsClosesFirst | components/PrintableSummary.tsx:72-84 | a list line after a list of the other kind closes that list before opening its own |
| PrintableSummary.ListLineSteps | components/PrintableSummary.tsx:71-84 | a list line adds an item to its own open list, and opens that list first when none is open |
| PrintableSummary.ListItems | components/PrintableSummary.tsx:77-84 | one item per list line, in order, holding the line without its marker |
| PrintableSummary.ListRun | components/PrintableSummary.tsx:71-84 | a run of list lines of one kind opens one list and adds one item per line |
| PrintableSummary.ListDocument | components/PrintableSummary.tsx:54-95 | a text of bullet lines only, or of numbered lines only, becomes one list with one item per line, closed at the end |

## Left out

- Saving and restoring progress in `localStorage` and the spinner while it loads are not modelled. They are browser I/O, and the model starts from a fresh controller.
- The saved-confirmation timer and `handleManualSave` are not modelled. They are a clock and I/O.
- `handleGoHomeAndClear` is not modelled. It clears storage and navigates away.
- The personalised guidance from `services/geminiService.ts` is not part of this model. It is a network call; its text is the converter's input.
- The e-mail API call, its delay, and the `submitted`/error/`finally` updates after it are not modelled. They are an asynchronous network call. `Submit` stops where the call would be made.
- The rendering of pages, sidebars and charts (JSX, Recharts) and the PDF export are not modelled. Only the data handed to them is modelled.
- `Math.round` on displayed percentages is not modelled. It is a display step; the model keeps exact rationals.
- The question and element texts and the category descriptions are not modelled, because no computation reads them. Only ids, categories, role tags, industry and country tags, and titles are kept.
- The extra fields that `...range` copies into an executive result (`min`, `max`) are not modelled. Only level and interpretation are kept.
- Onboarding, the home page, `App.tsx` and `services/assessmentService.ts` are not part of this model.
- NfpAssessment.NfpSession.SelectRole: keeps the category index in range only when it is already 0. A role change does not reset the index, so an index valid for the executive's 14 categories would be out of range for a manager's 13. Through the page this cannot happen: the role picker is shown only while no role is set (components/NfpAssessment.tsx:198-199), when the index is still 0. Only restoring saved progress, which is not modelled, could set a role beside another index.
- ExecutiveAssessment.ExecutiveSession.SelectCategory and NfpAssessment.NfpSession.SelectCategory: require an index in range. The sidebar only offers listed categories.
- ResultsPage.CountPerCategory: the keys are in first-appearance order because JavaScript `Object.keys` lists string keys in insertion order; it would list integer-like keys first, in ascending order, but no category name of the bank is integer-like, so the model does not represent that rule.
- PrintableSummary.HtmlWriter.AddBlock: requires a heading or paragraph piece, the only two its callers pass.
