# Persona-conditioned survey and interview pipeline, in Dafny

This project models the core of a "digital twin" survey tool. Personas are
rows of a dataset. A language-model backend answers survey and interview
questions in the voice of each persona. The tool then parses the replies,
scores its confidence in them and aggregates the results. The model covers
these pieces:

- the persona loaders: persona construction, lookup by id, column filters
  and field categories, and the earlier loader's expansion of each row's
  `persona_json` into columns of their own;
- the agents: deterministic persona traits, prompt composition, parsing of
  the tagged replies `점수: N` / `이유: ...`, and the per-question loops with
  their error handling;
- the enhanced agent: a richer persona context, prompts by question type,
  clamping of the score to the scale, a heuristic confidence, the traits and
  style of a reply, and the agent's history of answers with its statistics;
- the advanced simulator: trait lists indexed by the persona number, prompts
  by question type, a simulated call with a random Likert score, a heuristic
  confidence, and survey and interview runs that append one result per cell,
  turning a cell that raises into an error result;
- the two digital-twin survey systems: persona selection by marker texts,
  occupations and keywords, survey and interview tables with a fallback
  score, and the system object that keeps the results of each run;
- the newTwin simulator: field criteria that filter personas, question
  templates and interview guides, the persona prompt, one caught call per
  question, the interview conversation, the aggregation of survey runs into
  rows, and a keyword sentiment count;
- the survey and interview systems: surveys and interview guides that number
  their questions as they are added, their dictionary form and loading, the
  runs that ask every persona every question and replace the system's last
  results, and the per-question statistics of a survey run;
- the results manager: the default file names of a save, the files a save
  produces, and the analysis of a survey run per question (scores, errors,
  mean, minimum, maximum and the 1..7 distribution).
- the block-based selector: the safe name of a block, the available block
  labels, the filters by block presence and by question count, the sample and
  the lookup by id (its `Persona` class, scripts/block_based_selector.py:18-41,
  is the same code as that of src/dataset_loader.py, so the model reuses
  `DatasetLoader.Persona`);
- the block dataset builder: the block names gathered from every row's
  `persona_json` list, and one record per row with a presence flag and a
  question count per block, under the columns the selector looks up;
- the processed dataset builder: one record per row whose `persona_json`
  object is written over the id and the two texts, and the classification of
  the resulting columns;
- the web application: the cost estimate, the session reset, the guarded
  transitions of the four-step wizard, and the age and gender tallies of the
  selected audience.

The backend is a function `Backend.Oracle` from a call number and a request
(system prompt, earlier turns, user message) to `Ok(text)` or `Err(message)`.
Each call of a run carries a number the run assigns, and gets the reply
`backend(k, request)` for its number `k`. Most runs number their calls 0, 1,
2, ... in the order they are made. `TwinSurvey` and `TwinSurveyPackage`
number each call by its cell instead: persona `i` and question `j` give
`Grid.Position(i, j, |questions|)`, so the numbers of a persona whose prompt
cannot be built stay unused. Every loop is therefore proved against a
function of the backend's replies.

Helper modules:

- `Wrappers`: `Option` and `Result`.
- `Text`: Python string operations: `strip`, `split`, `join`, the `[:n] + "..."`
  truncation, `int`/`str` of digit strings, and the sort of a string list.
- `PyValues`: Python cell values (`None`, pandas `NaN`, integers, strings)
  with their truthiness, `str()` and `==`; insertion-ordered dictionaries;
  and a column-oriented pandas DataFrame.
- `Patterns`: the regular-expression pieces the parsers share (leftmost
  search, `\s*`, `\d+`, `\b[1-7]\b`) and the fallback answer.
- `Grid`: the results of nested loops over personas and questions, one per
  cell, persona by persona.
- `ScoreStats`: the grouping of responses by question id that the survey
  system and the results manager share, and the mean, minimum, maximum and
  distribution of a list of scores.

## Model

| member | source | states |
|---|---|---|
| DatasetLoader.Persona.GetSummary | src/dataset_loader.py:22-36 | the summary is the `persona_text` line, then the `persona_summary` line, joined by newlines, or `No summary available` |
| DatasetLoader.CollectSummaryLines | src/dataset_loader.py:24-34 | one `Field: value` line per listed field that is present and truthy, in the listed order |
| DatasetLoader.SummaryLine | src/dataset_loader.py:30-34 | at most one line; a line exactly when the field is present and truthy; its value is cut to 200 characters plus `...` when longer |
| DatasetLoader.SummaryTextCases | src/dataset_loader.py:27-36 | `persona_text` comes first, then `persona_summary`; with neither present the text is `No summary available` |
| DatasetLoader.DatasetLoader.Load | src/dataset_loader.py:59-71 | the frame is kept, and one persona per row is built in row order |
| DatasetLoader.DatasetLoader.CreatePersonas | src/dataset_loader.py:77-86 | the personas are those of rows `0 .. n-1`, in row order |
| DatasetLoader.PersonaIds | src/dataset_loader.py:81-85 | a persona's data is its row; its id is `str` of the `id` cell, or the row index when there is no `id` column |
| DatasetLoader.DatasetLoader.GetPersonaById | src/dataset_loader.py:94-99 | `None` exactly when no persona has the id; otherwise the first persona with that id |
| DatasetLoader.DatasetLoader.SearchPersonas | src/dataset_loader.py:101-124 | no frame gives `[]`; otherwise the personas of the rows that pass every filter, in row order |
| DatasetLoader.KeepMatching | src/dataset_loader.py:109-114 | narrowing the surviving rows by one more filter gives the rows that survive the longer filter list |
| DatasetLoader.KeepIgnored | src/dataset_loader.py:110 | a filter on a field that is not a column keeps every row |
| DatasetLoader.MatchingMembers | src/dataset_loader.py:109-114 | a row survives exactly when it passes every filter: list membership for a list value, equality otherwise |
| DatasetLoader.MatchingIncreasing | src/dataset_loader.py:117-122 | the surviving rows keep their order in the frame |
| DatasetLoader.MatchingNoFilters | src/dataset_loader.py:107-114 | with no filters every row survives |
| DatasetLoader.DatasetLoader.GetRandomSample | src/dataset_loader.py:133-136 | a sample size that covers all personas gives all of them in order; a smaller one gives the personas at the drawn distinct positions, so no persona twice unless the personas repeat |
| DatasetLoader.DatasetLoader.GetCategorizedFields | src/dataset_loader.py:144-167 | no frame gives `{}`; otherwise the three category lists of the columns, each sorted, empty ones dropped |
| DatasetLoader.CategoriesPartition | src/dataset_loader.py:156-165 | every column lands in exactly one of `기본정보`, `질문응답` and `기타` |
| DatasetLoader.SortedNonEmptyFacts | src/dataset_loader.py:167 | every kept list is non-empty and sorted, and every non-empty category is kept, sorted |
| DatasetLoader.FirstWithId | src/dataset_loader.py:96-99 | the first element with the id, or `None` exactly when there is none |
| AIAgent.PersonaNumber | src/ai_agent.py:49 | an all-digit id gives its value; any other id gives a number in 0..999 |
| AIAgent.ChainsAreListLookups | src/ai_agent.py:64-71 | each chained conditional on `id % 5`, `% 6`, `% 3` and `% 4` picks the list element at `id mod len` |
| AIAgent.DigitIdContext | src/ai_agent.py:46-82 | for an all-digit id the context does not depend on the string hash, and every trait is the list element at `id mod len` |
| AIAgent.SummaryEntry | src/ai_agent.py:85-89 | the background entry is present exactly when `persona_summary` is present and truthy, and is the prefix followed by the summary cut to 200 characters plus `...`; src/enhanced_ai_agent.py:196-201 builds the same entry with its own prefix |
| AIAgent.BackgroundLineCases | src/ai_agent.py:73-91 | the context has nine lines, plus a tenth for a truthy summary, which is cut to its first 200 characters plus `...` when longer |
| AIAgent.SurveyPromptCarriesContext | src/ai_agent.py:110-127 | the survey system prompt contains the persona context and the scale; the user message is `질문: ` and the question |
| AIAgent.InterviewPromptCarriesContext | src/ai_agent.py:181-197 | the interview system prompt contains the persona context, and the extra context when it is truthy |
| AIAgent.FollowUpPromptCarriesContext | src/ai_agent.py:245-265 | the follow-up system prompt contains the persona context; the earlier turns are replayed and the question is sent last |
| AIAgent.ExperimentPromptCarriesContext | src/ai_agent.py:425-443 | the experiment system prompt contains the persona context and the scenario |
| AIAgent.ExtractScore | src/ai_agent.py:291-308 | the score is `None` or lies in 1..7 |
| AIAgent.TaggedScoreWins | src/ai_agent.py:296-300 | a first tagged `점수: N` with N in 1..7 is the score, whatever bare digits come before it |
| AIAgent.OutOfRangeTagFallsThrough | src/ai_agent.py:296-305 | a first tagged score outside 1..7 is not clamped: the first standalone digit decides |
| AIAgent.TaggedScoreExample | src/ai_agent.py:296-300 | `3 점수: 5` scores 5 |
| AIAgent.OutOfRangeExample | src/ai_agent.py:296-308 | `점수: 9, 5점` has no score: 9 is out of range, and `5점` is not a standalone digit |
| Patterns.FirstStandaloneDigit | src/ai_agent.py:303-305 | the value of the leftmost standalone digit 1..7, and `None` exactly when there is none |
| Patterns.DigitBeforeHangulIsNotStandalone | src/ai_agent.py:303 | a digit followed by a Hangul syllable is not standalone, since Hangul is a word character |
| AIAgent.CapturesAreSuffixes | src/ai_agent.py:315-322 | what either reasoning pattern captures is a suffix of the reply |
| AIAgent.ExtractReasoning | src/ai_agent.py:310-325 | the reasoning is never `None`: it is always a stripped suffix of the reply |
| AIAgent.UntaggedReasoning | src/ai_agent.py:324-325 | a reply with no `이유`, `설명` or `점수` is its own reasoning, stripped |
| AIAgent.ReasoningExample | src/ai_agent.py:315-317 | `이유: 비싸다` gives the reasoning `비싸다` |
| AIAgent.SurveyAnswerOf | src/ai_agent.py:140-162 | on an exception the score, reasoning and raw response are `None` and `error` holds the message; on success there is no error, the raw response is the stripped reply and the reasoning is present |
| AIAgent.RespondToSurveyQuestion | src/ai_agent.py:93-162 | the request goes out as call `k`, and its reply is parsed |
| AIAgent.InterviewAnswerOf | src/ai_agent.py:207-226 | on an exception the response is `None` and `error` holds the message; on success the response is the stripped reply |
| AIAgent.RespondToInterviewQuestion | src/ai_agent.py:164-226 | the interview request goes out as call `k`, and its reply is taken |
| AIAgent.ConductFollowUp | src/ai_agent.py:228-289 | the follow-up request goes out as call `k`, and its reply is taken |
| AIAgent.ExperimentResponse | src/ai_agent.py:456-459 | the stripped reply, or the fixed error sentence followed by the message |
| AIAgent.SurveyLineCases | src/ai_agent.py:349-354 | a failed call with a message gives `오류: …`; otherwise `점수: {score} - {reasoning}` from the parsed reply |
| AIAgent.SurveyLinesAt | src/ai_agent.py:344-358 | there is one line per answer, and line `k` reports answer `k` |
| AIAgent.GenerateSurveyResponse | src/ai_agent.py:344-358 | call `k` answers question `k`; the lines are those of the parsed answers, in question order |
| AIAgent.GuideQuestions | src/ai_agent.py:377 | every guide question is non-blank and stripped |
| AIAgent.InterviewAnswers | src/ai_agent.py:384-397 | answer `k` belongs to guide question `k` |
| AIAgent.GenerateInterviewResponse | src/ai_agent.py:377-401 | an empty guide gives the fixed message; a failure on the first question ends with `오류: …`; otherwise every question is asked and later failures are written inline |
| AIAgent.BlocksPrefix | src/ai_agent.py:388-397 | the transcript only grows: the blocks so far are a prefix of the later ones |
| AIAgent.BlocksCoverQuestion | src/ai_agent.py:388-399 | every question, failed or not, gets its `질문: … 답변: ` block, exactly where the earlier blocks end |
| EnhancedAgent.ContextPartsCases | src/enhanced_ai_agent.py:183-209 | the enhanced context has five trait parts, plus the shortened summary as a sixth when it is truthy |
| EnhancedAgent.ValuesDiffer | src/enhanced_ai_agent.py:277-287 | a persona's primary and secondary values always differ |
| EnhancedAgent.TechPreferenceFollowsLoyalty | src/enhanced_ai_agent.py:240-266 | the technology preference comes from the part of the list that belongs to the loyalty level; at level 2 the id is even, so `안정성 중시` is never chosen |
| EnhancedAgent.ReachableTechPreferences | src/enhanced_ai_agent.py:242-260 | every other entry of the preference list is chosen for some persona number |
| EnhancedAgent.SurveyPromptContents | src/enhanced_ai_agent.py:289-346 | the prompt holds the persona context, the context and the question; a Likert prompt names both scale ends, a multiple-choice prompt every option; other types, and multiple choice without options, get the shared part only |
| EnhancedAgent.InterviewPromptContents | src/enhanced_ai_agent.py:348-370 | the interview prompt holds the persona context, the style and every question numbered from 1 |
| EnhancedAgent.ReasonIsOneLine | src/enhanced_ai_agent.py:393-395 | what `이유:\s*(.+)` captures is one non-empty line |
| EnhancedAgent.RemoveNothing | src/enhanced_ai_agent.py:403-405 | `re.sub` with no match leaves the text unchanged |
| EnhancedAgent.ParseSurveyResponse | src/enhanced_ai_agent.py:372-418 | a non-Likert reply is its own response and reasoning, with no score; the response is never longer than the reply |
| EnhancedAgent.ScoreOnScale | src/enhanced_ai_agent.py:386-391 | there is a score exactly when some `점수:` is followed by digits; it is clamped onto the scale, kept when already on it, and the lower end for an empty scale |
| EnhancedAgent.ReasoningIsRestOfLine | src/enhanced_ai_agent.py:393-397 | with no `이유:` line the reasoning is the whole reply; otherwise it is one line, stripped |
| EnhancedAgent.TagsRemovedOnlyWithBoth | src/enhanced_ai_agent.py:399-406 | the tags are removed only when both a score and a reason were found; otherwise the response is the reply |
| EnhancedAgent.ClampExample | src/enhanced_ai_agent.py:387-397 | `점수: 9` on a 1..7 scale scores 7, and with no `이유:` the reply is its own reasoning |
| EnhancedAgent.ConfidenceBounds | src/enhanced_ai_agent.py:476-512 | the confidence lies in 0.30 .. 1.00, and a score adds exactly 0.10 before the cap |
| EnhancedAgent.RepeatedIndicators | src/enhanced_ai_agent.py:488-496 | indicators are counted by list entry: `저는` and `왜냐하면` count twice, and `때문에` brings `때문` with it |
| EnhancedAgent.CountIndicators | src/enhanced_ai_agent.py:489-495 | the count is the number of list entries that occur in the reply |
| EnhancedAgent.CalculateConfidence | src/enhanced_ai_agent.py:476-512 | the accumulated confidence, in hundredths, is the capped sum of the length, indicator, content and score bonuses |
| EnhancedAgent.QuestionTraits | src/enhanced_ai_agent.py:514-526 | each question label is reported exactly when one of its keywords occurs in the lowered question |
| EnhancedAgent.ExperienceTraitFromReply | src/enhanced_ai_agent.py:528-531 | personal experience is reported exactly when the reply has `경험` or `저는`; at most four labels |
| EnhancedAgent.ExtractUsedTraits | src/enhanced_ai_agent.py:514-531 | the appended labels are those of the keywords found, in the fixed order |
| EnhancedAgent.StyleCases | src/enhanced_ai_agent.py:533-548 | the style is one of seven labels; below 50 characters `간결함`, above 300 `상세함`, else the first word group found, `균형적` when none is |
| EnhancedAgent.MidScale | src/enhanced_ai_agent.py:112 | the fallback score lies on a non-empty scale, at the middle rounded down |
| EnhancedAgent.SurveyResultOf | src/enhanced_ai_agent.py:46-121 | a failed call gives the error text, the middle score, the fixed reasoning, zero confidence and the error; a successful one no error, the stripped reply and a confidence in 0.30 .. 1.00 |
| EnhancedAgent.InterviewResultOf | src/enhanced_ai_agent.py:123-181 | a failed call gives the error text and zero confidence; a successful one keeps the stripped reply, with a confidence in 0.30 .. 1.00 |
| EnhancedAgent.InterviewTraits | src/enhanced_ai_agent.py:456-466 | the question `인터뷰` names no question trait; only personal experience can be reported |
| EnhancedAgent.PersonaIdSet | src/enhanced_ai_agent.py:556 | the stored persona ids: each entry's id is in it, it holds no other, and it has no more ids than entries |
| EnhancedAgent.ConfidenceSumBounds | src/enhanced_ai_agent.py:558-563 | stored confidences in 0.30 .. 1.00 add up to between 0.30 and 1.00 per entry |
| EnhancedAgent.AverageInRange | src/enhanced_ai_agent.py:563 | the mean of such confidences lies in 0.30 .. 1.00 |
| EnhancedAgent.EnhancedAIAgent.constructor | src/enhanced_ai_agent.py:34-44 | a new agent has an empty history |
| EnhancedAgent.EnhancedAIAgent.GenerateEnhancedSurveyResponse | src/enhanced_ai_agent.py:46-121 | the request goes out as call `k`; the result is that of its reply; the history grows by one entry on success and is unchanged on failure |
| EnhancedAgent.EnhancedAIAgent.SurveyCall | src/enhanced_ai_agent.py:59-97 | the prompt built from the enhanced context is sent as call `k`, and its reply turned into a result |
| EnhancedAgent.EnhancedAIAgent.SurveyFromReply | src/enhanced_ai_agent.py:78-121 | parsing, the confidence and trait methods and the style give the result of the reply |
| EnhancedAgent.EnhancedAIAgent.Record | src/enhanced_ai_agent.py:99-104 | a successful result is appended to the history, which keeps its invariant |
| EnhancedAgent.EnhancedAIAgent.GenerateEnhancedInterviewResponse | src/enhanced_ai_agent.py:123-181 | the interview request goes out as call `k`; the result is that of its reply, and the history is not touched |
| EnhancedAgent.EnhancedAIAgent.GetResponseStatistics | src/enhanced_ai_agent.py:550-574 | an empty history gives only the total; otherwise the count, the distinct personas (at least one, at most the count), the mean confidence (in 0.30 .. 1.00) and all entries counted as surveys |
| AdvancedSimulation.ParseInt | scripts/advanced_simulation_system.py:202 | Python's `int()` of a string succeeds exactly on an optionally signed digit string with surrounding whitespace; a plain digit string gives its decimal value |
| AdvancedSimulation.IdNumber | scripts/advanced_simulation_system.py:202 | a missing id is 0; it raises exactly for `None`, NaN and a string that is not an integer, and the failure carries the id |
| AdvancedSimulation.SecondaryTraitDiffers | scripts/advanced_simulation_system.py:234-251 | the secondary personality trait is never the primary one |
| AdvancedSimulation.TraitLinesPeriodic | scripts/advanced_simulation_system.py:224-267 | every trait line is a list element at the id modulo the list's length, so the lines repeat with period 360 |
| AdvancedSimulation.SummaryLine | scripts/advanced_simulation_system.py:217-220 | at most one background line, present exactly when `persona_summary` is present and truthy |
| AdvancedSimulation.SummaryEndsInEllipsis | scripts/advanced_simulation_system.py:219-220 | the background line always ends in `...`, even for a short summary, and holds the first at most 300 characters of the summary, all of it when it is short |
| AdvancedSimulation.PersonaContext | scripts/advanced_simulation_system.py:200-222 | building the context raises exactly when the id is not an integer |
| AdvancedSimulation.PersonaContextContents | scripts/advanced_simulation_system.py:210-222 | the context holds the four trait lines of the id's number and the background line when there is one |
| AdvancedSimulation.QuestionPromptContents | scripts/advanced_simulation_system.py:269-304 | the prompt starts with the shared part (persona context, context, question); Likert names both scale ends, multiple choice lists every option, other types and empty options add nothing |
| AdvancedSimulation.InterviewPromptContents | scripts/advanced_simulation_system.py:174-196 | the interview prompt holds the persona context, the guide's context and style and every question numbered from 1 |
| AdvancedSimulation.SimulatedAnswer | scripts/advanced_simulation_system.py:306-320 | the simulated call raises exactly for a Likert question with an empty range; a Likert score lies in the scale; other types get the fixed answer with no score |
| AdvancedSimulation.EveryScoreReachable | scripts/advanced_simulation_system.py:312 | every point of a Likert scale is the score of some draw |
| AdvancedSimulation.ConfidenceBounds | scripts/advanced_simulation_system.py:322-334 | the confidence lies in 0.5 .. 0.8, one tenth per condition, 0.8 exactly when all three hold and 0.5 exactly when none does |
| AdvancedSimulation.SimulatedConfidence | scripts/advanced_simulation_system.py:306-334 | every simulated answer gets confidence 0.7, or 0.8 only when the score takes more than 16 characters to write |
| AdvancedSimulation.SingleResponse | scripts/advanced_simulation_system.py:149-172 | one cell raises exactly when the context or the simulated call raises |
| AdvancedSimulation.SurveyCellOutcome | scripts/advanced_simulation_system.py:88-105 | a cell fails exactly for a non-integer id or an empty Likert range; a failed cell has score 3, confidence 0 and the error text whatever the scale; a successful one has confidence 0.7 or 0.8 and a score in the scale exactly for Likert |
| AdvancedSimulation.SurveyRunLayout | scripts/advanced_simulation_system.py:85-105 | a survey run yields `|personas| * |questions|` results, persona-major, each being its own cell's result regardless of other cells |
| Grid.RowsLayout | scripts/advanced_simulation_system.py:85-94 | nested loops that append one result per cell give the row-major layout |
| AdvancedSimulation.InterviewResponse | scripts/advanced_simulation_system.py:174-198 | the interview response raises exactly when the id is not an integer and is otherwise the fixed simulated answer |
| AdvancedSimulation.InterviewRunOutcome | scripts/advanced_simulation_system.py:118-144 | one result per persona, in order, under the guide's id, with no score and confidence 0; it records the style exactly when the id is an integer, and the error text otherwise |
| AdvancedSimulation.AdvancedPersonaSimulator.constructor | scripts/advanced_simulation_system.py:70-74 | a new simulator has no results |
| AdvancedSimulation.AdvancedPersonaSimulator.GenerateSurveyResponses | scripts/advanced_simulation_system.py:76-108 | the batch is the survey run, and `results` is the old results followed by the batch |
| AdvancedSimulation.AdvancedPersonaSimulator.GenerateInterviewResponses | scripts/advanced_simulation_system.py:110-147 | the batch is the interview run, and `results` is the old results followed by the batch |
| AdvancedSimulation.AdvancedPersonaSimulator.SurveyCellResult | scripts/advanced_simulation_system.py:89-105 | one cell's body and its `except` give that cell's result |
| AdvancedSimulation.AdvancedPersonaSimulator.InterviewCellResult | scripts/advanced_simulation_system.py:121-144 | one persona's body and its `except` give that persona's interview result |
| TwinSurvey.JsonDict | scripts/digital_twin_survey_system.py:93 | the JSON part is `persona_json`, else `json`, and only a non-empty object counts |
| TwinSurvey.IntOf | scripts/digital_twin_survey_system.py:102 | `int()` keeps an integer and rejects `None` and NaN; a string goes through the integer parser |
| TwinSurvey.JsonAge | scripts/digital_twin_survey_system.py:98-105 | a found age is the integer value of one of the age keys present in the JSON object |
| TwinSurvey.FindJsonAge | scripts/digital_twin_survey_system.py:98-105 | the scan over the age keys, stopping at the first convertible value, finds the specified age |
| TwinSurvey.AppendItems | scripts/digital_twin_survey_system.py:111-114 | the loop over the JSON entries appends ` key value` for each non-`None` entry, in order |
| TwinSurvey.AppendedContains | scripts/digital_twin_survey_system.py:111-114 | every appended item text occurs in the result |
| TwinSurvey.BuildPersonaText | scripts/digital_twin_survey_system.py:91-114 | the text built for a row is the persona text: the row's own text, the age when non-zero, then the JSON entries |
| TwinSurvey.PersonaTextContents | scripts/digital_twin_survey_system.py:91-114 | the persona text starts with the row's own text, is exactly that text without a JSON object, and contains ` key value` for every non-`None` JSON entry |
| TwinSurvey.MarkerOf | scripts/digital_twin_survey_system.py:127-139 | a choice's marker comes from the branch naming it; a choice no branch names has none |
| TwinSurvey.FindLabel | scripts/digital_twin_survey_system.py:124-143 | the scan over the selected choices, stopping at the first found, finds some choice iff one of them has its marker in the text |
| TwinSurvey.CheckLabels | scripts/digital_twin_survey_system.py:124-143 | an absent list criterion is met; a present one as the scan decides |
| TwinSurvey.SkipSeparators | scripts/digital_twin_survey_system.py:148 | `[:\s]*` stops at the first character that is neither a colon nor whitespace |
| TwinSurvey.AgeMention | scripts/digital_twin_survey_system.py:148-151 | the leftmost `age[:\s]*digits` match in the lower-cased text gives a non-negative age |
| TwinSurvey.CheckCustomAge | scripts/digital_twin_survey_system.py:146-155 | `custom_age` fails without an age mention and when the mentioned age lies outside the bounds |
| TwinSurvey.CheckOccupations | scripts/digital_twin_survey_system.py:198-209 | `occupations` is met by a case-insensitive occurrence of some selected occupation, or by selecting at least 20 |
| TwinSurvey.CheckCriteria | scripts/digital_twin_survey_system.py:121-237 | the chain of checks, each run only while the row still matches, accepts exactly the texts that meet every present criterion |
| TwinSurvey.PassesExplained | scripts/digital_twin_survey_system.py:124-237 | a passing row with genders shows a selected gender's marker; with locations, a selected region's marker; with `custom_age`, a mentioned age within the bounds; 20 occupations or more let every row through; `65+` with its marker meets the age criterion |
| TwinSurvey.AdmitRow | scripts/digital_twin_survey_system.py:91-240 | one row's text and checks decide whether its index is appended |
| TwinSurvey.SelectRows | scripts/digital_twin_survey_system.py:85-240 | the loop over the rows returns the specified selection |
| TwinSurvey.SelectionMembers | scripts/digital_twin_survey_system.py:85-240 | an index is selected iff its row's text passes every present criterion; the selection is strictly increasing |
| TwinSurvey.EmptyLabelListExcludesEveryone | scripts/digital_twin_survey_system.py:124-143 | an empty list of ages, genders, educations or regions selects nobody |
| TwinSurvey.SurveyRequestContents | scripts/digital_twin_survey_system.py:471-488 | the survey request has no history, names the 1-7 scale in both prompts and carries the question and the first 2000 characters of the persona text |
| TwinSurvey.SurveyCellOutcome | scripts/digital_twin_survey_system.py:497-519 | a failed cell has no answer and an `Error: ` reasoning; a reply that is not JSON gives an answer in 1..7, 4 without a standalone digit, with the reply as reasoning; a JSON object's answer is kept |
| TwinSurvey.InterviewRequestContents | scripts/digital_twin_survey_system.py:532-548 | the interview request has no history, the fixed system prompt, and carries the question and the first 2000 characters of the persona text |
| TwinSurvey.InterviewCellOutcome | scripts/digital_twin_survey_system.py:436-446 | an interview answer is always a string: the stripped reply, or an `Error: ` text, never `None` |
| TwinSurvey.QKeyInjective | scripts/digital_twin_survey_system.py:383 | different questions get different `Q{n}` columns |
| TwinSurvey.ReasoningKeyInjective | scripts/digital_twin_survey_system.py:384 | different questions get different reasoning columns |
| TwinSurvey.QKeyIsNoReasoningKey | scripts/digital_twin_survey_system.py:383-384 | no answer column is a reasoning column |
| TwinSurvey.SurveyKeyAtInjective | scripts/digital_twin_survey_system.py:383-384 | the survey columns never repeat |
| TwinSurvey.SurveyColumnsDistinct | scripts/digital_twin_survey_system.py:359-394 | a survey record's columns are distinct |
| TwinSurvey.InterviewColumnsDistinct | scripts/digital_twin_survey_system.py:421-451 | an interview record's columns are distinct |
| TwinSurvey.NumberedDistinct | scripts/digital_twin_survey_system.py:383-384 | question columns under an injective naming that avoids the fixed columns are distinct |
| TwinSurvey.NumberedFresh | scripts/digital_twin_survey_system.py:383-384 | under such a naming the next question's column is not yet taken |
| TwinSurvey.SurveyColumnsFresh | scripts/digital_twin_survey_system.py:383-384 | the next question's two columns are new to the record |
| TwinSurvey.InterviewColumnsFresh | scripts/digital_twin_survey_system.py:442 | the next question's column is new to the record |
| TwinSurvey.SurveyRecordKeys | scripts/digital_twin_survey_system.py:366-389 | a survey record's keys are its columns in order |
| TwinSurvey.InterviewRecordKeys | scripts/digital_twin_survey_system.py:428-446 | an interview record's keys are its columns in order |
| TwinSurvey.PutSurveyAnswer | scripts/digital_twin_survey_system.py:383-389 | setting the next answer and reasoning appends the two entries |
| TwinSurvey.PutInterviewAnswer | scripts/digital_twin_survey_system.py:442-446 | setting the next answer appends the entry |
| TwinSurvey.SurveyRecordLookup | scripts/digital_twin_survey_system.py:366-389 | a survey record gives back its participant id, its persona index and each question's answer and reasoning |
| TwinSurvey.InterviewRecordLookup | scripts/digital_twin_survey_system.py:428-446 | an interview record gives back its participant id, its persona index and each question's answer |
| TwinSurvey.SurveyTableShape | scripts/digital_twin_survey_system.py:359-394 | one record per persona index, in order, every record with the same columns, naming its persona and holding each cell's outcome |
| TwinSurvey.InterviewTableShape | scripts/digital_twin_survey_system.py:421-451 | one record per persona index, in order, with the interview columns, naming its persona and holding each cell's string outcome |
| TwinSurvey.AskSurveyQuestion | scripts/digital_twin_survey_system.py:375-389 | one survey cell's `try`/`except` gives the specified cell |
| TwinSurvey.AskInterviewQuestion | scripts/digital_twin_survey_system.py:436-446 | one interview cell's `try`/`except` gives the specified cell |
| TwinSurvey.SurveyRecords | scripts/digital_twin_survey_system.py:359-394 | the nested loops build the specified survey table |
| TwinSurvey.InterviewRecords | scripts/digital_twin_survey_system.py:421-451 | the nested loops build the specified interview table |
| TwinSurvey.DigitalTwinSurveySystem.constructor | scripts/digital_twin_survey_system.py:19-30 | a new system over a loaded dataset has nothing selected and no results |
| TwinSurvey.DigitalTwinSurveySystem.SetSelectedPersonas | scripts/digital_twin_survey_system.py:299 | the interactive selection's result becomes the selected personas and nothing else changes |
| TwinSurvey.DigitalTwinSurveySystem.SelectPersonasByCriteria | scripts/digital_twin_survey_system.py:63-240 | without criteria every index, in order; with criteria the selection of the rows that pass |
| TwinSurvey.DigitalTwinSurveySystem.ConductSurvey | scripts/digital_twin_survey_system.py:340-400 | the given indices, else the selected personas, give the survey table, which is returned and appended as exactly one new frame; nothing else changes |
| TwinSurvey.DigitalTwinSurveySystem.ConductInterview | scripts/digital_twin_survey_system.py:402-457 | the given indices, else the selected personas, give the interview table, which is returned and appended as exactly one new frame; nothing else changes |
| TwinSurveyPackage.PersonaText | digital_twin_survey/digital_twin_survey_system.py:79 | `persona_text` is the column's string, empty when absent |
| TwinSurveyPackage.SelectionMembers | digital_twin_survey/digital_twin_survey_system.py:63-89 | without criteria or without a keyword every index is selected; with a keyword exactly those whose text contains it ignoring case; always strictly increasing |
| TwinSurveyPackage.FilterRows | digital_twin_survey/digital_twin_survey_system.py:78-87 | the loop over the rows returns the specified selection |
| TwinSurveyPackage.AllRows | digital_twin_survey/digital_twin_survey_system.py:86-87 | without a keyword every index is appended, in order |
| TwinSurveyPackage.KeywordRows | digital_twin_survey/digital_twin_survey_system.py:78-85 | with a keyword the indices whose text contains it are appended, in order |
| TwinSurveyPackage.KeywordHit | digital_twin_survey/digital_twin_survey_system.py:84-85 | one row's test is the case-insensitive containment, and it adds the row's index exactly when it holds |
| TwinSurveyPackage.DigitalTwinSurveySystem.constructor | digital_twin_survey/digital_twin_survey_system.py:19-30 | a new system over a loaded dataset has nothing selected and no results |
| TwinSurveyPackage.DigitalTwinSurveySystem.SetSelectedPersonas | digital_twin_survey/digital_twin_survey_system.py:135 | the interactive selection's result becomes the selected personas and nothing else changes |
| TwinSurveyPackage.DigitalTwinSurveySystem.SelectPersonasByCriteria | digital_twin_survey/digital_twin_survey_system.py:63-89 | the method returns the specified keyword selection |
| TwinSurveyPackage.DigitalTwinSurveySystem.ConductSurvey | digital_twin_survey/digital_twin_survey_system.py:177-237 | the given indices, else the selected personas, give the same survey table as the command-line system, appended as exactly one new frame |
| TwinSurveyPackage.DigitalTwinSurveySystem.ConductInterview | digital_twin_survey/digital_twin_survey_system.py:239-294 | the given indices, else the selected personas, give the same interview table as the command-line system, appended as exactly one new frame |
| NewTwin.PyLe | newTwin/digital_twin_survey_system.py:80 | integers and strings compare as Python orders them; a comparison with `None` raises |
| NewTwin.Within | newTwin/digital_twin_survey_system.py:80 | a range test on integers is the inclusive `lo <= x <= hi` |
| NewTwin.CriterionOn | newTwin/digital_twin_survey_system.py:76-85 | a criterion on a key the persona lacks holds; a plain value must equal the field, and NaN never does; a dict must equal a nested field as Python compares dicts; a list or a tuple of another length equals no field, which holds a plain value or a flat object |
| NewTwin.SameDictFacts | newTwin/digital_twin_survey_system.py:83 | dict equality is symmetric, and a dict without NaN equals itself |
| NewTwin.ObjectCriterion | newTwin/digital_twin_survey_system.py:83-85 | a dict criterion keeps a persona whose field is an equal dict, in any entry order, and drops one whose field is a plain value |
| NewTwin.ObjectOrderExample | newTwin/digital_twin_survey_system.py:83-85 | `{"a": 1, "b": 2}` as a criterion keeps the field `{"b": 2, "a": 1}` |
| NewTwin.PersonaMatchMeaning | newTwin/digital_twin_survey_system.py:75-86 | a persona matches exactly when every criterion holds of it |
| NewTwin.AbsentKeysIgnored | newTwin/digital_twin_survey_system.py:77 | criteria on keys the persona lacks change neither the match nor whether it raises |
| NewTwin.FilteredSelection | newTwin/digital_twin_survey_system.py:73-87 | the filter raises exactly when some persona cannot be compared; otherwise it keeps exactly the matching personas, each once, in dataset order |
| NewTwin.NoCriteriaKeepsEveryone | newTwin/digital_twin_survey_system.py:73-87 | no criteria keep every persona, in order |
| NewTwin.MatchPersona | newTwin/digital_twin_survey_system.py:75-85 | the inner loop with its `break` computes the match of the criteria in order |
| NewTwin.AdmitPersona | newTwin/digital_twin_survey_system.py:74-87 | one persona extends the filtered list by itself exactly when it matches, and a raise comes from that persona |
| NewTwin.PersonaDataLoader.constructor | newTwin/digital_twin_survey_system.py:34-37 | the loader holds the loaded rows |
| NewTwin.PersonaDataLoader.FilterPersonas | newTwin/digital_twin_survey_system.py:64-90 | the loop returns the matching personas in dataset order, or raises as the specification says |
| NewTwin.QuestionsByCategory | newTwin/digital_twin_survey_system.py:191-194 | a known category gives its three questions from the question table; an unknown one gives the empty list |
| NewTwin.PromptShape | newTwin/digital_twin_survey_system.py:208-230 | the prompt starts with the fixed header and ends with the fixed instruction; it holds the `persona_text` when present, else every line of `persona_json`, else a line for every field except `id` and `index` |
| NewTwin.CreatePersonaPrompt | newTwin/digital_twin_survey_system.py:208-230 | the `+=` building yields the persona prompt of that shape |
| NewTwin.SystemPromptStart | newTwin/digital_twin_survey_system.py:240-249 | the system prompt starts with the persona prompt, hence with the fixed header |
| NewTwin.UserMessage | newTwin/digital_twin_survey_system.py:252-254 | the bare question for a missing or empty context, else a message starting `Context: `, containing the context and ending with the question |
| NewTwin.SimRequest | newTwin/digital_twin_survey_system.py:256-266 | the call carries the system prompt, no history and the user message |
| NewTwin.Simulated | newTwin/digital_twin_survey_system.py:268-296 | a returned call succeeds with the reply as response; a failed one has no response, carries the error and is not successful |
| NewTwin.SimulateResponse | newTwin/digital_twin_survey_system.py:232-296 | the `k`-th call's result under the persona's system prompt, with failures caught |
| NewTwin.CreateSystemPrompt | newTwin/digital_twin_survey_system.py:240-249 | the system prompt is the persona prompt followed by the guidelines |
| NewTwin.Respond | newTwin/digital_twin_survey_system.py:251-296 | the result of asking one question under a given system prompt |
| NewTwin.PersonaId | newTwin/digital_twin_survey_system.py:307 | the persona's `id`, or `unknown` without one |
| NewTwin.SurveyResponses | newTwin/digital_twin_survey_system.py:313-316 | one response per question, in question order |
| NewTwin.SurveyResponsesFacts | newTwin/digital_twin_survey_system.py:313-316 | each response succeeded exactly when its call returned, with the reply or the error; a failure does not stop later questions |
| NewTwin.ConductSurvey | newTwin/digital_twin_survey_system.py:298-319 | the run carries the persona id, the context and the survey's responses |
| NewTwin.AskSurveyQuestions | newTwin/digital_twin_survey_system.py:313-316 | the loop asks question `i` as call `i` and appends the response |
| NewTwin.Block | newTwin/digital_twin_survey_system.py:344-362 | a main question's entries: its answer, then with probes one probe entry asking the first probe |
| NewTwin.ConversationOfBlocks | newTwin/digital_twin_survey_system.py:336-362 | blocks of equal width led by their main questions make a conversation of `1 + n * w` entries with the opening first and only there |
| NewTwin.BlocksShaped | newTwin/digital_twin_survey_system.py:344-362 | every block of a guide has the guide's width and is led by its main question |
| NewTwin.ConversationShape | newTwin/digital_twin_survey_system.py:336-362 | the conversation has `1 + m * (2 if probes else 1)` entries: the opening first, main question `j` at `1 + j * w`, every probe asking `probes[0]` |
| NewTwin.BuiltInConversations | newTwin/digital_twin_survey_system.py:123-152 | each built-in guide gives a conversation of nine entries |
| NewTwin.AskMainQuestion | newTwin/digital_twin_survey_system.py:344-362 | one loop step appends its main question's block |
| NewTwin.ConductInterview | newTwin/digital_twin_survey_system.py:321-365 | the run carries the persona id, the opening as interview type and the conversation of the guide |
| NewTwin.Interview | newTwin/digital_twin_survey_system.py:336-362 | the loop appends the opening, then each block in order |
| NewTwin.AggregatedLength | newTwin/digital_twin_survey_system.py:410-420 | there is one row per response across all results |
| NewTwin.AggregatedAt | newTwin/digital_twin_survey_system.py:410-420 | response `j` of result `i` lands after all rows of the results before `i` |
| NewTwin.AggregatedLayout | newTwin/digital_twin_survey_system.py:407-422 | one row per response, persona-major, carrying the persona id, the question and the response |
| NewTwin.AppendRunRows | newTwin/digital_twin_survey_system.py:413-419 | the inner loop adds one result's rows after the earlier rows |
| NewTwin.AggregateSurveyResults | newTwin/digital_twin_survey_system.py:407-422 | the loop builds the aggregated rows, result by result |
| NewTwin.Hits | newTwin/digital_twin_survey_system.py:435-436 | a hit count is at most the number of words |
| NewTwin.SentimentOf | newTwin/digital_twin_survey_system.py:438-443 | more positive hits is positive, more negative hits is negative, a tie is neutral |
| NewTwin.CountsPartition | newTwin/digital_twin_survey_system.py:445-449 | the three counts add up to the number of labels |
| NewTwin.SentimentsLength | newTwin/digital_twin_survey_system.py:432-434 | one label per non-empty response |
| NewTwin.SentimentTotals | newTwin/digital_twin_survey_system.py:425-450 | positive, negative and neutral add up to the total, which is the number of non-empty responses |
| NewTwin.AnalyzeSentiment | newTwin/digital_twin_survey_system.py:425-450 | the loop's counts are the tallies of the labels of the non-empty responses |
| ScoreStats.GroupedGet | src/results_manager.py:282-296 | the group of an id is absent when no response has it; otherwise it holds the question of the id's first response, its scores in order and its number of missing scores |
| ScoreStats.GroupedKeys | src/results_manager.py:282-296 | the groups have distinct ids, one for each id that occurs, in order of first appearance |
| ScoreStats.ScoresPlusErrors | src/survey_system.py:285-288 | a missing score is an error, so an id's scores plus its errors are its responses |
| ScoreStats.GroupCounts | src/survey_system.py:274-288 | every group's scores plus errors equal the number of responses with its id |
| ScoreStats.GroupAt | src/results_manager.py:282-296 | the `i`-th group belongs to an id that occurs and holds exactly that id's scores and errors |
| ScoreStats.ScoresBetween | src/results_manager.py:292-294 | bounds that hold for every response's score hold for every score of a group |
| ScoreStats.Group | src/results_manager.py:282-296 | the loop that creates a group on the first sight of an id and counts into it builds the grouping |
| ScoreStats.Min | src/results_manager.py:302 | `min(scores)` is at most every score and is one of them |
| ScoreStats.Max | src/results_manager.py:303 | `max(scores)` is at least every score and is one of them |
| ScoreStats.SumBounds | src/results_manager.py:301 | scores between `lo` and `hi` have a sum between `n * lo` and `n * hi` |
| ScoreStats.MeanBetween | src/results_manager.py:301-303 | the mean lies between the minimum and the maximum |
| ScoreStats.MeanWithin | src/survey_system.py:299 | the mean of scores that lie within bounds lies within them |
| ScoreStats.CountOf | src/results_manager.py:306 | `scores.count(v)` is at most the number of scores |
| ScoreStats.Distribution | src/results_manager.py:306 | the distribution has seven entries, keyed 1 to 7 in order |
| ScoreStats.DistributionTotal | src/results_manager.py:306 | the distribution's counts add up to the number of scores in 1..7, so to at most all of them, and to all of them when every score is on the scale |
| SurveySystem.AssignedId | src/survey_system.py:60-61 | a given id is kept; without one the id is the prefix followed by the count before insertion plus one |
| SurveySystem.GeneratedIdsDiffer | src/survey_system.py:60-61 | generated ids for different counts differ |
| SurveySystem.ExplicitIdCanRepeat | src/survey_system.py:60-61 | an explicit id is not checked against generated ones: `Q2` given first equals the id generated for the second question |
| SurveySystem.Survey.constructor | src/survey_system.py:46-49 | a new survey has the title and description and no questions |
| SurveySystem.Survey.AddQuestion | src/survey_system.py:52-64 | the question, with the kept or generated `Q` id, is appended at the end; the earlier questions, the title and the description are unchanged |
| SurveySystem.Survey.ToDict | src/survey_system.py:66-72 | the dictionary has the title, the description and one entry per question, in insertion order |
| SurveySystem.ToDictRoundTrip | src/survey_system.py:34-40 | loading a survey's dictionary gives back its questions, ids included, and its title and description |
| SurveySystem.LoadedIdsDistinct | src/survey_system.py:145-151 | questions loaded without ids get `Q1`, `Q2`, ... in order, all different |
| SurveySystem.RunLayout | src/survey_system.py:223-248 | the run has `|personas| * |questions|` responses, persona-major; the response at `i * |questions| + j` is persona `i`'s answer to question `j` as call number `i * |questions| + j`, annotated with the survey title and the question's id and category |
| SurveySystem.StatisticsRows | src/survey_system.py:274-306 | there is one row for each question id that occurs and no other, the ids are distinct, and each row's count plus errors is the number of responses to its id |
| SurveySystem.StatisticsAverages | src/survey_system.py:297-299 | a question without scores has average 0; when every score is on the 1..7 scale, every question with scores has an average between 1 and 7 |
| SurveySystem.GroupOnScale | src/survey_system.py:299 | a group with scores on the scale has a mean between 1 and 7 |
| SurveySystem.SurveySystem.constructor | src/survey_system.py:78-82 | a new system has no survey and no responses |
| SurveySystem.SurveySystem.LoadSurvey | src/survey_system.py:138-157 | a fresh survey with the data's title, its description or `""`, and the loaded questions in order becomes the current survey; the responses are unchanged |
| SurveySystem.SurveySystem.ConductSurvey | src/survey_system.py:184-264 | without a given or current survey the run is `[]`, no call is made and the responses are kept; otherwise the run of the given survey, else the current one, replaces the responses |
| SurveySystem.SurveySystem.Ask | src/survey_system.py:226-248 | the nested loops produce the run, cell by cell |
| SurveySystem.SurveySystem.Respond | src/survey_system.py:234-246 | one cell: the agent's answer to the question, then its annotations |
| SurveySystem.SurveySystem.ResponseStatistics | src/survey_system.py:266-306 | the grouping loop and the table loop compute the statistics rows |
| InterviewSystem.InterviewGuide.constructor | src/interview_system.py:46-49 | a new guide has the title and description and no questions |
| InterviewSystem.InterviewGuide.AddQuestion | src/interview_system.py:52-64 | the question, with the kept or generated `IQ` id, is appended at the end; the earlier questions, the title and the description are unchanged |
| InterviewSystem.InterviewGuide.ToDict | src/interview_system.py:66-72 | the dictionary has the title, the description and one entry per question, in insertion order |
| InterviewSystem.ToDictRoundTrip | src/interview_system.py:34-40 | loading a guide's dictionary gives back its questions, ids included, and its title and description |
| InterviewSystem.LoadedIdsDistinct | src/interview_system.py:140-146 | questions loaded without ids get `IQ1`, `IQ2`, ... in order, all different |
| InterviewSystem.RunLayout | src/interview_system.py:223-259 | one record per persona, in order, with the persona's id and the guide title; record `i` holds one response per question, in guide order, each the answer of call `i * |questions| + j` annotated with the question's id and category |
| InterviewSystem.InterviewSystem.constructor | src/interview_system.py:78-82 | a new system has no guide and no interviews |
| InterviewSystem.InterviewSystem.LoadGuide | src/interview_system.py:133-152 | a fresh guide with the data's title, its description or `""`, and the loaded questions in order becomes the current guide; the interviews are unchanged |
| InterviewSystem.InterviewSystem.ConductInterviews | src/interview_system.py:180-270 | without a given or current guide the run is `[]`, no call is made and the interviews are kept; otherwise the run of the given guide, else the current one, replaces the interviews |
| InterviewSystem.InterviewSystem.Interview | src/interview_system.py:223-259 | the outer loop appends one record per persona |
| InterviewSystem.InterviewSystem.InterviewOne | src/interview_system.py:224-251 | the inner loop builds one persona's record, question by question |
| InterviewSystem.InterviewSystem.Respond | src/interview_system.py:238-249 | one cell: the agent's answer to the question with its context, then its annotations |
| ResultsManager.SafeTitle | src/results_manager.py:49-50 | the title part of a default name holds only letters, digits and `_`, so no space, `/` or `.` |
| ResultsManager.SafeTitleIdempotent | src/results_manager.py:49-50 | cleaning a cleaned title changes nothing |
| ResultsManager.SurveyFiles | src/results_manager.py:41-69 | no responses give `{}`; otherwise the keys are `json`, `csv` and `summary`, in that order |
| ResultsManager.InterviewFiles | src/results_manager.py:93-121 | no interviews give `{}`; otherwise the keys are `json`, `transcript` and `csv`, in that order |
| ResultsManager.DefaultStemNoSlash | src/results_manager.py:47-51 | a default stem has no `/` when the timestamp has none |
| ResultsManager.InDirDirect | src/results_manager.py:56 | a file name without `/` joined to the directory lies directly inside it |
| ResultsManager.SurveyPathsInDir | src/results_manager.py:56-69 | a stem without `/` gives three different survey files, all directly inside the output directory |
| ResultsManager.InterviewPathsInDir | src/results_manager.py:108-121 | a stem without `/` gives three different interview files, all directly inside the output directory |
| ResultsManager.DefaultFilesInDir | src/results_manager.py:46-121 | a save with a default name writes three different files directly inside the output directory, for surveys and for interviews |
| ResultsManager.AnalyzedEmpty | src/results_manager.py:271-272 | the analysis is `{}` exactly when there are no responses |
| ResultsManager.AnalyzedCounts | src/results_manager.py:274-279 | the total is the number of responses; the unique persona and question counts are between 1 and that number |
| ResultsManager.PersonaIdsBound | src/results_manager.py:276 | the distinct persona ids are at most the responses |
| ResultsManager.QuestionIdsBound | src/results_manager.py:277 | the distinct question ids are at most the responses |
| ResultsManager.AnalyzedQuestions | src/results_manager.py:282-296 | the per-question entries have distinct ids, one per id that occurs, and each entry's scores plus errors are that id's responses |
| ResultsManager.SummaryFacts | src/results_manager.py:299-306 | a question has a summary exactly when it has scores; then `min <= mean <= max`, `count` is the number of scores, and the distribution has keys 1..7 with counts adding up to at most `count`, to `count` when every score is on the scale |
| ResultsManager.AnalyzeSurveyResults | src/results_manager.py:261-308 | the loops compute the analysis |
| ResultsManager.DistinctIds | src/results_manager.py:276-277 | the loop collects the sets of persona ids and question ids |
| ResultsManager.Summaries | src/results_manager.py:299-306 | the loop adds a summary to each question with scores, in order |
| DatasetLoaderBackup.KeyLine | src/dataset_loader_backup.py:30-32 | at most one line; a line exactly when the field is present and truthy, `Field: value` with the field capitalised |
| DatasetLoaderBackup.KeyLinesEmpty | src/dataset_loader_backup.py:30-35 | there are no key-field lines exactly when no key field is present and truthy |
| DatasetLoaderBackup.ShortLinesEmpty | src/dataset_loader_backup.py:35-38 | there are no fallback lines exactly when no value is a string shorter than 200 characters |
| DatasetLoaderBackup.SummaryCases | src/dataset_loader_backup.py:22-40 | the summary lists the present and truthy key fields; without any, the string values shorter than 200 characters; without those, the printed data |
| DatasetLoaderBackup.GetSummary | src/dataset_loader_backup.py:22-40 | the two loops and the final choice compute the summary |
| DatasetLoaderBackup.CollectKeyLines | src/dataset_loader_backup.py:30-32 | one line per key field that is present and truthy, in the listed order |
| DatasetLoaderBackup.CollectShortLines | src/dataset_loader_backup.py:36-38 | one `key: value` line per string value shorter than 200 characters, in entry order |
| DatasetLoaderBackup.RenamedGet | src/dataset_loader_backup.py:107-114 | a renamed key holds the value of the last entry renamed to it, so a later entry overwrites an earlier one |
| DatasetLoaderBackup.LastRenamedToSome | src/dataset_loader_backup.py:108-114 | some entry is renamed to a key exactly when one of the entries' keys renames to it |
| DatasetLoaderBackup.RenamedHas | src/dataset_loader_backup.py:107-114 | the keys of the renamed object are exactly the renamed keys of the entries |
| DatasetLoaderBackup.RenamedKeys | src/dataset_loader_backup.py:107-114 | the renamed object has no repeated key |
| DatasetLoaderBackup.RenamedFresh | src/dataset_loader_backup.py:114 | without clashes, each renamed key is new when it is stored |
| DatasetLoaderBackup.RenamedWithoutClash | src/dataset_loader_backup.py:107-114 | without clashes, the renamed object is the parsed one with each all-digit key prefixed by `question_`, in the same order |
| DatasetLoaderBackup.RenameKeys | src/dataset_loader_backup.py:107-114 | the loop over the parsed items builds the renamed object |
| DatasetLoaderBackup.JsonRecord | src/dataset_loader_backup.py:96-120 | a falsy `persona_json`, a failed decode or a value that is not a string decoding to an object gives `{}`; otherwise the renamed object |
| DatasetLoaderBackup.ParseRow | src/dataset_loader_backup.py:97-120 | one pass of the row loop gives that record |
| DatasetLoaderBackup.Records | src/dataset_loader_backup.py:94-120 | one record per row, record `k` from row `k`'s `persona_json` |
| DatasetLoaderBackup.AddKeysFacts | src/dataset_loader_backup.py:124 | adding a record's keys keeps the column names distinct and adds exactly those keys |
| DatasetLoaderBackup.JsonColumnsFacts | src/dataset_loader_backup.py:124 | the json frame's columns are distinct and are exactly the keys of the records |
| DatasetLoaderBackup.JsonColumnAt | src/dataset_loader_backup.py:124-130 | row `k` of a json column is the record's value for the key, `NaN` when the record lacks it |
| DatasetLoaderBackup.SetColumnColumns | src/dataset_loader_backup.py:129-132 | assigning a column keeps the existing columns in place and adds the name unless it is one already |
| DatasetLoaderBackup.SetColumnCell | src/dataset_loader_backup.py:129-132 | after the assignment, the named column holds the new values |
| DatasetLoaderBackup.SetColumnOther | src/dataset_loader_backup.py:129-132 | after the assignment, every other column keeps its values |
| DatasetLoaderBackup.Expanded | src/dataset_loader_backup.py:88-139 | the expanded frame is well formed and has the original height |
| DatasetLoaderBackup.MergedValid | src/dataset_loader_backup.py:128-132 | every merge step keeps the frame well formed |
| DatasetLoaderBackup.MergedStep | src/dataset_loader_backup.py:128-132 | one merge step adds its target column unless it is already a column |
| DatasetLoaderBackup.MergedPrefix | src/dataset_loader_backup.py:128-132 | merging only adds columns after the original ones |
| DatasetLoaderBackup.MergedKeepsValues | src/dataset_loader_backup.py:128-132 | an original column whose name does not start with `json_` keeps its values |
| DatasetLoaderBackup.TargetsDiffer | src/dataset_loader_backup.py:129-132 | two different plain keys go to different columns |
| DatasetLoaderBackup.MergedColumns | src/dataset_loader_backup.py:128-132 | with plain, distinct keys, the columns are the original ones and each key's target against the original columns |
| DatasetLoaderBackup.MergedTarget | src/dataset_loader_backup.py:129 | with plain, distinct keys, the `col not in self.df.columns` test gives the same answer against the merged columns as against the original ones |
| DatasetLoaderBackup.MergedAt | src/dataset_loader_backup.py:129-132 | with plain, distinct keys, step `n` writes its key's column under its target against the original columns |
| DatasetLoaderBackup.MergedValues | src/dataset_loader_backup.py:128-132 | with plain, distinct keys, each json column holds every row's value for its key, under its own name when that was free and under `json_<name>` otherwise |
| DatasetLoaderBackup.FirstIdKey | src/dataset_loader_backup.py:150-157 | the first of `id`, `persona_id`, `participant_id`, `pid` that is a column, or none |
| DatasetLoaderBackup.ReadRowId | src/dataset_loader_backup.py:147-157 | the `if`/`elif` chain chooses the row's id |
| DatasetLoaderBackup.PersonasOf | src/dataset_loader_backup.py:143-161 | one persona per row, persona `k` from row `k` |
| DatasetLoaderBackup.PersonaIdPriority | src/dataset_loader_backup.py:145-161 | a persona holds its row; its id is `str` of the first id column present, or the row index when none is |
| DatasetLoaderBackup.SearchedMembers | src/dataset_loader_backup.py:187-216 | a persona is found exactly when it is among the personas and passes every filter; no more are found than there are personas |
| DatasetLoaderBackup.SearchedEveryone | src/dataset_loader_backup.py:184-185 | without filters every persona is found, in order |
| DatasetLoaderBackup.MissingKeyExcludes | src/dataset_loader_backup.py:193-195 | a filter on a key the persona lacks excludes it |
| DatasetLoaderBackup.MatchPersona | src/dataset_loader_backup.py:190-211 | the inner loop, which stops at the first failing filter, decides whether every filter holds |
| DatasetLoaderBackup.SearchAll | src/dataset_loader_backup.py:187-214 | the outer loop keeps the matching personas in order |
| DatasetLoaderBackup.FirstCategory | src/dataset_loader_backup.py:289-322 | the chosen category is the first whose keywords the lowercased name mentions, or `기타` when none does |
| DatasetLoaderBackup.FiledHas | src/dataset_loader_backup.py:279-322 | a field is filed under a category exactly when it is a column, not a base field, and that is its category, so each such field is in exactly one list |
| DatasetLoaderBackup.Categories | src/dataset_loader_backup.py:252-264 | eleven lists under the fixed category names, in order |
| DatasetLoaderBackup.CategorizeFields | src/dataset_loader_backup.py:279-322 | the loop over the columns fills each category's list |
| DatasetLoaderBackup.CategorizedFields | src/dataset_loader_backup.py:324-325 | the listed categories are non-empty and sorted, and every column that is not a base field is listed under its category |
| DatasetLoaderBackup.DatasetLoader.Load | src/dataset_loader_backup.py:51-86 | the frame is expanded, then one persona per row of the expanded frame is built |
| DatasetLoaderBackup.DatasetLoader.ExpandPersonaJson | src/dataset_loader_backup.py:88-139 | the two loops leave the expanded frame |
| DatasetLoaderBackup.DatasetLoader.CreatePersonas | src/dataset_loader_backup.py:141-161 | the personas are those of the frame's rows, in row order |
| DatasetLoaderBackup.DatasetLoader.GetPersonaById | src/dataset_loader_backup.py:167-172 | `None` exactly when no persona has the id; otherwise the first persona with that id |
| DatasetLoaderBackup.DatasetLoader.SearchPersonas | src/dataset_loader_backup.py:174-216 | the matching personas in order, or all of them without filters |
| DatasetLoaderBackup.DatasetLoader.GetRandomSample | src/dataset_loader_backup.py:218-235 | `min(n, len(personas))` personas, the ones at the drawn distinct positions, so no persona twice unless the personas repeat |
| DatasetLoaderBackup.DatasetLoader.GetCategorizedFields | src/dataset_loader_backup.py:243-325 | `{}` without a frame; otherwise the categorised columns of the frame |
| BlockSelector.SafeName | scripts/block_based_selector.py:158 | the safe name is no longer than the block name and has no uppercase letter, space, hyphen or parenthesis |
| BlockSelector.PersonaIds | scripts/block_based_selector.py:89-94 | a persona keeps its row; its id is `str` of the `pid` cell, else the row index |
| BlockSelector.RowPersonas | scripts/block_based_selector.py:172-177 | the loop builds the personas of the surviving rows, in row order |
| BlockSelector.UnknownBlockIgnored | scripts/block_based_selector.py:159-161 | a block without a `has_` column does not narrow the selection |
| BlockSelector.KeepBlock | scripts/block_based_selector.py:157-169 | keeping the rows with `has_<block> == 1` after the earlier blocks gives the rows that have all of them |
| BlockSelector.NoBlocks | scripts/block_based_selector.py:154 | with no blocks listed every row survives, in order |
| BlockSelector.BlockRowsMembers | scripts/block_based_selector.py:156-169 | a row survives exactly when its `has_` cell is 1 for every listed block that has a column |
| BlockSelector.BlockRowsIncreasing | scripts/block_based_selector.py:172-177 | the surviving rows keep the frame's order |
| BlockSelector.NarrowByBlocks | scripts/block_based_selector.py:157-169 | each block loop narrows the rows that survived the blocks before it |
| BlockSelector.NarrowByBlock | scripts/block_based_selector.py:158-161 | one pass keeps the rows that also have this block, if it has a column |
| BlockSelector.CountRows | scripts/block_based_selector.py:192-195 | the two masks keep the rows whose count lies in the range, in order |
| BlockSelector.CountRowsMembers | scripts/block_based_selector.py:192-195 | both bounds are inclusive, no upper bound means none, and the rows keep their order |
| BlockSelector.BlockLabelsFacts | scripts/block_based_selector.py:111-112 | every label comes from a `has_` column, and every `has_` column gives one |
| BlockSelector.BlockBasedSelector.constructor | scripts/block_based_selector.py:46-51 | no frame and no personas |
| BlockSelector.BlockBasedSelector.Load | scripts/block_based_selector.py:53-83 | the frame is kept and one persona per row is built |
| BlockSelector.BlockBasedSelector.CreatePersonas | scripts/block_based_selector.py:85-96 | one persona per row, in row order |
| BlockSelector.BlockBasedSelector.GetAvailableBlocks | scripts/block_based_selector.py:105-113 | `[]` without data; otherwise the labels of the `has_` columns, sorted |
| BlockSelector.BlockBasedSelector.FilterByBlocks | scripts/block_based_selector.py:149-179 | `[]` without data; otherwise the personas of the rows that have every required and optional block, in row order |
| BlockSelector.BlockBasedSelector.FilterByQuestionCount | scripts/block_based_selector.py:181-205 | `[]` without data or without the `questions_` column; otherwise the personas whose count lies in the inclusive range, in row order |
| BlockSelector.BlockBasedSelector.GetRandomSample | scripts/block_based_selector.py:207-224 | all candidates, in order, when `n` covers them; otherwise `n` candidates at the drawn distinct positions, so none twice unless the candidates repeat; the candidates are the block filter's result, or every persona without required blocks |
| BlockSelector.BlockBasedSelector.GetPersonaById | scripts/block_based_selector.py:226-231 | `None` exactly when no persona has the id; otherwise the first persona with it |
| BlockDataset.SafeNamesAgree | create_block_based_dataset.py:46-51 | the builder's safe name, which lowercases last, equals the selector's, which lowercases first, so the selector finds the builder's columns |
| BlockDataset.RemoveLower | create_block_based_dataset.py:84 | removing a non-letter commutes with lower-casing |
| BlockDataset.ItemNamesMembers | create_block_based_dataset.py:31-33 | a name is gathered from a list exactly when one of its dict items has that `BlockName` |
| BlockDataset.RowNamesMembers | create_block_based_dataset.py:25-35 | the gathered names are exactly those some row's decoded list mentions; other rows add none |
| BlockDataset.GatherNames | create_block_based_dataset.py:25-35 | the first loop gathers the block names of every decoded list |
| BlockDataset.AddItemNames | create_block_based_dataset.py:31-33 | the inner loop adds the names of one list |
| BlockDataset.SortedNames | create_block_based_dataset.py:47 | the names of the set, sorted, each once |
| BlockDataset.LiveAgrees | create_block_based_dataset.py:70-80 | whether a row's scan has been stopped by an exception does not depend on the block being counted |
| BlockDataset.ScannedShape | create_block_based_dataset.py:67-78 | the flag is 0 or 1, and the count is 0 while the flag is 0 |
| BlockDataset.ScanStops | create_block_based_dataset.py:78-80 | a `Questions` value without a length ends the row's scan after setting the flag; later items change nothing |
| BlockDataset.StaysStopped | create_block_based_dataset.py:79-80 | once the scan has stopped, later items change nothing |
| BlockDataset.LastOccurrence | create_block_based_dataset.py:74-78 | for a block named more than once, without a rejected `Questions` value, the flag is 1 and the count comes from the last occurrence |
| BlockDataset.AlwaysLive | create_block_based_dataset.py:70-80 | without a rejected `Questions` value the scan reaches the end of the list |
| BlockDataset.NeverNamed | create_block_based_dataset.py:67-68 | a block the row never names keeps the flag and the count at 0 |
| BlockDataset.ScanRow | create_block_based_dataset.py:67-80 | the scan of a row's list gives every collected name its flag and count |
| BlockDataset.Counts | create_block_based_dataset.py:67-68 | a row's counts have exactly the collected names as keys |
| BlockDataset.RowCounts | create_block_based_dataset.py:66-80 | the scan of a decoded list, else every block at 0 |
| BlockDataset.AddBlocks | create_block_based_dataset.py:83-86 | the loop writes the two columns of every name into the record |
| BlockDataset.RowRecord | create_block_based_dataset.py:59-88 | one record: the base fields, the block scan, one pair of columns per name |
| BlockDataset.RowRecords | create_block_based_dataset.py:59-88 | one record per row, in row order |
| BlockDataset.CreateBlockBasedDataset | create_block_based_dataset.py:25-88 | the names are sorted, distinct and exactly those some row mentions; one record per row, in order |
| BlockDataset.KeysDiffer | create_block_based_dataset.py:85-86 | a `has_` column is never a `questions_` column or a base field, and each prefix keeps safe names apart |
| BlockDataset.SameColumns | create_block_based_dataset.py:84-86 | two names share their columns exactly when they share their safe name |
| BlockDataset.PutBlockGet | create_block_based_dataset.py:85-86 | after one pass of the block loop, its two columns hold the flag and the count and every other key keeps its value |
| BlockDataset.LastSame | create_block_based_dataset.py:83-86 | the last name so far that shares the safe name of a given one |
| BlockDataset.BlockColumnsAt | create_block_based_dataset.py:83-86 | a block's columns hold the counts of the last name in sorted order that shares its safe name |
| BlockDataset.BaseFieldsKept | create_block_based_dataset.py:60-86 | the block loop never overwrites `pid`, `persona_text` or `persona_summary` |
| BlockDataset.RecordPid | create_block_based_dataset.py:61 | every record keeps the row's `pid`, else the row index |
| BlockDataset.RecordShape | create_block_based_dataset.py:67-86 | every record has both columns of every collected name, a flag of 0 or 1, and a count of 0 whenever the flag is 0 |
| BlockDataset.UndecodedRowEmpty | create_block_based_dataset.py:70-80 | a row whose `persona_json` is not a decodable list has every block at 0 |
| BlockDataset.RecordColumns | create_block_based_dataset.py:76-86 | without shared safe names, each block's columns hold its own flag and count |
| ProcessedDataset.BaseRecord | create_processed_dataset.py:29-33 | the base record has exactly the keys `id`, `persona_text`, `persona_summary` |
| ProcessedDataset.ParsedJson | create_processed_dataset.py:36-53 | items are copied exactly when the value is truthy, a string, and decodes to an object |
| ProcessedDataset.FlattenItems | create_processed_dataset.py:45-50 | the loop writes every item over the record, an all-digit key as `question_<key>` |
| ProcessedDataset.ProcessRow | create_processed_dataset.py:28-53 | one pass of the row loop builds the row's record |
| ProcessedDataset.CreateProcessedDataset | create_processed_dataset.py:28-55 | one record per row, in row order |
| ProcessedDataset.FlattenedGet | create_processed_dataset.py:44-50 | a key holds the value of the last item renamed to it, otherwise its base value, so an item may overwrite `id` or a text |
| ProcessedDataset.FlattenedPrefix | create_processed_dataset.py:29-50 | the base keys keep their places at the front |
| ProcessedDataset.FlattenedKeys | create_processed_dataset.py:44-50 | the record's keys are the base keys and the renamed item keys, none twice |
| ProcessedDataset.FlattenedDistinct | create_processed_dataset.py:50 | writing items never repeats a key |
| ProcessedDataset.RecordGet | create_processed_dataset.py:28-53 | a key of a row's record holds the last item renamed to it, otherwise its base value |
| ProcessedDataset.RecordId | create_processed_dataset.py:30 | the id is the row's `pid`, else its index, unless an item is renamed to `id` |
| ProcessedDataset.RecordFallback | create_processed_dataset.py:36-53 | a falsy or non-string `persona_json`, or one that does not decode to an object, leaves exactly the three base fields |
| ProcessedDataset.RecordKeys | create_processed_dataset.py:28-53 | every record starts with the three base fields, repeats no key, and has a key exactly when it is a base field or an item is renamed to it |
| ProcessedDataset.AddKeysPrefix | create_processed_dataset.py:59 | a frame built from records keeps the columns already seen in their places |
| ProcessedDataset.AddKeysFresh | create_processed_dataset.py:59 | the first record's distinct keys become the first columns as they are |
| ProcessedDataset.ColumnsStartWithFirst | create_processed_dataset.py:59 | the first record's keys lead the columns |
| ProcessedDataset.ProcessedColumnsFacts | create_processed_dataset.py:59 | the columns are distinct, are the keys of the records, and start with `id`, `persona_text`, `persona_summary` when there is a row |
| ProcessedDataset.BasicNotQuestion | create_processed_dataset.py:66-67 | no basic column starts with `question_` |
| ProcessedDataset.ClassMembers | create_processed_dataset.py:66-68 | a column is a question column exactly when it has the prefix, and another column exactly when it is neither basic nor prefixed |
| ProcessedDataset.Classification | create_processed_dataset.py:66-68 | every column is in exactly one of the basic, question and other classes |
| ProcessedDataset.ClassificationCount | create_processed_dataset.py:66-68 | the basic columns present, the question columns and the other columns add up to all columns |
| App.EstimatedCost | app.py:446-464 | four input tokens for every output token, and the total is the sum of the two costs |
| App.CostPerAnswer | app.py:446-456 | 250 tokens and exactly $0.009 per answer, two thirds of it for the input |
| App.CostMonotone | app.py:446-456 | one more respondent never lowers the estimate |
| App.ResetFacts | app.py:228-236 | a reset removes exactly the seven wizard keys, keeps every other key with its value, and a second reset changes nothing |
| App.ResetKeepsLogin | app.py:228-236 | the login flag, page, role and user id survive a reset |
| App.Started | app.py:1008-1009 | a page always sees a step |
| App.StartReachable | app.py:1008-1023 | a session that starts without a step is at step 1 to 4 |
| App.DescribeGuarded | app.py:432-437 | step 1 moves to step 2 exactly when a title and an objective are given, otherwise stays at step 1 |
| App.AudienceGuarded | app.py:524-581 | a filter matching nobody leaves the session unchanged, keeping an earlier selection; a match stores between one and `max_respondents` personas; step 2 moves to step 3 exactly when personas are selected, otherwise nothing changes |
| App.SurveyGuarded | app.py:729-741 | step 3 moves to step 4 exactly when there are questions, selected personas and a result with rows, otherwise nothing changes |
| App.BackReachable | app.py:724-770 | back goes from step 2 to 1 and from step 3 to 2; step 4 with results does not go back |
| App.NewResearchFacts | app.py:875-878 | new research is at step 1 with no wizard data and every other key kept |
| App.Wizard.constructor | app.py:1008 | the session as given |
| App.Wizard.ResetSessionState | app.py:228-236 | the loop deletes each present wizard key, leaving the reset session |
| App.Wizard.Start | app.py:1008-1009 | a missing step becomes step 1 |
| App.Wizard.Describe | app.py:432-437 | the inputs are stored; a warning exactly when the title or the objective is empty |
| App.Wizard.ChooseAudience | app.py:551-566 | a warning and no change exactly when nobody matches; otherwise the matches, cut down to `max_respondents`, are stored |
| App.Wizard.ConfirmAudience | app.py:576-581 | a warning exactly when no personas are selected |
| App.Wizard.OpenSurvey | app.py:648-649 | the question list starts empty |
| App.Wizard.EditQuestions | app.py:653-703 | the question list is replaced |
| App.Wizard.Run | app.py:729-760 | a warning exactly when there are no questions or no selected personas |
| App.Wizard.GoBack | app.py:572-574 | the step is set |
| App.Wizard.BackToSurvey | app.py:767-770 | without results the wizard goes back to step 3 |
| App.Wizard.StartNewResearch | app.py:875-878 | reset, then step 1 |
| App.AgeOf | app.py:593-600 | the bucket found is one whose tag the summary contains; none exactly when it contains no age tag |
| App.AgeFirstMatch | app.py:593-600 | a summary counts in an age bucket only when it has none of the tags tested before it |
| App.GenderOf | app.py:602-605 | the bucket found is one whose tag the summary contains; none exactly when it contains no gender tag |
| App.Bump | app.py:593-605 | only the bucket found gains one; the buckets stay the same |
| App.CountAge | app.py:593-600 | the age `elif` chain adds one to the bucket found |
| App.CountGender | app.py:602-605 | the gender `elif` chain adds one to the bucket found |
| App.TallyPair | app.py:602-605 | two different buckets together count at most the rows seen |
| App.TallyFour | app.py:593-600 | four different buckets together count at most the rows seen |
| App.BumpTally | app.py:589-605 | counting one more row keeps the buckets and the tallies |
| App.AudienceSummary | app.py:583-605 | the fixed buckets, each holding the number of selected rows classified into it |
| App.AudienceBounded | app.py:589-605 | the age totals and the gender totals never exceed the number of selected personas |

## Left out

- Reading the CSV file, the statistics file and all printing: `Load` takes the frame already read.
- `DatasetLoader.DatasetLoader.GetRandomSample`: `random.sample` below the persona count is the parameter `draw`, the drawn distinct positions; a negative `n`, for which `random.sample` raises `ValueError`, is excluded by the type `nat`.
- The backend's model name, temperature and token limit are not modelled; only the messages are.
- Python's string `hash()` of a non-digit id is the parameter `hashOf`; only the all-digit path is deterministic.
- `Text.Lower`, `Text.Capitalize`, `Text.Title`: only ASCII letters change case; Python maps all of Unicode.
- `Patterns.IsWordChar`: Python's `\w` is approximated by ASCII letters and digits, `_`, Latin-1 letters, Hangul and CJK ideographs.
- `Text.IsDigit`: `\d` and `isdigit` match only ASCII digits here; Python also matches other Unicode decimal digits.
- `AIAgent.GenerateInterviewResponse`: the outer exception handler at src/ai_agent.py:403-404 is unreachable, because the respond methods never raise, so it is not modelled.
- `EnhancedAgent.EnhancedAIAgent.constructor`: the API key lookup and the `ValueError` without a key are not modelled, nor is the client.
- Timestamps of the metadata and of the history entries are not modelled.
- `EnhancedAgent.Confidence`: confidences are exact hundredths; the source adds floating-point tenths and hundredths, whose rounding can differ in the last bits.
- `EnhancedAgent.CalculateConfidence`: the `persona_id` bonus at src/enhanced_ai_agent.py:506-510 is left out, because no parsed reply passed to it has a `persona_id` key.
- `EnhancedAgent.EnhancedAIAgent.GetResponseStatistics`: the mean is exact; numpy's floating-point mean is not modelled.
- A missing option list (`None`) is modelled as the empty list; both are falsy where the prompt tests them.
- `save_results`, `export_to_csv`, `SimulationAnalyzer`, the sample questions and guide, and `main` of scripts/advanced_simulation_system.py: file output, pandas statistics and printing.
- `SimulationConfig` (model settings, the timestamped simulation id, the output directory) and the results' timestamps are not modelled.
- `AdvancedSimulation.ParseInt`: the underscores between digits and the non-ASCII digits that Python's `int()` also accepts are rejected here.
- `AdvancedSimulation.Confidence`: exact tenths; the source adds floating-point tenths, so its 0.8 is 0.7999999999999999.
- `AdvancedSimulation.SimulatedAnswer`: `random.randint(lo, hi)` is `lo + draw % (hi - lo + 1)` for the run's random draw `draws(i, j)` of persona `i` and question `j`; the text of Python's exception messages is the parameter `describe`.
- The survey and interview prompts of scripts/advanced_simulation_system.py are built but not read by the simulated call, so no result depends on them.
- `load_dataset`, `display_personas_summary`, the prompts of `select_personas_interactive`, `create_survey`, `create_interview`, `export_results` and `main` of both digital-twin survey systems: dataset download, console and file I/O and timestamps. Only the final assignment of the interactive selection is modelled (`SetSelectedPersonas`).
- `analyze_survey_results` of both digital-twin survey systems: pandas floating-point statistics.
- The half-second pause after each call and all progress printing are not modelled.
- `TwinSurvey.BaseText`: Python's printed form `str(row)` of a row without text columns is the parameter `rowText`.
- `TwinSurvey.ItemText`: JSON values that are lists, nested objects or booleans are not modelled; the JSON object holds strings, integers, NaN and `None` only.
- `TwinSurvey.SurveyReply`: `json.loads` is the parameter `decode`; a reply whose content is `None` is not modelled.
- `TwinSurvey.SurveyCell`: the text of a caught exception is the parameter `describe`.
- Question dictionaries are reduced to their `question` text; a question without that key raises `KeyError` in the source and is not modelled.
- Record tables are lists of records with the same columns; the pandas DataFrame built from them is not modelled.
- `TwinSurvey.DigitalTwinSurveySystem.ConductSurvey`, `TwinSurvey.DigitalTwinSurveySystem.ConductInterview`, `TwinSurveyPackage.DigitalTwinSurveySystem.ConductSurvey`, `TwinSurveyPackage.DigitalTwinSurveySystem.ConductInterview`: the persona indices are natural numbers below the dataset size (`InRange`). The model does not capture the `IndexError` that an index at or past the end raises, which aborts the whole run with no results stored, nor negative indices, which Python counts from the end.
- `TwinSurveyPackage.DigitalTwinSurveySystem.SelectPersonasByCriteria`: the precondition `Filterable` excludes a keyword that is not a string and a row whose `persona_text` is present but not a string (such as `None`); on either, `.lower()` raises `AttributeError`, which aborts the selection. `PersonaText`, `FilterRows` and `SelectionMembers` carry the same precondition.
- `TwinSurvey.AgeMention`: `\s` is Python's whitespace set, `\d` only ASCII digits.
- The debugging output of the first three rows in `select_personas_by_criteria` is not modelled.
- `load_dataset`, `get_persona` and `get_random_personas` of newTwin/digital_twin_survey_system.py: dataset download and `random.sample`; `PersonaDataLoader` starts from the loaded rows.
- `create_custom_survey`, `run_experiment` with `BEHAVIORAL_EXPERIMENTS`, `export_results` and `main` of newTwin/digital_twin_survey_system.py: a timestamped record, a `random.choice` of condition, file output and printing.
- `SimulationConfig` and the client of `DigitalTwinSimulator`: the model settings are not modelled; the simulator keeps no state, so its operations are methods over the backend.
- `NewTwin.SameDict`: a NaN value never equals; Python compares dict values by identity first, so the same NaN object in both dicts would compare equal.
- `NewTwin.PyLe`: only integers, strings and NaN are compared; floats are not modelled.
- `NewTwin.CellText`: the printed form of a nested object is the parameter `reprOf`.
- `NewTwin.PromptJson`: `json.loads` is the parameter `decode`; a `persona_json` that is neither an object nor a string, or a string that does not decode to an object, is excluded by `PromptReady`, because the prompt loop raises on it.
- `NewTwin.PromptReady`: a `persona_text` that is present but not a string (`None`, NaN or a number) is excluded; on it `create_persona_prompt` raises `TypeError` at the `+=`, outside `simulate_response`'s `try`, which aborts the whole survey or interview run. The members below carry this precondition.
- `NewTwin.PromptShape`: stated only under `PromptReady`, so the `TypeError` for a non-string `persona_text` is not captured.
- `NewTwin.CreatePersonaPrompt`: requires `PromptReady`; the `TypeError` for a non-string `persona_text` is not modelled.
- `NewTwin.SystemPromptStart`: stated only under `PromptReady`; the `TypeError` for a non-string `persona_text` is not captured.
- `NewTwin.CreateSystemPrompt`: requires `PromptReady`; the `TypeError` for a non-string `persona_text` is not modelled.
- `NewTwin.SimulateResponse`: requires `PromptReady`; the `TypeError` for a non-string `persona_text`, raised before the `try`, is not turned into a failed result and is not modelled.
- `NewTwin.ConductSurvey`: requires `PromptReady`; a non-string `persona_text`, whose `TypeError` aborts the source's run, is excluded.
- `NewTwin.ConductInterview`: requires `PromptReady`; a non-string `persona_text`, whose `TypeError` aborts the source's run, is excluded.
- `NewTwin.ConductSurvey`, `NewTwin.ConductInterview`: the system prompt is built once per run; the source rebuilds the same text on every call.
- An interview guide missing `opening`, `main_questions` or `probes` is modelled as the guide with that field's default.
- `aggregate_survey_results` takes `SurveyRun` values, which always have a `persona_id` and `responses`; the `unknown` and empty-list defaults of its `get` calls are not needed.
- The wizards `create_survey_wizard` and `create_interview_guide_wizard`, `conduct_single_interview` and `_show_interview_responses` of src/survey_system.py and src/interview_system.py: interactive console prompts and printing.
- `save_survey_template`, `save_guide_template`, `export_responses`, `export_interviews`, `export_to_text` and reading the JSON file in `load_survey_from_file` / `load_guide_from_file`: file I/O. `LoadSurvey` and `LoadGuide` take the decoded data.
- The `created_at` and per-response `timestamp` fields, the `delay` pauses and the progress bars of the survey and interview runs are not modelled.
- `get_responses` and `get_interviews` return the `responses` and `interviews` fields, which the model exposes directly.
- A loaded question without `text` raises `KeyError` in the source; in the model `text` is a required field of `QuestionData`. A JSON `null` for an optional field is modelled as the field being absent, except `scale_description` and the survey or guide `description`, where the source keeps `None`, which is not modelled.
- Response dictionaries are typed records: a survey response is the agent's answer plus its title, id and category; the extra keys a dictionary may carry are not modelled.
- `SurveySystem.StatisticsRows`: the `.2f` formatting of the average and the `-` shown for zero errors are not modelled; the row holds the exact average and the error count.
- `_save_survey_to_csv`, `_save_survey_summary`, `_save_interview_transcript`, `_save_interview_to_csv`, `show_survey_analysis` and `export_to_excel` of src/results_manager.py: file output, pandas and printing. The model gives the names and paths of the files a save writes, not their contents.
- `ResultsManager.SurveyFiles`, `ResultsManager.InterviewFiles`: the timestamp is a parameter, and paths are joined with `/`; `pathlib`'s normalisation of the directory is not modelled.
- `ResultsManager.SafeTitle`: `isalnum` is the approximation of `Text.IsAlnum` (ASCII, Latin-1 letters, Hangul, CJK ideographs); Python accepts all Unicode letters and digits.
- `ResultsManager.AnalyzeSurveyResults`: the mean is exact; Python's float division is not modelled. The response dictionaries are records whose `persona_id`, `question_id`, `question` and `score` may be missing; scores are integers.
- `load` of src/dataset_loader_backup.py: the download, the choice of the `data` split or the first split, and the `ValueError` without splits are not modelled; `Load` takes the frame of the chosen split.
- `get_available_fields` and `get_field_unique_values` of src/dataset_loader_backup.py: the unique-value sort over mixed pandas values is not modelled.
- pandas' coercion of column types and of `None` to `NaN` when the json frame is built is not modelled; a missing key gives `NaN`.
- The frame's index is taken to be positional, `0 .. n-1`, as it is for a frame built from a split.
- `DatasetLoaderBackup.GetSummary`: Python's printed form `str(self.data)` is the parameter `reprOf`.
- `DatasetLoaderBackup.JsonRecord`: `json.loads` is the parameter `decode`; a `persona_json` that is already a dictionary, and nested JSON values, are not modelled.
- `DatasetLoaderBackup.MergedColumns`, `DatasetLoaderBackup.MergedValues`: proved for distinct keys that do not start with `json_` (`PlainColumns`); a key `json_x` next to a key `x` can make the source overwrite a column it has just written.
- `DatasetLoaderBackup.DatasetLoader.GetRandomSample`: `random.sample` is the parameter `draw`, the drawn distinct positions; a negative `n`, for which Python raises, is not modelled.
- The progress and sample-field printing of `_expand_persona_json` and `load` is not modelled.
- `BlockSelector`: reading the CSV file, the metadata file and `_setup_block_categories` / `get_block_categories` are not modelled; `Load` takes the frame already read.
- `get_block_statistics`, `show_filtering_options`, `export_filtered_results` and `main` of scripts/block_based_selector.py: float rates, printing and file output. The Windows console rewrapping at lines 13-16 is left out too.
- `BlockSelector.AtLeast`, `BlockSelector.AtMost`: a count cell that is not an integer compares false; pandas would raise `TypeError` for a string.
- `BlockSelector.BlockBasedSelector.GetRandomSample`: `random.seed` and `random.sample` are the parameter `draw`, the drawn distinct positions; a negative `n`, for which Python raises, is not modelled.
- `BlockDataset`: the download, the statistics printed after line 88, and the CSV and metadata files are not modelled. `json.loads` of each row is the parameter `decoded`, and a `BlockName` is taken to be a string.
- `BlockDataset.CreateBlockBasedDataset`: the `all_columns` list of lines 43-54 is never used by the source, so it is not modelled.
- `ProcessedDataset`: the download and the CSV, Excel and statistics files with their printing (lines 57-133) are not modelled. `json.loads` is the parameter `decode`, which gives `None` for a failed decoding or a value that is not an object.
- `ProcessedDataset.ParsedJson`: a `persona_json` cell that is already a dictionary, and nested JSON values, are not modelled; cell values are `None`, `NaN`, integers and strings.
- `ProcessedDataset.ProcessedColumns`: pandas' coercion of column types when the frame is built is not modelled.
- `App.EstimatedCost`, `App.CostPerAnswer`: the costs are exact reals; Python's float rounding is not modelled.
- `App.Wizard`: session values are text, numbers, lists (by their length) or other; the pages' widgets, rendering, spinners, `st.rerun` and the login pages are not modelled. The survey run's result is the parameter `resultRows`; `log_survey_activity` and the cost it logs are file output.
- `App.SummaryOf`: a `persona_summary` that is not text counts as empty; the source raises `TypeError` on the `in` test.
