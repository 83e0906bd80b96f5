# Emotion-weighted investment risk survey

A Dafny model of the scoring core of `emotion.py`: a five-question console
survey whose every answer (`a`..`e`) is scored together with the facial
emotion observed when it is given, and whose running total is classified
into one of five investment risk profiles (안정형 *Stable*, 안정추구형
*StabilitySeeking*, 위험중립형 *RiskNeutral*, 적극투자형 *Active*,
공격투자형 *Aggressive*).

The survey's inputs are explicit parameters:

- `input: seq<string>` — the lines the user types, in order. Python's
  `input()` raises at the end of the input; the model returns
  `Failure(InputExhausted)` there, before anything is classified.
- `samples: seq<Option<string>>` — the emotion label held by the shared
  variable when each of the five questions is scored (`None` before the
  detector has reported anything).

Modules, in dependency order:

- `Wrappers` (`wrappers.dfy`): `Option` and `Result`.
- `Weights` (`weights.dfy`): the answer and emotion weight tables,
  `dict.get` with a default, `emotion or 'neutral'`, the per-question score.
- `Risk` (`risk.dfy`): `classify_investment_type` returning an ordinal
  datatype instead of printing, and its partner, a count of the band
  boundaries below the total.
- `Console` (`console.dfy`): `.lower()`, one question's prompting (quit on
  `q` at the first prompt, re-prompt until a valid letter) as functions.
- `Survey` (`survey.dfy`): the specification of the whole survey (`Collect`,
  `Total`, `Run`) and the imperative question loop `AskQuestions` with its
  per-question prompting `ReadAnswer`, each proved equal to the
  specification.
- `SurveyFacts` (`survey_facts.dfy`): properties of the whole survey.

## Model

| member | source | states |
|---|---|---|
| Weights.AnswerScore | emotion.py:87 | `answer_weights.get(select, 0)`: the table value for a key, 0 for any other string, always in [-2, 2] |
| Weights.EmotionScore | emotion.py:86 | `emotion_weights.get(current_emotion, 0)`: the table value for a known label, 0 for any other, always in [-3, 1] |
| Weights.CurrentEmotion | emotion.py:82-83 | a missing sample and the empty label (both false in Python) become `neutral`; any other label is kept; the result is never empty |
| Weights.QuestionScore | emotion.py:86-88 | one answered question adds emotion score plus answer score, which lies in [-5, 3]; for an accepted letter the answer part is the table entry |
| Weights.AnswerWeightsAscending | emotion.py:29 | the table's keys are exactly `a`..`e`, weighted `i - 2` for the i-th letter, strictly increasing in letter order |
| Weights.ChoicesAreWeighted | emotion.py:79 | every letter the validation loop accepts is a key of `answer_weights`, so the `.get` default 0 is never used for an accepted answer |
| Weights.NoEmotionScoresZero | emotion.py:83-86 | with no emotion observed, or an empty label, the question is scored as `neutral`, weight 0 |
| Weights.MissingEmotionScoresZero | emotion.py:83-86 | a label outside the table also scores 0 |
| Weights.EmotionWeightsRange | emotion.py:32 | every emotion weight lies between `fear` (-3) and `happy` (1) |
| Risk.ClassifyInvestmentType | emotion.py:96-106 | each profile is chosen exactly on its band: ≤ -10, (-10, -5], (-5, 0], (0, 5], > 5, both directions of each |
| Risk.RankCountsThresholds | emotion.py:96-106 | the rank of the profile equals the number of the boundaries -10, -5, 0, 5 that lie strictly below the total |
| Risk.ClassifyMonotone | emotion.py:96-106 | a larger total never yields a more cautious profile |
| Risk.BoundariesBelongBelow | emotion.py:97-104 | the boundary values -10, -5, 0 and 5 fall in the lower of the two bands they separate |
| Console.Lower | emotion.py:74 | the model's `.lower()`: `Lower` keeps the length and lower-cases each ASCII capital, leaving every other character |
| Console.Reprompt | emotion.py:79-80 | the re-prompt loop accepts the first line at or after the cursor whose lower-case form is `a`..`e`, never quits, and fails only if no later line is valid |
| Console.Ask | emotion.py:74-80 | one question quits exactly when its first line is `q` in either case; otherwise it yields the lower-cased first line at or after the first prompt that is `a`..`e`, or the end of the input when there is none |
| Console.QuitIsCaseInsensitive | emotion.py:74-75 | a line quits exactly when it is `q` or `Q` |
| Console.ChoiceIsCaseInsensitive | emotion.py:79-80 | a line is accepted exactly when it is one of `a`..`e` or `A`..`E` |
| Console.RepromptSkipsQuit | emotion.py:79-80 | a `q` typed at the re-prompt is skipped like any invalid line and never quits |
| Console.QuitAfterInvalidLineIsSkipped | emotion.py:74-80 | after an invalid first line, a `q` on the next line does not quit: the question is decided by the lines after that `q` |
| Console.RepromptCaseInsensitive | emotion.py:79-80 | the re-prompt loop gives the same reply for inputs that agree once lower-cased |
| Console.AskCaseInsensitive | emotion.py:74-80 | one question's prompting gives the same reply for inputs that agree once lower-cased |
| Console.RepromptReadsNoFurther | emotion.py:79-80 | the re-prompt loop reads no line after the one it accepts |
| Console.AskReadsNoFurther | emotion.py:74-80 | one question's prompting reads no line after the one that decides it |
| Survey.Collect | emotion.py:69-80 | reading n questions ends inside the input, gives at most n accepted letters, exactly n unless the user quit, each one of `a`..`e` |
| Survey.Total | emotion.py:67-89 | the running total after k answered questions lies in [-5k, 3k] |
| Survey.Run | emotion.py:65-93 | a survey that succeeds (see `RunFailsOnlyAtEnd` for when it fails) answers at most five questions, its total lies in [-5k, 3k] for k answered, in [-25, 15] when all five are answered, and it is classified, after a quit as well |
| Survey.TotalStep | emotion.py:86-89 | answering one more question adds exactly its combined score to the total |
| Survey.ReadAnswer | emotion.py:74-80 | the imperative prompting (first line, quit check, re-prompt loop) returns exactly the reply `Ask` specifies |
| Survey.AskQuestions | emotion.py:65-93 | the imperative question loop (with its early break on quit) returns exactly the outcome `Run` specifies |
| SurveyFacts.CollectSplit | emotion.py:69-77 | reading k + m questions is reading k, then m more from where the first k stopped, unless the user quit |
| SurveyFacts.QuitStopsSurvey | emotion.py:75-93 | a `q` at the first prompt of question k + 1 ends the survey: k answers, nothing added for that or any later question, and the partial total is classified |
| SurveyFacts.QuitMeansQ | emotion.py:74-77 | conversely, a reading that ends in a quit has fewer answers than questions, its last line read is `q` (either case), and the answers before it were read without a quit up to that line |
| SurveyFacts.QuitOnlyByQ | emotion.py:65-93 | a survey reports a quit only if, after k < 5 answered questions, the first prompt of question k + 1 read `q`: the converse of `QuitStopsSurvey` |
| SurveyFacts.NoneMeansExhausted | emotion.py:74-80 | a reading that fails has, for some k < n, answered k questions without a quit and then found no more input at question k + 1 |
| SurveyFacts.ExhaustedMeansNone | emotion.py:74-80 | conversely, running out of input at a question before the n-th, after the earlier ones were answered, fails the reading |
| SurveyFacts.RunFailsOnlyAtEnd | emotion.py:65-93 | the survey fails (`input()` raising at the end of the input) exactly when, for some k < 5, k questions were answered without a quit and question k + 1 finds no more input |
| SurveyFacts.QuitAtOnceIsRiskNeutral | emotion.py:67-102 | quitting at the very first prompt gives total 0 and the risk-neutral profile |
| SurveyFacts.CollectReadsNoFurther | emotion.py:69-80 | for a reading that does not run out of input, the outcome does not depend on any line after the last one it reads |
| SurveyFacts.RunIgnoresTrailingInput | emotion.py:75-77 | in a survey that does not run out of input, lines typed after the last one read (in particular after a quit) do not change the survey's result |
| SurveyFacts.CollectCaseInsensitive | emotion.py:74-80 | reading the answers gives the same result for inputs that agree once lower-cased |
| SurveyFacts.RunCaseInsensitive | emotion.py:74-80 | inputs that differ only in the case of ASCII letters give the same survey result |
| SurveyFacts.QuitAtRepromptIsIgnored | emotion.py:79-80 | an example: the lines `x`, `q` and then five `c` give the same survey result as five `c` alone, the `q` being read at a re-prompt |
| SurveyFacts.AllSameChoice | emotion.py:74-80 | lines that are all the same accepted letter are read one per question |
| SurveyFacts.TotalOfSame | emotion.py:86-89 | n identical answers under an unchanging emotion total n times the question's score |
| SurveyFacts.UniformRun | emotion.py:65-93 | five identical answers under an unchanging emotion complete the survey with five times the question's score |
| SurveyFacts.ExtremeTotalsAttained | emotion.py:86-89 | the bounds -25 and 15 are reached: all `a` under `fear` is Stable, all `e` under `happy` is Aggressive |
| SurveyFacts.EveryProfileReachable | emotion.py:96-106 | each of the five profiles is the outcome of some completed five-question survey |

## Left out

- `detect_emotion` (emotion.py:35-62): webcam capture, Haar-cascade face detection and the emotion classifier are foreign library calls on image data; their only effect on the survey is the per-question emotion sample, which is an input.
- Threading, the `emotion_lock` mutex and the `exit_flag` event (emotion.py:8-9, 76, 111-118): concurrency is not modelled; each question reads one sample. The flag is set only on a quit, so after five completed answers nothing stops the detector thread and `join` waits until the camera fails; this is outside the model.
- Console output and the prompt text (the `print` calls and prompt strings): the model returns a report (total, questions answered, whether the user quit, profile) instead of printing.
- The Korean questions and options (emotion.py:12-26): display-only; only the five questions with options `a`..`e` matter.
- Console.Lower: lower-cases ASCII letters only and leaves every other character as it is, where Python's `str.lower()` also maps non-ASCII letters and can lengthen a string (`"İ".lower()` has two characters); no non-ASCII character lower-cases to `a`..`e` or `q`, so which lines are accepted or quit is unaffected.
- Interrupts while reading (`KeyboardInterrupt`) are not modelled; the end of the input is.
