# PureSkin AI diagnosis wizard — Dafny model

PureSkin AI is a single-page React app. The user starts a diagnosis, answers a
four-question skin quiz and uploads a face photo. The app then plays an
"analysis" animation and shows a skin-type verdict with a score. This project
models the two parts of `src/App.jsx` that have behaviour:

- `questions.dfy` (module `Questions`): the constant quiz table. It has four
  questions with ids 1 to 4, and each question offers three options. Every
  option carries a tag (`oily`, `combination`, `dry`, `resilient`, `normal` or
  `sensitive`).
- `diagnosis.dfy` (module `Diagnosis`): `getResult` as the pure function
  `GetResult`. It counts the stored answers that are `oily` and the ones that
  are `dry`. If oily wins, the verdict is Oily with score 72. If dry wins, it
  is Dry with score 65. Otherwise it is the Combination default with score 78.
  The lemmas cover:
  - which verdict is chosen, in both directions;
  - the empty-answer default;
  - that no other tag has any effect;
  - that relabelling the questions one to one changes nothing;
  - that, with the real question table, only questions 1 and 2 can decide.
- `wizard.dfy` (module `Wizard`): the component's state as the class
  `DiagnosisWizard`. Its fields are `step`, `answers`, a present/absent photo
  flag and `currentQuestionIndex`. Each handler is a method that updates
  those fields in place. `Valid()` states two invariants that every corrected
  handler keeps:
  - the question index stays in range;
  - the analysis and result steps are reached only with a photo.

## Model

| member | source | states |
|---|---|---|
| Questions.TableShape | src/App.jsx:4-41 | the quiz has four questions, ids 1 to 4 in order, each with three options |
| Questions.OilyAndDryOnlyInFirstTwo | src/App.jsx:4-41 | the `oily` and `dry` options are offered by questions 1 and 2 and by no other question |
| Diagnosis.CountTag | src/App.jsx:154-156 | the number of stored answers equal to a tag is at most the number of answers |
| Diagnosis.CountTagIsFilterCount | src/App.jsx:154-156 | listing the map's values in any order and filtering them for a tag, as `Object.values(...).filter(...).length` does, gives the same number as counting the questions that hold the tag |
| Diagnosis.GetResult | src/App.jsx:153-173 | the verdict is one of the three fixed ones; its score is 72, 65 or 78, so it lies in [0, 100] as the ring gauge needs |
| Diagnosis.ResultCases | src/App.jsx:158-170 | Oily (72) exactly when oily answers outnumber dry ones; Dry (65) exactly when dry answers outnumber oily ones; Combination (78) exactly when the counts tie |
| Diagnosis.EmptyAnswersGiveCombination | src/App.jsx:154-160 | with no answers the Combination default with score 78 is shown |
| Diagnosis.OnlyOilyAndDryMatter | src/App.jsx:154-156 | two answer maps that agree on which questions hold `oily` and `dry` get the same verdict, whatever other tags or questions they hold |
| Diagnosis.IgnoredTagUpdate | src/App.jsx:154-156 | storing or changing an answer between tags other than `oily` and `dry` leaves the verdict unchanged |
| Diagnosis.RelabelKeepsCount | src/App.jsx:154-156 | moving the answers one to one onto other question ids keeps the count of every tag |
| Diagnosis.ResultIndependentOfQuestionOrder | src/App.jsx:154-156 | the verdict depends only on the values of the answer map, not on which question holds which tag |
| Diagnosis.SwapAnswers | src/App.jsx:154-156 | exchanging the answers of two questions leaves the verdict unchanged |
| Diagnosis.DecisiveAnswersInFirstTwo | src/App.jsx:4-41 | for answers taken from the quiz's own options, only questions 1 and 2 can hold `oily` or `dry` |
| Diagnosis.FirstTwoQuestionsDecide | src/App.jsx:4-41 | for answers taken from the quiz's own options, the verdict equals the verdict on the answers to questions 1 and 2 alone |
| Diagnosis.AtMostTwoDecisiveAnswers | src/App.jsx:4-41 | for answers taken from the quiz's own options, at most two answers are `oily` or `dry` |
| Wizard.DiagnosisWizard.constructor | src/App.jsx:100-115 | the wizard starts on the landing step with no answers, no photo and question index 0 |
| Wizard.DiagnosisWizard.HandleStart | src/App.jsx:106 | the start button moves to the quiz step and changes nothing else |
| Wizard.DiagnosisWizard.HandleAnswer | src/App.jsx:108-113 | stores the tag under the given question id, keeps every other answer, and neither advances the quiz nor changes the step |
| Wizard.DiagnosisWizard.SelectOption | src/App.jsx:117-126 | stores the tag under the current question's id, replacing an earlier answer and keeping all others; below the last question the index grows by one; on the last question the step becomes upload and the index stays; the index stays below the number of questions; answers taken from the table stay so |
| Wizard.DiagnosisWizard.UploadImage | src/App.jsx:128-137 | with no file chosen nothing changes; otherwise the photo is present exactly when the read succeeded |
| Wizard.DiagnosisWizard.StartAnalysis | src/App.jsx:139-143 | moves to the analysis step exactly when a photo is present; without one nothing changes |
| Wizard.DiagnosisWizard.ResetDiagnosis | src/App.jsx:145-150 | from any state, including one that breaks the invariant, restores exactly the initial state: landing step, no answers, no photo, index 0 |
| Wizard.DiagnosisWizard.OnCompleteAsWritten | src/App.jsx:305 | the completion callback as written moves to the result step from any step |
| Wizard.DiagnosisWizard.OnComplete | src/App.jsx:305 | the corrected callback moves from the analysis step to the result step and leaves every other step alone, keeping the invariants |
| Wizard.DiagnosisWizard.ResultData | src/App.jsx:175 | a verdict is shown exactly on the result step; its score is in [0, 100] and is 72, 65 or 78 according to the oily/dry comparison of the stored answers |
| Wizard.StaleCompletionScenario | src/App.jsx:62-74 | reset during the pending 500 ms completion timeout, then the timeout fires: the as-written callback lands on the result step with no photo and no answers, breaking the invariant |
| Wizard.RecoveryAfterStaleCompletion | src/App.jsx:187-191 | after the stale completion, the header's reset button brings the wizard back to the initial state, which satisfies the invariant again |
| Wizard.GuardedCompletionScenario | src/App.jsx:305 | the same sequence with the guarded callback ends in the initial state |
| Wizard.FullRun | src/App.jsx:106-150 | starting, answering four questions, uploading a photo, analysing and completing stores answers 1 to 4 and shows the verdict of those answers |

## Left out

- The JSX markup, CSS classes, icons and the quiz progress bar (src/App.jsx:177-417): presentation only.
- The photo's content and the `FileReader` (src/App.jsx:128-137): the photo is only a present/absent flag. `UploadImage` takes as parameters whether a file was chosen and whether reading it succeeded.
- Timers: the 250 ms delays in `selectOption` and the 500 ms completion delay are treated as immediate transitions. The completion callback is a separate event that may arrive in any step. The interval animation of `LoadingAnalysis` is not modelled: progress grows by 2 per 60 ms tick up to 100, and a status message changes on a timer (src/App.jsx:43-74). Both are cosmetic.
- The 250 ms deferrals in `selectOption` (src/App.jsx:122, 124) are never cancelled, and the model does not capture what follows. A reset within 250 ms of answering question 4 moves the landing screen to the upload step with no answers. A reset within 250 ms of answering questions 1 to 3 leaves the index at 1, so the next run skips question 1. This is the same kind of stale-timer bug as the one under "## Findings". `SelectOption` applies its update at once, so the model cannot show it.
- The double-click race in `selectOption` is not modelled. Two clicks on question 3 within 250 ms each schedule an index increment, which could push the index past the last question. `SelectOption` applies its update at once, so the model cannot show this.
- The score ring's dash offset uses `Math.PI` floating point (src/App.jsx:330-331). It is not modelled; only the score's range [0, 100] is proved.
- The "expert consultation" `alert` (src/App.jsx:405): a foreign call with no state.
- Question and option texts are kept as data. JavaScript's string object keys for question ids are modelled as integers.
- Wizard.DiagnosisWizard.UploadImage: it keeps `Valid()` only when it is called outside the analysis and result steps. A read that fails and finishes after the analysis has started clears the photo flag there, as the source would.

## Findings

| source | as written | input that shows it | evidently intended | confidence | as-written member | corrected member |
|---|---|---|---|---|---|---|
| src/App.jsx:70-74 | the 500 ms `setTimeout(onComplete, 500)` is never cleared, and `onComplete` sets the step to `'result'` unconditionally | reach the analysis step, let progress hit 100, press reset (the header button) within 500 ms: the result screen appears with no photo and no answers | a completion that arrives after the analysis was abandoned is ignored | medium; not executed | Wizard.DiagnosisWizard.OnCompleteAsWritten | Wizard.DiagnosisWizard.OnComplete |

`Wizard.StaleCompletionScenario` proves that the as-written callback breaks the
invariant. `Wizard.GuardedCompletionScenario` and `OnComplete`'s contract prove
that the guarded callback keeps it.
