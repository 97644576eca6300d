/** The diagnosis wizard: landing, quiz, photo upload, the analysis animation
    and the result screen, with the state the app component keeps. */
module Wizard {
  import opened Questions
  import opened Diagnosis

  datatype Step = Landing | Quiz | Upload | Analyzing | Result

  datatype Option<T> = None | Some(value: T)

  class DiagnosisWizard {
    var step: Step
    /** Question id to the tag of the option picked for it. */
    var answers: map<int, Tag>
    /** Whether a photo has been loaded; its content plays no part. */
    var hasImage: bool
    var currentQuestionIndex: int

    /** The quiz always points at an existing question, and the analysis and
        result screens are only reached with a photo. */
    ghost predicate Valid()
      reads this
    {
      && 0 <= currentQuestionIndex < |QuestionTable|
      && (step == Analyzing || step == Result ==> hasImage)
    }

    /** The state the component starts in. */
    predicate IsInitial()
      reads this
    {
      step == Landing && answers == map[] && !hasImage && currentQuestionIndex == 0
    }

    constructor ()
      ensures Valid() && IsInitial()
    {
      step := Landing;
      answers := map[];
      hasImage := false;
      currentQuestionIndex := 0;
    }

    /** The start button opens the quiz. */
    method HandleStart()
      requires Valid()
      modifies this
      ensures Valid()
      ensures step == Quiz
      ensures answers == old(answers) && hasImage == old(hasImage)
      ensures currentQuestionIndex == old(currentQuestionIndex)
    {
      step := Quiz;
    }

    /** Records `t` under question `questionId`; it does not move the quiz. */
    method HandleAnswer(questionId: int, t: Tag)
      requires Valid()
      modifies this
      ensures Valid()
      ensures questionId in answers && answers[questionId] == t
      ensures answers.Keys == old(answers).Keys + {questionId}
      ensures forall k :: k in old(answers) && k != questionId ==> answers[k] == old(answers)[k]
      ensures step == old(step) && hasImage == old(hasImage)
      ensures currentQuestionIndex == old(currentQuestionIndex)
    {
      answers := answers[questionId := t];
    }

    /** Picking option `t` on the current question: the answer is stored under
        that question's id, replacing any earlier one, and the quiz moves to the
        next question, or to the upload step after the last one. */
    method SelectOption(t: Tag)
      requires Valid()
      modifies this
      ensures Valid()
      ensures var id := QuestionTable[old(currentQuestionIndex)].id;
        && id in answers && answers[id] == t
        && answers.Keys == old(answers).Keys + {id}
        && (forall k :: k in old(answers) && k != id ==> answers[k] == old(answers)[k])
      ensures old(currentQuestionIndex) < |QuestionTable| - 1 ==>
        currentQuestionIndex == old(currentQuestionIndex) + 1 && step == old(step)
      ensures old(currentQuestionIndex) == |QuestionTable| - 1 ==>
        currentQuestionIndex == old(currentQuestionIndex) && step == Upload
      ensures hasImage == old(hasImage)
      ensures old(AnswersFromTable(answers)) && Offered(QuestionTable[old(currentQuestionIndex)].id, t) ==>
        AnswersFromTable(answers)
    {
      var id := QuestionTable[currentQuestionIndex].id;
      answers := answers[id := t];
      if currentQuestionIndex < |QuestionTable| - 1 {
        currentQuestionIndex := currentQuestionIndex + 1;
      } else {
        step := Upload;
      }
    }

    /** The outcome of picking a file: nothing when no file was chosen;
        otherwise the photo is present exactly when reading it succeeded. */
    method UploadImage(fileChosen: bool, readSucceeded: bool)
      modifies this
      ensures hasImage == if fileChosen then readSucceeded else old(hasImage)
      ensures step == old(step) && answers == old(answers)
      ensures currentQuestionIndex == old(currentQuestionIndex)
      ensures old(Valid()) && old(step) != Analyzing && old(step) != Result ==> Valid()
    {
      if fileChosen {
        hasImage := readSucceeded;
      }
    }

    /** The analyse button: moves to the analysis step only when a photo is present. */
    method StartAnalysis()
      requires Valid()
      modifies this
      ensures Valid()
      ensures step == if old(hasImage) then Analyzing else old(step)
      ensures answers == old(answers) && hasImage == old(hasImage)
      ensures currentQuestionIndex == old(currentQuestionIndex)
    {
      if hasImage {
        step := Analyzing;
      }
    }

    /** The reset button, shown on every step but the landing one: back to
        exactly the initial state, whatever state the wizard is in. */
    method ResetDiagnosis()
      modifies this
      ensures Valid() && IsInitial()
    {
      step := Landing;
      answers := map[];
      hasImage := false;
      currentQuestionIndex := 0;
    }

    /** The analysis animation's completion callback, as written: it moves to
        the result step from whatever step the wizard is in when it fires. */
    method OnCompleteAsWritten()
      modifies this
      ensures step == Result
      ensures answers == old(answers) && hasImage == old(hasImage)
      ensures currentQuestionIndex == old(currentQuestionIndex)
    {
      step := Result;
    }

    /** The completion callback with the intended guard: only an analysis
        still in progress moves on to the result step. */
    method OnComplete()
      requires Valid()
      modifies this
      ensures Valid()
      ensures step == if old(step) == Analyzing then Result else old(step)
      ensures answers == old(answers) && hasImage == old(hasImage)
      ensures currentQuestionIndex == old(currentQuestionIndex)
    {
      if step == Analyzing {
        step := Result;
      }
    }

    /** What the result screen shows: a verdict exactly on the result step. */
    function ResultData(): (r: Option<Diagnosis>)
      reads this
      ensures r.Some? <==> step == Result
      ensures r.Some? ==> 0 <= r.value.score <= 100
      ensures r.Some? && CountTag(answers, Oily) > CountTag(answers, Dry) ==> r.value.score == 72
      ensures r.Some? && CountTag(answers, Dry) > CountTag(answers, Oily) ==> r.value.score == 65
      ensures r.Some? && CountTag(answers, Oily) == CountTag(answers, Dry) ==> r.value.score == 78
    {
      if step == Result then Some(GetResult(answers)) else None
    }
  }

  /** The stale-completion scenario: the analysis is reset while the
      completion callback is pending, and the callback then fires. */
  method StaleCompletionScenario() returns (w: DiagnosisWizard)
    ensures fresh(w)
    ensures w.step == Result && !w.hasImage && w.answers == map[]
    ensures !w.Valid()
  {
    w := new DiagnosisWizard();
    w.HandleStart();
    w.SelectOption(Oily);
    w.SelectOption(Oily);
    w.SelectOption(Normal);
    w.SelectOption(Normal);
    w.UploadImage(true, true);
    w.StartAnalysis();
    w.ResetDiagnosis();
    w.OnCompleteAsWritten();
  }

  /** The reset button recovers from the stale completion: it restores the
      initial state, which satisfies the invariant again. */
  method RecoveryAfterStaleCompletion() returns (w: DiagnosisWizard)
    ensures fresh(w)
    ensures w.Valid() && w.IsInitial()
  {
    w := StaleCompletionScenario();
    w.ResetDiagnosis();
  }

  /** With the guarded callback the same sequence leaves the wizard on the landing screen. */
  method GuardedCompletionScenario() returns (w: DiagnosisWizard)
    ensures fresh(w)
    ensures w.Valid() && w.IsInitial()
  {
    w := new DiagnosisWizard();
    w.HandleStart();
    w.SelectOption(Oily);
    w.SelectOption(Oily);
    w.SelectOption(Normal);
    w.SelectOption(Normal);
    w.UploadImage(true, true);
    w.StartAnalysis();
    w.ResetDiagnosis();
    w.OnComplete();
  }

  /** A full run through the wizard: four answers fill questions 1 to 4, the
      quiz ends on the upload step, and the result screen shows the verdict. */
  method FullRun(t1: Tag, t2: Tag, t3: Tag, t4: Tag) returns (w: DiagnosisWizard)
    ensures fresh(w)
    ensures w.Valid() && w.step == Result
    ensures w.answers == map[1 := t1, 2 := t2, 3 := t3, 4 := t4]
    ensures w.ResultData() == Some(GetResult(map[1 := t1, 2 := t2, 3 := t3, 4 := t4]))
  {
    TableShape();
    w := new DiagnosisWizard();
    w.HandleStart();
    w.SelectOption(t1);
    assert w.answers == map[1 := t1] && w.currentQuestionIndex == 1;
    w.SelectOption(t2);
    assert w.answers == map[1 := t1, 2 := t2] && w.currentQuestionIndex == 2;
    w.SelectOption(t3);
    assert w.answers == map[1 := t1, 2 := t2, 3 := t3] && w.currentQuestionIndex == 3;
    w.SelectOption(t4);
    assert w.answers == map[1 := t1, 2 := t2, 3 := t3, 4 := t4] && w.step == Upload;
    w.UploadImage(true, true);
    w.StartAnalysis();
    w.OnComplete();
  }
}
