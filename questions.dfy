/** The quiz of the diagnosis wizard: four questions, each offering three
    answers, and the tag each answer stores. */
module Questions {

  /** The `type` strings an answer option carries. */
  datatype Tag = Oily | Combination | Dry | Resilient | Normal | Sensitive

  datatype AnswerOption = AnswerOption(text: string, tag: Tag)

  datatype Question = Question(id: int, text: string, options: seq<AnswerOption>)

  /** The constant question table, in the order the quiz asks it. */
  const QuestionTable: seq<Question> := [
    Question(1, "세안 후 피부가 당기는 느낌이 드나요?", [
      AnswerOption("전혀 그렇지 않다 (기름짐)", Oily),
      AnswerOption("T존만 그렇다 (복합성)", Combination),
      AnswerOption("얼굴 전체가 당긴다 (건성)", Dry)
    ]),
    Question(2, "오후가 되면 화장이 얼마나 무너지나요?", [
      AnswerOption("거의 그대로다", Dry),
      AnswerOption("코 주변만 번들거린다", Combination),
      AnswerOption("얼굴 전체가 번들거린다", Oily)
    ]),
    Question(3, "피부 트러블(여드름 등)이 자주 발생하나요?", [
      AnswerOption("거의 없다", Resilient),
      AnswerOption("가끔 생리 주기 등에만", Normal),
      AnswerOption("자주 발생한다", Sensitive)
    ]),
    Question(4, "햇빛에 노출되었을 때 피부 반응은?", [
      AnswerOption("쉽게 붉어진다", Sensitive),
      AnswerOption("검게 탄다", Resilient),
      AnswerOption("붉어졌다가 검게 변한다", Normal)
    ])
  ]

  /** Tag `t` is one of the answers offered by the question whose id is `id`. */
  predicate Offered(id: int, t: Tag)
  {
    exists i, j :: 0 <= i < |QuestionTable| && QuestionTable[i].id == id &&
      0 <= j < |QuestionTable[i].options| && QuestionTable[i].options[j].tag == t
  }

  /** Every stored answer is keyed by a question id and holds a tag that question offers. */
  predicate AnswersFromTable(answers: map<int, Tag>)
  {
    forall k :: k in answers ==> Offered(k, answers[k])
  }

  /** The table has four questions with ids 1 to 4, in order, each with three options. */
  lemma TableShape()
    ensures |QuestionTable| == 4
    ensures forall i :: 0 <= i < |QuestionTable| ==> QuestionTable[i].id == i + 1
    ensures forall i :: 0 <= i < |QuestionTable| ==> |QuestionTable[i].options| == 3
  {
  }

  /** Only the first two questions offer the `oily` and `dry` answers. */
  lemma {:induction false} OilyAndDryOnlyInFirstTwo(id: int, t: Tag)
    requires t == Oily || t == Dry
    ensures Offered(id, t) <==> id == 1 || id == 2
  {
    var q := QuestionTable;
    if Offered(id, t) {
      var i, j :| 0 <= i < |q| && q[i].id == id && 0 <= j < |q[i].options| && q[i].options[j].tag == t;
      assert i == 0 || i == 1 || i == 2 || i == 3;
      assert j == 0 || j == 1 || j == 2;
    }
    if id == 1 {
      if t == Oily { assert q[0].options[0].tag == t; } else { assert q[0].options[2].tag == t; }
    } else if id == 2 {
      if t == Oily { assert q[1].options[2].tag == t; } else { assert q[1].options[0].tag == t; }
    }
  }
}
