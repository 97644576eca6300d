/** The skin-type verdict the result screen shows: it compares how many
    stored answers are `oily` with how many are `dry`. */
module Diagnosis {
  import opened Questions

  /** What the result screen displays: a skin-type label, a description and a score out of 100. */
  datatype Diagnosis = Diagnosis(skinType: string, desc: string, score: int)

  const CombinationDiagnosis := Diagnosis(
    "복합성 (Combination)",
    "T존은 번들거리고 U존은 건조한 타입입니다. 부위별 맞춤 케어가 필요합니다.",
    78)

  const OilyDiagnosis := Diagnosis(
    "지성 (Oily)",
    "유분 분비가 많아 모공 관리가 중요합니다. 가벼운 제형의 제품을 추천합니다.",
    72)

  const DryDiagnosis := Diagnosis(
    "건성 (Dry)",
    "수분 부족으로 탄력이 저하될 수 있습니다. 고보습 제품 위주로 관리해주세요.",
    65)

  /** The questions whose stored answer is `t`. */
  function KeysWithTag(answers: map<int, Tag>, t: Tag): (keys: set<int>)
    ensures keys <= answers.Keys
    ensures forall k :: k in keys <==> k in answers && answers[k] == t
  {
    set k | k in answers && answers[k] == t
  }

  /** How many of the stored answers (the map's values, counted with repetition) equal `t`. */
  function CountTag(answers: map<int, Tag>, t: Tag): (n: nat)
    ensures n <= |answers|
  {
    var keys := KeysWithTag(answers, t);
    SubsetSize(keys, answers.Keys);
    |keys|
  }

  /** The length of `vals` filtered to the entries equal to `t`. */
  function FilterCount(vals: seq<Tag>, t: Tag): (n: nat)
    ensures n <= |vals|
  {
    if vals == [] then 0 else (if vals[0] == t then 1 else 0) + FilterCount(vals[1..], t)
  }

  /** `ks` lists every question of `answers` exactly once, in some order. */
  predicate Enumerates(answers: map<int, Tag>, ks: seq<int>)
  {
    && (forall i, j :: 0 <= i < j < |ks| ==> ks[i] != ks[j])
    && (forall i :: 0 <= i < |ks| ==> ks[i] in answers)
    && (forall k :: k in answers ==> k in ks)
  }

  /** The answers read off along the key list `ks`, as the values of the map in that order. */
  function ValuesAlong(answers: map<int, Tag>, ks: seq<int>): (vals: seq<Tag>)
    requires forall i :: 0 <= i < |ks| ==> ks[i] in answers
    ensures |vals| == |ks|
    ensures forall i :: 0 <= i < |ks| ==> vals[i] == answers[ks[i]]
  {
    if ks == [] then [] else [answers[ks[0]]] + ValuesAlong(answers, ks[1..])
  }

  /** Counting keys is the same as filtering the list of values: whatever order
      the values are listed in, the filtered length equals `CountTag`. */
  lemma {:induction false} CountTagIsFilterCount(answers: map<int, Tag>, ks: seq<int>, t: Tag)
    requires Enumerates(answers, ks)
    ensures FilterCount(ValuesAlong(answers, ks), t) == CountTag(answers, t)
    decreases |ks|
  {
    if ks == [] {
      assert KeysWithTag(answers, t) == {} by {
        forall k | k in KeysWithTag(answers, t) ensures k in ks {}
      }
    } else {
      var k0, rest := ks[0], ks[1..];
      var smaller := answers - {k0};
      EnumeratesTail(answers, ks);
      CountTagIsFilterCount(smaller, rest, t);
      assert ValuesAlong(answers, ks)[1..] == ValuesAlong(smaller, rest);
      KeysWithTagRemove(answers, k0, t);
    }
  }

  lemma {:induction false} EnumeratesTail(answers: map<int, Tag>, ks: seq<int>)
    requires Enumerates(answers, ks) && ks != []
    ensures Enumerates(answers - {ks[0]}, ks[1..])
  {
    var rest := ks[1..];
    forall i | 0 <= i < |rest| ensures rest[i] in answers - {ks[0]} {
      assert rest[i] == ks[i + 1];
    }
    forall k | k in answers - {ks[0]} ensures k in rest {
      var j :| 0 <= j < |ks| && ks[j] == k;
      assert j > 0 && rest[j - 1] == k;
    }
  }

  lemma KeysWithTagRemove(answers: map<int, Tag>, k0: int, t: Tag)
    requires k0 in answers
    ensures |KeysWithTag(answers, t)| ==
      |KeysWithTag(answers - {k0}, t)| + (if answers[k0] == t then 1 else 0)
  {
    if answers[k0] == t {
      assert KeysWithTag(answers, t) == KeysWithTag(answers - {k0}, t) + {k0};
    } else {
      assert KeysWithTag(answers, t) == KeysWithTag(answers - {k0}, t);
    }
  }

  /** The verdict for the stored answers: oily when oily answers outnumber dry ones,
      dry in the opposite case, and the combination default otherwise. */
  function GetResult(answers: map<int, Tag>): (r: Diagnosis)
    ensures r == OilyDiagnosis || r == DryDiagnosis || r == CombinationDiagnosis
    ensures r.score == 72 || r.score == 65 || r.score == 78
    ensures 0 <= r.score <= 100
  {
    var oilyCount := CountTag(answers, Oily);
    var dryCount := CountTag(answers, Dry);
    if oilyCount > dryCount then OilyDiagnosis
    else if dryCount > oilyCount then DryDiagnosis
    else CombinationDiagnosis
  }

  lemma {:induction false} SubsetSize(a: set<int>, b: set<int>)
    requires a <= b
    ensures |a| <= |b|
  {
    assert b == a + (b - a);
  }

  /** The three verdicts carry distinct labels. */
  lemma DiagnosesDistinct()
    ensures OilyDiagnosis.skinType != DryDiagnosis.skinType
    ensures OilyDiagnosis.skinType != CombinationDiagnosis.skinType
    ensures DryDiagnosis.skinType != CombinationDiagnosis.skinType
  {
    assert OilyDiagnosis.skinType[0] != DryDiagnosis.skinType[0];
    assert OilyDiagnosis.skinType[0] != CombinationDiagnosis.skinType[0];
    assert DryDiagnosis.skinType[0] != CombinationDiagnosis.skinType[0];
  }

  /** Each verdict is chosen exactly when its count comparison holds. */
  lemma ResultCases(answers: map<int, Tag>)
    ensures GetResult(answers) == OilyDiagnosis <==> CountTag(answers, Oily) > CountTag(answers, Dry)
    ensures GetResult(answers) == DryDiagnosis <==> CountTag(answers, Dry) > CountTag(answers, Oily)
    ensures GetResult(answers) == CombinationDiagnosis <==> CountTag(answers, Oily) == CountTag(answers, Dry)
  {
    DiagnosesDistinct();
  }

  /** With no answers at all the combination default is shown, with score 78. */
  lemma EmptyAnswersGiveCombination()
    ensures GetResult(map[]) == CombinationDiagnosis
    ensures GetResult(map[]).score == 78
  {
  }

  /** Whether question `k` holds tag `t`. */
  predicate HoldsTag(answers: map<int, Tag>, k: int, t: Tag)
  {
    k in answers && answers[k] == t
  }

  /** Only the `oily` and `dry` answers matter: two answer maps that agree on
      which questions hold those two tags get the same verdict, whatever their
      other tags and whatever other questions they answer. */
  lemma {:induction false} OnlyOilyAndDryMatter(a: map<int, Tag>, b: map<int, Tag>)
    requires forall k :: HoldsTag(a, k, Oily) <==> HoldsTag(b, k, Oily)
    requires forall k :: HoldsTag(a, k, Dry) <==> HoldsTag(b, k, Dry)
    ensures GetResult(a) == GetResult(b)
  {
    assert KeysWithTag(a, Oily) == KeysWithTag(b, Oily) by {
      forall k ensures k in KeysWithTag(a, Oily) <==> k in KeysWithTag(b, Oily) {
        assert HoldsTag(a, k, Oily) <==> HoldsTag(b, k, Oily);
      }
    }
    assert KeysWithTag(a, Dry) == KeysWithTag(b, Dry) by {
      forall k ensures k in KeysWithTag(a, Dry) <==> k in KeysWithTag(b, Dry) {
        assert HoldsTag(a, k, Dry) <==> HoldsTag(b, k, Dry);
      }
    }
  }

  /** Changing one answer between two tags other than `oily` and `dry`, or adding
      such an answer, leaves the verdict unchanged. */
  lemma {:induction false} IgnoredTagUpdate(answers: map<int, Tag>, k: int, t: Tag)
    requires t != Oily && t != Dry
    requires k in answers ==> answers[k] != Oily && answers[k] != Dry
    ensures GetResult(answers[k := t]) == GetResult(answers)
  {
    var b := answers[k := t];
    forall j ensures HoldsTag(answers, j, Oily) <==> HoldsTag(b, j, Oily) {}
    forall j ensures HoldsTag(answers, j, Dry) <==> HoldsTag(b, j, Dry) {}
    OnlyOilyAndDryMatter(answers, b);
  }

  /** The image of `s` under `f`. */
  function Image(s: set<int>, f: int -> int): (img: set<int>)
    ensures forall x :: x in s ==> f(x) in img
    ensures forall y :: y in img ==> exists x :: x in s && f(x) == y
  {
    set x | x in s :: f(x)
  }

  /** An injective map does not change the size of a set. */
  lemma {:induction false} InjectiveImageSize(s: set<int>, f: int -> int)
    requires forall x, y :: x in s && y in s && f(x) == f(y) ==> x == y
    ensures |Image(s, f)| == |s|
  {
    if s != {} {
      // Rules out the empty case explicitly: with contradiction checking
      // enabled, the verifier does not derive an element of `s` from `s != {}`.
      if forall y :: y !in s { assert false; }
      var x :| x in s;
      var rest := s - {x};
      InjectiveImageSize(rest, f);
      assert Image(s, f) == Image(rest, f) + {f(x)};
      assert f(x) !in Image(rest, f);
    }
  }

  /** `f` moves every answer of `a` to a distinct question of `b`, and every answer of `b` comes from `a`. */
  predicate Relabels(a: map<int, Tag>, b: map<int, Tag>, f: int -> int)
  {
    && (forall k :: k in a ==> f(k) in b && b[f(k)] == a[k])
    && (forall k1, k2 :: k1 in a && k2 in a && f(k1) == f(k2) ==> k1 == k2)
    && (forall j :: j in b ==> exists k :: k in a && f(k) == j)
  }

  /** Moving the answers to other questions, one to one, keeps each tag's count. */
  lemma {:induction false} RelabelKeepsCount(a: map<int, Tag>, b: map<int, Tag>, f: int -> int, t: Tag)
    requires Relabels(a, b, f)
    ensures CountTag(b, t) == CountTag(a, t)
  {
    var s := KeysWithTag(a, t);
    InjectiveImageSize(s, f);
    assert Image(s, f) == KeysWithTag(b, t) by {
      forall j | j in KeysWithTag(b, t) ensures j in Image(s, f) {
        var k :| k in a && f(k) == j;
        assert k in s;
      }
    }
  }

  /** The verdict does not depend on which question holds which tag: relabelling
      the questions one to one leaves it unchanged. */
  lemma {:induction false} ResultIndependentOfQuestionOrder(a: map<int, Tag>, b: map<int, Tag>, f: int -> int)
    requires Relabels(a, b, f)
    ensures GetResult(b) == GetResult(a)
  {
    RelabelKeepsCount(a, b, f, Oily);
    RelabelKeepsCount(a, b, f, Dry);
  }

  /** In particular, exchanging the answers of two questions leaves the verdict unchanged. */
  lemma {:induction false} SwapAnswers(answers: map<int, Tag>, i: int, j: int)
    requires i in answers && j in answers
    ensures GetResult(answers[i := answers[j]][j := answers[i]]) == GetResult(answers)
  {
    var b := answers[i := answers[j]][j := answers[i]];
    var f := (k: int) => if k == i then j else if k == j then i else k;
    assert Relabels(answers, b, f) by {
      forall k | k in b ensures exists m :: m in answers && f(m) == k {
        assert f(f(k)) == k;
      }
    }
    ResultIndependentOfQuestionOrder(answers, b, f);
  }

  /** For answers picked from the question table, only questions 1 and 2 can hold `oily` or `dry`. */
  lemma {:induction false} DecisiveAnswersInFirstTwo(answers: map<int, Tag>)
    requires AnswersFromTable(answers)
    ensures forall k :: HoldsTag(answers, k, Oily) || HoldsTag(answers, k, Dry) ==> k == 1 || k == 2
  {
    forall k | HoldsTag(answers, k, Oily) || HoldsTag(answers, k, Dry) ensures k == 1 || k == 2 {
      OilyAndDryOnlyInFirstTwo(k, answers[k]);
    }
  }

  /** The answers to questions 1 and 2 only. */
  function FirstTwo(answers: map<int, Tag>): (first: map<int, Tag>)
    ensures first.Keys <= {1, 2}
    ensures forall k :: k in answers && (k == 1 || k == 2) ==> k in first && first[k] == answers[k]
  {
    map k | k in answers && (k == 1 || k == 2) :: answers[k]
  }

  /** For answers picked from the question table, the answers to questions 1
      and 2 alone decide the verdict. */
  lemma {:induction false} FirstTwoQuestionsDecide(answers: map<int, Tag>)
    requires AnswersFromTable(answers)
    ensures GetResult(answers) == GetResult(FirstTwo(answers))
  {
    DecisiveAnswersInFirstTwo(answers);
    var first := FirstTwo(answers);
    forall k ensures HoldsTag(answers, k, Oily) <==> HoldsTag(first, k, Oily) {}
    forall k ensures HoldsTag(answers, k, Dry) <==> HoldsTag(first, k, Dry) {}
    OnlyOilyAndDryMatter(answers, first);
  }

  /** For answers picked from the question table, at most two answers are `oily` or `dry`. */
  lemma {:induction false} AtMostTwoDecisiveAnswers(answers: map<int, Tag>)
    requires AnswersFromTable(answers)
    ensures CountTag(answers, Oily) + CountTag(answers, Dry) <= 2
  {
    DecisiveAnswersInFirstTwo(answers);
    var oily, dry := KeysWithTag(answers, Oily), KeysWithTag(answers, Dry);
    assert oily + dry <= {1, 2} by {
      forall k | k in oily + dry ensures k == 1 || k == 2 {
        assert HoldsTag(answers, k, Oily) || HoldsTag(answers, k, Dry);
      }
    }
    assert oily !! dry;
    SubsetSize(oily + dry, {1, 2});
  }
}
