/**
 What a submitted form can score. Every widget limits its answers, so each
 question earns between a least and a most number of points; summed over
 the catalog these give the range of every form's score, and both ends of
 the range are reached by some form.
 */
module FormBounds {
  import opened Answers
  import opened Questions
  import opened Scoring
  import opened Ranking

  /** The least points each catalog question can earn from a form answer. */
  const FormLow: seq<int> := [0, 0, 1, 1, 1, 0, 0, 1, 0, 0, 1, 0, 1, 1, 0]

  /** The most points each catalog question can earn from a form answer. */
  const FormHigh: seq<int> := [5, 5, 1, 4, 3, 5, 4, 5, 3, 10, 4, 4, 4, 5, 4]

  /** A form that earns the least points on every question: no stores and
      no machines, nothing selected, a committed pharmacy owner ("Sim") and
      the lightest particularity. */
  const LowAnswers: seq<Answer> := [
    Num(0), Num(0), Text(""), Text(""), Text(""), Text(""), Text(""), Text(""),
    Text(""), Text(""), Text(""), Text(""), Yes, Pair("", 1), Text("")
  ]

  /** A form that earns the most points on every question. */
  const HighAnswers: seq<Answer> := [
    Num(6), Num(17), Text(""), Yes, Yes, Yes, Yes, Yes,
    Text("Importação"), Yes, Yes, Text("Suporte"), Text(""), Pair("", 5), Text("Alpha7")
  ]

  /** Every answer the widget of catalog question `i` can produce earns
      between that question's least and most points, once the store count
      is a number. */
  lemma QuestionRange(i: nat, a: Answer, sib: Siblings)
    requires i < |Catalog| && WidgetAccepts(Catalog[i], a) && sib.stores.Num?
    ensures Contribution(Catalog[i], a, sib, DefaultWeight).Points?
    ensures FormLow[i] <= Contribution(Catalog[i], a, sib, DefaultWeight).value <= FormHigh[i]
  {
  }

  /** The two extreme forms reach each question's least and most points. */
  lemma QuestionExtremes(i: nat, sib: Siblings)
    requires i < |Catalog|
    ensures WidgetAccepts(Catalog[i], LowAnswers[i]) && WidgetAccepts(Catalog[i], HighAnswers[i])
    ensures sib.stores == Num(0) ==> Contribution(Catalog[i], LowAnswers[i], sib, DefaultWeight) == Points(FormLow[i])
    ensures sib == Siblings(Num(6), Yes) ==> Contribution(Catalog[i], HighAnswers[i], sib, DefaultWeight) == Points(FormHigh[i])
  {
    var q := Catalog[i];
    if i == 0 { assert q == Stores; }
    else if i == 1 { assert q == Machines; }
    else if i == 2 { assert q == Infrastructure; }
    else if i == 3 { assert q == Replication; }
    else if i == 4 { assert q == TaxRegime; }
    else if i == 5 { assert q == OutOfStateSales; }
    else if i == 6 { assert q == FinancePlus; }
    else if i == 7 { assert q == ECommerce; }
    else if i == 8 { assert q == NewOrImport; }
    else if i == 9 { assert q == HasImporter; }
    else if i == 10 { assert q == Banks; }
    else if i == 11 { assert q == SwitchReason; }
    else if i == 12 { assert q == PharmacyOwner; }
    else if i == 13 { assert q == Particularity; }
    else { assert q == LegacySystem; }
  }

  function SumOf(xs: seq<int>): int
  {
    if |xs| == 0 then 0 else xs[0] + SumOf(xs[1..])
  }

  /** The sum of the first `n` numbers. */
  function SumUpTo(xs: seq<int>, n: nat): int
    requires n <= |xs|
  {
    if n == 0 then 0 else SumUpTo(xs, n - 1) + xs[n - 1]
  }

  lemma {:induction false} SumOfIsSumUpTo(xs: seq<int>)
    ensures SumOf(xs) == SumUpTo(xs, |xs|)
  {
    if |xs| > 0 {
      SumOfIsSumUpTo(xs[1..]);
      SumUpToShift(xs, |xs|);
    }
  }

  lemma {:induction false} SumUpToShift(xs: seq<int>, n: nat)
    requires 0 < n <= |xs|
    ensures SumUpTo(xs, n) == xs[0] + SumUpTo(xs[1..], n - 1)
  {
    if n > 1 {
      SumUpToShift(xs, n - 1);
    }
  }

  /** Per-item bounds add up to bounds on the accumulated sum. */
  lemma {:induction false} TotalWithin(e: seq<Entry>, f: Entry -> Outcome, lo: seq<int>, hi: seq<int>)
    requires |lo| == |e| && |hi| == |e|
    requires forall i :: 0 <= i < |e| ==> f(e[i]).Points? && lo[i] <= f(e[i]).value <= hi[i]
    ensures Total(e, f).Points?
    ensures SumOf(lo) <= Total(e, f).value <= SumOf(hi)
  {
    if |e| > 0 {
      forall i | 0 <= i < |e| - 1
        ensures f(e[1..][i]).Points? && lo[1..][i] <= f(e[1..][i]).value <= hi[1..][i]
      {
        assert e[1..][i] == e[i + 1];
      }
      TotalWithin(e[1..], f, lo[1..], hi[1..]);
    }
  }

  /** The least points add up to 7. */
  lemma LowEnd()
    ensures SumOf(FormLow) == 7
  {
    assert FormLow[0] == 0 && FormLow[1] == 0 && FormLow[2] == 1 && FormLow[3] == 1 && FormLow[4] == 1;
    assert FormLow[5] == 0 && FormLow[6] == 0 && FormLow[7] == 1 && FormLow[8] == 0 && FormLow[9] == 0;
    assert FormLow[10] == 1 && FormLow[11] == 0 && FormLow[12] == 1 && FormLow[13] == 1 && FormLow[14] == 0;
    assert SumUpTo(FormLow, 1) == 0;
    assert SumUpTo(FormLow, 2) == 0;
    assert SumUpTo(FormLow, 3) == 1;
    assert SumUpTo(FormLow, 4) == 2;
    assert SumUpTo(FormLow, 5) == 3;
    assert SumUpTo(FormLow, 6) == 3;
    assert SumUpTo(FormLow, 7) == 3;
    assert SumUpTo(FormLow, 8) == 4;
    assert SumUpTo(FormLow, 9) == 4;
    assert SumUpTo(FormLow, 10) == 4;
    assert SumUpTo(FormLow, 11) == 5;
    assert SumUpTo(FormLow, 12) == 5;
    assert SumUpTo(FormLow, 13) == 6;
    assert SumUpTo(FormLow, 14) == 7;
    SumOfIsSumUpTo(FormLow);
  }

  /** The most points add up to 66. */
  lemma HighEnd()
    ensures SumOf(FormHigh) == 66
  {
    assert FormHigh[0] == 5 && FormHigh[1] == 5 && FormHigh[2] == 1 && FormHigh[3] == 4 && FormHigh[4] == 3;
    assert FormHigh[5] == 5 && FormHigh[6] == 4 && FormHigh[7] == 5 && FormHigh[8] == 3 && FormHigh[9] == 10;
    assert FormHigh[10] == 4 && FormHigh[11] == 4 && FormHigh[12] == 4 && FormHigh[13] == 5 && FormHigh[14] == 4;
    assert SumUpTo(FormHigh, 1) == 5;
    assert SumUpTo(FormHigh, 2) == 10;
    assert SumUpTo(FormHigh, 3) == 11;
    assert SumUpTo(FormHigh, 4) == 15;
    assert SumUpTo(FormHigh, 5) == 18;
    assert SumUpTo(FormHigh, 6) == 23;
    assert SumUpTo(FormHigh, 7) == 27;
    assert SumUpTo(FormHigh, 8) == 32;
    assert SumUpTo(FormHigh, 9) == 35;
    assert SumUpTo(FormHigh, 10) == 45;
    assert SumUpTo(FormHigh, 11) == 49;
    assert SumUpTo(FormHigh, 12) == 53;
    assert SumUpTo(FormHigh, 13) == 57;
    assert SumUpTo(FormHigh, 14) == 62;
    SumOfIsSumUpTo(FormHigh);
  }

  /** A submitted form always scores between 7 and 66. */
  lemma FormScoreBounds(e: seq<Entry>)
    requires FormShaped(e)
    ensures Score(e, DefaultWeight).Points?
    ensures 7 <= Score(e, DefaultWeight).value <= 66
  {
    var f := Rules(SiblingsOf(e), DefaultWeight);
    assert SiblingsOf(e).stores == e[0].answer;
    forall i | 0 <= i < |e| ensures f(e[i]).Points? && FormLow[i] <= f(e[i]).value <= FormHigh[i] {
      QuestionRange(i, e[i].answer, SiblingsOf(e));
    }
    TotalWithin(e, f, FormLow, FormHigh);
    LowEnd();
    HighEnd();
  }

  /** The dictionary a submitted form builds from one answer per question. */
  function FormOf(answers: seq<Answer>): seq<Entry>
    requires |answers| == |Catalog|
  {
    seq(|Catalog|, i requires 0 <= i < |Catalog| => Entry(Catalog[i], answers[i]))
  }

  /** The form built from one answer per question, in catalog order, is a
      dictionary whose store count and out-of-state sales are its first and
      sixth answers. */
  lemma FormOfShape(answers: seq<Answer>)
    requires |answers| == |Catalog|
    ensures (forall i :: 0 <= i < |Catalog| ==> WidgetAccepts(Catalog[i], answers[i])) ==> FormShaped(FormOf(answers))
    ensures SiblingsOf(FormOf(answers)) == Siblings(answers[0], answers[5])
  {
    CatalogDistinct();
    var e := FormOf(answers);
    assert DistinctKeys(e);
    assert e[0] == Entry(Stores, answers[0]) && e[5] == Entry(OutOfStateSales, answers[5]);
    GetStored(e, Stores, answers[0], Num(0));
    GetStored(e, OutOfStateSales, answers[5], Text("Não"));
  }

  /** That form scores the sum of the questions' points. */
  lemma ScoreOfForm(answers: seq<Answer>, points: seq<int>)
    requires |answers| == |Catalog| && |points| == |Catalog|
    requires forall i :: 0 <= i < |Catalog| ==>
      Contribution(Catalog[i], answers[i], Siblings(answers[0], answers[5]), DefaultWeight) == Points(points[i])
    ensures Score(FormOf(answers), DefaultWeight) == Points(SumOf(points))
  {
    FormOfShape(answers);
    var e := FormOf(answers);
    var f := Rules(Siblings(answers[0], answers[5]), DefaultWeight);
    forall i | 0 <= i < |e| ensures f(e[i]) == Points(points[i]) {
      assert e[i] == Entry(Catalog[i], answers[i]);
    }
    TotalWithin(e, f, points, points);
  }

  /** The lowest score of the range is reached. */
  lemma LowestFormScore()
    ensures FormShaped(FormOf(LowAnswers)) && Score(FormOf(LowAnswers), DefaultWeight) == Points(7)
  {
    LowAnswersPoints(Siblings(LowAnswers[0], LowAnswers[5]));
    FormOfShape(LowAnswers);
    ScoreOfForm(LowAnswers, FormLow);
    LowEnd();
  }

  /** The highest score of the range is reached. */
  lemma HighestFormScore()
    ensures FormShaped(FormOf(HighAnswers)) && Score(FormOf(HighAnswers), DefaultWeight) == Points(66)
  {
    HighAnswersPoints(Siblings(HighAnswers[0], HighAnswers[5]));
    FormOfShape(HighAnswers);
    ScoreOfForm(HighAnswers, FormHigh);
    HighEnd();
  }

  lemma HighAnswersPoints(sib: Siblings)
    requires sib == Siblings(Num(6), Yes)
    ensures forall i :: 0 <= i < |Catalog| ==> WidgetAccepts(Catalog[i], HighAnswers[i])
    ensures forall i :: 0 <= i < |Catalog| ==> Contribution(Catalog[i], HighAnswers[i], sib, DefaultWeight) == Points(FormHigh[i])
  {
    forall i | 0 <= i < |Catalog|
      ensures WidgetAccepts(Catalog[i], HighAnswers[i])
      ensures Contribution(Catalog[i], HighAnswers[i], sib, DefaultWeight) == Points(FormHigh[i])
    {
      QuestionExtremes(i, sib);
    }
  }

  lemma LowAnswersPoints(sib: Siblings)
    requires sib == Siblings(Num(0), Text(""))
    ensures forall i :: 0 <= i < |Catalog| ==> WidgetAccepts(Catalog[i], LowAnswers[i])
    ensures forall i :: 0 <= i < |Catalog| ==> Contribution(Catalog[i], LowAnswers[i], sib, DefaultWeight) == Points(FormLow[i])
  {
    forall i | 0 <= i < |Catalog|
      ensures WidgetAccepts(Catalog[i], LowAnswers[i])
      ensures Contribution(Catalog[i], LowAnswers[i], sib, DefaultWeight) == Points(FormLow[i])
    {
      QuestionExtremes(i, sib);
    }
  }

  /** Since a submitted form scores at least 7, above every rank value, its
      final classification, the one exported, is always S. */
  lemma FormFinalRankIsS(e: seq<Entry>)
    requires FormShaped(e)
    ensures Score(e, DefaultWeight).Points? && NearestRank(Score(e, DefaultWeight).value) == S
  {
    FormScoreBounds(e);
  }

  /** The particularity is the form's only pair answer, so the adjusted score
      counts its weight a second time on top of the score, which already
      holds it. */
  lemma FormAdjustedScore(e: seq<Entry>)
    requires FormShaped(e)
    ensures EntryPoints(e, 13, DefaultWeight) == Points(e[13].answer.weight)
    ensures Score(e, DefaultWeight).Points?
    ensures AdjustedScore(Score(e, DefaultWeight).value, e)
            == Score(e, DefaultWeight).value + e[13].answer.weight
  {
    FormScoreBounds(e);
    assert e[13].key == Particularity;
    forall j | 0 <= j < |e| && j != 13 ensures !e[j].answer.Pair? {
      assert WidgetAccepts(Catalog[j], e[j].answer);
    }
    AdjustedScoreSinglePair(Score(e, DefaultWeight).value, e, 13);
  }
}
