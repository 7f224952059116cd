/**
 The prospect scorer: one rule per question, a default weight for every
 other key, and the score as the sum of the rules' points over the answer
 dictionary. Two rules read a sibling answer: the store count (read once,
 0 when absent) and the out-of-state sales answer ("Não" when absent).
 */
module Scoring {
  import opened Answers
  import opened Questions

  /** The weight `peso_padrao` the form's call leaves at its default. */
  const DefaultWeight: int := 10

  /** 1 once `n` has reached `threshold`, else 0. */
  function Reached(n: int, threshold: int): int
  {
    if n >= threshold then 1 else 0
  }

  /** Store count: 1 store gives 2, 2 to 5 give 4, more than 5 give 5. A
      text or pair answer makes the range comparison raise. */
  function StoreTier(a: Answer): (r: Outcome)
    ensures r.Points? <==> a.Num?
    ensures a.Num? ==> r.value == 2 * Reached(a.n, 1) + 2 * Reached(a.n, 2) + Reached(a.n, 6)
  {
    match a
    case Num(n) =>
      if n == 1 then Points(2)
      else if 2 <= n <= 5 then Points(4)
      else if n > 5 then Points(5)
      else Points(0)
    case _ => Raises
  }

  /** Machine count: 1-3 give 1, 4-7 give 3, 8-16 give 4, 17-100 give 5; none
      and more than 100 give nothing. A non-number makes the comparison raise. */
  function MachineTier(a: Answer): (r: Outcome)
    ensures r.Points? <==> a.Num?
    ensures a.Num? && a.n <= 100 ==>
      r.value == Reached(a.n, 1) + 2 * Reached(a.n, 4) + Reached(a.n, 8) + Reached(a.n, 17)
    ensures a.Num? && a.n > 100 ==> r.value == 0
  {
    match a
    case Num(n) =>
      if 1 <= n <= 3 then Points(1)
      else if 4 <= n <= 7 then Points(3)
      else if 8 <= n <= 16 then Points(4)
      else if 17 <= n <= 100 then Points(5)
      else Points(0)
    case _ => Raises
  }

  /** A question scored `yes` points for "Sim" and `no` points otherwise. */
  function ByYes(a: Answer, yes: int, no: int): Outcome
  {
    Points(if a == Yes then yes else no)
  }

  /** A select box scored from a table of options; any other answer,
      including the unselected one, scores nothing. */
  function ByOption(a: Answer, table: map<string, int>): Outcome
  {
    Points(if a.Text? && a.s in table then table[a.s] else 0)
  }

  const OriginPoints: map<string, int> := map["Importação" := 3, "Nova Loja" := 2]

  const ReasonPoints: map<string, int> := map[
    "Preço" := 3,
    "Sistema mais fácil de utilizar" := 2,
    "Sistema mais complexo com mais recursos" := 3,
    "Suporte" := 4,
    "Desentendimento com sistema anterior" := 4
  ]

  const SystemPoints: map<string, int> := map[
    "Trier" := 3, "Digifarma" := 2, "Inovafarma" := 3, "BIG" := 3,
    "Softpharma" := 4, "Automatiza" := 4, "Alpha7" := 4
  ]

  /** Replication: "Sim" gives 3 with at most 2 stores and 4 with more;
      anything else gives 1. Comparing a non-number store count raises. */
  function ReplicationRule(a: Answer, stores: Answer): Outcome
  {
    if a == Yes then
      match stores
      case Num(l) => Points(if l <= 2 then 3 else 4)
      case _ => Raises
    else Points(1)
  }

  /** E-commerce: "Sim" gives 5 when out-of-state sales are "Sim" and 3
      otherwise; anything else gives 1. */
  function ECommerceRule(a: Answer, outOfStateSales: Answer): Outcome
  {
    if a == Yes then Points(if outOfStateSales == Yes then 5 else 3) else Points(1)
  }

  /** Banks: "Sim" gives 4; otherwise 3 with more than one store and 1
      without. Comparing a non-number store count raises. */
  function BanksRule(a: Answer, stores: Answer): Outcome
  {
    if a == Yes then Points(4)
    else
      match stores
      case Num(l) => Points(if l > 1 then 3 else 1)
      case _ => Raises
  }

  /** Particularity: the weight of the (text, weight) pair. Anything else
      cannot be unpacked into a text and a number, and raises. */
  function ParticularityRule(a: Answer): Outcome
  {
    if a.Pair? then Points(a.weight) else Raises
  }

  /** Any key without a rule of its own: the default weight for a positive
      number or "Sim", nothing otherwise. */
  function DefaultRule(a: Answer, w: int): Outcome
  {
    Points(if (a.Num? && a.n > 0) || a == Yes then w else 0)
  }

  /** The sibling answers the rules read, taken from the dictionary once. */
  datatype Siblings = Siblings(stores: Answer, outOfStateSales: Answer)

  function SiblingsOf(e: seq<Entry>): Siblings
  {
    Siblings(Get(e, Stores, Num(0)), Get(e, OutOfStateSales, Text("Não")))
  }

  /** The points one answer contributes, given the sibling answers and the
      default weight `w`. */
  function Contribution(k: Question, a: Answer, sib: Siblings, w: int): (r: Outcome)
    ensures k !in ScoredQuestions ==> r == DefaultRule(a, w)
  {
    if k == Stores then StoreTier(a)
    else if k == Machines then MachineTier(a)
    else if k == Infrastructure then Points(1)
    else if k == Replication then ReplicationRule(a, sib.stores)
    else if k == TaxRegime then ByYes(a, 3, 1)
    else if k == OutOfStateSales then ByYes(a, 5, 0)
    else if k == FinancePlus then ByYes(a, 4, 0)
    else if k == ECommerce then ECommerceRule(a, sib.outOfStateSales)
    else if k == NewOrImport then ByOption(a, OriginPoints)
    else if k == SwitchReason then ByOption(a, ReasonPoints)
    else if k == Banks then BanksRule(a, sib.stores)
    else if k == PharmacyOwner then ByYes(a, 1, 4)
    else if k == Particularity then ParticularityRule(a)
    else if k == LegacySystem then ByOption(a, SystemPoints)
    else DefaultRule(a, w)
  }

  /** The rule applied to every item of a dictionary with these siblings. */
  function Rules(sib: Siblings, w: int): Entry -> Outcome
  {
    (x: Entry) => Contribution(x.key, x.answer, sib, w)
  }

  /** The score of an answer dictionary with default weight `w`: the sum of
      every item's points, or an exception when some rule raises. */
  function Score(e: seq<Entry>, w: int): (r: Outcome)
    ensures |e| == 0 ==> r == Points(0)
  {
    Total(e, Rules(SiblingsOf(e), w))
  }

  /** The points item `i` of the dictionary contributes to its score. */
  function EntryPoints(e: seq<Entry>, i: nat, w: int): Outcome
    requires i < |e|
  {
    Rules(SiblingsOf(e), w)(e[i])
  }

  /** The answer types every rule can work with: numbers for the two counts
      and a pair for the particularity. */
  predicate Typed(x: Entry)
  {
    && (x.key == Stores || x.key == Machines ==> x.answer.Num?)
    && (x.key == Particularity ==> x.answer.Pair?)
  }

  ghost predicate WellTyped(e: seq<Entry>)
  {
    forall i :: 0 <= i < |e| ==> Typed(e[i])
  }
}
