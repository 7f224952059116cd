/**
 The questionnaire: the fifteen question labels in the order the form asks
 them, the options each select box offers, and which answers each widget can
 hand to the scorer.
 */
module Questions {
  import opened Answers

  const Stores: Question := "Quantas lojas?"
  const Machines: Question := "Quantas máquinas?"
  const Infrastructure: Question := "Infraestrutura adequada? (Parque das máquinas)"
  const Replication: Question := "Replicação?"
  const TaxRegime: Question := "Enquadramento, Lucro Real ou Presumido?"
  const OutOfStateSales: Question := "Venda para fora da UF em grande volume?"
  const FinancePlus: Question := "Financeiro Plus?"
  const ECommerce: Question := "Atualmente possui um E-Commerce?"
  const NewOrImport: Question := "Loja Nova ou Importação?"
  const HasImporter: Question := "Se importação, temos importador?"
  const Banks: Question := "Mais de uma loja com bancos diferentes?"
  const SwitchReason: Question := "Motivo da troca de sistema?"
  const PharmacyOwner: Question := "O projeto possui um responsável por parte da farmácia, engajado e ciente que sua participação será necessária para o sucesso do projeto?"
  const Particularity: Question := "Alguma particularidade que considere incomum?"
  const LegacySystem: Question := "Qual sistema do cliente a ser migrado?"

  /** The questions in the order the form asks them. */
  const Catalog: seq<Question> := [
    Stores, Machines, Infrastructure, Replication, TaxRegime,
    OutOfStateSales, FinancePlus, ECommerce, NewOrImport, HasImporter,
    Banks, SwitchReason, PharmacyOwner, Particularity, LegacySystem
  ]

  /** The questions that have a rule of their own in the scorer; every other
      key falls back to the default weight rule. */
  const ScoredQuestions: set<Question> := {
    Stores, Machines, Infrastructure, Replication, TaxRegime,
    OutOfStateSales, FinancePlus, ECommerce, NewOrImport,
    Banks, SwitchReason, PharmacyOwner, Particularity, LegacySystem
  }

  const YesNoOptions: seq<string> := ["", "Sim", "Não"]
  const OriginOptions: seq<string> := ["", "Importação", "Nova Loja"]
  const ReasonOptions: seq<string> := [
    "", "Preço", "Sistema mais fácil de utilizar",
    "Sistema mais complexo com mais recursos", "Suporte",
    "Desentendimento com sistema anterior"
  ]
  const SystemOptions: seq<string> := [
    "", "Trier", "Digifarma", "Inovafarma", "BIG", "Softpharma", "Automatiza", "Alpha7"
  ]

  /** The answers the widget of question `q` can produce: a whole number of
      at least 0 for the two counts, a (text, 1..5) pair for the
      particularity, and one of the offered options for every select box. */
  predicate WidgetAccepts(q: Question, a: Answer)
  {
    if q == Stores || q == Machines then a.Num? && a.n >= 0
    else if q == Particularity then a.Pair? && 1 <= a.weight <= 5
    else if q == SwitchReason then a.Text? && a.s in ReasonOptions
    else if q == NewOrImport then a.Text? && a.s in OriginOptions
    else if q == LegacySystem then a.Text? && a.s in SystemOptions
    else a.Text? && a.s in YesNoOptions
  }

  /** An answer dictionary as a submitted form builds it: one answer per
      catalog question, in catalog order, each one its widget can produce. */
  predicate FormShaped(e: seq<Entry>)
  {
    && |e| == |Catalog|
    && forall i :: 0 <= i < |e| ==> e[i].key == Catalog[i] && WidgetAccepts(Catalog[i], e[i].answer)
  }

  /** The catalog asks no question twice. */
  lemma CatalogDistinct()
    ensures forall i, j :: 0 <= i < j < |Catalog| ==> Catalog[i] != Catalog[j]
  {
  }

  /** Every scored question is asked by the form. */
  lemma ScoredQuestionsAsked()
    ensures forall q :: q in ScoredQuestions ==> q in Catalog
  {
  }

  /** The importer question is the only catalog question scored by the
      default rule. */
  lemma ImporterIsOnlyUnscored()
    ensures forall i :: 0 <= i < |Catalog| ==> (Catalog[i] !in ScoredQuestions <==> Catalog[i] == HasImporter)
  {
  }
}
