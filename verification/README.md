# Prospect scoring model

A Dafny model of the rule engine behind a commercial prospect questionnaire
(`avaliacao_clientes.py`). A prospective pharmacy client answers fifteen
questions about its stores, machines, tax regime, sales, current system and
so on. `calcular_pontuacao` folds the answer dictionary into an integer score,
and `exibir_resultado` derives three more figures from it:

- the threshold rank S/A/B/C/D shown on screen;
- the adjusted score, which adds the weights found in pair answers;
- the "final classification". This is the rank whose value (D = 1 … S = 5) is
  nearest to the score, and it is the rank written to the spreadsheet export.

Modules, one per part of the program:

- `Answers` (`answers.dfy`) holds the answer dictionary. Items are kept in
  dictionary order as a `seq<Entry>`. An answer is `Num`, `Text` or `Pair`.
  The module also models the dictionary's `get` with a default, and the
  left-to-right accumulation of points (`Total`). An `Outcome` is either
  `Points(n)` or `Raises`.
- `Questions` (`questions.dfy`) holds the question catalog in form order, the
  options of every select box, and which answers each widget can produce
  (`FormShaped`).
- `Scoring` (`scoring.dfy`) holds one rule per question, the default-weight
  fallback, the two sibling reads, and `Score`.
- `ScoreProperties` (`score_properties.dfy`) proves facts about the scorer:
  when it raises, that answer order does not matter, which answers each
  item's points depend on, and the three rules that read a sibling answer.
- `Ranking` (`ranking.dfy`) holds the threshold rank, the proximity rank and
  the adjusted score. The proximity rank is computed the way Python's `min`
  does it and is proved equal to a closed form.
- `Assessment` (`assessment.dfy`) is one evaluation: the score plus the three
  derived figures.
- `FormBounds` (`form_bounds.dfy`) gives the range of scores a submitted form
  can reach.

When the scorer raises: the Python code compares or unpacks some answers
without checking their type. Instead of ruling such answers out with a
precondition, the model makes them an outcome (`Raises`). The cases are:

- a store or machine count that is not a number;
- a particularity answer that is not a pair;
- a store count that is not a number, read by the replication or bank rule.

`ScoreDefinedIffWellTyped` proves that these are exactly the answer sets on
which scoring raises.

What the form's widgets imply: a submitted form always scores between 7 and
66, and both ends are reached. So its final classification, the nearest of
the values 1 to 5, is always S (`FormFinalRankIsS`). The form also holds one
pair answer, the particularity, so the adjusted score counts that weight twice
(`FormAdjustedScore`).

The scorer walks the dictionary's items in insertion order, not the question
catalog. `ScorePermutation` shows that the order makes no difference to the
score.

## Model

| member | source | states |
|---|---|---|
| Answers.Get | avaliacao_clientes.py:103 | `get(k, d)` returns `d` when the key is absent; otherwise it returns an answer stored under that key |
| Answers.GetStored | avaliacao_clientes.py:136 | in a dictionary (distinct keys), `get` returns the one answer stored under the key |
| Answers.GetPermutation | avaliacao_clientes.py:103 | two orderings of the same dictionary answer every `get` alike |
| Answers.GetUpdateOtherKey | avaliacao_clientes.py:136 | replacing an item under another key does not change what `get` returns |
| Answers.Total | avaliacao_clientes.py:105-187 | no contract of its own; see TotalDefinedIff, TotalRemove and TotalPermutation |
| Answers.TotalDefinedIff | avaliacao_clientes.py:105-187 | the scoring loop completes exactly when no item's rule raises |
| Answers.TotalRemove | avaliacao_clientes.py:105-187 | the loop's sum equals one item's points plus the sum over the other items |
| Answers.TotalPermutation | avaliacao_clientes.py:105-187 | the loop's sum does not depend on the order of the items |
| Questions.CatalogDistinct | avaliacao_clientes.py:243-259 | the catalog asks no question twice |
| Questions.ScoredQuestionsAsked | avaliacao_clientes.py:243-259 | every question with its own scoring rule is in the catalog |
| Questions.ImporterIsOnlyUnscored | avaliacao_clientes.py:253 | the importer question is the only catalog question without a rule of its own |
| Scoring.StoreTier | avaliacao_clientes.py:106-112 | a numeric store count scores 2 per threshold reached at 1 and at 2, plus 1 at 6; a non-number raises |
| Scoring.MachineTier | avaliacao_clientes.py:113-121 | up to 100 machines score 1, 2, 1 and 1 more at the thresholds 1, 4, 8 and 17; more than 100 score 0; a non-number raises |
| Scoring.Contribution | avaliacao_clientes.py:181-185 | a key without its own rule is scored by the default-weight rule |
| Scoring.ReplicationRule | avaliacao_clientes.py:124-128 | no contract of its own; see ReplicationReadsStores and ContributionDefined |
| Scoring.ECommerceRule | avaliacao_clientes.py:135-140 | no contract of its own; see ECommerceReadsOutOfStateSales |
| Scoring.BanksRule | avaliacao_clientes.py:154-160 | no contract of its own; see BanksReadStores and ContributionDefined |
| Scoring.ParticularityRule | avaliacao_clientes.py:163-165 | no contract of its own; see ContributionDefined and ScoreDefinedIffWellTyped |
| Scoring.DefaultRule | avaliacao_clientes.py:181-185 | no contract of its own; see UnscoredQuestionUsesDefault and ImporterScoredByDefault |
| Scoring.SiblingsOf | avaliacao_clientes.py:103 | no contract of its own; see WellTypedStores, ReplicationReadsStores, BanksReadStores and ECommerceReadsOutOfStateSales |
| Scoring.Score | avaliacao_clientes.py:100-105 | an empty answer set scores 0 |
| ScoreProperties.StoreTierShape | avaliacao_clientes.py:106-112 | the store tier is in {0, 2, 4, 5} and never decreases as the count grows |
| ScoreProperties.MachineTierShape | avaliacao_clientes.py:113-121 | the machine tier is in {0, 1, 3, 4, 5}, never decreases up to 100, and is 0 above 100 |
| ScoreProperties.UnscoredQuestionUsesDefault | avaliacao_clientes.py:181-185 | a key without its own rule ignores the siblings; it earns the default weight for a positive number or "Sim" and 0 otherwise |
| ScoreProperties.ImporterScoredByDefault | avaliacao_clientes.py:253 | the importer question earns the default weight for "Sim" and 0 for any other text or pair |
| ScoreProperties.ContributionDefined | avaliacao_clientes.py:106-165 | when the store count is a number, a rule raises exactly on a wrongly typed answer; a wrongly typed answer raises whatever the siblings are |
| ScoreProperties.WellTypedStores | avaliacao_clientes.py:103 | in a well-typed answer set, the store count the rules read is a number, absent counting as 0 |
| ScoreProperties.ScoreDefinedIffWellTyped | avaliacao_clientes.py:100-187 | scoring raises exactly when a store or machine count is not a number, or the particularity is not a pair |
| ScoreProperties.ScorePermutation | avaliacao_clientes.py:100-187 | the same dictionary listed in another order gets the same score |
| ScoreProperties.OtherEntryUnchanged | avaliacao_clientes.py:103-187 | changing one answer leaves every other item's points unchanged, except that a store change reaches replication and banks and an out-of-state sales change reaches e-commerce |
| ScoreProperties.ScoreLocality | avaliacao_clientes.py:105-187 | changing an answer that no rule reads as a sibling changes the score by that item's own points only |
| ScoreProperties.ReplicationReadsStores | avaliacao_clientes.py:124-128 | replication "Sim" scores 3 with at most 2 stores (absent counts as 0) and 4 otherwise; any other answer scores 1 |
| ScoreProperties.BanksReadStores | avaliacao_clientes.py:154-160 | banks "Sim" scores 4; any other answer scores 3 with more than 1 store and 1 otherwise |
| ScoreProperties.ECommerceReadsOutOfStateSales | avaliacao_clientes.py:135-140 | e-commerce "Sim" scores 5 when out-of-state sales is "Sim" and 3 when it is absent or anything else; any other answer scores 1 |
| Ranking.ThresholdRank | avaliacao_clientes.py:194-208 | the rank's value is 1 plus the number of full tens in the score, capped between 0 and 4 |
| Ranking.ThresholdRankMonotone | avaliacao_clientes.py:194-208 | a higher score never gets a lower threshold rank |
| Ranking.ThresholdBoundaries | avaliacao_clientes.py:194-208 | 40 gets S and 39 gets A; likewise at 30, 20 and 10 |
| Ranking.NearestRank | avaliacao_clientes.py:217-219 | the nearest rank's value is the score clamped to 1..5 |
| Ranking.NearestRankIsFirstNearest | avaliacao_clientes.py:217-219 | the nearest rank is the first entry of the D, C, B, A, S table at minimal distance, and no other entry is |
| Ranking.ProximityRank | avaliacao_clientes.py:217-219 | scanning the table as `min` does returns the nearest rank, and no rank is strictly nearer |
| Ranking.NearestRankMonotone | avaliacao_clientes.py:217-219 | a higher score never gets a lower final classification |
| Ranking.PairWeights | avaliacao_clientes.py:211 | no contract of its own; see SinglePairWeight and NoPairWeight |
| Ranking.SinglePairWeight | avaliacao_clientes.py:211 | when exactly one answer is a pair, the sum of pair weights is that pair's weight |
| Ranking.NoPairWeight | avaliacao_clientes.py:211 | with no pair answer, the sum of pair weights is 0 |
| Ranking.AdjustedScore | avaliacao_clientes.py:211-212 | no contract of its own; see AdjustedScoreSinglePair and FormAdjustedScore |
| Ranking.AdjustedScoreSinglePair | avaliacao_clientes.py:211-212 | when exactly one answer is a pair, the adjusted score is the score plus that pair's weight |
| Assessment.Assess | avaliacao_clientes.py:194-225 | raises exactly on wrongly typed answers; otherwise the report holds the score, its threshold rank, the adjusted score, and the nearest rank that the export writes |
| Questions.WidgetAccepts | avaliacao_clientes.py:265-283 | no contract of its own; see QuestionRange, QuestionExtremes and FormScoreBounds |
| FormBounds.QuestionRange | avaliacao_clientes.py:263-284 | every answer a widget can produce earns between that question's least and most points |
| FormBounds.FormScoreBounds | avaliacao_clientes.py:263-289 | a submitted form never raises and scores between 7 and 66 |
| FormBounds.QuestionExtremes | avaliacao_clientes.py:263-284 | each question's least and most points are reached by a widget answer |
| FormBounds.LowestFormScore | avaliacao_clientes.py:263-289 | some submitted form scores exactly 7 |
| FormBounds.HighestFormScore | avaliacao_clientes.py:263-289 | some submitted form scores exactly 66 |
| FormBounds.FormFinalRankIsS | avaliacao_clientes.py:217-219 | every submitted form's final classification, the exported one, is S |
| FormBounds.FormAdjustedScore | avaliacao_clientes.py:211-212 | for a submitted form, the particularity weight counts in the score and again in the adjusted score |

## Left out

- Page styling (`configurar_estilo`) is CSS injection and has no logic.
- Streamlit widgets and display calls are not modelled. The form is
  represented only by the answers its widgets can produce (`FormShaped`).
- The pandas table and the xlsxwriter export are foreign libraries and I/O.
  Only the choice of which rank the export records is modelled.
- Numbers are modelled as Python `int` only. The `float` branch of the
  default rule is not modelled, and neither are booleans, which Python treats
  as the integers 0 and 1.
- The model does not distinguish which exception is raised (`TypeError` or
  `ValueError`), nor at which item the loop stops. It records only that
  scoring raises.
- The text inside the particularity pair is carried but never scored. The
  adjusted score's check that a pair's second part is an `int` always holds,
  because a `Pair` weight is an integer.
- The default weight `peso_padrao` is a parameter of `Score`. Only the form's
  value, 10, is used by `Assessment` and `FormBounds`.
- Each sibling-rule lemma assumes distinct keys where the sibling is looked up
  by key: `ReplicationReadsStores`, `BanksReadStores` and
  `ECommerceReadsOutOfStateSales`. A Python dictionary always has distinct
  keys.
- Scoring.Score: its own contract states only that an empty dictionary
  scores 0. What it computes for other dictionaries is stated by
  `ScoreDefinedIffWellTyped`, `ScorePermutation`, `OtherEntryUnchanged` and
  `ScoreLocality`, which live in a later module.
