/**
 What the scorer promises about every answer dictionary: when it raises,
 that the order of the answers does not matter, which answers each item's
 points depend on, and how the three rules with a sibling answer score.
 */
module ScoreProperties {
  import opened Answers
  import opened Questions
  import opened Scoring

  /** The store tier is one of 0, 2, 4, 5 and never falls as the count grows. */
  lemma StoreTierShape(m: int, n: int)
    ensures StoreTier(Num(n)).value in {0, 2, 4, 5}
    ensures m <= n ==> StoreTier(Num(m)).value <= StoreTier(Num(n)).value
  {
  }

  /** The machine tier is one of 0, 1, 3, 4, 5, never falls as the count grows
      up to 100, and drops to 0 past 100. */
  lemma MachineTierShape(m: int, n: int)
    ensures MachineTier(Num(n)).value in {0, 1, 3, 4, 5}
    ensures m <= n <= 100 ==> MachineTier(Num(m)).value <= MachineTier(Num(n)).value
    ensures n > 100 ==> MachineTier(Num(n)).value == 0
  {
  }

  /** A key without a rule of its own ignores the siblings and earns the
      default weight exactly for a positive number or "Sim". */
  lemma UnscoredQuestionUsesDefault(k: Question, a: Answer, s1: Siblings, s2: Siblings, w: int)
    requires k !in ScoredQuestions
    ensures Contribution(k, a, s1, w) == Contribution(k, a, s2, w)
    ensures (a.Num? && a.n > 0) || a == Yes ==> Contribution(k, a, s1, w) == Points(w)
    ensures !(a.Num? && a.n > 0) && a != Yes ==> Contribution(k, a, s1, w) == Points(0)
  {
  }

  /** The importer question of the catalog is scored by the default rule. */
  lemma ImporterScoredByDefault(a: Answer, sib: Siblings, w: int)
    ensures a == Yes ==> Contribution(HasImporter, a, sib, w) == Points(w)
    ensures a != Yes && !a.Num? ==> Contribution(HasImporter, a, sib, w) == Points(0)
  {
    ImporterIsOnlyUnscored();
    assert Catalog[9] == HasImporter;
  }

  /** With a numeric store count, a rule raises exactly on an answer of the
      wrong type; and an answer of the wrong type raises whatever the
      siblings are. */
  lemma ContributionDefined(k: Question, a: Answer, sib: Siblings, w: int)
    ensures sib.stores.Num? ==> (Contribution(k, a, sib, w).Points? <==> Typed(Entry(k, a)))
    ensures !Typed(Entry(k, a)) ==> Contribution(k, a, sib, w).Raises?
  {
  }

  /** The store count the rules read is a number whenever the dictionary is
      well typed. */
  lemma WellTypedStores(e: seq<Entry>)
    requires WellTyped(e)
    ensures SiblingsOf(e).stores.Num?
  {
    var st := Get(e, Stores, Num(0));
    if !KeyAbsent(e, Stores) {
      var i :| 0 <= i < |e| && e[i] == Entry(Stores, st);
      assert Typed(e[i]);
    }
  }

  /** Scoring raises exactly when some answer has a type its rule cannot
      handle: a non-number store or machine count, or a particularity answer
      that is not a pair. */
  lemma ScoreDefinedIffWellTyped(e: seq<Entry>, w: int)
    ensures Score(e, w).Points? <==> WellTyped(e)
  {
    var sib := SiblingsOf(e);
    var f := Rules(sib, w);
    TotalDefinedIff(e, f);
    if WellTyped(e) {
      WellTypedStores(e);
      forall i | 0 <= i < |e| ensures f(e[i]).Points? {
        ContributionDefined(e[i].key, e[i].answer, sib, w);
        assert Typed(e[i]);
      }
    } else {
      var i :| 0 <= i < |e| && !Typed(e[i]);
      ContributionDefined(e[i].key, e[i].answer, sib, w);
      assert !f(e[i]).Points?;
    }
  }

  /** Listing the same dictionary in another order gives the same score:
      the siblings read are the same and the sum does not depend on order. */
  lemma ScorePermutation(a: seq<Entry>, b: seq<Entry>, w: int)
    requires DistinctKeys(a)
    requires multiset(a) == multiset(b)
    ensures Score(a, w) == Score(b, w)
  {
    GetPermutation(a, b, Stores, Num(0));
    GetPermutation(a, b, OutOfStateSales, Text("Não"));
    assert SiblingsOf(a) == SiblingsOf(b);
    TotalPermutation(a, b, Rules(SiblingsOf(a), w));
  }

  /** Changing the answer of item `j` keeps the points of every other item
      `i`, unless `j` is the store count and `i` is replication or banks, or
      `j` is the out-of-state sales and `i` is e-commerce. */
  lemma OtherEntryUnchanged(e: seq<Entry>, j: nat, v: Answer, i: nat, w: int)
    requires i < |e| && j < |e| && i != j
    requires e[j].key == Stores ==> e[i].key != Replication && e[i].key != Banks
    requires e[j].key == OutOfStateSales ==> e[i].key != ECommerce
    ensures EntryPoints(e[j := Entry(e[j].key, v)], i, w) == EntryPoints(e, i, w)
  {
    var e' := e[j := Entry(e[j].key, v)];
    var x := Entry(e[j].key, v);
    assert e'[i] == e[i];
    if e[j].key != Stores {
      GetUpdateOtherKey(e, j, x, Stores, Num(0));
    }
    if e[j].key != OutOfStateSales {
      GetUpdateOtherKey(e, j, x, OutOfStateSales, Text("Não"));
    }
  }

  /** Changing the answer of item `j`, when it is neither the store count nor
      the out-of-state sales, changes the score by that item's own points
      only: the rest of the sum is the same before and after. */
  lemma ScoreLocality(e: seq<Entry>, j: nat, v: Answer, w: int)
    requires j < |e|
    requires e[j].key != Stores && e[j].key != OutOfStateSales
    ensures var sib := SiblingsOf(e);
            var rest := Total(e[..j] + e[j + 1..], Rules(sib, w));
            && Score(e, w) == Plus(Contribution(e[j].key, e[j].answer, sib, w), rest)
            && Score(e[j := Entry(e[j].key, v)], w) == Plus(Contribution(e[j].key, v, sib, w), rest)
  {
    var x := Entry(e[j].key, v);
    var e' := e[j := x];
    GetUpdateOtherKey(e, j, x, Stores, Num(0));
    GetUpdateOtherKey(e, j, x, OutOfStateSales, Text("Não"));
    assert SiblingsOf(e') == SiblingsOf(e);
    var f := Rules(SiblingsOf(e), w);
    TotalRemove(e, j, f);
    TotalRemove(e', j, f);
    assert e'[..j] + e'[j + 1..] == e[..j] + e[j + 1..];
  }

  /** Replication reads the store count: "Sim" scores 3 with at most two
      stores (an absent count reads as 0) and 4 with more; any other answer
      scores 1. */
  lemma ReplicationReadsStores(e: seq<Entry>, i: nat, n: int, w: int)
    requires i < |e| && e[i].key == Replication
    requires DistinctKeys(e)
    requires Entry(Stores, Num(n)) in e || (KeyAbsent(e, Stores) && n == 0)
    ensures e[i].answer == Yes ==> EntryPoints(e, i, w) == Points(if n <= 2 then 3 else 4)
    ensures e[i].answer != Yes ==> EntryPoints(e, i, w) == Points(1)
  {
    if Entry(Stores, Num(n)) in e {
      GetStored(e, Stores, Num(n), Num(0));
    }
  }

  /** Banks reads the store count: "Sim" scores 4; any other answer scores 3
      with more than one store and 1 otherwise (an absent count reads as 0). */
  lemma BanksReadStores(e: seq<Entry>, i: nat, n: int, w: int)
    requires i < |e| && e[i].key == Banks
    requires DistinctKeys(e)
    requires Entry(Stores, Num(n)) in e || (KeyAbsent(e, Stores) && n == 0)
    ensures e[i].answer == Yes ==> EntryPoints(e, i, w) == Points(4)
    ensures e[i].answer != Yes ==> EntryPoints(e, i, w) == Points(if n > 1 then 3 else 1)
  {
    if Entry(Stores, Num(n)) in e {
      GetStored(e, Stores, Num(n), Num(0));
    }
  }

  /** E-commerce reads the out-of-state sales answer: "Sim" scores 5 when
      that answer is "Sim" and 3 when it is anything else or absent; any other
      e-commerce answer scores 1. */
  lemma ECommerceReadsOutOfStateSales(e: seq<Entry>, i: nat, w: int)
    requires i < |e| && e[i].key == ECommerce
    requires DistinctKeys(e)
    ensures e[i].answer == Yes && Entry(OutOfStateSales, Yes) in e ==> EntryPoints(e, i, w) == Points(5)
    ensures e[i].answer == Yes && Entry(OutOfStateSales, Yes) !in e ==> EntryPoints(e, i, w) == Points(3)
    ensures e[i].answer != Yes ==> EntryPoints(e, i, w) == Points(1)
  {
    if Entry(OutOfStateSales, Yes) in e {
      GetStored(e, OutOfStateSales, Yes, Text("Não"));
    } else if !KeyAbsent(e, OutOfStateSales) {
      assert Entry(OutOfStateSales, Get(e, OutOfStateSales, Text("Não"))) in e;
    }
  }
}
