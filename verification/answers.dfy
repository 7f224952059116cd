/**
 The answer dictionary handed to the prospect scorer, and the two ways the
 scorer reads it: a lookup with a default (the dictionary's `get`) and a
 left-to-right accumulation of per-answer points that stops at the first
 answer whose rule raises.
 */
module Answers {

  /** A question is identified by its full label. */
  type Question = string

  /** One answer as the form produces it: a whole number (number inputs), a
      text (select boxes; the unselected option is the empty text), or the
      (description, weight) pair of the particularity question. */
  datatype Answer =
    | Num(n: int)
    | Text(s: string)
    | Pair(description: string, weight: int)

  /** The answer that the boolean-like rules look for. */
  const Yes: Answer := Text("Sim")

  /** One item of the answer dictionary. */
  datatype Entry = Entry(key: Question, answer: Answer)

  /** What evaluating one scoring rule yields: some points, or the exception
      the interpreter raises when a rule compares or unpacks an answer of the
      wrong type. */
  datatype Outcome = Points(value: int) | Raises

  /** Adds two outcomes; an exception on either side wins. */
  function Plus(x: Outcome, y: Outcome): Outcome
  {
    if x.Points? && y.Points? then Points(x.value + y.value) else Raises
  }

  /** A dictionary never holds the same key twice. */
  ghost predicate DistinctKeys(e: seq<Entry>)
  {
    forall i, j :: 0 <= i < j < |e| ==> e[i].key != e[j].key
  }

  ghost predicate KeyAbsent(e: seq<Entry>, k: Question)
  {
    forall i :: 0 <= i < |e| ==> e[i].key != k
  }

  /** The dictionary's `get(k, d)`: the answer stored under `k`, or `d` when
      there is none. */
  function Get(e: seq<Entry>, k: Question, d: Answer): (r: Answer)
    ensures KeyAbsent(e, k) ==> r == d
    ensures !KeyAbsent(e, k) ==> Entry(k, r) in e
  {
    if |e| == 0 then d
    else if e[0].key == k then e[0].answer
    else Get(e[1..], k, d)
  }

  /** In a dictionary, `get` returns the one answer stored under the key. */
  lemma GetStored(e: seq<Entry>, k: Question, v: Answer, d: Answer)
    requires DistinctKeys(e)
    requires Entry(k, v) in e
    ensures Get(e, k, d) == v
  {
    var i :| 0 <= i < |e| && e[i] == Entry(k, v);
    assert !KeyAbsent(e, k) by { assert e[i].key == k; }
    var j :| 0 <= j < |e| && e[j] == Entry(k, Get(e, k, d));
    assert i == j;
  }

  /** Replacing an item whose key is not `k` by another such item does not
      change what `get(k, d)` returns. */
  lemma {:induction false} GetUpdateOtherKey(e: seq<Entry>, j: nat, x: Entry, k: Question, d: Answer)
    requires j < |e|
    requires e[j].key != k && x.key != k
    ensures Get(e[j := x], k, d) == Get(e, k, d)
  {
    if j > 0 {
      assert e[j := x][1..] == e[1..][j - 1 := x];
      GetUpdateOtherKey(e[1..], j - 1, x, k, d);
    }
  }

  /** Two orderings of the same dictionary answer every `get` alike. */
  lemma GetPermutation(a: seq<Entry>, b: seq<Entry>, k: Question, d: Answer)
    requires DistinctKeys(a)
    requires multiset(a) == multiset(b)
    ensures Get(a, k, d) == Get(b, k, d)
  {
    forall x | x in a ensures x in b {
      assert x in multiset(a);
    }
    forall x | x in b ensures x in a {
      assert x in multiset(b);
    }
    if KeyAbsent(a, k) {
      assert KeyAbsent(b, k) by {
        forall i | 0 <= i < |b| ensures b[i].key != k {
          assert b[i] in a;
        }
      }
    } else {
      var ra := Get(a, k, d);
      assert Entry(k, ra) in b;
      assert !KeyAbsent(b, k) by {
        var i :| 0 <= i < |b| && b[i] == Entry(k, ra);
        assert b[i].key == k;
      }
      var rb := Get(b, k, d);
      assert Entry(k, rb) in a;
      GetStored(a, k, rb, d);
    }
  }

  /** Accumulates the per-item outcomes of `f` in dictionary order, as the
      scoring loop does: it starts from 0 and an exception from any item
      aborts the whole sum. */
  function Total(e: seq<Entry>, f: Entry -> Outcome): Outcome
  {
    if |e| == 0 then Points(0) else Plus(f(e[0]), Total(e[1..], f))
  }

  /** The accumulation completes exactly when no item's rule raises. */
  lemma {:induction false} TotalDefinedIff(e: seq<Entry>, f: Entry -> Outcome)
    ensures Total(e, f).Points? <==> forall i :: 0 <= i < |e| ==> f(e[i]).Points?
  {
    if |e| > 0 {
      TotalDefinedIff(e[1..], f);
      assert forall i :: 1 <= i < |e| ==> e[1..][i - 1] == e[i];
    }
  }

  /** Taking one item out of the accumulation and adding it back gives the
      same outcome. */
  lemma {:induction false} TotalRemove(e: seq<Entry>, i: nat, f: Entry -> Outcome)
    requires i < |e|
    ensures Total(e, f) == Plus(f(e[i]), Total(e[..i] + e[i + 1..], f))
  {
    if i == 0 {
      assert e[..0] + e[1..] == e[1..];
    } else {
      TotalRemove(e[1..], i - 1, f);
      assert e[1..][..i - 1] + e[1..][i..] == (e[..i] + e[i + 1..])[1..];
      assert (e[..i] + e[i + 1..])[0] == e[0];
    }
  }

  /** The accumulation does not depend on the order of the items. */
  lemma {:induction false} TotalPermutation(a: seq<Entry>, b: seq<Entry>, f: Entry -> Outcome)
    requires multiset(a) == multiset(b)
    ensures Total(a, f) == Total(b, f)
    decreases |a|
  {
    if |a| == 0 {
      assert |multiset(b)| == 0;
    } else {
      var x := a[0];
      assert x in multiset(b) by { assert x in multiset(a); }
      var i :| 0 <= i < |b| && b[i] == x;
      var rest := b[..i] + b[i + 1..];
      TotalRemove(b, i, f);
      assert b == b[..i] + [x] + b[i + 1..];
      assert multiset(b) == multiset(b[..i]) + multiset{x} + multiset(b[i + 1..]);
      assert multiset(rest) == multiset(b[..i]) + multiset(b[i + 1..]);
      assert a == [x] + a[1..];
      assert multiset(a) == multiset{x} + multiset(a[1..]);
      assert multiset(a[1..]) == multiset(a) - multiset{x};
      assert multiset(rest) == multiset(b) - multiset{x};
      TotalPermutation(a[1..], rest, f);
    }
  }
}
