/**
  What a submission takes from the draft rows, and the sums over committed
  entries that the totals record must agree with.
 */
module Aggregation {
  import opened Entries

  /** A draft row is accepted when its `criteria` is one of the four labels and
      neither its description nor its score text is empty. */
  predicate Qualifies(e: Draft)
  {
    e.criteria.Label? && e.description != "" && e.score != ""
  }

  /** The acceptance test, stated on the row's texts. */
  lemma QualifiesOnText(e: Draft)
    ensures Qualifies(e)
        <==> CategoryOf(FieldValue(e, CriteriaKey)).Some? && e.description != "" && e.score != ""
  {
    if e.criteria.Label? {
      CategoryOfExact(Name(e.criteria.category), e.criteria.category);
    }
  }

  /** The committed form of an accepted row: the category its criteria text
      names, its description and the parse of its score text. */
  function Commit(e: Draft, parse: string -> real): (r: Entry)
    requires Qualifies(e)
    ensures CategoryOf(FieldValue(e, CriteriaKey)) == Some(r.category)
    ensures Name(r.category) == FieldValue(e, CriteriaKey)
    ensures r.description == FieldValue(e, DescriptionKey) && r.score == parse(FieldValue(e, ScoreKey))
  {
    CategoryOfExact(Name(e.criteria.category), e.criteria.category);
    Entry(e.criteria.category, e.description, parse(e.score))
  }

  /** The entries a submission commits from `rows`, in row order. */
  function Accepted(rows: seq<Draft>, parse: string -> real): (r: seq<Entry>)
    ensures |r| <= |rows|
    decreases |rows|
  {
    if rows == [] then []
    else
      var last := rows[|rows| - 1];
      var prefix := Accepted(rows[..|rows| - 1], parse);
      if Qualifies(last) then prefix + [Commit(last, parse)] else prefix
  }

  /** A form of one qualifying row commits exactly that row. */
  lemma AcceptedSingle(e: Draft, parse: string -> real)
    requires Qualifies(e)
    ensures Accepted([e], parse) == [Commit(e, parse)]
  {
    assert [e][..0] == [];
  }

  /** Going over one more row adds its committed form when it qualifies. */
  lemma AcceptedStep(rows: seq<Draft>, i: nat, parse: string -> real)
    requires i < |rows|
    ensures Accepted(rows[..i + 1], parse)
         == Accepted(rows[..i], parse) + if Qualifies(rows[i]) then [Commit(rows[i], parse)] else []
  {
    assert rows[..i + 1][..i] == rows[..i];
  }

  /** Sum of the scores of the entries of category `c`. */
  function CategorySum(entries: seq<Entry>, c: Category): real
    decreases |entries|
  {
    if entries == [] then 0.0
    else
      var last := entries[|entries| - 1];
      CategorySum(entries[..|entries| - 1], c) + (if last.category == c then last.score else 0.0)
  }

  /** Sum of the scores of all entries, whatever their category. */
  function TotalScore(entries: seq<Entry>): real
    decreases |entries|
  {
    if entries == [] then 0.0
    else TotalScore(entries[..|entries| - 1]) + entries[|entries| - 1].score
  }

  /** Scores of Strengths and Opportunities count for, those of Weaknesses and
      Threats against. */
  function Balance(entries: seq<Entry>): real
    decreases |entries|
  {
    if entries == [] then 0.0
    else
      var last := entries[|entries| - 1];
      var signed := if last.category in {Strengths, Opportunities} then last.score else -last.score;
      Balance(entries[..|entries| - 1]) + signed
  }

  /** The totals record agrees with the committed entries, category by category. */
  ghost predicate Aggregates(t: Totals, entries: seq<Entry>)
  {
    forall c: Category :: t.Get(c) == CategorySum(entries, c)
  }

  lemma {:induction false} AcceptedAppend(a: seq<Draft>, b: seq<Draft>, parse: string -> real)
    ensures Accepted(a + b, parse) == Accepted(a, parse) + Accepted(b, parse)
    decreases |b|
  {
    if b == [] {
      assert a + b == a;
    } else {
      var b' := b[..|b| - 1];
      assert (a + b)[..|a + b| - 1] == a + b';
      assert b[|b| - 1] == (a + b)[|a + b| - 1];
      AcceptedAppend(a, b', parse);
    }
  }

  /** The indices of the qualifying rows, in increasing order. */
  function QualifyingIndices(rows: seq<Draft>): (r: seq<nat>)
    ensures forall k :: 0 <= k < |r| ==> r[k] < |rows|
    ensures forall k, l :: 0 <= k < l < |r| ==> r[k] < r[l]
    decreases |rows|
  {
    if rows == [] then []
    else
      var n := |rows| - 1;
      var prefix := QualifyingIndices(rows[..n]);
      if Qualifies(rows[n]) then prefix + [n] else prefix
  }

  /** A row's index is selected exactly when the row qualifies. */
  lemma {:induction false} QualifyingIndicesExact(rows: seq<Draft>)
    ensures forall i :: 0 <= i < |rows| ==> (i in QualifyingIndices(rows) <==> Qualifies(rows[i]))
    decreases |rows|
  {
    if rows != [] {
      var n := |rows| - 1;
      QualifyingIndicesExact(rows[..n]);
      assert forall i :: 0 <= i < n ==> rows[..n][i] == rows[i];
    }
  }

  /** The accepted entries are the qualifying rows committed in row order: the
      k-th accepted entry is the commit of the k-th qualifying row. */
  lemma {:induction false} AcceptedFollowsRows(rows: seq<Draft>, parse: string -> real)
    ensures |Accepted(rows, parse)| == |QualifyingIndices(rows)|
    ensures forall k :: 0 <= k < |Accepted(rows, parse)| ==>
      var i := QualifyingIndices(rows)[k]; i < |rows| && Qualifies(rows[i]) && Accepted(rows, parse)[k] == Commit(rows[i], parse)
    decreases |rows|
  {
    if rows != [] {
      var n := |rows| - 1;
      var prefix := rows[..n];
      AcceptedFollowsRows(prefix, parse);
      var acc, acc' := Accepted(rows, parse), Accepted(prefix, parse);
      var qi, qi' := QualifyingIndices(rows), QualifyingIndices(prefix);
      if Qualifies(rows[n]) {
        assert acc == acc' + [Commit(rows[n], parse)] && qi == qi' + [n];
      } else {
        assert acc == acc' && qi == qi';
      }
      forall k | 0 <= k < |acc|
        ensures qi[k] < |rows| && Qualifies(rows[qi[k]]) && acc[k] == Commit(rows[qi[k]], parse)
      {
        if k < |acc'| {
          assert qi[k] == qi'[k] && acc[k] == acc'[k] && prefix[qi'[k]] == rows[qi'[k]];
        }
      }
    }
  }

  /** A submission commits nothing exactly when no draft row qualifies. */
  lemma {:induction false} NothingAccepted(rows: seq<Draft>, parse: string -> real)
    ensures Accepted(rows, parse) == [] <==> forall i :: 0 <= i < |rows| ==> !Qualifies(rows[i])
    decreases |rows|
  {
    if rows != [] {
      var n := |rows| - 1;
      NothingAccepted(rows[..n], parse);
      assert forall i :: 0 <= i < n ==> rows[..n][i] == rows[i];
    }
  }

  /** A row that does not qualify has no effect on what a submission commits. */
  lemma SkippedRowIgnored(rows: seq<Draft>, i: nat, parse: string -> real)
    requires i < |rows| && !Qualifies(rows[i])
    ensures Accepted(rows[..i] + rows[i + 1..], parse) == Accepted(rows, parse)
  {
    var head, tail := rows[..i + 1], rows[i + 1..];
    assert Accepted(head, parse) == Accepted(rows[..i], parse) by {
      assert head[..i] == rows[..i];
    }
    assert rows == head + tail;
    AcceptedAppend(head, tail, parse);
    AcceptedAppend(rows[..i], tail, parse);
  }

  lemma {:induction false} CategorySumAppend(a: seq<Entry>, b: seq<Entry>, c: Category)
    ensures CategorySum(a + b, c) == CategorySum(a, c) + CategorySum(b, c)
    decreases |b|
  {
    if b == [] {
      assert a + b == a;
    } else {
      var b' := b[..|b| - 1];
      assert (a + b)[..|a + b| - 1] == a + b';
      CategorySumAppend(a, b', c);
    }
  }

  /** A single entry contributes its score to its own category only. */
  lemma CategorySumSingle(e: Entry, c: Category)
    ensures CategorySum([e], c) == if e.category == c then e.score else 0.0
  {
    assert [e][..0] == [];
  }

  /** The totals record after adding each entry's score to its category's
      total, in order. */
  function Accumulate(t: Totals, entries: seq<Entry>): Totals
    decreases |entries|
  {
    if entries == [] then t
    else
      var last := entries[|entries| - 1];
      Accumulate(t, entries[..|entries| - 1]).Add(last.category, last.score)
  }

  /** Accumulating one more entry adds its score to its category's total. */
  lemma AccumulateStep(t: Totals, entries: seq<Entry>, e: Entry)
    ensures Accumulate(t, entries + [e]) == Accumulate(t, entries).Add(e.category, e.score)
  {
    assert (entries + [e])[..|entries|] == entries;
  }

  /** Accumulating entries adds to each category's total exactly the sum of
      the scores of the entries of that category. */
  lemma {:induction false} AccumulateByCategory(t: Totals, entries: seq<Entry>, c: Category)
    ensures Accumulate(t, entries).Get(c) == t.Get(c) + CategorySum(entries, c)
    decreases |entries|
  {
    if entries != [] {
      AccumulateByCategory(t, entries[..|entries| - 1], c);
    }
  }

  /** Committing `added` on top of entries that the totals agree with, and
      accumulating `added` into the totals, keeps the two in agreement. */
  lemma AccumulateKeepsAggregation(t: Totals, entries: seq<Entry>, added: seq<Entry>)
    requires Aggregates(t, entries)
    ensures Aggregates(Accumulate(t, added), entries + added)
  {
    forall c: Category
      ensures Accumulate(t, added).Get(c) == CategorySum(entries + added, c)
    {
      AccumulateByCategory(t, added, c);
      CategorySumAppend(entries, added, c);
    }
  }

  /** Submitting the same draft twice counts each accepted score twice. */
  lemma ResubmitCountsTwice(entries: seq<Entry>, rows: seq<Draft>, parse: string -> real, c: Category)
    ensures CategorySum(entries + Accepted(rows, parse) + Accepted(rows, parse), c)
         == CategorySum(entries, c) + 2.0 * CategorySum(Accepted(rows, parse), c)
  {
    var a := Accepted(rows, parse);
    CategorySumAppend(entries + a, a, c);
    CategorySumAppend(entries, a, c);
  }

  /** The balance is the Strengths and Opportunities sums less the Weaknesses
      and Threats sums. */
  lemma {:induction false} BalanceByCategory(entries: seq<Entry>)
    ensures Balance(entries)
         == CategorySum(entries, Strengths) + CategorySum(entries, Opportunities)
          - CategorySum(entries, Weaknesses) - CategorySum(entries, Threats)
    decreases |entries|
  {
    if entries != [] {
      BalanceByCategory(entries[..|entries| - 1]);
    }
  }

  /** The four category sums add up to the sum of all scores. */
  lemma {:induction false} TotalByCategory(entries: seq<Entry>)
    ensures TotalScore(entries)
         == CategorySum(entries, Strengths) + CategorySum(entries, Weaknesses)
          + CategorySum(entries, Opportunities) + CategorySum(entries, Threats)
    decreases |entries|
  {
    if entries != [] {
      TotalByCategory(entries[..|entries| - 1]);
    }
  }
}
