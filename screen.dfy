/**
  The state of the SWOT analysis screen and the handlers that change it:
  editing a draft row, adding a row, opening and closing a row's category
  picker, picking a category, submitting the draft rows and dismissing the
  results pop-up.
 */
module Screen {
  import opened Entries
  import opened Aggregation
  import opened Results

  /** The loop of a submission: goes over the draft rows in order, appends the
      committed form of each qualifying row to a copy of the committed list and
      adds its score to a copy of the totals. */
  method CommitQualifying(rows: seq<Draft>, committed: seq<Entry>, totals: Totals, parse: string -> real)
    returns (data: seq<Entry>, sums: Totals)
    ensures data == committed + Accepted(rows, parse)
    ensures sums == Accumulate(totals, Accepted(rows, parse))
    ensures forall c: Category :: sums.Get(c) == totals.Get(c) + CategorySum(Accepted(rows, parse), c)
  {
    data, sums := committed, totals;
    ghost var done: seq<Entry> := [];
    var i := 0;
    while i < |rows|
      invariant 0 <= i <= |rows|
      invariant done == Accepted(rows[..i], parse)
      invariant data == committed + done
      invariant sums == Accumulate(totals, done)
    {
      var entry := rows[i];
      AcceptedStep(rows, i, parse);
      if Qualifies(entry) {
        var accepted := Commit(entry, parse);
        AccumulateStep(totals, done, accepted);
        data := data + [accepted];
        sums := sums.Add(accepted.category, accepted.score);
        done := done + [accepted];
      }
      i := i + 1;
    }
    assert rows[..i] == rows;
    forall c: Category
      ensures sums.Get(c) == totals.Get(c) + CategorySum(Accepted(rows, parse), c)
    {
      AccumulateByCategory(totals, Accepted(rows, parse), c);
    }
  }

  class SwotAnalysis {
    /** The rows of the input form. */
    var drafts: seq<Draft>
    /** The entries accepted so far, in submission order. */
    var committed: seq<Entry>
    /** One running sum per category. */
    var totals: Totals
    /** Whether the results pop-up is shown. */
    var resultsVisible: bool

    /** The form always has a row, and each total is the sum of the committed
        scores of its category. */
    ghost predicate Valid()
      reads this
    {
      |drafts| > 0 && Aggregates(totals, committed)
    }

    /** The screen opens with one blank row, nothing committed, all totals zero
        and the pop-up hidden. */
    constructor ()
      ensures Valid()
      ensures drafts == [Blank] && committed == [] && totals == Zero && !resultsVisible
    {
      drafts := [Blank];
      committed := [];
      totals := Zero;
      resultsVisible := false;
    }

    /** Sets one text field of one row. */
    method EditField(index: nat, field: Field, value: string)
      requires Valid() && index < |drafts|
      modifies this
      ensures Valid()
      ensures drafts == EditAt(old(drafts), index, field, value)
      ensures committed == old(committed) && totals == old(totals) && resultsVisible == old(resultsVisible)
    {
      drafts := EditAt(drafts, index, field, value);
    }

    /** Appends a blank row at the end of the form. */
    method AddRow()
      requires Valid()
      modifies this
      ensures Valid()
      ensures drafts == old(drafts) + [Blank]
      ensures committed == old(committed) && totals == old(totals) && resultsVisible == old(resultsVisible)
    {
      drafts := drafts + [Blank];
    }

    /** Opens the category picker of one row if it is closed, closes it if open. */
    method ToggleDropdown(index: nat)
      requires Valid() && index < |drafts|
      modifies this
      ensures Valid()
      ensures drafts == ToggleAt(old(drafts), index)
      ensures committed == old(committed) && totals == old(totals) && resultsVisible == old(resultsVisible)
    {
      drafts := ToggleAt(drafts, index);
    }

    /** Picking a category in a row's open picker sets the row's criteria to
        the category's label and toggles the picker, which closes it. */
    method PickCategory(index: nat, c: Category)
      requires Valid() && index < |drafts|
      modifies this
      ensures Valid()
      ensures drafts == ToggleAt(EditAt(old(drafts), index, CriteriaKey, Name(c)), index)
      ensures drafts[index].criteria == Label(c)
      ensures old(drafts[index].showDropdown) ==> !drafts[index].showDropdown
      ensures committed == old(committed) && totals == old(totals) && resultsVisible == old(resultsVisible)
    {
      EditField(index, CriteriaKey, Name(c));
      ToggleDropdown(index);
      CriteriaRoundTrip(Name(c), Label(c));
    }

    /** Commits the qualifying draft rows, in row order, after the entries
        already committed, adds each one's score to its category's total and
        shows the results; the form itself is kept as it is. */
    method Submit(parse: string -> real)
      requires Valid()
      modifies this
      ensures Valid()
      ensures committed == old(committed) + Accepted(drafts, parse)
      ensures totals == Accumulate(old(totals), Accepted(drafts, parse))
      ensures forall c: Category :: totals.Get(c) == old(totals).Get(c) + CategorySum(Accepted(drafts, parse), c)
      ensures drafts == old(drafts) && resultsVisible
    {
      var data, sums := CommitQualifying(drafts, committed, totals, parse);
      AccumulateKeepsAggregation(totals, committed, Accepted(drafts, parse));
      committed := data;
      totals := sums;
      resultsVisible := true;
    }

    /** Closing the results pop-up hides it and changes nothing else. */
    method DismissResults()
      requires Valid()
      modifies this
      ensures Valid()
      ensures !resultsVisible
      ensures drafts == old(drafts) && committed == old(committed) && totals == old(totals)
    {
      resultsVisible := false;
    }
  }


  /** Submitting the single row "Strengths", "x", "10" commits one entry
      and gives totals (10, 0, 0, 0), an overall score of 2.5 and a
      favourable verdict. */
  lemma SingleRowSubmission(parse: string -> real)
    requires parse("10") == 10.0
    ensures var entries := Accepted([Draft(Label(Strengths), "x", "10", false)], parse);
      entries == [Entry(Strengths, "x", 10.0)]
      && Accumulate(Zero, entries) == Totals(10.0, 0.0, 0.0, 0.0)
  {
    var entry := Entry(Strengths, "x", 10.0);
    AcceptedSingle(Draft(Label(Strengths), "x", "10", false), parse);
    AccumulateStep(Zero, [], entry);
    assert [] + [entry] == [entry];
  }

  /** A session checked against the handlers' contracts alone: opening row
      0's picker, picking Strengths, describing it and scoring it "10" closes
      the picker again, and submitting gives totals (10, 0, 0, 0), an overall
      score of 2.5 and a favourable verdict. */
  method SessionSingleRow(parse: string -> real)
    requires parse("10") == 10.0
  {
    var screen := new SwotAnalysis();
    screen.ToggleDropdown(0);
    assert screen.drafts == [Blank.(showDropdown := true)];
    screen.PickCategory(0, Strengths);
    assert screen.drafts == [Draft(Label(Strengths), "", "", false)];
    screen.EditField(0, DescriptionKey, "x");
    assert screen.drafts == [Draft(Label(Strengths), "x", "", false)];
    screen.EditField(0, ScoreKey, "10");
    assert screen.drafts == [Draft(Label(Strengths), "x", "10", false)];
    SingleRowSubmission(parse);
    screen.Submit(parse);
    var totals := screen.totals;
    assert totals == Totals(10.0, 0.0, 0.0, 0.0);
    assert OverallScore(totals) == 2.5 && VerdictOf(totals) == Favourable;
  }
}
