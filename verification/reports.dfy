/** The reporting arithmetic: the full report, the goal report and the
    date-range statistics. Amounts are exact reals. */
module Reports {
  import opened Ledger
  import opened Arguments

  /** `reduce((sum, x) => sum + x.amount, 0)`: a left fold from the first
      record to the last. */
  function Sum(es: seq<Entry>): (r: real)
    ensures |es| == 0 ==> r == 0.0
    ensures |es| == 1 ==> r == es[0].amount
  {
    if |es| == 0 then 0.0 else Sum(es[..|es| - 1]) + es[|es| - 1].amount
  }

  /** The total of two ledgers laid end to end is the sum of their totals. */
  lemma {:induction false} SumConcat(a: seq<Entry>, b: seq<Entry>)
    ensures Sum(a + b) == Sum(a) + Sum(b)
    decreases |b|
  {
    if |b| == 0 {
      assert a + b == a;
    } else {
      var b' := b[..|b| - 1];
      SumConcat(a, b');
      assert (a + b)[..|a + b| - 1] == a + b';
    }
  }

  /** A ledger of positive amounts has a non-negative total, positive when
      the ledger is not empty. */
  lemma {:induction false} SumPositive(es: seq<Entry>)
    requires AllPositive(es)
    ensures Sum(es) >= 0.0
    ensures |es| > 0 ==> Sum(es) > 0.0
    decreases |es|
  {
    if |es| > 0 {
      SumPositive(es[..|es| - 1]);
    }
  }

  /** What the `report` command shows: every expense and every income as a
      line item in recording order (from all users), then the three totals. */
  datatype FullReport = FullReport(
    expenses: seq<Entry>,
    incomes: seq<Entry>,
    totalExpenses: real,
    totalIncomes: real,
    balance: real)

  /** `report`: the totals run over every record of every user, an empty
      ledger totals zero, and the balance is income minus expenses. */
  function Report(doc: Document): (r: FullReport)
    ensures r.expenses == doc.expenses && r.incomes == doc.incomes
    ensures r.balance == r.totalIncomes - r.totalExpenses
    ensures doc.expenses == [] ==> r.totalExpenses == 0.0
    ensures doc.incomes == [] ==> r.totalIncomes == 0.0
  {
    var totalExpenses := Sum(doc.expenses);
    var totalIncomes := Sum(doc.incomes);
    FullReport(doc.expenses, doc.incomes, totalExpenses, totalIncomes, totalIncomes - totalExpenses)
  }

  function Total(r: FullReport, book: Book): real {
    match book
    case Expenses => r.totalExpenses
    case Incomes => r.totalIncomes
  }

  /** Recording a record, by any user, raises that ledger's total by exactly
      its amount and leaves the other total alone; so an expense lowers the
      balance by its amount and an income raises it. */
  lemma ReportAfterRecord(doc: Document, book: Book, e: Entry)
    ensures Total(Report(Record(doc, book, e)), book) == Total(Report(doc), book) + e.amount
    ensures Total(Report(Record(doc, book, e)), book.Other()) == Total(Report(doc), book.Other())
    ensures Report(Record(doc, book, e)).balance
            == Report(doc).balance + (if book == Incomes then e.amount else -e.amount)
  {
    var es := Entries(doc, book);
    assert (es + [e])[..|es|] == es;
  }

  /** With only positive amounts on record, both totals are non-negative. */
  lemma ReportOfValid(doc: Document)
    requires Valid(doc)
    ensures Report(doc).totalExpenses >= 0.0 && Report(doc).totalIncomes >= 0.0
  {
    SumPositive(doc.expenses);
    SumPositive(doc.incomes);
  }

  /** What the `goalreport` command shows. */
  datatype GoalProgress = GoalProgress(totalSaved: real, goalAmount: real, progress: real)

  /** `goalreport`: the amount saved is the gross income total (expenses are
      not subtracted), the goal is the first stored goal or 0 without one,
      and progress is the saved amount as a percentage of a goal above zero,
      0 otherwise. */
  function GoalReport(doc: Document): (r: GoalProgress)
    ensures r.totalSaved == Report(doc).totalIncomes
    ensures |doc.savingGoals| == 0 ==> r.goalAmount == 0.0
    ensures |doc.savingGoals| > 0 ==> r.goalAmount == doc.savingGoals[0].amount
    ensures r.goalAmount <= 0.0 ==> r.progress == 0.0
    ensures r.goalAmount > 0.0 ==> r.progress * r.goalAmount == 100.0 * r.totalSaved
  {
    var totalSaved := Sum(doc.incomes);
    var goalAmount := if |doc.savingGoals| > 0 then doc.savingGoals[0].amount else 0.0;
    var progress := if goalAmount > 0.0 then totalSaved / goalAmount * 100.0 else 0.0;
    GoalProgress(totalSaved, goalAmount, progress)
  }

  /** Expenses never affect the goal report. */
  lemma GoalReportIgnoresExpenses(doc: Document, e: Entry)
    ensures GoalReport(Record(doc, Expenses, e)) == GoalReport(doc)
  {
  }

  /** With positive incomes and a positive goal, progress is non-negative. */
  lemma GoalProgressOfValid(doc: Document)
    requires Valid(doc)
    ensures GoalReport(doc).progress >= 0.0
  {
    SumPositive(doc.incomes);
  }

  /** Incomes of 10 and 20 against an expense of 5 leave a balance of 25. */
  lemma BalanceExample(doc: Document)
    requires |doc.incomes| == 2 && doc.incomes[0].amount == 10.0 && doc.incomes[1].amount == 20.0
    requires |doc.expenses| == 1 && doc.expenses[0].amount == 5.0
    ensures Report(doc).balance == 25.0
  {
    assert doc.incomes[..1][..0] == [];
    assert Sum(doc.incomes[..1]) == 10.0;
    assert doc.expenses[..0] == [];
    assert Sum(doc.expenses) == 5.0;
  }

  /** Incomes totalling 40 against a goal of 100 are 40 percent progress. */
  lemma GoalProgressExample(doc: Document)
    requires Sum(doc.incomes) == 40.0 && doc.savingGoals == [Goal(100.0)]
    ensures GoalReport(doc).progress == 40.0
  {
  }

  /** The date test of `calculateStatistics`: inclusive at both ends. */
  predicate InRange(e: Entry, range: Range)
    ensures InRange(e, range) ==> range.start <= range.end
    ensures e.date == range.start || e.date == range.end ==> (InRange(e, range) <==> range.start <= range.end)
  {
    range.start <= e.date <= range.end
  }

  /** `Array.prototype.filter` with the date test: every kept record is in
      range. */
  function Filter(es: seq<Entry>, range: Range): (r: seq<Entry>)
    ensures |r| <= |es|
    ensures forall i :: 0 <= i < |r| ==> InRange(r[i], range)
  {
    if |es| == 0 then []
    else
      var init := es[..|es| - 1];
      var last := es[|es| - 1];
      assert es == init + [last];
      Filter(init, range) + (if InRange(last, range) then [last] else [])
  }

  /** Each record occurs in the filtered ledger exactly as often as in the
      original if it is in range, and not at all otherwise. */
  lemma {:induction false} FilterCounts(es: seq<Entry>, range: Range, x: Entry)
    ensures multiset(Filter(es, range))[x] == if InRange(x, range) then multiset(es)[x] else 0
    decreases |es|
  {
    if |es| > 0 {
      var init := es[..|es| - 1];
      var last := es[|es| - 1];
      var tail := if InRange(last, range) then [last] else [];
      FilterCounts(init, range, x);
      assert es == init + [last];
      assert multiset(es) == multiset(init) + multiset([last]);
      assert multiset(Filter(es, range)) == multiset(Filter(init, range)) + multiset(tail);
    }
  }

  /** The positions of the in-range records, in increasing order. */
  function Positions(es: seq<Entry>, range: Range): (idx: seq<int>)
    ensures forall k :: 0 <= k < |idx| ==> 0 <= idx[k] < |es| && InRange(es[idx[k]], range)
    ensures forall k, l :: 0 <= k < l < |idx| ==> idx[k] < idx[l]
    ensures forall i :: 0 <= i < |es| && InRange(es[i], range) ==> i in idx
  {
    if |es| == 0 then []
    else
      var init := es[..|es| - 1];
      Positions(init, range) + (if InRange(es[|es| - 1], range) then [|es| - 1] else [])
  }

  /** The filtered ledger is an order-preserving subsequence of the original:
      it is the original's records at exactly the in-range positions, taken
      in increasing position order. */
  lemma {:induction false} FilterIsSubsequence(es: seq<Entry>, range: Range)
    ensures |Filter(es, range)| == |Positions(es, range)|
    ensures forall k :: 0 <= k < |Filter(es, range)| ==> Filter(es, range)[k] == es[Positions(es, range)[k]]
    decreases |es|
  {
    if |es| > 0 {
      var init := es[..|es| - 1];
      FilterIsSubsequence(init, range);
      var f := Filter(init, range);
      var p := Positions(init, range);
      forall k | 0 <= k < |f|
        ensures f[k] == es[p[k]]
      {
        assert f[k] == init[p[k]];
      }
    }
  }

  /** Filtering commutes with laying ledgers end to end. */
  lemma {:induction false} FilterConcat(a: seq<Entry>, b: seq<Entry>, range: Range)
    ensures Filter(a + b, range) == Filter(a, range) + Filter(b, range)
    decreases |b|
  {
    if |b| == 0 {
      assert a + b == a;
    } else {
      var ab := a + b;
      var b' := b[..|b| - 1];
      var last := b[|b| - 1];
      var tail := if InRange(last, range) then [last] else [];
      FilterConcat(a, b', range);
      assert ab[..|ab| - 1] == a + b';
      assert ab[|ab| - 1] == last;
      assert Filter(ab, range) == Filter(a + b', range) + tail;
      assert Filter(b, range) == Filter(b', range) + tail;
      assert Filter(a, range) + Filter(b', range) + tail == Filter(a, range) + (Filter(b', range) + tail);
    }
  }

  /** When every record falls in the range nothing is filtered out. */
  lemma {:induction false} FilterAll(es: seq<Entry>, range: Range)
    requires forall i :: 0 <= i < |es| ==> InRange(es[i], range)
    ensures Filter(es, range) == es
    decreases |es|
  {
    if |es| > 0 {
      FilterAll(es[..|es| - 1], range);
      assert es == es[..|es| - 1] + [es[|es| - 1]];
    }
  }

  /** When no record falls in the range everything is filtered out. */
  lemma {:induction false} FilterNone(es: seq<Entry>, range: Range)
    requires forall i :: 0 <= i < |es| ==> !InRange(es[i], range)
    ensures Filter(es, range) == []
    decreases |es|
  {
    if |es| > 0 {
      FilterNone(es[..|es| - 1], range);
    }
  }

  /** Over positive amounts, the total of a filtered ledger never exceeds the
      total of the whole ledger. */
  lemma {:induction false} SumFilterBound(es: seq<Entry>, range: Range)
    requires AllPositive(es)
    ensures 0.0 <= Sum(Filter(es, range)) <= Sum(es)
    decreases |es|
  {
    if |es| > 0 {
      var init := es[..|es| - 1];
      var last := es[|es| - 1];
      SumFilterBound(init, range);
      var tail := if InRange(last, range) then [last] else [];
      SumConcat(Filter(init, range), tail);
      if InRange(last, range) {
        assert tail[..0] == [];
      }
    }
  }

  /** What `calculateStatistics` returns. */
  datatype Statistics = Statistics(
    filteredExpenses: seq<Entry>,
    filteredIncomes: seq<Entry>,
    totalExpenses: real,
    totalIncomes: real)

  /** `calculateStatistics`: the records of each ledger dated within the
      closed range, and the totals of exactly those records. */
  function CalculateStatistics(doc: Document, range: Range): (r: Statistics)
    ensures r.totalExpenses == Sum(r.filteredExpenses) && r.totalIncomes == Sum(r.filteredIncomes)
    ensures r.filteredExpenses == Filter(doc.expenses, range)
    ensures r.filteredIncomes == Filter(doc.incomes, range)
  {
    var filteredExpenses := Filter(doc.expenses, range);
    var filteredIncomes := Filter(doc.incomes, range);
    Statistics(filteredExpenses, filteredIncomes, Sum(filteredExpenses), Sum(filteredIncomes))
  }

  /** Over a valid document the range totals are bounded by the full totals. */
  lemma StatisticsWithinReport(doc: Document, range: Range)
    requires Valid(doc)
    ensures 0.0 <= CalculateStatistics(doc, range).totalExpenses <= Report(doc).totalExpenses
    ensures 0.0 <= CalculateStatistics(doc, range).totalIncomes <= Report(doc).totalIncomes
  {
    SumFilterBound(doc.expenses, range);
    SumFilterBound(doc.incomes, range);
  }

  /** A range covering every record reproduces the full report's totals. */
  lemma StatisticsCoverAll(doc: Document, range: Range)
    requires forall i :: 0 <= i < |doc.expenses| ==> InRange(doc.expenses[i], range)
    requires forall i :: 0 <= i < |doc.incomes| ==> InRange(doc.incomes[i], range)
    ensures CalculateStatistics(doc, range).totalExpenses == Report(doc).totalExpenses
    ensures CalculateStatistics(doc, range).totalIncomes == Report(doc).totalIncomes
  {
    FilterAll(doc.expenses, range);
    FilterAll(doc.incomes, range);
  }

  /** An end before the start (the end day before the start day) matches
      nothing, so both totals are zero. */
  lemma StatisticsReversed(doc: Document, range: Range)
    requires range.end < range.start
    ensures CalculateStatistics(doc, range).filteredExpenses == []
    ensures CalculateStatistics(doc, range).filteredIncomes == []
    ensures CalculateStatistics(doc, range).totalExpenses == 0.0
    ensures CalculateStatistics(doc, range).totalIncomes == 0.0
  {
    FilterNone(doc.expenses, range);
    FilterNone(doc.incomes, range);
  }

  /** Recording a record changes the range statistics of its ledger by its
      amount exactly when its date lies in the range. */
  lemma StatisticsAfterRecord(doc: Document, book: Book, e: Entry, range: Range)
    ensures var before := CalculateStatistics(doc, range);
      var after := CalculateStatistics(Record(doc, book, e), range);
      var delta := if InRange(e, range) then e.amount else 0.0;
      && (book == Expenses ==>
            after.totalExpenses == before.totalExpenses + delta && after.totalIncomes == before.totalIncomes)
      && (book == Incomes ==>
            after.totalIncomes == before.totalIncomes + delta && after.totalExpenses == before.totalExpenses)
  {
    var es := Entries(doc, book);
    FilterConcat(es, [e], range);
    assert Filter([e], range) == (if InRange(e, range) then [e] else []) by {
      assert [e][..0] == [];
    }
    SumConcat(Filter(es, range), Filter([e], range));
    if InRange(e, range) {
      assert [e][..0] == [];
    }
  }
}
