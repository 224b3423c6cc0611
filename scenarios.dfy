/** Worked examples of the dashboard's behaviour on a small dataset. */
module Scenarios {
  import opened Wrappers
  import opened Records
  import opened Filters
  import opened DailyTotals

  function SampleTransactions(): seq<Transaction>
  {
    [ Transaction(10, 1, "2024-01-01", 50.0),
      Transaction(11, 1, "2024-01-01", 20.0),
      Transaction(12, 1, "2024-01-02", 5.0) ]
  }

  /** Two transactions of one day are added up into one bar; the next day gets its own. */
  lemma SampleDailyTotals()
    ensures DailyTotalsOf(ByCustomer(SampleTransactions(), Some(1))) ==
            [DailyTotal("2024-01-01", 70.0), DailyTotal("2024-01-02", 5.0)]
  {
    SingleCustomerKeepsAll(SampleTransactions(), 1);
    SampleGrouping();
  }

  lemma SampleGrouping()
    ensures DailyTotalsOf(SampleTransactions()) ==
            [DailyTotal("2024-01-01", 70.0), DailyTotal("2024-01-02", 5.0)]
  {
    var ts := SampleTransactions();
    assert ts[..2][..1] == ts[..1];
    assert ts[..2] == ts[..1] + [ts[1]];
    assert ts[..1][..0] == [];
    assert Dates(ts[..1]) == ["2024-01-01"];
    assert Dates(ts[..2]) == ["2024-01-01"];
    assert Dates(ts) == ["2024-01-01", "2024-01-02"];
    assert DateTotal(ts[..1], "2024-01-01") == 50.0;
    assert DateTotal(ts[..2], "2024-01-01") == 70.0;
    assert DateTotal(ts[..1], "2024-01-02") == 0.0;
    assert DateTotal(ts[..2], "2024-01-02") == 0.0;
  }

  /** A threshold of 30 keeps only the transaction of amount 50. */
  lemma SampleAmountFilter()
    ensures ByMinAmount(SampleTransactions(), Some(30.0)) == [SampleTransactions()[0]]
  {
    var ts := SampleTransactions();
    assert ts[1..][1..] == [ts[2]];
  }

  /** Dates are compared as exact strings: a trailing space makes a second bar. */
  lemma DatesAreExactStrings()
    ensures |Dates([Transaction(1, 1, "2024-01-01", 1.0), Transaction(2, 1, "2024-01-01 ", 1.0)])| == 2
  {
    var ts := [Transaction(1, 1, "2024-01-01", 1.0), Transaction(2, 1, "2024-01-01 ", 1.0)];
    assert ts[..1] == [ts[0]];
    assert "2024-01-01 " != "2024-01-01" by {
      assert |"2024-01-01 "| != |"2024-01-01"|;
    }
  }
}
