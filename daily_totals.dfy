/** The chart series of `getTotalTransactionsPerDay`: one customer's transactions
    grouped by their date string, with the amounts of each group summed, in the
    order in which each date is first met. */
module DailyTotals {
  import opened Records

  /** The sum of the amounts of `ts`. */
  function Sum(ts: seq<Transaction>): real
  {
    if |ts| == 0 then 0.0 else Sum(ts[..|ts| - 1]) + ts[|ts| - 1].amount
  }

  /** The sum of the amounts of those transactions of `ts` dated exactly `date`. */
  function DateTotal(ts: seq<Transaction>, date: string): real
  {
    if |ts| == 0 then 0.0
    else DateTotal(ts[..|ts| - 1], date) + (if ts[|ts| - 1].date == date then ts[|ts| - 1].amount else 0.0)
  }

  /** The distinct dates of `ts`, each once, in the order of their first occurrence:
      the key order of a JavaScript object whose keys are assigned in that order
      (none of them an integer-like string). */
  function Dates(ts: seq<Transaction>): seq<string>
  {
    if |ts| == 0 then []
    else
      var earlier := Dates(ts[..|ts| - 1]);
      if ts[|ts| - 1].date in earlier then earlier else earlier + [ts[|ts| - 1].date]
  }

  /** The index of the first transaction of `ts` dated `date`, or `|ts|` if there is none. */
  function FirstSeen(ts: seq<Transaction>, date: string): (k: nat)
    ensures k <= |ts|
    ensures k < |ts| ==> ts[k].date == date
    ensures forall j :: 0 <= j < k ==> ts[j].date != date
  {
    if |ts| == 0 then 0
    else if ts[0].date == date then 0
    else 1 + FirstSeen(ts[1..], date)
  }

  /** The sum of the amounts of a chart series. */
  function TotalAmount(series: seq<DailyTotal>): real
  {
    if |series| == 0 then 0.0 else TotalAmount(series[..|series| - 1]) + series[|series| - 1].amount
  }

  /** No date occurs twice in `ds`. */
  predicate Distinct(ds: seq<string>)
  {
    forall i, j :: 0 <= i < j < |ds| ==> ds[i] != ds[j]
  }

  /** One entry per key of `dates`, carrying that date's total over `ts`. */
  function Tabulate(dates: seq<string>, ts: seq<Transaction>): seq<DailyTotal>
  {
    seq(|dates|, i requires 0 <= i < |dates| => DailyTotal(dates[i], DateTotal(ts, dates[i])))
  }

  /** The reference series for the transactions `ts` of one customer. */
  function DailyTotalsOf(ts: seq<Transaction>): seq<DailyTotal>
  {
    Tabulate(Dates(ts), ts)
  }

  /** Each date is a key at most once. */
  lemma {:induction false} DatesDistinct(ts: seq<Transaction>)
    ensures Distinct(Dates(ts))
    decreases |ts|
  {
    if |ts| > 0 {
      DatesDistinct(ts[..|ts| - 1]);
    }
  }

  /** The keys are exactly the dates that occur in `ts`. */
  lemma {:induction false} DatesOccur(ts: seq<Transaction>)
    ensures forall k :: 0 <= k < |ts| ==> ts[k].date in Dates(ts)
    ensures forall d :: d in Dates(ts) ==> exists k :: 0 <= k < |ts| && ts[k].date == d
    decreases |ts|
  {
    if |ts| > 0 {
      var p := ts[..|ts| - 1];
      DatesOccur(p);
      assert forall k :: 0 <= k < |p| ==> ts[k] == p[k];
    }
  }

  /** A date is a key exactly when it is first seen somewhere inside `ts`. */
  lemma InDatesIff(ts: seq<Transaction>, date: string)
    ensures date in Dates(ts) <==> FirstSeen(ts, date) < |ts|
  {
    DatesOccur(ts);
  }

  /** Appending a transaction does not move the first occurrence of a date already present. */
  lemma {:induction false} FirstSeenSnoc(ts: seq<Transaction>, t: Transaction, date: string)
    ensures FirstSeen(ts + [t], date) ==
            if FirstSeen(ts, date) < |ts| || t.date == date then FirstSeen(ts, date) else |ts| + 1
    decreases |ts|
  {
    if |ts| > 0 {
      assert (ts + [t])[0] == ts[0];
      assert (ts + [t])[1..] == ts[1..] + [t];
      FirstSeenSnoc(ts[1..], t, date);
    }
  }

  /** The keys come in first-seen order. */
  lemma {:induction false} DatesInFirstSeenOrder(ts: seq<Transaction>)
    ensures forall i, j :: 0 <= i < j < |Dates(ts)| ==> FirstSeen(ts, Dates(ts)[i]) < FirstSeen(ts, Dates(ts)[j])
    decreases |ts|
  {
    if |ts| > 0 {
      var p, t := ts[..|ts| - 1], ts[|ts| - 1];
      assert ts == p + [t];
      DatesInFirstSeenOrder(p);
      var earlier := Dates(p);
      forall d | d in earlier
        ensures FirstSeen(p, d) < |p| && FirstSeen(ts, d) == FirstSeen(p, d)
      {
        InDatesIff(p, d);
        FirstSeenSnoc(p, t, d);
      }
      if t.date !in earlier {
        InDatesIff(p, t.date);
        FirstSeenSnoc(p, t, t.date);
        assert FirstSeen(ts, t.date) == |p|;
      }
    }
  }

  /** A date that does not occur has total zero. */
  lemma {:induction false} DateTotalAbsent(ts: seq<Transaction>, date: string)
    requires date !in Dates(ts)
    ensures DateTotal(ts, date) == 0.0
    decreases |ts|
  {
    if |ts| > 0 {
      DateTotalAbsent(ts[..|ts| - 1], date);
    }
  }

  /** Appending one transaction to `ts` raises the total over distinct keys `dates`
      by its amount exactly when its date is among them. */
  lemma {:induction false} TabulateSnoc(dates: seq<string>, ts: seq<Transaction>, t: Transaction)
    requires Distinct(dates)
    ensures TotalAmount(Tabulate(dates, ts + [t])) ==
            TotalAmount(Tabulate(dates, ts)) + (if t.date in dates then t.amount else 0.0)
    decreases |dates|
  {
    if |dates| > 0 {
      var m := |dates|;
      var rest, d := dates[..m - 1], dates[m - 1];
      assert dates == rest + [d];
      assert Tabulate(dates, ts + [t])[..m - 1] == Tabulate(rest, ts + [t]);
      assert Tabulate(dates, ts)[..m - 1] == Tabulate(rest, ts);
      assert (ts + [t])[..|ts|] == ts;
      TabulateSnoc(rest, ts, t);
    }
  }

  /** Grouping preserves the total: the series sums to the sum of all amounts. */
  lemma {:induction false} DailyTotalsConserveSum(ts: seq<Transaction>)
    ensures TotalAmount(DailyTotalsOf(ts)) == Sum(ts)
    decreases |ts|
  {
    if |ts| > 0 {
      var p, t := ts[..|ts| - 1], ts[|ts| - 1];
      assert ts == p + [t];
      DailyTotalsConserveSum(p);
      var earlier := Dates(p);
      DatesDistinct(p);
      TabulateSnoc(earlier, p, t);
      if t.date !in earlier {
        var n := |earlier|;
        assert Dates(ts)[..n] == earlier;
        assert Tabulate(Dates(ts), ts)[..n] == Tabulate(earlier, ts);
        DateTotalAbsent(p, t.date);
      }
    }
  }

  /** The reduce of `getTotalTransactionsPerDay`, written as the loop it performs:
      `acc[date] = (acc[date] || 0) + amount` on a fresh object. `keys` is the
      object's own-key order, `totals` its contents. */
  method Accumulate(ts: seq<Transaction>) returns (keys: seq<string>, totals: map<string, real>)
    ensures keys == Dates(ts)
    ensures forall d :: d in totals <==> d in keys
    ensures forall d :: d in totals ==> totals[d] == DateTotal(ts, d)
  {
    keys, totals := [], map[];
    var i := 0;
    while i < |ts|
      invariant 0 <= i <= |ts|
      invariant keys == Dates(ts[..i])
      invariant forall d :: d in totals <==> d in keys
      invariant forall d :: d in totals ==> totals[d] == DateTotal(ts[..i], d)
    {
      var t := ts[i];
      assert ts[..i + 1] == ts[..i] + [t];
      var running := if t.date in totals then totals[t.date] else 0.0;
      if t.date !in totals {
        DateTotalAbsent(ts[..i], t.date);
        keys := keys + [t.date];
      }
      totals := totals[t.date := running + t.amount];
      i := i + 1;
    }
    assert ts[..i] == ts;
  }
}
