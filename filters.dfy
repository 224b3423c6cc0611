/** The table's filters: JavaScript's `Array.prototype.filter` and the two
    predicates the page applies with it. */
module Filters {
  import opened Wrappers
  import opened Records

  /** `r` is obtained from `s` by deleting elements, keeping the order of the rest. */
  ghost predicate IsSubsequence<T(!new)>(r: seq<T>, s: seq<T>)
    decreases |s|
  {
    |r| == 0 ||
    (|s| > 0 && ((r[0] == s[0] && IsSubsequence(r[1..], s[1..])) || IsSubsequence(r, s[1..])))
  }

  lemma {:induction false} SubsequenceReflexive<T(!new)>(s: seq<T>)
    ensures IsSubsequence(s, s)
    decreases |s|
  {
    if |s| > 0 {
      SubsequenceReflexive(s[1..]);
    }
  }

  /** `s.filter(keep)`: the elements of `s` that satisfy `keep`, in their order,
      each as often as it occurs in `s`. */
  function Filter<T(==,!new)>(s: seq<T>, keep: T -> bool): (r: seq<T>)
    ensures |r| <= |s|
    ensures forall x :: x in r <==> x in s && keep(x)
    ensures forall x :: multiset(r)[x] == if keep(x) then multiset(s)[x] else 0
    ensures IsSubsequence(r, s)
    decreases |s|
  {
    if |s| == 0 then []
    else
      assert s == [s[0]] + s[1..];
      if keep(s[0]) then [s[0]] + Filter(s[1..], keep) else Filter(s[1..], keep)
  }

  /** Filtering distributes over concatenation: together with the one-element case
      this fixes the result completely. */
  lemma {:induction false} FilterConcat<T(!new)>(a: seq<T>, b: seq<T>, keep: T -> bool)
    ensures Filter(a + b, keep) == Filter(a, keep) + Filter(b, keep)
    decreases |a|
  {
    if |a| == 0 {
      assert a + b == b;
    } else {
      assert (a + b)[0] == a[0];
      assert (a + b)[1..] == a[1..] + b;
      FilterConcat(a[1..], b, keep);
      if keep(a[0]) {
        calc {
          Filter(a + b, keep);
          [a[0]] + Filter(a[1..] + b, keep);
          [a[0]] + (Filter(a[1..], keep) + Filter(b, keep));
          ([a[0]] + Filter(a[1..], keep)) + Filter(b, keep);
        }
      }
    }
  }

  /** A predicate that holds of every element keeps the whole sequence. */
  lemma {:induction false} FilterKeepsAll<T(!new)>(s: seq<T>, keep: T -> bool)
    requires forall i :: 0 <= i < |s| ==> keep(s[i])
    ensures Filter(s, keep) == s
    decreases |s|
  {
    if |s| > 0 {
      FilterKeepsAll(s[1..], keep);
    }
  }

  /** The predicate of `handleCustomerChange`: `t.customer_id === customerId`.
      A NaN id (`None`) is strictly equal to nothing. */
  predicate OfCustomer(customerId: Option<int>, t: Transaction)
  {
    customerId == Some(t.customerId)
  }

  /** The predicate of `handleAmountFilter`: `t.amount >= amount`.
      Every comparison with NaN (`None`) is false. */
  predicate AtLeast(minAmount: Option<real>, t: Transaction)
  {
    minAmount.Some? && t.amount >= minAmount.value
  }

  /** `transactions.filter(t => t.customer_id === customerId)`. */
  function ByCustomer(ts: seq<Transaction>, customerId: Option<int>): (r: seq<Transaction>)
    ensures forall t :: t in r <==> t in ts && customerId == Some(t.customerId)
    ensures forall t :: multiset(r)[t] == if customerId == Some(t.customerId) then multiset(ts)[t] else 0
    ensures IsSubsequence(r, ts) && |r| <= |ts|
    ensures customerId.None? ==> r == []
  {
    Filter(ts, t => OfCustomer(customerId, t))
  }

  /** `transactions.filter(t => t.amount >= amount)`. */
  function ByMinAmount(ts: seq<Transaction>, minAmount: Option<real>): (r: seq<Transaction>)
    ensures forall t :: t in r <==> t in ts && minAmount.Some? && t.amount >= minAmount.value
    ensures forall t :: multiset(r)[t] == if AtLeast(minAmount, t) then multiset(ts)[t] else 0
    ensures IsSubsequence(r, ts) && |r| <= |ts|
    ensures minAmount.None? ==> r == []
  {
    Filter(ts, t => AtLeast(minAmount, t))
  }

  /** Selecting the customer of every transaction keeps them all. */
  lemma SingleCustomerKeepsAll(ts: seq<Transaction>, c: int)
    requires forall i :: 0 <= i < |ts| ==> ts[i].customerId == c
    ensures ByCustomer(ts, Some(c)) == ts
  {
    FilterKeepsAll(ts, t => OfCustomer(Some(c), t));
  }

  /** A threshold no larger than any amount keeps every transaction. */
  lemma ThresholdBelowAll(ts: seq<Transaction>, m: real)
    requires forall i :: 0 <= i < |ts| ==> ts[i].amount >= m
    ensures ByMinAmount(ts, Some(m)) == ts
  {
    FilterKeepsAll(ts, t => AtLeast(Some(m), t));
  }

  /** A threshold above every amount keeps nothing. */
  lemma ThresholdAboveAll(ts: seq<Transaction>, m: real)
    requires forall i :: 0 <= i < |ts| ==> ts[i].amount < m
    ensures ByMinAmount(ts, Some(m)) == []
  {
  }
}
