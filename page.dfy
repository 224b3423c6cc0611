/** The `App` component's state and the operations that read or write it: the
    fetch callback, the two change handlers, the chart series and the name lookup. */
module Page {
  import opened Wrappers
  import opened Records
  import opened Filters
  import opened DailyTotals
  import opened Names

  /** `!selectedCustomer` is false: a number other than 0 and not NaN. */
  predicate Truthy(selected: Option<int>)
  {
    selected.Some? && selected.value != 0
  }

  class App {
    var customers: seq<Customer>
    var transactions: seq<Transaction>
    var filteredTransactions: seq<Transaction>
    /** `None` is both the initial null and the NaN of "All". */
    var selectedCustomer: Option<int>
    var error: Option<FetchError>

    /** The table never shows a transaction that is not in the dataset, and shows
        those it keeps in the dataset's order. */
    ghost predicate Valid()
      reads this
    {
      IsSubsequence(filteredTransactions, transactions)
    }

    /** The initial values of the five state slots. */
    constructor ()
      ensures Valid()
      ensures customers == [] && transactions == [] && filteredTransactions == []
      ensures selectedCustomer == None && error == None
    {
      customers, transactions, filteredTransactions := [], [], [];
      selectedCustomer, error := None, None;
    }

    /** The page renders only the error message. */
    predicate ShowsError()
      reads this
    {
      error.Some?
    }

    /** The fetch callback: the outcome of the GET arrives as a value. */
    method DataLoaded(outcome: Result<Dataset, FetchError>)
      requires Valid()
      modifies this`customers, this`transactions, this`filteredTransactions, this`error
      ensures Valid()
      ensures selectedCustomer == old(selectedCustomer)
      ensures outcome.Success? ==>
        && customers == outcome.value.customers
        && transactions == outcome.value.transactions
        && filteredTransactions == outcome.value.transactions
        && error == old(error)
      ensures outcome.Failure? ==>
        && error == Some(outcome.error)
        && customers == old(customers)
        && transactions == old(transactions)
        && filteredTransactions == old(filteredTransactions)
    {
      match outcome
      case Success(data) =>
        customers := data.customers;
        transactions := data.transactions;
        filteredTransactions := data.transactions;
        SubsequenceReflexive(transactions);
      case Failure(e) =>
        error := Some(e);
    }

    /** `handleCustomerChange`: `customerId` is what `parseInt` made of the option's
        value, `None` for the NaN of "All". */
    method HandleCustomerChange(customerId: Option<int>)
      modifies this`selectedCustomer, this`filteredTransactions
      ensures Valid()
      ensures selectedCustomer == customerId
      ensures filteredTransactions == ByCustomer(transactions, customerId)
      ensures customerId.None? ==> filteredTransactions == []
    {
      selectedCustomer := customerId;
      filteredTransactions := ByCustomer(transactions, customerId);
    }

    /** `handleAmountFilter`: `amount` is what `parseFloat` made of the input's text,
        `None` for NaN. */
    method HandleAmountFilter(amount: Option<real>)
      modifies this`filteredTransactions
      ensures Valid()
      ensures filteredTransactions == ByMinAmount(transactions, amount)
      ensures amount.None? ==> filteredTransactions == []
    {
      filteredTransactions := ByMinAmount(transactions, amount);
    }

    /** `getTotalTransactionsPerDay`: the series behind the bar chart. */
    method TotalTransactionsPerDay() returns (series: seq<DailyTotal>)
      ensures !Truthy(selectedCustomer) ==> series == []
      ensures Truthy(selectedCustomer) ==> series == DailyTotalsOf(ByCustomer(transactions, selectedCustomer))
      ensures TotalAmount(series) == if Truthy(selectedCustomer) then Sum(ByCustomer(transactions, selectedCustomer)) else 0.0
      ensures forall i, j :: 0 <= i < j < |series| ==> series[i].date != series[j].date
    {
      if !Truthy(selectedCustomer) {
        return [];
      }
      var customerTransactions := ByCustomer(transactions, selectedCustomer);
      var keys, totals := Accumulate(customerTransactions);
      series := seq(|keys|, i requires 0 <= i < |keys| => DailyTotal(keys[i], totals[keys[i]]));
      assert series == DailyTotalsOf(customerTransactions);
      DailyTotalsConserveSum(customerTransactions);
      DatesDistinct(customerTransactions);
    }

    /** `getCustomerNameById`: every customer whose id matches overwrites the result. */
    method CustomerNameById(x: int) returns (customerName: Option<string>)
      ensures customerName == LastNameWithId(customers, x)
      ensures customerName.None? <==> forall i :: 0 <= i < |customers| ==> customers[i].id != x
    {
      customerName := None;
      var i := 0;
      while i < |customers|
        invariant 0 <= i <= |customers|
        invariant customerName == LastNameWithId(customers[..i], x)
      {
        assert customers[..i + 1][..i] == customers[..i];
        if customers[i].id == x {
          customerName := Some(customers[i].name);
        }
        i := i + 1;
      }
      assert customers[..i] == customers;
      LookupMissIff(customers, x);
    }
  }

  /** Whichever handler runs last decides the table: a customer selection followed
      by an amount filter leaves the amount filter's rows, and the chart still
      follows the selected customer. */
  method CustomerThenAmount(app: App, customerId: Option<int>, amount: Option<real>)
    modifies app`selectedCustomer, app`filteredTransactions
    ensures app.Valid()
    ensures app.filteredTransactions == ByMinAmount(old(app.transactions), amount)
    ensures app.selectedCustomer == customerId
    ensures app.transactions == old(app.transactions) && app.customers == old(app.customers)
    ensures app.error == old(app.error)
  {
    app.HandleCustomerChange(customerId);
    app.HandleAmountFilter(amount);
  }

  /** The other order: an amount filter followed by a customer selection leaves the
      customer's rows. */
  method AmountThenCustomer(app: App, amount: Option<real>, customerId: Option<int>)
    modifies app`selectedCustomer, app`filteredTransactions
    ensures app.Valid()
    ensures app.filteredTransactions == ByCustomer(old(app.transactions), customerId)
    ensures app.selectedCustomer == customerId
    ensures app.transactions == old(app.transactions) && app.customers == old(app.customers)
    ensures app.error == old(app.error)
  {
    app.HandleAmountFilter(amount);
    app.HandleCustomerChange(customerId);
  }

  /** A failed fetch leaves the lists empty and the page showing only the error. */
  method FailedLoad(e: FetchError) returns (app: App)
    ensures fresh(app) && app.Valid()
    ensures app.ShowsError() && app.error == Some(e)
    ensures app.customers == [] && app.transactions == [] && app.filteredTransactions == []
  {
    app := new App();
    app.DataLoaded(Failure(e));
  }

  /** A successful fetch shows every transaction and no chart until a customer is chosen. */
  method SuccessfulLoad(data: Dataset) returns (app: App, series: seq<DailyTotal>)
    ensures fresh(app) && app.Valid() && !app.ShowsError()
    ensures app.customers == data.customers && app.transactions == data.transactions
    ensures app.filteredTransactions == data.transactions
    ensures series == []
  {
    app := new App();
    app.DataLoaded(Success(data));
    series := app.TotalTransactionsPerDay();
  }
}
