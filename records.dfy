/** The entities of the dashboard's dataset and the values it derives from them. */
module Records {

  /** A customer record as loaded: `{ id, name }`. */
  datatype Customer = Customer(id: int, name: string)

  /** A transaction record as loaded: `{ id, customer_id, date, amount }`.
      The date is an opaque string key; the amount is an exact real number. */
  datatype Transaction = Transaction(id: int, customerId: int, date: string, amount: real)

  /** One bar of the chart: the total amount of one customer on one date. */
  datatype DailyTotal = DailyTotal(date: string, amount: real)

  /** What the fetch delivers on success: both lists of the JSON document. */
  datatype Dataset = Dataset(customers: seq<Customer>, transactions: seq<Transaction>)

  /** What the fetch delivers on failure; the page shows its message. */
  datatype FetchError = FetchError(message: string)
}
