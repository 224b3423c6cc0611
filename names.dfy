/** The name column of the table: `getCustomerNameById`. */
module Names {
  import opened Wrappers
  import opened Records

  /** The name the lookup yields for `id`: that of the LAST customer with this id,
      since every match overwrites the previous one; `None` (undefined) if no
      customer has it. */
  function LastNameWithId(customers: seq<Customer>, id: int): Option<string>
  {
    if |customers| == 0 then None
    else if customers[|customers| - 1].id == id then Some(customers[|customers| - 1].name)
    else LastNameWithId(customers[..|customers| - 1], id)
  }

  /** The ids of `customers` are pairwise different. */
  predicate UniqueIds(customers: seq<Customer>)
  {
    forall i, j :: 0 <= i < j < |customers| ==> customers[i].id != customers[j].id
  }

  /** The lookup misses exactly when no customer carries the id. */
  lemma {:induction false} LookupMissIff(customers: seq<Customer>, id: int)
    ensures LastNameWithId(customers, id) == None <==> forall i :: 0 <= i < |customers| ==> customers[i].id != id
    decreases |customers|
  {
    if |customers| > 0 {
      var p := customers[..|customers| - 1];
      LookupMissIff(p, id);
      assert forall i :: 0 <= i < |p| ==> customers[i] == p[i];
    }
  }

  /** A match after which no other customer carries the id is the one reported. */
  lemma {:induction false} LookupLastMatch(customers: seq<Customer>, id: int, i: nat)
    requires i < |customers| && customers[i].id == id
    requires forall j :: i < j < |customers| ==> customers[j].id != id
    ensures LastNameWithId(customers, id) == Some(customers[i].name)
    decreases |customers|
  {
    if i < |customers| - 1 {
      LookupLastMatch(customers[..|customers| - 1], id, i);
    }
  }

  /** What the lookup reports is the name of a customer with that id, after which no
      other customer carries the id. */
  lemma {:induction false} LookupFound(customers: seq<Customer>, id: int)
    requires LastNameWithId(customers, id).Some?
    ensures exists i :: 0 <= i < |customers| && customers[i].id == id &&
                        LastNameWithId(customers, id) == Some(customers[i].name) &&
                        forall j :: i < j < |customers| ==> customers[j].id != id
    decreases |customers|
  {
    var n := |customers|;
    if customers[n - 1].id != id {
      var p := customers[..n - 1];
      LookupFound(p, id);
      var i :| 0 <= i < |p| && p[i].id == id && LastNameWithId(p, id) == Some(p[i].name) &&
               forall j :: i < j < |p| ==> p[j].id != id;
      assert customers[i] == p[i];
    }
  }

  /** With unique ids the lookup yields the one matching customer's name. */
  lemma LookupUnique(customers: seq<Customer>, id: int, i: nat)
    requires UniqueIds(customers)
    requires i < |customers| && customers[i].id == id
    ensures LastNameWithId(customers, id) == Some(customers[i].name)
  {
    LookupLastMatch(customers, id, i);
  }

  /** With a repeated id the later customer wins, not the first. */
  lemma DuplicateIdLastWins()
    ensures LastNameWithId([Customer(1, "Alice"), Customer(1, "Bob")], 1) == Some("Bob")
  {
  }
}
