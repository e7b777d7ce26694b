/** routes/transactions.js: who may read a transaction, the newest-first
    listings, and the admin-only amount update and deletion. The
    transactions collection is a field of a store. */
module Transactions {
  import opened Base
  import opened Accounts
  import opened Sorting
  import Auth

  /** `walletData`; only `convertedAmount` is interpreted. */
  datatype Wallet = Wallet(address: string, network: string, coinName: string, convertedAmount: int)

  /** A transaction document. `userEmail` is `user.email`, which the schema
      does not require; `date` is the timestamp in milliseconds; `other`
      holds the fields this model does not interpret. */
  datatype Transaction = Transaction(
    id: string,
    kind: string,
    userEmail: Option<string>,
    status: string,
    amount: int,
    date: int,
    wallet: Wallet,
    other: map<string, string>)

  function Date(t: Transaction): int {
    t.date
  }

  predicate TxIdsUnique(txs: seq<Transaction>) {
    forall i, j :: 0 <= i < j < |txs| ==> txs[i].id != txs[j].id
  }

  /** `Transaction.findById(id)`. */
  function FindTransaction(txs: seq<Transaction>, id: string): (r: Option<Transaction>)
    ensures r.Some? <==> exists i :: 0 <= i < |txs| && txs[i].id == id
    ensures r.Some? ==> r.value in txs && r.value.id == id
  {
    if |txs| == 0 then None
    else if txs[0].id == id then Some(txs[0])
    else
      var r := FindTransaction(txs[1..], id);
      assert forall i :: 1 <= i < |txs| ==> txs[1..][i - 1] == txs[i];
      r
  }

  /** A non-admin may see a transaction only when its `user.email` is
      theirs; a transaction without one is visible to admins only. */
  predicate MayView(caller: User, t: Transaction) {
    caller.isAdmin || t.userEmail == Some(caller.email)
  }

  /** `GET /:id`: the not-found answer comes before the ownership check. */
  function GetTransaction(txs: seq<Transaction>, caller: User, id: string): (r: Response<Transaction>)
    ensures FindTransaction(txs, id).None? ==> r == Fail(400, "Transaction not found...")
    ensures FindTransaction(txs, id).Some? && !MayView(caller, FindTransaction(txs, id).value) ==>
              r == Fail(403, "Forbidden")
    ensures r.Ok? <==> FindTransaction(txs, id).Some? && MayView(caller, FindTransaction(txs, id).value)
    ensures r.Ok? ==> r.value in txs && r.value.id == id
  {
    var found := FindTransaction(txs, id);
    if found.None? then Fail(400, "Transaction not found...")
    else if !MayView(caller, found.value) then Fail(403, "Forbidden")
    else Ok(found.value)
  }

  /** `find({ "user.email": email })`: the transactions of one owner, in
      collection order. */
  function OwnedBy(txs: seq<Transaction>, email: string): (r: seq<Transaction>)
    ensures forall t :: t in r <==> t in txs && t.userEmail == Some(email)
    ensures |r| <= |txs|
  {
    if |txs| == 0 then []
    else
      var rest := OwnedBy(txs[1..], email);
      assert forall t :: t in txs[1..] ==> t in txs;
      if txs[0].userEmail == Some(email) then [txs[0]] + rest else rest
  }

  /** `transactions.sort((a, b) => b.date - a.date)` on a copy of `s`:
      newest first, and transactions of the same date in the order they
      were found. */
  method NewestFirst(s: seq<Transaction>) returns (r: seq<Transaction>)
    ensures r == StableSortDesc(s, Date)
    ensures SortedDesc(r, Date)
    ensures multiset(r) == multiset(s)
    ensures forall d :: Ties(r, Date, d) == Ties(s, Date, d)
  {
    var a := new Transaction[|s|](i requires 0 <= i < |s| => s[i]);
    assert a[..] == s;
    SortDescending(a, Date);
    r := a[..];
  }

  /** The two fields the amount update sets, and nothing else. */
  function WithAmounts(t: Transaction, amount: int, convertedAmount: int): (u: Transaction)
    ensures u.amount == amount && u.wallet.convertedAmount == convertedAmount
    ensures u.(amount := t.amount, wallet := u.wallet.(convertedAmount := t.wallet.convertedAmount)) == t
  {
    t.(amount := amount, wallet := t.wallet.(convertedAmount := convertedAmount))
  }

  /** `findByIdAndUpdate` with `{ new: true }`: the document with the id is
      replaced. */
  function Replaced(txs: seq<Transaction>, t: Transaction): (r: seq<Transaction>)
    ensures |r| == |txs|
    ensures forall i :: 0 <= i < |txs| ==> r[i] == (if txs[i].id == t.id then t else txs[i])
    ensures TxIdsUnique(txs) ==> TxIdsUnique(r)
  {
    seq(|txs|, i requires 0 <= i < |txs| => if txs[i].id == t.id then t else txs[i])
  }

  /** `findByIdAndRemove`: the document with the id goes, the rest stay in
      order. */
  function Removed(txs: seq<Transaction>, id: string): (r: seq<Transaction>)
    ensures forall t :: t in r <==> t in txs && t.id != id
    ensures KeptInOrder(r, txs)
    ensures (forall i :: 0 <= i < |txs| ==> txs[i].id != id) ==> r == txs
  {
    if |txs| == 0 then []
    else
      var rest := Removed(txs[1..], id);
      assert forall t :: t in txs[1..] ==> t in txs;
      if txs[0].id == id then rest else [txs[0]] + rest
  }

  /** Removing an id keeps the remaining ids unique. */
  lemma {:induction false} RemovedKeepsUnique(txs: seq<Transaction>, id: string)
    requires TxIdsUnique(txs)
    ensures TxIdsUnique(Removed(txs, id))
  {
    if |txs| > 0 {
      var tail := txs[1..];
      assert TxIdsUnique(tail);
      RemovedKeepsUnique(tail, id);
      if txs[0].id != id {
        var rest := Removed(tail, id);
        forall t | t in rest ensures t.id != txs[0].id {
          var k :| 0 <= k < |tail| && tail[k] == t;
          assert txs[k + 1] == t;
        }
        assert Removed(txs, id) == [txs[0]] + rest;
      }
    }
  }

  /** Removing the id stored at position `i` drops exactly one document. */
  lemma {:induction false} RemovedDropsOne(txs: seq<Transaction>, id: string, i: nat)
    requires TxIdsUnique(txs)
    requires i < |txs| && txs[i].id == id
    ensures |Removed(txs, id)| == |txs| - 1
  {
    var tail := txs[1..];
    if i == 0 {
      assert forall k :: 0 <= k < |tail| ==> tail[k] == txs[k + 1];
    } else {
      assert txs[0].id != txs[i].id;
      assert TxIdsUnique(tail) && tail[i - 1] == txs[i];
      RemovedDropsOne(tail, id, i - 1);
    }
  }

  /** Removing a stored id keeps the ids unique and shortens the
      collection by exactly one. */
  lemma RemovedOne(txs: seq<Transaction>, id: string)
    requires TxIdsUnique(txs)
    ensures TxIdsUnique(Removed(txs, id))
    ensures (exists i :: 0 <= i < |txs| && txs[i].id == id) ==> |Removed(txs, id)| == |txs| - 1
  {
    RemovedKeepsUnique(txs, id);
    if exists i :: 0 <= i < |txs| && txs[i].id == id {
      var i :| 0 <= i < |txs| && txs[i].id == id;
      RemovedDropsOne(txs, id, i);
    }
  }

  /** JavaScript truthiness of an optional number from the request body. */
  predicate TruthyNumber(n: Option<int>) {
    n.Some? && n.value != 0
  }

  /** The transactions collection. */
  class TransactionStore {
    var txs: seq<Transaction>

    ghost predicate Valid()
      reads this
    {
      TxIdsUnique(txs)
    }

    constructor (txs: seq<Transaction>)
      requires TxIdsUnique(txs)
      ensures Valid() && this.txs == txs
    {
      this.txs := txs;
    }

    /** `GET /` (admins only): every transaction, newest first. */
    method ListAll(caller: User) returns (r: Response<seq<Transaction>>)
      ensures !caller.isAdmin ==> r == Fail(403, "Access denied. Admins only.")
      ensures caller.isAdmin && |txs| == 0 ==> r == Fail(400, "Transactions not found...")
      ensures r.Ok? <==> caller.isAdmin && |txs| > 0
      ensures r.Ok? ==> SortedDesc(r.value, Date) && multiset(r.value) == multiset(txs)
      ensures r.Ok? ==> r.value == StableSortDesc(txs, Date)
                        && forall d :: Ties(r.value, Date, d) == Ties(txs, Date, d)
    {
      var gate := Auth.RequireAdmin(Some(caller));
      if gate.Deny? {
        return Fail(gate.status, gate.message);
      }
      if |txs| == 0 {
        return Fail(400, "Transactions not found...");
      }
      var sorted := NewestFirst(txs);
      r := Ok(sorted);
    }

    /** `GET /user/:email`: a non-admin asking for another e-mail is refused
        before the collection is searched. */
    method ListByUser(caller: User, email: string) returns (r: Response<seq<Transaction>>)
      ensures !caller.isAdmin && caller.email != email ==> r == Fail(403, "Forbidden")
      ensures (caller.isAdmin || caller.email == email) && |OwnedBy(txs, email)| == 0 ==>
                r == Fail(400, "Transactions not found...")
      ensures r.Ok? <==> (caller.isAdmin || caller.email == email) && |OwnedBy(txs, email)| > 0
      ensures r.Ok? ==> SortedDesc(r.value, Date) && multiset(r.value) == multiset(OwnedBy(txs, email))
      ensures r.Ok? ==> r.value == StableSortDesc(OwnedBy(txs, email), Date)
                        && forall d :: Ties(r.value, Date, d) == Ties(OwnedBy(txs, email), Date, d)
      ensures r.Ok? ==> forall t :: t in r.value ==> t in txs && t.userEmail == Some(email)
    {
      if !caller.isAdmin && caller.email != email {
        return Fail(403, "Forbidden");
      }
      var found := OwnedBy(txs, email);
      if |found| == 0 {
        return Fail(400, "Transactions not found...");
      }
      var sorted := NewestFirst(found);
      forall t | t in sorted ensures t in found {
        assert t in multiset(sorted);
      }
      r := Ok(sorted);
    }

    /** `PUT /:id` (admins only): sets `amount` and
        `walletData.convertedAmount`, both of which must be truthy (so a
        zero is refused). Returns the activity entry as well. */
    method UpdateAmounts(caller: User, id: string, amount: Option<int>, convertedAmount: Option<int>)
      returns (r: Response<string>, logged: Option<Activity>)
      requires Valid()
      modifies this
      ensures Valid()
      ensures r.Fail? ==> txs == old(txs) && logged.None?
      ensures !caller.isAdmin ==> r == Fail(403, "Access denied. Admins only.")
      ensures caller.isAdmin && !(TruthyNumber(amount) && TruthyNumber(convertedAmount)) ==>
                r == Fail(400, "Both amount and convertedAmount are required.")
      ensures (caller.isAdmin && TruthyNumber(amount) && TruthyNumber(convertedAmount)
               && FindTransaction(old(txs), id).None?) ==> r == Fail(404, "Transaction not found.")
      ensures r.Ok? <==> caller.isAdmin && TruthyNumber(amount) && TruthyNumber(convertedAmount)
                         && FindTransaction(old(txs), id).Some?
      ensures r.Ok? ==>
                r.value == "Transaction updated successfully."
                && txs == Replaced(old(txs), WithAmounts(FindTransaction(old(txs), id).value,
                                                         amount.value, convertedAmount.value))
                && logged == Some(Activity(caller.id, "update_transaction", Some(id), false,
                                           map["amount" := Num(amount.value),
                                               "convertedAmount" := Num(convertedAmount.value)]))
    {
      var gate := Auth.RequireAdmin(Some(caller));
      if gate.Deny? {
        return Fail(gate.status, gate.message), None;
      }
      if !TruthyNumber(amount) || !TruthyNumber(convertedAmount) {
        return Fail(400, "Both amount and convertedAmount are required."), None;
      }
      var found := FindTransaction(txs, id);
      if found.None? {
        return Fail(404, "Transaction not found."), None;
      }
      txs := Replaced(txs, WithAmounts(found.value, amount.value, convertedAmount.value));
      logged := Some(Activity(caller.id, "update_transaction", Some(id), false,
                              map["amount" := Num(amount.value), "convertedAmount" := Num(convertedAmount.value)]));
      r := Ok("Transaction updated successfully.");
    }

    /** `DELETE /:id` (admins only): an unknown id is answered with 400 and
        nothing is logged. */
    method Delete(caller: User, id: string) returns (r: Response<Transaction>, logged: Option<Activity>)
      requires Valid()
      modifies this
      ensures Valid()
      ensures r.Fail? ==> txs == old(txs) && logged.None?
      ensures !caller.isAdmin ==> r == Fail(403, "Access denied. Admins only.")
      ensures caller.isAdmin && FindTransaction(old(txs), id).None? ==> r == Fail(400, "Transaction not found...")
      ensures r.Ok? <==> caller.isAdmin && FindTransaction(old(txs), id).Some?
      ensures r.Ok? ==>
                r.value == FindTransaction(old(txs), id).value
                && txs == Removed(old(txs), id) && |txs| == |old(txs)| - 1
                && logged == Some(Activity(caller.id, "delete_transaction", Some(id), false, map[]))
    {
      var gate := Auth.RequireAdmin(Some(caller));
      if gate.Deny? {
        return Fail(gate.status, gate.message), None;
      }
      var found := FindTransaction(txs, id);
      if found.None? {
        return Fail(400, "Transaction not found..."), None;
      }
      RemovedOne(txs, id);
      txs := Removed(txs, id);
      logged := Some(Activity(caller.id, "delete_transaction", Some(id), false, map[]));
      r := Ok(found.value);
    }
  }
}
