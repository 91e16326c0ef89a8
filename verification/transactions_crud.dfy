/** The transactions table and its four queries. Deleting only marks a row;
    listings hide marked rows, while updates and deletes still find them. */
module TransactionsCrud {
  import opened Wrappers
  import opened Seqs
  import opened Models

  /** The fields a client sends for a transaction. */
  datatype TransactionData = TransactionData(categoryId: nat, txType: TransactionType, amount: int,
                                             note: Option<string>, date: Option<int>, receiptUrl: Option<string>)

  predicate Listed(t: Transaction, userId: nat) {
    t.userId == userId && !t.isDeleted
  }

  function ListedFor(userId: nat): Transaction -> bool {
    (t: Transaction) => Listed(t, userId)
  }

  function OwnedWithId(id: nat, userId: nat): Transaction -> bool {
    (t: Transaction) => t.id == id && t.userId == userId
  }

  /** `setattr` of every payload field; `id`, `user_id` and `is_deleted` stay. */
  function Overwrite(t: Transaction, data: TransactionData): (r: Transaction)
    ensures r.id == t.id && r.userId == t.userId && r.isDeleted == t.isDeleted
    ensures r.categoryId == data.categoryId && r.txType == data.txType && r.amount == data.amount
    ensures r.note == data.note && r.date == data.date && r.receiptUrl == data.receiptUrl
  {
    t.(categoryId := data.categoryId, txType := data.txType, amount := data.amount,
       note := data.note, date := data.date, receiptUrl := data.receiptUrl)
  }

  class TransactionTable {
    var rows: seq<Transaction>
    var nextId: nat

    ghost predicate Valid()
      reads this
    {
      (forall i, j :: 0 <= i < j < |rows| ==> rows[i].id != rows[j].id)
      && (forall i :: 0 <= i < |rows| ==> rows[i].id < nextId)
    }

    constructor (seed: seq<Transaction>, nextId: nat)
      requires forall i, j :: 0 <= i < j < |seed| ==> seed[i].id != seed[j].id
      requires forall i :: 0 <= i < |seed| ==> seed[i].id < nextId
      ensures Valid() && rows == seed && this.nextId == nextId
    {
      rows := seed;
      this.nextId := nextId;
    }

    /** `get_transactions`: the caller's rows that are not marked deleted. */
    method GetTransactions(userId: nat) returns (r: seq<Transaction>)
      ensures forall i :: 0 <= i < |r| ==> r[i] in rows && r[i].userId == userId && !r[i].isDeleted
      ensures forall i :: 0 <= i < |rows| && Listed(rows[i], userId) ==> rows[i] in r
      ensures r == Filter(rows, ListedFor(userId))
    {
      r := Filter(rows, ListedFor(userId));
    }

    /** `create_transaction`: the payload, owned by the caller, not deleted. A
        `None` date is left out of the insert, so the column's `now()` default
        (the insert time `now`) dates the row. */
    method CreateTransaction(data: TransactionData, userId: nat, now: int) returns (t: Transaction)
      requires Valid()
      modifies this
      ensures Valid()
      ensures t == Transaction(old(nextId), userId, data.categoryId, data.txType, data.amount, data.note,
                               Some(data.date.GetOr(now)), data.receiptUrl, false)
      ensures t.date.Some? && (data.date.None? ==> t.date == Some(now)) && (data.date.Some? ==> t.date == data.date)
      ensures rows == old(rows) + [t] && nextId == old(nextId) + 1
    {
      t := Transaction(nextId, userId, data.categoryId, data.txType, data.amount, data.note,
                       Some(data.date.GetOr(now)), data.receiptUrl, false);
      rows := rows + [t];
      nextId := nextId + 1;
    }

    /** `update_transaction`: the caller's row with that id, deleted or not,
        takes every payload field; otherwise `None` and nothing changes. */
    method UpdateTransaction(id: nat, data: TransactionData, userId: nat) returns (r: Option<Transaction>)
      requires Valid()
      modifies this
      ensures Valid() && nextId == old(nextId)
      ensures r.None? <==> forall i :: 0 <= i < |old(rows)| ==> !(old(rows)[i].id == id && old(rows)[i].userId == userId)
      ensures r.None? ==> rows == old(rows)
      ensures r.Some? ==> exists i :: 0 <= i < |old(rows)| && old(rows)[i].id == id && old(rows)[i].userId == userId
                                     && r.value == Overwrite(old(rows)[i], data) && rows == old(rows)[i := r.value]
    {
      var found := FindFirst(rows, OwnedWithId(id, userId));
      if found.None? {
        return None;
      }
      var i := found.value;
      var updated := Overwrite(rows[i], data);
      rows := rows[i := updated];
      r := Some(updated);
    }

    /** `delete_transaction`: marks the caller's row deleted and keeps it; a
        missing or foreign id answers false and changes nothing. */
    method DeleteTransaction(id: nat, userId: nat) returns (deleted: bool)
      requires Valid()
      modifies this
      ensures Valid() && nextId == old(nextId) && |rows| == |old(rows)|
      ensures deleted <==> exists i :: 0 <= i < |old(rows)| && old(rows)[i].id == id && old(rows)[i].userId == userId
      ensures !deleted ==> rows == old(rows)
      ensures deleted ==> exists i :: 0 <= i < |old(rows)| && old(rows)[i].id == id
                                      && rows == old(rows)[i := old(rows)[i].(isDeleted := true)]
      ensures deleted ==> forall i :: 0 <= i < |rows| && rows[i].id == id ==> rows[i].isDeleted
      ensures forall i :: 0 <= i < |rows| ==> rows[i] == old(rows)[i].(isDeleted := rows[i].isDeleted)
    {
      var found := FindFirst(rows, OwnedWithId(id, userId));
      if found.None? {
        return false;
      }
      var i := found.value;
      rows := rows[i := rows[i].(isDeleted := true)];
      deleted := true;
    }
  }

  /** A deleted transaction is no longer listed, and deleting it again still
      answers true and changes nothing: the table ends as one delete left it. */
  method DeleteTwice(table: TransactionTable, id: nat, userId: nat) returns (first: bool, second: bool)
    requires table.Valid()
    modifies table
    ensures first ==> second
    ensures first ==> forall i :: 0 <= i < |table.rows| && table.rows[i].id == id ==> !Listed(table.rows[i], userId)
    ensures |table.rows| == |old(table.rows)|
    ensures first ==> exists i :: 0 <= i < |old(table.rows)| && old(table.rows)[i].id == id
                                  && table.rows == old(table.rows)[i := old(table.rows)[i].(isDeleted := true)]
  {
    first := table.DeleteTransaction(id, userId);
    if first {
      ghost var i :| 0 <= i < |old(table.rows)| && old(table.rows)[i].id == id && old(table.rows)[i].userId == userId;
      ghost var once := table.rows;
      assert once[i].id == id && once[i].userId == userId && once[i].isDeleted;
      second := table.DeleteTransaction(id, userId);
      ghost var j :| 0 <= j < |once| && once[j].id == id && table.rows == once[j := once[j].(isDeleted := true)];
      assert j == i;
      assert table.rows == once;
    } else {
      second := table.DeleteTransaction(id, userId);
    }
  }
}
