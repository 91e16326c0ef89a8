/** The wallets table and its four queries. Every query is restricted to the
    caller's rows; deleting removes the row. */
module WalletsCrud {
  import opened Wrappers
  import opened Seqs
  import opened Models

  /** The fields a client sends for a wallet. */
  datatype WalletData = WalletData(name: string, walletType: WalletType, balance: int, last4: Option<string>,
                                   totalLimit: Option<int>, billDate: Option<int>, dueDate: Option<int>,
                                   additionalCharges: Option<int>)

  function OwnedBy(userId: nat): Wallet -> bool {
    (w: Wallet) => w.userId == userId
  }

  function OwnedWithId(id: nat, userId: nat): Wallet -> bool {
    (w: Wallet) => w.id == id && w.userId == userId
  }

  class WalletTable {
    var rows: seq<Wallet>
    var nextId: nat

    ghost predicate Valid()
      reads this
    {
      (forall i, j :: 0 <= i < j < |rows| ==> rows[i].id != rows[j].id)
      && (forall i :: 0 <= i < |rows| ==> rows[i].id < nextId)
    }

    constructor (seed: seq<Wallet>, nextId: nat)
      requires forall i, j :: 0 <= i < j < |seed| ==> seed[i].id != seed[j].id
      requires forall i :: 0 <= i < |seed| ==> seed[i].id < nextId
      ensures Valid() && rows == seed && this.nextId == nextId
    {
      rows := seed;
      this.nextId := nextId;
    }

    /** `get_wallets`: exactly the caller's wallets, in table order. */
    method GetWallets(userId: nat) returns (r: seq<Wallet>)
      ensures forall i :: 0 <= i < |r| ==> r[i] in rows && r[i].userId == userId
      ensures forall i :: 0 <= i < |rows| && rows[i].userId == userId ==> rows[i] in r
      ensures r == Filter(rows, OwnedBy(userId))
    {
      r := Filter(rows, OwnedBy(userId));
    }

    /** `create_wallet`: the payload, owned by the caller, under a fresh id; a
        `None` for the additional charges is left out of the insert and takes
        the column default 0. */
    method CreateWallet(data: WalletData, userId: nat) returns (w: Wallet)
      requires Valid()
      modifies this
      ensures Valid()
      ensures w == Wallet(old(nextId), userId, data.name, data.walletType, data.balance, data.last4,
                          data.totalLimit, data.billDate, data.dueDate, Some(data.additionalCharges.GetOr(DefaultCharges)))
      ensures data.additionalCharges.None? ==> w.additionalCharges == Some(0)
      ensures rows == old(rows) + [w] && nextId == old(nextId) + 1
    {
      w := Wallet(nextId, userId, data.name, data.walletType, data.balance, data.last4,
                  data.totalLimit, data.billDate, data.dueDate, Some(data.additionalCharges.GetOr(DefaultCharges)));
      rows := rows + [w];
      nextId := nextId + 1;
    }

    /** `get_wallet`: the row with that id only when the caller owns it. */
    method GetWallet(id: nat, userId: nat) returns (r: Option<Wallet>)
      ensures r.Some? ==> r.value in rows && r.value.id == id && r.value.userId == userId
      ensures r.None? <==> forall i :: 0 <= i < |rows| ==> !(rows[i].id == id && rows[i].userId == userId)
    {
      var found := FindFirst(rows, OwnedWithId(id, userId));
      r := if found.Some? then Some(rows[found.value]) else None;
    }

    /** `delete_wallet`: removes the caller's row and answers true; otherwise
        answers false and changes nothing. */
    method DeleteWallet(id: nat, userId: nat) returns (deleted: bool)
      requires Valid()
      modifies this
      ensures Valid() && nextId == old(nextId)
      ensures deleted <==> exists i :: 0 <= i < |old(rows)| && old(rows)[i].id == id && old(rows)[i].userId == userId
      ensures !deleted ==> rows == old(rows)
      ensures deleted ==> exists i :: 0 <= i < |old(rows)| && old(rows)[i].id == id && rows == RemoveAt(old(rows), i)
      ensures deleted ==> forall i :: 0 <= i < |rows| ==> rows[i].id != id
    {
      // the row `get_wallet` finds
      var found := FindFirst(rows, OwnedWithId(id, userId));
      if found.None? {
        return false;
      }
      var i := found.value;
      assert forall j :: 0 <= j < |rows| && j != i ==> rows[j].id != rows[i].id;
      rows := RemoveAt(rows, i);
      deleted := true;
    }
  }
}
