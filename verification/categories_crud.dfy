/** The categories table and its five queries. A user sees their own
    categories and the system ones; only their own can be changed or removed. */
module CategoriesCrud {
  import opened Wrappers
  import opened Seqs
  import opened Models

  /** The fields a client sends for a category. */
  datatype CategoryData = CategoryData(name: string, catType: TransactionType, icon: Option<string>, color: Option<string>)

  predicate VisibleTo(c: Category, userId: nat) {
    c.userId == Some(userId) || c.userId == None
  }

  predicate OwnedBy(c: Category, userId: nat) {
    c.userId == Some(userId)
  }

  function Visible(userId: nat): Category -> bool {
    (c: Category) => VisibleTo(c, userId)
  }

  function VisibleWithId(id: nat, userId: nat): Category -> bool {
    (c: Category) => c.id == id && VisibleTo(c, userId)
  }

  function OwnedWithId(id: nat, userId: nat): Category -> bool {
    (c: Category) => c.id == id && OwnedBy(c, userId)
  }

  /** `setattr` of every payload field; `id` and `user_id` stay. */
  function Overwrite(c: Category, data: CategoryData): (r: Category)
    ensures r.id == c.id && r.userId == c.userId
    ensures r.name == data.name && r.catType == data.catType && r.icon == data.icon && r.color == data.color
  {
    c.(name := data.name, catType := data.catType, icon := data.icon, color := data.color)
  }

  class CategoryTable {
    /** Rows in primary-key order. */
    var rows: seq<Category>
    /** The id the next insert receives. */
    var nextId: nat

    ghost predicate Valid()
      reads this
    {
      (forall i, j :: 0 <= i < j < |rows| ==> rows[i].id != rows[j].id)
      && (forall i :: 0 <= i < |rows| ==> rows[i].id < nextId)
    }

    constructor (seed: seq<Category>, nextId: nat)
      requires forall i, j :: 0 <= i < j < |seed| ==> seed[i].id != seed[j].id
      requires forall i :: 0 <= i < |seed| ==> seed[i].id < nextId
      ensures Valid() && rows == seed && this.nextId == nextId
    {
      rows := seed;
      this.nextId := nextId;
    }

    /** `get_categories`: the caller's categories and the system ones, in table order. */
    method GetCategories(userId: nat) returns (r: seq<Category>)
      ensures forall i :: 0 <= i < |r| ==> r[i] in rows && VisibleTo(r[i], userId)
      ensures forall i :: 0 <= i < |rows| && VisibleTo(rows[i], userId) ==> rows[i] in r
      ensures r == Filter(rows, Visible(userId))
    {
      r := Filter(rows, Visible(userId));
    }

    /** `create_category`: the payload, owned by the caller, under a fresh id. */
    method CreateCategory(data: CategoryData, userId: nat) returns (c: Category)
      requires Valid()
      modifies this
      ensures Valid()
      ensures c == Category(old(nextId), Some(userId), data.name, data.catType, data.icon, data.color)
      ensures rows == old(rows) + [c] && nextId == old(nextId) + 1
    {
      c := Category(nextId, Some(userId), data.name, data.catType, data.icon, data.color);
      rows := rows + [c];
      nextId := nextId + 1;
    }

    /** `get_category`: the row with that id if the caller may see it. */
    method GetCategory(id: nat, userId: nat) returns (r: Option<Category>)
      ensures r.Some? ==> r.value in rows && r.value.id == id && VisibleTo(r.value, userId)
      ensures r.None? <==> forall i :: 0 <= i < |rows| ==> !(rows[i].id == id && VisibleTo(rows[i], userId))
    {
      var found := FindFirst(rows, VisibleWithId(id, userId));
      r := if found.Some? then Some(rows[found.value]) else None;
    }

    /** `update_category`: only the caller's own row changes; a system row, a
        row of another user or a missing id gives `None` and changes nothing. */
    method UpdateCategory(id: nat, data: CategoryData, userId: nat) returns (r: Option<Category>)
      requires Valid()
      modifies this
      ensures Valid() && nextId == old(nextId)
      ensures r.None? <==> forall i :: 0 <= i < |old(rows)| ==> !(old(rows)[i].id == id && OwnedBy(old(rows)[i], userId))
      ensures r.None? ==> rows == old(rows)
      ensures r.Some? ==> exists i :: 0 <= i < |old(rows)| && old(rows)[i].id == id && OwnedBy(old(rows)[i], userId)
                                     && r.value == Overwrite(old(rows)[i], data) && rows == old(rows)[i := r.value]
    {
      var found := FindFirst(rows, OwnedWithId(id, userId));
      if found.None? {
        return None;
      }
      var i := found.value;
      var updated := Overwrite(rows[i], data);
      rows := rows[i := updated];
      r := Some(updated);
    }

    /** `delete_category`: removes the caller's own row and answers true;
        otherwise answers false and changes nothing. */
    method DeleteCategory(id: nat, userId: nat) returns (deleted: bool)
      requires Valid()
      modifies this
      ensures Valid() && nextId == old(nextId)
      ensures deleted <==> exists i :: 0 <= i < |old(rows)| && old(rows)[i].id == id && OwnedBy(old(rows)[i], userId)
      ensures !deleted ==> rows == old(rows)
      ensures deleted ==> exists i :: 0 <= i < |old(rows)| && old(rows)[i].id == id && rows == RemoveAt(old(rows), i)
      ensures forall i :: 0 <= i < |rows| ==> rows[i].id != id || !deleted
    {
      var found := FindFirst(rows, OwnedWithId(id, userId));
      if found.None? {
        return false;
      }
      var i := found.value;
      IdsAreUnique(rows, i);
      rows := RemoveAt(rows, i);
      deleted := true;
    }
  }

  /** With distinct ids, the row at `i` is the only one with its id. */
  lemma IdsAreUnique(rows: seq<Category>, i: nat)
    requires i < |rows|
    requires forall a, b :: 0 <= a < b < |rows| ==> rows[a].id != rows[b].id
    ensures forall j :: 0 <= j < |rows| && j != i ==> rows[j].id != rows[i].id
  {
  }

  /** A system category can never be updated or deleted by any user. */
  lemma SystemRowsAreReadOnly(rows: seq<Category>, id: nat, userId: nat)
    requires forall i, j :: 0 <= i < j < |rows| ==> rows[i].id != rows[j].id
    requires exists i :: 0 <= i < |rows| && rows[i].id == id && rows[i].userId == None
    ensures forall i :: 0 <= i < |rows| ==> !(rows[i].id == id && OwnedBy(rows[i], userId))
  {
  }
}
