/** The users table: lookup by email, registration with a hashed password, and
    the partial profile update that skips absent values. The password hash is
    an input function; email is unique in the table. */
module UsersCrud {
  import opened Wrappers
  import opened Seqs
  import opened Models

  /** The registration payload; `currency` and `timezone` default on the client model. */
  datatype UserCreate = UserCreate(email: string, name: string, password: string,
                                   currency: Option<string>, timezone: Option<string>)

  /** The keys a profile update may carry. */
  datatype UserField = Name | Currency | Timezone | AvatarUrl

  /** A profile update: key/value pairs in dictionary order; `None` is Python `None`. */
  type UserUpdate = seq<(UserField, Option<string>)>

  datatype CreateError = EmailTaken

  function HasEmail(email: string): User -> bool {
    (u: User) => u.email == email
  }

  /** The first user with that email, as `.first()` picks it. */
  function UserByEmail(rows: seq<User>, email: string): (r: Option<User>)
    ensures r.Some? ==> r.value in rows && r.value.email == email
    ensures r.None? <==> forall i :: 0 <= i < |rows| ==> rows[i].email != email
  {
    var found := FindFirst(rows, HasEmail(email));
    if found.Some? then Some(rows[found.value]) else None
  }

  /** The value of one updatable field. */
  function FieldValue(u: User, f: UserField): Option<string> {
    match f
    case Name => Some(u.name)
    case Currency => u.currency
    case Timezone => u.timezone
    case AvatarUrl => u.avatarUrl
  }

  /** `setattr(user, key, value)` */
  function SetField(u: User, f: UserField, v: string): (r: User)
    ensures FieldValue(r, f) == Some(v)
    ensures forall g :: g != f ==> FieldValue(r, g) == FieldValue(u, g)
    ensures r.id == u.id && r.email == u.email && r.passwordHash == u.passwordHash
  {
    match f
    case Name => u.(name := v)
    case Currency => u.(currency := Some(v))
    case Timezone => u.(timezone := Some(v))
    case AvatarUrl => u.(avatarUrl := Some(v))
  }

  /** The update applied entry by entry, skipping `None` values. */
  function ApplyUpdate(u: User, update: UserUpdate): (r: User)
    ensures r.id == u.id && r.email == u.email && r.passwordHash == u.passwordHash
    decreases update
  {
    if update == [] then u
    else
      var (f, v) := update[0];
      ApplyUpdate(if v.Some? then SetField(u, f, v.value) else u, update[1..])
  }

  /** The last value other than `None` given for `f`, if any. */
  function LastSet(update: UserUpdate, f: UserField): Option<string> {
    if update == [] then None
    else
      var later := LastSet(update[1..], f);
      if later.Some? then later
      else if update[0].0 == f && update[0].1.Some? then update[0].1
      else None
  }

  /** Each field ends with the last non-`None` value given for it, or keeps its
      own value when the update gives it none. */
  lemma {:induction false} UpdateSetsLastGiven(u: User, update: UserUpdate, f: UserField)
    ensures FieldValue(ApplyUpdate(u, update), f) == if LastSet(update, f).Some? then LastSet(update, f) else FieldValue(u, f)
    decreases update
  {
    if update != [] {
      var (g, v) := update[0];
      var next := if v.Some? then SetField(u, g, v.value) else u;
      UpdateSetsLastGiven(next, update[1..], f);
    }
  }

  /** An update whose values are all `None` changes nothing. */
  lemma {:induction false} AllNoneUpdateIsIdentity(u: User, update: UserUpdate)
    requires forall i :: 0 <= i < |update| ==> update[i].1 == None
    ensures ApplyUpdate(u, update) == u
    decreases update
  {
    if update != [] {
      AllNoneUpdateIsIdentity(u, update[1..]);
    }
  }

  class UserTable {
    var rows: seq<User>
    var nextId: nat

    ghost predicate Valid()
      reads this
    {
      (forall i, j :: 0 <= i < j < |rows| ==> rows[i].id != rows[j].id && rows[i].email != rows[j].email)
      && (forall i :: 0 <= i < |rows| ==> rows[i].id < nextId)
    }

    constructor (seed: seq<User>, nextId: nat)
      requires forall i, j :: 0 <= i < j < |seed| ==> seed[i].id != seed[j].id && seed[i].email != seed[j].email
      requires forall i :: 0 <= i < |seed| ==> seed[i].id < nextId
      ensures Valid() && rows == seed && this.nextId == nextId
    {
      rows := seed;
      this.nextId := nextId;
    }

    /** `get_user_by_email` */
    method GetUserByEmail(email: string) returns (r: Option<User>)
      ensures r.Some? ==> r.value in rows && r.value.email == email
      ensures r.None? <==> forall i :: 0 <= i < |rows| ==> rows[i].email != email
      ensures r == UserByEmail(rows, email)
    {
      r := UserByEmail(rows, email);
    }

    /** `create_user`: stores the hash of the password, never the password, and
        copies the other fields; an email already in the table violates its
        unique constraint and nothing is stored. A `None` currency or time zone
        is left out of the insert and takes the column default. */
    method CreateUser(data: UserCreate, hash: string -> string) returns (r: Result<User, CreateError>)
      requires Valid()
      modifies this
      ensures Valid()
      ensures r.Err? <==> exists i :: 0 <= i < |old(rows)| && old(rows)[i].email == data.email
      ensures r.Err? ==> rows == old(rows) && nextId == old(nextId)
      ensures r.Ok? ==> r.value == User(old(nextId), data.email, hash(data.password), data.name,
                                        Some(data.currency.GetOr(DefaultCurrency)),
                                        Some(data.timezone.GetOr(DefaultTimezone)), None)
                        && rows == old(rows) + [r.value] && nextId == old(nextId) + 1
      ensures r.Ok? && data.currency.None? ==> r.value.currency == Some("INR")
      ensures r.Ok? && data.timezone.None? ==> r.value.timezone == Some("UTC")
    {
      var existing := FindFirst(rows, HasEmail(data.email));
      if existing.Some? {
        return Err(EmailTaken);
      }
      var u := User(nextId, data.email, hash(data.password), data.name,
                    Some(data.currency.GetOr(DefaultCurrency)), Some(data.timezone.GetOr(DefaultTimezone)), None);
      rows := rows + [u];
      nextId := nextId + 1;
      r := Ok(u);
    }

    /** `update_user` on the row with id `id`: the loop over the update's
        entries sets each one whose value is not `None`. */
    method UpdateUser(id: nat, update: UserUpdate) returns (u: User)
      requires Valid()
      requires exists i :: 0 <= i < |rows| && rows[i].id == id
      modifies this
      ensures Valid() && nextId == old(nextId)
      ensures exists i :: 0 <= i < |old(rows)| && old(rows)[i].id == id
                          && u == ApplyUpdate(old(rows)[i], update) && rows == old(rows)[i := u]
    {
      var found := FindFirst(rows, (r: User) => r.id == id);
      var i := found.value;
      u := rows[i];
      var k := 0;
      while k < |update|
        invariant 0 <= k <= |update|
        invariant ApplyUpdate(u, update[k..]) == ApplyUpdate(rows[i], update)
        invariant u.id == rows[i].id && u.email == rows[i].email && u.passwordHash == rows[i].passwordHash
      {
        var (f, v) := update[k];
        assert update[k..][1..] == update[k + 1..];
        if v.Some? {
          u := SetField(u, f, v.value);
        }
        k := k + 1;
      }
      assert update[k..] == [];
      rows := rows[i := u];
    }
  }
}
