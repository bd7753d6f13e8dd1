/**
 * The user rows the driver and auth services read and write. The users table is a sequence
 * in storage order; a lookup by phone number returns the first row with that number.
 */
module Users {
  import opened Wrappers

  datatype UserRole = Rider | Driver | Admin

  datatype User = User(id: string, name: string, phoneNumber: string, roles: seq<UserRole>, isVerified: bool)

  /** `findOne({ where: { phone_number } })`: the position of the first user with this number. */
  function IndexOfPhone(users: seq<User>, phone: string): (r: Option<nat>)
    ensures r.Some? ==> r.value < |users| && users[r.value].phoneNumber == phone
    ensures r.Some? ==> forall i :: 0 <= i < r.value ==> users[i].phoneNumber != phone
    ensures r.None? <==> forall i :: 0 <= i < |users| ==> users[i].phoneNumber != phone
  {
    if users == [] then None
    else if users[0].phoneNumber == phone then Some(0)
    else match IndexOfPhone(users[1..], phone)
      case None => None
      case Some(k) => Some(k + 1)
  }

  /** The ids that are taken. */
  function UserIds(users: seq<User>): set<string>
  {
    set i | 0 <= i < |users| :: users[i].id
  }

  /** No two rows share an id, and no two rows share a phone number (the column is unique). */
  predicate UniqueUsers(users: seq<User>)
  {
    forall i, j :: 0 <= i < j < |users| ==> users[i].id != users[j].id && users[i].phoneNumber != users[j].phoneNumber
  }

  /** Rewriting a row without touching its id or number keeps the rows unique. */
  lemma ReplaceKeepsUnique(users: seq<User>, i: nat, u: User)
    requires UniqueUsers(users) && i < |users|
    requires u.id == users[i].id && u.phoneNumber == users[i].phoneNumber
    ensures UniqueUsers(users[i := u])
  {
  }

  /** Appending a user with a fresh id and an unused number keeps the rows unique. */
  lemma AppendKeepsUnique(users: seq<User>, u: User)
    requires UniqueUsers(users)
    requires u.id !in UserIds(users)
    requires IndexOfPhone(users, u.phoneNumber).None?
    ensures UniqueUsers(users + [u])
  {
    var s := users + [u];
    forall i, j | 0 <= i < j < |s| ensures s[i].id != s[j].id && s[i].phoneNumber != s[j].phoneNumber {
      if j == |users| {
        assert s[i].id in UserIds(users);
      }
    }
  }
}
