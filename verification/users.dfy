/** The directory of requesters, keyed by chat identity, and its get-or-create
    lookup. */
module Users {
  import opened Songs

  type Directory = map<UserId, User>

  /** A looked-up requester together with the directory after the lookup. */
  datatype Lookup = Lookup(user: User, users: Directory)

  /** Every stored requester is filed under its own id. */
  ghost predicate WellKeyed(users: Directory) {
    forall k :: k in users ==> users[k].id == k
  }

  /** Returns the stored requester for `id`; a newcomer is created with the
      sender's `name` and no search result, and stored. */
  function GetUser(users: Directory, id: UserId, name: string): (r: Lookup)
    ensures id in r.users && r.users[id] == r.user
    ensures r.users.Keys == users.Keys + {id}
    ensures id in users ==> r.user == users[id] && r.users == users
    ensures id !in users ==> r.user == NewUser(id, name) && |r.users| == |users| + 1
    ensures forall k :: k in users && k != id ==> r.users[k] == users[k]
  {
    if id in users then Lookup(users[id], users)
    else
      var u := NewUser(id, name);
      Lookup(u, users[id := u])
  }

  /** A second lookup of the same id returns the same requester, whatever name
      it carries, and leaves the directory alone. */
  lemma GetUserIdempotent(users: Directory, id: UserId, name: string, name': string)
    ensures GetUser(GetUser(users, id, name).users, id, name') == GetUser(users, id, name)
  {
  }

  /** Lookups keep every requester filed under its own id. */
  lemma GetUserKeepsWellKeyed(users: Directory, id: UserId, name: string)
    requires WellKeyed(users)
    ensures WellKeyed(GetUser(users, id, name).users)
    ensures GetUser(users, id, name).user.id == id
  {
  }
}
