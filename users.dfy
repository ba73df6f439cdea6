/**
 * User administration (src/controllers/userController.js): the filtered,
 * paginated listing, lookup, the self-or-admin profile update restricted to
 * three fields, and deletion. The User model is not part of this model: a
 * user is represented by the fields these operations read or write.
 */
module Users {
  import opened Wrappers
  import opened Access
  import Paging

  datatype User = User(firstName: string, lastName: string, email: string, role: string, isActive: bool)

  // ---------------------------------------------------------------------
  // The listing

  /** The `query` object `getAllUsers` builds; a None field is a key it does not set. */
  datatype UserQuery = UserQuery(role: Option<string>, search: Option<string>)

  /** The role equality and the name-or-email search, each only when its parameter is given. */
  ghost predicate IsUserQuery(q: UserQuery, role: Option<string>, search: Option<string>) {
    && q.role == (if Paging.Given(role) then role else None)
    && q.search == (if Paging.Given(search) then search else None)
  }

  /** The query building of `getAllUsers`. */
  method UserListQuery(role: Option<string>, search: Option<string>) returns (q: UserQuery)
    ensures IsUserQuery(q, role, search)
  {
    q := UserQuery(None, None);
    if Paging.Given(role) {
      q := q.(role := role);
    }
    if Paging.Given(search) {
      q := q.(search := search);
    }
  }

  /**
   * Whether `find(query)` selects a user: the `$or` of three case-insensitive
   * regular expressions, each the parameter `matches(pattern, text)`.
   */
  predicate UserSelects(q: UserQuery, u: User, matches: (string, string) -> bool) {
    && (q.role.Some? ==> u.role == q.role.value)
    && (q.search.Some? ==>
          matches(q.search.value, u.firstName) || matches(q.search.value, u.lastName) || matches(q.search.value, u.email))
  }

  /** A listed user has the requested role and matches the search in one of the three fields. */
  lemma UserListingSelectsExactly(q: UserQuery, role: Option<string>, search: Option<string>,
                                  u: User, matches: (string, string) -> bool)
    requires IsUserQuery(q, role, search)
    ensures UserSelects(q, u, matches) <==>
      && (Paging.Given(role) ==> u.role == role.value)
      && (Paging.Given(search) ==>
            matches(search.value, u.firstName) || matches(search.value, u.lastName) || matches(search.value, u.email))
  {
  }

  /** Without parameters every user is listed, in pages of ten. */
  lemma UnfilteredListing(all: seq<User>, q: UserQuery, matches: (string, string) -> bool)
    requires IsUserQuery(q, None, None)
    ensures Paging.List(all, u => UserSelects(q, u, matches), Paging.Requested(None, None)).Success?
    ensures Paging.List(all, u => UserSelects(q, u, matches), Paging.Requested(None, None)).value.total == |all|
  {
    Paging.FilterAll(all, u => UserSelects(q, u, matches));
  }

  // ---------------------------------------------------------------------
  // Lookup, update, delete

  /** `getUserById`: the user, or 404. */
  function FindUser(users: map<UserId, User>, id: UserId): (r: Result<User, Denial>)
    ensures r.Success? <==> id in users
    ensures r.Success? ==> r.value == users[id]
    ensures r.Failure? ==> r.error == NotFound
  {
    if id in users then Success(users[id]) else Failure(NotFound)
  }

  /** The update `updateUser` sends: `firstName`, `lastName` and `email` of the body, nothing else. */
  datatype ProfileUpdate = ProfileUpdate(firstName: Option<string>, lastName: Option<string>, email: Option<string>)

  function Lookup(body: map<string, string>, key: string): Option<string> {
    if key in body then Some(body[key]) else None
  }

  /** The destructuring `{ firstName, lastName, email } = req.body`. */
  function Whitelist(body: map<string, string>): (u: ProfileUpdate)
    ensures u.firstName.Some? <==> "firstName" in body
    ensures u.lastName.Some? <==> "lastName" in body
    ensures u.email.Some? <==> "email" in body
  {
    ProfileUpdate(Lookup(body, "firstName"), Lookup(body, "lastName"), Lookup(body, "email"))
  }

  /** The keys of the body other than the three are ignored. */
  lemma WhitelistIgnoresOtherKeys(body: map<string, string>, key: string, value: string)
    requires key != "firstName" && key != "lastName" && key != "email"
    ensures Whitelist(body[key := value]) == Whitelist(body)
  {
  }

  /** `findByIdAndUpdate` with the three fields: the ones the body leaves undefined are left alone. */
  function Applied(u: User, update: ProfileUpdate): User {
    u.(firstName := update.firstName.GetOr(u.firstName),
       lastName := update.lastName.GetOr(u.lastName),
       email := update.email.GetOr(u.email))
  }

  /** Whether `p` may update the profile `id`: their own, or any as an administrator. */
  predicate MayUpdate(p: Principal, id: UserId) {
    p.userId == id || IsAdmin(p)
  }

  /** `updateUser`: 403 before any lookup, then 404 for a missing user, then the whitelisted update. */
  function UpdatedUser(users: map<UserId, User>, p: Principal, id: UserId, body: map<string, string>)
    : (r: Result<User, Denial>)
    ensures !MayUpdate(p, id) ==> r == Failure(Forbidden)
    ensures MayUpdate(p, id) && id !in users ==> r == Failure(NotFound)
    ensures MayUpdate(p, id) && id in users ==> r.Success?
    ensures r.Success? ==> id in users && r.value.role == users[id].role && r.value.isActive == users[id].isActive
    ensures r.Success? && "firstName" !in body ==> r.value.firstName == users[id].firstName
    ensures r.Success? && "firstName" in body ==> r.value.firstName == body["firstName"]
    ensures r.Success? && "lastName" !in body ==> r.value.lastName == users[id].lastName
    ensures r.Success? && "lastName" in body ==> r.value.lastName == body["lastName"]
    ensures r.Success? && "email" !in body ==> r.value.email == users[id].email
    ensures r.Success? && "email" in body ==> r.value.email == body["email"]
  {
    if p.userId != id && p.role != "admin" then Failure(Forbidden)
    else if id !in users then Failure(NotFound)
    else Success(Applied(users[id], Whitelist(body)))
  }

  /**
   * The refusal of `updateUser` does not depend on the collection: unlike
   * the campaign check, it does not tell an outsider whether a user exists.
   */
  lemma UpdateRefusalHidesExistence(users1: map<UserId, User>, users2: map<UserId, User>,
                                    p: Principal, id: UserId, body: map<string, string>)
    requires !MayUpdate(p, id)
    ensures UpdatedUser(users1, p, id, body) == UpdatedUser(users2, p, id, body)
  {
  }

  /** A body naming only role or activity changes nothing, so no one raises their own role through an update. */
  lemma NoEscalationThroughUpdate(users: map<UserId, User>, p: Principal, id: UserId, role: string, isActive: string)
    requires MayUpdate(p, id) && id in users
    ensures UpdatedUser(users, p, id, map["role" := role, "isActive" := isActive]) == Success(users[id])
  {
  }

  /** The user collection. */
  class UserStore {
    var users: map<UserId, User>

    constructor (users: map<UserId, User>)
      ensures this.users == users
    {
      this.users := users;
    }

    /** `updateUser` against the stored users. */
    method Update(p: Principal, id: UserId, body: map<string, string>) returns (r: Result<User, Denial>)
      modifies this
      ensures r == UpdatedUser(old(users), p, id, body)
      ensures r.Success? ==> users == old(users)[id := r.value]
      ensures r.Failure? ==> users == old(users)
    {
      if p.userId != id && p.role != "admin" {
        return Failure(Forbidden);
      }
      if id !in users {
        return Failure(NotFound);
      }
      var user := Applied(users[id], Whitelist(body));
      users := users[id := user];
      r := Success(user);
    }

    /** `deleteUser`: 404 for a missing user, otherwise the user is removed. */
    method Delete(id: UserId) returns (r: Option<Denial>)
      modifies this
      ensures r.None? <==> id in old(users)
      ensures r.Some? ==> r.value == NotFound && users == old(users)
      ensures r.None? ==> users == old(users) - {id}
    {
      if id !in users {
        return Some(NotFound);
      }
      users := users - {id};
      r := None;
    }
  }
}
