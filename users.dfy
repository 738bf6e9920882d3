/** Accounts (src/services/user.ts): registration with a lower-cased,
    unique email and a hashed password, login that replaces the user's
    session token, lookup by token, and saved addresses. bcrypt's `hash` and
    `compare` and uuid's `v4` are parameters: `hash` is a function of the
    password (its random salt is not modelled), `compare` is the check of a
    password against a stored hash, and the fresh token is given. */
module Users {
  import opened Wrappers
  import opened Strings
  import opened Orders

  datatype User = User(id: int, name: string, email: string, password: string, token: Option<string>)

  /** What `createUser` returns: no password. */
  datatype PublicUser = PublicUser(id: int, name: string, email: string)

  datatype UserAddress = UserAddress(id: int, userId: int, address: Address)

  ghost predicate UniqueUsers(users: seq<User>) {
    forall i, j | 0 <= i < j < |users| ::
      && users[i].id != users[j].id
      && users[i].email != users[j].email
      && (users[i].token.Some? ==> users[i].token != users[j].token)
  }

  /** `findUnique({ where: { email } })`: the position of the user with that email. */
  function FindByEmail(users: seq<User>, email: string): (r: Option<nat>)
    ensures r.Some? ==> r.value < |users| && users[r.value].email == email
    ensures r.None? <==> forall i | 0 <= i < |users| :: users[i].email != email
  {
    if users == [] then None
    else if users[0].email == email then Some(0)
    else match FindByEmail(users[1..], email)
      case None => None
      case Some(k) => Some(k + 1)
  }

  /** `getUserByToken`: the id of the user holding that token. */
  function GetUserByToken(users: seq<User>, token: string): (r: Option<int>)
    ensures r.None? <==> forall i | 0 <= i < |users| :: users[i].token != Some(token)
    ensures r.Some? ==> exists i | 0 <= i < |users| :: users[i].token == Some(token) && users[i].id == r.value
  {
    if users == [] then None
    else if users[0].token == Some(token) then Some(users[0].id)
    else
      var rest := GetUserByToken(users[1..], token);
      assert forall i | 0 <= i < |users[1..]| :: users[1..][i] == users[i + 1];
      rest
  }

  /** With unique tokens, the lookup finds the one holder of the token. */
  lemma {:induction false} GetUserByTokenAt(users: seq<User>, k: nat)
    requires UniqueUsers(users) && k < |users| && users[k].token.Some?
    ensures GetUserByToken(users, users[k].token.value) == Some(users[k].id)
  {
    if k > 0 {
      assert UniqueUsers(users[1..]) by {
        forall i, j | 0 <= i < j < |users[1..]|
          ensures users[1..][i].id != users[1..][j].id && users[1..][i].email != users[1..][j].email
          ensures users[1..][i].token.Some? ==> users[1..][i].token != users[1..][j].token
        {
          assert users[1..][i] == users[i + 1] && users[1..][j] == users[j + 1];
        }
      }
      assert users[0].token != users[k].token;
      GetUserByTokenAt(users[1..], k - 1);
    }
  }

  /** The users after a successful login of the user at `k`: only that user's
      token changes. */
  function WithToken(users: seq<User>, k: nat, token: string): (r: seq<User>)
    requires k < |users|
    ensures |r| == |users|
  {
    users[k := users[k].(token := Some(token))]
  }

  /** A token nobody holds can be given to one user without breaking uniqueness,
      and afterwards it leads back to that user. */
  lemma WithTokenSpec(users: seq<User>, k: nat, token: string)
    requires UniqueUsers(users) && k < |users|
    requires forall i | 0 <= i < |users| :: users[i].token != Some(token)
    ensures UniqueUsers(WithToken(users, k, token))
    ensures GetUserByToken(WithToken(users, k, token), token) == Some(users[k].id)
    ensures forall i | 0 <= i < |users| && i != k :: WithToken(users, k, token)[i] == users[i]
    ensures var u := WithToken(users, k, token)[k];
      u.id == users[k].id && u.name == users[k].name && u.email == users[k].email && u.password == users[k].password
  {
    GetUserByTokenAt(WithToken(users, k, token), k);
  }

  class UserTable {
    var users: seq<User>
    var addresses: seq<UserAddress>
    var nextUserId: int
    var nextAddressId: int

    ghost predicate Valid()
      reads this
    {
      && UniqueUsers(users)
      && (forall i | 0 <= i < |users| :: users[i].id < nextUserId)
      && (forall i | 0 <= i < |addresses| :: addresses[i].id < nextAddressId)
    }

    constructor ()
      ensures Valid() && users == [] && addresses == []
    {
      users := [];
      addresses := [];
      nextUserId := 1;
      nextAddressId := 1;
    }

    /** `createUser`: a taken (lower-cased) email gives null and adds nothing;
        otherwise a user is stored with the lower-cased email and the hash of
        the password, and its public part is returned. */
    method CreateUser(name: string, email: string, password: string, hash: string -> string)
      returns (r: Option<PublicUser>)
      requires Valid()
      modifies this
      ensures Valid()
      ensures addresses == old(addresses)
      ensures FindByEmail(old(users), Lower(email)).Some? ==> r.None? && users == old(users)
      ensures FindByEmail(old(users), Lower(email)).None? ==>
        && r == Some(PublicUser(old(nextUserId), name, Lower(email)))
        && users == old(users) + [User(old(nextUserId), name, Lower(email), hash(password), None)]
    {
      var emailLower := Lower(email);
      if FindByEmail(users, emailLower).Some? {
        return None;
      }
      var user := User(nextUserId, name, emailLower, hash(password), None);
      users := users + [user];
      nextUserId := nextUserId + 1;
      r := Some(PublicUser(user.id, user.name, user.email));
    }

    /** `loginUser`: an unknown email or a password that does not match gives
        null and changes nothing; otherwise the user's token is replaced by the
        fresh one, which is returned. */
    method LoginUser(email: string, password: string, compare: (string, string) -> bool, freshToken: string)
      returns (r: Option<string>)
      requires Valid()
      requires forall i | 0 <= i < |users| :: users[i].token != Some(freshToken)
      modifies this
      ensures Valid()
      ensures addresses == old(addresses)
      ensures match FindByEmail(old(users), Lower(email))
        case None => r.None? && users == old(users)
        case Some(k) =>
          if compare(password, old(users)[k].password) then r == Some(freshToken) && users == WithToken(old(users), k, freshToken)
          else r.None? && users == old(users)
    {
      var found := FindByEmail(users, Lower(email));
      if found.None? {
        return None;
      }
      var k := found.value;
      if !compare(password, users[k].password) {
        return None;
      }
      WithTokenSpec(users, k, freshToken);
      users := users[k := users[k].(token := Some(freshToken))];
      r := Some(freshToken);
    }

    /** `createAddress`: the address fields stored under the given user. */
    method CreateAddress(userId: int, address: Address) returns (r: UserAddress)
      requires Valid()
      modifies this
      ensures Valid()
      ensures users == old(users)
      ensures r == UserAddress(old(nextAddressId), userId, address)
      ensures addresses == old(addresses) + [r]
    {
      r := UserAddress(nextAddressId, userId, address);
      addresses := addresses + [r];
      nextAddressId := nextAddressId + 1;
    }
  }

  /** Registering twice with the same email in another letter case fails the
      second time, and logging in with any letter case finds the account: the
      lookup and the stored email are both lower-cased. */
  lemma EmailCaseCollides(users: seq<User>, id: int, name: string, email: string, hashed: string, other: string)
    requires Lower(other) == Lower(email)
    ensures FindByEmail(users + [User(id, name, Lower(email), hashed, None)], Lower(other)).Some?
  {
    var all := users + [User(id, name, Lower(email), hashed, None)];
    assert all[|users|].email == Lower(other);
  }
}
