/** The authentication middleware (src/middleware/auth.ts): a `Bearer `
    header whose token belongs to a user lets the request through with that
    user's id; anything else is answered 401 and the route is not run. */
module Auth {
  import opened Wrappers
  import opened Strings
  import opened Users

  datatype AuthDecision = Denied(status: int, error: string) | Proceed(userId: int)

  const BearerPrefix: string := "Bearer "

  /** `authHeader.substring(7)`: what follows the prefix. */
  function TokenOf(header: string): (token: string)
    requires IsPrefix(BearerPrefix, header)
    ensures header == BearerPrefix + token
  {
    header[|BearerPrefix|..]
  }

  /** The middleware's decision. The prefix test is case-sensitive, and the
      user id 0, being falsy, is refused like a missing user. */
  function Authenticate(header: Option<string>, users: seq<User>): (d: AuthDecision)
    ensures d.Denied? ==> d == Denied(401, "Access denied")
    ensures d.Proceed? <==> (
      && header.Some? && IsPrefix(BearerPrefix, header.value)
      && GetUserByToken(users, TokenOf(header.value)).Some?
      && GetUserByToken(users, TokenOf(header.value)).value != 0)
    ensures d.Proceed? ==> d.userId == GetUserByToken(users, TokenOf(header.value)).value
  {
    if header.None? || header.value == "" then Denied(401, "Access denied")
    else if !IsPrefix(BearerPrefix, header.value) then Denied(401, "Access denied")
    else
      match GetUserByToken(users, TokenOf(header.value))
      case None => Denied(401, "Access denied")
      case Some(userId) => if userId == 0 then Denied(401, "Access denied") else Proceed(userId)
  }

  /** The token a successful login hands out opens the door for that user. */
  lemma LoginTokenAuthenticates(users: seq<User>, k: nat, token: string)
    requires UniqueUsers(users) && k < |users| && users[k].id != 0
    requires forall i | 0 <= i < |users| :: users[i].token != Some(token)
    ensures Authenticate(Some(BearerPrefix + token), WithToken(users, k, token)) == Proceed(users[k].id)
  {
    WithTokenSpec(users, k, token);
    assert IsPrefix(BearerPrefix, BearerPrefix + token);
    assert TokenOf(BearerPrefix + token) == token by {
      assert (BearerPrefix + token)[|BearerPrefix|..] == token;
    }
  }

  /** A token sent without the exact `Bearer ` prefix is refused, whatever it is. */
  lemma LowerCaseSchemeDenied(users: seq<User>, token: string)
    ensures Authenticate(Some("bearer " + token), users) == Denied(401, "Access denied")
  {
    assert ("bearer " + token)[0] == 'b';
  }

  /** The request as the middleware sees and changes it. */
  class Request {
    var userId: Option<int>
    var response: Option<AuthDecision>
    var nextCalls: nat

    constructor ()
      ensures userId.None? && response.None? && nextCalls == 0
    {
      userId := None;
      response := None;
      nextCalls := 0;
    }
  }

  /** `authMiddleware`: on success it sets the user id and calls `next` once;
      otherwise it answers 401 and neither sets the id nor calls `next`. */
  method AuthMiddleware(req: Request, header: Option<string>, users: seq<User>)
    modifies req
    ensures match Authenticate(header, users)
      case Proceed(id) =>
        req.userId == Some(id) && req.nextCalls == old(req.nextCalls) + 1 && req.response == old(req.response)
      case Denied(_, _) =>
        req.userId == old(req.userId) && req.nextCalls == old(req.nextCalls)
        && req.response == Some(Denied(401, "Access denied"))
  {
    var decision := Authenticate(header, users);
    match decision {
      case Denied(_, _) =>
        req.response := Some(decision);
      case Proceed(id) =>
        req.userId := Some(id);
        req.nextCalls := req.nextCalls + 1;
    }
  }
}
