/** Product likes (src/controllers/like.ts): the likes table as a set of
    (user id, product id) pairs, which the table's unique key on that pair
    makes it. `toggleLike` removes the pair when present and adds it when
    absent; `checkLike` and `getUserLikes` only read. */
module Likes {
  import opened Wrappers
  import opened JsNumbers
  import opened Products

  type Like = (int, int)

  datatype LikeResponse =
    | LikeError(status: int, error: string)
    | LikeToggled(liked: bool, message: string)
    | LikeChecked(liked: bool)
    | UserLikes(likes: set<int>)

  /** The pair after a toggle. */
  function Toggled(likes: set<Like>, userId: int, productId: int): (r: set<Like>)
    ensures (userId, productId) in r <==> (userId, productId) !in likes
    ensures forall x | x != (userId, productId) :: x in r <==> x in likes
  {
    if (userId, productId) in likes then likes - {(userId, productId)} else likes + {(userId, productId)}
  }

  /** Toggling twice restores the likes. */
  lemma ToggleTwice(likes: set<Like>, userId: int, productId: int)
    ensures Toggled(Toggled(likes, userId, productId), userId, productId) == likes
  {
  }

  /** `if (!userId)`: no user, and the falsy id 0, are refused. */
  predicate SignedIn(userId: Option<int>) {
    userId.Some? && userId.value != 0
  }

  /** The checks `toggleLike` makes before touching the table, in order:
      the signed-in user, a numeric product id, an existing product. */
  function ToggleTarget(rows: seq<Product>, userId: Option<int>, productIdParam: string): (r: Result<Like, LikeResponse>)
    ensures !SignedIn(userId) ==> r == Err(LikeError(401, "Access denied"))
    ensures SignedIn(userId) && ParseInt(productIdParam).None? ==> r == Err(LikeError(400, "Invalid product ID"))
    ensures r.Ok? <==> (
      && SignedIn(userId) && ParseInt(productIdParam).Some?
      && exists i | 0 <= i < |rows| :: rows[i].id == ParseInt(productIdParam).value)
    ensures r.Ok? ==> r.value == (userId.value, ParseInt(productIdParam).value)
    ensures r.Err? && SignedIn(userId) && ParseInt(productIdParam).Some? ==> r == Err(LikeError(404, "Product not found"))
  {
    if !SignedIn(userId) then Err(LikeError(401, "Access denied"))
    else
      match ParseInt(productIdParam)
      case None => Err(LikeError(400, "Invalid product ID"))
      case Some(productId) =>
        if FindProduct(rows, productId).None? then Err(LikeError(404, "Product not found"))
        else Ok((userId.value, productId))
  }

  /** The likes of one user, as a set of product ids. */
  function LikedBy(likes: set<Like>, userId: int): (r: set<int>)
    ensures forall p :: p in r <==> (userId, p) in likes
  {
    set x | x in likes && x.0 == userId :: x.1
  }

  /** A toggle changes the toggling user's likes by exactly that product and
      leaves every other user's likes alone. */
  lemma ToggleChangesOneLike(likes: set<Like>, userId: int, productId: int, other: int)
    ensures LikedBy(Toggled(likes, userId, productId), userId)
      == if productId in LikedBy(likes, userId) then LikedBy(likes, userId) - {productId}
         else LikedBy(likes, userId) + {productId}
    ensures other != userId ==> LikedBy(Toggled(likes, userId, productId), other) == LikedBy(likes, other)
  {
  }

  class LikeTable {
    var likes: set<Like>

    constructor (initial: set<Like>)
      ensures likes == initial
    {
      likes := initial;
    }

    /** `toggleLike`: a refused request changes nothing; otherwise the pair is
        toggled and the reply says whether it is now liked. */
    method ToggleLike(rows: seq<Product>, userId: Option<int>, productIdParam: string) returns (response: LikeResponse)
      modifies this
      ensures match ToggleTarget(rows, userId, productIdParam)
        case Err(refusal) => response == refusal && likes == old(likes)
        case Ok(pair) =>
          && likes == Toggled(old(likes), pair.0, pair.1)
          && (pair in old(likes) ==> response == LikeToggled(false, "Like removed"))
          && (pair !in old(likes) ==> response == LikeToggled(true, "Like added"))
    {
      var target := ToggleTarget(rows, userId, productIdParam);
      if target.Err? {
        return target.error;
      }
      var pair := target.value;
      if pair in likes {
        likes := likes - {pair};
        response := LikeToggled(false, "Like removed");
      } else {
        likes := likes + {pair};
        response := LikeToggled(true, "Like added");
      }
    }

    /** `checkLike`: liked exactly when the pair is stored; the product is not looked up. */
    function CheckLike(userId: Option<int>, productIdParam: string): (response: LikeResponse)
      reads this
      ensures !SignedIn(userId) ==> response == LikeError(401, "Access denied")
      ensures SignedIn(userId) && ParseInt(productIdParam).None? ==> response == LikeError(400, "Invalid product ID")
      ensures SignedIn(userId) && ParseInt(productIdParam).Some? ==>
        response == LikeChecked((userId.value, ParseInt(productIdParam).value) in likes)
    {
      if !SignedIn(userId) then LikeError(401, "Access denied")
      else
        match ParseInt(productIdParam)
        case None => LikeError(400, "Invalid product ID")
        case Some(productId) => LikeChecked((userId.value, productId) in likes)
    }

    /** `getUserLikes`: the product ids the user likes. */
    function GetUserLikes(userId: Option<int>): (response: LikeResponse)
      reads this
      ensures !SignedIn(userId) ==> response == LikeError(401, "Access denied")
      ensures SignedIn(userId) ==> response.UserLikes? && forall p :: p in response.likes <==> (userId.value, p) in likes
    {
      if !SignedIn(userId) then LikeError(401, "Access denied") else UserLikes(LikedBy(likes, userId.value))
    }
  }

  /** After a successful toggle, `checkLike` reports the new state. */
  lemma ToggleThenCheck(table: LikeTable, before: set<Like>, rows: seq<Product>, userId: int, productIdParam: string)
    requires userId != 0
    requires ToggleTarget(rows, Some(userId), productIdParam).Ok?
    requires table.likes == Toggled(before, userId, ParseInt(productIdParam).value)
    ensures table.CheckLike(Some(userId), productIdParam)
      == LikeChecked((userId, ParseInt(productIdParam).value) !in before)
  {
  }
}
