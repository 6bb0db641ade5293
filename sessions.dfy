/**
 * Sessions and the per-request context: the `user_id` entry of a visitor's
 * session, the `requested_path` slot of a request, and `sessionHandler`.
 */
module Sessions {
  import opened Common
  import opened Http

  const UserId := "user_id"
  const RequestedPath := "requested_path"

  /** `session.Values`: only the presence of `user_id` matters to the core. */
  type Bag = map<string, seq<byte>>

  /**
   * One visitor's session for the duration of a request: `values` is the bag
   * the handlers read and change, `cookie` the bag the visitor's cookie holds,
   * which is what the next request starts from.  Only `Save` writes the cookie.
   */
  class Session {
    var values: Bag
    var cookie: Bag

    /** `store.Get`: the bag decoded from the incoming cookie (empty when none). */
    constructor (incoming: Bag)
      ensures values == incoming && cookie == incoming
    {
      values := incoming;
      cookie := incoming;
    }

    /** The session holds a `user_id` entry. */
    predicate SignedIn()
      reads this
    {
      UserId in values
    }

    /** `session.Save`: the cookie is rewritten from the current bag. */
    method Save()
      modifies this
      ensures values == old(values) && cookie == values
    {
      cookie := values;
    }
  }

  /** The gorilla/context slots of one request (cleared when the request ends). */
  class RequestContext {
    var values: map<string, string>

    constructor ()
      ensures values == map[]
    {
      values := map[];
    }

    /** `context.Set` of one slot. */
    method Set(key: string, value: string)
      modifies this
      ensures values == old(values)[key := value]
    {
      values := values[key := value];
    }

    /** `context.GetOk` of one slot. */
    function GetOk(key: string): Option<string>
      reads this
    {
      if key in values then Some(values[key]) else None
    }
  }

  /**
   * What `sessionHandler` does to the session, from the old state to the
   * current one, with `r` the response it writes:
   *   new:     sign in, save the session, return to the requested path (or "front");
   *   destroy: sign out without saving, go to "/";
   *   other:   not found, nothing changed.
   */
  twostate predicate SessionHandled(sess: Session, ctx: RequestContext, action: string, token: seq<byte>, r: Response)
    reads sess, ctx
  {
    && (action == "new" ==>
          && sess.values == old(sess.values)[UserId := token]
          && sess.cookie == sess.values
          && r == Redirect(if RequestedPath in ctx.values then ctx.values[RequestedPath] else "front"))
    && (action == "destroy" ==>
          && sess.values == old(sess.values) - {UserId}
          && sess.cookie == old(sess.cookie)
          && r == Redirect("/"))
    && (action != "new" && action != "destroy" ==> unchanged(sess) && r == NotFound)
  }

  /**
   * `sessionHandler` on `action`.  The random key of
   * `securecookie.GenerateRandomKey(32)` is the parameter `token`.
   */
  method SessionHandler(sess: Session, ctx: RequestContext, action: string, token: seq<byte>)
    returns (r: Response)
    modifies sess
    ensures SessionHandled(sess, ctx, action, token, r)
    ensures action == "destroy" && UserId !in old(sess.values) ==> sess.values == old(sess.values)
    ensures action == "destroy" && UserId in old(sess.cookie) ==> UserId in sess.cookie
  {
    if action == "new" {
      sess.values := sess.values[UserId := token];
      sess.Save();
      var redirectPath := ctx.GetOk(RequestedPath);
      r := Redirect(if redirectPath.None? then "front" else redirectPath.value);
    } else if action == "destroy" {
      sess.values := sess.values - {UserId};
      r := Redirect("/");
    } else {
      r := NotFound;
    }
  }

  /**
   * `SessionHandler` run with `destroy` on a session whose cookie holds
   * `user_id`: the cookie sent back still holds it, so a session decoded
   * from it is signed in.  Latent: the `/session/` route never reaches the
   * handler (see `Gate.ServeSessionRoute`).
   */
  method SignOutKeepsCookie(token: seq<byte>) returns (next: Session)
    ensures next.SignedIn()
  {
    var sess := new Session(map[UserId := token]);
    var ctx := new RequestContext();
    var r := SessionHandler(sess, ctx, "destroy", token);
    next := new Session(sess.cookie);
  }

  /** The `destroy` branch with the `session.Save` it lacks: the cookie loses `user_id` too. */
  method SignOutSaved(sess: Session) returns (r: Response)
    modifies sess
    ensures sess.values == old(sess.values) - {UserId}
    ensures sess.cookie == sess.values
    ensures UserId !in sess.cookie
    ensures r == Redirect("/")
  {
    sess.values := sess.values - {UserId};
    sess.Save();
    r := Redirect("/");
  }

  /** Through the corrected sign-out, the session the next request decodes is not signed in. */
  method SignOutSavedRevokes(token: seq<byte>) returns (next: Session)
    ensures !next.SignedIn()
  {
    var sess := new Session(map[UserId := token]);
    var r := SignOutSaved(sess);
    next := new Session(sess.cookie);
  }
}
