/**
 * `makeHandler`: the wrapper that matches the path against the router's
 * grammar, checks the session for `user_id`, and calls the wrapped handler
 * with the title token.
 */
module Gate {
  import opened Common
  import opened Router
  import opened Pages
  import opened Http
  import opened Handlers
  import opened Sessions

  /** The handler function given to `makeHandler`. */
  datatype Handler = ViewPage | EditPage | SavePage | SessionAction

  /**
   * What running handler `fn` on `title` does, from the old state to the
   * current one, with `r` the response it writes.  `form` is the request's
   * `body` form value, `writeOk` the file system's verdict on a write and
   * `token` the fresh random key.
   */
  twostate predicate Ran(fn: Handler, title: string, sess: Session, ctx: RequestContext, dir: PagesDir,
                         form: seq<byte>, writeOk: bool, token: seq<byte>, r: Response)
    reads sess, ctx, dir
  {
    match fn
    case ViewPage =>
      unchanged(sess, dir) && r == ViewHandler(dir, title)
    case EditPage =>
      unchanged(sess, dir) && r == EditHandler(dir, title)
    case SavePage =>
      && unchanged(sess)
      && (if writeOk then dir.files == Store(old(dir.files), Page(title, form)) && r == Redirect("/view/" + title)
          else dir.files == old(dir.files) && r == ServerError)
    case SessionAction =>
      unchanged(dir) && SessionHandled(sess, ctx, title, token, r)
  }

  /** The call of the wrapped handler on the title token. */
  method Dispatch(fn: Handler, title: string, sess: Session, ctx: RequestContext, dir: PagesDir,
                  form: seq<byte>, writeOk: bool, token: seq<byte>)
    returns (r: Response)
    modifies sess, dir
    ensures Ran(fn, title, sess, ctx, dir, form, writeOk, token, r)
  {
    match fn
    case ViewPage => r := ViewHandler(dir, title);
    case EditPage => r := EditHandler(dir, title);
    case SavePage => r := SaveHandler(dir, title, form, writeOk);
    case SessionAction => r := SessionHandler(sess, ctx, title, token);
  }

  /**
   * The handler `makeHandler(fn)` serving a request for `path`, as written:
   * a path outside the grammar is answered "not found" before anything else
   * is touched; a visitor without `user_id` has the path recorded and is
   * redirected to `/login`, and the wrapped handler then runs all the same.
   * `out` lists the responses written, in order.
   */
  method Serve(fn: Handler, path: string, sess: Session, ctx: RequestContext, dir: PagesDir,
               form: seq<byte>, writeOk: bool, token: seq<byte>)
    returns (out: seq<Response>)
    modifies sess, ctx, dir
    ensures Match(path).None? ==> out == [NotFound] && unchanged(sess, ctx, dir)
    ensures Match(path).Some? && old(sess.SignedIn()) ==>
      && |out| == 1
      && ctx.values == old(ctx.values)
      && Ran(fn, Match(path).value.title, sess, ctx, dir, form, writeOk, token, out[0])
    ensures Match(path).Some? && !old(sess.SignedIn()) ==>
      && |out| == 2
      && out[0] == Redirect("/login")
      && ctx.values == old(ctx.values)[RequestedPath := path]
      && Ran(fn, Match(path).value.title, sess, ctx, dir, form, writeOk, token, out[1])
  {
    var m := Match(path);
    if m.None? {
      return [NotFound];
    }
    out := [];
    if !sess.SignedIn() {
      ctx.Set(RequestedPath, path);
      out := out + [Redirect("/login")];
    }
    var r := Dispatch(fn, m.value.title, sess, ctx, dir, form, writeOk, token);
    out := out + [r];
  }

  /**
   * The gate with the `return` after the login redirect that `Serve` lacks:
   * a visitor without `user_id` gets only the redirect, and neither the
   * session nor the pages change.
   */
  method ServeGuarded(fn: Handler, path: string, sess: Session, ctx: RequestContext, dir: PagesDir,
                      form: seq<byte>, writeOk: bool, token: seq<byte>)
    returns (out: seq<Response>)
    modifies sess, ctx, dir
    ensures Match(path).None? ==> out == [NotFound] && unchanged(sess, ctx, dir)
    ensures Match(path).Some? && old(sess.SignedIn()) ==>
      && |out| == 1
      && ctx.values == old(ctx.values)
      && Ran(fn, Match(path).value.title, sess, ctx, dir, form, writeOk, token, out[0])
    ensures Match(path).Some? && !old(sess.SignedIn()) ==>
      && out == [Redirect("/login")]
      && ctx.values == old(ctx.values)[RequestedPath := path]
      && unchanged(sess, dir)
  {
    var m := Match(path);
    if m.None? {
      return [NotFound];
    }
    if !sess.SignedIn() {
      ctx.Set(RequestedPath, path);
      return [Redirect("/login")];
    }
    var r := Dispatch(fn, m.value.title, sess, ctx, dir, form, writeOk, token);
    out := [r];
  }

  /**
   * `makeHandler(sessionHandler)` is registered for `/session/`, but no such
   * path passes the grammar: the request is answered "not found" and the
   * session handler never runs.
   */
  method ServeSessionRoute(path: string, sess: Session, ctx: RequestContext, dir: PagesDir, token: seq<byte>)
    returns (out: seq<Response>)
    requires |path| >= 9 && path[..9] == "/session/"
    modifies sess, ctx, dir
    ensures out == [NotFound] && unchanged(sess, ctx, dir)
  {
    SessionPathRejected(path);
    out := Serve(SessionAction, path, sess, ctx, dir, [], true, token);
  }

  /**
   * A visitor with no session posts to `/save/Home`: the response starts
   * with the redirect to `/login`, yet the page is written.
   */
  method AnonymousSaveWrites() returns (dir: PagesDir, out: seq<Response>)
    ensures out == [Redirect("/login"), Redirect("/view/Home")]
    ensures dir.files == map[Key("Home") := [104, 105]]
  {
    dir := new PagesDir(map[]);
    var sess := new Session(map[]);
    var ctx := new RequestContext();
    MatchExact("/save/Home", Route(Save, "Home"));
    assert IsTitle("Home");
    assert !sess.SignedIn();
    out := Serve(SavePage, "/save/Home", sess, ctx, dir, [104, 105], true, []);
    assert out[1] == Redirect("/view/Home");
  }

  /** The same request through the corrected gate: only the redirect, and no page is written. */
  method AnonymousSaveBlocked() returns (dir: PagesDir, out: seq<Response>)
    ensures out == [Redirect("/login")]
    ensures dir.files == map[]
  {
    dir := new PagesDir(map[]);
    var sess := new Session(map[]);
    var ctx := new RequestContext();
    MatchExact("/save/Home", Route(Save, "Home"));
    assert IsTitle("Home");
    out := ServeGuarded(SavePage, "/save/Home", sess, ctx, dir, [104, 105], true, []);
  }
}
