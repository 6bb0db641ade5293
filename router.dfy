/**
 * The title router: the regular expression `^/(edit|save|view)/([a-zA-Z0-9]+)$`
 * matched against a request path, yielding the action (submatch 1) and the
 * title token (submatch 2).
 */
module Router {
  import opened Common
  import opened Ascii

  datatype Action = Edit | Save | View

  /** A successful match: the action keyword and the title token, case preserved. */
  datatype Route = Route(action: Action, title: string)

  function ActionName(a: Action): string
  {
    match a
    case Edit => "edit"
    case Save => "save"
    case View => "view"
  }

  /** The token `[a-zA-Z0-9]+`: non-empty, ASCII letters and digits only. */
  predicate IsTitle(t: string)
  {
    |t| > 0 && forall i :: 0 <= i < |t| ==> IsAlnum(t[i])
  }

  /** The one path the grammar accepts for a route. */
  function PathOf(r: Route): string
  {
    "/" + ActionName(r.action) + "/" + r.title
  }

  /** The alternation `edit|save|view`, case-sensitive. */
  function ParseAction(s: string): (r: Option<Action>)
    ensures r.Some? ==> ActionName(r.value) == s
    ensures r.None? ==> forall a: Action :: ActionName(a) != s
  {
    if s == "edit" then Some(Edit)
    else if s == "save" then Some(Save)
    else if s == "view" then Some(View)
    else None
  }

  /** `valid_path.FindStringSubmatch(path)`: the route when the whole path matches, None otherwise. */
  function Match(path: string): (r: Option<Route>)
    ensures r.Some? ==> PathOf(r.value) == path && IsTitle(r.value.title)
  {
    if |path| < 6 || path[0] != '/' || path[5] != '/' then None
    else
      match ParseAction(path[1..5])
      case None => None
      case Some(a) => if IsTitle(path[6..]) then Some(Route(a, path[6..])) else None
  }

  /** A route's path splits back into its action and its title. */
  lemma PathOfSplits(r: Route)
    ensures |PathOf(r)| == 6 + |r.title|
    ensures PathOf(r)[0] == '/' && PathOf(r)[5] == '/'
    ensures PathOf(r)[1..5] == ActionName(r.action)
    ensures PathOf(r)[6..] == r.title
  {
    var p := PathOf(r);
    assert p == ("/" + ActionName(r.action) + "/") + r.title;
    assert |"/" + ActionName(r.action) + "/"| == 6;
  }

  /** The grammar exactly: a path is accepted as `r` iff it is `/<action>/<title>` with a valid title. */
  lemma MatchExact(path: string, r: Route)
    ensures Match(path) == Some(r) <==> path == PathOf(r) && IsTitle(r.title)
  {
    if path == PathOf(r) && IsTitle(r.title) {
      PathOfSplits(r);
      assert ParseAction(path[1..5]) == Some(r.action);
    }
  }

  /** A title holding any character outside `[a-zA-Z0-9]` (a slash, a dot of `..`) is refused. */
  lemma NonAlnumTitleRejected(a: Action, t: string, i: int)
    requires 0 <= i < |t| && !IsAlnum(t[i])
    ensures Match("/" + ActionName(a) + "/" + t) == None
  {
    var p := "/" + ActionName(a) + "/" + t;
    assert p == PathOf(Route(a, t));
    PathOfSplits(Route(a, t));
    if Match(p).Some? {
      PathOfSplits(Match(p).value);
    }
  }

  /** An empty title and a missing title segment are both refused. */
  lemma MissingTitleRejected(a: Action)
    ensures Match("/" + ActionName(a) + "/") == None
    ensures Match("/" + ActionName(a)) == None
  {
    var p := "/" + ActionName(a) + "/";
    if Match(p).Some? {
      PathOfSplits(Match(p).value);
    }
  }

  /**
   * A path whose first segment is not exactly one of `edit`, `save`, `view`
   * (an upper-case `View`, a longer `views` or `editor`) is refused.
   */
  lemma UnknownActionRejected(path: string)
    requires forall a: Action :: !("/" + ActionName(a) + "/" <= path)
    ensures Match(path) == None
  {
  }

  /** Every path under `/session/` fails the grammar, whatever follows the prefix. */
  lemma SessionPathRejected(path: string)
    requires |path| >= 9 && path[..9] == "/session/"
    ensures Match(path) == None
  {
    assert path[5] == "/session/"[5] == 'i';
  }
}
