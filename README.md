# Wiki page gate and store, modelled in Dafny

A model of the request-handling core of a small Go wiki (`wiki.go`): the
title router (`valid_path`), the page store (`Page.save`, `loadPage`), the
three page handlers (`viewHandler`, `editHandler`, `saveHandler`), the
session handler (`sessionHandler`) and the gating wrapper (`makeHandler`).

- `Router.Match` is the regular expression `^/(edit|save|view)/([a-zA-Z0-9]+)$`
  as a function from a path to an optional `(action, title)` route.
- The `pages/` directory is a `map` from file name to bytes in the class
  `Pages.PagesDir`. A page is stored in `"pages/" + ToLower(title) + ".txt"`.
  `Lookup` and `Store` are the value-level meaning of a load and a save, and
  the lemmas about the store are stated on them.
- Each handler's response is a `Http.Response`: a template render with its
  page, a redirect, a server error or not-found. View and edit only read the
  directory, so they are functions. Save changes it, so it is a method.
- A visitor's session is a `Sessions.Session` object. Its `values` field is
  the bag the request sees. Its `cookie` field is what the visitor's cookie
  holds, and only `Save` writes it. The per-request `requested_path` slot is
  a `Sessions.RequestContext`.
- `Gate.Serve` is `makeHandler(fn)` serving one request. It returns the
  responses written, in order.

The model follows the code as written in these places:

- **The gate fails open.** With no `user_id`, the gate records the path and
  writes the redirect to `/login`, and then it still runs the wrapped
  handler (wiki.go:126-131). `Gate.Serve` does exactly that. The corrected
  gate is `Gate.ServeGuarded` (see Findings).
- **The session route is unreachable.** `/session/` is registered through
  `makeHandler` (wiki.go:159). But no `/session/...` path passes the grammar,
  so `sessionHandler` never runs through that route
  (`Router.SessionPathRejected`, `Gate.ServeSessionRoute`).
- **Default redirect after sign-in.** When no `requested_path` was recorded,
  the redirect goes to the literal `"front"` (wiki.go:106), not to `/`.
- **Sign-out is not saved.** The `destroy` branch removes `user_id` from the
  session but never calls `session.Save` (wiki.go:110-111). So the cookie
  the visitor holds keeps its `user_id`. The next request would still be
  signed in if the `/session/` route reached the handler. Because it does
  not (wiki.go:159), the defect is latent. `Sessions.SessionHandler` states
  this in its postconditions. The corrected sign-out is
  `Sessions.SignOutSaved` (see Findings).

Inputs that the code gets from the world are parameters:

- `writeOk`: the file system's verdict on a write.
- `token`: the fresh random key from `securecookie.GenerateRandomKey(32)`.
- `form`: the request's `body` form value, as bytes.
- The incoming session bag: given to the `Session` constructor.

## Model

| member | source | states |
|---|---|---|
| `Ascii.ToLower` | wiki.go:39 | the lower-cased title has the same length, and each character is the ASCII lower-case form of the character at the same position |
| `Ascii.ToLowerResult` | wiki.go:44 | after lower-casing, no upper-case letter is left; a character is a letter or digit before exactly when it is after; characters that were not upper-case are kept |
| `Ascii.ToLowerIdempotent` | wiki.go:44 | lower-casing an already lower-cased title changes nothing |
| `Router.ParseAction` | wiki.go:33 | the alternation `edit\|save\|view` is case-sensitive: a recognised keyword is exactly that action's name, and a refused one is the name of no action |
| `Router.Match` | wiki.go:33 | an accepted path is exactly `/<action>/<title>` of the route returned, and the title is non-empty ASCII letters and digits |
| `Router.PathOfSplits` | wiki.go:119 | a route's path splits back into `/`, the 4-letter action, `/` and the title token, which is submatch 2 |
| `Router.MatchExact` | wiki.go:33 | both directions: the path matches as route `r` iff it equals `/<action>/<title>` of `r` and the title is valid; the title comes back with its case preserved |
| `Router.NonAlnumTitleRejected` | wiki.go:33 | a title holding any character outside `[a-zA-Z0-9]`, such as a slash or the dots of `..`, is refused |
| `Router.MissingTitleRejected` | wiki.go:33 | `/<action>/` with an empty title and `/<action>` with no title segment are both refused |
| `Router.UnknownActionRejected` | wiki.go:33 | a path that does not start with `/edit/`, `/save/` or `/view/` is refused; this covers an upper-case `View` and longer first segments such as `views` or `editor` |
| `Router.SessionPathRejected` | wiki.go:159 | every path starting with `/session/` fails the grammar |
| `Pages.KeyInjective` | wiki.go:38-44 | two titles name the same file iff their lower-case forms are equal; the file name is `Pages.Key`, `"pages/" + ToLower(title) + ".txt"` (wiki.go:39 and wiki.go:44) |
| `Pages.Lookup` | wiki.go:43-50 | `loadPage`: a load fails exactly when the title's file is absent; on success the page carries the title as passed in, not lower-cased, and exactly the bytes stored in the file; the handlers read the directory through it |
| `Pages.LoadAfterSave` | wiki.go:38-50 | round trip: after saving body `B` under `T`, loading any `T'` with the same lower-case form returns `B` under the title `T'` |
| `Pages.SaveIsolated` | wiki.go:38-41 | `Pages.Store` is the directory after the write of wiki.go:40; saving a page leaves the load result of every title with a different lower-case form unchanged |
| `Pages.SaveOverwrites` | wiki.go:38-41 | a save adds only the page's own file, replaces its contents wholesale with the new body, and keeps every other file's contents |
| `Pages.SaveIdempotent` | wiki.go:38-41 | saving the same page twice leaves the same directory as saving it once |
| `Pages.CaseVariantsCollide` | wiki.go:43-45 | titles that differ only in letter case either both fail to load or both load the same body |
| `Pages.PagesDir.Save` | wiki.go:38-41 | an accepted write replaces the page's file and leaves all other files alone; a refused write changes nothing and is reported as an error |
| `Handlers.ViewHandler` | wiki.go:67-74 | a missing page gives a redirect to `/edit/<title>` with nothing rendered; an existing page renders the `view` template with the title and the stored body |
| `Handlers.EditHandler` | wiki.go:76-82 | always renders the `edit` template for the title, never an error; the body is the stored one, or empty when the page is missing |
| `Handlers.SaveHandler` | wiki.go:84-93 | a successful write stores the form body under the title and redirects to `/view/<title>`; a failed write gives a server error, no redirect, and no change to the store |
| `Handlers.ViewAfterSave` | wiki.go:67-93 | after a successful save, viewing that page in any letter case renders the saved body |
| `Sessions.Session.constructor` | wiki.go:99 | the session bag and the cookie both start as the bag decoded from the incoming cookie |
| `Sessions.Session.Save` | wiki.go:103 | saving rewrites the cookie from the current bag and leaves the bag as it is |
| `Sessions.RequestContext.Set` | wiki.go:127 | setting a slot changes that slot only |
| `Sessions.SessionHandler` | wiki.go:95-115 | through the two-state predicate `Sessions.SessionHandled`: `new` stores the token as `user_id`, saves, and redirects to `requested_path` (the lookup `Sessions.RequestContext.GetOk` of wiki.go:104) or to `"front"`; `destroy` removes `user_id`, changes nothing when it was already absent, does not save (so the cookie keeps it), and redirects to `/`; any other action is not found and changes nothing |
| `Gate.Dispatch` | wiki.go:131 | calling the wrapped handler with the title does what that handler does, and nothing else (the two-state predicate `Gate.Ran`) |
| `Gate.Serve` | wiki.go:117-133 | a path outside the grammar gets only a not-found response and changes nothing; a signed-in visitor (`Sessions.Session.SignedIn`, the test of wiki.go:126) gets just the handler's response; a visitor without `user_id` has `requested_path` set to the path, is redirected to `/login`, and the handler still runs afterwards on the title |
| `Gate.ServeSessionRoute` | wiki.go:159 | a request for any `/session/...` path through the wrapped session handler gets only a not-found response and changes no session, context slot or page |
| `Gate.AnonymousSaveWrites` | wiki.go:125-131 | a visitor with no session who posts to `/save/Home` gets a redirect to `/login` followed by one to `/view/Home`, and the page is written |
| `Gate.ServeGuarded` | wiki.go:125-131 | corrected gate: a visitor without `user_id` gets only the redirect to `/login`, with the path recorded and neither the session nor the pages changed; otherwise it behaves like `Serve` |
| `Gate.AnonymousSaveBlocked` | wiki.go:125-131 | through the corrected gate, the same anonymous save gets only the redirect, and no page is written |
| `Sessions.SignOutKeepsCookie` | wiki.go:109-111 | the handler run with `destroy` on a session whose cookie holds `user_id` sends back a cookie that still decodes to a signed-in session (latent: the route never reaches the handler) |
| `Sessions.SignOutSaved` | wiki.go:109-111 | corrected sign-out: `user_id` is removed, the session is saved, so the cookie no longer holds `user_id`, and the visitor is redirected to `/` |
| `Sessions.SignOutSavedRevokes` | wiki.go:109-111 | after the corrected sign-out, the session the next request decodes from the cookie is not signed in |

## Findings

| source | as written | input that shows it | evidently intended | confidence | as-written member | corrected member |
|---|---|---|---|---|---|---|
| wiki.go:126-131 | after the redirect to `/login` for a visitor without `user_id`, there is no `return`, so the wrapped handler runs anyway | a request with no session for `/save/Home` with body `hi`: the responses are `Redirect("/login")` and then `Redirect("/view/Home")`, and `pages/home.txt` is written | stop after the login redirect | not executed | `Gate.AnonymousSaveWrites` (on `Gate.Serve`) | `Gate.ServeGuarded` |
| wiki.go:109-111 | the `destroy` branch deletes `user_id` but never calls `session.Save`, so the visitor's cookie keeps `user_id` | `sessionHandler` called with action `destroy` on a session whose cookie holds `user_id`: the cookie sent back still holds `user_id`, so a session decoded from it is signed in; latent, because the `/session/` route registered at wiki.go:159 never reaches the handler | save the session after deleting `user_id`, so that signing out ends the session | not executed | `Sessions.SignOutKeepsCookie` (on `Sessions.SessionHandler`) | `Sessions.SignOutSaved` |

## Left out

- Template parsing and rendering (`templates`, `renderTemplate`): a response records only the template name and the page. The HTML is not modelled, and neither is the server error a failed render would write.
- `frontHandler` and `loginHandler`: each only renders a fixed template with no page. They are outside the gated core.
- HTTP transport: status codes, headers and the error text of `http.Error` are not modelled. Neither is the "superfluous WriteHeader" handling when the fail-open gate writes two responses: `Gate.Serve` lists both writes in order.
- `http.Redirect` resolves a location without a leading `/` against the request path, so `"front"` is resolved relative to `/session/...`. The model keeps the location as the code passes it.
- `http.ServeMux` dispatch (`http.HandleFunc`, `main`), including its path cleaning and longest-prefix choice. The `/session/` registration enters only as the precondition of `Gate.ServeSessionRoute`.
- Real file I/O: a read that fails for a reason other than a missing file, the 0600 permission, partial writes, and how the operating system interprets the file name (titles that reach the store through the router are letters and digits only).
- Ascii.ToLower: lower-cases ASCII letters only, while Go's `strings.ToLower` also lower-cases other Unicode letters. Routed titles are ASCII letters and digits, so the two agree on every title the router lets through.
- Cookie cryptography and encoding (`sessions.NewCookieStore`, `securecookie`). An error from `store.Get` is discarded by the code and gives an empty session, which the model expresses by passing that bag to the `Session` constructor. The ignored error of `session.Save` is not modelled.
- `securecookie.GenerateRandomKey` is the parameter `token`. Its nil result when the random source fails is not modelled separately: a present `user_id` is what counts either way.
- Request form parsing (`r.FormValue`): the `body` value arrives as the byte parameter `form`.
- The card, SQLite and gorp layer (`newCard`, `initDb`, `checkErr`, `dbmap`): not part of the page logic.
- Concurrency between requests, including the last-write-wins race on one page, and `context.ClearHandler`: the model serves one request at a time, with a fresh `RequestContext` per request.
