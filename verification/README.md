# Proxy gateway: route table, auth gate and proxy dispatch

This project models the configuration and authentication core of a
single-host gateway (`server.js`). One login protects a settings API and a
set of reverse proxies to applications on the same machine. It models:

- the **application table**: an ordered list of `{name, port, path}` entries
  that `POST`, `PUT` and `DELETE /api/apps` edit;
- the **auth gate** `requireAuth`, the login and logout transitions of a
  browser session, and the password, username and hostname changes;
- the **proxies** registered at startup: each one's target
  `http://<hostname or localhost>:<port>`, its path rewrite, and which proxy
  serves a request.

Every handler is a pure function. The table operations return a `Result`:
either a refusal, with the table unchanged, or the new table.
`Gateway.Handle` puts them together into one request step that maps a
server (configuration plus startup proxies) and a session to a new server,
a new session and a response. `Gateway.Run` applies a sequence of requests.

Modules: `Wrappers` (Option/Result), `Seqs` (`findIndex`), `Routes` (the
application table), `Auth` (gate, login, credential changes), `Proxy`
(targets, decimal rendering, rewrite, registration, dispatch), `Gateway`
(composition).

These collaborators are parameters of the model rather than code in it:

- `bcrypt.compare` is a `Verifier` function;
- `bcrypt.hash` is the `newPasswordHash` carried by a password-change request;
- Express's mount-path matching is a `MountMatch` function;
- whether `fs.writeFileSync` succeeded is a `WriteOutcome`.

What the source does, in the places where it is easy to misread:

- Proxies are registered in table order (server.js:819). A request goes to
  the first registered proxy whose mount matches it.
- The rewrite is applied to the full request URL, mount path included, and
  turns a request for exactly a route's path into the empty string
  (server.js:823-825).
- Update checks no fields (server.js:770-786). Only add refuses a missing
  name, port or path (server.js:752-754).
- Table changes reach dispatch only after a restart. The proxies are
  registered once, from the table loaded at startup (server.js:819-827).
- A failed login does not touch the session (server.js:113-114). A session
  that was already authenticated stays authenticated after a failed login. A
  fresh session stays anonymous.
- The configuration is written after the in-memory change. If the write
  throws, the change stays and the client gets the write's error
  (server.js:761-766).

## Model

| member | source | states |
|---|---|---|
| `Seqs.FindIndex` | server.js:775 | the result is the first index whose element satisfies the callback, or None exactly when no element does |
| `Routes.IndexOf` | server.js:799 | None exactly when no entry has the path; otherwise the first entry with that path |
| `Routes.Add` | server.js:748-768 | "required" error iff name, port or path is falsy; "path exists" error iff they are all truthy and the path is already in the table; otherwise success, the entry appended at the end, every earlier entry unchanged; path uniqueness preserved |
| `Routes.Update` | server.js:770-793 | "not found" iff no entry has the old path; "path exists" iff the old path is found, the new path differs from it and is already in the table; otherwise exactly the first entry with the old path is replaced by the submitted fields, with the length and every other index unchanged; path uniqueness preserved |
| `Routes.Remove` | server.js:795-812 | "not found" iff the path is absent; otherwise exactly the first entry with the path is spliced out, earlier entries keep their index and later ones shift down by one; with unique paths the path is then absent and uniqueness is preserved |
| `Routes.AddThenRemove` | server.js:757-805 | deleting the path of an entry that was just added gives back the original table |
| `Routes.UpdateWithSameFields` | server.js:775-786 | updating an entry with its own name, port and path leaves the table equal to what it was |
| `Routes.UpdateIsVisible` | server.js:775-786 | in a table with unique paths, after an accepted update the entry found at the new path sits at the old entry's index and holds exactly the submitted fields |
| `Auth.RequireAuth` | server.js:27-32 | a request is admitted iff its session is authenticated; any other request is redirected to `/login` |
| `Auth.Login` | server.js:106-116 | the session is authenticated afterwards iff it already was or the username equals the stored one and the password verifies against the stored hash; on acceptance the browser goes to `/`; otherwise the session is unchanged and the browser goes to the single error page `/login?error=1`, whichever check failed |
| `Auth.Logout` | server.js:118-121 | the resulting session fails the gate, and the browser goes to `/login` |
| `Auth.GateFollowsLogin` | server.js:27-32 | the gate admits the session after a login iff it was already authenticated or the credentials were accepted; it never admits the session after a logout |
| `Auth.ChangePassword` | server.js:696-714 | succeeds iff the current password verifies against the stored hash; on failure the error is "Current password is incorrect"; on success the hash becomes the new one and the username is unchanged |
| `Auth.ChangeUsername` | server.js:716-733 | succeeds iff the password verifies against the stored hash; on failure the error is "Password is incorrect"; on success the username becomes the new one and the hash is unchanged |
| `Auth.LoginAfterPasswordChange` | server.js:700-707 | after a password change, a login is accepted iff it uses the unchanged username and a password that verifies against the new hash |
| `Auth.LoginAfterUsernameChange` | server.js:720-726 | after a username change, a login is accepted iff it uses the new username and a password that was accepted before |
| `Proxy.HostOrLocalhost` | server.js:821 | the host used is never empty: it is `localhost` when the configured hostname is empty, and the configured hostname otherwise |
| `Proxy.HostOrLocalhostIdempotent` | server.js:739 | applying the `localhost` default to a hostname stored by a hostname change gives that stored name back unchanged |
| `Proxy.NatToDecimal` | server.js:821 | a port is rendered as non-empty decimal digits with no leading zero, except for 0 itself |
| `Proxy.NatToDecimalRoundTrip` | server.js:821 | reading the rendered digits back gives the number |
| `Proxy.IntToDecimalRoundTrip` | server.js:821 | the rendering of any integer port, negative ones included, parses back to that integer |
| `Proxy.Target` | server.js:821 | the target starts with `http://`, and splitting it at its last colon gives back exactly the host (the configured hostname or `localhost`) and the route's port |
| `Proxy.Rewrite` | server.js:823-825 | when the route path is a prefix of the request path, the result is what follows that prefix; any other request path is unchanged |
| `Proxy.RewriteStripsPrefix` | server.js:823-825 | rewriting the route path followed by any rest gives the rest; an exact match gives the empty string |
| `Proxy.RegisterAll` | server.js:819-827 | one proxy per startup entry, in table order, mounted at the entry's path, whose target parses to the effective host and the entry's port |
| `Proxy.Dispatch` | server.js:819-820 | the chosen proxy is mounted at the request and no earlier-registered proxy is; None exactly when no proxy is mounted at it |
| `Gateway.Start` | server.js:819-827 | the started server keeps the loaded configuration and has one proxy per loaded entry, with that entry's mount, host and port |
| `Gateway.Handle` | server.js:27-827 | every request keeps the startup proxies and path uniqueness. An anonymous session changes nothing. Its settings requests, and its requests that a startup proxy is mounted at, are redirected to `/login`. Login and logout leave the server unchanged, set the session as the login and logout transitions say, and redirect to the location the login chose or to `/login`. Forwarding and listing change no configuration. The table changes only through an authenticated add, update or delete. An authenticated request sets the table, the credentials or the hostname to what its handler computes, and leaves the rest of the configuration unchanged. Credentials change only after an authenticated request whose password verifies. The hostname changes only through an authenticated hostname request, to the submitted name or `localhost`, and that request answers the restart message when the file was written and the write's error otherwise. A request is proxied exactly when it comes from an authenticated session and a startup proxy is mounted at it; it then goes to the first such proxy, with that proxy's path stripped. A request no startup proxy is mounted at falls through. Listing returns the table and the effective hostname |
| `Gateway.RunKeepsInvariants` | server.js:748-827 | after any sequence of requests, paths are still unique and dispatch still uses the proxies registered at startup |
| `Gateway.AnonymousRunChangesNothing` | server.js:27-32 | a session that never submits a login changes neither the configuration nor itself, whatever it requests |
| `Gateway.AddAppAppends` | server.js:761-764 | an accepted add from an authenticated session appends the entry, reports the restart message and leaves the proxies as they were |
| `Gateway.UpdateAppReplaces` | server.js:786-789 | an accepted update from an authenticated session replaces exactly the entry found at the old path, reports the restart message and leaves the proxies as they were |
| `Gateway.DeleteAppSplices` | server.js:805-808 | an accepted delete from an authenticated session splices out exactly the first entry at the path, reports the restart message and leaves the proxies as they were |
| `Gateway.PasswordChangeStored` | server.js:706-710 | an accepted password change stores the new hash under the unchanged username, leaves the table and hostname alone, and answers a bare success |
| `Gateway.UsernameChangeStored` | server.js:726-729 | an accepted username change stores the new name with the unchanged hash, leaves the table and hostname alone, and answers a bare success |
| `Gateway.RefusedChangeKeepsServer` | server.js:696-803 | a refused add, update, delete, password change or username change leaves the server unchanged and answers with that refusal's message |
| `Gateway.WriteFailureKeepsChange` | server.js:696-812 | a failed configuration write leaves the same in-memory result as a successful one; whenever a successful write would have answered success, including an accepted change that leaves the configuration equal, the client receives the write's error instead, and it does so too whenever the configuration changed |
| `Gateway.RestartAfterHostnameChange` | server.js:735-746 | after a written hostname change and a restart, every proxy's target parses to the submitted hostname (or `localhost` when it was empty) and the entry's port |

## Left out

- HTML rendering of the login, dashboard and settings pages, and the inline browser script. These are presentation only. The browser-side checks (the path pattern, port limits, new/confirm password match) are not enforced by the server, so they are not preconditions here.
- Reading the configuration file at startup, and writing it. The write is only its outcome, `WriteOutcome`.
- bcrypt. Hashing is salted and random and comparison is a foreign library. Both are parameters. Exceptions that bcrypt throws (a missing password, say) are not modelled.
- The run-on-startup toggle (`/api/startup`). It shells out to the host's service manager.
- Express routing and mount matching, express-session storage, http-proxy-middleware forwarding and streaming, and `app.listen`. What http-proxy actually sends for an empty rewritten path is also left out. `Proxy.Rewrite` assumes the path rewrite sees the full original URL, as http-proxy-middleware 2.x arranges (it restores `req.originalUrl`). Under 3.x the middleware sees Express's mount-stripped URL, so `^<path>` would not match. The source does not pin the version. These are library behaviour and network I/O. Mount matching is the `MountMatch` parameter. The `req.session` null guard in `requireAuth` is not modelled, because the session middleware always supplies a session.
- Routes.Add: the port is modelled as the already-parsed number and is falsy when 0. The source tests the raw field before `parseInt`. So a text `"0"` passes its check and is stored as 0, and non-numeric text is stored as NaN. Neither case is modelled.
- Proxy.NatToDecimal: ports are unbounded integers here. In the source a port is a JavaScript number from `parseInt`. It loses precision above 2^53, and a template literal writes it in exponent form from 1e21 on (`1e+21`). Neither is modelled, so `Proxy.Target` agrees with the source only for integer ports below 2^53.
- Gateway.Handle: a field missing from a request body is represented by its falsy value (`""` or 0). In the source, a field missing from an update body is stored as `undefined` (NaN for the port).
- Gateway.Handle: each request is one atomic step. In the source, login and the password and username changes await bcrypt between the check and the write (server.js:110-111, 700-707, 720-726), and Node runs other requests meanwhile. Two password changes that both present the old password can therefore both succeed there, the last write winning; the model checks the second against the first's new hash. Interleaved requests are not modelled.
- `decodeURIComponent` of the `:path` parameter. The model receives the decoded path. A malformed escape throws before the handler's `try`.
- Proxy.Rewrite: the route path is matched as literal text. The source builds a regular expression `^<path>`. A path holding regular-expression metacharacters (`.`, `+`, `(`, ...) can therefore strip a different prefix, or fail to compile. Such paths are not modelled.
- The interactive terminal and the raw TCP tunnel bridges. They are not in this source and are driven by concurrency and I/O.
