/** The server as a whole: the configuration the settings API edits, the set of
    proxies fixed when the server started, and one request handled as a pure
    step from (server, session) to (server, session, response). */
module Gateway {
  import opened Wrappers
  import opened Routes
  import opened Auth
  import opened Proxy

  /** The in-memory configuration: the stored login, the hostname proxy
      targets are built from (empty when unset) and the application table. */
  datatype Config = Config(credentials: Credentials, hostname: string, apps: seq<App>)

  /** A running server: the configuration it edits and the proxies it
      registered when it started. */
  datatype Server = Server(config: Config, proxies: seq<ProxyRoute>)

  /** Starting the server registers one proxy per entry of the loaded table. */
  function Start(config: Config): (s: Server)
    ensures s.config == config
    ensures |s.proxies| == |config.apps|
    ensures forall i :: 0 <= i < |config.apps| ==> s.proxies[i].mount == config.apps[i].path
    ensures forall i :: 0 <= i < |config.apps| ==>
      ParseTarget(s.proxies[i].target) == Some((HostOrLocalhost(config.hostname), config.apps[i].port))
  {
    Server(config, RegisterAll(config.hostname, config.apps))
  }

  /** The requests the gateway answers. A field missing from a request body is
      represented by its falsy value; `newPasswordHash` is the hashing
      library's answer for the submitted new password. `Forward(url)` stands
      only for a URL that none of the routes registered before the proxies
      claims (`/`, `/login`, `/logout` and the `/api/...` endpoints): Express
      answers those first, so they are modelled by the other requests. */
  datatype Request =
    | SubmitLogin(username: string, password: string)
    | SignOut
    | ChangePasswordRequest(currentPassword: string, newPasswordHash: string)
    | ChangeUsernameRequest(newUsername: string, password: string)
    | ChangeHostnameRequest(hostname: string)
    | AddApp(name: string, port: int, path: string)
    | UpdateApp(oldPath: string, name: string, port: int, newPath: string)
    | DeleteApp(path: string)
    | ListApps
    | Forward(url: string)
  {
    /** Requests that pass through `requireAuth` before their handler runs. */
    predicate IsSettings() {
      !(SubmitLogin? || SignOut? || Forward?)
    }
  }

  /** What the client receives. */
  datatype Response =
    | Redirect(location: string)
    | Succeeded(message: Option<string>)
    | Failed(error: string)
    | AppList(apps: seq<App>, hostname: string)
    | Proxied(target: string, path: string)
    | NoRoute

  /** Whether `fs.writeFileSync` of the configuration succeeded, and if not, its error message. */
  datatype WriteOutcome = Written | WriteFailed(message: string)

  /** The collaborators a request consults: the password check and Express's mount matching. */
  datatype Env = Env(verify: Verifier, mounted: MountMatch)

  datatype Outcome = Outcome(server: Server, session: Session, response: Response)

  const AppAdded := "App added. Please restart the server for changes to take effect."
  const AppUpdated := "App updated. Please restart the server for changes to take effect."
  const AppRemoved := "App removed. Please restart the server for changes to take effect."
  const HostnameUpdated := "Hostname updated. Please restart the server for changes to take effect."

  /** A handler that changed the configuration and then wrote it out: the
      in-memory change stands even when the write fails, and the write's error
      is what the client is told. */
  function Saved(server: Server, config: Config, session: Session, write: WriteOutcome, message: Option<string>)
    : (out: Outcome)
  {
    Outcome(server.(config := config), session,
            if write.Written? then Succeeded(message) else Failed(write.message))
  }

  /** The table mutations: a refusal changes nothing and reports its message. */
  function ApplyTableChange(server: Server, session: Session, r: Result<seq<App>, AppError>,
                            write: WriteOutcome, message: string): Outcome
  {
    match r
    case Err(e) => Outcome(server, session, Failed(Message(e)))
    case Ok(apps) => Saved(server, server.config.(apps := apps), session, write, Some(message))
  }

  /** The credential changes: a refusal changes nothing and reports its message. */
  function ApplyCredentialChange(server: Server, session: Session, r: Result<Credentials, string>,
                                 write: WriteOutcome): Outcome
  {
    match r
    case Err(e) => Outcome(server, session, Failed(e))
    case Ok(c) => Saved(server, server.config.(credentials := c), session, write, None)
  }

  /** The settings handlers, reached only through `requireAuth`. */
  function HandleSettings(env: Env, server: Server, session: Session, req: Request, write: WriteOutcome): Outcome
    requires req.IsSettings()
  {
    var config := server.config;
    match req
    case ChangePasswordRequest(current, newHash) =>
      ApplyCredentialChange(server, session, ChangePassword(env.verify, config.credentials, current, newHash), write)
    case ChangeUsernameRequest(newUsername, password) =>
      ApplyCredentialChange(server, session, ChangeUsername(env.verify, config.credentials, newUsername, password), write)
    case ChangeHostnameRequest(hostname) =>
      Saved(server, config.(hostname := HostOrLocalhost(hostname)), session, write, Some(HostnameUpdated))
    case AddApp(name, port, path) =>
      ApplyTableChange(server, session, Add(config.apps, name, port, path), write, AppAdded)
    case UpdateApp(oldPath, name, port, newPath) =>
      ApplyTableChange(server, session, Update(config.apps, oldPath, name, port, newPath), write, AppUpdated)
    case DeleteApp(path) =>
      ApplyTableChange(server, session, Remove(config.apps, path), write, AppRemoved)
    case ListApps =>
      Outcome(server, session, AppList(config.apps, HostOrLocalhost(config.hostname)))
  }

  /** One request. Login and logout are open to everyone; the settings API
      passes `requireAuth` first; any other URL goes to the first startup proxy
      whose mount matches it, again behind `requireAuth`, and to no handler of
      this model when none matches. `write` is consulted only by handlers that
      write the configuration file. */
  function Handle(env: Env, server: Server, session: Session, req: Request, write: WriteOutcome): (out: Outcome)
    // The proxies are the ones registered at startup, whatever the request.
    ensures out.server.proxies == server.proxies
    // Every request keeps the table's paths unique.
    ensures UniquePaths(server.config.apps) ==> UniquePaths(out.server.config.apps)
    // An anonymous session reaches no handler: nothing changes and it is sent to log in.
    ensures !session.authenticated && (req.IsSettings() || req.Forward?) ==>
      out.server == server && out.session == session
    ensures !session.authenticated && req.IsSettings() ==> out.response == Redirect(LoginPage)
    ensures !session.authenticated && req.Forward? && Dispatch(server.proxies, env.mounted, req.url).Some? ==>
      out.response == Redirect(LoginPage)
    // The stored login changes only through an authenticated request that presented a verifying password.
    ensures out.server.config.credentials != server.config.credentials ==>
      && session.authenticated
      && ((req.ChangePasswordRequest? && env.verify(req.currentPassword, server.config.credentials.passwordHash))
          || (req.ChangeUsernameRequest? && env.verify(req.password, server.config.credentials.passwordHash)))
    // The hostname changes only through an authenticated hostname request, to the submitted name or `localhost`.
    ensures out.server.config.hostname != server.config.hostname ==>
      && session.authenticated && req.ChangeHostnameRequest?
      && out.server.config.hostname == HostOrLocalhost(req.hostname)
    // A URL no startup proxy is mounted at falls through, whoever asks.
    ensures req.Forward? ==> (out.response == NoRoute <==> Dispatch(server.proxies, env.mounted, req.url).None?)
    // Listing shows the current table and the effective hostname.
    ensures req.ListApps? && session.authenticated ==>
      out.response == AppList(server.config.apps, HostOrLocalhost(server.config.hostname))
    // Login and logout touch only the session, as the login and logout transitions say.
    ensures req.SubmitLogin? ==>
      && out.server == server
      && out.session == Login(env.verify, server.config.credentials, session, req.username, req.password).session
    ensures req.SubmitLogin? ==>
      out.response == Redirect(Login(env.verify, server.config.credentials, session, req.username, req.password).location)
    ensures req.SignOut? ==> out.server == server && !out.session.authenticated
    ensures req.SignOut? ==> out.response == Redirect(LoginPage)
    // Forwarding and listing change no configuration.
    ensures req.Forward? || req.ListApps? ==> out.server == server
    // The table changes only through an authenticated add, update or delete.
    ensures out.server.config.apps != server.config.apps ==>
      session.authenticated && (req.AddApp? || req.UpdateApp? || req.DeleteApp?)
    // An authenticated request sets exactly the part of the configuration it is about, and nothing else.
    ensures session.authenticated && req.AddApp? ==>
      out.server.config == server.config.(apps := Add(server.config.apps, req.name, req.port, req.path).GetOr(server.config.apps))
    ensures session.authenticated && req.UpdateApp? ==>
      out.server.config == server.config.(apps :=
        Update(server.config.apps, req.oldPath, req.name, req.port, req.newPath).GetOr(server.config.apps))
    ensures session.authenticated && req.DeleteApp? ==>
      out.server.config == server.config.(apps := Remove(server.config.apps, req.path).GetOr(server.config.apps))
    ensures session.authenticated && req.ChangePasswordRequest? ==>
      var c := server.config.credentials;
      out.server.config == server.config.(credentials :=
        ChangePassword(env.verify, c, req.currentPassword, req.newPasswordHash).GetOr(c))
    ensures session.authenticated && req.ChangeUsernameRequest? ==>
      var c := server.config.credentials;
      out.server.config == server.config.(credentials :=
        ChangeUsername(env.verify, c, req.newUsername, req.password).GetOr(c))
    ensures session.authenticated && req.ChangeHostnameRequest? ==>
      out.server.config == server.config.(hostname := HostOrLocalhost(req.hostname))
    ensures session.authenticated && req.ChangeHostnameRequest? ==>
      out.response == if write.Written? then Succeeded(Some(HostnameUpdated)) else Failed(write.message)
    // Only login and logout touch the session.
    ensures !(req.SubmitLogin? || req.SignOut?) ==> out.session == session
    // A forwarded request goes to the first matching startup proxy, with that proxy's path stripped.
    ensures out.response.Proxied? ==>
      && session.authenticated && req.Forward?
      && var i := Dispatch(server.proxies, env.mounted, req.url);
      && i.Some?
      && out.response == Proxied(server.proxies[i.value].target, Rewrite(server.proxies[i.value].mount, req.url))
    // An authenticated request that a startup proxy is mounted at is proxied by the first such proxy.
    ensures session.authenticated && req.Forward? && Dispatch(server.proxies, env.mounted, req.url).Some? ==>
      var i := Dispatch(server.proxies, env.mounted, req.url).value;
      out.response == Proxied(server.proxies[i].target, Rewrite(server.proxies[i].mount, req.url))
  {
    match req
    case SubmitLogin(username, password) =>
      var r := Login(env.verify, server.config.credentials, session, username, password);
      Outcome(server, r.session, Redirect(r.location))
    case SignOut =>
      var r := Logout(session);
      Outcome(server, r.session, Redirect(r.location))
    case Forward(url) =>
      (match Dispatch(server.proxies, env.mounted, url)
       case None => Outcome(server, session, NoRoute)
       case Some(i) =>
         match RequireAuth(session)
         case RedirectTo(location) => Outcome(server, session, Redirect(location))
         case Admit =>
           var p := server.proxies[i];
           Outcome(server, session, Proxied(p.target, Rewrite(p.mount, url))))
    case _ =>
      match RequireAuth(session)
      case RedirectTo(location) => Outcome(server, session, Redirect(location))
      case Admit => HandleSettings(env, server, session, req, write)
  }

  /** One request together with the result of any configuration write it makes. */
  datatype Step = Step(req: Request, write: WriteOutcome)

  /** The server and the session between two requests. */
  datatype State = State(server: Server, session: Session)

  /** A sequence of requests on one session, handled in order. */
  function Run(env: Env, server: Server, session: Session, steps: seq<Step>): State
    decreases |steps|
  {
    if |steps| == 0 then State(server, session)
    else
      var out := Handle(env, server, session, steps[0].req, steps[0].write);
      Run(env, out.server, out.session, steps[1..])
  }

  /** However many settings requests are handled, the table's paths stay unique
      and requests are still dispatched to the proxies registered at startup:
      a table change reaches dispatch only through a new `Start`. */
  lemma {:induction false} RunKeepsInvariants(env: Env, server: Server, session: Session, steps: seq<Step>)
    requires UniquePaths(server.config.apps)
    ensures UniquePaths(Run(env, server, session, steps).server.config.apps)
    ensures Run(env, server, session, steps).server.proxies == server.proxies
    decreases |steps|
  {
    if |steps| > 0 {
      var out := Handle(env, server, session, steps[0].req, steps[0].write);
      RunKeepsInvariants(env, out.server, out.session, steps[1..]);
    }
  }

  /** Requests from a session that never logs in change nothing at all. */
  lemma {:induction false} AnonymousRunChangesNothing(env: Env, server: Server, steps: seq<Step>)
    requires forall k :: 0 <= k < |steps| ==> !steps[k].req.SubmitLogin?
    ensures Run(env, server, Anonymous, steps).server == server
    ensures Run(env, server, Anonymous, steps).session == Anonymous
    decreases |steps|
  {
    if |steps| > 0 {
      var out := Handle(env, server, Anonymous, steps[0].req, steps[0].write);
      assert out.server == server && out.session == Anonymous;
      AnonymousRunChangesNothing(env, server, steps[1..]);
    }
  }

  /** An accepted add, seen by an authenticated session, appends the entry and
      reports success when the file was written; the proxies stay as they were. */
  lemma AddAppAppends(env: Env, server: Server, session: Session, name: string, port: int, path: string)
    requires session.authenticated
    requires Add(server.config.apps, name, port, path).Ok?
    ensures var out := Handle(env, server, session, AddApp(name, port, path), Written);
      && AppendedWith(server.config.apps, out.server.config.apps, App(name, port, path))
      && out.response == Succeeded(Some(AppAdded))
      && out.server.proxies == server.proxies
  {
  }

  /** An accepted update, seen by an authenticated session, replaces exactly
      the entry found at the old path and reports success when the file was written. */
  lemma UpdateAppReplaces(env: Env, server: Server, session: Session,
                          oldPath: string, name: string, port: int, newPath: string)
    requires session.authenticated
    requires Update(server.config.apps, oldPath, name, port, newPath).Ok?
    ensures var out := Handle(env, server, session, UpdateApp(oldPath, name, port, newPath), Written);
      && ReplacedAt(server.config.apps, out.server.config.apps, IndexOf(server.config.apps, oldPath).value,
                    App(name, port, newPath))
      && out.response == Succeeded(Some(AppUpdated))
      && out.server.proxies == server.proxies
  {
  }

  /** An accepted delete, seen by an authenticated session, splices out exactly
      the first entry at the path and reports success when the file was written. */
  lemma DeleteAppSplices(env: Env, server: Server, session: Session, path: string)
    requires session.authenticated
    requires Remove(server.config.apps, path).Ok?
    ensures var out := Handle(env, server, session, DeleteApp(path), Written);
      && RemovedAt(server.config.apps, out.server.config.apps, IndexOf(server.config.apps, path).value)
      && out.response == Succeeded(Some(AppRemoved))
      && out.server.proxies == server.proxies
  {
  }

  /** An accepted password change stores the new hash under the same username
      and answers a bare success when the file was written. */
  lemma PasswordChangeStored(env: Env, server: Server, session: Session, current: string, newHash: string)
    requires session.authenticated
    requires env.verify(current, server.config.credentials.passwordHash)
    ensures var out := Handle(env, server, session, ChangePasswordRequest(current, newHash), Written);
      && out.server.config.credentials == Credentials(server.config.credentials.username, newHash)
      && out.server.config.apps == server.config.apps
      && out.server.config.hostname == server.config.hostname
      && out.response == Succeeded(None)
  {
  }

  /** An accepted username change stores the new name with the same hash and
      answers a bare success when the file was written. */
  lemma UsernameChangeStored(env: Env, server: Server, session: Session, newUsername: string, password: string)
    requires session.authenticated
    requires env.verify(password, server.config.credentials.passwordHash)
    ensures var out := Handle(env, server, session, ChangeUsernameRequest(newUsername, password), Written);
      && out.server.config.credentials == Credentials(newUsername, server.config.credentials.passwordHash)
      && out.server.config.apps == server.config.apps
      && out.server.config.hostname == server.config.hostname
      && out.response == Succeeded(None)
  {
  }

  /** A refused table or credential change leaves the server as it was and
      answers with the refusal's message. */
  lemma RefusedChangeKeepsServer(env: Env, server: Server, session: Session, req: Request, write: WriteOutcome)
    requires session.authenticated
    requires var config := server.config;
      match req
      case AddApp(n, p, path) => Add(config.apps, n, p, path).Err?
      case UpdateApp(o, n, p, np) => Update(config.apps, o, n, p, np).Err?
      case DeleteApp(path) => Remove(config.apps, path).Err?
      case ChangePasswordRequest(current, _) => !env.verify(current, config.credentials.passwordHash)
      case ChangeUsernameRequest(_, password) => !env.verify(password, config.credentials.passwordHash)
      case _ => false
    ensures var out := Handle(env, server, session, req, write);
      && out.server == server
      && out.response == Failed(match req
                               case AddApp(n, p, path) => Message(Add(server.config.apps, n, p, path).error)
                               case UpdateApp(o, n, p, np) => Message(Update(server.config.apps, o, n, p, np).error)
                               case DeleteApp(path) => Message(Remove(server.config.apps, path).error)
                               case ChangePasswordRequest(_, _) => CurrentPasswordWrong
                               case _ => PasswordWrong)
  {
  }

  /** A failed configuration write does not undo the in-memory change: the
      server ends up as it would after a successful write, and the client is
      told the write's error unless the handler had refused the request already.
      Every accepted change is written, even one that leaves the configuration
      equal, so a failed write always replaces the success answer. */
  lemma WriteFailureKeepsChange(env: Env, server: Server, session: Session, req: Request, message: string)
    ensures Handle(env, server, session, req, WriteFailed(message)).server
         == Handle(env, server, session, req, Written).server
    ensures var ok := Handle(env, server, session, req, Written);
      ok.server.config != server.config ==>
        Handle(env, server, session, req, WriteFailed(message)).response == Failed(message)
    ensures Handle(env, server, session, req, Written).response.Succeeded? ==>
      Handle(env, server, session, req, WriteFailed(message)).response == Failed(message)
  {
  }

  /** After a written hostname change and a restart, every proxy points at the
      new host, or at `localhost` when the submitted name was empty. */
  lemma RestartAfterHostnameChange(env: Env, server: Server, session: Session, hostname: string)
    requires session.authenticated
    ensures var restarted := Start(Handle(env, server, session, ChangeHostnameRequest(hostname), Written).server.config);
      && |restarted.proxies| == |server.config.apps|
      && forall i :: 0 <= i < |server.config.apps| ==>
           ParseTarget(restarted.proxies[i].target) == Some((HostOrLocalhost(hostname), server.config.apps[i].port))
  {
    HostOrLocalhostIdempotent(hostname);
  }
}
