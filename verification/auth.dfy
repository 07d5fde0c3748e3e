/** The authentication gate in front of every settings and proxy route, the
    login and logout transitions of a browser session, and the two credential
    changes that need the current password. */
module Auth {
  import opened Wrappers

  /** `bcrypt.compare(password, hash)`. The hashing library is outside the
      model, so the check is whatever function the caller supplies. */
  type Verifier = (string, string) -> bool

  /** The stored login: a username and the bcrypt hash of its password. */
  datatype Credentials = Credentials(username: string, passwordHash: string)

  /** The part of an express-session record the gateway uses. */
  datatype Session = Session(authenticated: bool)

  /** A fresh session, or the one that replaces a destroyed session. */
  const Anonymous := Session(false)

  const LoginPage := "/login"
  const LoginFailedPage := "/login?error=1"
  const HomePage := "/"
  const CurrentPasswordWrong := "Current password is incorrect"
  const PasswordWrong := "Password is incorrect"

  /** What `requireAuth` does with a request. */
  datatype Gate = Admit | RedirectTo(location: string)

  /** `requireAuth`: admit an authenticated session, send anything else to the login page. */
  function RequireAuth(s: Session): (g: Gate)
    ensures g == Admit <==> s.authenticated
    ensures g != Admit ==> g == RedirectTo(LoginPage)
  {
    if s.authenticated then Admit else RedirectTo(LoginPage)
  }

  /** The submitted username is the stored one and the password verifies against the stored hash. */
  predicate Accepts(verify: Verifier, c: Credentials, username: string, password: string) {
    username == c.username && verify(password, c.passwordHash)
  }

  /** The session after a login or logout, and where the browser is redirected. */
  datatype Reply = Reply(session: Session, location: string)

  /** `POST /login`. On acceptance the session is marked authenticated and sent
      home; otherwise the session is left as it was and the browser is sent to
      the one generic error page, whichever of the two checks failed. */
  function Login(verify: Verifier, c: Credentials, s: Session, username: string, password: string): (r: Reply)
    ensures r.session.authenticated <==> s.authenticated || Accepts(verify, c, username, password)
    ensures Accepts(verify, c, username, password) ==> r.location == HomePage
    ensures !Accepts(verify, c, username, password) ==> r.session == s && r.location == LoginFailedPage
  {
    if username == c.username && verify(password, c.passwordHash) then Reply(s.(authenticated := true), HomePage)
    else Reply(s, LoginFailedPage)
  }

  /** `GET /logout`: the session is destroyed, so the next request carries an
      anonymous one, and the browser is sent to the login page. */
  function Logout(s: Session): (r: Reply)
    ensures RequireAuth(r.session) == RedirectTo(LoginPage)
    ensures r.location == LoginPage
  {
    Reply(Anonymous, LoginPage)
  }

  /** `POST /api/change-password`. The current password must verify against the
      stored hash; then the hash, and only the hash, is replaced by `newHash`,
      the hashing library's answer for the new password. */
  function ChangePassword(verify: Verifier, c: Credentials, currentPassword: string, newHash: string)
    : (r: Result<Credentials, string>)
    ensures r.Ok? <==> verify(currentPassword, c.passwordHash)
    ensures r.Err? ==> r.error == CurrentPasswordWrong
    ensures r.Ok? ==> r.value.username == c.username && r.value.passwordHash == newHash
  {
    if !verify(currentPassword, c.passwordHash) then Err(CurrentPasswordWrong)
    else Ok(c.(passwordHash := newHash))
  }

  /** `POST /api/change-username`. The password must verify against the stored
      hash; then the username, and only the username, is replaced. The new name
      itself is not checked. */
  function ChangeUsername(verify: Verifier, c: Credentials, newUsername: string, password: string)
    : (r: Result<Credentials, string>)
    ensures r.Ok? <==> verify(password, c.passwordHash)
    ensures r.Err? ==> r.error == PasswordWrong
    ensures r.Ok? ==> r.value.username == newUsername && r.value.passwordHash == c.passwordHash
  {
    if !verify(password, c.passwordHash) then Err(PasswordWrong)
    else Ok(c.(username := newUsername))
  }

  /** A request passes the gate exactly when its session is authenticated; a
      session is authenticated after a login exactly when it already was or the
      login was accepted, and never after a logout. */
  lemma GateFollowsLogin(verify: Verifier, c: Credentials, s: Session, username: string, password: string)
    ensures RequireAuth(Login(verify, c, s, username, password).session) == Admit
        <==> s.authenticated || Accepts(verify, c, username, password)
    ensures RequireAuth(Logout(s).session) != Admit
  {
  }

  /** After a password change the stored username with any password that
      verifies against the new hash is accepted; nothing verifying only against
      the old hash is. */
  lemma LoginAfterPasswordChange(verify: Verifier, c: Credentials, currentPassword: string, newHash: string,
                                 username: string, password: string)
    requires ChangePassword(verify, c, currentPassword, newHash).Ok?
    ensures var c' := ChangePassword(verify, c, currentPassword, newHash).value;
      Accepts(verify, c', username, password) <==> username == c.username && verify(password, newHash)
  {
  }

  /** After a username change exactly the passwords that were accepted before
      are accepted, now under the new name only. */
  lemma LoginAfterUsernameChange(verify: Verifier, c: Credentials, newUsername: string, current: string,
                                 username: string, password: string)
    requires ChangeUsername(verify, c, newUsername, current).Ok?
    ensures var c' := ChangeUsername(verify, c, newUsername, current).value;
      Accepts(verify, c', username, password) <==> username == newUsername && Accepts(verify, c, c.username, password)
  {
  }
}
