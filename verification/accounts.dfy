/**
 * The user directory's handlers: signup (api/signup.py, and the identical
 * handlers of api/main.py and api/index.py), login (api/login.py and
 * api/main.py, plus the api/index.py variant) and the forgot-password lookup.
 */
module Accounts {
  import opened Maybe
  import opened Store
  import opened Replies

  /** The authentication body; only username and password are required by the schema. */
  datatype AuthForm = AuthForm(
    username: string,
    password: string,
    email: Option<string>,
    confirmPassword: Option<string>,
    fullName: Option<string>)

  const MinPasswordLength: nat := 6
  const CreatedNotice: string := "Account created successfully! Please login."
  const ResetNotice: string := "Password reset instructions sent to your email!"

  /** Python's `not x` on an optional text field: absent or empty. */
  predicate Blank(o: Option<string>) {
    o.None? || o.value == []
  }

  /**
   * The signup checks, first failing one wins: a missing field, then a
   * confirmation that differs (an absent one always differs), then a password
   * shorter than six characters, then a username already taken.
   */
  function SignupCheck(users: Directory, username: string, email: Option<string>, password: string, confirm: Option<string>): (r: Option<Failure>)
    ensures username == [] || Blank(email) || password == [] ==> r == Some(SignupFieldsMissing)
    ensures username != [] && !Blank(email) && password != [] ==>
      && (confirm != Some(password) ==> r == Some(PasswordsDiffer))
      && (confirm == Some(password) && |password| < MinPasswordLength ==> r == Some(PasswordTooShort))
      && (confirm == Some(password) && |password| >= MinPasswordLength && username in users ==> r == Some(UsernameTaken))
    ensures r.None? <==>
      && username != [] && !Blank(email)
      && confirm == Some(password) && |password| >= MinPasswordLength
      && username !in users
  {
    if username == [] || Blank(email) || password == [] then Some(SignupFieldsMissing)
    else if confirm != Some(password) then Some(PasswordsDiffer)
    else if |password| < MinPasswordLength then Some(PasswordTooShort)
    else if username in users then Some(UsernameTaken)
    else None
  }

  /**
   * api/signup.py: on success the new account holds the email, the password,
   * the full name (the username when none is given) and an empty chat list;
   * any failure leaves the directory as it was, an existing account included.
   */
  function Signup(st: Backend, f: AuthForm): (r: Step<string>)
    ensures var check := SignupCheck(st.users, f.username, f.email, f.password, f.confirmPassword);
      && (check.Some? ==> r == Step(Fail(check.value), st))
      && (check.None? ==> r.reply == Ok(CreatedNotice))
    ensures r.reply.Ok? ==>
      && f.username !in st.users
      && r.state.sessions == st.sessions
      && r.state.users.Keys == st.users.Keys + {f.username}
      && (forall other :: other in st.users ==> r.state.users[other] == st.users[other])
      && r.state.users[f.username] == User(f.email.value, f.password, Some(if Blank(f.fullName) then f.username else f.fullName.value), Some([]))
  {
    match SignupCheck(st.users, f.username, f.email, f.password, f.confirmPassword)
    case Some(failure) => Step(Fail(failure), st)
    case None =>
      var fullName := if Blank(f.fullName) then f.username else f.fullName.value;
      Step(Ok(CreatedNotice), st.(users := st.users[f.username := User(f.email.value, f.password, Some(fullName), Some([]))]))
  }

  /** The login checks: empty credentials first, then an unknown user or a wrong password. */
  function LoginCheck(users: Directory, username: string, password: string): (r: Option<Failure>)
    ensures r.None? <==> username != [] && password != [] && username in users && users[username].password == password
    ensures r.Some? ==> r.value == (if username == [] || password == [] then CredentialsMissing else CredentialsInvalid)
  {
    if username == [] || password == [] then Some(CredentialsMissing)
    else if username !in users || users[username].password != password then Some(CredentialsInvalid)
    else None
  }

  /** The login reply: a greeting, the new session id and the labels of the saved chats. */
  datatype LoginReply = LoginReply(message: string, sessionId: SessionId, chatList: seq<string>)

  /** `f"{username}_{timestamp}"`: the session id a login issues, the timestamp being an input. */
  function NewSessionId(username: Username, stamp: string): SessionId {
    username + "_" + stamp
  }

  function Greeting(username: Username): string {
    "Welcome back, " + username + "!"
  }

  /**
   * api/login.py: installs a fresh record owned by the user under the new id,
   * gives an account without a chat list an empty one, and returns one
   * "{timestamp} - {title}" label per saved chat, in order. A failed login
   * changes nothing.
   */
  function Login(st: Backend, username: string, password: string, stamp: string): (r: Step<LoginReply>)
    ensures var check := LoginCheck(st.users, username, password);
      && (check.Some? ==> r == Step(Fail(check.value), st))
      && (check.None? <==> r.reply.Ok?)
    ensures r.reply.Ok? ==>
      var sid := NewSessionId(username, stamp);
      var chats := st.users[username].chats.GetOr([]);
      && r.state.sessions == st.sessions[sid := Session([], true, Some(username))]
      && r.state.users == st.users[username := st.users[username].(chats := Some(chats))]
      && r.reply.value.sessionId == sid
      && r.reply.value.message == Greeting(username)
      && |r.reply.value.chatList| == |chats|
      && (forall i :: 0 <= i < |chats| ==> r.reply.value.chatList[i] == chats[i].timestamp + " - " + chats[i].title)
  {
    match LoginCheck(st.users, username, password)
    case Some(failure) => Step(Fail(failure), st)
    case None =>
      var sid := NewSessionId(username, stamp);
      var user := st.users[username];
      var chats := user.chats.GetOr([]);
      var st1 := Backend(st.sessions[sid := Session([], true, Some(username))], st.users[username := user.(chats := Some(chats))]);
      Step(Ok(LoginReply(Greeting(username), sid, Labels(chats))), st1)
  }

  /** The api/index.py login: the same checks and new record, but the directory is untouched and the chat list is always empty. */
  function IndexLogin(st: Backend, username: string, password: string, stamp: string): (r: Step<LoginReply>)
    ensures var check := LoginCheck(st.users, username, password);
      && (check.Some? ==> r == Step(Fail(check.value), st))
      && (check.None? <==> r.reply.Ok?)
    ensures r.reply.Ok? ==>
      var sid := NewSessionId(username, stamp);
      && r.state.sessions == st.sessions[sid := Session([], true, Some(username))]
      && r.state.users == st.users
      && r.reply.value == LoginReply(Greeting(username), sid, [])
  {
    match LoginCheck(st.users, username, password)
    case Some(failure) => Step(Fail(failure), st)
    case None =>
      var sid := NewSessionId(username, stamp);
      Step(Ok(LoginReply(Greeting(username), sid, [])), st.(sessions := st.sessions[sid := Session([], true, Some(username))]))
  }

  /** Some account carries exactly this email. */
  predicate EmailRegistered(users: Directory, email: string) {
    exists name :: name in users && users[name].email == email
  }

  /**
   * api/forgot-password.py: an empty email is rejected; otherwise the handler
   * scans the accounts and succeeds exactly when one has that email. The
   * directory is only read.
   */
  method ForgotPassword(st: Backend, email: string) returns (r: Step<string>)
    ensures r.state == st
    ensures email == [] ==> r.reply == Fail(EmailMissing)
    ensures email != [] ==> (r.reply == Ok(ResetNotice) <==> EmailRegistered(st.users, email))
    ensures email != [] && !EmailRegistered(st.users, email) ==> r.reply == Fail(EmailUnknown)
  {
    if email == [] {
      return Step(Fail(EmailMissing), st);
    }
    var pending := st.users.Keys;
    var found := false;
    while pending != {} && !found
      invariant pending <= st.users.Keys
      invariant found ==> EmailRegistered(st.users, email)
      invariant !found ==> forall name :: name in st.users && name !in pending ==> st.users[name].email != email
      decreases |pending|
    {
      var name :| name in pending;
      if st.users[name].email == email {
        found := true;
      }
      pending := pending - {name};
    }
    if !found {
      return Step(Fail(EmailUnknown), st);
    }
    return Step(Ok(ResetNotice), st);
  }

  /**
   * A successful signup makes the credentials usable: logging in with them
   * succeeds, lists no saved chats, and opens a record owned by that user.
   */
  lemma SignupThenLogin(st: Backend, f: AuthForm, stamp: string)
    requires Signup(st, f).reply.Ok?
    ensures var st1 := Signup(st, f).state;
      var r := Login(st1, f.username, f.password, stamp);
      && r.reply.Ok?
      && r.reply.value.chatList == []
      && r.state.sessions[NewSessionId(f.username, stamp)].owner == Some(f.username)
  {
  }

  /** A successful signup registers its email for the password-reset lookup, and a failed one registers nothing. */
  lemma SignupRegistersEmail(st: Backend, f: AuthForm, email: string)
    ensures Signup(st, f).reply.Ok? ==> EmailRegistered(Signup(st, f).state.users, f.email.value)
    ensures Signup(st, f).reply.Fail? ==> (EmailRegistered(Signup(st, f).state.users, email) <==> EmailRegistered(st.users, email))
  {
    if Signup(st, f).reply.Ok? {
      assert Signup(st, f).state.users[f.username].email == f.email.value;
    }
  }

  /** Signup and login keep every saved chat well formed. */
  lemma AccountsKeepDirectoryOk(st: Backend, f: AuthForm, username: string, password: string, stamp: string)
    requires DirectoryOk(st.users)
    ensures DirectoryOk(Signup(st, f).state.users)
    ensures DirectoryOk(Login(st, username, password, stamp).state.users)
  {
    var r := Login(st, username, password, stamp);
    if r.reply.Ok? {
      assert UserOk(st.users[username]);
      assert UserOk(r.state.users[username]);
    }
  }

  /** Credentials that signed up successfully also log in through the api/index.py login, which lists no chats and leaves the directory alone. */
  lemma SignupThenIndexLogin(st: Backend, f: AuthForm, stamp: string)
    requires Signup(st, f).reply.Ok?
    ensures var st1 := Signup(st, f).state;
      var r := IndexLogin(st1, f.username, f.password, stamp);
      && r.reply.Ok?
      && r.reply.value.chatList == []
      && r.state.users == st1.users
      && r.state.sessions[NewSessionId(f.username, stamp)] == Session([], true, Some(f.username))
  {
  }

  /** Both logins install a saved, empty record, so "unsaved implies non-empty" survives them. */
  lemma LoginsKeepSessionsOk(st: Backend, username: string, password: string, stamp: string)
    requires SessionsOk(st.sessions)
    ensures SessionsOk(Login(st, username, password, stamp).state.sessions)
    ensures SessionsOk(IndexLogin(st, username, password, stamp).state.sessions)
  {
  }
}
