/** The authentication decisions of the app (lib/auth.ts): the provider
    profile mappings, the session cookie configuration, the `jwt` and
    `session` callbacks, the `signIn` callback with its passwordless email
    flow over the user table, and the ownership guards around site and post
    actions. */
module Auth {
  import opened Js
  import opened JsString
  import JsNumber

  /** The onboarding roles; Indecisive is the one a new account starts with. */
  datatype Role = Indecisive | OtherRole(roleName: string)

  /** A user as the authentication library passes it around: what a provider's
      profile mapping returns, and what the `jwt` callback keeps in the token. */
  datatype AuthUser = AuthUser(
    id: string,
    name: Option<string>,
    email: Option<string>,
    image: Option<string>,
    ghUsername: Option<string>,
    username: Option<string>,
    role: Option<Role>)

  // ---------------------------------------------------------------------
  // Provider profile mappings.

  /** The fields of a GitHub profile the mapping reads. */
  datatype GitHubProfile = GitHubProfile(
    id: int, name: Option<string>, login: string, email: Option<string>, avatarUrl: Option<string>)

  /** The fields of a Google profile the mapping reads (`login` is usually
      absent). The id is the account's string identifier. */
  datatype GoogleProfile = GoogleProfile(
    id: string, name: Option<string>, login: Option<string>, email: Option<string>, picture: Option<string>)

  /** The GitHub `profile` mapping: the display name falls back to the login
      when the profile's name is falsy, the login is kept as GitHub user name,
      and the role starts as Indecisive. */
  function GitHubUser(p: GitHubProfile): (u: AuthUser)
    ensures u.id == JsNumber.IntToString(p.id)
    ensures Truthy(p.name) ==> u.name == p.name
    ensures !Truthy(p.name) ==> u.name == Some(p.login)
    ensures Truthy(u.name) <==> Truthy(p.name) || p.login != ""
    ensures u.ghUsername == Some(p.login) && u.username == None
    ensures u.email == p.email && u.image == p.avatarUrl
    ensures u.role == Some(Indecisive)
  {
    AuthUser(JsNumber.IntToString(p.id), Or(p.name, Some(p.login)), p.email, p.avatarUrl,
             Some(p.login), None, Some(Indecisive))
  }

  /** The Google `profile` mapping: no GitHub user name and no role. */
  function GoogleUser(p: GoogleProfile): (u: AuthUser)
    ensures u.id == p.id
    ensures Truthy(p.name) ==> u.name == p.name
    ensures !Truthy(p.name) ==> u.name == p.login
    ensures u.email == p.email && u.image == p.picture
    ensures u.ghUsername == None && u.username == None && u.role == None
  {
    AuthUser(p.id, Or(p.name, p.login), p.email, p.picture, None, None, None)
  }

  /** Two GitHub accounts with different numeric ids map to different user ids. */
  lemma GitHubUserIdsDistinct(p: GitHubProfile, q: GitHubProfile)
    requires p.id != q.id
    ensures GitHubUser(p).id != GitHubUser(q).id
  {
    JsNumber.IntToStringInjective(p.id, q.id);
  }

  /** The numeric id of a GitHub profile can be read back from the user id. */
  lemma GitHubUserIdRoundTrip(p: GitHubProfile)
    ensures var s := GitHubUser(p).id;
      |s| > 0 && (s[0] == '-' ==> JsNumber.AllDigits(s[1..])) && (s[0] != '-' ==> JsNumber.AllDigits(s))
    ensures JsNumber.ParseInt(GitHubUser(p).id) == p.id
  {
    JsNumber.ParseIntToString(p.id);
  }

  // ---------------------------------------------------------------------
  // The session cookie.

  const SESSION_COOKIE := "next-auth.session-token"
  const SECURE_PREFIX := "__Secure-"

  datatype CookieOptions = CookieOptions(
    httpOnly: bool, sameSite: string, path: string, domain: Option<string>, secure: bool)

  datatype CookieConfig = CookieConfig(name: string, options: CookieOptions)

  /** `!!process.env.VERCEL_URL`: a Vercel deployment is one whose URL
      variable is set to a non-empty value. */
  predicate IsVercelDeployment(vercelUrl: Option<string>)
  {
    Truthy(vercelUrl)
  }

  /** The session token cookie: on a Vercel deployment it is a secure,
      "__Secure-" prefixed cookie scoped to every subdomain of the root
      domain; elsewhere (localhost) it is neither and has no domain. */
  function SessionTokenCookie(vercelUrl: Option<string>, rootDomain: string): (c: CookieConfig)
    ensures StartsWith(c.name, SECURE_PREFIX) <==> IsVercelDeployment(vercelUrl)
    ensures EndsWith(c.name, SESSION_COOKIE)
    ensures !IsVercelDeployment(vercelUrl) ==> c.name == SESSION_COOKIE
    ensures c.options.secure <==> IsVercelDeployment(vercelUrl)
    ensures c.options.domain.Some? <==> IsVercelDeployment(vercelUrl)
    ensures IsVercelDeployment(vercelUrl) ==> c.options.domain == Some("." + rootDomain)
    ensures c.options.httpOnly && c.options.sameSite == "lax" && c.options.path == "/"
  {
    var vercel := IsVercelDeployment(vercelUrl);
    var name := (if vercel then SECURE_PREFIX else "") + SESSION_COOKIE;
    assert name[|name| - |SESSION_COOKIE|..] == SESSION_COOKIE;
    assert vercel ==> name[..|SECURE_PREFIX|] == SECURE_PREFIX;
    assert !vercel ==> name[0] != SECURE_PREFIX[0];
    CookieConfig(name, CookieOptions(true, "lax", "/", if vercel then Some("." + rootDomain) else None, vercel))
  }

  // ---------------------------------------------------------------------
  // The `jwt` and `session` callbacks.

  /** The signed token: its subject and the user copied into it at sign-in. */
  class Token {
    var sub: Option<string>
    var user: Option<AuthUser>

    constructor (sub: Option<string>, user: Option<AuthUser>)
      ensures this.sub == sub && this.user == user
    {
      this.sub := sub;
      this.user := user;
    }

    /** The `jwt` callback: the token keeps its user unless a user is supplied
        (at sign-in), which then replaces it; the subject is untouched. */
    method Jwt(user: Option<AuthUser>)
      modifies this
      ensures user.Some? ==> this.user == user
      ensures user.None? ==> this.user == old(this.user)
      ensures sub == old(sub)
    {
      if user.Some? {
        this.user := user;
      }
    }
  }

  /** The user part of a session as the client sees it. */
  datatype SessionUser = SessionUser(
    id: Option<string>, name: Option<string>, email: Option<string>, image: Option<string>,
    username: Option<string>)

  /** `token?.user?.username || token?.user?.gh_username`: the chosen user
      name, falling back to the GitHub login when it is falsy; absent when the
      token carries no user. */
  function SessionUsername(u: Option<AuthUser>): (r: Option<string>)
    ensures u.None? ==> r == None
    ensures u.Some? && Truthy(u.value.username) ==> r == u.value.username
    ensures u.Some? && !Truthy(u.value.username) ==> r == u.value.ghUsername
    ensures Truthy(r) <==> u.Some? && (Truthy(u.value.username) || Truthy(u.value.ghUsername))
  {
    if u.None? then None else Or(u.value.username, u.value.ghUsername)
  }

  /** The session handed to the client. */
  class Session {
    var user: SessionUser

    constructor (user: SessionUser)
      ensures this.user == user
    {
      this.user := user;
    }

    /** The `session` callback: the user keeps its other fields and gets the
        token's subject as id and the token user's name as user name. */
    method ApplyToken(token: Token)
      modifies this
      ensures user.id == token.sub
      ensures user.username == SessionUsername(token.user)
      ensures user.name == old(user.name) && user.email == old(user.email) && user.image == old(user.image)
    {
      user := user.(id := token.sub, username := SessionUsername(token.user));
    }
  }

  /** A GitHub sign-in end to end: the token stores the mapped profile, and
      the session then shows the GitHub login as user name and the token
      subject as id. */
  method GitHubSignInSession(p: GitHubProfile, sub: Option<string>, client: SessionUser)
    returns (shown: SessionUser)
    ensures shown.username == Some(p.login)
    ensures shown.id == sub
    ensures shown.name == client.name && shown.email == client.email && shown.image == client.image
  {
    var token := new Token(sub, None);
    token.Jwt(Some(GitHubUser(p)));
    var session := new Session(client);
    session.ApplyToken(token);
    shown := session.user;
  }

  // ---------------------------------------------------------------------
  // The `signIn` callback and the user table.

  /** A row of the user table; a null name marks an account that has not
      finished signup. */
  datatype DbUser = DbUser(id: string, email: string, name: Option<string>, role: Role)

  /** The `email` argument of `signIn`, present for the email provider. */
  datatype EmailArg = EmailArg(verificationRequest: bool)

  /** What `signIn` answers: go on (`true`), send the browser to a URL, or an
      exception thrown by the user table. */
  datatype SignInResult = Allow | SendTo(url: string) | Failed(reason: string)

  /** The answer together with the user table after the call. */
  datatype SignInStep = SignInStep(result: SignInResult, users: map<string, DbUser>)

  /** Every row is filed under its own email, which makes emails unique. */
  predicate Keyed(users: map<string, DbUser>)
  {
    forall e :: e in users ==> users[e].email == e
  }

  /** `email && email.verificationRequest`. */
  predicate IsVerificationRequest(email: Option<EmailArg>): (b: bool)
    ensures b <==> email == Some(EmailArg(true))
  {
    email.Some? && email.value.verificationRequest
  }

  /** The account the confirmation branch creates. */
  function NewUser(email: string, id: string): (u: DbUser)
    ensures u.email == email && u.name == None && u.role == Indecisive
  {
    DbUser(id, email, None, Indecisive)
  }

  const SIGNUP_PATH := "/signup?email="

  /** The `signIn` callback on the user table as a value: the answer and the
      table after the call. `newId` is the id the table would give a new row;
      `encode` stands for `encodeURIComponent`. */
  function SignInSpec(users: map<string, DbUser>, provider: string, userEmail: Option<string>,
                      email: Option<EmailArg>, newId: string, encode: string -> string): (s: SignInStep)
    ensures s.result != Allow ==> s.users == users
    ensures users.Keys <= s.users.Keys
    ensures forall e :: e in users ==> s.users[e] == users[e]
    ensures forall e :: e in s.users && e !in users ==>
      provider == "email" && !IsVerificationRequest(email) && userEmail == Some(e) && s.users[e] == NewUser(e, newId)
    ensures Keyed(users) ==> Keyed(s.users)
  {
    if provider != "email" then SignInStep(Allow, users)
    else if IsVerificationRequest(email) then
      if userEmail.None? then SignInStep(Failed("find without an email"), users)
      else if userEmail.value in users then SignInStep(Allow, users)
      else SignInStep(SendTo(SIGNUP_PATH + encode(userEmail.value)), users)
    else
      if !Truthy(userEmail) then SignInStep(Failed("create without an email"), users)
      else if userEmail.value in users then SignInStep(Failed("email already taken"), users)
      else SignInStep(Allow, users[userEmail.value := NewUser(userEmail.value, newId)])
  }

  /** The outcome of the table's `create`. */
  datatype Created = Created(user: DbUser) | Rejected(reason: string)

  /** The user table, keyed by email. */
  class UserTable {
    var users: map<string, DbUser>

    ghost predicate Valid()
      reads this
    {
      Keyed(users)
    }

    constructor (users: map<string, DbUser>)
      requires Keyed(users)
      ensures Valid() && this.users == users
    {
      this.users := users;
    }

    /** `findUnique` by email. */
    function FindUnique(email: string): (r: Option<DbUser>)
      reads this
      requires Valid()
      ensures r.Some? <==> email in users
      ensures r.Some? ==> r.value == users[email] && r.value.email == email
    {
      if email in users then Some(users[email]) else None
    }

    /** `create`: rejected without an email or when the email is taken (the
        unique key); otherwise a new row without a name is added. */
    method Create(email: Option<string>, role: Role, id: string) returns (r: Created)
      requires Valid()
      modifies this
      ensures Valid()
      ensures r.Rejected? <==> email.None? || email.value in old(users)
      ensures r.Rejected? ==> users == old(users)
      ensures r.Rejected? ==> r.reason == if email.None? then "create without an email" else "email already taken"
      ensures r.Created? ==> (r.user == DbUser(id, email.value, None, role)
                              && users == old(users)[email.value := r.user])
    {
      if email.None? {
        return Rejected("create without an email");
      }
      if email.value in users {
        return Rejected("email already taken");
      }
      r := Created(DbUser(id, email.value, None, role));
      users := users[email.value := r.user];
    }

    /** The `signIn` callback. For the email provider, the verification
        request answers from a lookup; the confirmation creates the account
        without looking first. */
    method SignIn(provider: string, userEmail: Option<string>, email: Option<EmailArg>,
                  newId: string, encode: string -> string) returns (r: SignInResult)
      requires Valid()
      modifies this
      ensures Valid()
      ensures SignInStep(r, users) == SignInSpec(old(users), provider, userEmail, email, newId, encode)
    {
      if provider == "email" {
        if IsVerificationRequest(email) {
          if userEmail.None? {
            return Failed("find without an email");
          }
          var existing := FindUnique(userEmail.value);
          if existing.None? {
            return SendTo(SIGNUP_PATH + encode(userEmail.value));
          }
          return Allow;
        } else {
          var address := if Truthy(userEmail) then userEmail else None;
          var verified := Create(address, Indecisive, newId);
          if verified.Rejected? {
            return Failed(verified.reason);
          }
          if verified.user.name == None {
            return Allow;
          }
          return Allow;
        }
      }
      return Allow;
    }
  }

  /** Any provider other than email signs in and leaves the table alone. */
  lemma OtherProviderAllows(users: map<string, DbUser>, provider: string, userEmail: Option<string>,
                            email: Option<EmailArg>, newId: string, encode: string -> string)
    requires provider != "email"
    ensures SignInSpec(users, provider, userEmail, email, newId, encode) == SignInStep(Allow, users)
  {
  }

  /** A verification request for an address without an account is sent to
      signup with the encoded address; one with an account goes on; neither
      changes the table. */
  lemma VerificationRequestOutcome(users: map<string, DbUser>, e: string, email: Option<EmailArg>,
                                   newId: string, encode: string -> string)
    requires IsVerificationRequest(email)
    ensures var s := SignInSpec(users, "email", Some(e), email, newId, encode);
      s.users == users && s.result == if e in users then Allow else SendTo(SIGNUP_PATH + encode(e))
  {
  }

  /** The confirmation of a new, truthy address creates exactly one account,
      nameless and Indecisive, and signs in. */
  lemma ConfirmationCreatesAccount(users: map<string, DbUser>, e: string, email: Option<EmailArg>,
                                   newId: string, encode: string -> string)
    requires !IsVerificationRequest(email) && e != "" && e !in users
    ensures var s := SignInSpec(users, "email", Some(e), email, newId, encode);
      s.result == Allow && s.users == users[e := NewUser(e, newId)] && s.users.Keys == users.Keys + {e}
  {
  }

  /** The confirmation of an address that already has an account fails on
      the unique key and leaves the table as it was; it never signs in. */
  lemma ConfirmationOfKnownEmailFails(users: map<string, DbUser>, e: string, email: Option<EmailArg>,
                                      newId: string, encode: string -> string)
    requires !IsVerificationRequest(email) && e in users
    ensures var s := SignInSpec(users, "email", Some(e), email, newId, encode);
      s.result.Failed? && s.users == users
  {
  }

  /** The consequence of creating without looking: an address whose
      verification request is allowed (it has an account) is then refused at
      confirmation, so an existing user cannot finish an email sign-in. */
  lemma KnownEmailCannotFinishEmailSignIn(users: map<string, DbUser>, e: string, confirmation: Option<EmailArg>,
                                          newId: string, newId': string, encode: string -> string)
    requires SignInSpec(users, "email", Some(e), Some(EmailArg(true)), newId, encode).result == Allow
    requires !IsVerificationRequest(confirmation)
    ensures SignInSpec(users, "email", Some(e), confirmation, newId', encode).result.Failed?
  {
  }

  /** Two confirmations of the same new address in a row: the first creates the
      account, the second fails on the unique key, and one account remains. */
  lemma RepeatedConfirmation(users: map<string, DbUser>, e: string, confirmation: Option<EmailArg>,
                             id1: string, id2: string, encode: string -> string)
    requires Keyed(users) && e != "" && e !in users && !IsVerificationRequest(confirmation)
    ensures var first := SignInSpec(users, "email", Some(e), confirmation, id1, encode);
      var second := SignInSpec(first.users, "email", Some(e), confirmation, id2, encode);
      && first.result == Allow
      && second.result.Failed?
      && second.users == first.users
      && second.users[e] == NewUser(e, id1)
      && Keyed(second.users)
  {
  }

  // ---------------------------------------------------------------------
  // Ownership guards around site and post actions.

  datatype Site = Site(id: string, userId: Option<string>)
  datatype Post = Post(id: string, userId: Option<string>, siteId: Option<string>)

  /** What the server session lookup returns when there is a session. */
  datatype ServerSession = ServerSession(user: SessionUser)

  /** A guard's answer: an error record, or the record handed to the action
      together with what the action returned. */
  datatype Guarded<T, R> = Refused(error: string) | Ran(target: T, result: R)

  /** `!(owner !== id)` between a nullable column and the session's user id:
      an absent owner (null) never equals an absent id (undefined). */
  predicate OwnedBy(owner: Option<string>, sessionUserId: Option<string>): (b: bool)
    ensures owner.None? ==> !b
    ensures sessionUserId.None? ==> !b
    ensures owner.Some? && sessionUserId.Some? ==> (b <==> owner.value == sessionUserId.value)
  {
    owner.Some? && sessionUserId == owner
  }

  /** `withSiteAuth(action)` applied to a form, a site id and a key. */
  function WithSiteAuth<F, R>(session: Option<ServerSession>, sites: map<string, Site>,
                              formData: F, siteId: string, key: Option<string>,
                              action: (F, Site, Option<string>) -> R): (r: Guarded<Site, R>)
    ensures r == Refused("Not authenticated") <==> session.None?
    ensures r == Refused("Not authorized") <==>
      session.Some? && !(siteId in sites && OwnedBy(sites[siteId].userId, session.value.user.id))
    ensures r.Ran? <==> session.Some? && siteId in sites && OwnedBy(sites[siteId].userId, session.value.user.id)
    ensures r.Ran? ==> r.target == sites[siteId] && r.result == action(formData, r.target, key)
  {
    if session.None? then Refused("Not authenticated")
    else if siteId !in sites || !OwnedBy(sites[siteId].userId, session.value.user.id) then Refused("Not authorized")
    else Ran(sites[siteId], action(formData, sites[siteId], key))
  }

  /** `withPostAuth(action)` applied to a form, a post id and a key. */
  function WithPostAuth<F, R>(session: Option<ServerSession>, posts: map<string, Post>,
                              formData: F, postId: string, key: Option<string>,
                              action: (F, Post, Option<string>) -> R): (r: Guarded<Post, R>)
    ensures r == Refused("Not authenticated") <==> session.None? || !Truthy(session.value.user.id)
    ensures r == Refused("Post not found") <==>
      session.Some? && Truthy(session.value.user.id) &&
      !(postId in posts && OwnedBy(posts[postId].userId, session.value.user.id))
    ensures r.Ran? <==>
      session.Some? && Truthy(session.value.user.id) && postId in posts && OwnedBy(posts[postId].userId, session.value.user.id)
    ensures r.Ran? ==> r.target == posts[postId] && r.result == action(formData, r.target, key)
  {
    if session.None? || !Truthy(session.value.user.id) then Refused("Not authenticated")
    else if postId !in posts || !OwnedBy(posts[postId].userId, session.value.user.id) then Refused("Post not found")
    else Ran(posts[postId], action(formData, posts[postId], key))
  }

  /** Where both guards let an action run, the record belongs to a present
      session user; the post guard additionally demands a non-empty id, so
      with an empty user id only the site guard can run an action. */
  lemma GuardsOnEmptyUserId<F, R>(sites: map<string, Site>, posts: map<string, Post>, formData: F,
                                  siteId: string, postId: string, key: Option<string>,
                                  siteAction: (F, Site, Option<string>) -> R,
                                  postAction: (F, Post, Option<string>) -> R)
    requires siteId in sites && sites[siteId].userId == Some("")
    ensures var session := Some(ServerSession(SessionUser(Some(""), None, None, None, None)));
      && WithSiteAuth(session, sites, formData, siteId, key, siteAction).Ran?
      && WithPostAuth(session, posts, formData, postId, key, postAction) == Refused("Not authenticated")
  {
  }
}
