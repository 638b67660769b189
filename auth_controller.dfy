/**
 * The authentication controller: sign-up, login (get-or-create of the local
 * account), logout and the profile lookup. The identity provider's answer is
 * an input to each handler; the local accounts are a map from email to account.
 */
module AuthController {
  import opened Js
  import opened Api

  datatype Account = Account(id: UserId, providerId: string, email: string, role: string)

  /** `jwt.sign({id, email, role}, ...)`: an opaque token carrying those three fields. */
  datatype Token = Token(id: UserId, email: string, role: string)

  /** The `user` object of a sign-up or login reply. */
  datatype UserView = UserView(id: UserId, email: string, role: string)

  datatype Session = Session(user: UserView, token: Token)

  /** The request body `{email, password}`; each may be absent. */
  datatype Credentials = Credentials(email: MaybeString, password: MaybeString)

  /** The verified identity the provider returns as `data.user`. */
  datatype Identity = Identity(id: string, email: string)

  /** The provider's answer to a sign-up, a sign-in or a sign-out. */
  datatype ProviderAnswer = Verified(identity: Identity) | Refused(message: string)

  /** A handler's reply, the accounts afterwards, and whether it consulted the provider at all. */
  datatype AuthOutcome = AuthOutcome(reply: Reply<Session>, accounts: map<string, Account>, consulted: bool)

  function GenerateToken(id: UserId, email: string, role: string): (t: Token)
    ensures t.id == id && t.email == email && t.role == role
  {
    Token(id, email, role)
  }

  /** The `{user, token}` reply for an account: the token carries exactly the user's triple. */
  function SessionFor(a: Account): (s: Session)
    ensures s.user == UserView(a.id, a.email, a.role)
    ensures s.token.id == s.user.id && s.token.email == s.user.email && s.token.role == s.user.role
  {
    Session(UserView(a.id, a.email, a.role), GenerateToken(a.id, a.email, a.role))
  }

  /** Each account is stored under its own email, and ids are distinct and below `nextId`. */
  predicate AccountsInvariant(accounts: map<string, Account>, nextId: UserId) {
    && (forall e :: e in accounts ==> accounts[e].email == e && accounts[e].id < nextId)
    && (forall e1, e2 :: e1 in accounts && e2 in accounts && accounts[e1].id == accounts[e2].id ==> e1 == e2)
  }

  /** The account `new User({supabaseId, email, role: 'user'})` builds for a verified identity. */
  function NewAccount(id: UserId, identity: Identity): (a: Account)
    ensures a.id == id && a.email == identity.email && a.providerId == identity.id
    ensures a.role == User
  {
    Account(id, identity.id, identity.email, User)
  }

  /** Adding a fresh account under its own email keeps the accounts well formed. */
  lemma AddKeepsInvariant(accounts: map<string, Account>, nextId: UserId, identity: Identity)
    requires AccountsInvariant(accounts, nextId)
    ensures AccountsInvariant(accounts[identity.email := NewAccount(nextId, identity)], nextId + 1)
  {
  }

  /**
   * POST /api/auth/signup: 400 for a missing email or password and 400 for an
   * email that already has an account, both before the provider is asked; 400
   * when the provider refuses; otherwise one new account with role 'user' and
   * a 201 reply whose token carries it. Saving an account whose email (as the
   * provider returned it) is already taken fails the unique email index: 500.
   */
  function RegisterEffect(accounts: map<string, Account>, nextId: UserId,
                          req: Credentials, answer: ProviderAnswer): (o: AuthOutcome)
    ensures !(Truthy(req.email) && Truthy(req.password)) ==>
      o == AuthOutcome(Err(BAD_REQUEST), accounts, false)
    ensures Truthy(req.email) && Truthy(req.password) && req.email.value in accounts ==>
      o == AuthOutcome(Err(BAD_REQUEST), accounts, false)
    ensures o.consulted <==> Truthy(req.email) && Truthy(req.password) && req.email.value !in accounts
    ensures o.consulted && answer.Refused? ==> o == AuthOutcome(Err(BAD_REQUEST), accounts, true)
    ensures o.consulted && answer.Verified? && answer.identity.email in accounts ==>
      o == AuthOutcome(Err(SERVER_ERROR), accounts, true)
    ensures o.reply.Ok? <==> o.consulted && answer.Verified? && answer.identity.email !in accounts
    ensures o.reply.Err? ==> o.accounts == accounts
    ensures o.reply.Ok? ==>
      && o.reply.code == CREATED && o.consulted && answer.Verified?
      && answer.identity.email !in accounts
      && o.accounts == accounts[answer.identity.email := NewAccount(nextId, answer.identity)]
      && o.reply.value == SessionFor(NewAccount(nextId, answer.identity))
  {
    if !Truthy(req.email) || !Truthy(req.password) then
      AuthOutcome(Err(BAD_REQUEST), accounts, false)
    else if req.email.value in accounts then
      AuthOutcome(Err(BAD_REQUEST), accounts, false)
    else match answer
      case Refused(_) => AuthOutcome(Err(BAD_REQUEST), accounts, true)
      case Verified(identity) =>
        if identity.email in accounts then AuthOutcome(Err(SERVER_ERROR), accounts, true)
        else
          var account := NewAccount(nextId, identity);
          AuthOutcome(Ok(CREATED, SessionFor(account)), accounts[identity.email := account], true)
  }

  /** A successful sign-up adds exactly one account, with role 'user', and changes no other. */
  lemma RegisterAddsOne(accounts: map<string, Account>, nextId: UserId,
                        req: Credentials, answer: ProviderAnswer)
    requires AccountsInvariant(accounts, nextId)
    ensures var o := RegisterEffect(accounts, nextId, req, answer);
      && AccountsInvariant(o.accounts, if o.reply.Ok? then nextId + 1 else nextId)
      && (o.reply.Ok? ==>
            && o.accounts.Keys == accounts.Keys + {o.reply.value.user.email}
            && o.reply.value.user.email !in accounts
            && o.reply.value.user.role == User
            && o.accounts[o.reply.value.user.email].role == User
            && (forall e :: e in accounts ==> o.accounts[e] == accounts[e]))
  {
    var o := RegisterEffect(accounts, nextId, req, answer);
    if o.reply.Ok? {
      AddKeepsInvariant(accounts, nextId, answer.identity);
    }
  }

  /**
   * POST /api/auth/login: 400 for a missing email or password before the
   * provider is asked; 401 when it refuses; otherwise the account stored under
   * the verified email, created with role 'user' when there is none.
   */
  function LoginEffect(accounts: map<string, Account>, nextId: UserId,
                       req: Credentials, answer: ProviderAnswer): (o: AuthOutcome)
    ensures !(Truthy(req.email) && Truthy(req.password)) ==>
      o == AuthOutcome(Err(BAD_REQUEST), accounts, false)
    ensures Truthy(req.email) && Truthy(req.password) && answer.Refused? ==>
      o == AuthOutcome(Err(UNAUTHORIZED), accounts, true)
    ensures o.consulted <==> Truthy(req.email) && Truthy(req.password)
    ensures o.reply.Ok? <==> Truthy(req.email) && Truthy(req.password) && answer.Verified?
    ensures o.reply.Err? ==> o.accounts == accounts
    ensures o.reply.Ok? ==>
      && o.reply.code == OK && answer.Verified?
      && answer.identity.email in o.accounts
      && o.reply.value == SessionFor(o.accounts[answer.identity.email])
    ensures o.reply.Ok? && answer.identity.email in accounts ==> o.accounts == accounts
    ensures o.reply.Ok? && answer.identity.email !in accounts ==>
      o.accounts == accounts[answer.identity.email := NewAccount(nextId, answer.identity)]
  {
    if !Truthy(req.email) || !Truthy(req.password) then
      AuthOutcome(Err(BAD_REQUEST), accounts, false)
    else match answer
      case Refused(_) => AuthOutcome(Err(UNAUTHORIZED), accounts, true)
      case Verified(identity) =>
        if identity.email in accounts then
          AuthOutcome(Ok(OK, SessionFor(accounts[identity.email])), accounts, true)
        else
          var account := NewAccount(nextId, identity);
          AuthOutcome(Ok(OK, SessionFor(account)), accounts[identity.email := account], true)
  }

  /**
   * Login is get-or-create: an existing account comes back unchanged, an admin
   * stays an admin, and afterwards exactly one account has the verified email.
   */
  lemma LoginGetOrCreate(accounts: map<string, Account>, nextId: UserId,
                         req: Credentials, answer: ProviderAnswer)
    requires AccountsInvariant(accounts, nextId)
    ensures var o := LoginEffect(accounts, nextId, req, answer);
      && AccountsInvariant(o.accounts, if o.accounts == accounts then nextId else nextId + 1)
      && (o.reply.Ok? ==>
            var email := answer.identity.email;
            && (email in accounts ==> o.reply.value.user.role == accounts[email].role)
            && (email !in accounts ==> o.reply.value.user.role == User)
            && (set e | e in o.accounts && o.accounts[e].email == email) == {email})
  {
    var o := LoginEffect(accounts, nextId, req, answer);
    if o.reply.Ok? && answer.identity.email !in accounts {
      AddKeepsInvariant(accounts, nextId, answer.identity);
    }
  }

  /** A second login with the same verified identity changes nothing and returns the same reply. */
  lemma LoginTwice(accounts: map<string, Account>, nextId: UserId,
                   req: Credentials, answer: ProviderAnswer)
    ensures var o1 := LoginEffect(accounts, nextId, req, answer);
            var o2 := LoginEffect(o1.accounts, nextId + 1, req, answer);
      o1.reply.Ok? ==> o2.accounts == o1.accounts && o2.reply == o1.reply
  {
  }

  /** POST /api/auth/logout: 400 with the provider's message when sign-out fails. */
  function LogoutReply(answer: ProviderAnswer): (r: Reply<()>)
    ensures r.Ok? <==> answer.Verified?
    ensures r.Ok? ==> r.code == OK
    ensures r.Err? ==> r.code == BAD_REQUEST
  {
    match answer
    case Refused(_) => Err(BAD_REQUEST)
    case Verified(_) => Ok(OK, ())
  }

  class AccountStore {
    var accounts: map<string, Account>
    var nextId: UserId

    ghost predicate Valid()
      reads this
    {
      AccountsInvariant(accounts, nextId)
    }

    constructor ()
      ensures Valid() && accounts == map[] && nextId == 0
    {
      accounts := map[];
      nextId := 0;
    }

    /** `new User({...}).save()` for a verified identity whose email has no account yet. */
    method CreateAccount(identity: Identity) returns (account: Account)
      requires Valid() && identity.email !in accounts
      modifies this
      ensures Valid()
      ensures account == NewAccount(old(nextId), identity)
      ensures accounts == old(accounts)[identity.email := account] && nextId == old(nextId) + 1
    {
      AddKeepsInvariant(accounts, nextId, identity);
      account := NewAccount(nextId, identity);
      accounts := accounts[identity.email := account];
      nextId := nextId + 1;
    }

    /** POST /api/auth/signup. */
    method RegisterUser(req: Credentials, answer: ProviderAnswer) returns (r: Reply<Session>, consulted: bool)
      requires Valid()
      modifies this
      ensures Valid()
      ensures AuthOutcome(r, accounts, consulted) == RegisterEffect(old(accounts), old(nextId), req, answer)
      ensures nextId == if r.Ok? then old(nextId) + 1 else old(nextId)
    {
      consulted := false;
      if !Truthy(req.email) || !Truthy(req.password) {
        return Err(BAD_REQUEST), consulted;
      }
      if req.email.value in accounts {
        return Err(BAD_REQUEST), consulted;
      }
      consulted := true;
      if answer.Refused? {
        return Err(BAD_REQUEST), consulted;
      }
      var identity := answer.identity;
      if identity.email in accounts {
        return Err(SERVER_ERROR), consulted;
      }
      var user := CreateAccount(identity);
      r := Ok(CREATED, SessionFor(user));
    }

    /** POST /api/auth/login. */
    method LoginUser(req: Credentials, answer: ProviderAnswer) returns (r: Reply<Session>, consulted: bool)
      requires Valid()
      modifies this
      ensures Valid()
      ensures AuthOutcome(r, accounts, consulted) == LoginEffect(old(accounts), old(nextId), req, answer)
      ensures nextId == if accounts == old(accounts) then old(nextId) else old(nextId) + 1
    {
      consulted := false;
      if !Truthy(req.email) || !Truthy(req.password) {
        return Err(BAD_REQUEST), consulted;
      }
      consulted := true;
      if answer.Refused? {
        return Err(UNAUTHORIZED), consulted;
      }
      var identity := answer.identity;
      var user: Account;
      if identity.email in accounts {
        user := accounts[identity.email];
      } else {
        user := CreateAccount(identity);
        assert accounts != old(accounts) by {
          assert identity.email in accounts && identity.email !in old(accounts);
        }
      }
      r := Ok(OK, SessionFor(user));
    }

    /** GET /api/auth/profile: the account whose id the token carries, or 404. */
    method GetUserProfile(id: UserId) returns (r: Reply<Account>)
      requires Valid()
      ensures r.Err? <==> forall e :: e in accounts ==> accounts[e].id != id
      ensures r.Err? ==> r.code == NOT_FOUND
      ensures r.Ok? ==> r.code == OK && r.value.id == id && r.value.email in accounts && accounts[r.value.email] == r.value
      ensures r.Ok? ==> forall e :: e in accounts && accounts[e].id == id ==> accounts[e] == r.value
    {
      if !exists e | e in accounts :: accounts[e].id == id {
        return Err(NOT_FOUND);
      }
      var e :| e in accounts && accounts[e].id == id;
      r := Ok(OK, accounts[e]);
    }
  }
}
