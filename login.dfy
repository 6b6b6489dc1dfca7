/** The login command handler: look the user up, check the password, issue an
    opaque token and return it with the user's roles. The identity gateway, the
    GUID source and the UTC clock are inputs, so a run is a pure function of them;
    each run also reports, in order, the effects it performed. */
module Login {

  datatype Option<T> = None | Some(value: T)

  /** A UTC DateTime, counted in .NET ticks of 100 nanoseconds. */
  type Instant = int

  /** DateTime.AddHours(1), in ticks. */
  const TicksPerHour: int := 36_000_000_000

  const UserNotFoundMessage: string := "Usuário não encontrado."
  const InvalidCredentialsMessage: string := "Credenciais inválidas."

  /** The user entity, opaque to the handler. */
  datatype User = User(id: string, email: string)

  datatype SignInResult = SignInResult(succeeded: bool)

  datatype LoginCommand = LoginCommand(username: string, password: string)

  datatype LoginResponse = LoginResponse(
    accessToken: string,
    issuedAt: Instant,
    expirationDate: Instant,
    roles: seq<string>)

  /** The three answers the identity abstraction gives the handler. */
  datatype IdentityAbstractor = IdentityAbstractor(
    findUserByEmail: string -> Option<User>,
    passwordSignIn: (User, string) -> SignInResult,
    getUserRoles: User -> seq<string>)

  /** What the handler does outside itself, in the order it does it. */
  datatype Effect =
    | FindUserByEmail(email: string)
    | PasswordSignIn(user: User, password: string)
    | GenerateToken(user: User)
    | GetUserRoles(user: User)
    | ReadUtcNow

  /** The values drawn from the environment on a successful run: the fresh GUID
      text and the two UtcNow readings, in the order they are read. */
  datatype Ambient = Ambient(newGuid: string, firstUtcNow: Instant, secondUtcNow: Instant)

  /** Either the response, or the UnauthorizedAccessException's message. */
  datatype Outcome = Success(response: LoginResponse) | Unauthorized(message: string)

  datatype Run = Run(outcome: Outcome, effects: seq<Effect>)

  /** The token is the GUID text; the user is not consulted. */
  function GenerateAccessToken(user: User, newGuid: string): string
  {
    newGuid
  }

  /** Every effect a run can perform for `user`, in the order the handler performs them. */
  function FullSequence(request: LoginCommand, user: User): seq<Effect>
  {
    [FindUserByEmail(request.username), PasswordSignIn(user, request.password),
     GenerateToken(user), GetUserRoles(user), ReadUtcNow, ReadUtcNow]
  }

  /** The lookup finds a user and the password check succeeds for that user. */
  predicate Authenticates(gateway: IdentityAbstractor, request: LoginCommand)
  {
    var found := gateway.findUserByEmail(request.username);
    found.Some? && gateway.passwordSignIn(found.value, request.password).succeeded
  }

  // Each step of the handler gives its answer together with the effect that
  // produced it, both built from the same arguments.

  function FindUserStep(gateway: IdentityAbstractor, email: string): (Option<User>, Effect)
  {
    (gateway.findUserByEmail(email), FindUserByEmail(email))
  }

  function SignInStep(gateway: IdentityAbstractor, user: User, password: string): (SignInResult, Effect)
  {
    (gateway.passwordSignIn(user, password), PasswordSignIn(user, password))
  }

  function TokenStep(user: User, newGuid: string): (string, Effect)
  {
    (GenerateAccessToken(user, newGuid), GenerateToken(user))
  }

  function RolesStep(gateway: IdentityAbstractor, user: User): (seq<string>, Effect)
  {
    (gateway.getUserRoles(user), GetUserRoles(user))
  }

  function UtcNowStep(reading: Instant): (Instant, Effect)
  {
    (reading, ReadUtcNow)
  }

  /** The handler. Its only field is set at construction and never reassigned, so
      it is an immutable value and handling a request leaves it as it was. */
  datatype LoginCommandHandler = LoginCommandHandler(identityAbstractor: IdentityAbstractor)
  {
    function Handle(request: LoginCommand, ambient: Ambient): (run: Run)
      ensures run.outcome.Success? <==> Authenticates(identityAbstractor, request)
      ensures 1 <= |run.effects| <= 6 && run.effects[0] == FindUserByEmail(request.username)
      ensures var found := identityAbstractor.findUserByEmail(request.username);
        found.Some? ==> run.effects == FullSequence(request, found.value)[..|run.effects|]
    {
      var (found, lookup) := FindUserStep(identityAbstractor, request.username);
      if found.None? then
        Run(Unauthorized(UserNotFoundMessage), [lookup])
      else
        var user := found.value;
        var (signInResult, signIn) := SignInStep(identityAbstractor, user, request.password);
        if !signInResult.succeeded then
          Run(Unauthorized(InvalidCredentialsMessage), [lookup, signIn])
        else
          var (accessToken, generate) := TokenStep(user, ambient.newGuid);
          var (roles, listRoles) := RolesStep(identityAbstractor, user);
          var (issuedAt, firstRead) := UtcNowStep(ambient.firstUtcNow);
          var (now, secondRead) := UtcNowStep(ambient.secondUtcNow);
          Run(Success(LoginResponse(accessToken, issuedAt, now + TicksPerHour, roles)),
              [lookup, signIn, generate, listRoles, firstRead, secondRead])
    }
  }

  /** A run performed `e`. */
  predicate Performed(run: Run, e: Effect)
  {
    e in run.effects
  }

  // ---------------------------------------------------------------------------
  // Properties of Handle

  /** Lookup returns null: "user not found", and nothing but the lookup happened. */
  lemma UserNotFound(handler: LoginCommandHandler, request: LoginCommand, ambient: Ambient)
    requires handler.identityAbstractor.findUserByEmail(request.username).None?
    ensures handler.Handle(request, ambient) ==
      Run(Unauthorized(UserNotFoundMessage), [FindUserByEmail(request.username)])
  {
  }

  /** A user is found but sign-in fails: "invalid credentials", after exactly the
      lookup and the sign-in; no token, no roles, no clock. */
  lemma WrongPassword(handler: LoginCommandHandler, request: LoginCommand, ambient: Ambient, user: User)
    requires handler.identityAbstractor.findUserByEmail(request.username) == Some(user)
    requires !handler.identityAbstractor.passwordSignIn(user, request.password).succeeded
    ensures handler.Handle(request, ambient) ==
      Run(Unauthorized(InvalidCredentialsMessage),
          [FindUserByEmail(request.username), PasswordSignIn(user, request.password)])
  {
  }

  /** The success path: the response carries the generator's token, the first
      clock reading as IssuedAt, the second plus one hour as ExpirationDate, and
      exactly the gateway's roles, after all six effects in order. */
  lemma SignedIn(handler: LoginCommandHandler, request: LoginCommand, ambient: Ambient, user: User)
    requires handler.identityAbstractor.findUserByEmail(request.username) == Some(user)
    requires handler.identityAbstractor.passwordSignIn(user, request.password).succeeded
    ensures var run := handler.Handle(request, ambient);
      run.outcome.Success? &&
      run.outcome.response.accessToken == ambient.newGuid &&
      run.outcome.response.issuedAt == ambient.firstUtcNow &&
      run.outcome.response.expirationDate == ambient.secondUtcNow + TicksPerHour &&
      run.outcome.response.roles == handler.identityAbstractor.getUserRoles(user) &&
      run.effects == FullSequence(request, user)
  {
  }

  /** After a failure no later step happens: no token, no role lookup, no clock read. */
  lemma FailureStopsEarly(handler: LoginCommandHandler, request: LoginCommand, ambient: Ambient, user: User)
    requires handler.Handle(request, ambient).outcome.Unauthorized?
    ensures var run := handler.Handle(request, ambient);
      !Performed(run, GenerateToken(user)) && !Performed(run, GetUserRoles(user)) &&
      !Performed(run, ReadUtcNow)
    ensures var run := handler.Handle(request, ambient);
      run.outcome.message == UserNotFoundMessage ==> run.effects == [FindUserByEmail(request.username)]
  {
  }

  /** The two failure messages are the only ones, and each names its cause. */
  lemma FailureMessages(handler: LoginCommandHandler, request: LoginCommand, ambient: Ambient)
    ensures var run := handler.Handle(request, ambient);
      run.outcome.Unauthorized? ==>
        var found := handler.identityAbstractor.findUserByEmail(request.username);
        (run.outcome.message == UserNotFoundMessage <==> found.None?) &&
        (run.outcome.message == InvalidCredentialsMessage <==> found.Some?)
  {
  }

  /** Timestamps. ExpirationDate is one hour after the SECOND clock reading; with a
      clock that does not run backwards it is at least IssuedAt + 1h, and exactly
      that only when both readings return the same instant. */
  lemma ExpirationFollowsSecondReading(handler: LoginCommandHandler, request: LoginCommand, ambient: Ambient)
    requires handler.Handle(request, ambient).outcome.Success?
    ensures var r := handler.Handle(request, ambient).outcome.response;
      r.expirationDate - r.issuedAt == TicksPerHour + (ambient.secondUtcNow - ambient.firstUtcNow)
    ensures var r := handler.Handle(request, ambient).outcome.response;
      r.expirationDate == r.issuedAt + TicksPerHour <==> ambient.firstUtcNow == ambient.secondUtcNow
    ensures var r := handler.Handle(request, ambient).outcome.response;
      ambient.firstUtcNow <= ambient.secondUtcNow ==> r.expirationDate >= r.issuedAt + TicksPerHour
  {
  }

  /** The token is the GUID text, whichever user it is generated for. */
  lemma TokenIgnoresUser(u: User, v: User, newGuid: string)
    ensures GenerateAccessToken(u, newGuid) == GenerateAccessToken(v, newGuid) == newGuid
  {
  }
}
