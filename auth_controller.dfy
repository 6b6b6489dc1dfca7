/** The login endpoint: it forwards the command to the handler and turns the
    handler's unauthorized failure into a 401 response carrying its message. */
module AuthController {
  import opened Login

  const StatusOk: int := 200
  const StatusUnauthorized: int := 401

  datatype ActionResult = OkResult(body: LoginResponse) | UnauthorizedResult(message: string)

  function StatusCode(result: ActionResult): int
  {
    match result
    case OkResult(_) => StatusOk
    case UnauthorizedResult(_) => StatusUnauthorized
  }

  /** POST api/auth/login over a handler run. */
  function LoginEndpoint(outcome: Outcome): (result: ActionResult)
    ensures StatusCode(result) == StatusOk <==> outcome.Success?
    ensures result.OkResult? ==> result.body == outcome.response
    ensures result.UnauthorizedResult? ==> result.message == outcome.message
  {
    match outcome
    case Success(response) => OkResult(response)
    case Unauthorized(message) => UnauthorizedResult(message)
  }

  /** An unknown user name yields 401 with the not-found message, after the lookup alone. */
  lemma UnknownUserIsUnauthorized(handler: LoginCommandHandler, request: LoginCommand, ambient: Ambient)
    requires handler.identityAbstractor.findUserByEmail(request.username).None?
    ensures var run := handler.Handle(request, ambient);
      LoginEndpoint(run.outcome) == UnauthorizedResult(UserNotFoundMessage) &&
      run.effects == [FindUserByEmail(request.username)]
  {
  }

  /** Both failure kinds reach the client as the same status, 401. */
  lemma FailuresShareStatus(handler: LoginCommandHandler, request: LoginCommand, ambient: Ambient)
    ensures StatusCode(LoginEndpoint(handler.Handle(request, ambient).outcome)) ==
      if Authenticates(handler.identityAbstractor, request) then StatusOk else StatusUnauthorized
  {
  }
}
