# RO.DevTest login and bad-request formatting, modelled in Dafny

This project models the two pieces of logic in the RO.DevTest web API backend:

- **`BadRequestException`** (module `BadRequest`, `bad_request.dfy`). The domain exception
  reports HTTP 400. Its two private formatters turn the errors of an Identity result or of a
  FluentValidation result into one message, with one `"- <description>"` line per error, in
  input order. Each formatter is a method whose `StringBuilder` loop is a local string that
  grows one line per step. Both are proved equal to one recursive specification, `Formatted`,
  over the sequence of descriptions. Lemmas about `Formatted` cover splitting over
  concatenation, the empty case, the length, one line terminator per error, and a round trip
  through `ParseMessages`, which splits the text at line feeds and strips the bullets.
- **`LoginCommandHandler.Handle`** (module `Login`, `login.dfy`). The identity abstraction is
  an immutable value holding three total functions: user lookup, password sign-in and role
  listing. The GUID used as the token and the two `DateTime.UtcNow` readings are an `Ambient`
  input. This makes `Handle` a pure function. It returns the outcome (a `LoginResponse` or
  the `UnauthorizedAccessException` message) together with the ordered list of effects it
  performed: gateway calls, token generation and clock reads. Each step of the handler is a
  small function that returns its answer together with its effect, both built from the same
  arguments. The list is assembled from those steps, and `Handle`'s contract checks it
  against the reference order `FullSequence`. Call order, and the fact that nothing happens
  after a failure, are stated over that list.
- **`AuthController.Login`** (module `AuthController`, `auth_controller.dfy`). This is the thin
  mapping of the handler's outcome to 200 with the response, or to 401 with the failure
  message.

`ExpirationDate − IssuedAt` is not always one hour. The handler reads `DateTime.UtcNow`
twice (LoginCommandHandler.cs:57-58), so the difference is one hour plus the time between the
two readings. `Login.ExpirationFollowsSecondReading` states this exactly.

## Model

| member | source | states |
|---|---|---|
| `BadRequest.FormatIdentityErrors` | API/RO.DevTest.Domain/Exception/BadRequestException.cs:27-33 | the loop's result is `Formatted` of the error descriptions, in input order |
| `BadRequest.FormatValidationErrors` | API/RO.DevTest.Domain/Exception/BadRequestException.cs:38-44 | the loop's result is `Formatted` of the validation error messages, in input order |
| `BadRequest.FormattersAgree` | API/RO.DevTest.Domain/Exception/BadRequestException.cs:27-44 | for the same message sequence both formatters give the same text, and that text parses back to the messages when none contains a line feed |
| `BadRequest.FormattedConcat` | API/RO.DevTest.Domain/Exception/BadRequestException.cs:29-31 | formatting `a + b` gives the text for `a` followed by the text for `b`: no filtering, deduplication or reordering |
| `BadRequest.FormattedEmpty` | API/RO.DevTest.Domain/Exception/BadRequestException.cs:28-32 | the output is the empty string exactly when there are no errors |
| `BadRequest.TwoMessagesExample` | API/RO.DevTest.Domain/Exception/BadRequestException.cs:29-31 | `["A is required", "B is invalid"]` formats to `"- A is required\n- B is invalid\n"` |
| `BadRequest.FormattedLength` | API/RO.DevTest.Domain/Exception/BadRequestException.cs:30 | the output length is the sum over errors of the description length + 2 + the terminator length |
| `BadRequest.OneLinePerMessage` | API/RO.DevTest.Domain/Exception/BadRequestException.cs:29-31 | the output has as many line feeds as there are errors, when no description contains one |
| `BadRequest.ParseFormatted` | API/RO.DevTest.Domain/Exception/BadRequestException.cs:29-31 | splitting the output at line feeds and removing the `"- "` bullets gives back the descriptions, in order, when none contains a line feed |
| `BadRequest.BadRequestException.StatusCode` | API/RO.DevTest.Domain/Exception/BadRequestException.cs:13 | the status is 400 (BadRequest) whichever constructor built the exception |
| `BadRequest.BadRequestException.FromIdentityResult` | API/RO.DevTest.Domain/Exception/BadRequestException.cs:15-16 | the message is the formatted identity errors |
| `BadRequest.BadRequestException.constructor` | API/RO.DevTest.Domain/Exception/BadRequestException.cs:18-19 | the message is the given string, unchanged |
| `BadRequest.BadRequestException.FromValidationResult` | API/RO.DevTest.Domain/Exception/BadRequestException.cs:21-22 | the message is the formatted validation errors |
| `Login.LoginCommandHandler.Handle` | API/RO.DevTest.Application/Features/Auth/Commands/LoginCommand/LoginCommandHandler.cs:36-61 | success iff the lookup finds a user and sign-in succeeds for that user; the effects always start with the lookup of the request's username and are a prefix of lookup, sign-in, token, roles, clock, clock for the found user |
| `Login.UserNotFound` | API/RO.DevTest.Application/Features/Auth/Commands/LoginCommand/LoginCommandHandler.cs:38-42 | a null lookup gives "Usuário não encontrado." after the lookup alone |
| `Login.WrongPassword` | API/RO.DevTest.Application/Features/Auth/Commands/LoginCommand/LoginCommandHandler.cs:44-48 | a found user whose sign-in fails gives "Credenciais inválidas." after exactly the lookup and the sign-in with the found user and the request's password |
| `Login.SignedIn` | API/RO.DevTest.Application/Features/Auth/Commands/LoginCommand/LoginCommandHandler.cs:50-60 | on success the token is the generator's output, IssuedAt is the first reading, ExpirationDate is the second reading + 1h, Roles is exactly the gateway's list, and all six effects happen in order |
| `Login.FailureStopsEarly` | API/RO.DevTest.Application/Features/Auth/Commands/LoginCommand/LoginCommandHandler.cs:38-48 | after a failure no token is generated, no roles are fetched and the clock is not read; after not-found, not even sign-in happens |
| `Login.FailureMessages` | API/RO.DevTest.Application/Features/Auth/Commands/LoginCommand/LoginCommandHandler.cs:39-48 | a failure's message is "Usuário não encontrado." exactly when the lookup gave null, and "Credenciais inválidas." exactly when it found a user |
| `Login.ExpirationFollowsSecondReading` | API/RO.DevTest.Application/Features/Auth/Commands/LoginCommand/LoginCommandHandler.cs:57-58 | ExpirationDate − IssuedAt = 1h + (second − first reading); it equals 1h iff both readings agree, and is ≥ 1h when the clock does not go backwards |
| `Login.TokenIgnoresUser` | API/RO.DevTest.Application/Features/Auth/Commands/LoginCommand/LoginCommandHandler.cs:69-72 | the token is the GUID text whichever user it is generated for |
| `AuthController.LoginEndpoint` | API/RO.DevTest.WebApi/Controllers/AuthController.cs:17-24 | 200 with the response exactly on success, otherwise 401 carrying the failure's message |
| `AuthController.UnknownUserIsUnauthorized` | API/RO.DevTest.WebApi/Controllers/AuthController.cs:18-23 | an unknown username ends in 401 with "Usuário não encontrado.", and the lookup is the only effect |
| `AuthController.FailuresShareStatus` | API/RO.DevTest.WebApi/Controllers/AuthController.cs:18-23 | the status is 200 when the user authenticates and 401 for both failure kinds |

## Left out

- Platform newline: `Environment.NewLine`, which `AppendLine` writes, is fixed to a single line feed.
- Null descriptions: C# interpolation turns a null description or message into the line `"- "`. Dafny strings cannot be null, so descriptions are taken as non-null.
- Library result types: `IdentityResult` and `ValidationResult` are reduced to their ordered error descriptions. Their other fields (codes, property names, severities) are never read by the formatters.
- `ApiException`, the base class, is not part of this model. Only the message it keeps is modelled, as the `message` field.
- Async and cancellation: the `Task`/`async` plumbing and the `CancellationToken` are left out. `Handle` never consults the token, so there is no cancellation behaviour to model.
- Token randomness: `Guid.NewGuid()` is an input (`Ambient.newGuid`). The model does not state uniqueness or format of tokens, so distinct tokens across runs are not claimed.
- Clock: `DateTime.UtcNow` readings are inputs, as ticks. `AddHours(1)` is modelled as adding 36,000,000,000 ticks. The `ArgumentOutOfRangeException` that `AddHours` throws past `DateTime.MaxValue` is not modelled, and neither are time zones.
- Gateway internals: the implementation of the identity abstraction (user storage, password hashing, role storage, lockout) is not part of this model. Its three answers are inputs. The user-creation operations it also offers are not used by `Handle`.
- Exceptions thrown by the gateway itself are not modelled. Exceptions other than `UnauthorizedAccessException` propagate out of the controller uncaught; that is not modelled either. The outcome type has only the two failure kinds `Handle` raises.
- Handler state: the handler's only field is set in its constructor and never reassigned. It is therefore modelled as an immutable value (`Login.LoginCommandHandler`), so `Handle` leaves the handler unchanged by construction rather than by a stated lemma.
- MediatR dispatch and ASP.NET result objects: beyond status and body, these are left out.
- `CreateUserCommandHandlerTests.cs` tests a handler that is not part of this model.
