# Login guard and token claims of the online voting API

This project models the core of `AuthServiceImplementation`, the authentication service of a Spring REST API for an online voting system:

- **The brute-force login guard in `authenticate`.** The service keeps two process-wide collections: a failed-attempt counter per email and a set of emails that have already been alerted. An accepted password clears both entries for the email. A rejected password increments the counter. When the count is at least 3 and the email has not been alerted yet, the service looks the user up. If the user is found, it sends a login alert and marks the email. The call then ends with an exception.
  - `LoginGuard.Authenticate` is the pure transition over that state.
  - `AuthServiceImpl.AuthService` is the service object. Its `Authenticate` method updates a `map` and a `set` field in place, and its contract says it performs exactly that transition.
  - `LoginGuard.Run` replays a sequence of calls and records which emails were alerted. The lemmas about streaks of failures are stated over it.
- **The claim record of a session token.** `generateToken` puts the user's fields in the record, sets the subject to the login name, sets issued-at, and sets expiration to a second clock reading plus 86400000 ms. `validateToken` reads the subject back and loads the user with it.
- **The request accessors.** They return the principal's name, and the first granted authority as the role.

The authentication manager, the user-details service, the user repository and the mail service are collaborators whose code is not part of this model. They appear as inputs carrying their answers:

- `verifierOk`: whether the password was accepted.
- `loaded`: the loaded user, or None when the user-details service threw.
- `directoryUser`: the repository's result.
- `mailOk`: whether `sendLoginAlert` returned normally.

The clock readings of `generateToken` are parameters. The ambient security context is passed in explicitly as an `Option<Authentication>`.

Two behaviours of the code are worth noting:

- The user is loaded inside the `try` block. If that load throws after the password was accepted, the entries have already been cleared. The catch block then counts one failure, and the call ends with the load's exception (`UserNotLoaded`).
- An exception thrown by `sendLoginAlert` inside `ifPresent` leaves the catch block in place of the rethrow (:59-68), and the email is not marked. The model follows this: the call ends with `AlertFailed`, no alert is recorded, and the next failure will try again.

## Model

| member | source | states |
|---|---|---|
| `LoginGuard.Reset` | src/main/java/org/example/kqz/services/impls/AuthServiceImplementation.java:50-51 | the email has no counter and no alert mark afterwards; every other email's count and mark are unchanged; the state invariant is kept |
| `LoginGuard.RecordFailure` | src/main/java/org/example/kqz/services/impls/AuthServiceImplementation.java:56 | the email's count becomes its old count + 1 (1 when absent); other counts and the alert set are unchanged; the invariant is kept |
| `LoginGuard.OnFailure` | src/main/java/org/example/kqz/services/impls/AuthServiceImplementation.java:55-68 | the catch block always ends in an exception; an alert goes out iff the new count is at least 3, the email is unmarked, the user is found and the mail service returns, and then the email is marked and the alert carries the user's address and "first last" name; a throwing mail service replaces the exception and leaves the mark off; otherwise the original cause is rethrown |
| `LoginGuard.Authenticate` | src/main/java/org/example/kqz/services/impls/AuthServiceImplementation.java:46-70 | success iff the password is accepted and the user loads, and then the loaded user is returned, both entries are cleared and no alert is sent; an accepted password whose user fails to load ends with the load's exception, count 1 and the email unmarked; a rejected password always fails, with the mail service's exception exactly when an alert was due and the mail service threw, and otherwise with the original exception, and counts exactly one more; other emails are never touched; the alert iff-condition; after an alert the email is marked and the alert carries the found user's address and "first last" name; without a found user the alert set is unchanged; the invariant (counts at least 1, marked emails have count at least 3) is preserved |
| `LoginGuard.Run` | src/main/java/org/example/kqz/services/impls/AuthServiceImplementation.java:36-37 | any sequence of calls from a valid state ends in a valid state |
| `LoginGuard.AtMostOneAlertPerStreak` | src/main/java/org/example/kqz/services/impls/AuthServiceImplementation.java:56-65 | across any calls in which an email's password is never accepted (other emails interleaved freely), that email is alerted at most once, and not at all if it was already alerted; once alerted it stays marked |
| `LoginGuard.StreakAlertsOnceAtThreshold` | src/main/java/org/example/kqz/services/impls/AuthServiceImplementation.java:56-65 | n consecutive wrong passwords for a known user raise the count by exactly n and alert exactly once, on the first of them that leaves the count at 3 or more, unless the email was already marked: the third failure from a clean state alerts and the fourth does not |
| `LoginGuard.SuccessRearmsAlert` | src/main/java/org/example/kqz/services/impls/AuthServiceImplementation.java:50-65 | after a successful login, whatever the history, the next three wrong passwords alert exactly once more and leave count 3 with the email marked |
| `AuthServiceImpl.AuthService.constructor` | src/main/java/org/example/kqz/services/impls/AuthServiceImplementation.java:36-37 | the service starts with an empty counter map and an empty alert set, which satisfy the invariant |
| `AuthServiceImpl.AuthService.Authenticate` | src/main/java/org/example/kqz/services/impls/AuthServiceImplementation.java:46-70 | the in-place updates of the counter map and alert set, the returned outcome and the sent alert are exactly the transition `LoginGuard.Authenticate`; the invariant is kept |
| `Users.DisplayName` | src/main/java/org/example/kqz/services/impls/AuthServiceImplementation.java:62 | the alert's name is the first name, one space, then the last name |
| `Tokens.GenerateToken` | src/main/java/org/example/kqz/services/impls/AuthServiceImplementation.java:74-95 | the subject claim is the user's login name; authorities, id, role, personal number, names, nationality and voted flag are copied; issued-at is the first clock reading; expiration is the second reading + 86400000 ms, so with a clock that does not run backwards the token lives at least 24 hours |
| `Tokens.ValidateToken` | src/main/java/org/example/kqz/services/impls/AuthServiceImplementation.java:102-116 | reads the subject claim of the parsed token (`extractUsername`) and succeeds iff the token parsed and its subject names a known user, returning that user; a parser refusal is passed on unchanged; otherwise the subject is reported as not found |
| `Tokens.TokenRoundTrip` | src/main/java/org/example/kqz/services/impls/AuthServiceImplementation.java:88-116 | a claim record issued for a user validates back to the user registered under its login name |
| `Session.LoggedInUserEmail` | src/main/java/org/example/kqz/services/impls/AuthServiceImplementation.java:125-128 | returns the principal's name when an authentication is present, and fails otherwise |
| `Session.LoggedInUserRole` | src/main/java/org/example/kqz/services/impls/AuthServiceImplementation.java:130-136 | returns the first granted authority iff there is at least one; an empty list fails with "Role not found"; a missing authentication fails |

## Left out

- Concurrency: the counter map and the alert set are concurrent collections, and the check at line 58 and the mark at line 64 are not atomic. Under interleaving, two threads can both send the alert. The model is sequential, so its at-most-once lemmas hold only for sequential runs.
- `LoginGuard.RecordFailure`: the count is an unbounded natural number. Java's `Integer::sum` wraps to a negative value after 2147483647 failures for one email, and this model does not capture that.
- Null emails, and exceptions thrown by the user repository inside the catch block, are not modelled.
- JWT signing, serialisation and parsing (compact JWS serialisation per section 7.1 of RFC 7515, HS256 per section 3.2 of RFC 7518, done by the jjwt library) are not modelled. Neither is the secret key derivation (`getSecretKey`, `@Value` loading). Only the claim record is modelled. The parser's verdict on signature, structure and expiry is an input to `Tokens.ValidateToken`.
- Tokens: jjwt writes `iat` and `exp` in whole seconds on the wire. The record keeps the millisecond clock readings.
- The security context holder is not modelled. The `Authentication` it holds is passed in as an argument.
- The wall clock is not modelled; the clock readings are parameters.
- The `AppUserDetails` casts are not modelled. A user's details always carry their `AppUser` record.
- The user-details service, the user repository, the authentication manager and the mail service are not part of this model. Their answers are inputs, and the user-details service is a map from login name to user in `Tokens.ValidateToken`.
