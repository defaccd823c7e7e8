/**
 * The authentication service object: it owns the failed-attempt counter and
 * the alerted-email set and updates them in place on every login attempt.
 * Its contract ties each call to the transition LoginGuard.Authenticate,
 * whose properties are proved in module LoginGuard.
 */
module AuthServiceImpl {
  import opened Wrappers
  import opened Users
  import opened LoginGuard

  class AuthService {
    /** Failed attempts per email since its last accepted password. */
    var failedAttempts: map<string, nat>
    /** Emails whose login alert has been sent since their last accepted password. */
    var emailSent: set<string>

    ghost function State(): Tracker
      reads this
    {
      Tracker(failedAttempts, emailSent)
    }

    ghost predicate Valid()
      reads this
    {
      LoginGuard.Valid(State())
    }

    constructor ()
      ensures Valid() && State() == Initial
    {
      failedAttempts := map[];
      emailSent := {};
    }

    /**
     * authenticate(email, password), with the answers of the authentication
     * manager, the user-details service, the user repository and the mail
     * service given as inputs. `outcome` is the returned user or the exception
     * the call ends with; `alert` the login alert that was sent, if any.
     */
    method Authenticate(email: string, verifierOk: bool, loaded: Option<UserDetails>,
                        directoryUser: Option<AppUser>, mailOk: bool)
      returns (outcome: Outcome, alert: Option<LoginAlert>)
      requires Valid()
      modifies this
      ensures Valid()
      ensures Step(State(), outcome, alert) ==
                LoginGuard.Authenticate(old(State()), Attempt(email, verifierOk, loaded, directoryUser, mailOk))
    {
      var cause: Cause;
      if verifierOk {
        failedAttempts := failedAttempts - {email};
        emailSent := emailSent - {email};
        if loaded.Some? {
          return Authenticated(loaded.value), None;
        }
        cause := UserNotLoaded;
      } else {
        cause := CredentialsRejected;
      }

      // failedAttempts.merge(email, 1, Integer::sum)
      var count := if email in failedAttempts then failedAttempts[email] + 1 else 1;
      failedAttempts := failedAttempts[email := count];

      outcome, alert := Failed(cause), None;
      if failedAttempts[email] >= AlertThreshold && email !in emailSent {
        if directoryUser.Some? {
          var user := directoryUser.value;
          if !mailOk {
            // the mail service's exception leaves the catch block in place of the original one
            outcome := Failed(AlertFailed);
            return;
          }
          alert := Some(LoginAlert(user.email, DisplayName(user)));
          emailSent := emailSent + {email};
        }
      }
    }
  }
}
