/**
 * The brute-force bookkeeping of AuthServiceImplementation.authenticate,
 * as a pure transition over the two pieces of process-wide state:
 * the failed-attempt counter per email and the set of emails already alerted.
 * The class in module AuthServiceImpl performs the same transition in place.
 */
module LoginGuard {
  import opened Wrappers
  import opened Users

  /** Number of failed attempts at which the login alert is sent. */
  const AlertThreshold: nat := 3

  /** The state kept between calls: `failedAttempts` and `emailSent`. */
  datatype Tracker = Tracker(failedAttempts: map<string, nat>, emailSent: set<string>)

  /** The state the service starts with: both collections empty. */
  const Initial := Tracker(map[], {})

  /**
   * Every recorded count is at least one, and an email is marked as alerted
   * only while its count stands at the threshold or above.
   */
  ghost predicate Valid(t: Tracker) {
    && (forall e :: e in t.failedAttempts ==> t.failedAttempts[e] >= 1)
    && (forall e :: e in t.emailSent ==> e in t.failedAttempts && t.failedAttempts[e] >= AlertThreshold)
  }

  /** The count for `e`, zero when it has no entry. */
  function Count(t: Tracker, e: string): nat {
    if e in t.failedAttempts then t.failedAttempts[e] else 0
  }

  /**
   * One call of authenticate, with its collaborators replaced by what they answered:
   * `verifierOk` is whether the authentication manager accepted the password,
   * `loaded` what the user-details service returned for the email (None: it threw),
   * `directoryUser` what the repository found by email, and
   * `mailOk` whether the mail service returned normally.
   */
  datatype Attempt = Attempt(
    email: string,
    verifierOk: bool,
    loaded: Option<UserDetails>,
    directoryUser: Option<AppUser>,
    mailOk: bool)

  /** The exception authenticate ends with. */
  datatype Cause =
    | CredentialsRejected   // thrown by the authentication manager
    | UserNotLoaded         // thrown by the user-details service after a successful check
    | AlertFailed           // thrown by the mail service; it replaces the original exception

  datatype Outcome = Authenticated(user: UserDetails) | Failed(cause: Cause)

  /** The arguments of one sendLoginAlert call that returned normally. */
  datatype LoginAlert = LoginAlert(address: string, displayName: string)

  datatype Step = Step(tracker: Tracker, outcome: Outcome, alert: Option<LoginAlert>)

  /** Removal of both entries for `e`, done before the user is loaded. */
  function Reset(t: Tracker, e: string): (r: Tracker)
    ensures e !in r.failedAttempts && e !in r.emailSent
    ensures forall x :: x != e ==> Count(r, x) == Count(t, x) && (x in r.emailSent <==> x in t.emailSent)
    ensures Valid(t) ==> Valid(r)
  {
    Tracker(t.failedAttempts - {e}, t.emailSent - {e})
  }

  /** `failedAttempts.merge(e, 1, Integer::sum)`. */
  function RecordFailure(t: Tracker, e: string): (r: Tracker)
    ensures e in r.failedAttempts && r.failedAttempts[e] == Count(t, e) + 1
    ensures forall x :: x != e ==> Count(r, x) == Count(t, x)
    ensures r.emailSent == t.emailSent
    ensures Valid(t) ==> Valid(r)
  {
    var next := if e in t.failedAttempts then t.failedAttempts[e] + 1 else 1;
    Tracker(t.failedAttempts[e := next], t.emailSent)
  }

  /**
   * The catch block: count the failure, send the alert once the threshold is
   * reached for an email not yet alerted and known to the repository, then
   * rethrow `cause` (or the mail service's exception, which replaces it).
   */
  function OnFailure(t: Tracker, a: Attempt, cause: Cause): (r: Step)
    requires cause != AlertFailed
    ensures r.outcome.Failed?
    ensures r.tracker.failedAttempts == RecordFailure(t, a.email).failedAttempts
    ensures r.alert.Some? <==>
              Count(t, a.email) + 1 >= AlertThreshold && a.email !in t.emailSent
              && a.directoryUser.Some? && a.mailOk
    ensures r.tracker.emailSent == if r.alert.Some? then t.emailSent + {a.email} else t.emailSent
    ensures r.alert.Some? ==>
              r.alert.value == LoginAlert(a.directoryUser.value.email, DisplayName(a.directoryUser.value))
    ensures r.outcome.cause == AlertFailed <==>
              Count(t, a.email) + 1 >= AlertThreshold && a.email !in t.emailSent
              && a.directoryUser.Some? && !a.mailOk
    ensures r.outcome.cause != AlertFailed ==> r.outcome.cause == cause
    ensures Valid(t) ==> Valid(r.tracker)
  {
    var counted := RecordFailure(t, a.email);
    if counted.failedAttempts[a.email] >= AlertThreshold && a.email !in counted.emailSent then
      match a.directoryUser
      case None => Step(counted, Failed(cause), None)
      case Some(user) =>
        if a.mailOk then
          Step(Tracker(counted.failedAttempts, counted.emailSent + {a.email}), Failed(cause),
               Some(LoginAlert(user.email, DisplayName(user))))
        else
          Step(counted, Failed(AlertFailed), None)
    else
      Step(counted, Failed(cause), None)
  }

  /** One call of authenticate: the new state, how the call ends and the alert it sent. */
  function Authenticate(t: Tracker, a: Attempt): (r: Step)
    // success: both entries cleared, nothing else touched, the loaded user returned
    ensures r.outcome.Authenticated? <==> a.verifierOk && a.loaded.Some?
    ensures r.outcome.Authenticated? ==>
              && r.outcome.user == a.loaded.value
              && r.tracker == Reset(t, a.email)
              && r.alert.None?
    // a rejected password always ends in an exception, counted exactly once
    ensures !a.verifierOk ==> r.outcome.Failed? && Count(r.tracker, a.email) == Count(t, a.email) + 1
    ensures !a.verifierOk ==> r.outcome.cause in {CredentialsRejected, AlertFailed}
    ensures !a.verifierOk ==>
              (r.outcome.cause == AlertFailed <==>
                 Count(t, a.email) + 1 >= AlertThreshold && a.email !in t.emailSent
                 && a.directoryUser.Some? && !a.mailOk)
    // the user load failing after an accepted password: reset, then one failure counted
    ensures a.verifierOk && a.loaded.None? ==>
              && r.outcome == Failed(UserNotLoaded)
              && Count(r.tracker, a.email) == 1
              && a.email !in r.tracker.emailSent
              && r.alert.None?
    // other emails are never touched
    ensures forall x :: x != a.email ==>
              Count(r.tracker, x) == Count(t, x) && (x in r.tracker.emailSent <==> x in t.emailSent)
    // the alert: sent exactly when the threshold is reached for a fresh, known email
    ensures r.alert.Some? <==>
              && !a.verifierOk
              && Count(t, a.email) + 1 >= AlertThreshold
              && a.email !in t.emailSent
              && a.directoryUser.Some?
              && a.mailOk
    ensures r.alert.Some? ==> a.email in r.tracker.emailSent
    ensures r.alert.Some? ==>
              r.alert.value == LoginAlert(a.directoryUser.value.email, DisplayName(a.directoryUser.value))
    ensures !a.verifierOk ==>
              r.tracker.emailSent == if r.alert.Some? then t.emailSent + {a.email} else t.emailSent
    ensures !a.verifierOk && a.directoryUser.None? ==> r.tracker.emailSent == t.emailSent
    ensures Valid(t) ==> Valid(r.tracker)
  {
    if a.verifierOk then
      var reset := Reset(t, a.email);
      match a.loaded
      case Some(user) => Step(reset, Authenticated(user), None)
      case None => OnFailure(reset, a, UserNotLoaded)
    else
      OnFailure(t, a, CredentialsRejected)
  }

  /** The state after a sequence of calls, and the emails alerted on the way, in order. */
  function Run(t: Tracker, attempts: seq<Attempt>): (r: (Tracker, seq<string>))
    ensures Valid(t) ==> Valid(r.0)
    decreases |attempts|
  {
    if attempts == [] then (t, [])
    else
      var s := Authenticate(t, attempts[0]);
      var rest := Run(s.tracker, attempts[1..]);
      (rest.0, (if s.alert.Some? then [attempts[0].email] else []) + rest.1)
  }

  /** How many times `e` occurs in an alert log. */
  function Occurrences(log: seq<string>, e: string): nat {
    if log == [] then 0
    else (if log[0] == e then 1 else 0) + Occurrences(log[1..], e)
  }

  /** Occurrences in a concatenated log add up. */
  lemma {:induction false} OccurrencesAppend(a: seq<string>, b: seq<string>, e: string)
    ensures Occurrences(a + b, e) == Occurrences(a, e) + Occurrences(b, e)
    decreases |a|
  {
    if a == [] {
      assert a + b == b;
    } else {
      assert (a + b)[1..] == a[1..] + b;
      OccurrencesAppend(a[1..], b, e);
    }
  }

  /** No call in `attempts` gets the password for `e` accepted. */
  predicate NoSuccessFor(attempts: seq<Attempt>, e: string) {
    forall i :: 0 <= i < |attempts| && attempts[i].email == e ==> !attempts[i].verifierOk
  }

  /**
   * A streak of calls in which `e`'s password is never accepted alerts `e`
   * at most once, and not at all if `e` was already alerted;
   * once alerted, `e` stays marked until the streak ends.
   */
  lemma {:induction false} AtMostOneAlertPerStreak(t: Tracker, attempts: seq<Attempt>, e: string)
    requires NoSuccessFor(attempts, e)
    ensures Occurrences(Run(t, attempts).1, e) <= (if e in t.emailSent then 0 else 1)
    ensures e in t.emailSent ==> e in Run(t, attempts).0.emailSent
    ensures Occurrences(Run(t, attempts).1, e) == 1 ==> e in Run(t, attempts).0.emailSent
    decreases |attempts|
  {
    if attempts != [] {
      var s := Authenticate(t, attempts[0]);
      assert NoSuccessFor(attempts[1..], e) by {
        forall i | 0 <= i < |attempts[1..]| && attempts[1..][i].email == e
          ensures !attempts[1..][i].verifierOk
        {
          assert attempts[1..][i] == attempts[i + 1];
        }
      }
      AtMostOneAlertPerStreak(s.tracker, attempts[1..], e);
      var rest := Run(s.tracker, attempts[1..]);
      OccurrencesAppend(if s.alert.Some? then [attempts[0].email] else [], rest.1, e);
    }
  }

  /** `n` calls for `e` with a wrong password, a known user and a working mail service. */
  function Failures(e: string, user: AppUser, n: nat): (r: seq<Attempt>)
    ensures |r| == n
    ensures forall i :: 0 <= i < n ==> r[i] == Attempt(e, false, None, Some(user), true)
  {
    if n == 0 then [] else [Attempt(e, false, None, Some(user), true)] + Failures(e, user, n - 1)
  }

  /**
   * `n` consecutive wrong passwords for a known user leave the count exact and
   * alert exactly once, when the count reaches the threshold, unless `e` was
   * already alerted: from a fresh email the third failure alerts, the fourth does not.
   */
  lemma {:induction false} StreakAlertsOnceAtThreshold(t: Tracker, e: string, user: AppUser, n: nat)
    ensures Count(Run(t, Failures(e, user, n)).0, e) == Count(t, e) + n
    ensures Occurrences(Run(t, Failures(e, user, n)).1, e) ==
              if e !in t.emailSent && n > 0 && Count(t, e) + n >= AlertThreshold then 1 else 0
    ensures e in Run(t, Failures(e, user, n)).0.emailSent <==>
              e in t.emailSent || (n > 0 && Count(t, e) + n >= AlertThreshold)
    decreases n
  {
    if n > 0 {
      var attempts := Failures(e, user, n);
      var s := Authenticate(t, attempts[0]);
      assert attempts[1..] == Failures(e, user, n - 1);
      StreakAlertsOnceAtThreshold(s.tracker, e, user, n - 1);
      var rest := Run(s.tracker, attempts[1..]);
      OccurrencesAppend(if s.alert.Some? then [e] else [], rest.1, e);
    }
  }

  /**
   * A successful login re-arms the alert: whatever happened before, the next
   * three consecutive wrong passwords for a known user alert exactly once more.
   */
  lemma SuccessRearmsAlert(t: Tracker, e: string, details: UserDetails, user: AppUser)
    ensures
      var ok := Attempt(e, true, Some(details), None, true);
      var r := Run(t, [ok] + Failures(e, user, 3));
      Occurrences(r.1, e) == 1 && Count(r.0, e) == 3 && e in r.0.emailSent
  {
    var ok := Attempt(e, true, Some(details), None, true);
    var attempts := [ok] + Failures(e, user, 3);
    var s := Authenticate(t, ok);
    assert attempts[1..] == Failures(e, user, 3);
    StreakAlertsOnceAtThreshold(s.tracker, e, user, 3);
    OccurrencesAppend([], Run(s.tracker, attempts[1..]).1, e);
  }
}
