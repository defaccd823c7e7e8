/**
 * The claim record a session token carries, without its signature or its
 * wire encoding: what generateToken puts in it and what validateToken reads back.
 */
module Tokens {
  import opened Wrappers
  import opened Users

  /** Validity window of a token, in milliseconds (24 hours). */
  const ExpirationTime: int := 86400000

  /** The payload of a token: the user's fields plus subject, issued-at and expiration (epoch milliseconds). */
  datatype Claims = Claims(
    authorities: seq<string>,
    id: int,
    role: string,
    personalNo: string,
    firstName: string,
    lastName: string,
    nationality: string,
    hasVoted: bool,
    sub: string,
    iat: int,
    exp: int)

  /** Why the token parser refuses a token. */
  datatype ParseError = Malformed | InvalidSignature | Expired

  datatype TokenError = Unparsable(reason: ParseError) | UserNotFound(username: string)

  /**
   * generateToken, on its claims: `issuedAtReading` and `expiryReading` are
   * the two clock readings the source takes one after the other.
   */
  function GenerateToken(d: UserDetails, issuedAtReading: int, expiryReading: int): (c: Claims)
    ensures c.sub == d.username
    ensures c.authorities == d.authorities
    ensures c.id == d.user.id && c.role == d.user.role && c.personalNo == d.user.personalNo
    ensures c.firstName == d.user.firstName && c.lastName == d.user.lastName
    ensures c.nationality == d.user.nationality && c.hasVoted == d.user.hasVoted
    ensures c.iat == issuedAtReading
    ensures c.exp == expiryReading + ExpirationTime
    // with a clock that does not run backwards the token lives at least the full window
    ensures issuedAtReading <= expiryReading ==> c.exp - c.iat >= ExpirationTime
  {
    Claims(d.authorities, d.user.id, d.user.role, d.user.personalNo, d.user.firstName,
           d.user.lastName, d.user.nationality, d.user.hasVoted,
           d.username, issuedAtReading, expiryReading + ExpirationTime)
  }

  /**
   * validateToken: `parsed` is what the signed-token parser returned, and
   * `directory` stands for the user-details service the subject is looked up in.
   */
  function ValidateToken(parsed: Result<Claims, ParseError>, directory: map<string, UserDetails>)
    : (r: Result<UserDetails, TokenError>)
    ensures r.Success? <==> parsed.Success? && parsed.value.sub in directory
    ensures r.Success? ==> r.value == directory[parsed.value.sub]
    ensures parsed.Failure? ==> r == Failure(Unparsable(parsed.error))
    ensures parsed.Success? && r.Failure? ==> r.error == UserNotFound(parsed.value.sub)
  {
    match parsed
    case Failure(reason) => Failure(Unparsable(reason))
    case Success(c) =>
      var email := c.sub;  // extractUsername: the subject claim
      if email in directory then Success(directory[email]) else Failure(UserNotFound(email))
  }

  /** A token issued for a user validates back to the user registered under its login name. */
  lemma TokenRoundTrip(d: UserDetails, issuedAtReading: int, expiryReading: int,
                       directory: map<string, UserDetails>)
    requires d.username in directory
    ensures ValidateToken(Success(GenerateToken(d, issuedAtReading, expiryReading)), directory)
              == Success(directory[d.username])
  {
  }
}
