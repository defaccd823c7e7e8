/**
 * The user records the authentication service reads but never changes:
 * the stored application user and the Spring Security view of it.
 */
module Users {

  /** A registered voter or administrator as stored by the user repository. */
  datatype AppUser = AppUser(
    id: int,
    email: string,
    firstName: string,
    lastName: string,
    role: string,
    personalNo: string,
    nationality: string,
    hasVoted: bool)

  /** The security framework's view of a user: login name, granted authorities and the backing record. */
  datatype UserDetails = UserDetails(username: string, authorities: seq<string>, user: AppUser)

  /** The name the login alert greets the user with: first name, one space, last name. */
  function DisplayName(u: AppUser): (name: string)
    ensures |name| == |u.firstName| + 1 + |u.lastName|
    ensures name[..|u.firstName|] == u.firstName
    ensures name[|u.firstName|] == ' '
    ensures name[|u.firstName| + 1..] == u.lastName
  {
    u.firstName + " " + u.lastName
  }
}
