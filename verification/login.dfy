/**
 * The mock authentication of both login forms (`handleDriverLogin`,
 * `handlePassengerLogin`): any non-empty email with any non-empty password
 * is accepted, and the user's display name is the part of the email before
 * its first '@' (`email.split('@')[0]`).
 */
module Login {
  import opened Wrappers

  datatype Role = Driver | Passenger

  datatype User = User(email: string, role: Role, name: string)

  /** `email.split('@')[0]`: the longest prefix of `email` without an '@'. */
  function EmailName(email: string): (name: string)
    ensures name <= email
    ensures '@' !in name
    ensures |name| < |email| ==> email[|name|] == '@'
  {
    if email == [] || email[0] == '@' then [] else [email[0]] + EmailName(email[1..])
  }

  /**
   * The name is the one prefix of the email that stops at the first '@', or
   * the whole email when it has none.
   */
  lemma EmailNameUnique(email: string, p: string)
    requires p <= email && '@' !in p
    requires p == email || email[|p|] == '@'
    ensures EmailName(email) == p
  {
  }

  /** The name is the whole email exactly when the email holds no '@'. */
  lemma EmailNameWhole(email: string)
    ensures EmailName(email) == email <==> '@' !in email
  {
  }

  /** The user a login form produces: `None` unless both fields are non-empty. */
  function MockLogin(email: string, password: string, role: Role): (u: Option<User>)
    ensures u.Some? <==> email != [] && password != []
    ensures u.Some? ==> u.value.email == email && u.value.role == role
    ensures u.Some? ==> u.value.name <= email && '@' !in u.value.name
    ensures u.Some? ==> u.value.name == EmailName(email)
  {
    if email != [] && password != [] then Some(User(email, role, EmailName(email))) else None
  }
}
