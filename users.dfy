/** The authenticated identity attached to a socket (uid, name, email, picture). */
module Users {
  import opened Wrappers

  /** `uid` is always present; the other claims may be missing. */
  datatype User = User(uid: string, name: Option<string>, email: Option<string>, picture: Option<string>)

  /** `user.name || user.email`: the name when it is truthy, otherwise the email. */
  function NameOrEmail(user: User): (r: Option<string>)
    ensures r == user.name || r == user.email
    ensures Truthy(user.name) <==> r == user.name && Truthy(r)
    ensures !Truthy(user.name) ==> r == user.email
  {
    Or(user.name, user.email)
  }
}
