/** The signed-in user and role as the views read them from the auth context, with the
    JavaScript distinctions they depend on: no user at all (`user?.displayName` is
    `undefined`) versus a user whose display name is not set (Firebase gives `null`). */
module Session {
  import opened Common

  /** A Firebase user: `displayName` is `null` (None) until a name has been set. */
  datatype User = User(displayName: Option<string>, email: string)

  /** A JavaScript value that is a string, `null` or `undefined`. */
  datatype JsText = Undefined | Null | Text(s: string)

  /** `user?.displayName`. */
  function DisplayNameOf(user: Option<User>): (v: JsText)
    ensures user.None? <==> v.Undefined?
    ensures v.Null? <==> user.Some? && user.value.displayName.None?
    ensures v.Text? ==> user.Some? && user.value.displayName == Some(v.s)
  {
    match user
    case None => Undefined
    case Some(u) => if u.displayName.Some? then Text(u.displayName.value) else Null
  }

  /** `${v}` in a template literal. */
  function Render(v: JsText): (r: string)
    ensures v.Undefined? ==> r == "undefined"
    ensures v.Null? ==> r == "null"
    ensures v.Text? ==> r == v.s
  {
    match v
    case Undefined => "undefined"
    case Null => "null"
    case Text(s) => s
  }

  /** `userRole === r`: an absent role equals no role name. */
  predicate HasRole(role: Option<string>, r: string)
  {
    role == Some(r)
  }
}
