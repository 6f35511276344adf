/** The admin user table, src/components/Dashboard/ManageUsers.jsx: the
    Make-Admin button and the avatar fallback. Its page control is
    Pagination.Pager and its list and page-count fallbacks are
    Common.ListOrEmpty and Pagination.TotalPages. */
module ManageUsers {
  import opened Common

  const PlaceholderImage := "/placeholder.jpg"

  datatype UserRow = UserRow(id: string, name: Option<string>, email: Option<string>,
                             image: Option<string>, role: Option<string>)

  /** Make Admin is shown unless the user already is an admin. */
  predicate CanMakeAdmin(user: UserRow)
  {
    user.role != Some("admin")
  }

  /** The avatar `src`: `user.image || "/placeholder.jpg"`. */
  function AvatarSrc(user: UserRow): (src: string)
    ensures src != ""
    ensures Truthy(user.image) ==> src == user.image.value
    ensures !Truthy(user.image) ==> src == PlaceholderImage
  {
    OrElse(user.image, PlaceholderImage)
  }

  /** The button is offered exactly to users whose role is not "admin",
      whatever other role they have or when they have none; granting the
      admin role removes it. */
  lemma MakeAdminOfferedExactlyToNonAdmins(user: UserRow)
    ensures CanMakeAdmin(user) <==> user.role != Some("admin")
    ensures user.role == None || user.role == Some("premium") ==> CanMakeAdmin(user)
    ensures !CanMakeAdmin(user.(role := Some("admin")))
  {
  }
}
