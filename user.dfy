/**
 * The account entity the login core reads. User.java, UserStatus.java and
 * UserRole.java are not modelled; the fields are those AuthService and its
 * tests use.
 */
module Users {
  import opened Wrappers
  import opened JavaLang

  datatype UserStatus = ACTIVE | INACTIVE | SUSPENDED

  /** A role, known by its enum constant's `name()`. */
  datatype UserRole = UserRole(name: string)

  /** `id` is null until the entity is persisted; `password` is the stored hash. */
  datatype User = User(id: Option<Long>, email: string, password: string, name: string, role: UserRole, status: UserStatus)
}
