/** The application's shared string constants: role names and booking and payment statuses. */
module Constants {

  // Roles
  const RoleSuperAdmin := "super_admin"
  const RoleAdmin := "admin"
  const RoleInstructor := "instructor"
  const RoleUser := "user"

  /** The four roles the application knows. The back end may send any other string. */
  const KnownRoles: set<string> := {RoleSuperAdmin, RoleAdmin, RoleInstructor, RoleUser}

  // Booking statuses
  const StatusPending := "pending"
  const StatusConfirmed := "confirmed"
  const StatusCancelled := "cancelled"

  // Simplified payment statuses
  const StatusPaid := "paid"
  const StatusFailed := "failed"

  /** Sentinel the list filters use for "no restriction". */
  const All := "all"
}
