/** Locations inside the application. A path is the list of its '/'-separated segments after the
    leading '/': "/admin/dashboard" is ["admin", "dashboard"] and "/" is the empty list. */
module Paths {

  type Path = seq<string>

  const Home: Path := []
  const Login: Path := ["login"]
  const Dashboard: Path := ["dashboard"]
  const SuperAdminDashboard: Path := ["super-admin", "dashboard"]
  const AdminDashboard: Path := ["admin", "dashboard"]
  const InstructorDashboard: Path := ["instructor", "dashboard"]
  const UserDashboard: Path := ["user", "dashboard"]
  const MyBookings: Path := ["user", "bookings"]
  const BrowseClasses: Path := ["user", "classes"]
  const AdminAdmins: Path := ["admin", "admins"]
  const AdminUsers: Path := ["admin", "users"]
  const AdminServices: Path := ["admin", "services"]
  const AdminInstructors: Path := ["admin", "instructors"]
  const AdminSchedules: Path := ["admin", "schedules"]
  const AdminBookings: Path := ["admin", "bookings"]
}
