/** The client-side records shared by the session context, the services and the route guard. */
module Types {
  import opened Wrappers

  datatype Role = AdminRole | UserRole

  /** A user profile as the client holds it. */
  datatype User = User(
    id: string,
    email: string,
    firstName: string,
    lastName: string,
    role: Role,
    department: Option<string>,
    position: Option<string>,
    phone: Option<string>,
    isActive: bool,
    createdAt: string)

  /** The session snapshot exposed to the rest of the application. */
  datatype AuthState = AuthState(
    user: Option<User>,
    token: Option<string>,
    isAuthenticated: bool,
    isLoading: bool)

  /** The invariant every session snapshot should keep: authenticated exactly when user and token are both set. */
  predicate Consistent(s: AuthState) {
    s.isAuthenticated <==> s.user.Some? && s.token.Some?
  }

  datatype Status = CheckedIn | CheckedOut | Absent

  /** One check-in/check-out event as the client shows it. */
  datatype AttendanceRecord = AttendanceRecord(
    id: string,
    userId: string,
    checkIn: string,
    checkOut: Option<string>,
    status: Status,
    location: Option<string>,
    device: Option<string>,
    totalHours: Option<real>,
    date: string)

  datatype DashboardStats = DashboardStats(
    totalUsers: int,
    activeToday: int,
    avgHoursToday: real,
    checkedInNow: int)

  /** Login form data; an omitted `remember` is `false`. */
  datatype LoginCredentials = LoginCredentials(email: string, password: string, remember: bool)

  datatype RegisterData = RegisterData(
    firstName: string,
    lastName: string,
    email: string,
    password: string,
    department: Option<string>,
    position: Option<string>,
    phone: Option<string>)
}
