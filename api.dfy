/**
 * The backend as the services see it: the requests they send, the reply bodies they read,
 * and the conversion of the backend's user shape into the client's.
 * The HTTP client itself is not modelled; a reply is a parameter of each operation.
 */
module Api {
  import opened Wrappers
  import opened Js
  import opened Types

  datatype Verb = Get | Post

  /** Every request the core sends, with its body or query parameters. */
  datatype Request =
    | LoginRequest(email: string, password: string)
    | RegisterRequest(email: string, password: string, firstName: string, lastName: string,
                      employeeId: string, department: string, position: string, phone: string)
    | MeRequest
    | LogoutRequest
    | CheckInRequest(location: string, deviceId: string, checkInMethod: string)
    | CheckOutRequest(attendanceId: string)
    | HistoryRequest(limit: int, skip: int)
    | UsersRequest
    | StatsRequest

  function VerbOf(r: Request): Verb {
    match r
    case MeRequest | HistoryRequest(_, _) | UsersRequest | StatsRequest => Get
    case _ => Post
  }

  function PathOf(r: Request): string {
    match r
    case LoginRequest(_, _) => "/auth/login"
    case RegisterRequest(_, _, _, _, _, _, _, _) => "/auth/register"
    case MeRequest => "/auth/me"
    case LogoutRequest => "/auth/logout"
    case CheckInRequest(_, _, _) => "/api/check-in"
    case CheckOutRequest(id) => "/api/check-out/" + id
    case HistoryRequest(_, _) => "/api/attendance"
    case UsersRequest => "/api/users"
    case StatsRequest => "/api/stats"
  }

  /**
   * Why a service operation failed: transport, a non-2xx status, a reply body of the wrong
   * shape, or a stored profile that is not valid JSON.
   */
  datatype ServiceError = NetworkError | HttpError(status: int, message: string) | MalformedBody | SyntaxError

  /**
   * What a service operation does: the request it sends, if any, and what it resolves to.
   * `sent == None` means the operation never reaches the backend.
   */
  datatype Effect<+T> = Effect(sent: Option<Request>, result: Result<T, ServiceError>)

  /** A user as the backend sends it; the two flags may be any JSON value. */
  datatype BackendUser = BackendUser(
    id: string,
    email: string,
    firstName: string,
    lastName: string,
    isAdmin: JsValue,
    department: Option<string>,
    position: Option<string>,
    phone: Option<string>,
    isActive: JsValue,
    createdAt: string)

  /** An attendance record as the backend sends it; absent and null fields are `None`. */
  datatype BackendRecord = BackendRecord(
    id: string,
    userId: Option<string>,
    checkInTime: string,
    checkOutTime: Option<string>,
    location: Option<string>,
    deviceId: Option<string>,
    totalHours: Option<real>)

  datatype LoginReply = LoginReply(accessToken: string, user: BackendUser)
  datatype RegisterReply = RegisterReply(user: BackendUser)
  datatype MeReply = MeReply(user: BackendUser)
  datatype CheckInReply = CheckInReply(attendanceId: string, checkInTime: string, success: Option<bool>)
  datatype CheckOutReply = CheckOutReply(checkOutTime: string, totalHours: real, success: Option<bool>)
  datatype HistoryReply = HistoryReply(records: seq<BackendRecord>)
  datatype UsersReply = UsersReply(users: seq<BackendUser>)
  datatype StatsReply = StatsReply(totalUsers: Option<int>, todayCheckins: Option<int>)

  /**
   * The client's view of a backend user: admin exactly when `is_admin` is truthy, inactive
   * only when `is_active` is literally `false` (a missing flag means active), identity copied.
   */
  function ToClientUser(b: BackendUser): (u: User)
    ensures u.role == AdminRole <==> Truthy(b.isAdmin)
    ensures !u.isActive <==> b.isActive == Bool(false)
    ensures u.id == b.id && u.email == b.email && u.createdAt == b.createdAt
    ensures u.firstName == b.firstName && u.lastName == b.lastName
    ensures u.department == b.department && u.position == b.position && u.phone == b.phone
  {
    User(
      id := b.id,
      email := b.email,
      firstName := b.firstName,
      lastName := b.lastName,
      role := if Truthy(b.isAdmin) then AdminRole else UserRole,
      department := b.department,
      position := b.position,
      phone := b.phone,
      isActive := b.isActive != Bool(false),
      createdAt := b.createdAt)
  }

  /** The backend shape of a client user, with both flags sent as booleans. */
  function ToBackendUser(u: User): BackendUser {
    BackendUser(u.id, u.email, u.firstName, u.lastName, Bool(u.role == AdminRole),
                u.department, u.position, u.phone, Bool(u.isActive), u.createdAt)
  }

  /** Converting a client user to the backend shape and back loses nothing. */
  lemma ClientUserRoundTrip(u: User)
    ensures ToClientUser(ToBackendUser(u)) == u
  {
  }

  /** A missing `is_active` and a falsy one other than `false` (0, "", null) both read as active. */
  lemma OnlyLiteralFalseDeactivates(b: BackendUser)
    requires b.isActive in {Undefined, Null, Num(0.0), Str("")}
    ensures ToClientUser(b).isActive
  {
  }
}
