/**
 * The auth service: in fallback mode it answers locally for the built-in administrator,
 * otherwise it forwards to the backend and converts the backend's user shape.
 */
module AuthService {
  import opened Wrappers
  import opened Js
  import opened Types
  import opened Storage
  import opened Api
  import opened Mode

  const DemoEmail: string := "admin@nexus.com"
  const DemoPassword: string := "Admin@123"
  const DemoTokenPrefix: string := "demo_token_"
  const EmployeeIdPrefix: string := "EMP"

  /** The built-in administrator; `loadedAt` is the time the module was loaded. */
  function DemoAdmin(loadedAt: string): (u: User)
    ensures u.email == DemoEmail && u.role == AdminRole && u.isActive && u.createdAt == loadedAt
    ensures u.department.Some? && u.position.Some? && u.phone.Some?
  {
    User(
      id := "1",
      email := "admin@nexus.com",
      firstName := "Admin",
      lastName := "User",
      role := AdminRole,
      department := Some("IT"),
      position := Some("System Administrator"),
      phone := Some("+1 555-0100"),
      isActive := true,
      createdAt := loadedAt)
  }

  /** A login answer: made up locally for the demo pair, or the backend's body passed through. */
  datatype LoginAnswer = DemoLogin(accessToken: string, user: User) | BackendLogin(reply: LoginReply)

  /**
   * `authService.login`. `now` is the text of the current time in milliseconds; `reply` is
   * what the backend answers if it is asked.
   */
  function Login(mode: Mode, creds: LoginCredentials, now: string, loadedAt: string,
                 reply: Result<LoginReply, ServiceError>): (r: Effect<LoginAnswer>)
    ensures r.sent == None <==>
      mode == Fallback && creds.email == DemoEmail && creds.password == DemoPassword
    ensures r.sent == None ==>
      r.result.Success? && r.result.value.DemoLogin? &&
      r.result.value.user == DemoAdmin(loadedAt) && r.result.value.user.role == AdminRole &&
      DemoTokenPrefix <= r.result.value.accessToken
    ensures r.sent != None ==>
      r.sent == Some(LoginRequest(creds.email, creds.password)) &&
      (r.result.Success? <==> reply.Success?) &&
      (reply.Success? ==> r.result.value == BackendLogin(reply.value)) &&
      (reply.Failure? ==> r.result.error == reply.error)
  {
    if mode == Fallback && creds.email == DemoEmail && creds.password == DemoPassword then
      Effect(None, Success(DemoLogin(DemoTokenPrefix + now, DemoAdmin(loadedAt))))
    else
      Effect(Some(LoginRequest(creds.email, creds.password)), reply.MapValue(r => BackendLogin(r)))
  }

  /** The password alone never opens a local session: any other e-mail goes to the backend. */
  lemma OnlyDemoPairStaysLocal(mode: Mode, creds: LoginCredentials, now: string, loadedAt: string,
                               reply: Result<LoginReply, ServiceError>)
    requires creds.email != DemoEmail || creds.password != DemoPassword
    ensures Login(mode, creds, now, loadedAt, reply).sent == Some(LoginRequest(creds.email, creds.password))
  {
  }

  /** A registration answer: a user made up locally, or the backend's body passed through. */
  datatype RegisterAnswer = DemoRegistration(user: User) | BackendRegistration(reply: RegisterReply)

  /** `authService.register`: local in fallback mode, otherwise a request with defaulted fields. */
  function Register(mode: Mode, data: RegisterData, now: string, loadedAt: string,
                    reply: Result<RegisterReply, ServiceError>): (r: Effect<RegisterAnswer>)
    ensures r.sent == None <==> mode == Fallback
    ensures mode == Fallback ==>
      r.result.Success? && r.result.value.DemoRegistration? &&
      var u := r.result.value.user;
      u.email == data.email && u.firstName == data.firstName && u.lastName == data.lastName &&
      u.role == UserRole && u.id == now &&
      // every other field is the built-in administrator's
      u.(id := "1", email := DemoEmail, firstName := "Admin", lastName := "User", role := AdminRole)
        == DemoAdmin(loadedAt)
    ensures mode == Remote ==>
      r.sent.Some? && r.sent.value.RegisterRequest? &&
      var q := r.sent.value;
      q.email == data.email && q.password == data.password &&
      q.firstName == data.firstName && q.lastName == data.lastName &&
      q.employeeId == EmployeeIdPrefix + now &&
      (q.department == "" <==> !Present(data.department)) &&
      (q.position == "" <==> !Present(data.position)) &&
      (q.phone == "" <==> !Present(data.phone)) &&
      (Present(data.department) ==> Some(q.department) == data.department) &&
      (Present(data.position) ==> Some(q.position) == data.position) &&
      (Present(data.phone) ==> Some(q.phone) == data.phone) &&
      (r.result.Success? <==> reply.Success?) &&
      (reply.Success? ==> r.result.value == BackendRegistration(reply.value)) &&
      (reply.Failure? ==> r.result.error == reply.error)
  {
    if mode == Fallback then
      var user := DemoAdmin(loadedAt).(
        id := now,
        email := data.email,
        firstName := data.firstName,
        lastName := data.lastName,
        role := UserRole);
      Effect(None, Success(DemoRegistration(user)))
    else
      var request := RegisterRequest(
        data.email, data.password, data.firstName, data.lastName, EmployeeIdPrefix + now,
        StringOr(data.department, ""), StringOr(data.position, ""), StringOr(data.phone, ""));
      Effect(Some(request), reply.MapValue(b => BackendRegistration(b)))
  }

  /**
   * `authService.getCurrentUser`. In fallback mode it parses the stored profile, or gives the
   * built-in administrator when none is stored; a stored `null` yields `None`. Otherwise it asks
   * the backend and converts the user it sends.
   */
  function GetCurrentUser(mode: Mode, store: map<string, string>, codec: ProfileCodec, loadedAt: string,
                          reply: Result<MeReply, ServiceError>): (r: Effect<Option<User>>)
    ensures r.sent == None <==> mode == Fallback
    ensures mode == Fallback && (UserKey !in store || store[UserKey] == "") ==>
      r.result == Success(Some(DemoAdmin(loadedAt)))
    ensures mode == Fallback && UserKey in store && store[UserKey] != "" ==>
      match codec.decode(store[UserKey])
      case ParsedUser(u) => r.result == Success(Some(u))
      case ParsedNull => r.result == Success(None)
      case Malformed => r.result == Failure(SyntaxError)
    ensures mode == Remote ==>
      r.sent == Some(MeRequest) &&
      (r.result.Success? <==> reply.Success?) &&
      (reply.Success? ==> r.result.value == Some(ToClientUser(reply.value.user))) &&
      (reply.Failure? ==> r.result.error == reply.error)
  {
    if mode == Fallback then
      var userData := Lookup(store, UserKey);
      if Present(userData) then
        match codec.decode(userData.value)
        case ParsedUser(u) => Effect(None, Success(Some(u)))
        case ParsedNull => Effect(None, Success(None))
        case Malformed => Effect(None, Failure(SyntaxError))
      else
        Effect(None, Success(Some(DemoAdmin(loadedAt))))
    else
      Effect(Some(MeRequest), reply.MapValue((m: MeReply) => Some(ToClientUser(m.user))))
  }

  /** `authService.logout`: no backend call in fallback mode; otherwise the backend's answer. */
  function Logout(mode: Mode, reply: Result<(), ServiceError>): (r: Effect<()>)
    ensures mode == Fallback ==> r.sent == None && r.result.Success?
    ensures mode == Remote ==> r.sent == Some(LogoutRequest) && r.result == reply
  {
    if mode == Fallback then Effect(None, Success(())) else Effect(Some(LogoutRequest), reply)
  }
}
