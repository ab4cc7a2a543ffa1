/** The admin service: the user list converted from the backend, and the dashboard counters. */
module AdminService {
  import opened Wrappers
  import opened Js
  import opened Types
  import opened Api
  import opened Mode

  /** `users.map(...)`: one client user per backend user, in the same order. */
  function ToClientUsers(bs: seq<BackendUser>): (us: seq<User>)
    ensures |us| == |bs|
    ensures forall i :: 0 <= i < |bs| ==> us[i] == ToClientUser(bs[i])
  {
    if bs == [] then [] else [ToClientUser(bs[0])] + ToClientUsers(bs[1..])
  }

  /** `adminService.getUsers`: empty in fallback mode, otherwise the backend's list converted. */
  function GetUsers(mode: Mode, reply: Result<UsersReply, ServiceError>): (r: Effect<seq<User>>)
    ensures mode == Fallback ==> r == Effect(None, Success([]))
    ensures mode == Remote ==>
      r.sent == Some(UsersRequest) &&
      (r.result.Success? <==> reply.Success?) &&
      (reply.Failure? ==> r.result.error == reply.error) &&
      (reply.Success? ==>
         var bs := reply.value.users;
         |r.result.value| == |bs| &&
         forall i :: 0 <= i < |bs| ==>
           r.result.value[i] == ToClientUser(bs[i]) &&
           (r.result.value[i].role == AdminRole <==> Truthy(bs[i].isAdmin)) &&
           (!r.result.value[i].isActive <==> bs[i].isActive == Bool(false)))
  {
    if mode == Fallback then
      Effect(None, Success([]))
    else
      Effect(Some(UsersRequest), reply.MapValue((u: UsersReply) => ToClientUsers(u.users)))
  }

  /** `adminService.getStats`: all zero in fallback mode; missing or zero counters read as 0. */
  function GetStats(mode: Mode, reply: Result<StatsReply, ServiceError>): (r: Effect<DashboardStats>)
    ensures mode == Fallback ==> r == Effect(None, Success(DashboardStats(0, 0, 0.0, 0)))
    ensures mode == Remote ==>
      r.sent == Some(StatsRequest) &&
      (r.result.Success? <==> reply.Success?) &&
      (reply.Failure? ==> r.result.error == reply.error) &&
      (reply.Success? ==>
         var st := r.result.value;
         (st.totalUsers == if reply.value.totalUsers.Some? then reply.value.totalUsers.value else 0) &&
         (st.activeToday == if reply.value.todayCheckins.Some? then reply.value.todayCheckins.value else 0) &&
         st.checkedInNow == st.activeToday &&
         st.avgHoursToday == 0.0)
  {
    if mode == Fallback then
      Effect(None, Success(DashboardStats(0, 0, 0.0, 0)))
    else
      Effect(Some(StatsRequest), reply.MapValue((s: StatsReply) =>
        DashboardStats(
          totalUsers := NumberOr(s.totalUsers, 0),
          activeToday := NumberOr(s.todayCheckins, 0),
          avgHoursToday := 0.0,
          checkedInNow := NumberOr(s.todayCheckins, 0))))
  }
}
