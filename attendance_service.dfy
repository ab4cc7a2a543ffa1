/**
 * The attendance service: check-in and check-out (local placeholders in fallback mode),
 * the conversion of the backend's history, and today's status derived from its head.
 */
module AttendanceService {
  import opened Wrappers
  import opened Js
  import opened Types
  import opened Api
  import opened Mode

  const DefaultLocation: string := "Main Office — Floor 3"
  const DefaultDevice: string := "web-browser"
  const DefaultCheckInMethod: string := "manual"
  /** The fixed duration every fallback check-out reports. */
  const FallbackHours: real := 8.5
  const DefaultLimit: int := 30
  const DefaultSkip: int := 0

  /** What the caller may say about a check-in; each field may be omitted. */
  datatype CheckInMeta = CheckInMeta(location: Option<string>, deviceId: Option<string>, checkInMethod: Option<string>)

  /**
   * `attendanceService.checkIn`. `now` is the text of the current time in milliseconds and
   * `nowIso` the same instant in ISO format.
   */
  function CheckIn(mode: Mode, meta: CheckInMeta, now: string, nowIso: string,
                   reply: Result<CheckInReply, ServiceError>): (r: Effect<CheckInReply>)
    ensures mode == Fallback ==> r == Effect(None, Success(CheckInReply(now, nowIso, Some(true))))
    ensures mode == Remote ==>
      r.sent.Some? && r.sent.value.CheckInRequest? && r.result == reply &&
      var q := r.sent.value;
      (q.location == DefaultLocation <==> !Present(meta.location) || meta.location == Some(DefaultLocation)) &&
      (q.deviceId == DefaultDevice <==> !Present(meta.deviceId) || meta.deviceId == Some(DefaultDevice)) &&
      (q.checkInMethod == DefaultCheckInMethod <==>
         !Present(meta.checkInMethod) || meta.checkInMethod == Some(DefaultCheckInMethod)) &&
      (Present(meta.location) ==> Some(q.location) == meta.location) &&
      (Present(meta.deviceId) ==> Some(q.deviceId) == meta.deviceId) &&
      (Present(meta.checkInMethod) ==> Some(q.checkInMethod) == meta.checkInMethod)
  {
    if mode == Fallback then
      Effect(None, Success(CheckInReply(now, nowIso, Some(true))))
    else
      var request := CheckInRequest(
        StringOr(meta.location, DefaultLocation),
        StringOr(meta.deviceId, DefaultDevice),
        StringOr(meta.checkInMethod, DefaultCheckInMethod));
      Effect(Some(request), reply)
  }

  /** `attendanceService.checkOut`: a fixed 8.5 hours in fallback mode, whatever the id. */
  function CheckOut(mode: Mode, attendanceId: string, nowIso: string,
                    reply: Result<CheckOutReply, ServiceError>): (r: Effect<CheckOutReply>)
    ensures mode == Fallback ==>
      r.sent == None && r.result.Success? &&
      r.result.value.totalHours == FallbackHours && r.result.value.success == Some(true) &&
      r.result.value.checkOutTime == nowIso
    ensures mode == Remote ==>
      r.sent == Some(CheckOutRequest(attendanceId)) && r.result == reply &&
      VerbOf(r.sent.value) == Post && PathOf(r.sent.value) == "/api/check-out/" + attendanceId
  {
    if mode == Fallback then
      Effect(None, Success(CheckOutReply(nowIso, FallbackHours, Some(true))))
    else
      Effect(Some(CheckOutRequest(attendanceId)), reply)
  }

  /** In fallback mode the record id plays no part in a check-out. */
  lemma FallbackCheckOutIgnoresId(id1: string, id2: string, nowIso: string,
                                  reply1: Result<CheckOutReply, ServiceError>,
                                  reply2: Result<CheckOutReply, ServiceError>)
    ensures CheckOut(Fallback, id1, nowIso, reply1) == CheckOut(Fallback, id2, nowIso, reply2)
  {
  }

  /** A record's status and its check-out agree: checked in exactly while the record is open. */
  predicate StatusMatchesCheckOut(rec: AttendanceRecord) {
    (rec.status == CheckedIn <==> rec.checkOut == None) &&
    (rec.status == CheckedOut <==> rec.checkOut != None)
  }

  /** The client's view of one backend attendance record. */
  function ToRecord(b: BackendRecord): (rec: AttendanceRecord)
    ensures StatusMatchesCheckOut(rec) && rec.status != Absent
    ensures rec.status == CheckedIn <==> !Present(b.checkOutTime)
    ensures Present(b.checkOutTime) ==> rec.checkOut == b.checkOutTime
    ensures rec.userId == "" <==> !Present(b.userId)
    ensures Present(b.userId) ==> Some(rec.userId) == b.userId
    ensures rec.checkIn == b.checkInTime && rec.date == rec.checkIn
    ensures rec.id == b.id && rec.location == b.location && rec.device == b.deviceId
    ensures rec.totalHours == b.totalHours
  {
    AttendanceRecord(
      id := b.id,
      userId := StringOr(b.userId, ""),
      checkIn := b.checkInTime,
      checkOut := StringOrNull(b.checkOutTime),
      status := if !Present(b.checkOutTime) then CheckedIn else CheckedOut,
      location := b.location,
      device := b.deviceId,
      totalHours := b.totalHours,
      date := b.checkInTime)
  }

  /** `records.map(...)`: one converted record per backend record, in the same order. */
  function ToRecords(bs: seq<BackendRecord>): (rs: seq<AttendanceRecord>)
    ensures |rs| == |bs|
    ensures forall i :: 0 <= i < |bs| ==> rs[i] == ToRecord(bs[i])
  {
    if bs == [] then [] else [ToRecord(bs[0])] + ToRecords(bs[1..])
  }

  /** `attendanceService.getHistory`; an omitted limit or skip takes its default. */
  function GetHistory(mode: Mode, limit: Option<int>, skip: Option<int>,
                      reply: Result<HistoryReply, ServiceError>): (r: Effect<seq<AttendanceRecord>>)
    ensures mode == Fallback ==> r == Effect(None, Success([]))
    ensures mode == Remote ==>
      r.sent.Some? && r.sent.value.HistoryRequest? &&
      VerbOf(r.sent.value) == Get && PathOf(r.sent.value) == "/api/attendance" &&
      r.sent.value.limit == (if limit.Some? then limit.value else DefaultLimit) &&
      r.sent.value.skip == (if skip.Some? then skip.value else DefaultSkip) &&
      (r.result.Success? <==> reply.Success?) &&
      (reply.Failure? ==> r.result.error == reply.error) &&
      (reply.Success? ==>
         |r.result.value| == |reply.value.records| &&
         forall i :: 0 <= i < |reply.value.records| ==> r.result.value[i] == ToRecord(reply.value.records[i]))
  {
    if mode == Fallback then
      Effect(None, Success([]))
    else
      var request := HistoryRequest(
        if limit.Some? then limit.value else DefaultLimit,
        if skip.Some? then skip.value else DefaultSkip);
      Effect(Some(request), reply.MapValue((h: HistoryReply) => ToRecords(h.records)))
  }

  /** Every record the history yields keeps its status in step with its check-out. */
  lemma HistoryStatusesConsistent(mode: Mode, limit: Option<int>, skip: Option<int>,
                                  reply: Result<HistoryReply, ServiceError>, i: int)
    requires GetHistory(mode, limit, skip, reply).result.Success?
    requires 0 <= i < |GetHistory(mode, limit, skip, reply).result.value|
    ensures StatusMatchesCheckOut(GetHistory(mode, limit, skip, reply).result.value[i])
    ensures GetHistory(mode, limit, skip, reply).result.value[i].status != Absent
  {
  }

  /**
   * `attendanceService.getTodayStatus`: the head of a one-record history when it was checked in
   * today, else `None`. `dayOf` gives the calendar day of a timestamp and `today` the current one.
   */
  function GetTodayStatus(mode: Mode, today: string, dayOf: string -> string,
                          reply: Result<HistoryReply, ServiceError>): (r: Effect<Option<AttendanceRecord>>)
    ensures var h := GetHistory(mode, Some(1), Some(0), reply);
      r.sent == h.sent &&
      (r.result.Success? <==> h.result.Success?) &&
      (h.result.Failure? ==> r.result.error == h.result.error) &&
      (h.result.Success? && h.result.value == [] ==> r.result.value == None) &&
      (h.result.Success? && h.result.value != [] ==>
         (r.result.value == Some(h.result.value[0]) <==> dayOf(h.result.value[0].checkIn) == today) &&
         (r.result.value != Some(h.result.value[0]) ==> r.result.value == None))
    ensures mode == Fallback ==> r == Effect(None, Success(None))
  {
    var history := GetHistory(mode, Some(1), Some(0), reply);
    match history.result
    case Failure(e) => Effect(history.sent, Failure(e))
    case Success(records) =>
      if |records| > 0 && dayOf(records[0].checkIn) == today then
        Effect(history.sent, Success(Some(records[0])))
      else
        Effect(history.sent, Success(None))
  }
}
