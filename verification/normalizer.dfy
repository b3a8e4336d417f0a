/**
 * The record normaliser of the attendance runner (`participant_converter`):
 * one raw participant of a Zoom meeting, together with the catalog row of its
 * session, becomes one row of the attendance table.
 *
 * Timestamps are wall-clock values at second resolution. Parsing the
 * provider's ISO-8601 strings is not modelled: a participant's `join_time`
 * and `leave_time` are given already parsed, as wall-clock times in the
 * source zone. Time-zone conversion (pytz and pandas) is a parameter.
 */
module Normalizer {
  import opened Wrappers
  import opened Decimal
  import opened Seqs

  datatype Date = Date(year: int, month: int, day: int)
  datatype TimeOfDay = TimeOfDay(hour: int, minute: int, second: int)
  datatype DateTime = DateTime(date: Date, time: TimeOfDay)

  /**
   * Converts a wall-clock time in the first zone to the wall-clock time of
   * the same instant in the second zone, then drops the zone tag.
   */
  type TzConvert = (string, string, DateTime) -> DateTime

  /** The run's parameters that the core reads. */
  datatype Params = Params(sourceTz: string, targetTz: string, dryRun: bool, deleteData: bool)

  /**
   * One row of the session catalog. `meetingId` is the Zoom meeting id (the
   * `Meeting_ID` column, after `int()`); `sessionId` is the organisation's
   * own session id (the `Meeting_Id` column).
   */
  datatype Series = Series(
    meetingId: int,
    sessionId: string,
    title: string,
    date: Date,
    startTime: TimeOfDay,
    endTime: TimeOfDay,
    duration: int,
    sessionType: string,
    location: string)

  /** One entry of a page's `participants` list. */
  datatype Participant = Participant(userId: string, joinTime: DateTime, leaveTime: DateTime)

  /** One row of the attendance table. */
  datatype Row = Row(
    zoomMeetingId: int,
    sessionId: string,
    entranceTime: DateTime,
    exitTime: DateTime,
    sessionStartTime: DateTime,
    sessionEndTime: DateTime,
    sessionDate: Date,
    entranceDate: Date,
    uniqueId: string,
    userId: string,
    sessionTitle: string,
    sessionDuration: int,
    sessionType: string,
    sessionLocation: string)

  /**
   * `str(user_id) + str(meeting_id)`: the user id is a string already, the
   * meeting id an int. The id splits back into both parts once the user id's
   * length is known.
   */
  function UniqueId(userId: string, meetingId: int): (id: string)
    ensures id == userId + IntToString(meetingId)
    ensures |id| > |userId| && id[..|userId|] == userId
    ensures ParseInt(id[|userId|..]) == Some(meetingId)
  {
    var id := userId + IntToString(meetingId);
    assert id[|userId|..] == IntToString(meetingId);
    IntToStringRoundTrip(meetingId);
    id
  }

  /** Builds the attendance row of participant `p` of meeting `meetingId`. */
  function ParticipantConverter(params: Params, tz: TzConvert, meetingId: int, series: Series, p: Participant): (r: Row)
    // identity: the unique id is the user id followed by the meeting id's decimal text
    ensures r.zoomMeetingId == meetingId && r.userId == p.userId && r.sessionId == series.sessionId
    ensures r.uniqueId == p.userId + IntToString(meetingId)
    // attendance: both ends converted to the target zone; the entrance date is the raw join date
    ensures r.entranceTime == tz(params.sourceTz, params.targetTz, p.joinTime)
    ensures r.exitTime == tz(params.sourceTz, params.targetTz, p.leaveTime)
    ensures r.entranceDate == p.joinTime.date
    // session: the catalog date with the catalog times of day, not converted
    ensures r.sessionDate == series.date == r.sessionStartTime.date == r.sessionEndTime.date
    ensures r.sessionStartTime.time == series.startTime && r.sessionEndTime.time == series.endTime
    // metadata copied verbatim
    ensures r.sessionTitle == series.title && r.sessionDuration == series.duration
    ensures r.sessionType == series.sessionType && r.sessionLocation == series.location
  {
    Row(
      zoomMeetingId := meetingId,
      sessionId := series.sessionId,
      entranceTime := tz(params.sourceTz, params.targetTz, p.joinTime),
      exitTime := tz(params.sourceTz, params.targetTz, p.leaveTime),
      sessionStartTime := DateTime(series.date, series.startTime),
      sessionEndTime := DateTime(series.date, series.endTime),
      sessionDate := series.date,
      entranceDate := p.joinTime.date,
      uniqueId := UniqueId(p.userId, meetingId),
      userId := p.userId,
      sessionTitle := series.title,
      sessionDuration := series.duration,
      sessionType := series.sessionType,
      sessionLocation := series.location)
  }

  /**
   * A row's unique id splits back into its user id and its meeting id: the
   * text after the user id parses to the row's meeting id.
   */
  lemma ConvertedIdSplits(params: Params, tz: TzConvert, meetingId: int, series: Series, p: Participant)
    ensures var r := ParticipantConverter(params, tz, meetingId, series, p);
      && |r.uniqueId| > |r.userId| && r.uniqueId[..|r.userId|] == r.userId
      && ParseInt(r.uniqueId[|r.userId|..]) == Some(r.zoomMeetingId)
  {
    var id := UniqueId(p.userId, meetingId);
    assert ParticipantConverter(params, tz, meetingId, series, p).uniqueId == id;
  }

  /**
   * The entrance date as line 55 writes it: `Timestamp.date()` gives a
   * `datetime.date`, which has no `to_datetime64`, so the expression raises
   * AttributeError (None) whatever the join time.
   */
  function EntranceDateAsWritten(joinTime: DateTime): Option<Date> {
    None
  }

  /** `participant_converter` as written: it raises wherever its entrance date does. */
  function ParticipantConverterAsWritten(params: Params, tz: TzConvert, meetingId: int, series: Series, p: Participant): Option<Row> {
    match EntranceDateAsWritten(p.joinTime)
    case None => None
    case Some(d) => Some(ParticipantConverter(params, tz, meetingId, series, p).(entranceDate := d))
  }

  /**
   * As written, converting any participant raises, while the modelled
   * converter gives the row whose entrance date is the join time's
   * calendar date, which is what line 55 evidently means.
   */
  lemma ConverterAsWrittenAlwaysFails(params: Params, tz: TzConvert, meetingId: int, series: Series, p: Participant)
    ensures ParticipantConverterAsWritten(params, tz, meetingId, series, p).None?
    ensures ParticipantConverter(params, tz, meetingId, series, p).entranceDate == p.joinTime.date
  {
  }

  /** `x` in front of `xs`, or None when either is None. */
  function ConsBoth<T>(x: Option<T>, xs: Option<seq<T>>): Option<seq<T>> {
    match x
    case None => None
    case Some(v) => (match xs case None => None case Some(vs) => Some([v] + vs))
  }

  /** The `for` loop over a page's participants as written: None once a conversion has raised. */
  function ConvertAllAsWritten(params: Params, tz: TzConvert, meetingId: int, series: Series, ps: seq<Participant>): Option<seq<Row>> {
    if ps == [] then Some([])
    else ConsBoth(ParticipantConverterAsWritten(params, tz, meetingId, series, ps[0]),
                  ConvertAllAsWritten(params, tz, meetingId, series, ps[1..]))
  }

  /**
   * As written, the loop over a page survives exactly the empty page, and
   * then it agrees with the modelled loop.
   */
  lemma ConvertAllAsWrittenFails(params: Params, tz: TzConvert, meetingId: int, series: Series, ps: seq<Participant>)
    ensures var w := ConvertAllAsWritten(params, tz, meetingId, series, ps);
      (w.Some? <==> ps == []) && (w.Some? ==> w.value == ConvertAll(params, tz, meetingId, series, ps))
  {
    if ps != [] {
      ConverterAsWrittenAlwaysFails(params, tz, meetingId, series, ps[0]);
    }
  }

  /** The rows of a list of participants, one per participant, in order. */
  function ConvertAll(params: Params, tz: TzConvert, meetingId: int, series: Series, ps: seq<Participant>): (rs: seq<Row>)
    ensures |rs| == |ps|
  {
    if ps == [] then [] else [ParticipantConverter(params, tz, meetingId, series, ps[0])] + ConvertAll(params, tz, meetingId, series, ps[1..])
  }

  /** The `i`-th row is the `i`-th participant's. */
  lemma {:induction false} ConvertAllAt(params: Params, tz: TzConvert, meetingId: int, series: Series, ps: seq<Participant>, i: nat)
    requires i < |ps|
    ensures ConvertAll(params, tz, meetingId, series, ps)[i] == ParticipantConverter(params, tz, meetingId, series, ps[i])
  {
    if i > 0 {
      ConvertAllAt(params, tz, meetingId, series, ps[1..], i - 1);
    }
  }

  lemma {:induction false} ConvertAllAppend(params: Params, tz: TzConvert, meetingId: int, series: Series, ps: seq<Participant>, qs: seq<Participant>)
    ensures ConvertAll(params, tz, meetingId, series, ps + qs)
         == ConvertAll(params, tz, meetingId, series, ps) + ConvertAll(params, tz, meetingId, series, qs)
  {
    var tail := ConvertAll(params, tz, meetingId, series, qs);
    if ps == [] {
      assert ps + qs == qs;
      assert [] + tail == tail;
    } else {
      assert (ps + qs)[0] == ps[0] && (ps + qs)[1..] == ps[1..] + qs;
      ConvertAllAppend(params, tz, meetingId, series, ps[1..], qs);
      var first := [ParticipantConverter(params, tz, meetingId, series, ps[0])];
      var middle := ConvertAll(params, tz, meetingId, series, ps[1..]);
      assert ConvertAll(params, tz, meetingId, series, ps + qs) == first + (middle + tail);
      assert ConvertAll(params, tz, meetingId, series, ps) == first + middle;
      AppendAssociative(first, middle, tail);
    }
  }

  /**
   * The time zones touch only the entrance and exit times: two runs that
   * differ in their zones or conversion produce rows that agree everywhere
   * else, including the entrance date and the session times.
   */
  lemma OnlyAttendanceTimesAreConverted(params1: Params, params2: Params, tz1: TzConvert, tz2: TzConvert,
                                        meetingId: int, series: Series, p: Participant)
    ensures var r1 := ParticipantConverter(params1, tz1, meetingId, series, p);
            var r2 := ParticipantConverter(params2, tz2, meetingId, series, p);
            r1.(entranceTime := r2.entranceTime, exitTime := r2.exitTime) == r2
  {
  }

  /**
   * The entrance date agrees with the calendar date of the entrance time
   * exactly when the conversion keeps the join time's calendar day.
   */
  lemma EntranceDateMatchesEntranceTimeIff(params: Params, tz: TzConvert, meetingId: int, series: Series, p: Participant)
    ensures var r := ParticipantConverter(params, tz, meetingId, series, p);
            r.entranceDate == r.entranceTime.date <==> tz(params.sourceTz, params.targetTz, p.joinTime).date == p.joinTime.date
  {
  }

  /**
   * A join at 02:30 UTC on 2021-10-01 is 22:30 the evening before in
   * US/Eastern (UTC-4 that day): the row's entrance time falls on
   * 2021-09-30 while its entrance date stays 2021-10-01.
   */
  lemma EntranceDateCrossesMidnight(params: Params, tz: TzConvert, series: Series, p: Participant)
    requires p.joinTime == DateTime(Date(2021, 10, 1), TimeOfDay(2, 30, 0))
    requires tz(params.sourceTz, params.targetTz, p.joinTime) == DateTime(Date(2021, 9, 30), TimeOfDay(22, 30, 0))
    ensures var r := ParticipantConverter(params, tz, series.meetingId, series, p);
            r.entranceDate == Date(2021, 10, 1) && r.entranceTime.date == Date(2021, 9, 30)
  {
  }

  /**
   * The concatenation does not keep the two ids apart: user "1" in meeting
   * 23 and user "12" in meeting 3 get the same unique id.
   */
  lemma UniqueIdCollides()
    ensures UniqueId("1", 23) == UniqueId("12", 3)
  {
    assert IntToString(23) == "23";
    assert IntToString(3) == "3";
  }
}
