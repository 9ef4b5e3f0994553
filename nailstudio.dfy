/**
 * The nail studio record of models/nailstudio.py and its opening-hours
 * logic.  The current day in Asia/Jakarta is a parameter (`today`), so
 * every operation is a function of the record and that day.
 */
module NailStudioModel {
  import opened Wrappers

  // ---------------------------------------------------------------------
  // Days

  datatype Weekday = Monday | Tuesday | Wednesday | Thursday | Friday | Saturday | Sunday

  /** The schedule key of a day: `strftime('%A').lower()`. */
  function DayKey(d: Weekday): string
  {
    match d
    case Monday => "monday"
    case Tuesday => "tuesday"
    case Wednesday => "wednesday"
    case Thursday => "thursday"
    case Friday => "friday"
    case Saturday => "saturday"
    case Sunday => "sunday"
  }

  /** The Indonesian name the week view shows for a day. */
  function DayLabel(d: Weekday): string
  {
    match d
    case Monday => "Senin"
    case Tuesday => "Selasa"
    case Wednesday => "Rabu"
    case Thursday => "Kamis"
    case Friday => "Jumat"
    case Saturday => "Sabtu"
    case Sunday => "Minggu"
  }

  /** The week, Monday first, as the week view lists it. */
  const Week: seq<Weekday> := [Monday, Tuesday, Wednesday, Thursday, Friday, Saturday, Sunday]

  /** What the week view shows for a closed day. */
  const ClosedLabel: string := "Tutup"

  // ---------------------------------------------------------------------
  // The record

  /** One day of `operatingHours`; an absent key is `None`. */
  datatype DayHours = DayHours(isOpen: Option<bool>, openTime: Option<string>, closeTime: Option<string>)

  /** The JSON column `operatingHours`: day key to that day's hours. */
  type Schedule = map<string, DayHours>

  /** A `datetime.utcnow()` value; only its identity matters here. */
  type Timestamp = int

  /** A row of `nail_studios`; a nullable column is an `Option`. */
  datatype Studio = Studio(
    id: string,
    nama: string,
    alamat: Option<string>,
    desa: Option<string>,
    noTelp: Option<string>,
    instagram: Option<string>,
    whatsapp: Option<string>,
    rating: real,
    totalReviews: int,
    description: Option<string>,
    photoUrl: Option<string>,
    instagramEmbed: Option<string>,
    mapsEmbed: Option<string>,
    latitude: Option<real>,
    longitude: Option<real>,
    operatingHours: Option<Schedule>,
    surveyStatus: bool,
    createdAt: Timestamp,
    updatedAt: Timestamp)

  // ---------------------------------------------------------------------
  // Today

  /** `operatingHours` is truthy: not NULL and not `{}`. */
  predicate HasSchedule(hours: Option<Schedule>)
  {
    hours.Some? && hours.value != map[]
  }

  /** `hours.get(key, {}).get('isOpen', False)`. */
  predicate DayOpen(h: Schedule, key: string)
  {
    key in h && h[key].isOpen.GetOr(false)
  }

  /** `is_open_today`. */
  predicate IsOpenToday(hours: Option<Schedule>, today: Weekday)
  {
    HasSchedule(hours) && DayOpen(hours.value, DayKey(today))
  }

  /** The non-null results of `get_today_hours`. */
  datatype TodayHours =
    | ClosedToday                                                  // {'isOpen': False}
    | OpenToday(openTime: Option<string>, closeTime: Option<string>) // {openTime, closeTime, 'isOpen': True}

  /** `get_today_hours`; `None` is the JSON null it returns without a schedule. */
  function GetTodayHours(hours: Option<Schedule>, today: Weekday): Option<TodayHours>
  {
    if !HasSchedule(hours) then None
    else
      var key := DayKey(today);
      if DayOpen(hours.value, key) then Some(OpenToday(hours.value[key].openTime, hours.value[key].closeTime))
      else Some(ClosedToday)
  }

  /**
   * `is_open_today` is false without a schedule; otherwise it is today's
   * `isOpen` flag, false when the day or the flag is missing.
   */
  lemma IsOpenTodayDefaults(hours: Option<Schedule>, today: Weekday)
    ensures !HasSchedule(hours) ==> !IsOpenToday(hours, today)
    ensures HasSchedule(hours) && DayKey(today) !in hours.value ==> !IsOpenToday(hours, today)
    ensures HasSchedule(hours) && DayKey(today) in hours.value ==>
              (IsOpenToday(hours, today) <==> hours.value[DayKey(today)].isOpen == Some(true))
  {
  }

  /** Only today's entry matters: two schedules that agree on it give the same answer. */
  lemma IsOpenTodayLocal(h1: Schedule, h2: Schedule, today: Weekday)
    requires h1 != map[] && h2 != map[]
    requires DayKey(today) in h1 <==> DayKey(today) in h2
    requires DayKey(today) in h1 ==> h1[DayKey(today)] == h2[DayKey(today)]
    ensures IsOpenToday(Some(h1), today) == IsOpenToday(Some(h2), today)
    ensures GetTodayHours(Some(h1), today) == GetTodayHours(Some(h2), today)
  {
  }

  /**
   * `get_today_hours` is null exactly when there is no schedule, and its
   * `isOpen` agrees with `is_open_today`; an open day's times are copied.
   */
  lemma TodayHoursAgree(hours: Option<Schedule>, today: Weekday)
    ensures GetTodayHours(hours, today).None? <==> !HasSchedule(hours)
    ensures GetTodayHours(hours, today).Some? ==>
              (GetTodayHours(hours, today).value.OpenToday? <==> IsOpenToday(hours, today))
    ensures GetTodayHours(hours, today).Some? && GetTodayHours(hours, today).value.OpenToday? ==>
              var e := hours.value[DayKey(today)];
              GetTodayHours(hours, today).value == OpenToday(e.openTime, e.closeTime)
  {
  }

  // ---------------------------------------------------------------------
  // The week view

  /** The line of the week view for day `d`: `"<open> - <close>"`, missing times empty, or "Tutup". */
  function WeekEntry(h: Schedule, d: Weekday): string
  {
    var key := DayKey(d);
    if DayOpen(h, key) then h[key].openTime.GetOr("") + " - " + h[key].closeTime.GetOr("")
    else ClosedLabel
  }

  /** The week view says "Tutup" exactly on the days `is_open_today` would call closed, and shows an open day's times. */
  lemma {:induction false} WeekEntryAgreesWithToday(h: Schedule, d: Weekday)
    ensures h != map[] ==> (WeekEntry(h, d) == ClosedLabel <==> !IsOpenToday(Some(h), d))
    ensures h == map[] ==> WeekEntry(h, d) == ClosedLabel
    ensures GetTodayHours(Some(h), d).Some? && GetTodayHours(Some(h), d).value.OpenToday? ==>
              var t := GetTodayHours(Some(h), d).value;
              WeekEntry(h, d) == t.openTime.GetOr("") + " - " + t.closeTime.GetOr("")
  {
    var key := DayKey(d);
    if DayOpen(h, key) {
      var o := h[key].openTime.GetOr("");
      var line := o + " - " + h[key].closeTime.GetOr("");
      assert line[|o| + 1] == '-';
      assert forall i :: 0 <= i < |ClosedLabel| ==> ClosedLabel[i] != '-';
    }
  }

  /** The week view's rows, Monday first, for a schedule that is not NULL. */
  function WeekRows(h: Schedule): (r: seq<(string, string)>)
    ensures |r| == |Week|
  {
    seq(|Week|, i requires 0 <= i < |Week| => (DayLabel(Week[i]), WeekEntry(h, Week[i])))
  }

  /** `get_week_schedule` as written: on a NULL `operatingHours` the `.get` call raises, which is `None`. */
  function WeekScheduleAsWritten(hours: Option<Schedule>): Option<seq<(string, string)>>
  {
    match hours
    case None => None
    case Some(h) => Some(WeekRows(h))
  }

  /**
   * A record whose `operatingHours` is NULL: `to_dict`, `is_open_today` and
   * `get_today_hours` treat it as no schedule, while the week view as
   * written fails on it.
   */
  lemma NullHoursBreakWeekView(s: Studio, today: Weekday)
    requires s.operatingHours.None?
    ensures WeekScheduleAsWritten(s.operatingHours).None?
    ensures !IsOpenToday(s.operatingHours, today) && GetTodayHours(s.operatingHours, today).None?
    ensures ToDict(s, true, today).record.operatingHours == Some(map[])
  {
  }

  /**
   * `get_week_schedule`, corrected to read a NULL `operatingHours` as `{}`:
   * seven rows Senin..Minggu, each the line for that day, the same rows as
   * the original wherever the original succeeds.
   */
  method WeekSchedule(hours: Option<Schedule>) returns (schedule: seq<(string, string)>)
    ensures |schedule| == 7
    ensures forall i :: 0 <= i < 7 ==> schedule[i].0 == DayLabel(Week[i])
    ensures forall i :: 0 <= i < 7 ==> schedule[i].1 == WeekEntry(ShownHours(hours), Week[i])
    ensures !HasSchedule(hours) ==> forall i :: 0 <= i < 7 ==> schedule[i].1 == ClosedLabel
    ensures WeekScheduleAsWritten(hours).Some? ==> schedule == WeekScheduleAsWritten(hours).value
  {
    var h := ShownHours(hours);
    schedule := [];
    for i := 0 to |Week|
      invariant |schedule| == i
      invariant forall k :: 0 <= k < i ==> schedule[k] == (DayLabel(Week[k]), WeekEntry(h, Week[k]))
    {
      var day := Week[i];
      var key := DayKey(day);
      var line := ClosedLabel;
      if key in h && h[key].isOpen.GetOr(false) {
        line := h[key].openTime.GetOr("") + " - " + h[key].closeTime.GetOr("");
      }
      schedule := schedule + [(DayLabel(day), line)];
    }
    if hours.Some? {
      assert schedule == WeekRows(hours.value);
    }
  }

  /** The week view's labels are seven distinct names, one per day. */
  lemma WeekLabelsDistinct()
    ensures forall i, j :: 0 <= i < j < |Week| ==> DayLabel(Week[i]) != DayLabel(Week[j])
    ensures forall i, j :: 0 <= i < j < |Week| ==> DayKey(Week[i]) != DayKey(Week[j])
  {
  }

  // ---------------------------------------------------------------------
  // `to_dict`

  /** `operatingHours or {}`. */
  function ShownHours(hours: Option<Schedule>): (r: Schedule)
    ensures r == map[] <==> !HasSchedule(hours)
    ensures HasSchedule(hours) ==> r == hours.value
  {
    if HasSchedule(hours) then hours.value else map[]
  }

  datatype TodayStatus = TodayStatus(isOpenToday: bool, todayHours: Option<TodayHours>)

  /** The dictionary `to_dict` returns: the columns, and the today fields when asked for. */
  datatype StudioDict = StudioDict(record: Studio, today: Option<TodayStatus>)

  /** `to_dict(include_today_status)`. */
  function ToDict(s: Studio, includeTodayStatus: bool, today: Weekday): (r: StudioDict)
    ensures r.record == s.(operatingHours := Some(ShownHours(s.operatingHours)))
    ensures r.today.Some? <==> includeTodayStatus
  {
    StudioDict(
      s.(operatingHours := Some(ShownHours(s.operatingHours))),
      if includeTodayStatus
      then Some(TodayStatus(IsOpenToday(s.operatingHours, today), GetTodayHours(s.operatingHours, today)))
      else None)
  }

  /**
   * The dictionary is consistent with itself: the today fields are what the
   * shown `operatingHours` give, so a client reading them back gets the same
   * answer.
   */
  lemma ToDictConsistent(s: Studio, today: Weekday)
    ensures var r := ToDict(s, true, today);
      && r.today.value.isOpenToday == IsOpenToday(r.record.operatingHours, today)
      && r.today.value.todayHours == GetTodayHours(r.record.operatingHours, today)
      && r.record.operatingHours.Some?
  {
  }
}
