/** `formatTimeAgo` from src/utils/dateUtils.ts: buckets the time elapsed since a
    timestamp into "just now", minutes, hours, days, or an absolute date.

    Times are integer milliseconds since the epoch, as `Date.prototype.getTime`
    returns them; an invalid date (whose time value is `NaN`) is `None`. The
    clock reading `new Date()` is the parameter `now`. The translation function
    `t` and `toLocaleDateString` are not modelled: the result names the
    translation key and its `count`, or the time to be shown as a date. */
module DateUtils {
  import opened Common

  const MillisPerMinute: int := 1000 * 60
  const MillisPerHour: int := MillisPerMinute * 60
  const MillisPerDay: int := MillisPerHour * 24
  const MillisPerWeek: int := MillisPerDay * 7

  /** What `formatTimeAgo` hands to `t` (a key and a count), or the date it
      formats itself. */
  datatype TimeAgo =
    | UnknownTime
    | JustNow
    | MinutesAgo(count: int)
    | HoursAgo(count: int)
    | DaysAgo(count: int)
    | AbsoluteDate(time: int)

  const KeyPrefix: string := "notifications.timeAgo."

  /** The translation key passed to `t`; `None` for the absolute date, which
      `toLocaleDateString` formats instead. Every key lies under
      "notifications.timeAgo.". */
  function TranslationKey(r: TimeAgo): (k: Option<string>)
    ensures k.None? <==> r.AbsoluteDate?
    ensures k.Some? ==> KeyPrefix <= k.value
  {
    match r
    case UnknownTime => Some("notifications.timeAgo.unknownTime")
    case JustNow => Some("notifications.timeAgo.justNow")
    case MinutesAgo(_) => Some("notifications.timeAgo.minutesAgo")
    case HoursAgo(_) => Some("notifications.timeAgo.hoursAgo")
    case DaysAgo(_) => Some("notifications.timeAgo.daysAgo")
    case AbsoluteDate(_) => None
  }

  /** Distinct relative buckets are told apart by their keys alone; only the
      count separates two results of the same bucket. */
  lemma TranslationKeySeparatesBuckets(a: TimeAgo, b: TimeAgo)
    requires TranslationKey(a).Some? && TranslationKey(a) == TranslationKey(b)
    ensures a.UnknownTime? == b.UnknownTime? && a.JustNow? == b.JustNow?
    ensures a.MinutesAgo? == b.MinutesAgo? && a.HoursAgo? == b.HoursAgo? && a.DaysAgo? == b.DaysAgo?
  {
  }

  /** The chain of guarded returns, with `Math.floor` of a division by a
      positive constant written as Dafny's (floor) division on `int`. Every
      count handed to `t` is at least 1, and each unit stays below the next. */
  function FormatTimeAgo(timestamp: Option<int>, now: int): (r: TimeAgo)
    ensures r.MinutesAgo? ==> 1 <= r.count < 60
    ensures r.HoursAgo? ==> 1 <= r.count < 24
    ensures r.DaysAgo? ==> 1 <= r.count < 7
    ensures r.AbsoluteDate? ==> timestamp == Some(r.time)
  {
    match timestamp
    case None => UnknownTime
    case Some(time) =>
      var diffInMinutes := (now - time) / MillisPerMinute;
      if diffInMinutes < 1 then JustNow
      else if diffInMinutes < 60 then MinutesAgo(diffInMinutes)
      else
        var diffInHours := diffInMinutes / 60;
        if diffInHours < 24 then HoursAgo(diffInHours)
        else
          var diffInDays := diffInHours / 24;
          if diffInDays < 7 then DaysAgo(diffInDays)
          else AbsoluteDate(time)
  }

  /** Flooring in two steps (milliseconds to minutes, minutes to hours) is
      flooring once by the milliseconds in an hour. */
  lemma FloorMinutesToHours(elapsed: int)
    ensures (elapsed / MillisPerMinute) / 60 == elapsed / MillisPerHour
  {
    var m := elapsed / MillisPerMinute;
    var h := m / 60;
    assert elapsed == MillisPerMinute * m + elapsed % MillisPerMinute;
    assert m == 60 * h + m % 60;
    assert elapsed == MillisPerHour * h + (MillisPerMinute * (m % 60) + elapsed % MillisPerMinute);
  }

  /** Likewise from hours to days. */
  lemma FloorHoursToDays(elapsed: int)
    ensures (elapsed / MillisPerHour) / 24 == elapsed / MillisPerDay
  {
    var h := elapsed / MillisPerHour;
    var dd := h / 24;
    assert elapsed == MillisPerHour * h + elapsed % MillisPerHour;
    assert h == 24 * dd + h % 24;
    assert elapsed == MillisPerDay * dd + (MillisPerHour * (h % 24) + elapsed % MillisPerHour);
  }

  /** The buckets, stated directly on the elapsed milliseconds rather than on
      the chain of floors: each branch is taken exactly when the elapsed time
      falls in its half-open interval, and its count is the number of whole
      units elapsed. A future timestamp (negative elapsed time) is "just now". */
  lemma FormatTimeAgoBuckets(timestamp: Option<int>, now: int)
    ensures var r := FormatTimeAgo(timestamp, now);
      && (r.UnknownTime? <==> timestamp.None?)
      && (timestamp.Some? ==> var elapsed := now - timestamp.value;
          && (r.JustNow? <==> elapsed < MillisPerMinute)
          && (r.MinutesAgo? <==> MillisPerMinute <= elapsed < MillisPerHour)
          && (r.MinutesAgo? ==> r.count == elapsed / MillisPerMinute)
          && (r.HoursAgo? <==> MillisPerHour <= elapsed < MillisPerDay)
          && (r.HoursAgo? ==> r.count == elapsed / MillisPerHour)
          && (r.DaysAgo? <==> MillisPerDay <= elapsed < MillisPerWeek)
          && (r.DaysAgo? ==> r.count == elapsed / MillisPerDay)
          && (r.AbsoluteDate? <==> MillisPerWeek <= elapsed))
  {
    if timestamp.Some? {
      var elapsed := now - timestamp.value;
      FloorMinutesToHours(elapsed);
      FloorHoursToDays(elapsed);
    }
  }
}
