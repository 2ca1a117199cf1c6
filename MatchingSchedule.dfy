/**
 * The activity-schedule feed: duration labels, the matched-only visibility
 * filter, the post form's submit handler and the "time ago" formatter.
 */
module MatchingSchedule {
  import opened RelativeTime
  import opened Sequences

  datatype User = User(id: string, name: string, avatar: string)

  /** A broadcast post. Times are milliseconds since the epoch. */
  datatype ScheduleEntry = ScheduleEntry(
    id: int,
    user: User,
    activity: string,
    duration: string,
    description: string,
    location: string,
    time: int,
    expiresAt: int)

  /** The controlled fields of the "create post" form. */
  datatype FormData = FormData(activity: string, duration: string, description: string, location: string)

  const EmptyForm := FormData("", "", "", "")

  /** The current user, as every new post records it. */
  const Me := User("u0", "You", "YO")

  /** The users the current user has matched with. */
  const MatchedUserIds: seq<string> := ["u0", "u1", "u2"]

  /** The duration options offered by the form's select box. */
  const FormDurations: seq<string> := ["30 minutes", "1 hour", "2 hours", "3 hours", "Half day", "Full day", "Weekend"]

  // ---------------------------------------------------------------------------
  // getDurationMs
  // ---------------------------------------------------------------------------

  /** Milliseconds a duration label stands for; an unknown label counts as one hour. */
  function DurationMs(duration: string): (r: int)
    ensures 0 < r <= DayMs
    ensures r % (30 * MinuteMs) == 0
    ensures r == DayMs <==> duration == "Full day" || duration == "Weekend"
    ensures duration !in {"30 min", "1 hour", "2 hours", "3 hours", "Half day", "Full day", "Weekend"} ==> r == HourMs
  {
    match duration
    case "30 min" => 30 * MinuteMs
    case "1 hour" => 1 * HourMs
    case "2 hours" => 2 * HourMs
    case "3 hours" => 3 * HourMs
    case "Half day" => 12 * HourMs
    case "Full day" => 24 * HourMs
    case "Weekend" => 24 * HourMs
    case _ => 1 * HourMs
  }

  /**
   * What each option of the form maps to. The form offers "30 minutes",
   * which is not one of the labels `DurationMs` knows ("30 min"), so it
   * falls to the one-hour default.
   */
  lemma FormDurationsMs()
    ensures DurationMs("30 minutes") == HourMs
    ensures DurationMs("30 min") == 30 * MinuteMs
    ensures DurationMs("1 hour") == HourMs
    ensures DurationMs("2 hours") == 2 * HourMs
    ensures DurationMs("3 hours") == 3 * HourMs
    ensures DurationMs("Half day") == 12 * HourMs
    ensures DurationMs("Weekend") == DayMs
    ensures forall d :: d in FormDurations ==> HourMs <= DurationMs(d)
  {
  }

  // ---------------------------------------------------------------------------
  // visibleSchedules
  // ---------------------------------------------------------------------------

  /** A post is shown when the current user wrote it or its author is a match. */
  predicate IsVisible(e: ScheduleEntry)
  {
    e.user.name == "You" || e.user.id in MatchedUserIds
  }

  /** How many entries of the list are visible, counted one entry at a time. */
  function CountVisible(schedules: seq<ScheduleEntry>): (r: nat)
    ensures r <= |schedules|
  {
    if schedules == [] then 0
    else (if IsVisible(schedules[0]) then 1 else 0) + CountVisible(schedules[1..])
  }

  /**
   * `schedules.filter(post => isMe || isMatched)`: every visible post, in
   * list order, each as often as it occurs.
   */
  function VisibleSchedules(schedules: seq<ScheduleEntry>): (r: seq<ScheduleEntry>)
    ensures forall e :: e in r <==> e in schedules && IsVisible(e)
    ensures IsSubsequence(r, schedules)
    ensures |r| == CountVisible(schedules)
  {
    if schedules == [] then []
    else if IsVisible(schedules[0]) then [schedules[0]] + VisibleSchedules(schedules[1..])
    else VisibleSchedules(schedules[1..])
  }

  /** Filtering a second time changes nothing. */
  lemma {:induction false} VisibleSchedulesIdempotent(schedules: seq<ScheduleEntry>)
    ensures VisibleSchedules(VisibleSchedules(schedules)) == VisibleSchedules(schedules)
  {
    if schedules != [] {
      VisibleSchedulesIdempotent(schedules[1..]);
      if IsVisible(schedules[0]) {
        assert ([schedules[0]] + VisibleSchedules(schedules[1..]))[1..] == VisibleSchedules(schedules[1..]);
      }
    }
  }

  /** A list whose posts are all visible passes through the filter unchanged. */
  lemma {:induction false} VisibleSchedulesKeepsAllVisible(schedules: seq<ScheduleEntry>)
    requires forall i :: 0 <= i < |schedules| ==> IsVisible(schedules[i])
    ensures VisibleSchedules(schedules) == schedules
  {
    if schedules != [] {
      VisibleSchedulesKeepsAllVisible(schedules[1..]);
    }
  }

  // ---------------------------------------------------------------------------
  // handleSubmit
  // ---------------------------------------------------------------------------

  /** `formData.activity && formData.duration`: both required fields are non-empty. */
  predicate CanSubmit(form: FormData)
  {
    form.activity != "" && form.duration != ""
  }

  /**
   * The post a submit creates at clock reading `now`. Its id, creation time
   * and expiry time are all `now`: the expiry is not derived from the duration.
   */
  function NewEntry(form: FormData, now: int): (e: ScheduleEntry)
    ensures e.user == Me && IsVisible(e)
    ensures e.activity == form.activity && e.duration == form.duration
    ensures e.description == form.description && e.location == form.location
    ensures e.time == now && e.expiresAt == now && e.id == now
  {
    ScheduleEntry(now, Me, form.activity, form.duration, form.description, form.location, now, now)
  }

  /** A freshly submitted post is always shown, first, ahead of what was shown before. */
  lemma SubmittedEntryShownFirst(form: FormData, now: int, schedules: seq<ScheduleEntry>)
    ensures VisibleSchedules([NewEntry(form, now)] + schedules) == [NewEntry(form, now)] + VisibleSchedules(schedules)
  {
  }

  /** The expiry recorded for a new post: the moment it was created, whatever its duration. */
  lemma NewEntryExpiresAtCreation(form: FormData, now: int)
    ensures NewEntry(form, now).expiresAt - NewEntry(form, now).time == 0 < DurationMs(form.duration)
  {
  }

  // ---------------------------------------------------------------------------
  // getTimeAgo
  // ---------------------------------------------------------------------------

  /**
   * `getTimeAgo(time)` read at clock `now`: whole seconds, then minutes, hours
   * and days, each by floor division. The buckets, restated on the elapsed
   * milliseconds: under a minute, under an hour, under a day, and the rest.
   */
  function TimeAgo(now: int, time: int): (r: Label)
    ensures r == JustNow <==> now - time < MinuteMs
    ensures r.MinutesAgo? <==> MinuteMs <= now - time < HourMs
    ensures r.HoursAgo? <==> HourMs <= now - time < DayMs
    ensures r.DaysAgo? <==> DayMs <= now - time
    ensures r.MinutesAgo? ==> r.minutes == (now - time) / MinuteMs && 1 <= r.minutes < 60
    ensures r.HoursAgo? ==> r.hours == (now - time) / HourMs && 1 <= r.hours < 24
    ensures r.DaysAgo? ==> r.days == (now - time) / DayMs && 1 <= r.days
  {
    FloorOfFloor(now - time);
    var seconds := (now - time) / SecondMs;
    if seconds < 60 then JustNow
    else
      var minutes := seconds / 60;
      if minutes < 60 then MinutesAgo(minutes)
      else
        var hours := minutes / 60;
        if hours < 24 then HoursAgo(hours)
        else DaysAgo(hours / 24)
  }

  /** The fixture posts, created relative to the moment the page loaded. */
  function InitialSchedules(loadTime: int): seq<ScheduleEntry>
  {
    [ ScheduleEntry(1, User("u1", "Emma Wilson", "EW"), "Study Session", "2 hours",
        "Preparing for final exams - Mathematics", "Library, 2nd floor",
        loadTime - 30 * MinuteMs, loadTime + 2 * HourMs),
      ScheduleEntry(2, User("u2", "Mike Ross", "MR"), "Coffee Break", "1 hour",
        "Quick coffee and chat about project ideas", "Campus Café",
        loadTime - HourMs, loadTime + HourMs) ]
  }

  /** Both fixture posts come from matches, so the page starts by showing both. */
  lemma InitialSchedulesAllVisible(loadTime: int)
    ensures VisibleSchedules(InitialSchedules(loadTime)) == InitialSchedules(loadTime)
  {
  }

  /** The state of the feed component: its `useState` pairs. */
  class ScheduleFeed {
    var schedules: seq<ScheduleEntry>
    var showScheduleForm: bool
    var formData: FormData

    /** Every post in the state is the current user's own or a match's. */
    predicate Valid()
      reads this
    {
      forall e :: e in schedules ==> IsVisible(e)
    }

    constructor (loadTime: int)
      ensures schedules == InitialSchedules(loadTime)
      ensures !showScheduleForm && formData == EmptyForm
      ensures Valid()
    {
      schedules := InitialSchedules(loadTime);
      showScheduleForm := false;
      formData := EmptyForm;
    }

    /**
     * `visibleSchedules`, the filtered list. The page renders `schedules`
     * itself and never reads this list; on every reachable state the two are
     * the same, because no hidden post ever enters the state.
     */
    function Visible(): (r: seq<ScheduleEntry>)
      reads this
      requires Valid()
      ensures forall e :: e in r <==> e in schedules && IsVisible(e)
      ensures r == schedules
    {
      VisibleSchedulesKeepsAllVisible(schedules);
      VisibleSchedules(schedules)
    }

    /** The "+" button and the form's close, backdrop and cancel controls. */
    method SetShowForm(show: bool)
      modifies this
      ensures showScheduleForm == show
      ensures schedules == old(schedules) && formData == old(formData)
    {
      showScheduleForm := show;
    }

    /** The activity select's `onValueChange`: `{ ...formData, activity: value }`. */
    method SetActivity(value: string)
      modifies this
      ensures formData == old(formData).(activity := value)
      ensures schedules == old(schedules) && showScheduleForm == old(showScheduleForm)
    {
      formData := formData.(activity := value);
    }

    /** The duration select's `onValueChange`: `{ ...formData, duration: value }`. */
    method SetDuration(value: string)
      modifies this
      ensures formData == old(formData).(duration := value)
      ensures schedules == old(schedules) && showScheduleForm == old(showScheduleForm)
    {
      formData := formData.(duration := value);
    }

    /** The location input's `onChange`: `{ ...formData, location: value }`. */
    method SetLocation(value: string)
      modifies this
      ensures formData == old(formData).(location := value)
      ensures schedules == old(schedules) && showScheduleForm == old(showScheduleForm)
    {
      formData := formData.(location := value);
    }

    /** The description text area's `onChange`: `{ ...formData, description: value }`. */
    method SetDescription(value: string)
      modifies this
      ensures formData == old(formData).(description := value)
      ensures schedules == old(schedules) && showScheduleForm == old(showScheduleForm)
    {
      formData := formData.(description := value);
    }

    /**
     * `handleSubmit` at clock reading `now`: with both required fields filled
     * in, puts one new post at the top, clears the form and closes it;
     * otherwise changes nothing.
     */
    method Submit(now: int)
      requires Valid()
      modifies this
      ensures Valid()
      ensures CanSubmit(old(formData)) ==>
        && schedules == [NewEntry(old(formData), now)] + old(schedules)
        && formData == EmptyForm
        && !showScheduleForm
      ensures !CanSubmit(old(formData)) ==>
        && schedules == old(schedules)
        && formData == old(formData)
        && showScheduleForm == old(showScheduleForm)
    {
      if CanSubmit(formData) {
        schedules := [NewEntry(formData, now)] + schedules;
        formData := EmptyForm;
        showScheduleForm := false;
      }
    }
  }
}
