/**
 * The schedule feed and the group chat format elapsed time with two separate
 * helpers. Below one day they agree exactly; from one day on the feed counts
 * days while the chat shows the calendar date.
 */
module RelativeTimeAgreement {
  import opened RelativeTime
  import MatchingSchedule
  import GroupChatPopup

  lemma FormattersAgreeBelowADay(now: int, time: int, localeDate: string)
    ensures now - time < DayMs ==>
      MatchingSchedule.TimeAgo(now, time) == GroupChatPopup.FormatTime(now, time, localeDate)
    ensures now - time >= DayMs ==>
      MatchingSchedule.TimeAgo(now, time).DaysAgo? &&
      GroupChatPopup.FormatTime(now, time, localeDate) == OnDate(localeDate)
  {
  }
}
