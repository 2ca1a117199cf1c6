/**
 * A project's group chat: the message log, the input box, sending, and the
 * relative-time formatter for message timestamps.
 */
module GroupChatPopup {
  import opened JsString
  import opened RelativeTime

  /** A chat line. `timestamp` is in milliseconds since the epoch. */
  datatype Message = Message(id: int, sender: string, avatar: string, text: string, timestamp: int)

  /** The message the current user sends with text `text` at clock reading `now`. */
  function OwnMessage(text: string, now: int): (m: Message)
    ensures m.sender == "You" && m.avatar == "YO" && m.text == text && m.timestamp == now
  {
    Message(now, "You", "YO", text, now)
  }

  /**
   * `formatTime(date)` read at clock `now`: whole minutes by floor division,
   * then whole hours; a day or more shows the locale date `localeDate` of the
   * timestamp.
   */
  function FormatTime(now: int, sentAt: int, localeDate: string): (r: Label)
    ensures r == JustNow <==> now - sentAt < MinuteMs
    ensures r.MinutesAgo? <==> MinuteMs <= now - sentAt < HourMs
    ensures r.HoursAgo? <==> HourMs <= now - sentAt < DayMs
    ensures r == OnDate(localeDate) <==> DayMs <= now - sentAt
    ensures !r.DaysAgo?
    ensures r.MinutesAgo? ==> r.minutes == (now - sentAt) / MinuteMs && 1 <= r.minutes < 60
    ensures r.HoursAgo? ==> r.hours == (now - sentAt) / HourMs && 1 <= r.hours < 24
  {
    FloorOfFloor(now - sentAt);
    var minutes := (now - sentAt) / MinuteMs;
    if minutes < 1 then JustNow
    else if minutes < 60 then MinutesAgo(minutes)
    else
      var hours := minutes / 60;
      if hours < 24 then HoursAgo(hours)
      else OnDate(localeDate)
  }

  /** 45 seconds, 5 minutes, 90 minutes and 25 hours after sending. */
  lemma FormatTimeExamples(sentAt: int, localeDate: string)
    ensures Text(FormatTime(sentAt + 45 * SecondMs, sentAt, localeDate)) == "just now"
    ensures Text(FormatTime(sentAt + 5 * MinuteMs, sentAt, localeDate)) == "5m ago"
    ensures Text(FormatTime(sentAt + 90 * MinuteMs, sentAt, localeDate)) == "1h ago"
    ensures FormatTime(sentAt + 25 * HourMs, sentAt, localeDate) == OnDate(localeDate)
  {
    TextExamples();
  }

  /** The fixture conversation, created relative to the moment the popup loaded. */
  function InitialMessages(loadTime: int): seq<Message>
  {
    [ Message(1, "Alex Chen", "AC",
        "Hey everyone! Thanks for joining the project. Let's discuss our approach.",
        loadTime - 120 * MinuteMs),
      Message(2, "Sarah Kim", "SK",
        "Excited to work on this! I think we should start with the backend API.",
        loadTime - 110 * MinuteMs),
      Message(3, "Mike Torres", "MT",
        "Great idea! I can handle the frontend components.",
        loadTime - 100 * MinuteMs),
      Message(4, "Emma Davis", "ED",
        "I'll work on the database schema and design the data models.",
        loadTime - 90 * MinuteMs) ]
  }

  /** The popup's state: the message log and the controlled input. */
  class GroupChat {
    var messages: seq<Message>
    var newMessage: string

    constructor (loadTime: int)
      ensures messages == InitialMessages(loadTime) && newMessage == ""
    {
      messages := InitialMessages(loadTime);
      newMessage := "";
    }

    /** The text area's `onChange`. */
    method SetNewMessage(text: string)
      modifies this
      ensures newMessage == text && messages == old(messages)
    {
      newMessage := text;
    }

    /**
     * `handleSendMessage` at clock reading `now`: a blank input changes
     * nothing; otherwise the raw, untrimmed input is appended as one message
     * from the current user and the input is cleared.
     */
    method SendMessage(now: int)
      modifies this
      ensures !HasText(old(newMessage)) ==> messages == old(messages) && newMessage == old(newMessage)
      ensures HasText(old(newMessage)) ==>
        messages == old(messages) + [OwnMessage(old(newMessage), now)] && newMessage == ""
    {
      if HasText(newMessage) {
        messages := messages + [OwnMessage(newMessage, now)];
        newMessage := "";
      }
    }
  }
}
