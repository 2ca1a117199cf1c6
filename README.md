# Pingly interaction core in Dafny

Pingly is a campus networking and matching front end that runs entirely on
in-memory mock data. This project models the decision logic and the state
handlers of its components, separated from their markup:

- **Swipe card stack** (`MatchingFlipCards`): the drag-release rule (offset
  beyond 100 px or velocity beyond 500 px/s, both strict), the like/pass
  choice from the sign of the offset, the live ±50 px LIKE/PASS stamp, the
  button-driven swipe with its settle callback, and removal of the front card.
  A class `CardStack` holds `cards` and `dragDirection`; a ghost history proves
  the stack is always a suffix of the initial profiles.
- **Schedule feed** (`MatchingSchedule`): duration labels in milliseconds,
  the matched-only visibility filter, the submit handler, and the "time ago"
  formatter.
- **Group chat** (`GroupChatPopup`) and **discussions** (`Discussion`): sending
  with the blank-input guard, input reset, the chat's relative-time formatter,
  thread selection, and avatar initials.
- **Session and UI state**: the app shell's view and mode transitions (`App`),
  the header's notification list, unread badge and mutually exclusive
  dropdowns (`Header`), the once-only wish counter (`ProjectIdeaCard`), and the
  leaderboard's rank icons and selection (`PointTable`).
- Shared pieces: JavaScript's `trim`, `split(' ')`/`join(' ')` and decimal
  rendering (`JsString`), the initials rule both tables use (`Initials`), the
  relative-time labels and the floor-division arithmetic (`RelativeTime`).

Each React `useState` pair is a class field; each handler is a method whose
`ensures` gives the whole new state. The clock (`Date.now()`, `new Date()`) is
a `now: int` parameter in milliseconds. `Math.floor(x / k)` with `k > 0` is
Dafny's `x / k`, which also rounds a negative difference (a time in the
future) toward negative infinity. `date.toLocaleDateString()` is a string
parameter. Drag offsets and velocities are integers.

Five behaviours of the code are worth stating outright, since a reader
might expect otherwise:

- `onDragEnd` (`MatchingFlipCards.tsx:253`) takes the action from the sign of
  `offset.x` alone, so a fast right flick released at offset -30 is a pass,
  and a flick released at offset 0 is a pass too (`DragDecisionBoundaries`).
- `handleSubmit` sets a post's `expiresAt` from a clock reading taken while
  the post is built (`MatchingSchedule.tsx:147`), not from its duration;
  `getDurationMs` is never called (`NewEntryExpiresAtCreation`).
- The form offers "30 minutes", but `getDurationMs` knows "30 min", so that
  option maps to the one-hour default (`FormDurationsMs`).
- `visibleSchedules` (`MatchingSchedule.tsx:117-121`) is computed but never
  read: the list renders `schedules` (`MatchingSchedule.tsx:225`, `:235`).
  Every post that can enter the state is the user's own or a match's, so
  the filter would change nothing (`ScheduleFeed.Visible`).
- A button click (`MatchingFlipCards.tsx:146-161`) schedules a removal of
  whatever card is in front when its 300 ms callback fires, and no pending
  callback is cancelled, so two quick clicks on A, B, C remove both A and B
  (`DoubleClickRemovesTwo`).

## Model

| member | source | states |
|---|---|---|
| `MatchingFlipCards.Commits` | src/app/components/MatchingFlipCards.tsx:96-106 | a release commits iff offset > 100 or < -100 or velocity > 500 or < -500 (strict) |
| `MatchingFlipCards.ActionFor` | src/app/components/MatchingFlipCards.tsx:253 | the action is like iff offset.x > 0, otherwise pass |
| `MatchingFlipCards.DragDecision` | src/app/components/MatchingFlipCards.tsx:103-110 | a release decides something iff it commits; like iff it commits with offset > 0, pass iff it commits with offset <= 0 |
| `MatchingFlipCards.DragDecisionBoundaries` | src/app/components/MatchingFlipCards.tsx:96-106 | exactly 100 px or 500 px/s does not commit; 101 px does; a fast flick with offset <= 0 is a pass whatever its velocity's sign |
| `MatchingFlipCards.Indicator` | src/app/components/MatchingFlipCards.tsx:246-248 | the stamp is right iff offset > 50, left iff offset < -50, none iff -50 <= offset <= 50 |
| `MatchingFlipCards.ButtonDirection` | src/app/components/MatchingFlipCards.tsx:150 | a button sends the card right iff the action is like |
| `MatchingFlipCards.IndicatorAgreesWithDecision` | src/app/components/MatchingFlipCards.tsx:246-253 | a showing stamp agrees with the committed action; a release committed on distance always had the matching stamp showing |
| `MatchingFlipCards.Drop` | src/app/components/MatchingFlipCards.tsx:127 | `slice(1)` keeps every card after the front one, in order; an empty stack stays empty |
| `MatchingFlipCards.DropRemovesOnlyTheFront` | src/app/components/MatchingFlipCards.tsx:127 | putting the front card back in front of the result restores the stack |
| `MatchingFlipCards.RenderedStack` | src/app/components/MatchingFlipCards.tsx:194 | at most 3 cards are rendered, they are the front of the stack in order, and all of it when it has at most 3 |
| `MatchingFlipCards.CardStack.constructor` | src/app/components/MatchingFlipCards.tsx:72-76 | the stack starts with the given profiles and no drag direction |
| `MatchingFlipCards.CardStack.RemoveCard` | src/app/components/MatchingFlipCards.tsx:123-138 | drops exactly the front card, or nothing on an empty stack; the stack stays a suffix of the initial profiles |
| `MatchingFlipCards.CardStack.Drag` | src/app/components/MatchingFlipCards.tsx:242-250 | only the top card's drag sets the stamp, to `Indicator(offset)`; cards unchanged |
| `MatchingFlipCards.CardStack.DragEnd` | src/app/components/MatchingFlipCards.tsx:93-115 | on the top card: removes the front card iff the release commits and always clears the direction; other cards ignore the event |
| `MatchingFlipCards.CardStack.ButtonClick` | src/app/components/MatchingFlipCards.tsx:146-150 | a button sets the direction right for like, left for pass, and leaves the cards alone |
| `MatchingFlipCards.CardStack.SettleTimerFired` | src/app/components/MatchingFlipCards.tsx:154-161 | the timer callback drops the front card and clears the direction |
| `MatchingFlipCards.DragScenario` | src/app/components/MatchingFlipCards.tsx:93-127 | stack A, B, C dragged 150 px right: decision like, B and C remain |
| `MatchingFlipCards.DoubleClickScenario` | src/app/components/MatchingFlipCards.tsx:146-161 | two clicks on a one-card stack empty it without error and leave no direction |
| `MatchingFlipCards.DoubleClickRemovesTwo` | src/app/components/MatchingFlipCards.tsx:146-161 | two clicks before the first callback remove two cards: A, B, C leaves C |
| `MatchingSchedule.DurationMs` | src/app/components/MatchingSchedule.tsx:92-105 | every label maps to a positive whole number of half hours, at most a day; a full day iff "Full day" or "Weekend"; any label outside the seven cases is one hour |
| `MatchingSchedule.FormDurationsMs` | src/app/components/MatchingSchedule.tsx:96-103 | the value of each case label; the form's "30 minutes" falls to the one-hour default; every form option is at least an hour |
| `MatchingSchedule.VisibleSchedules` | src/app/components/MatchingSchedule.tsx:117-121 | a post is kept iff its author is named "You" or has id u0, u1 or u2; the result is an order-preserving subsequence whose length is the number of visible entries, so each visible post is kept as often as it occurs |
| `MatchingSchedule.VisibleSchedulesIdempotent` | src/app/components/MatchingSchedule.tsx:117-121 | filtering twice is filtering once |
| `MatchingSchedule.VisibleSchedulesKeepsAllVisible` | src/app/components/MatchingSchedule.tsx:117-121 | a list of visible posts passes through unchanged |
| `MatchingSchedule.InitialSchedulesAllVisible` | src/app/components/MatchingSchedule.tsx:29-54 | both fixture posts are from matched users and are shown |
| `MatchingSchedule.NewEntry` | src/app/components/MatchingSchedule.tsx:139-148 | a new post is authored by u0 "You", copies the four form fields, and takes its id, time and expiry from the clock at submit |
| `MatchingSchedule.NewEntryExpiresAtCreation` | src/app/components/MatchingSchedule.tsx:146-147 | the expiry is the submit-time clock reading, not the creation time plus the (always positive) duration |
| `MatchingSchedule.SubmittedEntryShownFirst` | src/app/components/MatchingSchedule.tsx:141-151 | a prepended post is visible and is shown first, ahead of the previously visible posts |
| `MatchingSchedule.TimeAgo` | src/app/components/MatchingSchedule.tsx:166-174 | "just now" iff under 60 s; "{m}m ago" iff under an hour with m = elapsed/60000; "{h}h ago" iff under a day; otherwise "{d}d ago" with d = elapsed/86400000 |
| `MatchingSchedule.ScheduleFeed.constructor` | src/app/components/MatchingSchedule.tsx:71-82 | the feed starts with the fixture posts, an empty form and the form closed, and every post is the user's own or a match's |
| `MatchingSchedule.ScheduleFeed.Visible` | src/app/components/MatchingSchedule.tsx:117-121 | under the feed invariant (every stored post is the user's own or a match's, set up by the constructor and kept by `Submit`), the filtered list equals the rendered `schedules` |
| `MatchingSchedule.ScheduleFeed.SetShowForm` | src/app/components/MatchingSchedule.tsx:307 | opening or closing the form touches only the form flag |
| `MatchingSchedule.ScheduleFeed.SetActivity` | src/app/components/MatchingSchedule.tsx:389 | the activity field takes the new value; the other three fields, the posts and the form flag are kept |
| `MatchingSchedule.ScheduleFeed.SetDuration` | src/app/components/MatchingSchedule.tsx:412 | the duration field takes the new value; the other three fields, the posts and the form flag are kept |
| `MatchingSchedule.ScheduleFeed.SetLocation` | src/app/components/MatchingSchedule.tsx:436 | the location field takes the new value; the other three fields, the posts and the form flag are kept |
| `MatchingSchedule.ScheduleFeed.SetDescription` | src/app/components/MatchingSchedule.tsx:448 | the description field takes the new value; the other three fields, the posts and the form flag are kept |
| `MatchingSchedule.ScheduleFeed.Submit` | src/app/components/MatchingSchedule.tsx:134-157 | with activity and duration non-empty: one new post in front, old posts unchanged after it, form cleared and closed; otherwise nothing changes; the feed invariant is kept |
| `GroupChatPopup.OwnMessage` | src/app/components/GroupChatPopup.tsx:113-119 | a sent message has sender "You", avatar "YO", the raw input as text and the clock as time |
| `GroupChatPopup.FormatTime` | src/app/components/GroupChatPopup.tsx:134-150 | "just now" iff under a minute; "{m}m ago" iff under an hour; "{h}h ago" iff under a day; the locale date iff a day or more; never a day count |
| `GroupChatPopup.FormatTimeExamples` | src/app/components/GroupChatPopup.tsx:139-149 | 45 s is "just now", 5 min "5m ago", 90 min "1h ago", 25 h the locale date |
| `GroupChatPopup.GroupChat.constructor` | src/app/components/GroupChatPopup.tsx:73-76 | the chat starts with the fixture messages and an empty input |
| `GroupChatPopup.GroupChat.SetNewMessage` | src/app/components/GroupChatPopup.tsx:76 | typing replaces the input only |
| `GroupChatPopup.GroupChat.SendMessage` | src/app/components/GroupChatPopup.tsx:109-127 | blank input changes nothing; otherwise exactly one own message is appended after the unchanged log and the input becomes "" |
| `RelativeTimeAgreement.FormattersAgreeBelowADay` | src/app/components/GroupChatPopup.tsx:139-149 | under a day both formatters give the same label; from a day on the feed counts days and the chat shows the date |
| `RelativeTime.FloorOfFloor` | src/app/components/MatchingSchedule.tsx:167-173 | flooring seconds then minutes then hours equals flooring the milliseconds once by the larger unit |
| `RelativeTime.TextShowsCount` | src/app/components/MatchingSchedule.tsx:167-173 | the text of a minute, hour or day label (`Text`) shows its count as a decimal numeral that reads back to the count, followed by "m ago", "h ago" or "d ago"; a date label shows the locale date text |
| `RelativeTime.TextExamples` | src/app/components/MatchingSchedule.tsx:164 | labels render as "just now", "5m ago", "2h ago" (the examples of `getTimeAgo`'s doc comment), and as "1h ago", "12d ago" |
| `JsString.TrimStart` | src/app/components/GroupChatPopup.tsx:112 | the result is the suffix after the leading white space and does not start with white space |
| `JsString.TrimEnd` | src/app/components/GroupChatPopup.tsx:112 | the result is the prefix before the trailing white space and does not end with white space |
| `JsString.Trim` | src/app/components/GroupChatPopup.tsx:112 | the result is an infix with only white space around it and no white space at either end |
| `JsString.HasText` | src/app/components/GroupChatPopup.tsx:112 | `if (s.trim())` is taken iff s has a character that is not white space |
| `JsString.TrimEmptyIffBlank` | src/app/components/Discussion.tsx:92-94 | `s.trim()` is empty iff every character of s is white space |
| `JsString.Split` | src/app/components/Discussion.tsx:272 | one more segment than spaces, none containing a space |
| `JsString.JoinSplit` | src/app/components/Discussion.tsx:272 | joining the segments with single spaces gives back the string |
| `JsString.DecimalString` | src/app/components/GroupChatPopup.tsx:142 | a non-empty numeral of decimal digits without a leading zero |
| `JsString.DecimalRoundTrip` | src/app/components/GroupChatPopup.tsx:142 | reading the numeral back gives the number |
| `Initials.FirstChars` | src/app/components/Discussion.tsx:272 | at most one character per segment |
| `Initials.Of` | src/app/components/Discussion.tsx:272 | at most one initial per space-separated segment |
| `Initials.InitialsAreWordStarts` | src/app/components/Discussion.tsx:266-272 | the initials are exactly the non-space characters that begin the name or follow a space, in order |
| `Initials.InitialsComeFromName` | src/app/components/Discussion.tsx:272 | every initial is a character of the name and never a space |
| `Initials.InitialsExamples` | src/app/components/Discussion.tsx:267-270 | "John Doe" gives "JD" and "Sarah Mitchell" gives "SM" |
| `Discussion.AuthorInitials` | src/app/components/Discussion.tsx:272 | the author avatar shows the first letter of each word of the author's name |
| `Discussion.PostInitials` | src/app/components/Discussion.tsx:329 | each message avatar shows the first letter of each word of the sender's name |
| `Discussion.DiscussionPanel.constructor` | src/app/components/Discussion.tsx:74-81 | no thread open and an empty input at start |
| `Discussion.DiscussionPanel.SelectRow` | src/app/components/Discussion.tsx:148 | clicking a row opens that thread; the input is kept |
| `Discussion.DiscussionPanel.Close` | src/app/components/Discussion.tsx:206-249 | the backdrop and the X button close the thread |
| `Discussion.DiscussionPanel.SetNewMessage` | src/app/components/Discussion.tsx:374 | typing replaces the input only |
| `Discussion.DiscussionPanel.SendMessage` | src/app/components/Discussion.tsx:91-104 | blank input is kept; otherwise it becomes ""; the open thread and the thread data are unchanged |
| `ProjectIdeaCard.WishCounter.constructor` | src/app/components/ProjectIdeaCard.tsx:40-44 | the count starts at the project's wishes and no wish is cast |
| `ProjectIdeaCard.WishCounter.Wish` | src/app/components/ProjectIdeaCard.tsx:55-62 | the first wish adds exactly one and locks; later ones change nothing; count = given + (wished ? 1 : 0) is kept |
| `ProjectIdeaCard.WishTwice` | src/app/components/ProjectIdeaCard.tsx:55-62 | after one or two presses the count is the given count plus one |
| `Header.NotificationsFor` | src/app/components/Header.tsx:110 | the professional list iff professional mode, the social list iff social mode |
| `Header.Unread` | src/app/components/Header.tsx:117 | keeps exactly the unread notifications, in list order, one per unread entry (an order-preserving subsequence whose length is the unread count) |
| `Header.UnreadCount` | src/app/components/Header.tsx:117 | the badge number is the number of entries with `read == false`; at most the list length, and positive (badge shown) iff some notification is unread |
| `Header.FixtureUnreadCounts` | src/app/components/Header.tsx:34-46 | both fixture lists have 2 unread, so the badge shows in both modes |
| `Header.Dropdowns.constructor` | src/app/components/Header.tsx:97-100 | both dropdowns start closed |
| `Header.Dropdowns.BellClick` | src/app/components/Header.tsx:199-202 | flips the notification list and closes the menu; never both open |
| `Header.Dropdowns.MenuClick` | src/app/components/Header.tsx:259-262 | flips the menu and closes the notification list; never both open |
| `App.AppShell.constructor` | src/app/App.tsx:9-13 | login view, professional mode, all three modals closed |
| `App.AppShell.HandleLogin` | src/app/App.tsx:15-17 | to the dashboard unconditionally; nothing else changes |
| `App.AppShell.HandleSignup` | src/app/App.tsx:19-21 | to registration; nothing else changes |
| `App.AppShell.HandleRegistrationComplete` | src/app/App.tsx:23-25 | to the dashboard; nothing else changes |
| `App.AppShell.HandleSignOut` | src/app/App.tsx:27-30 | to login in professional mode; modal flags unchanged |
| `App.AppShell.SetMode` | src/app/App.tsx:42 | only the mode changes |
| `App.AppShell.OpenProfile` | src/app/App.tsx:43 | only the profile flag changes, to true |
| `App.AppShell.OpenSettings` | src/app/App.tsx:44 | only the settings flag changes, to true |
| `App.AppShell.OpenFeedback` | src/app/App.tsx:45 | only the feedback flag changes, to true |
| `App.SessionRoundTrip` | src/app/App.tsx:15-30 | signup then registration reaches the dashboard; sign-out returns to login in professional mode |
| `PointTable.GetRankIcon` | src/app/components/PointTable.tsx:32-47 | crown iff rank 1, medal iff 2, award iff 3, trophy iff any other integer |
| `PointTable.RowInitials` | src/app/components/PointTable.tsx:112 | a row's avatar shows the first letter of each word of the name |
| `PointTable.LeaderboardWellFormed` | src/app/components/PointTable.tsx:10-17 | ranks are 1 to 6 in order, xp strictly falls with rank, only the first row gets the crown |
| `PointTable.LeaderInitials` | src/app/components/PointTable.tsx:111-112 | "Sarah Mitchell" shows "SM" |
| `PointTable.Leaderboard.constructor` | src/app/components/PointTable.tsx:25 | no user selected at start |
| `PointTable.Leaderboard.SelectRow` | src/app/components/PointTable.tsx:98 | clicking a row selects that user |
| `PointTable.Leaderboard.Close` | src/app/components/PointTable.tsx:154-170 | the backdrop and the X button clear the selection |

## Left out

- Rendering, Tailwind classes, motion/animation props, `AnimatePresence` and `stopPropagation`: presentation only.
- The 300 ms delay of the button swipe: the model has the click (`ButtonClick`) and the callback (`SettleTimerFired`) as two steps; timing and cancellation on unmount are not modelled (the code does not cancel the timer).
- `console.log` of like/pass decisions and of discussion replies: logging only.
- `MatchingSchedule.NewEntry`, `MatchingSchedule.NewEntryExpiresAtCreation`, `GroupChatPopup.OwnMessage`: successive clock reads in one handler (`Date.now()` for the id, then `new Date()` for each time field) are one `now`; the code's readings may differ by the milliseconds between them, so `expiresAt == time` holds in the model only, and the code promises just that both are clock readings taken at submit.
- Uniqueness of `Date.now()`-based ids for posts and messages: the code does not guarantee it, so neither does the model.
- Floating-point offsets and velocities: modelled as integers; the code only takes absolute values and compares them.
- `toLocaleDateString`: a string parameter of `GroupChatPopup.FormatTime`, not interpreted.
- JavaScript strings are UTF-16, so `n[0]` takes the first code unit of a segment; the model takes the first character, which differs only for characters outside the Basic Multilingual Plane.
- `PointTable.GetRankIcon`: non-integer JavaScript numbers are not modelled (ranks are integers); they would also fall to the trophy.
- The Discussion thread fixture is a constructor parameter rather than the constant list; its content has no logic.
- The group chat's scroll-to-bottom effect: DOM manipulation.
- The project card's join form (`showJoinForm`) and the request/match ledger, chat auto-replies and unread counters: ChatPopup.tsx, Matches.tsx, Projects.tsx, QuestionCard.tsx, the auth forms and the modals are visible only as interfaces and are not part of this model.
