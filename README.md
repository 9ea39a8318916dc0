# ChatLayout message list, modelled in Dafny

ChatLayout is a single-screen chat demo. A table shows one row per chat
message. A received message sits in a left-hand bubble, a sent message in a
right-hand bubble. A date separator appears above the first message of each
calendar day. This project models the logic behind that screen, all of it in
`ChatLayout/ChatLayout/ViewController.swift`:

- **The sample-data generator** (`getTheData`). It starts a clock at a seed
  time. It plays a fixed seven-message script eight times, appending each
  message to the controller's `theData` and advancing the clock after every
  append. A second pass then puts "n: " in front of the n-th message's text.
  This is modelled imperatively: `TableController.ChatTableViewController`
  holds `theData: seq<ChatObject>`. `GetTheData` has the source's append
  loop, and its numbering loop is the method `NumberMessages`, which
  `GetTheData` calls. Its contract ties the new list to the specification functions
  `SampleData.Conversation` and `SampleData.Numbered`.
- **The date-separator rule and the two layout-constraint priorities** in
  `tableView(_:cellForRowAt:)`. They are modelled as functions of the list
  and the row in `RowPresenter`.
- **Direction dispatch**. The `SOR` direction selects the cell class, the
  three rounded corners of the bubble and its fill. This is in `Bubble`. It
  also holds two small classes for the one state change involved: the cell
  copies its direction into its bubble, and the bubble's layout pass sets the
  mask and the background from that direction.

Times are whole seconds (`int`). Every clock advance in the source is a whole
number of minutes. The calendar of the viewer's time zone is a parameter
`day: int -> int`, giving the number of the calendar day a time falls on. The
date and time formatters are parameters `dateText` and `timeText`. The seed
is a parameter; `SampleRows.DemoSeed` is the source's fixed seed,
2020-01-03T10:44:00Z, counted in seconds since 1970-01-01T00:00:00Z.

Modules: `ChatModel` (`SOR`, `ChatObject`), `DecimalText` (the decimal text of
the "n: " label and a reader that recovers n from it), `SampleData` (the
script, the clock and the numbering pass as functions, with their lemmas),
`TableController` (the controller class and `GetTheData`), `RowPresenter`,
`Bubble`, and `SampleRows` (which rows of the generated list show a
separator).

Each round appends seven messages, including the long word-wrap message, so
the list holds 56. "If we've done this right, …" is the seventh message of
each round, labelled "7: " in the first round.

## Model

| member | source | states |
|---|---|---|
| `TableController.ChatTableViewController.constructor` | ChatLayout/ChatLayout/ViewController.swift:80 | the controller starts with an empty message list |
| `TableController.ChatTableViewController.GetTheData` | ChatLayout/ChatLayout/ViewController.swift:170-250 | appends eight rounds of the script after whatever the list held, then labels every message of the whole list with its 1-based position; from an empty list, the result is the 56-message sample list, starting at the seed, with strictly increasing times |
| `TableController.ChatTableViewController.NumberMessages` | ChatLayout/ChatLayout/ViewController.swift:245-248 | the numbering pass, in place, leaves the list as `SampleData.Numbered` of what it held: message i (from 0) gets the label "i+1: " in front of its text |
| `SampleData.Round` | ChatLayout/ChatLayout/ViewController.swift:194-241 | one play of the script appends exactly seven messages |
| `SampleData.RoundClock` | ChatLayout/ChatLayout/ViewController.swift:194-241 | message k of a round is posted at the round's start plus its offset; each message follows the previous one by that step's advance (5 min, 5 min, 12 min, 1 day 20 min, 1 day 37 min, 5 min); the next round starts 1 day 20 min after the last message |
| `SampleData.RoundRoles` | ChatLayout/ChatLayout/ViewController.swift:194-238 | a round's directions are received, received, sent, sent, received, sent, received, and each message's author is the one that goes with its direction |
| `SampleData.Conversation` | ChatLayout/ChatLayout/ViewController.swift:193-243 | the append loop's records before numbering; n rounds append exactly 7n messages |
| `SampleData.ConversationAt` | ChatLayout/ChatLayout/ViewController.swift:193-243 | message k of round r is at position 7r + k, and round r starts r round advances after the seed: the clock is never reset between rounds |
| `SampleData.ConversationTime` | ChatLayout/ChatLayout/ViewController.swift:186-243 | message k of round r of the raw list is posted at seed + r round advances + the offset of step k |
| `SampleData.ConversationClock` | ChatLayout/ChatLayout/ViewController.swift:186-241 | the first message carries the seed; every later message carries the previous one's time plus the advance that followed it |
| `SampleData.IncreasingFromSteps` | ChatLayout/ChatLayout/ViewController.swift:186-241 | positive steps between neighbours make any two messages strictly ordered by position |
| `SampleData.ConversationIncreasing` | ChatLayout/ChatLayout/ViewController.swift:186-241 | the generated times strictly increase over the whole list |
| `SampleData.ConversationRoles` | ChatLayout/ChatLayout/ViewController.swift:194-238 | every round repeats the direction pattern; "Ricky Bobby" always receives and "Cal Naughton Jr" always sends |
| `SampleData.WithNumber` | ChatLayout/ChatLayout/ViewController.swift:247 | relabelling one message keeps its time, author and direction, and its text ends with the original text after a non-empty label |
| `SampleData.Numbered` | ChatLayout/ChatLayout/ViewController.swift:246-248 | the numbering pass as a function of the whole list; it keeps the list's length |
| `SampleData.NumberedFields` | ChatLayout/ChatLayout/ViewController.swift:246-248 | the numbering pass keeps the length, and the time, author and direction of every message, and puts the decimal text of i+1 and ": " in front of message i |
| `SampleData.NumberedReadsBack` | ChatLayout/ChatLayout/ViewController.swift:246-248 | the label of every numbered message reads back as its 1-based position, followed by the original text |
| `SampleData.NumberedIncreasing` | ChatLayout/ChatLayout/ViewController.swift:246-248 | numbering keeps the time order of the list, in both directions |
| `SampleData.SampleMessagesFacts` | ChatLayout/ChatLayout/ViewController.swift:170-250 | the generated list has 56 messages; the first is at the seed; times strictly increase; the direction pattern and author pairing hold; message i carries the label i+1 |
| `SampleData.SampleMessageAt` | ChatLayout/ChatLayout/ViewController.swift:193-248 | generated message 7r + k is script message k of round r, with the label 7r + k + 1 |
| `SampleData.SampleTime` | ChatLayout/ChatLayout/ViewController.swift:186-243 | generated message 7r + k is posted at seed + r round advances + the offset of step k |
| `SampleData.SampleFirstMessage` | ChatLayout/ChatLayout/ViewController.swift:194-196 | the first message is "1: Hello" from "Ricky Bobby", received, at the seed |
| `SampleData.SampleSecondMessage` | ChatLayout/ChatLayout/ViewController.swift:199-203 | the second message is "2: Are you there?", received, five minutes after the seed |
| `SampleData.SampleMessagesFirstRoundClose` | ChatLayout/ChatLayout/ViewController.swift:219-238 | the sixth message is posted 22 min + (1 day 20 min) + (1 day 37 min) after the seed; the seventh is "7: If we've done this right, …" |
| `SampleData.SampleMessagesSecondRound` | ChatLayout/ChatLayout/ViewController.swift:240-243 | the eighth message opens the second round one round advance after the seed, as "8: Hello" |
| `DecimalText.NatToString` | ChatLayout/ChatLayout/ViewController.swift:247 | the interpolated number is a non-empty string of decimal digits with no leading zero |
| `DecimalText.ParseNatToString` | ChatLayout/ChatLayout/ViewController.swift:247 | the interpolated digits read back as the number |
| `DecimalText.NatToStringInjective` | ChatLayout/ChatLayout/ViewController.swift:247 | different positions get different labels |
| `DecimalText.NumberLabelRoundTrip` | ChatLayout/ChatLayout/ViewController.swift:247 | a text with the "n: " label in front reads back as n and the original text |
| `RowPresenter.CellForRow` | ChatLayout/ChatLayout/ViewController.swift:103-151 | the row's cell class has the message's direction and is never the base class; the chat label is the message; the separator text is the formatted date between "———— " and " ————"; the name label is the author, ", " and the formatted time; row 0 shows its separator; the two constraint priorities differ, and the "date showing" one is high exactly when the separator is visible |
| `RowPresenter.SeparatorHidden` | ChatLayout/ChatLayout/ViewController.swift:136-147 | a row hides its separator exactly when it is not the first row and the row above falls on the same calendar day |
| `RowPresenter.ConstraintPriorities` | ChatLayout/ChatLayout/ViewController.swift:150-151 | exactly one of the two constraints is high: "date showing" when the separator is visible, "date hidden" when it is hidden |
| `RowPresenter.SeparatorIsLocal` | ChatLayout/ChatLayout/ViewController.swift:136-147 | whether a row's separator is hidden depends only on the times of that row and the row just above |
| `RowPresenter.SeparatorMarksFirstOfDay` | ChatLayout/ChatLayout/ViewController.swift:136-147 | for a list in time order and a calendar that runs forward, a row shows its separator if and only if no earlier row falls on its day |
| `RowPresenter.OneSeparatorPerDay` | ChatLayout/ChatLayout/ViewController.swift:136-147 | in such a list, no two visible separators announce the same day |
| `RowPresenter.SeparatorAbove` | ChatLayout/ChatLayout/ViewController.swift:136-147 | every row has a visible separator at or above it for its own day, in any list |
| `SampleRows.SampleNewDayRows` | ChatLayout/ChatLayout/ViewController.swift:219-241 | if no calendar day lasts longer than 24 hours, the first, fifth and sixth messages of every round of the generated list show a separator, in any time zone |
| `SampleRows.DemoTimeDay` | ChatLayout/ChatLayout/ViewController.swift:179-241 | with the source's seed, message k of round r falls on UTC day 18264 + 3r plus 0, 1, or 2 (3 in the last round's closing messages) |
| `SampleRows.DemoMessageDay` | ChatLayout/ChatLayout/ViewController.swift:179-241 | with the source's seed, generated message 7r + k falls on UTC day 18264 + 3r plus 0, 1, or 2 (3 in the last round's closing messages) |
| `SampleRows.DemoSeparatorsInUtc` | ChatLayout/ChatLayout/ViewController.swift:136-147 | with the source's seed and a viewer in UTC, exactly rows 7r, 7r + 4 and 7r + 5 show the separator |
| `Bubble.Style` | ChatLayout/ChatLayout/ViewController.swift:24-30 | the bubble rounds every corner but one: top-left stays square for a received message, top-right for any other; the fill is light gray exactly for a received message, yellow otherwise |
| `Bubble.StyleExclusive` | ChatLayout/ChatLayout/ViewController.swift:24-30 | the two directions give different bubbles |
| `Bubble.StylesMirrored` | ChatLayout/ChatLayout/ViewController.swift:25-28 | the sent bubble's rounded corners are the received bubble's reflected left to right |
| `Bubble.CellDirection` | ChatLayout/ChatLayout/ViewController.swift:46-61 | only the sent cell class says sent; the base class and the received class say received |
| `Bubble.CellClassFor` | ChatLayout/ChatLayout/ViewController.swift:125-129 | a received message gets a cell whose direction is received and a sent message one whose direction is sent, never the base class |
| `Bubble.CellClassForInjective` | ChatLayout/ChatLayout/ViewController.swift:125-129 | the two directions get different cell classes |
| `Bubble.ChatBubbleView.constructor` | ChatLayout/ChatLayout/ViewController.swift:13 | a new bubble says received and has no mask or background yet |
| `Bubble.ChatBubbleView.LayoutSubviews` | ChatLayout/ChatLayout/ViewController.swift:15-33 | a layout pass sets the mask's rounded corners and the background to the style of the bubble's direction, and keeps the direction |
| `Bubble.ChatCell.constructor` | ChatLayout/ChatLayout/ViewController.swift:36-41 | a cell is of the given class and holds the given bubble |
| `Bubble.ChatCell.LayoutSubviews` | ChatLayout/ChatLayout/ViewController.swift:49-52 | a cell's layout pass copies its class's direction into its bubble and changes nothing else |
| `Bubble.LayOutCellFor` | ChatLayout/ChatLayout/ViewController.swift:11-62 | a cell chosen for a message, laid out and then its bubble laid out, shows that direction's bubble style |

## Left out

- Table plumbing: nib registration, cell dequeuing and reuse, outlet wiring, the section and row counts, the separator style and the estimated row height. These are framework calls with no behaviour beyond what the model states.
- Bezier-path and shape-layer geometry and the 12.0 corner radius. Only the set of rounded corners and a colour tag are modelled; `LightGray` stands for white at level 0.9, fully opaque.
- Date formatting (medium date, short time, en_US_POSIX parsing) and the current calendar and time zone. These are library code that depends on the locale. They become the parameters `day`, `dateText` and `timeText`.
- Parsing the seed string, and the fallback to the current time when parsing fails. The seed is a parameter; `SampleRows.DemoSeed` is the value the string denotes in UTC.
- Dates as floating-point seconds. Times are integer seconds, which is exact because every offset is a whole number of minutes.
- The layout priorities as numbers (250 and 750 in the toolkit). They are the two values of `RowPresenter.Priority`.
- The default field values of `ChatObject` (lines 71-74). The generator always sets every field.
- The commented-out debug colouring block (lines 156-160).
- The framework's order of layout passes. `Bubble.LayOutCellFor` assumes the cell is laid out before its bubble, as the toolkit does for a view's subviews.
