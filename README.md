# Daily conversation log of a LINE summary bot, in Dafny

The bot receives LINE webhook events. For each one, `handleEvent` in `index.js` does the following:

- It drops every event that is not a text message.
- It dates the event by the day part of its ISO-8601 timestamp. When that day differs from the current day, it empties the module-level `conversationLog` and moves `currentDate` to the new day.
- It appends any text other than the trigger phrase `整理` to the log as the line `[<timestamp>] <text>`.
- On the trigger, an empty log gets the reply "nothing to organise". Otherwise the handler joins the log lines with newlines and sends them to a language model. It then writes `日期: <day>`, a blank line and the summary into a Google Doc, and replies with a completion or a generic error message.

Files:

- `wrappers.dfy` holds `Option`.
- `text.dfy` (module `Text`) holds the pure string expressions. These are JavaScript's one-character `split` and `join`, the date prefix `split('T')[0]`, the log-line format with its parser, the `toISOString` shape, and the text inserted into the document.
- `bot.dfy` (module `Bot`) holds the events, the classification and the trigger branch (`Organize`). `Step` is the pure specification of one handled event and `Run` applies it to a sequence of events. The class `ConversationLog` has the two module variables as fields. Its method `HandleEvent` updates them in place and is proved equal to `Step`.
- `properties.dfy` (module `Properties`) holds the lemmas about `Step` and `Run`.

The two network collaborators are parameters:

- `summarize: string -> Option<string>` stands for `processWithLLM`. `None` is a thrown error.
- `batchInsert: string -> bool` stands for the Docs `batchUpdate` of the inserted text. `false` is a thrown error.

`HandleEvent` also returns the collaborator calls it made, in order. This makes it observable that a collaborator was not called.

Where the design description and the code differ, the model follows the code:

- The log is never drained or cleared after a trigger, whether the trigger succeeds or fails. The same entries are summarised again by the next trigger of the day (`RepeatedTriggerResummarizes`, `SameDayRunOnlyAppends`).
- There is one generic error reply for both a summariser failure and a write failure.
- The summariser receives the formatted lines `[<timestamp>] <text>`, not the bare texts.

## Model

| member | source | states |
|---|---|---|
| Text.Split | index.js:44 | `split` with a one-character separator yields at least one piece, no piece contains the separator, and joining the pieces with the separator gives back the input |
| Text.FirstPiece | index.js:44 | the first piece of a split is a prefix of the input without the separator, and when it is shorter than the input the separator follows it |
| Text.SplitAfterPiece | index.js:44 | splitting `a + c + t` with `c` not in `a` gives `a` followed by the pieces of `t` |
| Text.SplitWithoutSeparator | index.js:44 | text without the separator splits into itself alone |
| Text.SplitJoin | index.js:60 | joining with a newline and splitting on it gives back the lines, so the joined text keeps every entry in insertion order when no entry contains a newline |
| Text.JoinSnoc | index.js:60 | joining one more line appends the separator and that line to the previous join |
| Text.IsoInstantFields | index.js:43-44 | for a `toISOString` instant the date prefix is its first ten characters, and the instant contains no `]` and no newline |
| Text.ParseFormattedEntry | index.js:74 | a line `[ts] text` whose timestamp has no `]` parses back to exactly that timestamp and text |
| Text.ParsedEntryIsFormatted | index.js:74 | every line that parses is the formatted line of what it parses to, and its timestamp has no `]`; with ParseFormattedEntry this is a two-way round trip |
| Text.DocContentOfIsoInstant | index.js:110 | the document text for an ISO instant is `日期: `, then the ten-character day, then a blank line, then the summary, and it is 16 characters longer than the summary |
| Text.DocContentDeterminesDayAndSummary | index.js:110 | two ISO-stamped document texts are equal only when they record the same day and the same summary |
| Bot.ConversationLog.constructor | index.js:22-23 | the log starts empty and is dated by the day of the start instant |
| Bot.ConversationLog.HandleEvent | index.js:37-77 | the new log, the new date, the reply and the collaborator calls are exactly those of `Step` applied to the old state |
| Properties.ClassifyCases | index.js:38-53 | an event is ignorable if and only if it is not a text message; it is the trigger if and only if it is a text message whose text equals the trigger phrase; plain text carries the message text |
| Properties.IgnorableEventChangesNothing | index.js:38-40 | an event that is not a text message returns null, makes no call and leaves the log and the date unchanged, so it causes no rollover |
| Properties.TextEventMovesToItsDay | index.js:43-50 | after a text event the date is the event's date prefix; on a new day the log holds only this event's line, or nothing for a trigger |
| Properties.RolloverIdempotent | index.js:47-50 | rolling over to the current day changes nothing, rolling over twice to one day equals rolling over once, and the date becomes the given day |
| Properties.SameDayKeepsEntries | index.js:47-50 | a text event of the log's own day keeps every existing entry in place and in order |
| Properties.PlainTextAppendsOneEntry | index.js:72-75 | non-trigger text adds exactly one line `[timestamp] text` at the end, keeps the earlier lines, replies null and calls nothing; for an ISO instant the line parses back to that timestamp and text |
| Properties.TriggerIsExactMatch | index.js:53 | a text message triggers if and only if its text is exactly `整理`; leading or trailing spaces or a newline make it plain text |
| Properties.TriggerKeepsLog | index.js:53-71 | a trigger does not append itself and changes nothing beyond the rollover, on success and on failure |
| Properties.TriggerOnEmptyLog | index.js:55-57 | a trigger on an empty log, or on a log that this event's rollover just emptied, replies `今天沒有可整理的對話內容。` and calls neither collaborator |
| Properties.TriggerOnNonEmptyLog | index.js:59-71 | on a non-empty log the first call hands the newline-joined log to the summariser, and the split-back input equals the log when no entry contains a newline; a failing summariser stops there with `資料整理過程中發生錯誤，請稍後再試。`; otherwise the writer gets the event's timestamp and the summary, and the reply is `已完成當天資料整理並保存至 Google Docs。` exactly when inserting `日期: <day>` + blank line + summary succeeds, and the error reply otherwise |
| Properties.RepeatedTriggerResummarizes | index.js:53-71 | after a trigger on a non-empty log, whatever the outcome, a second trigger on the same day sees the same log and sends the summariser the same text, never the "nothing to organise" reply |
| Properties.StepKeepsEntriesOnDay | index.js:43-75 | handling an event with an ISO timestamp keeps the invariant that every log line is a formatted entry whose timestamp falls on the current date |
| Properties.StaleEntriesDiscarded | index.js:47-50 | after a text event of a new day, no log line is dated on the previous day |
| Properties.RunKeepsEntriesOnDay | index.js:37-77 | over any sequence of ISO-stamped events the log holds only lines of its current date |
| Properties.SameDayRunOnlyAppends | index.js:47-75 | over any same-day sequence of events, whatever the triggers and collaborators do, the log is the old log followed by the lines of the plain-text messages in order, so nothing is ever drained |
| Properties.DayOf | index.js:44 | the date prefix of `<day>T<time>` is `<day>` when the day part has no `T` |
| Properties.TwoMessagesThenTrigger | index.js:37-77 | two messages then a trigger on the log's day: the summariser gets both formatted lines joined by a newline, the writer gets the trigger's timestamp and the summary, the reply is the completion message, and both lines stay in the log |
| Properties.NextDayDiscardsEarlier | index.js:47-50 | a message on one day followed by a message on another leaves only the second message's line, dated on the second day |

## Left out

- The Express server, the `/webhook` route, the JSON and 500 responses, and `app.listen` (index.js:19, 26-34, 144-147). These are HTTP plumbing.
- LINE middleware and signature checking (index.js:3, 13-16, 26). This is a foreign library.
- The OpenAI request, the response indexing and `.trim()` (index.js:80-103). They are replaced by the `summarize` parameter, which returns a summary or fails.
- The Google Docs client, `getAuth` and the parsing of the service-account JSON (index.js:107-108, 112-141). They are replaced by the `batchInsert` parameter. Only the inserted text of line 110 is modelled.
- The conversion of the epoch-millisecond `event.timestamp` with `new Date(...).toISOString()` (index.js:23, 43). The event carries the ISO string, and the constructor takes the process start instant. `IsIsoInstant` describes the strings that the conversion produces for years 0 to 9999. The `RangeError` for an invalid time value is not modelled.
- `Promise.all` over a batch and the interleaving of handlers at `await` (index.js:28, 61, 64). Every change to the log and the date, and the join of the log, happens before the first `await`. So applying the handler to the events in order gives the same state and the same summariser input. The order of calls across different events is not modelled.
- Collaborators are modelled as functions. This makes them deterministic: two identical summariser inputs get the same outcome.
- A `message` event with no `message` object, which would throw a `TypeError`. Platform message events always carry one, so `Event.message` is not optional.
- `dotenv` and `process.env` configuration, and `console.error` logging.
