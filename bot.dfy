/**
 * The daily conversation log of the LINE bot and the event handler that drives it:
 * classify an inbound event, roll the log over to a new day, append plain text,
 * and on the trigger phrase summarise the day and write the summary to the document.
 */
module Bot {
  import opened Wrappers
  import opened Text

  /** The command that asks for the day's conversation to be organised. */
  const TriggerPhrase: string := "整理"

  const NothingToOrganizeReply: string := "今天沒有可整理的對話內容。"
  const DoneReply: string := "已完成當天資料整理並保存至 Google Docs。"
  const ErrorReply: string := "資料整理過程中發生錯誤，請稍後再試。"

  /** The `message` object of a platform event: its kind and, for text, the text. */
  datatype Message = Message(msgType: string, text: string)

  /** An inbound platform event; `timestamp` is the send time already rendered as an ISO-8601 string. */
  datatype Event = Event(eventType: string, message: Message, timestamp: string)

  /** What the handler makes of an event. */
  datatype Kind = Ignorable | PlainText(text: string) | Trigger

  function Classify(e: Event): Kind
  {
    if e.eventType != "message" || e.message.msgType != "text" then Ignorable
    else if e.message.text == TriggerPhrase then Trigger
    else PlainText(e.message.text)
  }

  /** The record handed to the document writer. */
  datatype DocData = DocData(timestamp: string, message: string)

  /** A call the handler makes on a collaborator, with its argument. */
  datatype Call = Summarize(input: string) | WriteDoc(data: DocData)

  /**
   * Writes `data` to the document: builds the inserted text, then performs the insert,
   * which either succeeds (`true`) or throws (`false`).
   */
  function WriteToGoogleDocs(data: DocData, batchInsert: string -> bool): bool
  {
    batchInsert(DocContent(data.timestamp, data.message))
  }

  /** The module state: the day's log lines and the day they belong to. */
  datatype State = State(log: seq<string>, date: string)

  /** Discards the log when `day` is not the day it belongs to. */
  function Rollover(s: State, day: string): State
  {
    if day != s.date then State([], day) else s
  }

  /** The reply to a trigger and the collaborator calls it made, in order. */
  datatype Report = Report(reply: string, calls: seq<Call>)

  /** The trigger branch on the (rolled-over) log: summarise, write, and reply; any failure gives the error reply. */
  function Organize(log: seq<string>, timestamp: string,
                    summarize: string -> Option<string>, batchInsert: string -> bool): Report
  {
    if |log| == 0 then Report(NothingToOrganizeReply, [])
    else
      var allMessages := Join(log, "\n");
      match summarize(allMessages)
      case None => Report(ErrorReply, [Summarize(allMessages)])
      case Some(summary) =>
        var data := DocData(timestamp, summary);
        var calls := [Summarize(allMessages), WriteDoc(data)];
        if WriteToGoogleDocs(data, batchInsert) then Report(DoneReply, calls) else Report(ErrorReply, calls)
  }

  /** The new state, the reply (`None` for no reply) and the collaborator calls of one handled event. */
  datatype Outcome = Outcome(state: State, reply: Option<string>, calls: seq<Call>)

  /** One event handled against state `s`: the specification of `ConversationLog.HandleEvent`. */
  function Step(s: State, e: Event, summarize: string -> Option<string>, batchInsert: string -> bool): Outcome
  {
    match Classify(e)
    case Ignorable => Outcome(s, None, [])
    case PlainText(text) =>
      var t := Rollover(s, DatePrefix(e.timestamp));
      Outcome(t.(log := t.log + [FormatEntry(e.timestamp, text)]), None, [])
    case Trigger =>
      var t := Rollover(s, DatePrefix(e.timestamp));
      var r := Organize(t.log, e.timestamp, summarize, batchInsert);
      Outcome(t, Some(r.reply), r.calls)
  }

  /** The state after handling `events` one after another. */
  function Run(s: State, events: seq<Event>, summarize: string -> Option<string>, batchInsert: string -> bool): State
    decreases |events|
  {
    if events == [] then s
    else Run(Step(s, events[0], summarize, batchInsert).state, events[1..], summarize, batchInsert)
  }

  /** The handler's module-level state and the handler itself. */
  class ConversationLog {
    var conversationLog: seq<string>
    var currentDate: string

    /** Starts with an empty log dated by the process start instant `startInstant`. */
    constructor (startInstant: string)
      ensures conversationLog == [] && currentDate == DatePrefix(startInstant)
    {
      conversationLog := [];
      currentDate := DatePrefix(startInstant);
    }

    function Snapshot(): State
      reads this
    {
      State(conversationLog, currentDate)
    }

    /**
     * Handles one event with the summariser `summarize` and the document insert `batchInsert`;
     * returns the reply (`None` for no reply) and the collaborator calls made.
     */
    method HandleEvent(event: Event, summarize: string -> Option<string>, batchInsert: string -> bool)
      returns (reply: Option<string>, calls: seq<Call>)
      modifies this
      ensures Outcome(Snapshot(), reply, calls) == Step(old(Snapshot()), event, summarize, batchInsert)
    {
      if event.eventType != "message" || event.message.msgType != "text" {
        return None, [];
      }

      var userMessage := event.message.text;
      var timestamp := event.timestamp;
      var messageDate := DatePrefix(timestamp);

      if messageDate != currentDate {
        conversationLog := [];
        currentDate := messageDate;
      }

      if userMessage == TriggerPhrase {
        if |conversationLog| == 0 {
          return Some(NothingToOrganizeReply), [];
        }
        var allMessages := Join(conversationLog, "\n");
        calls := [Summarize(allMessages)];
        var processedMessage := summarize(allMessages);
        if processedMessage.None? {
          return Some(ErrorReply), calls;
        }
        var data := DocData(timestamp, processedMessage.value);
        calls := calls + [WriteDoc(data)];
        var written := WriteToGoogleDocs(data, batchInsert);
        reply := Some(if written then DoneReply else ErrorReply);
      } else {
        conversationLog := conversationLog + [FormatEntry(timestamp, userMessage)];
        reply, calls := None, [];
      }
    }
  }
}
