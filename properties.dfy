/** What the handler guarantees, one event at a time and over a sequence of events. */
module Properties {
  import opened Wrappers
  import opened Text
  import opened Bot

  /** Exactly the text messages are handled; the rest are ignorable. */
  lemma ClassifyCases(e: Event)
    ensures Classify(e).Ignorable? <==> e.eventType != "message" || e.message.msgType != "text"
    ensures Classify(e).Trigger? <==> !Classify(e).Ignorable? && e.message.text == TriggerPhrase
    ensures Classify(e).PlainText? ==> Classify(e).text == e.message.text
  {
  }

  /** An event that is not a text message gets no reply, calls nothing, and leaves the log and the date as they were. */
  lemma IgnorableEventChangesNothing(s: State, e: Event, summarize: string -> Option<string>, batchInsert: string -> bool)
    requires e.eventType != "message" || e.message.msgType != "text"
    ensures Step(s, e, summarize, batchInsert) == Outcome(s, None, [])
  {
  }

  /** After a text event the date is the event's day; a different day first empties the log. */
  lemma TextEventMovesToItsDay(s: State, e: Event, summarize: string -> Option<string>, batchInsert: string -> bool)
    requires !Classify(e).Ignorable?
    ensures Step(s, e, summarize, batchInsert).state.date == DatePrefix(e.timestamp)
    ensures DatePrefix(e.timestamp) != s.date ==>
      Step(s, e, summarize, batchInsert).state.log ==
        (if Classify(e).Trigger? then [] else [FormatEntry(e.timestamp, e.message.text)])
  {
  }

  /** Rolling over to the current day changes nothing, so rolling over twice to one day is rolling over once. */
  lemma RolloverIdempotent(s: State, day: string)
    ensures Rollover(s, s.date) == s
    ensures Rollover(Rollover(s, day), day) == Rollover(s, day)
    ensures Rollover(s, day).date == day
  {
  }

  /** A text event of the log's own day keeps every existing entry, in place. */
  lemma SameDayKeepsEntries(s: State, e: Event, summarize: string -> Option<string>, batchInsert: string -> bool)
    requires !Classify(e).Ignorable?
    requires DatePrefix(e.timestamp) == s.date
    ensures |s.log| <= |Step(s, e, summarize, batchInsert).state.log|
    ensures Step(s, e, summarize, batchInsert).state.log[..|s.log|] == s.log
  {
  }

  /**
   * A non-trigger text message adds exactly one line `[timestamp] text` at the end of the (rolled-over)
   * log, gets no reply and calls nothing; for an ISO instant the line reads back as that timestamp and text.
   */
  lemma PlainTextAppendsOneEntry(s: State, e: Event, summarize: string -> Option<string>, batchInsert: string -> bool)
    requires Classify(e).PlainText?
    ensures var o := Step(s, e, summarize, batchInsert);
      var before := Rollover(s, DatePrefix(e.timestamp)).log;
      && |o.state.log| == |before| + 1
      && o.state.log[..|before|] == before
      && o.state.log[|before|] == "[" + e.timestamp + "] " + e.message.text
      && o.reply == None && o.calls == []
    ensures IsIsoInstant(e.timestamp) ==>
      var o := Step(s, e, summarize, batchInsert);
      ParseEntry(o.state.log[|o.state.log| - 1]) == Some(Entry(e.timestamp, e.message.text))
  {
    var o := Step(s, e, summarize, batchInsert);
    if IsIsoInstant(e.timestamp) {
      IsoInstantFields(e.timestamp);
      ParseFormattedEntry(e.timestamp, e.message.text);
    }
  }

  /** The trigger is the exact text `整理`: surrounding spaces or a newline make it plain text. */
  lemma TriggerIsExactMatch(ts: string)
    ensures forall text :: Classify(Event("message", Message("text", text), ts)).Trigger? <==> text == "整理"
    ensures Classify(Event("message", Message("text", " 整理"), ts)) == PlainText(" 整理")
    ensures Classify(Event("message", Message("text", "整理 "), ts)) == PlainText("整理 ")
    ensures Classify(Event("message", Message("text", "整理\n"), ts)) == PlainText("整理\n")
  {
  }

  /** A trigger never changes the log beyond the rollover, whatever the collaborators do: it is not appended and nothing is cleared. */
  lemma TriggerKeepsLog(s: State, e: Event, summarize: string -> Option<string>, batchInsert: string -> bool)
    requires Classify(e).Trigger?
    ensures Step(s, e, summarize, batchInsert).state == Rollover(s, DatePrefix(e.timestamp))
    ensures DatePrefix(e.timestamp) == s.date ==> Step(s, e, summarize, batchInsert).state == s
  {
  }

  /** A trigger on an empty log, also one just emptied by rollover, replies "nothing to organise" and calls no collaborator. */
  lemma TriggerOnEmptyLog(s: State, e: Event, summarize: string -> Option<string>, batchInsert: string -> bool)
    requires Classify(e).Trigger?
    requires s.log == [] || DatePrefix(e.timestamp) != s.date
    ensures Step(s, e, summarize, batchInsert).reply == Some(NothingToOrganizeReply)
    ensures Step(s, e, summarize, batchInsert).calls == []
  {
  }

  /**
   * A trigger on a non-empty log first hands the summariser the entries joined by newlines, in order
   * (so, when no entry holds a newline, splitting that input on newlines gives the log back). A failing
   * summariser ends it there with the error reply; otherwise the document writer gets the event's timestamp
   * and the summary, and the reply is the completion message exactly when the insert of the document text succeeds.
   */
  lemma TriggerOnNonEmptyLog(s: State, e: Event, summarize: string -> Option<string>, batchInsert: string -> bool)
    requires Classify(e).Trigger?
    requires Rollover(s, DatePrefix(e.timestamp)).log != []
    ensures var o := Step(s, e, summarize, batchInsert);
      var log := Rollover(s, DatePrefix(e.timestamp)).log;
      && |o.calls| >= 1
      && o.calls[0] == Summarize(Join(log, "\n"))
      && ((forall i :: 0 <= i < |log| ==> '\n' !in log[i]) ==> Split(o.calls[0].input, '\n') == log)
      && (summarize(o.calls[0].input).None? ==> o.calls == o.calls[..1] && o.reply == Some(ErrorReply))
      && (summarize(o.calls[0].input).Some? ==>
            var summary := summarize(o.calls[0].input).value;
            && o.calls == [o.calls[0], WriteDoc(DocData(e.timestamp, summary))]
            && (o.reply == Some(DoneReply) <==> batchInsert("日期: " + DatePrefix(e.timestamp) + "\n\n" + summary))
            && (o.reply != Some(DoneReply) ==> o.reply == Some(ErrorReply)))
  {
    var log := Rollover(s, DatePrefix(e.timestamp)).log;
    if forall i :: 0 <= i < |log| ==> '\n' !in log[i] {
      SplitJoin(log, '\n');
    }
  }

  /**
   * The log is not drained by a trigger: a second trigger on the same day, after a first one on a
   * non-empty log succeeded or failed, hands the summariser the very same text again.
   */
  lemma RepeatedTriggerResummarizes(s: State, e1: Event, e2: Event,
                                    summarize: string -> Option<string>, batchInsert: string -> bool)
    requires Classify(e1).Trigger? && Classify(e2).Trigger?
    requires DatePrefix(e2.timestamp) == DatePrefix(e1.timestamp)
    requires Rollover(s, DatePrefix(e1.timestamp)).log != []
    ensures var o1 := Step(s, e1, summarize, batchInsert);
      var o2 := Step(o1.state, e2, summarize, batchInsert);
      && o2.state == o1.state
      && |o1.calls| >= 1 && |o2.calls| >= 1
      && o2.calls[0] == o1.calls[0]
      && o2.reply != Some(NothingToOrganizeReply)
  {
  }

  /** Every line of the log is a formatted entry stamped on the log's day. */
  ghost predicate EntriesOnDay(s: State)
  {
    forall i :: 0 <= i < |s.log| ==>
      ParseEntry(s.log[i]).Some? && DatePrefix(ParseEntry(s.log[i]).value.timestamp) == s.date
  }

  /** Handling an event with an ISO instant keeps every entry stamped on the log's day. */
  lemma StepKeepsEntriesOnDay(s: State, e: Event, summarize: string -> Option<string>, batchInsert: string -> bool)
    requires EntriesOnDay(s)
    requires IsIsoInstant(e.timestamp)
    ensures EntriesOnDay(Step(s, e, summarize, batchInsert).state)
  {
    var o := Step(s, e, summarize, batchInsert);
    if Classify(e).PlainText? {
      IsoInstantFields(e.timestamp);
      ParseFormattedEntry(e.timestamp, e.message.text);
      var t := Rollover(s, DatePrefix(e.timestamp));
      assert o.state.log == t.log + [FormatEntry(e.timestamp, e.message.text)];
      forall i | 0 <= i < |o.state.log|
        ensures ParseEntry(o.state.log[i]).Some? && DatePrefix(ParseEntry(o.state.log[i]).value.timestamp) == o.state.date
      {
        if i < |t.log| {
          assert o.state.log[i] == t.log[i];
        }
      }
    }
  }

  /** After an event of a new day, no line of the earlier day is left in the log. */
  lemma StaleEntriesDiscarded(s: State, e: Event, summarize: string -> Option<string>, batchInsert: string -> bool)
    requires EntriesOnDay(s)
    requires IsIsoInstant(e.timestamp)
    requires !Classify(e).Ignorable? && DatePrefix(e.timestamp) != s.date
    ensures var o := Step(s, e, summarize, batchInsert);
      forall i :: 0 <= i < |o.state.log| ==>
        ParseEntry(o.state.log[i]).Some? && DatePrefix(ParseEntry(o.state.log[i]).value.timestamp) != s.date
  {
    StepKeepsEntriesOnDay(s, e, summarize, batchInsert);
  }

  /** Over any run of ISO-stamped events the log holds only entries of its current day. */
  lemma {:induction false} RunKeepsEntriesOnDay(s: State, events: seq<Event>,
                                                summarize: string -> Option<string>, batchInsert: string -> bool)
    requires EntriesOnDay(s)
    requires forall i :: 0 <= i < |events| ==> IsIsoInstant(events[i].timestamp)
    ensures EntriesOnDay(Run(s, events, summarize, batchInsert))
    decreases |events|
  {
    if events != [] {
      StepKeepsEntriesOnDay(s, events[0], summarize, batchInsert);
      RunKeepsEntriesOnDay(Step(s, events[0], summarize, batchInsert).state, events[1..], summarize, batchInsert);
    }
  }

  /** The log lines the plain-text messages among `events` contribute, in order. */
  function Appended(events: seq<Event>): seq<string>
  {
    if events == [] then []
    else
      var line := match Classify(events[0])
        case PlainText(text) => [FormatEntry(events[0].timestamp, text)]
        case _ => [];
      line + Appended(events[1..])
  }

  /** Every text event in `events` falls on `day`. */
  predicate AllOnDay(events: seq<Event>, day: string)
  {
    forall i :: 0 <= i < |events| ==> Classify(events[i]).Ignorable? || DatePrefix(events[i].timestamp) == day
  }

  /**
   * Within one day the log only grows: after any run of events of the log's day, whatever the
   * triggers and collaborators did, the log is the old log followed by the plain-text lines in order.
   */
  lemma {:induction false} SameDayRunOnlyAppends(s: State, events: seq<Event>,
                                                 summarize: string -> Option<string>, batchInsert: string -> bool)
    requires AllOnDay(events, s.date)
    ensures Run(s, events, summarize, batchInsert) == State(s.log + Appended(events), s.date)
    decreases |events|
  {
    if events != [] {
      var o := Step(s, events[0], summarize, batchInsert);
      assert AllOnDay(events[1..], s.date) by {
        forall i | 0 <= i < |events| - 1
          ensures Classify(events[1..][i]).Ignorable? || DatePrefix(events[1..][i].timestamp) == s.date
        {
          assert events[1..][i] == events[i + 1];
        }
      }
      assert o.state.date == s.date;
      SameDayRunOnlyAppends(o.state, events[1..], summarize, batchInsert);
      assert o.state.log == s.log + Appended([events[0]]);
    }
  }

  /** The day of an instant `<day>T<time>` whose day part holds no `T`. */
  lemma DayOf(day: string, time: string)
    requires 'T' !in day
    ensures DatePrefix(day + "T" + time) == day
  {
    SplitAfterPiece(day, 'T', time);
  }

  /**
   * Two messages and a trigger on the day of an empty log: the summariser receives both log lines,
   * timestamps included, joined by a newline; the writer gets the trigger's timestamp and the summary;
   * a successful insert gives the completion reply, and the log keeps both lines.
   */
  lemma TwoMessagesThenTrigger(s: State, t1: string, t2: string, t3: string, text1: string, text2: string,
                               summarize: string -> Option<string>, batchInsert: string -> bool)
    requires s.log == []
    requires DatePrefix(t1) == s.date && DatePrefix(t2) == s.date && DatePrefix(t3) == s.date
    requires text1 != TriggerPhrase && text2 != TriggerPhrase
    requires summarize(FormatEntry(t1, text1) + "\n" + FormatEntry(t2, text2)).Some?
    requires batchInsert(DocContent(t3, summarize(FormatEntry(t1, text1) + "\n" + FormatEntry(t2, text2)).value))
    ensures var o1 := Step(s, Event("message", Message("text", text1), t1), summarize, batchInsert);
      var o2 := Step(o1.state, Event("message", Message("text", text2), t2), summarize, batchInsert);
      var o3 := Step(o2.state, Event("message", Message("text", TriggerPhrase), t3), summarize, batchInsert);
      var input := FormatEntry(t1, text1) + "\n" + FormatEntry(t2, text2);
      && o3.calls == [Summarize(input), WriteDoc(DocData(t3, summarize(input).value))]
      && o3.reply == Some(DoneReply)
      && o3.state == State([FormatEntry(t1, text1), FormatEntry(t2, text2)], s.date)
  {
    var l1, l2 := FormatEntry(t1, text1), FormatEntry(t2, text2);
    var o1 := Step(s, Event("message", Message("text", text1), t1), summarize, batchInsert);
    assert o1.state == State([l1], s.date);
    var o2 := Step(o1.state, Event("message", Message("text", text2), t2), summarize, batchInsert);
    assert o2.state == State([l1, l2], s.date);
    var input := FormatEntry(t1, text1) + "\n" + FormatEntry(t2, text2);
    assert Join([l1, l2], "\n") == input;
    var o3 := Step(o2.state, Event("message", Message("text", TriggerPhrase), t3), summarize, batchInsert);
    assert o3.calls == [Summarize(input), WriteDoc(DocData(t3, summarize(input).value))];
    assert o3.reply == Some(DoneReply);
  }

  /** A message on one day and then one on another: only the second survives. */
  lemma NextDayDiscardsEarlier(s: State, day1: string, day2: string, time1: string, time2: string,
                               text1: string, text2: string,
                               summarize: string -> Option<string>, batchInsert: string -> bool)
    requires 'T' !in day1 && 'T' !in day2 && day1 != day2
    requires text1 != TriggerPhrase && text2 != TriggerPhrase
    ensures var o1 := Step(s, Event("message", Message("text", text1), day1 + "T" + time1), summarize, batchInsert);
      var o2 := Step(o1.state, Event("message", Message("text", text2), day2 + "T" + time2), summarize, batchInsert);
      o2.state == State([FormatEntry(day2 + "T" + time2, text2)], day2)
  {
    DayOf(day1, time1);
    DayOf(day2, time2);
  }
}
