/** The live session object: recording an event and compacting the transcript change it in place. */
module AgentSession {
  import opened Basics
  import opened Transcript
  import opened Compaction
  import opened EventLog

  class Session<D> {
    var messages: seq<Message>
    var events: seq<Event<D>>
    var sequence: nat

    function CurrentLog(): Log<D>
      reads this
    {
      Log(sequence, events)
    }

    constructor ()
      ensures messages == [] && CurrentLog() == Log(0, [])
      ensures Tail(CurrentLog())
    {
      messages, events, sequence := [], [], 0;
    }

    method Record(data: D) returns (event: Event<D>)
      modifies this`events, this`sequence
      ensures event == Event(old(sequence) + 1, data)
      ensures CurrentLog() == Append(old(CurrentLog()), data)
      ensures old(Tail(CurrentLog())) ==> Tail(CurrentLog()) && events[|events| - 1] == event
    {
      sequence := sequence + 1;
      event := Event(sequence, data);
      events := events + [event];
      if |events| > MAX_DURABLE_EVENTS {
        var dropCount := |events| - MAX_DURABLE_EVENTS;
        assert events[dropCount..][MAX_DURABLE_EVENTS - 1] == event;
        events := events[dropCount..];
      }
    }

    method FindSuffixStart(first: nat, budget: nat) returns (suffixStart: nat)
      requires first <= |messages|
      ensures suffixStart == SuffixStart(messages, first, budget)
      ensures (exists i :: UserAt(messages, first, i)) ==> IsSuffixStart(messages, first, budget, suffixStart)
    {
      suffixStart := Monus(|messages|, 1);
      var used := 0;
      var index := |messages|;
      while index > first
        invariant first <= index <= |messages|
        invariant used == TotalChars(messages[index..])
        invariant suffixStart <= |messages|
        invariant ScanFrom(messages, first, budget, index, suffixStart) == SuffixStart(messages, first, budget)
      {
        index := index - 1;
        TotalOfSuffix(messages, index);
        used := used + Size(messages[index]);
        if messages[index].role == User {
          suffixStart := index;
          if used >= budget {
            break;
          }
        }
      }
      if exists i :: UserAt(messages, first, i) {
        SuffixStartFound(messages, first, budget);
      }
    }

    method Summarize(dropped: seq<Message>) returns (summary: string)
      ensures summary == SummaryFrom(SUMMARY_HEADER, dropped)
      ensures IsSummary(dropped, summary)
      ensures |summary| <= COMPACT_SUMMARY_CHARS + 12
    {
      SummaryIsTheEntries(dropped);
      HeaderIsShort();
      SummaryIsBounded(SUMMARY_HEADER, dropped);
      summary := SUMMARY_HEADER;
      var i := 0;
      while i < |dropped|
        invariant i <= |dropped|
        invariant SummaryFrom(summary, dropped[i..]) == SummaryFrom(SUMMARY_HEADER, dropped)
      {
        var message := dropped[i];
        assert dropped[i..][0] == message && dropped[i..][1..] == dropped[i + 1..];
        if message.role != Tool {
          var available := Monus(COMPACT_SUMMARY_CHARS, |summary|);
          if available < 64 {
            break;
          }
          var excerpt := message.content[..Min(|message.content|, Min(available, 1_000))];
          if !Blank(excerpt) {
            summary := summary + SummaryLine(message, excerpt);
          }
        }
        i := i + 1;
      }
    }

    method CompactMessages(enabled: bool) returns (changed: bool)
      modifies this`messages
      ensures changed == Compacted(enabled, old(messages)).Some?
      ensures messages == AfterCompaction(enabled, old(messages))
      ensures old(Grounded(messages)) ==> Grounded(messages)
      ensures old(Grounded(messages) && WellFormed(messages)) ==> WellFormed(messages)
    {
      if Grounded(messages) && Compacted(enabled, messages).Some? {
        CompactionKeepsStructure(enabled, messages);
      }
      if !enabled || TotalChars(messages) <= MAX_CONTEXT_CHARS {
        return false;
      }
      var hasSystem := |messages| > 0 && messages[0].role == System;
      var firstConversation := if hasSystem then 1 else 0;
      var budget := Monus(MAX_CONTEXT_CHARS, (if hasSystem then |messages[0].content| else 0) + COMPACT_SUMMARY_CHARS);
      var suffixStart := FindSuffixStart(firstConversation, budget);
      if suffixStart <= firstConversation {
        return false;
      }
      var summary := Summarize(messages[firstConversation..suffixStart]);
      var compacted := if hasSystem then [messages[0]] else [];
      assert compacted == messages[..firstConversation];
      compacted := compacted + [Text(System, summary)];
      messages := compacted + messages[suffixStart..];
      return true;
    }
  }
}
