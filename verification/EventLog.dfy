/** The numbered event log of a session and its paged reading. */
module EventLog {
  import opened Basics

  const MAX_DURABLE_EVENTS: nat := 1_000
  const MAX_PAGE: nat := 200

  datatype Event<+D> = Event(seqNo: nat, data: D)

  datatype Log<+D> = Log(sequence: nat, events: seq<Event<D>>)

  function NextEvent<D>(log: Log<D>, data: D): Event<D> {
    Event(log.sequence + 1, data)
  }

  /** Number the event, append it, and drop the oldest events beyond the cap. */
  function Append<D>(log: Log<D>, data: D): Log<D> {
    var events := log.events + [NextEvent(log, data)];
    Log(log.sequence + 1,
        if |events| > MAX_DURABLE_EVENTS then events[|events| - MAX_DURABLE_EVENTS..] else events)
  }

  /** The log holds exactly the last min(sequence, 1000) consecutive numbers. */
  ghost predicate Tail<D>(log: Log<D>) {
    && |log.events| == (if log.sequence < MAX_DURABLE_EVENTS then log.sequence else MAX_DURABLE_EVENTS)
    && forall i :: 0 <= i < |log.events| ==> log.events[i].seqNo == log.sequence - |log.events| + 1 + i
  }

  function AppendAll<D>(log: Log<D>, data: seq<D>): Log<D>
    decreases |data|
  {
    if data == [] then log else AppendAll(Append(log, data[0]), data[1..])
  }

  /** After any number of records the log is the tail of the numbering, newest last. */
  lemma {:induction false} RecordsKeepTheTail<D>(log: Log<D>, data: seq<D>)
    requires Tail(log)
    ensures Tail(AppendAll(log, data))
    ensures AppendAll(log, data).sequence == log.sequence + |data|
    ensures data != [] ==>
              var events := AppendAll(log, data).events; |events| > 0 && events[|events| - 1].data == data[|data| - 1]
    decreases |data|
  {
    if data != [] {
      RecordsKeepTheTail(Append(log, data[0]), data[1..]);
    }
  }

  /** What the records would be if none were dropped. */
  function EventsOf<D>(log: Log<D>, data: seq<D>): (events: seq<Event<D>>)
    ensures |events| == |data|
    ensures forall i :: 0 <= i < |data| ==> events[i] == Event(log.sequence + 1 + i, data[i])
  {
    seq(|data|, i requires 0 <= i < |data| => Event(log.sequence + 1 + i, data[i]))
  }

  /** The newest n of them, or all. */
  function Newest<T>(s: seq<T>, n: nat): seq<T> {
    s[Monus(|s|, n)..]
  }

  lemma NewestOfMore<T>(a: seq<T>, b: seq<T>, n: nat)
    ensures Newest(Newest(a, n) + b, n) == Newest(a + b, n)
  {
  }

  lemma AppendIsNewest<D>(log: Log<D>, data: D)
    requires |log.events| <= 1_000
    ensures Append(log, data).events == Newest(log.events + [Event(log.sequence + 1, data)], 1_000)
  {
  }

  lemma EventsInTurn<D>(log: Log<D>, data: seq<D>)
    requires data != []
    ensures log.events + [Event(log.sequence + 1, data[0])] + EventsOf(Append(log, data[0]), data[1..])
            == log.events + EventsOf(log, data)
  {
    assert EventsOf(log, data) == [Event(log.sequence + 1, data[0])] + EventsOf(Append(log, data[0]), data[1..]);
  }

  /** What is kept of them is what was recorded: the newest 1,000 events, with their data and in their order. */
  lemma {:induction false} RecordsAreKept<D>(log: Log<D>, data: seq<D>)
    requires |log.events| <= 1_000
    ensures AppendAll(log, data).events == Newest(log.events + EventsOf(log, data), 1_000)
    decreases |data|
  {
    if data == [] {
      assert log.events + EventsOf(log, data) == log.events;
    } else {
      RecordsAreKept(Append(log, data[0]), data[1..]);
      AppendIsNewest(log, data[0]);
      NewestOfMore(log.events + [Event(log.sequence + 1, data[0])], EventsOf(Append(log, data[0]), data[1..]), 1_000);
      EventsInTurn(log, data);
    }
  }

  // ---------- Paging ----------

  /** What the request's "afterSeq" member holds. */
  datatype AfterSeq = Absent | Natural(n: nat) | OtherNumber

  datatype Page<+D> = Page(events: seq<Event<D>>, hasMore: bool)

  function LaterThan<D>(events: seq<Event<D>>, after: nat): seq<Event<D>> {
    if events == [] then []
    else (if events[0].seqNo > after then [events[0]] else []) + LaterThan(events[1..], after)
  }

  function Take<T>(s: seq<T>, n: nat): seq<T> {
    if |s| <= n then s else s[..n]
  }

  function TakeLast<T>(s: seq<T>, n: nat): seq<T> {
    if |s| <= n then s else s[|s| - n..]
  }

  function PageLimit(requested: Option<nat>): nat {
    match requested
    case None => MAX_PAGE
    case Some(n) => if n < 1 then 1 else if n > MAX_PAGE then MAX_PAGE else n
  }

  function History<D>(log: Log<D>, after: AfterSeq, requested: Option<nat>): Page<D> {
    var limit := PageLimit(requested);
    var selected := if after.Natural? then Take(LaterThan(log.events, after.n), limit) else TakeLast(log.events, limit);
    Page(selected,
         if after.Absent? then |log.events| > limit
         else |selected| == limit && selected[|selected| - 1].seqNo != log.sequence)
  }

  /** In a tail, the events after a number are one contiguous suffix. */
  lemma {:induction false} LaterIsASuffix<D>(events: seq<Event<D>>, base: nat, after: nat)
    requires forall i :: 0 <= i < |events| ==> events[i].seqNo == base + 1 + i
    ensures LaterThan(events, after)
            == if after <= base then events else if after - base <= |events| then events[after - base..] else []
  {
    if events != [] {
      LaterIsASuffix(events[1..], base + 1, after);
    }
  }

  /** `hasMore` says exactly whether retained later events remain after this page. */
  lemma HasMoreIsExact<D>(log: Log<D>, after: nat, requested: Option<nat>)
    requires Tail(log)
    ensures var page := History(log, Natural(after), requested);
            var later := LaterThan(log.events, after);
            && page.events <= later
            && (page.hasMore <==> |page.events| < |later|)
            && (page.hasMore ==> |page.events| > 0 && page.events[|page.events| - 1].seqNo > after)
  {
    LaterIsASuffix(log.events, log.sequence - |log.events|, after);
  }

  /** A page is as long as it may be: at least one event and at most 200, as far as there are so many. Without a natural
      `afterSeq` it holds the newest ones. */
  lemma PagesAreFull<D>(log: Log<D>, after: AfterSeq, requested: Option<nat>)
    ensures var page := History(log, after, requested).events;
            var limit := if requested.None? || requested.value > 200 then 200 else if requested.value == 0 then 1
                         else requested.value;
            if after.Natural? then
              && page <= LaterThan(log.events, after.n)
              && |page| == Min(limit, |LaterThan(log.events, after.n)|)
            else page == Newest(log.events, limit)
    ensures History(log, Absent, requested).hasMore
            <==> |History(log, Absent, requested).events| < |log.events|
  {
  }

  /** The later events are those with a greater number, in their order. */
  lemma {:induction false} LaterIsExact<D>(events: seq<Event<D>>, after: nat, e: Event<D>)
    ensures multiset(LaterThan(events, after))[e] == if e.seqNo > after then multiset(events)[e] else 0
  {
    if events != [] {
      LaterIsExact(events[1..], after, e);
      assert events == [events[0]] + events[1..];
    }
  }

  /** A client that pages forward from the last event it got until nothing remains. */
  function ReadAll<D>(log: Log<D>, after: nat, requested: Option<nat>): seq<Event<D>>
    requires Tail(log)
    decreases |LaterThan(log.events, after)|
  {
    var page := History(log, Natural(after), requested);
    if !page.hasMore then page.events
    else
      HasMoreIsExact(log, after, requested);
      PageAdvances(log, after, requested);
      page.events + ReadAll(log, page.events[|page.events| - 1].seqNo, requested)
  }

  lemma PageAdvances<D>(log: Log<D>, after: nat, requested: Option<nat>)
    requires Tail(log)
    requires History(log, Natural(after), requested).hasMore
    ensures var page := History(log, Natural(after), requested).events;
            && |page| > 0
            && LaterThan(log.events, after) == page + LaterThan(log.events, page[|page| - 1].seqNo)
  {
    HasMoreIsExact(log, after, requested);
    var base := log.sequence - |log.events|;
    var low := Monus(after, base);
    var later := LaterThan(log.events, after);
    LaterIsASuffix(log.events, base, after);
    assert later == log.events[low..];
    var n := |History(log, Natural(after), requested).events|;
    assert History(log, Natural(after), requested).events == later[..n];
    SplitTail(log.events, base, low, n);
  }

  lemma SplitTail<D>(events: seq<Event<D>>, base: nat, low: nat, n: nat)
    requires forall i :: 0 <= i < |events| ==> events[i].seqNo == base + 1 + i
    requires low <= |events| && 0 < n <= |events[low..]|
    ensures var page := events[low..][..n];
            events[low..] == page + LaterThan(events, page[n - 1].seqNo)
  {
    LaterIsASuffix(events, base, base + low + n);
    assert events[low..][..n][n - 1] == events[low + n - 1];
    assert events[low..] == events[low..][..n] + events[low + n..];
  }

  /** Forward paging ends and returns every retained later event once, in order. */
  lemma {:induction false} PagingReturnsEverything<D>(log: Log<D>, after: nat, requested: Option<nat>)
    requires Tail(log)
    ensures ReadAll(log, after, requested) == LaterThan(log.events, after)
    decreases |LaterThan(log.events, after)|
  {
    HasMoreIsExact(log, after, requested);
    var page := History(log, Natural(after), requested);
    if page.hasMore {
      PageAdvances(log, after, requested);
      PagingReturnsEverything(log, page.events[|page.events| - 1].seqNo, requested);
    }
  }

  /** A number that is not a natural selects the newest page but never reports more,
      even when older events were left out: `hasMore` is exact only for naturals and absence. */
  lemma OtherNumbersHideTheRest<D>(log: Log<D>, requested: Option<nat>)
    requires Tail(log)
    ensures !History(log, OtherNumber, requested).hasMore
    ensures |History(log, OtherNumber, requested).events| < |log.events| <==> History(log, Absent, requested).hasMore
    ensures History(log, OtherNumber, requested).events == History(log, Absent, requested).events
  {
    assert log.events != [] ==> log.events[|log.events| - 1].seqNo == log.sequence;
  }
}
