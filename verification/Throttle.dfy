/** The latest-value throttle: the first value at once, then at most one per interval, the latest seen. */
module Throttle {
  import opened Basics

  /** What happens to a throttle, `after` some time: a value is pushed, the timer fires, or it is
      cancelled. `reaction` is what the listener does from inside the delivery this leads to, if any. */
  datatype Act<T> =
    | Push(after: nat, value: T, reaction: seq<Act<T>>)
    | Fire(after: nat, reaction: seq<Act<T>>)
    | Cancel(after: nat)

  /** Which push was delivered, and when. */
  datatype Delivery = Delivery(index: nat, at: int)

  /** In the order pushed, each push at most once, and at least `interval` apart. */
  ghost predicate AreSpaced(sent: seq<Delivery>, interval: int) {
    forall i :: 0 < i < |sent| ==> sent[i - 1].index < sent[i].index && sent[i - 1].at + interval <= sent[i].at
  }

  /** `j - i` deliveries take at least that many intervals. */
  lemma {:induction false} DeliveriesTakeTheirTime(sent: seq<Delivery>, interval: int, i: nat, j: nat)
    requires AreSpaced(sent, interval) && i <= j < |sent|
    ensures sent[i].at + (j - i) * interval <= sent[j].at
    ensures i < j ==> sent[i].index < sent[j].index
    decreases j - i
  {
    if i < j {
      DeliveriesTakeTheirTime(sent, interval, i, j - 1);
      assert (j - i) * interval == (j - 1 - i) * interval + interval;
    }
  }

  /** Any stretch of time holds at most one delivery more than the whole intervals in it. */
  lemma AtMostOnePerInterval(sent: seq<Delivery>, interval: int, i: nat, j: nat, from: int, whole: nat)
    requires AreSpaced(sent, interval) && i <= j < |sent| && interval > 0
    requires from <= sent[i].at && sent[j].at < from + (whole + 1) * interval
    ensures j - i + 1 <= whole + 1
  {
    DeliveriesTakeTheirTime(sent, interval, i, j);
    if j - i >= whole + 1 {
      MoreTakesLonger(whole + 1, j - i, interval);
    }
  }

  lemma MoreTakesLonger(a: int, b: int, interval: int)
    requires a <= b && interval >= 0
    ensures a * interval <= b * interval
  {
    assert b * interval == a * interval + (b - a) * interval;
  }

  /** Deliveries of pushes made so far, at times gone by. */
  ghost predicate AreKnown(sent: seq<Delivery>, pushes: nat, now: int) {
    forall i :: 0 <= i < |sent| ==> sent[i].index < pushes && sent[i].at <= now
  }

  ghost function LastTime(sent: seq<Delivery>): Option<int> {
    if sent == [] then None else Some(sent[|sent| - 1].at)
  }

  /** Nothing was delivered in the last interval. */
  ghost predicate IsIdle(sent: seq<Delivery>, interval: int, now: int) {
    sent != [] ==> sent[|sent| - 1].at + interval <= now
  }

  lemma OneMoreSent(sent: seq<Delivery>, interval: int, pushes: nat, now: int)
    requires AreSpaced(sent, interval) && AreKnown(sent, pushes, now) && pushes > 0
    requires sent != [] ==> sent[|sent| - 1].index < pushes - 1 && sent[|sent| - 1].at + interval <= now
    ensures var more := sent + [Delivery(pushes - 1, now)];
            AreSpaced(more, interval) && AreKnown(more, pushes, now) && LastTime(more) == Some(now)
  {
  }

  class LatestThrottle<T> {
    const interval: int
    var clock: int
    /** When the armed timer is due. */
    var timer: Option<int>
    var pending: Option<T>
    var lastDeliveredAt: Option<int>
    ghost var pushed: seq<T>
    ghost var sent: seq<Delivery>
    ghost var cancelled: bool

    ghost predicate Valid()
      reads this
    {
      && History()
      && timer.Some? == pending.Some?
      && (timer.Some? ==> lastDeliveredAt.Some? && lastDeliveredAt.value + interval <= timer.value)
    }

    /** The value pushed last was also delivered last. */
    ghost predicate LatestIsDelivered()
      reads this
    {
      sent != [] && sent[|sent| - 1].index == |pushed| - 1
    }

    /** Nothing already delivered or pushed is forgotten. */
    twostate predicate Continues()
      reads this
    {
      old(pushed) <= pushed && old(sent) <= sent && old(clock) <= clock
    }

    constructor (interval: int, now: int)
      ensures Valid() && this.interval == interval && pushed == [] && sent == []
    {
      this.interval := interval;
      clock := now;
      timer, pending, lastDeliveredAt := None, None, None;
      pushed, sent, cancelled := [], [], false;
    }

    /** Deliveries so far, and the latest push: delivered last, pending or cancelled. */
    ghost predicate History()
      reads this
    {
      && AreSpaced(sent, interval)
      && AreKnown(sent, |pushed|, clock)
      && lastDeliveredAt == LastTime(sent)
      && (pending.Some? ==> pushed != [] && pending.value == pushed[|pushed| - 1] && !LatestIsDelivered())
      && (pushed != [] && !cancelled ==> LatestIsDelivered() || pending.Some?)
    }

    /** Deliver what is pending; the listener runs last, with the throttle already settled. */
    method Flush(reaction: seq<Act<T>>)
      requires History()
      requires lastDeliveredAt.Some? ==> lastDeliveredAt.value + interval <= clock
      modifies this
      ensures Valid() && Continues()
      ensures old(pending).Some? ==>
                |sent| > |old(sent)| && sent[|old(sent)|] == Delivery(|old(pushed)| - 1, old(clock))
      decreases reaction, 1
    {
      timer := None;
      if pending.None? {
        return;
      }
      Settle();
      Perform(reaction);
    }

    /** The bookkeeping of a delivery. */
    method Settle()
      requires History() && timer == None && pending.Some?
      requires lastDeliveredAt.Some? ==> lastDeliveredAt.value + interval <= clock
      modifies `pending, `lastDeliveredAt, `sent
      ensures Valid() && sent == old(sent) + [Delivery(|pushed| - 1, clock)]
    {
      OneMoreSent(sent, interval, |pushed|, clock);
      pending := None;
      lastDeliveredAt := Some(clock);
      sent := sent + [Delivery(|pushed| - 1, clock)];
    }

    method DoPush(value: T, reaction: seq<Act<T>>)
      requires Valid()
      modifies this
      ensures Valid() && Continues() && |pushed| > |old(pushed)| && pushed[|old(pushed)|] == value
      ensures old(timer).Some? ==>
                sent == old(sent) && timer == old(timer) && pending == Some(value) && pushed == old(pushed) + [value]
      ensures old(timer).None? && IsIdle(old(sent), interval, old(clock)) ==>
                |sent| > |old(sent)| && sent[|old(sent)|] == Delivery(|old(pushed)|, old(clock))
      ensures old(timer).None? && !IsIdle(old(sent), interval, old(clock)) ==>
                && sent == old(sent) && pushed == old(pushed) + [value] && pending == Some(value)
                && timer == Some(LastTime(old(sent)).value + interval)
      decreases reaction, 3
    {
      pending := Some(value);
      pushed := pushed + [value];
      cancelled := false;
      if timer.None? {
        FlushOrWait(reaction);
      }
    }

    method FlushOrWait(reaction: seq<Act<T>>)
      requires History() && timer == None && pending.Some?
      modifies this
      ensures Valid() && Continues()
      ensures IsIdle(old(sent), interval, old(clock)) ==>
                |sent| > |old(sent)| && sent[|old(sent)|] == Delivery(|old(pushed)| - 1, old(clock))
      ensures !IsIdle(old(sent), interval, old(clock)) ==>
                && sent == old(sent) && pushed == old(pushed) && pending == old(pending)
                && timer == Some(LastTime(old(sent)).value + interval)
      decreases reaction, 2
    {
      if lastDeliveredAt.None? || lastDeliveredAt.value + interval - clock <= 0 {
        Flush(reaction);
      } else {
        timer := Some(clock + (lastDeliveredAt.value + interval - clock));
      }
    }

    /** The timer fires, unless it is not set or not due yet. */
    method DoFire(reaction: seq<Act<T>>)
      requires Valid()
      modifies this
      ensures Valid() && Continues()
      ensures old(timer).Some? && old(timer).value <= old(clock) ==>
                |sent| > |old(sent)| && sent[|old(sent)|] == Delivery(|old(pushed)| - 1, old(clock))
      ensures !(old(timer).Some? && old(timer).value <= old(clock)) ==>
                sent == old(sent) && pushed == old(pushed) && pending == old(pending) && timer == old(timer)
      decreases reaction, 2
    {
      if timer.Some? && timer.value <= clock {
        Flush(reaction);
      }
    }

    method DoCancel()
      requires Valid()
      modifies this
      ensures Valid() && timer == None && pending == None && pushed == old(pushed) && sent == old(sent)
              && clock == old(clock)
    {
      timer := None;
      pending := None;
      cancelled := true;
    }

    /** The clock never goes back and the timer never fires early. A push after an idle interval is delivered at once,
        any other waits for the end of the interval; when the timer fires in time, the latest push is delivered, and
        otherwise nothing happens; what is cancelled is not delivered. */
    method PerformOne(act: Act<T>)
      requires Valid()
      modifies this
      ensures Valid() && Continues()
      ensures act.Fire? && old(timer).Some? && old(timer).value <= old(clock) + act.after ==>
                |sent| > |old(sent)| && sent[|old(sent)|] == Delivery(|old(pushed)| - 1, old(clock) + act.after)
      ensures act.Fire? && !(old(timer).Some? && old(timer).value <= old(clock) + act.after) ==>
                sent == old(sent) && pushed == old(pushed) && pending == old(pending) && timer == old(timer)
      ensures act.Push? ==> |pushed| > |old(pushed)| && pushed[|old(pushed)|] == act.value
      ensures act.Push? && old(timer).None? && IsIdle(old(sent), interval, old(clock) + act.after) ==>
                |sent| > |old(sent)| && sent[|old(sent)|] == Delivery(|old(pushed)|, old(clock) + act.after)
      ensures act.Push? && (old(timer).Some? || !IsIdle(old(sent), interval, old(clock) + act.after)) ==>
                && sent == old(sent) && pushed == old(pushed) + [act.value] && pending == Some(act.value)
                && timer == if old(timer).Some? then old(timer) else Some(LastTime(old(sent)).value + interval)
      ensures act.Cancel? ==> sent == old(sent) && pushed == old(pushed) && pending.None? && timer.None?
      decreases act, 1
    {
      clock := clock + act.after;
      if act.Push? {
        DoPush(act.value, act.reaction);
      } else if act.Fire? {
        DoFire(act.reaction);
      } else {
        DoCancel();
      }
    }

    /** Any run. */
    method Perform(acts: seq<Act<T>>)
      requires Valid()
      modifies this
      ensures Valid() && Continues()
      decreases acts, 0
    {
      for i := 0 to |acts|
        invariant Valid() && Continues()
      {
        PerformOne(acts[i]);
      }
    }
  }
}
