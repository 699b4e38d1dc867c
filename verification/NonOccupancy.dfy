/** The list of radar and channel-check timestamps, with its lazy expiry, against the plain clock rule
    it stands for. */
module NonOccupancy {
  import opened Basics

  datatype Repr = NopStart | CacCompletion

  datatype Stamp = Stamp(channel: nat, represents: Repr, sec: nat)

  type Stamps = seq<Stamp>

  /** `WLAN_11H_NON_OCCUPANCY_PERIOD`, in seconds. */
  const NON_OCCUPANCY_PERIOD := 1800

  /** The period in force; a test setting other than 0 replaces the standard one. */
  function Period(userNopPeriodSec: nat): nat {
    if userNopPeriodSec != 0 then userNopPeriodSec else NON_OCCUPANCY_PERIOD
  }

  /** The clock is 32 bits wide and differences wrap. */
  function Elapsed(now: nat, since: nat): nat {
    (now - since) % 0x1_0000_0000
  }

  /** First stamp of a channel; |list| when there is none. */
  function Find(list: Stamps, channel: nat): (i: nat)
    ensures i <= |list|
    ensures i < |list| ==> list[i].channel == channel
    ensures forall j :: 0 <= j < i ==> list[j].channel != channel
  {
    if list == [] || list[0].channel == channel then 0 else 1 + Find(list[1..], channel)
  }

  function Remove(list: Stamps, i: nat): Stamps
    requires i < |list|
  {
    list[..i] + list[i + 1..]
  }

  function Marked(list: Stamps, channel: nat, repr: Repr, now: nat): Stamps {
    var i := Find(list, channel);
    if i < |list| then list[i := Stamp(channel, repr, now)] else list + [Stamp(channel, repr, now)]
  }

  /** What the list says of a channel. */
  predicate Under(list: Stamps, channel: nat, now: nat, period: nat) {
    var i := Find(list, channel);
    i < |list| && list[i].represents.NopStart? && Elapsed(now, list[i].sec) <= period
  }

  /** The list after a query: a radar stamp found expired is gone. */
  function Queried(list: Stamps, channel: nat, now: nat, period: nat): Stamps {
    var i := Find(list, channel);
    if i < |list| && list[i].represents.NopStart? && Elapsed(now, list[i].sec) > period then Remove(list, i) else list
  }

  predicate OnePerChannel(list: Stamps) {
    forall i, j :: 0 <= i < j < |list| ==> list[i].channel != list[j].channel
  }

  class DfsState {
    var list: Stamps
    const userNopPeriodSec: nat
    /** Channels whose DFS state was set back to usable, in order. */
    var usable: seq<nat>

    constructor (userNopPeriodSec: nat)
      ensures list == [] && usable == [] && this.userNopPeriodSec == userNopPeriodSec
    {
      list, usable, this.userNopPeriodSec := [], [], userNopPeriodSec;
    }

    /** Records a radar event or a completed channel check at time `now`. */
    method AddDfsTimestamp(repr: Repr, channel: nat, now: nat)
      modifies this
      ensures list == Marked(old(list), channel, repr, now)
    {
      var i := FindDfsTimestamp(channel);
      if i == |list| {
        list := list + [Stamp(channel, repr, 0)];
      }
      list := list[i := list[i].(sec := now, represents := repr)];
    }

    method FindDfsTimestamp(channel: nat) returns (i: nat)
      ensures i == Find(list, channel)
    {
      i := 0;
      while i < |list| && list[i].channel != channel
        invariant i <= |list|
        invariant forall j :: 0 <= j < i ==> list[j].channel != channel
      {
        i := i + 1;
      }
    }

    /** Answers whether a channel may not be used yet; forgets its stamp once it expired. */
    method IsChannelUnderNop(channel: nat, now: nat) returns (r: bool)
      modifies this
      ensures r <==> Under(old(list), channel, now, Period(userNopPeriodSec))
      ensures list == Queried(old(list), channel, now, Period(userNopPeriodSec))
      ensures usable == old(usable) + if list != old(list) then [channel] else []
    {
      r := false;
      var i := FindDfsTimestamp(channel);
      if i < |list| && list[i].represents == NopStart {
        if userNopPeriodSec != 0 {
          if Elapsed(now, list[i].sec) <= userNopPeriodSec {
            r := true;
          }
        } else if Elapsed(now, list[i].sec) <= NON_OCCUPANCY_PERIOD {
          r := true;
        }
        if !r {
          list := Remove(list, i);
          usable := usable + [channel];
        }
      }
    }
  }

  // ---------------------------------------------------------------- the clock rule

  datatype Event = Mark(channel: nat, repr: Repr, sec: nat) | Query(channel: nat, sec: nat)

  function Step(list: Stamps, e: Event, period: nat): Stamps {
    match e
    case Mark(c, repr, sec) => Marked(list, c, repr, sec)
    case Query(c, sec) => Queried(list, c, sec, period)
  }

  function Run(events: seq<Event>, period: nat): Stamps {
    if events == [] then [] else
      Step(Run(events[..|events| - 1], period), events[|events| - 1], period)
  }

  /** The latest mark of a channel, as an index; -1 when there is none. */
  function LastMark(events: seq<Event>, channel: nat): (i: int)
    ensures -1 <= i < |events|
    ensures i >= 0 ==> events[i].Mark? && events[i].channel == channel
    ensures forall j :: i < j < |events| && events[j].Mark? ==> events[j].channel != channel
  {
    if events == [] then -1 else
      var n := |events| - 1;
      if events[n].Mark? && events[n].channel == channel then n else LastMark(events[..n], channel)
  }

  /** The rule: the latest mark of the channel is a radar event no older than the period. */
  predicate NotYetFree(events: seq<Event>, channel: nat, now: nat, period: nat) {
    var i := LastMark(events, channel);
    i >= 0 && events[i].repr.NopStart? && now - events[i].sec <= period
  }

  /** A 32-bit clock that does not go back. */
  predicate ClockRuns(events: seq<Event>) {
    && (forall i :: 0 <= i < |events| ==> events[i].sec < 0x1_0000_0000)
    && forall i, j :: 0 <= i < j < |events| ==> events[i].sec <= events[j].sec
  }

  function Lookup(list: Stamps, channel: nat): Option<Stamp> {
    var i := Find(list, channel);
    if i < |list| then Some(list[i]) else None
  }

  /** What a channel's stamp still knows: it is the latest mark of its channel; a channel without one was
      never marked, or its radar event had expired by the time of the last event. */
  predicate Knows(stamp: Option<Stamp>, events: seq<Event>, channel: nat, now: nat, period: nat) {
    var k := LastMark(events, channel);
    match stamp
    case Some(st) => k >= 0 && st == Stamp(channel, events[k].repr, events[k].sec)
    case None => k >= 0 ==> events[k].repr.NopStart? && now - events[k].sec > period
  }

  ghost predicate Tracks(list: Stamps, events: seq<Event>, now: nat, period: nat) {
    OnePerChannel(list) && forall c :: Knows(Lookup(list, c), events, c, now, period)
  }

  lemma LookupMarked(list: Stamps, channel: nat, repr: Repr, now: nat, c: nat)
    ensures Lookup(Marked(list, channel, repr, now), c)
         == if c == channel then Some(Stamp(channel, repr, now)) else Lookup(list, c)
  {
    var l := Marked(list, channel, repr, now);
    var i, j, k := Find(list, channel), Find(list, c), Find(l, c);
    assert forall n :: 0 <= n < |list| && n != i ==> l[n] == list[n];
    assert l[i] == Stamp(channel, repr, now);
    if c == channel {
      assert k <= i;
    } else if j < |list| {
      assert l[j] == list[j];
      assert k <= j;
    }
  }

  lemma LookupRemoved(list: Stamps, i: nat, c: nat)
    requires i < |list| && OnePerChannel(list)
    ensures Lookup(Remove(list, i), c) == if c == list[i].channel then None else Lookup(list, c)
  {
    var l := Remove(list, i);
    assert forall n :: 0 <= n < |l| ==> l[n] == list[if n < i then n else n + 1];
    var j, k := Find(list, c), Find(l, c);
    if c != list[i].channel && j < |list| {
      var n := if j < i then j else j - 1;
      assert l[n] == list[j];
      assert k <= n;
    }
  }

  lemma OneStays(list: Stamps, e: Event, period: nat)
    requires OnePerChannel(list)
    ensures OnePerChannel(Step(list, e, period))
  {
    var l := Step(list, e, period);
    if e.Query? && l != list {
      var i := Find(list, e.channel);
      assert forall n :: 0 <= n < |l| ==> l[n] == list[if n < i then n else n + 1];
    }
  }

  lemma LastMarkStep(events: seq<Event>, e: Event, c: nat)
    ensures LastMark(events + [e], c) == if e.Mark? && e.channel == c then |events| else LastMark(events, c)
  {
    assert (events + [e])[..|events|] == events;
  }

  lemma TracksStep(list: Stamps, events: seq<Event>, now: nat, e: Event, period: nat)
    requires Tracks(list, events, now, period) && ClockRuns(events + [e])
    requires now <= e.sec && forall i :: 0 <= i < |events| ==> events[i].sec <= now
    ensures Tracks(Step(list, e, period), events + [e], e.sec, period)
    ensures forall c :: Under(list, c, e.sec, period) <==> NotYetFree(events, c, e.sec, period)
  {
    OneStays(list, e, period);
    assert (events + [e])[|events|] == e;
    forall c
      ensures Knows(Lookup(Step(list, e, period), c), events + [e], c, e.sec, period)
      ensures Under(list, c, e.sec, period) <==> NotYetFree(events, c, e.sec, period)
    {
      assert Knows(Lookup(list, c), events, c, now, period);
      StampTells(list, events, c, now, e.sec, period);
      LastMarkStep(events, e, c);
      if e.Mark? {
        LookupMarked(list, e.channel, e.repr, e.sec, c);
      } else if Step(list, e, period) != list {
        LookupRemoved(list, Find(list, e.channel), c);
      }
    }
  }

  /** As long as the clock runs, a stamp that is what it should be answers by the rule. */
  lemma StampTells(list: Stamps, events: seq<Event>, c: nat, now: nat, later: nat, period: nat)
    requires Knows(Lookup(list, c), events, c, now, period) && now <= later < 0x1_0000_0000
    requires forall i :: 0 <= i < |events| ==> events[i].sec <= now
    ensures Under(list, c, later, period) <==> NotYetFree(events, c, later, period)
    ensures Find(list, c) < |list| ==> Elapsed(later, list[Find(list, c)].sec) == later - list[Find(list, c)].sec
  {
  }

  /** At every point of a run the list has at most one stamp per channel and knows what it should. */
  lemma {:induction false} RunTracks(events: seq<Event>, period: nat)
    requires ClockRuns(events)
    ensures Tracks(Run(events, period), events, if events == [] then 0 else events[|events| - 1].sec, period)
  {
    if events == [] {
      assert forall c :: LastMark(events, c) == -1;
    } else {
      var n := |events| - 1;
      var before, e := events[..n], events[n];
      RunTracks(before, period);
      assert before + [e] == events;
      TracksStep(Run(before, period), before, if before == [] then 0 else before[n - 1].sec, e, period);
    }
  }

  /** The lazily expired list refines the clock rule: after any run of marks and queries over a clock that
      does not go back, a query answers that the channel is under non-occupancy exactly when its
      latest mark is a radar event no older than the period. */
  lemma NopListIsClockRule(events: seq<Event>, channel: nat, now: nat, period: nat)
    requires ClockRuns(events + [Query(channel, now)])
    ensures OnePerChannel(Run(events, period))
    ensures Under(Run(events, period), channel, now, period) <==> NotYetFree(events, channel, now, period)
  {
    var e := Query(channel, now);
    var all := events + [e];
    assert forall i :: 0 <= i < |events| ==> events[i] == all[i] && events[i].sec <= all[|events|].sec;
    RunTracks(events, period);
    TracksStep(Run(events, period), events, if events == [] then 0 else events[|events| - 1].sec, e, period);
  }
}
