/** The channel a radar run moves to: when it differs from the one radar was seen on. */
module RadarChannel {
  import opened NonOccupancy
  import opened ChannelSearch
  import R = RadarSpec
  import RadarRuns
  import P = RadarPlan

  // ---------------------------------------------------------------- what the search finds

  /** An entry of the table may be used once channel `current` was marked. */
  ghost predicate SomeUsable(list: Stamps, cfps: seq<Cfp>, p: Settings, now: nat, period: nat, current: nat) {
    exists i :: 0 <= i < |cfps| && Usable(Marked(list, current, NopStart, now), cfps[i], p, now, period)
  }

  /** The condition on the settings, the tables and the stamps under which the search leaves the channel. */
  ghost predicate SearchCanLeave(list: Stamps, p: Settings, tables: Tables, now: nat, period: nat, current: nat, m: nat)
    requires m <= |tables|
  {
    if !p.is5GHz then current != DEFAULT_AD_HOC_CHANNEL
    else if !p.dot11hEnabled || m == |tables| then current != DEFAULT_AD_HOC_CHANNEL_A
    else SomeUsable(list, tables[m].cfps, p, now, period, current)
  }

  predicate NoChannelZero(tables: Tables) {
    forall i, j :: 0 <= i < |tables| && 0 <= j < |tables[i].cfps| ==> tables[i].cfps[j].channel != 0
  }

  lemma MarkKeepsOne(list: Stamps, channel: nat, now: nat)
    requires OnePerChannel(list)
    ensures OnePerChannel(Marked(list, channel, NopStart, now))
  {
    OneStays(list, Mark(channel, NopStart, now), 0);
  }

  /** The search gives a channel other than the current one exactly under that condition. */
  lemma SearchLeavesIff(
    list: Stamps, p: Settings, tables: Tables, rand: nat -> nat, now: nat, period: nat, current: nat, m: nat)
    requires OnePerChannel(list) && OnlyMatch(tables, p, m) && NoChannelZero(tables)
    ensures var chan := StartChannel(Marked(list, current, NopStart, now), p, tables, rand, now, period).chan;
            chan != 0 && chan != current <==> SearchCanLeave(list, p, tables, now, period, current, m)
  {
    hide StartChannel, Marked, FirstUsable, Usable, OnePerChannel;
    var marked := Marked(list, current, NopStart, now);
    MarkKeepsOne(list, current, now);
    StartChannelFinds(marked, p, tables, rand, now, period, m);
    if p.is5GHz && p.dot11hEnabled && m < |tables| {
      var cfps, chan := tables[m].cfps, StartChannel(marked, p, tables, rand, now, period).chan;
      SearchSoundAndComplete(marked, cfps, rand(m) % |cfps|, p, now, period, chan);
      if chan != 0 {
        SearchLeavesChannel(list, cfps, rand(m) % |cfps|, p, now, period, chan, current);
      }
    }
  }

  // ---------------------------------------------------------------- completed runs

  /** A command of the run moves interface `id` to a channel other than `current`. */
  ghost predicate MovesAway(cmds: seq<R.Cmd>, id: nat, current: nat) {
    exists chan: nat :: chan != 0 && chan != current && P.Occurs(cmds, R.SetChannel(id, chan)) > 0
  }

  /** The condition on the settings at the start of a run under which it leaves the current channel. */
  ghost predicate RunCanLeave(stamps: Stamps, cfg: R.Config, o: P.Origin, m: nat)
    requires m <= |o.env.tables|
  {
    var p, period := R.SearchSettings(cfg, o.env), Period(cfg.userNopPeriodSec);
    && !cfg.noChannelChange
    && (if cfg.fixedChannel != 0 then cfg.fixedChannel != o.curr
        else o.owner.role.Uap? && SearchCanLeave(stamps, p, o.env.tables, o.env.now, period, o.curr, m))
  }

  /** The condition under which a run moves to channel 0: nothing fixes or keeps the channel, and either a
      station settles it, or the table that matches has no usable entry. */
  ghost predicate RunMovesToZero(stamps: Stamps, cfg: R.Config, o: P.Origin, m: nat)
    requires m <= |o.env.tables|
  {
    var p, period := R.SearchSettings(cfg, o.env), Period(cfg.userNopPeriodSec);
    && !cfg.noChannelChange && cfg.fixedChannel == 0
    && (|| o.owner.role.Sta?
        || (&& p.is5GHz && p.dot11hEnabled && m < |o.env.tables|
            && !SomeUsable(stamps, o.env.tables[m].cfps, p, o.env.now, period, o.curr)))
  }

  /** A completed run moves an access point to its new channel and nowhere else, or not at all. */
  lemma RunMoves(s: R.Rdh, cfg: R.Config, calls: seq<R.Call>, k: nat)
    requires P.Starts(s, cfg, calls) && RadarRuns.Run(s, cfg, calls).stage.Off?
    requires P.DistinctIds(cfg.active) && k < |cfg.active| && cfg.active[k].role.Uap?
    ensures var chan := P.Target(s.stamps, cfg, P.OriginOf(cfg, calls));
            forall c: nat :: P.Occurs(RadarRuns.Run(s, cfg, calls).cmds, R.SetChannel(cfg.active[k].id, c))
                          == if c == chan && !cfg.noChannelChange then 1 else 0
  {
    hide RadarRuns.Run, P.Plan, P.Occurs, P.Target, P.Head, P.StampsAfter;
    var o := P.OriginOf(cfg, calls);
    var chan := P.Target(s.stamps, cfg, o);
    P.CompletedRunIsPlan(s, cfg, calls);
    HeadSingle(s.stamps, cfg, calls);
    forall c: nat
      ensures P.Occurs(P.RunPlan(s.stamps, cfg, o), R.SetChannel(cfg.active[k].id, c))
           == if c == chan && !cfg.noChannelChange then 1 else 0
    {
      P.EachIntfOnce(cfg, P.Head(s.stamps, cfg, o), chan, k, c);
    }
  }

  lemma HeadSingle(stamps: Stamps, cfg: R.Config, calls: seq<R.Call>)
    requires cfg.active != [] && calls != [] && |calls| >= P.AskingCalls(calls)
    ensures P.AllSingle(P.Head(stamps, cfg, P.OriginOf(cfg, calls)))
  {
  }

  lemma AwayIff(cmds: seq<R.Cmd>, id: nat, current: nat, chan: nat, moved: bool)
    requires forall c: nat :: P.Occurs(cmds, R.SetChannel(id, c)) == if c == chan && moved then 1 else 0
    ensures MovesAway(cmds, id, current) <==> moved && chan != 0 && chan != current
  {
    hide P.Occurs;
    if moved {
      assert P.Occurs(cmds, R.SetChannel(id, chan)) == 1;
    }
  }

  /** Exactly when a completed run, for an access point or a station, leaves the channel radar was seen on:
      every access point is moved to a non-zero channel other than that one if and only if the channel may
      change and the fixed channel differs; or there is none, an access point settles the channel, and,
      off 5 GHz, the current one is not 6; on 5 GHz without 11h or a matching table, it is not 36; with
      one, some entry of the table is usable once the channel was marked. */
  lemma RunLeavesChannelIff(s: R.Rdh, cfg: R.Config, calls: seq<R.Call>, m: nat, k: nat)
    requires P.Starts(s, cfg, calls) && RadarRuns.Run(s, cfg, calls).stage.Off?
    requires var o := P.OriginOf(cfg, calls);
             OnePerChannel(s.stamps) && NoChannelZero(o.env.tables)
             && OnlyMatch(o.env.tables, R.SearchSettings(cfg, o.env), m)
    requires P.DistinctIds(cfg.active) && k < |cfg.active| && cfg.active[k].role.Uap?
    ensures var o := P.OriginOf(cfg, calls);
            MovesAway(RadarRuns.Run(s, cfg, calls).cmds, cfg.active[k].id, o.curr) <==> RunCanLeave(s.stamps, cfg, o, m)
  {
    hide RadarRuns.Run, P.Occurs, StartChannel, Marked, SearchCanLeave, OnlyMatch, P.OriginOf;
    var o := P.OriginOf(cfg, calls);
    RunMoves(s, cfg, calls, k);
    SearchLeavesIff(s.stamps, R.SearchSettings(cfg, o.env), o.env.tables, o.env.rand, o.env.now,
                    Period(cfg.userNopPeriodSec), o.curr, m);
    AwayIff(RadarRuns.Run(s, cfg, calls).cmds, cfg.active[k].id, o.curr, P.Target(s.stamps, cfg, o),
        !cfg.noChannelChange);
  }

  /** The condition for a run started for a station while one is active: it leaves the station's channel only
      for a fixed one. */
  lemma StationRunLeavesChannelIff(s: R.Rdh, cfg: R.Config, calls: seq<R.Call>, k: nat)
    requires P.Starts(s, cfg, calls) && RadarRuns.Run(s, cfg, calls).stage.Off?
    requires calls[0].priv.role.Sta? && R.FirstSta(cfg.active, 0).role.Sta?
    requires P.DistinctIds(cfg.active) && k < |cfg.active| && cfg.active[k].role.Uap?
    ensures var current := R.FirstSta(cfg.active, 0).bssChannel;
            var away := MovesAway(RadarRuns.Run(s, cfg, calls).cmds, cfg.active[k].id, current);
            away <==> !cfg.noChannelChange && cfg.fixedChannel != 0 && cfg.fixedChannel != current
  {
    hide RadarRuns.Run, P.Occurs, Marked, StartChannel;
    var o := P.OriginOf(cfg, calls);
    RunMoves(s, cfg, calls, k);
    AwayIff(RadarRuns.Run(s, cfg, calls).cmds, cfg.active[k].id, o.curr, P.Target(s.stamps, cfg, o),
        !cfg.noChannelChange);
  }

  /** Exactly when a completed run moves every access point to channel 0: the test for "no channel" is
      skipped for an access point and only reports an error for a station. */
  lemma MovesToZeroIff(s: R.Rdh, cfg: R.Config, calls: seq<R.Call>, m: nat, k: nat)
    requires P.Starts(s, cfg, calls) && RadarRuns.Run(s, cfg, calls).stage.Off?
    requires var o := P.OriginOf(cfg, calls);
             OnePerChannel(s.stamps) && NoChannelZero(o.env.tables)
             && OnlyMatch(o.env.tables, R.SearchSettings(cfg, o.env), m)
    requires P.DistinctIds(cfg.active) && k < |cfg.active| && cfg.active[k].role.Uap?
    ensures var zero := P.Occurs(RadarRuns.Run(s, cfg, calls).cmds, R.SetChannel(cfg.active[k].id, 0)) > 0;
            zero <==> RunMovesToZero(s.stamps, cfg, P.OriginOf(cfg, calls), m)
  {
    hide RadarRuns.Run, P.Occurs, StartChannel, Marked, P.OriginOf, FirstUsable, Usable, OnePerChannel;
    var o := P.OriginOf(cfg, calls);
    var p, marked, period := R.SearchSettings(cfg, o.env), Marked(s.stamps, o.curr, NopStart, o.env.now),
        Period(cfg.userNopPeriodSec);
    RunMoves(s, cfg, calls, k);
    MarkKeepsOne(s.stamps, o.curr, o.env.now);
    StartChannelFinds(marked, p, o.env.tables, o.env.rand, o.env.now, period, m);
    if p.is5GHz && p.dot11hEnabled && m < |o.env.tables| {
      var cfps, chan := o.env.tables[m].cfps, StartChannel(marked, p, o.env.tables, o.env.rand, o.env.now, period).chan;
      SearchSoundAndComplete(marked, cfps, o.env.rand(m) % |cfps|, p, o.env.now, period, chan);
    }
  }

  /** A channel that an access point picks from the table of its region, neither fixed nor kept, may be used: a
      completed run moves no access point to one that needs radar detection, is under non-occupancy once the
      current one was marked, is disabled in that table, or is 165 outside the US on more than 20 MHz. */
  lemma PickedMayBeUsed(s: R.Rdh, cfg: R.Config, calls: seq<R.Call>, m: nat, k: nat, c: nat)
    requires P.Starts(s, cfg, calls) && RadarRuns.Run(s, cfg, calls).stage.Off? && OnePerChannel(s.stamps)
    requires !cfg.noChannelChange && cfg.fixedChannel == 0
    requires var o := P.OriginOf(cfg, calls);
             && o.owner.role.Uap? && o.env.settings.is5GHz && o.env.settings.dot11hEnabled
             && OnlyTable(o.env.tables, o.env.settings, m) && NoChannelZero(o.env.tables)
    requires P.DistinctIds(cfg.active) && k < |cfg.active| && cfg.active[k].role.Uap?
    requires c != 0 && P.Occurs(RadarRuns.Run(s, cfg, calls).cmds, R.SetChannel(cfg.active[k].id, c)) > 0
    ensures var o, period := P.OriginOf(cfg, calls), Period(cfg.userNopPeriodSec);
            && c !in cfg.radarChannels && c != o.curr && !Under(s.stamps, c, o.env.now, period)
            && (c == 165 ==> o.env.settings.countryUS || o.env.settings.width20)
            && exists e :: e in o.env.tables[m].cfps && e.channel == c && !e.disabled
  {
    hide RadarRuns.Run, P.Occurs, StartChannel, Marked, P.OriginOf, OnePerChannel, Under;
    var o, period := P.OriginOf(cfg, calls), Period(cfg.userNopPeriodSec);
    var p, marked := R.SearchSettings(cfg, o.env), Marked(s.stamps, o.curr, NopStart, o.env.now);
    RunMoves(s, cfg, calls, k);
    MarkKeepsOne(s.stamps, o.curr, o.env.now);
    StartChannelMayBeUsed(marked, p, o.env.tables, o.env.rand, o.env.now, period, m);
    UnderMarked(s.stamps, o.curr, o.env.now, period, c);
  }

  /** Marking a channel brings it under non-occupancy and changes no other answer. */
  lemma UnderMarked(list: Stamps, current: nat, now: nat, period: nat, c: nat)
    ensures Under(Marked(list, current, NopStart, now), c, now, period) <==> c == current || Under(list, c, now, period)
  {
    LookupMarked(list, current, NopStart, now, c);
  }

  /** After a completed run the channel it left is under non-occupancy, and the answer for every other
      channel is the one it was at the start. */
  lemma RunMarksChannel(s: R.Rdh, cfg: R.Config, calls: seq<R.Call>, m: nat, c: nat)
    requires P.Starts(s, cfg, calls) && RadarRuns.Run(s, cfg, calls).stage.Off? && OnePerChannel(s.stamps)
    requires var o := P.OriginOf(cfg, calls); OnlyMatch(o.env.tables, R.SearchSettings(cfg, o.env), m)
    ensures var o, period := P.OriginOf(cfg, calls), Period(cfg.userNopPeriodSec);
            var under := Under(RadarRuns.Run(s, cfg, calls).stamps, c, o.env.now, period);
            under <==> c == o.curr || Under(s.stamps, c, o.env.now, period)
  {
    hide RadarRuns.Run, P.Plan, StartChannel, Marked, OnlyMatch, P.OriginOf, P.RunPlan;
    var o, period := P.OriginOf(cfg, calls), Period(cfg.userNopPeriodSec);
    var marked := Marked(s.stamps, o.curr, NopStart, o.env.now);
    P.CompletedRunIsPlan(s, cfg, calls);
    MarkKeepsOne(s.stamps, o.curr, o.env.now);
    StartChannelFinds(marked, R.SearchSettings(cfg, o.env), o.env.tables, o.env.rand, o.env.now, period, m);
    LookupMarked(s.stamps, o.curr, NopStart, o.env.now, c);
    var before := c == o.curr || Under(s.stamps, c, o.env.now, period);
    assert Under(marked, c, o.env.now, period) <==> before;
  }

  // ---------------------------------------------------------------- runs that stay

  function ExampleAp(channel: nat): R.Intf {
    R.Intf(1, R.Uap, true, false, channel, 0, 100, 1)
  }

  const EXAMPLE_STA := R.Intf(2, R.Sta, false, true, 0, 52, 100, 1)

  const EXAMPLE_START := R.Rdh(R.ChkIntfs, [], R.FIRST_ENTRY, 0, 0, 0, [], [])

  /** Fifty calls for an interface, on 5 GHz, with one table that has channel 40. */
  function ExampleCalls(priv: R.Intf, dot11h: bool): seq<R.Call> {
    var p := Settings(true, dot11h, 0x10, false, {}, true, true);
    var table := RegionTable(true, 0x10, true, true, [Cfp(40, false, false)]);
    seq(50, i requires 0 <= i < 50 => R.Call(priv, R.Surroundings(p, [table], n => 0, 0), {}))
  }

  lemma ExampleEnds(cfg: R.Config, priv: R.Intf, dot11h: bool)
    requires 1 <= |cfg.active| <= 2
    ensures P.Starts(EXAMPLE_START, cfg, ExampleCalls(priv, dot11h))
    ensures RadarRuns.Run(EXAMPLE_START, cfg, ExampleCalls(priv, dot11h)).stage.Off?
  {
    hide RadarRuns.Run;
    RadarRuns.HandlerEnds(EXAMPLE_START, cfg, ExampleCalls(priv, dot11h));
  }

  /** Radar on channel 36, 5 GHz, 11h off, no fixed channel: the search does not look at the stamps, and
      the access point is moved back to the channel just marked. */
  lemma DefaultChannelExample()
    ensures var cfg := R.Config([ExampleAp(36)], false, 0, {}, 0);
            var cmds := RadarRuns.Run(EXAMPLE_START, cfg, ExampleCalls(ExampleAp(36), false)).cmds;
            P.Occurs(cmds, R.SetChannel(1, 36)) == 1
  {
    hide RadarRuns.Run, P.Occurs, Marked;
    var cfg := R.Config([ExampleAp(36)], false, 0, {}, 0);
    ExampleEnds(cfg, ExampleAp(36), false);
    RunMoves(EXAMPLE_START, cfg, ExampleCalls(ExampleAp(36), false), 0);
  }

  /** A fixed channel set for testing that is the current one. */
  lemma FixedChannelExample()
    ensures var cfg := R.Config([ExampleAp(52)], false, 52, {}, 0);
            var cmds := RadarRuns.Run(EXAMPLE_START, cfg, ExampleCalls(ExampleAp(52), true)).cmds;
            P.Occurs(cmds, R.SetChannel(1, 52)) == 1
  {
    hide RadarRuns.Run, P.Occurs, Marked, StartChannel;
    var cfg := R.Config([ExampleAp(52)], false, 52, {}, 0);
    ExampleEnds(cfg, ExampleAp(52), true);
    RunMoves(EXAMPLE_START, cfg, ExampleCalls(ExampleAp(52), true), 0);
  }

  /** Radar on the channel of a station, with an access point active too, 11h on and channel 40 usable: the
      access point is moved to channel 0. */
  lemma StationExample()
    ensures var cfg := R.Config([ExampleAp(52), EXAMPLE_STA], false, 0, {}, 0);
            var cmds := RadarRuns.Run(EXAMPLE_START, cfg, ExampleCalls(EXAMPLE_STA, true)).cmds;
            P.Occurs(cmds, R.SetChannel(1, 0)) == 1
  {
    hide RadarRuns.Run, P.Occurs, Marked, StartChannel;
    var cfg := R.Config([ExampleAp(52), EXAMPLE_STA], false, 0, {}, 0);
    assert R.FirstSta(cfg.active, 1) == EXAMPLE_STA;
    ExampleEnds(cfg, EXAMPLE_STA, true);
    RunMoves(EXAMPLE_START, cfg, ExampleCalls(EXAMPLE_STA, true), 0);
  }
}
