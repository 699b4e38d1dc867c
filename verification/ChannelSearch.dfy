/** The two searches for a channel to move to after radar: a circular probe from a random entry for an
    access point, and a random probe with a linear fallback for a non-DFS channel. */
module ChannelSearch {
  import opened NonOccupancy

  datatype Cfp = Cfp(channel: nat, disabled: bool, radarDetect: bool)

  /** A region table; `bandA` says its band mask has the A bit, `onlyA` that it is exactly that bit. */
  datatype RegionTable = RegionTable(valid: bool, region: nat, bandA: bool, onlyA: bool, cfps: seq<Cfp>)

  datatype Settings = Settings(
    is5GHz: bool,
    dot11hEnabled: bool,
    regionCode: nat,
    inGetInfoStage: bool,          // the radar handler is choosing a channel
    radarChannels: set<nat>,       // channels that need radar detection
    countryUS: bool,
    width20: bool)

  /** Valid tables have entries, as many as a byte counts. */
  type Tables = ts: seq<RegionTable> | forall i :: 0 <= i < |ts| && ts[i].valid ==> 1 <= |ts[i].cfps| <= 255 witness []

  const DEFAULT_AD_HOC_CHANNEL := 6
  const DEFAULT_AD_HOC_CHANNEL_A := 36
  const MAX_SWITCH_CHANNEL_RETRIES := 30

  // ---------------------------------------------------------------- queries at one time

  /** Two lists that answer every query at time `now` alike. */
  ghost predicate SameAnswers(a: Stamps, b: Stamps, now: nat, period: nat) {
    forall c :: Under(a, c, now, period) <==> Under(b, c, now, period)
  }

  /** Forgetting an expired stamp changes no answer at the time it is forgotten. */
  lemma QueryChangesNoAnswer(list: Stamps, channel: nat, now: nat, period: nat)
    requires OnePerChannel(list)
    ensures OnePerChannel(Queried(list, channel, now, period))
    ensures SameAnswers(Queried(list, channel, now, period), list, now, period)
  {
    var l := Queried(list, channel, now, period);
    OneStays(list, Query(channel, now), period);
    forall c
      ensures Under(l, c, now, period) <==> Under(list, c, now, period)
    {
      if l != list {
        LookupRemoved(list, Find(list, channel), c);
      }
    }
  }

  method Ask(dfs: DfsState, channel: nat, now: nat) returns (r: bool)
    requires OnePerChannel(dfs.list)
    modifies dfs
    ensures r <==> Under(old(dfs.list), channel, now, Period(dfs.userNopPeriodSec))
    ensures OnePerChannel(dfs.list)
    ensures SameAnswers(dfs.list, old(dfs.list), now, Period(dfs.userNopPeriodSec))
  {
    QueryChangesNoAnswer(dfs.list, channel, now, Period(dfs.userNopPeriodSec));
    r := dfs.IsChannelUnderNop(channel, now);
  }

  // ---------------------------------------------------------------- start channel of an access point

  /** Channel 165 is 20 MHz only, except in the US. */
  predicate BandValid(p: Settings, channel: nat) {
    channel != 165 || p.countryUS || p.width20
  }

  predicate Matches(t: RegionTable, p: Settings) {
    t.valid && t.region == p.regionCode && t.bandA
  }

  /** An entry that may be used now. */
  predicate Usable(list: Stamps, e: Cfp, p: Settings, now: nat, period: nat) {
    && !e.disabled && !Under(list, e.channel, now, period)
    && !(p.inGetInfoStage && e.channel in p.radarChannels)
    && BandValid(p, e.channel)
  }

  /** `chan` is the channel of the first usable entry at or after `start`, round the table; 0 when no
      entry is usable. */
  ghost predicate FirstUsable(list: Stamps, cfps: seq<Cfp>, start: nat, p: Settings, now: nat, period: nat, chan: nat)
    requires start < |cfps|
  {
    if exists i :: 0 <= i < |cfps| && Usable(list, cfps[i], p, now, period) then
      exists k: nat {:trigger Entry(cfps, start, k)} :: k < |cfps| && chan == Entry(cfps, start, k).channel
        && Usable(list, Entry(cfps, start, k), p, now, period)
        && forall j: nat {:trigger Entry(cfps, start, j)} :: j < k ==>
            !Usable(list, Entry(cfps, start, j), p, now, period)
    else
      chan == 0
  }

  /** Index k places after `start`, round a table of n entries. */
  function Round(n: nat, start: nat, k: nat): nat {
    if start + k < n then start + k else start + k - n
  }

  function Entry(cfps: seq<Cfp>, start: nat, k: nat): Cfp
    requires start < |cfps| && k < |cfps|
  {
    cfps[Round(|cfps|, start, k)]
  }

  /** Every entry comes up within one round. */
  lemma RoundCovers(n: nat, start: nat, i: nat) returns (k: nat)
    requires start < n && i < n
    ensures k < n && Round(n, start, k) == i
  {
    k := if i >= start then i - start else i + n - start;
  }

  /** The list after an entry was tested; a disabled one is not looked up. */
  function AfterTest(list: Stamps, e: Cfp, now: nat, period: nat): Stamps {
    if e.disabled then list else Queried(list, e.channel, now, period)
  }

  /** A channel, the number of entries rejected so far (a byte), and the list of stamps left. */
  datatype Found = Found(chan: nat, tries: nat, list: Stamps)

  /** The entry after `entry`, round a table of n entries. */
  function NextIndex(n: nat, entry: nat): (i: nat)
    requires entry < n
    ensures i < n
  {
    (entry + 1) % n
  }

  function NextTry(tries: nat): (t: nat)
    requires tries < 256
    ensures t < 256
    ensures t == if tries == 255 then 0 else tries + 1
  {
    (tries + 1) % 256
  }

  /** Entries from `entry` on, round the table, until one is usable or the tries reach the table's length. */
  function ProbeFrom(list: Stamps, cfps: seq<Cfp>, entry: nat, tries: nat, p: Settings, now: nat, period: nat): Found
    requires entry < |cfps| <= 255 && tries < 256
    decreases if tries < |cfps| then |cfps| - tries else |cfps| + 256 - tries
  {
    var e, left, more := cfps[entry], AfterTest(list, cfps[entry], now, period), NextTry(tries);
    if Usable(list, e, p, now, period) then Found(e.channel, tries, left)
    else if more < |cfps| then ProbeFrom(left, cfps, NextIndex(|cfps|, entry), more, p, now, period)
    else Found(e.channel, more, left)
  }

  function ProbeTable(list: Stamps, cfps: seq<Cfp>, draw: nat, tries: nat, p: Settings, now: nat, period: nat): Found
    requires 1 <= |cfps| <= 255 && tries < 256
  {
    var f := ProbeFrom(list, cfps, draw % |cfps|, tries, p, now, period);
    if f.tries == |cfps| then f.(chan := 0) else f
  }

  lemma {:induction false} ProbeTries(list: Stamps, cfps: seq<Cfp>, entry: nat, tries: nat, p: Settings, now: nat,
      period: nat)
    requires entry < |cfps| <= 255 && tries < 256
    ensures ProbeFrom(list, cfps, entry, tries, p, now, period).tries < 256
    decreases if tries < |cfps| then |cfps| - tries else |cfps| + 256 - tries
  {
    hide Usable, NextIndex;
    var more := NextTry(tries);
    if !Usable(list, cfps[entry], p, now, period) && more < |cfps| {
      ProbeTries(AfterTest(list, cfps[entry], now, period), cfps, NextIndex(|cfps|, entry), more, p, now, period);
    }
  }

  /** All matching tables from number i on; the tries are not reset between them. `rand` gives the number
      drawn for each table. */
  function SearchFrom(f: Found, tables: Tables, i: nat, rand: nat -> nat, p: Settings, now: nat, period: nat): Found
    requires i <= |tables| && f.tries < 256
    decreases |tables| - i
  {
    if i == |tables| then f
    else if !Matches(tables[i], p) then SearchFrom(f, tables, i + 1, rand, p, now, period)
    else
      ProbeTries(f.list, tables[i].cfps, rand(i) % |tables[i].cfps|, f.tries, p, now, period);
      SearchFrom(ProbeTable(f.list, tables[i].cfps, rand(i), f.tries, p, now, period), tables, i + 1, rand, p, now,
          period)
  }

  /** The start channel of an access point. */
  function StartChannel(list: Stamps, p: Settings, tables: Tables, rand: nat -> nat, now: nat, period: nat): Found {
    if !p.is5GHz then Found(DEFAULT_AD_HOC_CHANNEL, 0, list)
    else if !p.dot11hEnabled then Found(DEFAULT_AD_HOC_CHANNEL_A, 0, list)
    else SearchFrom(Found(DEFAULT_AD_HOC_CHANNEL_A, 0, list), tables, 0, rand, p, now, period)
  }

  method Rejects(dfs: DfsState, e: Cfp, p: Settings, now: nat) returns (r: bool)
    modifies dfs
    ensures r <==> !Usable(old(dfs.list), e, p, now, Period(dfs.userNopPeriodSec))
    ensures dfs.list == AfterTest(old(dfs.list), e, now, Period(dfs.userNopPeriodSec))
  {
    if e.disabled {
      return true;
    }
    r := dfs.IsChannelUnderNop(e.channel, now);
    if !r {
      r := (p.inGetInfoStage && e.channel in p.radarChannels) || !BandValid(p, e.channel);
    }
  }

  /** Probes a matching table from the entry drawn; `tries` counts rejected entries. */
  method Probe(dfs: DfsState, cfps: seq<Cfp>, draw: nat, tries: nat, p: Settings, now: nat)
    returns (chan: nat, tries': nat)
    requires 1 <= |cfps| <= 255 && tries < 256
    modifies dfs
    ensures ProbeTable(old(dfs.list), cfps, draw, tries, p, now, Period(dfs.userNopPeriodSec))
         == Found(chan, tries', dfs.list)
    ensures tries' < 256
  {
    hide Usable, AfterTest, ProbeFrom, NextIndex;
    ghost var period := Period(dfs.userNopPeriodSec);
    ghost var all := ProbeFrom(dfs.list, cfps, draw % |cfps|, tries, p, now, period);
    var entry := draw % |cfps|;
    tries' := tries;
    chan := cfps[entry].channel;
    ghost var before := dfs.list;
    var rejected := Rejects(dfs, cfps[entry], p, now);
    while rejected
      invariant entry < |cfps| && tries' < 256 && chan == cfps[entry].channel
      invariant all == ProbeFrom(before, cfps, entry, tries', p, now, period)
      invariant rejected <==> !Usable(before, cfps[entry], p, now, period)
      invariant dfs.list == AfterTest(before, cfps[entry], now, period)
      decreases if tries' < |cfps| then |cfps| - tries' else |cfps| + 256 - tries'
    {
      ProbeStep(before, cfps, entry, tries', p, now, period);
      tries' := NextTry(tries');
      if tries' >= |cfps| {
        break;
      }
      entry := NextIndex(|cfps|, entry);
      chan := cfps[entry].channel;
      before := dfs.list;
      rejected := Rejects(dfs, cfps[entry], p, now);
    }
    if !rejected {
      ProbeStep(before, cfps, entry, tries', p, now, period);
    }
    assert all == Found(chan, tries', dfs.list);
    if tries' == |cfps| {
      chan := 0;
    }
  }

  lemma ProbeStep(list: Stamps, cfps: seq<Cfp>, entry: nat, tries: nat, p: Settings, now: nat, period: nat)
    requires entry < |cfps| <= 255 && tries < 256
    ensures var e, left, more := cfps[entry], AfterTest(list, cfps[entry], now, period), NextTry(tries);
            ProbeFrom(list, cfps, entry, tries, p, now, period)
            == if Usable(list, e, p, now, period) then Found(e.channel, tries, left)
               else if more < |cfps| then ProbeFrom(left, cfps, NextIndex(|cfps|, entry), more, p, now, period)
               else Found(e.channel, more, left)
  {
  }

  method GetUapStartChannel(dfs: DfsState, p: Settings, tables: Tables, rand: nat -> nat, now: nat) returns (chan: nat)
    modifies dfs
    ensures var f := StartChannel(old(dfs.list), p, tables, rand, now, Period(dfs.userNopPeriodSec));
            chan == f.chan && dfs.list == f.list
  {
    hide ProbeTable;
    chan := DEFAULT_AD_HOC_CHANNEL;
    if p.is5GHz {
      chan := DEFAULT_AD_HOC_CHANNEL_A;
      if p.dot11hEnabled {
        ghost var all := StartChannel(dfs.list, p, tables, rand, now, Period(dfs.userNopPeriodSec));
        var tries := 0;
        for region := 0 to |tables|
          invariant tries < 256
          invariant all == SearchFrom(Found(chan, tries, dfs.list), tables, region, rand, p, now,
              Period(dfs.userNopPeriodSec))
        {
          if Matches(tables[region], p) {
            chan, tries := Probe(dfs, tables[region].cfps, rand(region), tries, p, now);
          }
        }
      }
    }
  }

  // ---------------------------------------------------------------- what the search finds

  /** What a probe gives that passed k entries after `start`. */
  ghost predicate ProbedFrom(list: Stamps, cfps: seq<Cfp>, start: nat, k: nat, p: Settings, now: nat, period: nat,
      f: Found)
    requires start < |cfps|
  {
    && k <= f.tries <= |cfps|
    && (forall j: nat {:trigger Entry(cfps, start, j)} :: k <= j < f.tries ==>
        !Usable(list, Entry(cfps, start, j), p, now, period))
    && (f.tries < |cfps| ==>
          f.chan == Entry(cfps, start, f.tries).channel && Usable(list, Entry(cfps, start, f.tries), p, now, period))
    && OnePerChannel(f.list) && SameAnswers(f.list, list, now, period)
  }

  lemma TestKeepsAnswers(list: Stamps, e: Cfp, p: Settings, now: nat, period: nat)
    requires OnePerChannel(list)
    ensures var l := AfterTest(list, e, now, period); OnePerChannel(l) && SameAnswers(l, list, now, period)
  {
    QueryChangesNoAnswer(list, e.channel, now, period);
  }

  /** Two lists that answer alike make the same entries usable. */
  lemma UsableAlike(a: Stamps, b: Stamps, e: Cfp, p: Settings, now: nat, period: nat)
    requires SameAnswers(a, b, now, period)
    ensures Usable(a, e, p, now, period) <==> Usable(b, e, p, now, period)
  {
    assert Under(a, e.channel, now, period) <==> Under(b, e.channel, now, period);
  }

  lemma NextIsNext(n: nat, start: nat, k: nat)
    requires start < n && k + 1 < n
    ensures NextIndex(n, Round(n, start, k)) == Round(n, start, k + 1)
  {
    var entry := Round(n, start, k);
    assert (entry + 1) % n == if entry + 1 < n then entry + 1 else 0;
  }

  lemma {:induction false} ProbeFinds(
    list: Stamps, l: Stamps, cfps: seq<Cfp>, start: nat, k: nat, p: Settings, now: nat, period: nat)
    requires start < |cfps| <= 255 && k < |cfps| && OnePerChannel(l) && SameAnswers(l, list, now, period)
    ensures ProbedFrom(list, cfps, start, k, p, now, period,
        ProbeFrom(l, cfps, Round(|cfps|, start, k), k, p, now, period))
    decreases |cfps| - k
  {
    hide Usable, Under, AfterTest, OnePerChannel, Queried, NextIndex;
    var e := Entry(cfps, start, k);
    TestKeepsAnswers(l, e, p, now, period);
    UsableAlike(l, list, e, p, now, period);
    if !Usable(l, e, p, now, period) && k + 1 < |cfps| {
      NextIsNext(|cfps|, start, k);
      ProbeFinds(list, AfterTest(l, e, now, period), cfps, start, k + 1, p, now, period);
    }
  }

  /** The probe of one table finds its first usable entry, wherever it starts, and changes no answer. */
  lemma ProbeIsFirstUsable(list: Stamps, cfps: seq<Cfp>, draw: nat, p: Settings, now: nat, period: nat)
    requires 1 <= |cfps| <= 255 && OnePerChannel(list)
    ensures var f := ProbeTable(list, cfps, draw, 0, p, now, period);
            && FirstUsable(list, cfps, draw % |cfps|, p, now, period, f.chan)
            && OnePerChannel(f.list) && SameAnswers(f.list, list, now, period)
  {
    hide Usable, Under, OnePerChannel, ProbeFrom;
    var start := draw % |cfps|;
    ProbeFinds(list, list, cfps, start, 0, p, now, period);
    var f := ProbeFrom(list, cfps, start, 0, p, now, period);
    if f.tries == |cfps| {
      forall i | 0 <= i < |cfps| ensures !Usable(list, cfps[i], p, now, period) {
        var k := RoundCovers(|cfps|, start, i);
        assert Entry(cfps, start, k) == cfps[i];
      }
    } else {
      assert Usable(list, cfps[Round(|cfps|, start, f.tries)], p, now, period);
    }
  }

  /** Index of the only matching table; |tables| when none matches. */
  ghost predicate OnlyMatch(tables: Tables, p: Settings, m: nat) {
    && m <= |tables| && (m < |tables| ==> Matches(tables[m], p))
    && forall i :: 0 <= i < |tables| && i != m ==> !Matches(tables[i], p)
  }

  lemma {:induction false} NoMoreMatches(f: Found, tables: Tables, i: nat, rand: nat -> nat, p: Settings, now: nat,
      period: nat)
    requires i <= |tables| && f.tries < 256 && forall k :: i <= k < |tables| ==> !Matches(tables[k], p)
    ensures SearchFrom(f, tables, i, rand, p, now, period) == f
    decreases |tables| - i
  {
    if i < |tables| {
      NoMoreMatches(f, tables, i + 1, rand, p, now, period);
    }
  }

  lemma {:induction false} OneProbe(f: Found, tables: Tables, i: nat, rand: nat -> nat, p: Settings, now: nat,
      period: nat, m: nat)
    requires i <= |tables| && f.tries < 256 && OnlyMatch(tables, p, m) && i <= m < |tables|
    ensures SearchFrom(f, tables, i, rand, p, now, period)
         == ProbeTable(f.list, tables[m].cfps, rand(m), f.tries, p, now, period)
    decreases |tables| - i
  {
    if i < m {
      OneProbe(f, tables, i + 1, rand, p, now, period, m);
    } else {
      hide ProbeFrom;
      ProbeTries(f.list, tables[m].cfps, rand(m) % |tables[m].cfps|, f.tries, p, now, period);
      NoMoreMatches(ProbeTable(f.list, tables[m].cfps, rand(m), f.tries, p, now, period), tables, m + 1, rand, p, now,
          period);
    }
  }

  /** The search, completely, when at most one table matches: the default channels off 5 GHz, without 11h
      or without a match, whatever the list says of them; else the first usable entry of the table. */
  lemma StartChannelFinds(list: Stamps, p: Settings, tables: Tables, rand: nat -> nat, now: nat, period: nat, m: nat)
    requires OnePerChannel(list) && OnlyMatch(tables, p, m)
    ensures var f := StartChannel(list, p, tables, rand, now, period);
            && (!p.is5GHz ==> f.chan == DEFAULT_AD_HOC_CHANNEL)
            && (p.is5GHz && (!p.dot11hEnabled || m == |tables|) ==> f.chan == DEFAULT_AD_HOC_CHANNEL_A)
            && (p.is5GHz && p.dot11hEnabled && m < |tables| ==>
                  FirstUsable(list, tables[m].cfps, rand(m) % |tables[m].cfps|, p, now, period, f.chan))
            && OnePerChannel(f.list) && SameAnswers(f.list, list, now, period)
  {
    hide ProbeTable, FirstUsable, Under, OnePerChannel;
    if p.is5GHz && p.dot11hEnabled {
      var f := Found(DEFAULT_AD_HOC_CHANNEL_A, 0, list);
      if m < |tables| {
        OneProbe(f, tables, 0, rand, p, now, period, m);
        ProbeIsFirstUsable(list, tables[m].cfps, rand(m), p, now, period);
      } else {
        NoMoreMatches(f, tables, 0, rand, p, now, period);
      }
    }
  }

  /** The search is sound and complete, wherever it starts: over a table without channel 0 it gives 0
      exactly when no entry is usable, and otherwise the channel of a usable entry; in particular
      never a channel under non-occupancy. */
  lemma SearchSoundAndComplete(list: Stamps, cfps: seq<Cfp>, start: nat, p: Settings, now: nat, period: nat, chan: nat)
    requires start < |cfps| && (forall i :: 0 <= i < |cfps| ==> cfps[i].channel != 0)
    requires FirstUsable(list, cfps, start, p, now, period, chan)
    ensures chan == 0 <==> forall i :: 0 <= i < |cfps| ==> !Usable(list, cfps[i], p, now, period)
    ensures chan != 0 ==> exists i ::
        0 <= i < |cfps| && cfps[i].channel == chan && Usable(list, cfps[i], p, now, period)
    ensures chan != 0 ==> !Under(list, chan, now, period)
  {
    if exists i :: 0 <= i < |cfps| && Usable(list, cfps[i], p, now, period) {
      var k: nat :| k < |cfps| && chan == Entry(cfps, start, k).channel
                    && Usable(list, Entry(cfps, start, k), p, now, period);
      assert cfps[Round(|cfps|, start, k)] == Entry(cfps, start, k);
    }
  }

  /** After its own channel was marked, an access point that searches a region table never picks that
      channel again while the period lasts. */
  lemma SearchLeavesChannel(list: Stamps, cfps: seq<Cfp>, start: nat, p: Settings, now: nat, period: nat, chan: nat,
      current: nat)
    requires start < |cfps| && (forall i :: 0 <= i < |cfps| ==> cfps[i].channel != 0)
    requires FirstUsable(Marked(list, current, NopStart, now), cfps, start, p, now, period, chan) && chan != 0
    ensures chan != current
  {
    LookupMarked(list, current, NopStart, now, current);
    SearchSoundAndComplete(Marked(list, current, NopStart, now), cfps, start, p, now, period, chan);
  }

  /** Entry i of a table may not be used: disabled, under non-occupancy, in need of radar detection while the handler
      chooses, or 165 where that is not a 20 MHz channel. */
  ghost predicate MayNot(list: Stamps, e: Cfp, p: Settings, now: nat, period: nat) {
    || e.disabled
    || Under(list, e.channel, now, period)
    || (p.inGetInfoStage && e.channel in p.radarChannels)
    || (e.channel == 165 && !p.countryUS && !p.width20)
  }

  /** Table m is the only valid one of the region with a 5 GHz band. */
  ghost predicate OnlyTable(tables: Tables, p: Settings, m: nat) {
    && m < |tables| && tables[m].valid && tables[m].region == p.regionCode && tables[m].bandA
    && forall i :: 0 <= i < |tables| && i != m ==>
         !(tables[i].valid && tables[i].region == p.regionCode && tables[i].bandA)
  }

  /** What an access point on 5 GHz with 11h gets, when one table of its region matches: 0 exactly when no entry of it
      may be used; otherwise the channel of an entry that is not disabled, not under non-occupancy, not in
      need of radar detection while the handler chooses, and not 165 but in the US or on 20 MHz. */
  lemma StartChannelMayBeUsed(
    list: Stamps, p: Settings, tables: Tables, rand: nat -> nat, now: nat, period: nat, m: nat)
    requires OnePerChannel(list) && OnlyTable(tables, p, m) && p.is5GHz && p.dot11hEnabled
    requires forall i :: 0 <= i < |tables[m].cfps| ==> tables[m].cfps[i].channel != 0
    ensures var chan, cfps := StartChannel(list, p, tables, rand, now, period).chan, tables[m].cfps;
            && (chan == 0 <==> forall i :: 0 <= i < |cfps| ==> MayNot(list, cfps[i], p, now, period))
            && (chan != 0 ==>
                  && (exists i :: 0 <= i < |cfps| && cfps[i].channel == chan && !cfps[i].disabled)
                  && !Under(list, chan, now, period)
                  && (p.inGetInfoStage ==> chan !in p.radarChannels)
                  && (chan == 165 ==> p.countryUS || p.width20))
  {
    hide StartChannel, FirstUsable, Under, OnePerChannel;
    StartChannelFinds(list, p, tables, rand, now, period, m);
    var cfps := tables[m].cfps;
    SearchSoundAndComplete(list, cfps, rand(m) % |cfps|, p, now, period,
                           StartChannel(list, p, tables, rand, now, period).chan);
  }

  // ---------------------------------------------------------------- a second matching table

  lemma {:induction false} SkipsTo(f: Found, tables: Tables, i: nat, m: nat, rand: nat -> nat, p: Settings, now: nat,
      period: nat)
    requires i <= m <= |tables| && f.tries < 256 && forall k :: i <= k < m ==> !Matches(tables[k], p)
    ensures SearchFrom(f, tables, i, rand, p, now, period) == SearchFrom(f, tables, m, rand, p, now, period)
    decreases m - i
  {
    if i < m {
      SkipsTo(f, tables, i + 1, m, rand, p, now, period);
    }
  }

  /** The entries rejected in one table count against the next: when no entry of the first of two matching tables may
      be used, one entry of a second table no longer than it is looked at, the one drawn. With equal lengths the
      answer is the wrong way round, 0 when that entry may be used and its channel when it may not; a
      shorter table always gives the channel. */
  lemma SecondTableUnchecked(
    list: Stamps, p: Settings, tables: Tables, rand: nat -> nat, now: nat, period: nat, a: nat, b: nat)
    requires OnePerChannel(list) && p.is5GHz && p.dot11hEnabled && a < b < |tables|
    requires Matches(tables[a], p) && Matches(tables[b], p)
    requires forall i :: 0 <= i < |tables| && i != a && i != b ==> !Matches(tables[i], p)
    requires |tables[b].cfps| <= |tables[a].cfps| < 255
    requires forall i :: 0 <= i < |tables[a].cfps| ==> MayNot(list, tables[a].cfps[i], p, now, period)
    ensures var e := tables[b].cfps[rand(b) % |tables[b].cfps|];
            var same := |tables[b].cfps| == |tables[a].cfps|;
            StartChannel(list, p, tables, rand, now, period).chan
            == if same && !MayNot(list, e, p, now, period) then 0 else e.channel
  {
    hide ProbeTable, Under, OnePerChannel, Usable;
    var f := Found(DEFAULT_AD_HOC_CHANNEL_A, 0, list);
    SkipsTo(f, tables, 0, a, rand, p, now, period);
    var f1 := ProbeTable(list, tables[a].cfps, rand(a), 0, p, now, period);
    Exhausted(list, tables[a].cfps, rand(a), p, now, period);
    SkipsTo(f1, tables, a + 1, b, rand, p, now, period);
    var f2 := ProbeTable(f1.list, tables[b].cfps, rand(b), f1.tries, p, now, period);
    OneLook(f1.list, tables[b].cfps, rand(b), f1.tries, p, now, period);
    NoMoreMatches(f2, tables, b + 1, rand, p, now, period);
    UsableAlike(f1.list, list, tables[b].cfps[rand(b) % |tables[b].cfps|], p, now, period);
    UsableOrNot(list, p, now, period);
  }

  lemma UsableOrNot(list: Stamps, p: Settings, now: nat, period: nat)
    ensures forall e :: Usable(list, e, p, now, period) <==> !MayNot(list, e, p, now, period)
  {
  }

  /** A probe that finds nothing rejects every entry. */
  lemma Exhausted(list: Stamps, cfps: seq<Cfp>, draw: nat, p: Settings, now: nat, period: nat)
    requires 1 <= |cfps| < 255 && OnePerChannel(list)
    requires forall i :: 0 <= i < |cfps| ==> MayNot(list, cfps[i], p, now, period)
    ensures var f := ProbeTable(list, cfps, draw, 0, p, now, period);
            f.tries == |cfps| && SameAnswers(f.list, list, now, period)
  {
    hide Under, OnePerChannel, ProbeFrom, Usable;
    var start := draw % |cfps|;
    ProbeFinds(list, list, cfps, start, 0, p, now, period);
    var f := ProbeFrom(list, cfps, start, 0, p, now, period);
    UsableOrNot(list, p, now, period);
    forall j: nat | j < |cfps| ensures !Usable(list, Entry(cfps, start, j), p, now, period) {
      assert !Usable(list, cfps[Round(|cfps|, start, j)], p, now, period);
    }
  }

  /** With the tries used up a probe looks at one entry. */
  lemma OneLook(list: Stamps, cfps: seq<Cfp>, draw: nat, tries: nat, p: Settings, now: nat, period: nat)
    requires 1 <= |cfps| <= tries < 255
    ensures var e, f := cfps[draw % |cfps|], ProbeTable(list, cfps, draw, tries, p, now, period);
            && f.tries < 256
            && f.chan == if tries == |cfps| && Usable(list, e, p, now, period) then 0 else e.channel
  {
    hide Usable, AfterTest;
  }

  // ---------------------------------------------------------------- switching to a non-DFS channel

  /** An entry the switch may take: not a DFS channel, and not under non-occupancy. */
  predicate NonDfs(list: Stamps, e: Cfp, now: nat, period: nat) {
    !e.radarDetect && !Under(list, e.channel, now, period)
  }

  ghost predicate SomeNonDfs(list: Stamps, cfps: seq<Cfp>, now: nat, period: nat) {
    exists i :: 0 <= i < |cfps| && NonDfs(list, cfps[i], now, period)
  }

  /** `chan` is the channel of an entry the switch may take. */
  ghost predicate OffersNonDfs(list: Stamps, cfps: seq<Cfp>, chan: nat, now: nat, period: nat) {
    exists i :: 0 <= i < |cfps| && cfps[i].channel == chan && NonDfs(list, cfps[i], now, period)
  }

  ghost predicate FirstOnlyA(tables: Tables, m: nat) {
    && m <= |tables| && (m < |tables| ==> tables[m].onlyA && tables[m].valid)
    && forall i :: 0 <= i < m ==> !(tables[i].onlyA && tables[i].valid)
  }

  /** The first entry in table order that the switch may take. */
  method LowestNonDfs(dfs: DfsState, cfps: seq<Cfp>, now: nat) returns (found: bool, chan: nat)
    requires OnePerChannel(dfs.list)
    modifies dfs
    ensures OnePerChannel(dfs.list)
    ensures SameAnswers(dfs.list, old(dfs.list), now, Period(dfs.userNopPeriodSec))
    ensures found <==> SomeNonDfs(old(dfs.list), cfps, now, Period(dfs.userNopPeriodSec))
    ensures found ==> OffersNonDfs(old(dfs.list), cfps, chan, now, Period(dfs.userNopPeriodSec))
  {
    ghost var list, period := dfs.list, Period(dfs.userNopPeriodSec);
    chan := 0;
    for i := 0 to |cfps|
      invariant OnePerChannel(dfs.list) && SameAnswers(dfs.list, list, now, period)
      invariant forall j :: 0 <= j < i ==> !NonDfs(list, cfps[j], now, period)
    {
      if !cfps[i].radarDetect {
        var under := Ask(dfs, cfps[i].channel, now);
        if !under {
          assert NonDfs(list, cfps[i], now, period);
          return true, cfps[i].channel;
        }
      }
    }
    found := false;
  }

  /** A few random tries, then the lowest entry. `rand` gives the numbers drawn. */
  method SwitchNonDfsChan(
    dfs: DfsState, noChannelChange: bool, fixedChannel: nat, tables: Tables, rand: nat -> nat, now: nat, ghost m: nat)
    returns (ok: bool, chan: nat)
    requires OnePerChannel(dfs.list) && FirstOnlyA(tables, m)
    modifies dfs
    ensures OnePerChannel(dfs.list)
    ensures SameAnswers(dfs.list, old(dfs.list), now, Period(dfs.userNopPeriodSec))
    ensures !noChannelChange && fixedChannel != 0 ==> ok && chan == fixedChannel
    ensures !(!noChannelChange && fixedChannel != 0) ==>
              var period := Period(dfs.userNopPeriodSec);
              && (ok ==>
                    && m < |tables| && !Under(old(dfs.list), chan, now, period)
                    && exists e: Cfp :: e in tables[m].cfps && e.channel == chan && !e.radarDetect)
              && (!ok && m < |tables| ==>
                    forall e: Cfp :: e in tables[m].cfps ==>
                      e.radarDetect || Under(old(dfs.list), e.channel, now, period))
    ensures !(!noChannelChange && fixedChannel != 0) ==>
              var period := Period(dfs.userNopPeriodSec);
              && (ok <==> m < |tables| && SomeNonDfs(old(dfs.list), tables[m].cfps, now, period))
              && (ok ==> OffersNonDfs(old(dfs.list), tables[m].cfps, chan, now, period))
  {
    ghost var list, period := dfs.list, Period(dfs.userNopPeriodSec);
    if !noChannelChange && fixedChannel != 0 {
      return true, fixedChannel;
    }
    var k := 0;
    while k < |tables| && !(tables[k].onlyA && tables[k].valid)
      invariant k <= m
    {
      k := k + 1;
    }
    if k == |tables| {
      return false, 0;
    }
    var cfps := tables[k].cfps;
    var entry := rand(0) % |cfps|;
    chan := cfps[entry].channel;
    var tries := 1;
    var under := Ask(dfs, chan, now);
    while (under || cfps[entry].radarDetect) && tries < MAX_SWITCH_CHANNEL_RETRIES
      invariant OnePerChannel(dfs.list) && SameAnswers(dfs.list, list, now, period)
      invariant 0 <= entry < |cfps| && chan == cfps[entry].channel && 1 <= tries <= MAX_SWITCH_CHANNEL_RETRIES
      invariant under <==> Under(list, chan, now, period)
      decreases MAX_SWITCH_CHANNEL_RETRIES - tries
    {
      entry := rand(tries) % |cfps|;
      chan := cfps[entry].channel;
      tries := tries + 1;
      under := Ask(dfs, chan, now);
    }
    if tries == MAX_SWITCH_CHANNEL_RETRIES {
      ok, chan := LowestNonDfs(dfs, cfps, now);
    } else {
      assert NonDfs(list, cfps[entry], now, period);
      ok := true;
    }
  }
}
