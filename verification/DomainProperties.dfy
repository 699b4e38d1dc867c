/** Sub-bands written and read back: the round trip, the shortness of what is written, and what every
    reading satisfies whatever the sender put into the element. */
module DomainProperties {
  import opened Basics
  import opened DomainCodec

  /** Strictly ascending channels. */
  predicate RisingChans(list: seq<ChanPwr>) {
    forall i, j :: 0 <= i < j < |list| ==> list[i].chan < list[j].chan
  }

  /** A table of one band, of channels the band has. */
  predicate InBand(list: seq<ChanPwr>, band: nat) {
    forall i :: 0 <= i < |list| ==> list[i].band == band && list[i].chan in Channels(band)
  }

  /** The same with no AP seen yet. */
  predicate OfBand(list: seq<ChanPwr>, band: nat) {
    InBand(list, band) && forall i :: 0 <= i < |list| ==> !list[i].apSeen
  }

  /** A table without the marks for APs seen, which sub-bands do not carry. */
  function Unmarked(list: seq<ChanPwr>): seq<ChanPwr> {
    seq(|list|, i requires 0 <= i < |list| => list[i].(apSeen := false))
  }

  // ---------------------------------------------------------------- expanding a run

  /** Entries c, .., c + n - 1 with one power. */
  function Run(chan: nat, n: nat, band: nat, pwr: nat): seq<ChanPwr> {
    seq(n, i requires 0 <= i < n => ChanPwr(chan + i, band, pwr, false))
  }

  /** The table has n consecutive channels from `chan` on. */
  predicate HasRun(tab: seq<nat>, chan: nat, n: nat) {
    var k := Locate(tab, chan);
    k + n <= |tab| && forall j :: k <= j < k + n ==> tab[j] == chan + (j - k)
  }

  lemma RunStarts(tab: seq<nat>, chan: nat)
    requires chan in tab
    ensures HasRun(tab, chan, 1)
  {
    var i :| 0 <= i < |tab| && tab[i] == chan;
    assert Locate(tab, chan) <= i;
  }

  /** In an ascending table a channel number one up is the next entry. */
  lemma RunGrows(tab: seq<nat>, chan: nat, n: nat)
    requires Rising(tab) && n >= 1 && HasRun(tab, chan, n) && chan + n in tab
    ensures HasRun(tab, chan, n + 1)
  {
    var k := Locate(tab, chan);
    var i :| 0 <= i < |tab| && tab[i] == chan + n;
    assert tab[k + (n - 1)] == chan + n - 1;
    assert k + n < |tab| && i < k + n ==> i <= k + (n - 1);
  }

  lemma {:induction false} ExpandRun(sb: SubBand, i: nat, room: nat, tab: seq<nat>, band: nat)
    requires HasRun(tab, sb.firstChan, sb.noOfChan) && i <= sb.noOfChan && sb.noOfChan - i <= room
    requires sb.noOfChan >= 1
    ensures Expand(sb, i, room, tab, band) == Run(sb.firstChan + i, sb.noOfChan - i, band, sb.maxTxPwr)
    decreases sb.noOfChan - i
  {
    if i < sb.noOfChan {
      ExpandRun(sb, i + 1, room - 1, tab, band);
      assert tab[Locate(tab, sb.firstChan) + i] == sb.firstChan + i;
      var a, b := Run(sb.firstChan + i, sb.noOfChan - i, band, sb.maxTxPwr),
          Run(sb.firstChan + i + 1, sb.noOfChan - i - 1, band, sb.maxTxPwr);
      assert a == [ChanPwr(sb.firstChan + i, band, sb.maxTxPwr, false)] + b;
    }
  }

  // ---------------------------------------------------------------- round trip

  /** An open run followed by list entries: what the writer still has to write. */
  predicate Writable(run: SubBand, list: seq<ChanPwr>, tab: seq<nat>, band: nat) {
    && run.noOfChan >= 1 && HasRun(tab, run.firstChan, run.noOfChan)
    && RisingChans(list) && (forall i :: 0 <= i < |list| ==>
        list[i].band == band && list[i].chan in tab && !list[i].apSeen)
    && (list != [] ==> run.firstChan + run.noOfChan <= list[0].chan)
  }

  lemma WritableNext(run: SubBand, list: seq<ChanPwr>, tab: seq<nat>, band: nat)
    requires Writable(run, list, tab, band) && list != [] && Rising(tab)
    ensures if Continues(run, list[0]) then Writable(run.(noOfChan := run.noOfChan + 1), list[1..], tab, band)
            else Writable(Single(list[0]), list[1..], tab, band)
  {
    var rest := list[1..];
    assert forall i :: 0 <= i < |rest| ==> rest[i] == list[i + 1];
    if Continues(run, list[0]) {
      RunGrows(tab, run.firstChan, run.noOfChan);
    } else {
      RunStarts(tab, list[0].chan);
    }
  }

  lemma {:induction false} ParseEncoded(run: SubBand, list: seq<ChanPwr>, last: nat, room: nat, tab: seq<nat>,
      band: nat)
    requires Rising(tab) && Writable(run, list, tab, band) && last < run.firstChan && run.noOfChan + |list| <= room
    ensures ParseFrom(EncodeFrom(run, list), last, room, tab, band)
         == Run(run.firstChan, run.noOfChan, band, run.maxTxPwr) + list
    decreases |list|
  {
    hide ParseFrom, Run, Expand, HasRun;
    if list == [] {
      ParseRunFirst(run, [], last, room, tab, band);
      ParseNothing(run.firstChan + run.noOfChan - 1, room - run.noOfChan, tab, band);
      assert [run] + [] == [run];
    } else {
      WritableNext(run, list, tab, band);
      var c := list[0];
      assert list == [c] + list[1..];
      if Continues(run, c) {
        var more := run.(noOfChan := run.noOfChan + 1);
        ParseEncoded(more, list[1..], last, room, tab, band);
        RunSnoc(run, c, band);
        assert (Run(run.firstChan, run.noOfChan, band, run.maxTxPwr) + [c]) + list[1..]
            == Run(run.firstChan, run.noOfChan, band, run.maxTxPwr) + list;
      } else {
        ParseRunFirst(run, EncodeFrom(Single(c), list[1..]), last, room, tab, band);
        ParseEncoded(Single(c), list[1..], run.firstChan + run.noOfChan - 1, room - run.noOfChan, tab, band);
        RunOfOne(c, band);
      }
    }
  }

  lemma ParseNothing(last: nat, room: nat, tab: seq<nat>, band: nat)
    ensures ParseFrom([], last, room, tab, band) == []
  {
  }

  lemma RunOfOne(c: ChanPwr, band: nat)
    requires c.band == band && !c.apSeen
    ensures Run(c.chan, 1, band, c.pwr) == [c]
  {
  }

  lemma RunSnoc(run: SubBand, c: ChanPwr, band: nat)
    requires Continues(run, c) && c.band == band && !c.apSeen
    ensures Run(run.firstChan, run.noOfChan + 1, band, run.maxTxPwr)
         == Run(run.firstChan, run.noOfChan, band, run.maxTxPwr) + [c]
  {
  }

  /** Reading a run and what follows it. */
  lemma ParseRunFirst(run: SubBand, sbs: seq<SubBand>, last: nat, room: nat, tab: seq<nat>, band: nat)
    requires run.noOfChan >= 1 && HasRun(tab, run.firstChan, run.noOfChan) && last < run.firstChan
        && run.noOfChan <= room
    ensures ParseFrom([run] + sbs, last, room, tab, band)
         == Run(run.firstChan, run.noOfChan, band, run.maxTxPwr)
            + ParseFrom(sbs, run.firstChan + run.noOfChan - 1, room - run.noOfChan, tab, band)
  {
    hide Expand, HasRun;
    ExpandRun(run, 0, room, tab, band);
    assert ([run] + sbs)[1..] == sbs;
  }

  lemma {:induction false} EncodeIgnoresMarks(run: SubBand, list: seq<ChanPwr>)
    ensures EncodeFrom(run, Unmarked(list)) == EncodeFrom(run, list)
    decreases |list|
  {
    if list != [] {
      assert Unmarked(list)[1..] == Unmarked(list[1..]);
      EncodeIgnoresMarks(if Continues(run, list[0]) then run.(noOfChan := run.noOfChan + 1) else Single(list[0]),
          list[1..]);
    }
  }

  lemma UnmarkedRoundTrip(list: seq<ChanPwr>, band: nat, country0: nat)
    requires 1 <= |list| <= MAX_NO_OF_CHAN && RisingChans(list) && OfBand(list, band) && country0 != 0
    ensures var sbs := Encode(list);
            Parse(CountryInfo(country0, COUNTRY_CODE_LEN + 3 * |sbs|, sbs), band) == Some(list)
  {
    hide Channels, ParseFrom, EncodeFrom, HasRun;
    var tab, sbs := Channels(band), Encode(list);
    ChannelsRise(band);
    EncodeShort(Single(list[0]), list[1..]);
    var rest := list[1..];
    assert forall i :: 0 <= i < |rest| ==> rest[i] == list[i + 1];
    RunStarts(tab, list[0].chan);
    NoChannelZero(band);
    ParseEncoded(Single(list[0]), rest, 0, MAX_NO_OF_CHAN, tab, band);
    assert Run(list[0].chan, 1, band, list[0].pwr) == [list[0]];
    assert sbs[..|sbs|] == sbs;
    assert [list[0]] + rest == list;
  }

  /** Round trip: for every non-empty, strictly ascending table of one band, with any powers and whether
      APs were seen or not, reading the sub-bands written gives the same channels and powers. */
  lemma RoundTrip(list: seq<ChanPwr>, band: nat, country0: nat)
    requires 1 <= |list| <= MAX_NO_OF_CHAN && RisingChans(list) && InBand(list, band) && country0 != 0
    ensures var sbs := Encode(list);
            Parse(CountryInfo(country0, COUNTRY_CODE_LEN + 3 * |sbs|, sbs), band) == Some(Unmarked(list))
  {
    hide Parse, EncodeFrom, Channels;
    UnmarkedRoundTrip(Unmarked(list), band, country0);
    EncodeIgnoresMarks(Single(list[0]), list[1..]);
    assert Unmarked(list)[1..] == Unmarked(list[1..]);
  }

  lemma NoChannelZero(band: nat)
    ensures forall i :: 0 <= i < |Channels(band)| ==> Channels(band)[i] >= 1
  {
  }

  // ---------------------------------------------------------------- the writing is as short as can be

  /** Two adjacent sub-bands could be one. */
  predicate Mergeable(a: SubBand, b: SubBand) {
    b.firstChan == a.firstChan + a.noOfChan && b.maxTxPwr == a.maxTxPwr
  }

  lemma {:induction false} EncodeMaximal(run: SubBand, list: seq<ChanPwr>)
    ensures var sbs := EncodeFrom(run, list);
            && sbs != [] && sbs[0].firstChan == run.firstChan && sbs[0].maxTxPwr == run.maxTxPwr
            && forall i :: 0 <= i < |sbs| - 1 ==> !Mergeable(sbs[i], sbs[i + 1])
    decreases |list|
  {
    if list != [] {
      var next := if Continues(run, list[0]) then run.(noOfChan := run.noOfChan + 1) else Single(list[0]);
      EncodeMaximal(next, list[1..]);
    }
  }

  /** No two adjacent sub-bands written could be merged. */
  lemma NothingToMerge(list: seq<ChanPwr>)
    ensures var sbs := Encode(list);
            |sbs| <= |list| && forall i :: 0 <= i < |sbs| - 1 ==> !Mergeable(sbs[i], sbs[i + 1])
  {
    if list != [] {
      EncodeShort(Single(list[0]), list[1..]);
      EncodeMaximal(Single(list[0]), list[1..]);
    }
  }

  // ---------------------------------------------------------------- every reading

  /** The entry is that of table position p. */
  predicate IsAt(c: ChanPwr, p: nat, tab: seq<nat>, band: nat, pwr: nat) {
    p < |tab| && c == ChanPwr(tab[p], band, pwr, false)
  }

  /** Entries of consecutive table positions. */
  predicate AllAt(out: seq<ChanPwr>, p: nat, tab: seq<nat>, band: nat, pwr: nat) {
    forall k :: 0 <= k < |out| ==> IsAt(out[k], p + k, tab, band, pwr)
  }

  lemma AllAtCons(c: ChanPwr, rest: seq<ChanPwr>, p: nat, tab: seq<nat>, band: nat, pwr: nat)
    requires IsAt(c, p, tab, band, pwr) && AllAt(rest, p + 1, tab, band, pwr)
    ensures AllAt([c] + rest, p, tab, band, pwr)
  {
    var out := [c] + rest;
    forall k | 0 <= k < |out| ensures IsAt(out[k], p + k, tab, band, pwr) {
      if k > 0 {
        assert out[k] == rest[k - 1] && IsAt(rest[k - 1], p + 1 + (k - 1), tab, band, pwr);
      }
    }
  }

  /** What a sub-band expands to rises from its first channel on, inside the table. */
  lemma {:induction false} ExpandRises(sb: SubBand, i: nat, room: nat, tab: seq<nat>, band: nat)
    ensures AllAt(Expand(sb, i, room, tab, band), Locate(tab, sb.firstChan) + i, tab, band, sb.maxTxPwr)
    decreases room
  {
    if !(room == 0 || i >= sb.noOfChan || ChanAfter(tab, sb.firstChan, i).None?) {
      ExpandRises(sb, i + 1, room - 1, tab, band);
      HeadIsAt(sb, i, tab, band);
      AllAtCons(ChanPwr(ChanAfter(tab, sb.firstChan, i).value, band, sb.maxTxPwr, false),
                Expand(sb, i + 1, room - 1, tab, band), Locate(tab, sb.firstChan) + i, tab, band, sb.maxTxPwr);
    }
  }

  lemma HeadIsAt(sb: SubBand, i: nat, tab: seq<nat>, band: nat)
    requires ChanAfter(tab, sb.firstChan, i).Some?
    ensures IsAt(ChanPwr(ChanAfter(tab, sb.firstChan, i).value, band, sb.maxTxPwr, false),
        Locate(tab, sb.firstChan) + i, tab, band, sb.maxTxPwr)
  {
  }

  /** A reading, from the last channel read on. */
  predicate GoodReading(out: seq<ChanPwr>, last: nat, room: nat, tab: seq<nat>, band: nat) {
    && |out| <= room && RisingChans(out)
    && forall k :: 0 <= k < |out| ==> last < out[k].chan && out[k].chan in tab && out[k].band == band && !out[k].apSeen
  }

  lemma ExpandGood(sb: SubBand, last: nat, room: nat, tab: seq<nat>, band: nat)
    requires Rising(tab) && last < sb.firstChan
    ensures GoodReading(Expand(sb, 0, room, tab, band), last, room, tab, band)
  {
    ExpandRises(sb, 0, room, tab, band);
    ExpandShort(sb, 0, room, tab, band);
  }

  lemma {:induction false} ParseGood(sbs: seq<SubBand>, last: nat, room: nat, tab: seq<nat>, band: nat)
    requires Rising(tab)
    ensures GoodReading(ParseFrom(sbs, last, room, tab, band), last, room, tab, band)
    decreases |sbs|
  {
    hide Expand, ParseFrom, GoodReading;
    ParseStep(sbs, last, room, tab, band);
    if sbs == [] {
      NothingGood(last, room, tab, band);
    } else {
      if sbs[0].firstChan <= last {
        ParseGood(sbs[1..], last, room, tab, band);
      } else {
        var out := Expand(sbs[0], 0, room, tab, band);
        ExpandGood(sbs[0], last, room, tab, band);
        ExpandShort(sbs[0], 0, room, tab, band);
        ParseGood(sbs[1..], LastChan(last, out), room - |out|, tab, band);
        JoinGood(out, ParseFrom(sbs[1..], LastChan(last, out), room - |out|, tab, band), last, room, tab, band);
      }
    }
  }

  lemma NothingGood(last: nat, room: nat, tab: seq<nat>, band: nat)
    ensures GoodReading([], last, room, tab, band)
  {
  }

  lemma JoinGood(a: seq<ChanPwr>, b: seq<ChanPwr>, last: nat, room: nat, tab: seq<nat>, band: nat)
    requires GoodReading(a, last, room, tab, band) && GoodReading(b, LastChan(last, a), room - |a|, tab, band)
    ensures GoodReading(a + b, last, room, tab, band)
  {
  }

  /** Whatever an element says, what is read from it is a strictly ascending table of at most 40 channels,
      all of them channels of the band. */
  lemma ParseRises(info: CountryInfo, band: nat)
    requires Complete(info) && Parse(info, band).Some?
    ensures var out := Parse(info, band).value;
            |out| <= MAX_NO_OF_CHAN && RisingChans(out) && OfBand(out, band)
  {
    hide Channels, ParseFrom;
    ChannelsRise(band);
    ParseGood(info.subBand[..(info.len - COUNTRY_CODE_LEN) / 3], 0, MAX_NO_OF_CHAN, Channels(band), band);
  }
}
