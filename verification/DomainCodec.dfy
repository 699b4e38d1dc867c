/** 802.11d country information: channel tables written as sub-bands, and sub-bands read back.

  The Country element is section 9.4.2.9 of IEEE Std 802.11-2016. */
module DomainCodec {
  import opened Basics

  datatype ChanPwr = ChanPwr(chan: nat, band: nat, pwr: nat, apSeen: bool)

  datatype SubBand = SubBand(firstChan: nat, noOfChan: nat, maxTxPwr: nat)

  const MAX_NO_OF_CHAN := 40
  const MAX_SUBBAND := 83
  const COUNTRY_CODE_LEN := 3

  // ---------------------------------------------------------------- the universal channel tables

  const CHANNELS_BG: seq<nat> := [1, 2, 3, 4, 5, 6, 7, 8, 9, 10, 11, 12, 13, 14]

  const CHANNELS_AJ: seq<nat> := [
    8, 12, 16, 34, 36, 38, 40, 42, 44, 46, 48, 52, 56, 60, 64, 100, 104, 108, 112, 116, 120, 124, 128, 132, 136,
    140, 144, 149, 153, 157, 161, 165, 169, 173, 177]

  predicate Bit(v: nat, weight: nat)
    requires weight > 0
  {
    v / weight % 2 == 1
  }

  /** B, G, GN or GAC. */
  predicate IsBG(band: nat) {
    Bit(band, 1) || Bit(band, 2) || Bit(band, 8) || Bit(band, 32)
  }

  /** A, AN or AAC. */
  predicate IsA(band: nat) {
    Bit(band, 4) || Bit(band, 16) || Bit(band, 64)
  }

  /** The channels of a band; none for a band that is neither. */
  function Channels(band: nat): seq<nat> {
    if IsBG(band) then CHANNELS_BG else if IsA(band) then CHANNELS_AJ else []
  }

  predicate Rising(s: seq<nat>) {
    forall i, j :: 0 <= i < j < |s| ==> s[i] < s[j]
  }

  /** Each element but the last is below its successor. */
  predicate StepsUp(s: seq<nat>) {
    forall i :: 0 <= i < |s| - 1 ==> Below(s, i)
  }

  predicate Below(s: seq<nat>, i: nat)
    requires i + 1 < |s|
  {
    s[i] < s[i + 1]
  }

  lemma {:induction false} StepsRise(s: seq<nat>, i: nat, j: nat)
    requires StepsUp(s) && i < j < |s|
    ensures s[i] < s[j]
  {
    assert Below(s, j - 1);
    if i < j - 1 {
      StepsRise(s, i, j - 1);
    }
  }

  /** Both tables are strictly ascending. */
  lemma ChannelsRise(band: nat)
    ensures Rising(Channels(band))
  {
    var s := Channels(band);
    assert StepsUp(CHANNELS_BG);
    assert StepsUp(CHANNELS_AJ);
    forall i, j | 0 <= i < j < |s| ensures s[i] < s[j] {
      StepsRise(s, i, j);
    }
  }

  // ---------------------------------------------------------------- writing sub-bands

  function Single(c: ChanPwr): SubBand {
    SubBand(c.chan, 1, c.pwr)
  }

  /** The channel continues the run. */
  predicate Continues(run: SubBand, c: ChanPwr) {
    c.chan == run.firstChan + run.noOfChan && c.pwr == run.maxTxPwr
  }

  /** Sub-bands of an open run and the entries behind it. */
  function EncodeFrom(run: SubBand, list: seq<ChanPwr>): seq<SubBand>
    decreases |list|
  {
    if list == [] then [run]
    else if Continues(run, list[0]) then EncodeFrom(run.(noOfChan := run.noOfChan + 1), list[1..])
    else [run] + EncodeFrom(Single(list[0]), list[1..])
  }

  function Encode(list: seq<ChanPwr>): seq<SubBand> {
    if list == [] then [] else EncodeFrom(Single(list[0]), list[1..])
  }

  lemma {:induction false} EncodeShort(run: SubBand, list: seq<ChanPwr>)
    ensures 1 <= |EncodeFrom(run, list)| <= |list| + 1
    decreases |list|
  {
    if list != [] {
      EncodeShort(if Continues(run, list[0]) then run.(noOfChan := run.noOfChan + 1) else Single(list[0]), list[1..]);
    }
  }

  /** Writes the sub-bands of a channel table. */
  method GenerateDomainInfo(chanPwr: array<ChanPwr>, noOfChan: nat, subBand: array<SubBand>) returns (noOfSubBand: nat)
    requires noOfChan <= chanPwr.Length == MAX_NO_OF_CHAN && subBand.Length == MAX_SUBBAND
    modifies subBand
    ensures noOfSubBand <= subBand.Length && subBand[..noOfSubBand] == Encode(chanPwr[..noOfChan])
  {
    ghost var list := chanPwr[..noOfChan];
    noOfSubBand := 0;
    var flag, run, next := false, SubBand(0, 0, 0), 0;
    for i := 0 to noOfChan
      invariant noOfSubBand <= i && flag == (i > 0) && (flag ==> noOfSubBand < i)
      invariant !flag ==> noOfSubBand == 0
      invariant flag ==> next == run.firstChan + run.noOfChan - 1 && run.noOfChan >= 1
      invariant flag ==> subBand[..noOfSubBand] + EncodeFrom(run, list[i..]) == Encode(list)
    {
      var c := chanPwr[i];
      if !flag {
        flag, next, run := true, c.chan, Single(c);
        continue;
      }
      assert list[i..][0] == c && list[i..][1..] == list[i + 1..];
      if c.chan == next + 1 && c.pwr == run.maxTxPwr {
        next := next + 1;
        run := run.(noOfChan := run.noOfChan + 1);
      } else {
        ghost var done := subBand[..noOfSubBand];
        subBand[noOfSubBand] := run;
        assert subBand[..noOfSubBand + 1] == done + [run];
        noOfSubBand := noOfSubBand + 1;
        assert done + ([run] + EncodeFrom(Single(c), list[i + 1..]))
             == (done + [run]) + EncodeFrom(Single(c), list[i + 1..]);
        next, run := c.chan, Single(c);
      }
    }
    if flag {
      ghost var done := subBand[..noOfSubBand];
      subBand[noOfSubBand] := run;
      assert subBand[..noOfSubBand + 1] == done + [run];
      noOfSubBand := noOfSubBand + 1;
    }
  }

  // ---------------------------------------------------------------- reading sub-bands

  /** Position of a channel in a table; |tab| when it is not there. */
  function Locate(tab: seq<nat>, chan: nat): (i: nat)
    ensures i <= |tab|
    ensures i < |tab| ==> tab[i] == chan
    ensures forall j :: 0 <= j < i ==> tab[j] != chan
  {
    if tab == [] || tab[0] == chan then 0 else 1 + Locate(tab[1..], chan)
  }

  /** The channel n places after `first` in the table of the band. */
  function ChanAfter(tab: seq<nat>, first: nat, n: nat): Option<nat> {
    var i := Locate(tab, first);
    if i < |tab| && i + n < |tab| then Some(tab[i + n]) else None
  }

  method GetChan(band: nat, firstChan: nat, noOfChan: nat) returns (r: Option<nat>)
    ensures r == ChanAfter(Channels(band), firstChan, noOfChan)
  {
    hide Locate;
    var tab := [];
    if IsBG(band) {
      tab := CHANNELS_BG;
    } else if IsA(band) {
      tab := CHANNELS_AJ;
    } else {
      return None;
    }
    var i := LocateFirst(tab, firstChan);
    if i < |tab| && i + noOfChan < |tab| {
      return Some(tab[i + noOfChan]);
    }
    r := None;
  }

  method LocateFirst(tab: seq<nat>, chan: nat) returns (i: nat)
    ensures i == Locate(tab, chan)
  {
    i := 0;
    while i < |tab| && tab[i] != chan
      invariant 0 <= i <= |tab| && forall j :: 0 <= j < i ==> tab[j] != chan
    {
      i := i + 1;
    }
  }

  /** Channels i, .., of a sub-band, as far as the table and the room go. */
  function Expand(sb: SubBand, i: nat, room: nat, tab: seq<nat>, band: nat): seq<ChanPwr>
    decreases room
  {
    if room == 0 || i >= sb.noOfChan || ChanAfter(tab, sb.firstChan, i).None? then [] else
      [ChanPwr(ChanAfter(tab, sb.firstChan, i).value, band, sb.maxTxPwr, false)]
        + Expand(sb, i + 1, room - 1, tab, band)
  }

  lemma {:induction false} ExpandShort(sb: SubBand, i: nat, room: nat, tab: seq<nat>, band: nat)
    ensures |Expand(sb, i, room, tab, band)| <= room
    decreases room
  {
    if !(room == 0 || i >= sb.noOfChan || ChanAfter(tab, sb.firstChan, i).None?) {
      ExpandShort(sb, i + 1, room - 1, tab, band);
    }
  }

  /** Number of the last channel read. */
  function LastChan(last: nat, out: seq<ChanPwr>): nat {
    if out == [] then last else out[|out| - 1].chan
  }

  /** The channels of the sub-bands that start past the last channel read. */
  function ParseFrom(sbs: seq<SubBand>, last: nat, room: nat, tab: seq<nat>, band: nat): seq<ChanPwr>
    decreases |sbs|
  {
    if sbs == [] then []
    else if sbs[0].firstChan <= last then ParseFrom(sbs[1..], last, room, tab, band)
    else
      var out := Expand(sbs[0], 0, room, tab, band);
      ExpandShort(sbs[0], 0, room, tab, band);
      out + ParseFrom(sbs[1..], LastChan(last, out), room - |out|, tab, band)
  }

  /** Country information: the first letter of the country, the length field, and the sub-bands. */
  datatype CountryInfo = CountryInfo(country0: nat, len: nat, subBand: seq<SubBand>)

  predicate Complete(info: CountryInfo) {
    info.len <= COUNTRY_CODE_LEN + 3 * |info.subBand|
  }

  function Parse(info: CountryInfo, band: nat): Option<seq<ChanPwr>>
    requires Complete(info)
  {
    if info.country0 == 0 || info.len <= COUNTRY_CODE_LEN then None
    else Some(ParseFrom(info.subBand[..(info.len - COUNTRY_CODE_LEN) / 3], 0, MAX_NO_OF_CHAN, Channels(band), band))
  }

  /** Entries of an array, as the parser leaves them: it does not touch the AP-seen mark. */
  predicate Stored(chanPwr: seq<ChanPwr>, out: seq<ChanPwr>, was: seq<ChanPwr>)
  {
    && |out| <= |chanPwr| == |was|
    && (forall k :: 0 <= k < |out| ==> chanPwr[k] == out[k].(apSeen := was[k].apSeen))
    && forall k :: |out| <= k < |chanPwr| ==> chanPwr[k] == was[k]
  }

  /** Reads one sub-band behind the idx entries read so far. */
  method ParseSubBand(sb: SubBand, band: nat, regionChan: array<ChanPwr>, idx: nat, ghost done: seq<ChanPwr>,
      ghost was: seq<ChanPwr>)
    returns (end: nat, lastChan: nat, ghost out: seq<ChanPwr>)
    requires regionChan.Length == MAX_NO_OF_CHAN && idx == |done| && Stored(regionChan[..], done, was)
    modifies regionChan
    ensures out == Expand(sb, 0, MAX_NO_OF_CHAN - idx, Channels(band), band)
    ensures end == idx + |out| && Stored(regionChan[..], done + out, was)
    ensures out != [] ==> lastChan == out[|out| - 1].chan
  {
    hide Channels, ChanAfter;
    var i := 0;
    end, lastChan, out := idx, 0, [];
    ghost var all := Expand(sb, 0, MAX_NO_OF_CHAN - idx, Channels(band), band);
    while end < MAX_NO_OF_CHAN && i < sb.noOfChan
      invariant i == |out| && end == idx + i <= MAX_NO_OF_CHAN
      invariant all == out + Expand(sb, i, MAX_NO_OF_CHAN - end, Channels(band), band)
      invariant Stored(regionChan[..], done + out, was)
      invariant out != [] ==> lastChan == out[|out| - 1].chan
      decreases MAX_NO_OF_CHAN - end
    {
      var cur := GetChan(band, sb.firstChan, i);
      if cur.None? {
        break;
      }
      ghost var c := ChanPwr(cur.value, band, sb.maxTxPwr, false);
      ghost var rest := Expand(sb, i + 1, MAX_NO_OF_CHAN - end - 1, Channels(band), band);
      assert out + ([c] + rest) == (out + [c]) + rest;
      assert done + (out + [c]) == (done + out) + [c];
      lastChan := cur.value;
      regionChan[end] := regionChan[end].(chan := cur.value, band := band, pwr := sb.maxTxPwr);
      out := out + [c];
      end := end + 1;
      i := i + 1;
    }
    assert out + [] == out;
  }

  lemma StoredNothing(chanPwr: seq<ChanPwr>)
    ensures Stored(chanPwr, [], chanPwr)
  {
  }

  lemma ParseStep(sbs: seq<SubBand>, last: nat, room: nat, tab: seq<nat>, band: nat)
    ensures sbs == [] ==> ParseFrom(sbs, last, room, tab, band) == []
    ensures sbs != [] && sbs[0].firstChan <= last ==>
              ParseFrom(sbs, last, room, tab, band) == ParseFrom(sbs[1..], last, room, tab, band)
    ensures sbs != [] && sbs[0].firstChan > last ==>
              var out := Expand(sbs[0], 0, room, tab, band);
              && |out| <= room
              && ParseFrom(sbs, last, room, tab, band)
                   == out + ParseFrom(sbs[1..], LastChan(last, out), room - |out|, tab, band)
  {
    hide Expand;
    if sbs != [] {
      ExpandShort(sbs[0], 0, room, tab, band);
    }
  }

  /** Skips a sub-band that starts at or before the last channel read; reads any other. */
  method ParseNext(
    sb: SubBand, lastChan: nat, band: nat, regionChan: array<ChanPwr>, noOfChan: nat,
    ghost done: seq<ChanPwr>, ghost was: seq<ChanPwr>, ghost rest: seq<SubBand>)
    returns (end: nat, last: nat, ghost done': seq<ChanPwr>)
    requires regionChan.Length == MAX_NO_OF_CHAN && noOfChan == |done| && Stored(regionChan[..], done, was)
    modifies regionChan
    ensures end == |done'| && Stored(regionChan[..], done', was)
    ensures done + ParseFrom([sb] + rest, lastChan, MAX_NO_OF_CHAN - noOfChan, Channels(band), band)
         == done' + ParseFrom(rest, last, MAX_NO_OF_CHAN - end, Channels(band), band)
  {
    hide Expand, Channels, ParseFrom, Stored;
    StoredFits(regionChan[..], done, was);
    ParseStep([sb] + rest, lastChan, MAX_NO_OF_CHAN - noOfChan, Channels(band), band);
    assert ([sb] + rest)[1..] == rest;
    end, last, done' := noOfChan, lastChan, done;
    if sb.firstChan > lastChan {
      var l;
      ghost var out;
      end, l, out := ParseSubBand(sb, band, regionChan, noOfChan, done, was);
      if end > noOfChan {
        last := l;
      }
      ghost var more := ParseFrom(rest, last, MAX_NO_OF_CHAN - end, Channels(band), band);
      assert done + (out + more) == (done + out) + more;
      done' := done + out;
    }
  }

  /** Reads the country information of a BSS into a channel table. */
  method ParseDomainInfo(info: CountryInfo, band: nat, regionChan: array<ChanPwr>) returns (ok: bool, noOfChan: nat)
    requires regionChan.Length == MAX_NO_OF_CHAN && Complete(info)
    modifies regionChan
    ensures ok <==> Parse(info, band).Some?
    ensures !ok ==> noOfChan == 0 && regionChan[..] == old(regionChan[..])
    ensures ok ==> noOfChan == |Parse(info, band).value|
    ensures ok ==> Stored(regionChan[..], Parse(info, band).value, old(regionChan[..]))
  {
    hide Channels, ParseFrom, Stored;
    if info.country0 == 0 || info.len <= COUNTRY_CODE_LEN {
      return false, 0;
    }
    StoredNothing(regionChan[..]);
    var noOfSubBand, lastChan := (info.len - COUNTRY_CODE_LEN) / 3, 0;
    ghost var sbs, was, done := info.subBand[..noOfSubBand], regionChan[..], [];
    ghost var all := ParseFrom(sbs, 0, MAX_NO_OF_CHAN, Channels(band), band);
    noOfChan := 0;
    assert sbs[0..] == sbs;
    for j := 0 to noOfSubBand
      invariant noOfChan == |done| <= MAX_NO_OF_CHAN && Stored(regionChan[..], done, was)
      invariant all == done + ParseFrom(sbs[j..], lastChan, MAX_NO_OF_CHAN - noOfChan, Channels(band), band)
    {
      assert sbs[j..] == [info.subBand[j]] + sbs[j + 1..];
      noOfChan, lastChan, done := ParseNext(info.subBand[j], lastChan, band, regionChan, noOfChan, done, was,
          sbs[j + 1..]);
      StoredFits(regionChan[..], done, was);
    }
    ParseStep(sbs[noOfSubBand..], lastChan, MAX_NO_OF_CHAN - noOfChan, Channels(band), band);
    assert done + [] == done;
    ok := true;
  }

  lemma StoredFits(chanPwr: seq<ChanPwr>, out: seq<ChanPwr>, was: seq<ChanPwr>)
    requires Stored(chanPwr, out, was)
    ensures |out| <= |chanPwr|
  {
  }
}
