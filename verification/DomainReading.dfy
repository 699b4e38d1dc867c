/** How a country information element is read, one sub-band after the other. */
module DomainReading {
  import opened Basics
  import opened DomainCodec
  import opened DomainProperties

  lemma {:induction false} ExpandLength(sb: SubBand, i: nat, room: nat, tab: seq<nat>, band: nat)
    requires Locate(tab, sb.firstChan) < |tab|
    ensures |Expand(sb, i, room, tab, band)|
         == Max(0, Min(sb.noOfChan - i, Min(|tab| - Locate(tab, sb.firstChan) - i, room)))
    decreases room
  {
    if room > 0 && i < sb.noOfChan && ChanAfter(tab, sb.firstChan, i).Some? {
      ExpandLength(sb, i + 1, room - 1, tab, band);
    }
  }

  lemma LocateRising(tab: seq<nat>, q: nat)
    requires Rising(tab) && q < |tab|
    ensures Locate(tab, tab[q]) == q
  {
  }

  lemma {:induction false} ParseSnoc(sbs: seq<SubBand>, sb: SubBand, last: nat, room: nat, tab: seq<nat>, band: nat)
    ensures var out := ParseFrom(sbs, last, room, tab, band);
            && |out| <= room
            && ParseFrom(sbs + [sb], last, room, tab, band)
               == out + if sb.firstChan <= LastChan(last, out) then [] else Expand(sb, 0, room - |out|, tab, band)
    decreases |sbs|
  {
    hide Expand, ParseFrom;
    ParseStep(sbs, last, room, tab, band);
    ParseStep(sbs + [sb], last, room, tab, band);
    if sbs == [] {
      ParseOne(sb, last, room, tab, band);
      assert [] + [sb] == [sb];
    } else {
      assert (sbs + [sb])[1..] == sbs[1..] + [sb];
      if sbs[0].firstChan <= last {
        ParseSnoc(sbs[1..], sb, last, room, tab, band);
      } else {
        var a := Expand(sbs[0], 0, room, tab, band);
        ParseSnoc(sbs[1..], sb, LastChan(last, a), room - |a|, tab, band);
        var d := ParseFrom(sbs[1..], LastChan(last, a), room - |a|, tab, band);
        assert LastChan(LastChan(last, a), d) == LastChan(last, a + d);
        var e := if sb.firstChan <= LastChan(last, a + d) then [] else Expand(sb, 0, room - |a + d|, tab, band);
        assert a + (d + e) == (a + d) + e;
      }
    }
  }

  lemma ParseOne(sb: SubBand, last: nat, room: nat, tab: seq<nat>, band: nat)
    ensures ParseFrom([], last, room, tab, band) == []
    ensures ParseFrom([sb], last, room, tab, band)
         == if sb.firstChan <= last then [] else Expand(sb, 0, room, tab, band)
  {
    hide Expand;
    ParseStep([sb], last, room, tab, band);
    ParseStep([], last, room, tab, band);
  }

  /** The channels of a band: 1 to 14 when one of the bits for 2.4 GHz is set, the 5 GHz ones when only one for 5 GHz
      is, none otherwise. */
  lemma BandTable(band: nat)
    ensures var bg := band % 2 == 1 || band / 2 % 2 == 1 || band / 8 % 2 == 1 || band / 32 % 2 == 1;
            var a := band / 4 % 2 == 1 || band / 16 % 2 == 1 || band / 64 % 2 == 1;
            && (bg ==> |Channels(band)| == 14 && forall i :: 0 <= i < 14 ==> Channels(band)[i] == i + 1)
            && (!bg && a ==> |Channels(band)| == 35 && Channels(band)[0] == 8 && Channels(band)[34] == 177)
            && (!bg && !a ==> Channels(band) == [])
  {
  }

  /** An element of some country with these sub-bands. */
  function Element(country0: nat, sbs: seq<SubBand>): CountryInfo {
    CountryInfo(country0, 3 + 3 * |sbs|, sbs)
  }

  /** The channels read from sub-bands. */
  function ReadFrom(country0: nat, sbs: seq<SubBand>, band: nat): seq<ChanPwr> {
    var r := Parse(Element(country0, sbs), band);
    if r.None? then [] else r.value
  }

  /** An element without a country or without sub-bands is refused. */
  lemma RefusedElement(info: CountryInfo, band: nat)
    requires Complete(info)
    ensures Parse(info, band).None? <==> info.country0 == 0 || info.len < 4
  {
  }

  /** One more sub-band adds nothing when it starts at or before the last channel read, or at a channel that the band
      does not have; otherwise it adds the channels of the band from its first one on, with its power: as many
      as it says, as the band has, and as there is room for. */
  lemma OneMoreSubBand(country0: nat, sbs: seq<SubBand>, sb: SubBand, band: nat, q: nat)
    requires country0 != 0
    ensures var out, all := ReadFrom(country0, sbs, band), ReadFrom(country0, sbs + [sb], band);
            var tab, last := Channels(band), if out == [] then 0 else out[|out| - 1].chan;
            && |out| <= |all| && all[..|out|] == out
            && (sb.firstChan <= last || sb.firstChan !in tab ==> all == out)
            && (q < |tab| && tab[q] == sb.firstChan && last < sb.firstChan ==>
                  && |all| - |out| == Min(sb.noOfChan, Min(|tab| - q, 40 - |out|))
                  && forall j :: |out| <= j < |all| ==>
                       q + j - |out| < |tab| && all[j] == ChanPwr(tab[q + j - |out|], band, sb.maxTxPwr, false))
  {
    hide Channels, ParseFrom, Expand, Locate, ReadFrom;
    var tab, out := Channels(band), ReadFrom(country0, sbs, band);
    ReadIsParse(country0, sbs, band);
    ReadIsParse(country0, sbs + [sb], band);
    ParseSnoc(sbs, sb, 0, MAX_NO_OF_CHAN, tab, band);
    ExpandFrom(sb, MAX_NO_OF_CHAN - |out|, tab, band);
    ChannelsRise(band);
    if q < |tab| && tab[q] == sb.firstChan {
      ExpandSays(sb, MAX_NO_OF_CHAN - |out|, tab, band, q);
      var more, all := Expand(sb, 0, MAX_NO_OF_CHAN - |out|, tab, band), ReadFrom(country0, sbs + [sb], band);
      if (if out == [] then 0 else out[|out| - 1].chan) < sb.firstChan {
        assert all == out + more;
      }
    }
  }

  lemma ExpandSays(sb: SubBand, room: nat, tab: seq<nat>, band: nat, q: nat)
    requires Rising(tab) && q < |tab| && tab[q] == sb.firstChan
    ensures var more := Expand(sb, 0, room, tab, band);
            && |more| == Min(sb.noOfChan, Min(|tab| - q, room))
            && forall j :: 0 <= j < |more| ==> more[j] == ChanPwr(tab[q + j], band, sb.maxTxPwr, false)
  {
    hide Expand;
    LocateRising(tab, q);
    ExpandLength(sb, 0, room, tab, band);
    ExpandRises(sb, 0, room, tab, band);
    var more := Expand(sb, 0, room, tab, band);
    assert forall j :: 0 <= j < |more| ==> IsAt(more[j], q + j, tab, band, sb.maxTxPwr);
  }

  lemma ReadIsParse(country0: nat, sbs: seq<SubBand>, band: nat)
    requires country0 != 0
    ensures ReadFrom(country0, sbs, band) == ParseFrom(sbs, 0, MAX_NO_OF_CHAN, Channels(band), band)
  {
    hide Channels, ParseFrom;
    if sbs == [] {
      ParseStep([], 0, MAX_NO_OF_CHAN, Channels(band), band);
    } else {
      assert sbs[..|sbs|] == sbs;
    }
  }

  lemma ExpandFrom(sb: SubBand, room: nat, tab: seq<nat>, band: nat)
    ensures sb.firstChan !in tab ==> Expand(sb, 0, room, tab, band) == []
  {
  }
}
