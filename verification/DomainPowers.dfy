/** What the steps of a scan mean for each channel: the power allowed on it and its mark for APs seen. */
module DomainPowers {
  import opened Basics
  import opened DomainCodec
  import opened DomainProperties
  import opened DomainTable

  /** What a table says of a channel of a band, if it has it. */
  function ChanOf(list: Chans, chan: nat, band: nat): Option<ChanPwr> {
    var i := FindChan(list, chan, band);
    if i < |list| then Some(list[i]) else None
  }

  function OrElse<T>(a: Option<T>, b: Option<T>): Option<T> {
    if a.Some? then a else b
  }

  /** The entry of a channel after a BSS was seen there. */
  function Lowered(was: Option<ChanPwr>, chan: nat, band: nat, txPower: nat): ChanPwr {
    if was.Some?
    then was.value.(pwr := if txPower < was.value.pwr then txPower else was.value.pwr, apSeen := true)
    else ChanPwr(chan, band, txPower, true)
  }

  /** The entry of a channel after country information was read that says `says` of it. */
  function Ruled(was: Option<ChanPwr>, says: Option<ChanPwr>): Option<ChanPwr> {
    if was.Some? && says.Some? then Some(was.value.(pwr := says.value.pwr)) else OrElse(was, says)
  }

  lemma FindInFront(a: Chans, d: Chans, chan: nat, band: nat)
    ensures FindChan(a + d, chan, band)
         == if FindChan(a, chan, band) < |a| then FindChan(a, chan, band) else |a| + FindChan(d, chan, band)
  {
    var i, j, k := FindChan(a, chan, band), FindChan(d, chan, band), FindChan(a + d, chan, band);
    if i < |a| {
      assert (a + d)[i] == a[i];
    } else {
      assert j < |d| ==> (a + d)[|a| + j] == d[j];
      assert |a| <= k < |a| + |d| ==> (a + d)[k] == d[k - |a|];
    }
  }

  lemma ChanConcat(a: Chans, d: Chans, chan: nat, band: nat)
    ensures ChanOf(a + d, chan, band) == OrElse(ChanOf(a, chan, band), ChanOf(d, chan, band))
  {
    FindInFront(a, d, chan, band);
  }

  lemma ChanOfOne(e: ChanPwr, chan: nat, band: nat)
    ensures ChanOf([e], chan, band) == if SameChan(e, chan, band) then Some(e) else None
  {
  }

  /** Changing an entry changes what is said of its channel only. */
  lemma ChanUpdate(a: Chans, e: ChanPwr, c: nat, b: nat)
    requires FindChan(a, e.chan, e.band) < |a|
    ensures ChanOf(a[FindChan(a, e.chan, e.band) := e], c, b) == if SameChan(e, c, b) then Some(e) else ChanOf(a, c, b)
  {
    var i := FindChan(a, e.chan, e.band);
    var n := a[i := e];
    var j, k := FindChan(a, c, b), FindChan(n, c, b);
    assert forall m :: 0 <= m < |a| ==> SameChan(n[m], c, b) == SameChan(a[m], c, b);
    assert j < |a| ==> SameChan(n[j], c, b);
    assert j == k;
    if SameChan(e, c, b) {
      assert SameChan(a[i], c, b);
    }
  }

  /** Seeing a BSS lowers the power of its channel to the one allowed there and marks it, or adds the channel with
      that power and mark while there is room; no other channel changes. */
  lemma SeenLowers(list: Chans, chan: nat, band: nat, txPower: nat, c: nat, b: nat)
    ensures ChanOf(Seen(list, chan, band, txPower), c, b)
         == if !(c == chan && b == band) then ChanOf(list, c, b)
            else if ChanOf(list, c, b).Some? || |list| < MAX_NO_OF_CHAN then
              Some(Lowered(ChanOf(list, c, b), chan, band, txPower))
            else None
  {
    var i := FindChan(list, chan, band);
    if i < |list| {
      var e := list[i].(pwr := Min(list[i].pwr, txPower), apSeen := true);
      ChanUpdate(list, e, c, b);
    } else if |list| < MAX_NO_OF_CHAN {
      var e := ChanPwr(chan, band, txPower, true);
      ChanConcat(list, [e], c, b);
      ChanOfOne(e, c, b);
    }
  }

  // ---------------------------------------------------------------- merging

  predicate NoMarks(cs: Chans) {
    forall i :: 0 <= i < |cs| ==> !cs[i].apSeen
  }

  /** What is said after the first k entries of a reading were merged into a table; `fits`: there was room for every
      new one. */
  ghost predicate MergedChans(m: Merging, list: Chans, cs: Chans, k: nat, fits: bool, c: nat, b: nat)
    requires k <= |cs|
  {
    var was, new_ := ChanOf(list, c, b), ChanOf(cs[..k], c, b);
    && |m.known| == |list| && |m.added| <= k
    && ChanOf(m.known, c, b) == (if was.Some? then Ruled(was, new_) else None)
    && (ChanOf(m.added, c, b) == None || (was.None? && ChanOf(m.added, c, b) == new_))
    && (was.None? && (fits || |list| + k <= MAX_NO_OF_CHAN) ==> ChanOf(m.added, c, b) == new_)
  }

  /** A rising reading has a channel once. */
  lemma NotBefore(cs: Chans, k: nat, c: nat, b: nat)
    requires RisingChans(cs) && k < |cs| && SameChan(cs[k], c, b)
    ensures ChanOf(cs[..k], c, b) == None
  {
    HasChan(cs[..k], c, b);
  }

  lemma ChanSnoc(cs: Chans, k: nat, c: nat, b: nat)
    requires k < |cs|
    ensures ChanOf(cs[..k + 1], c, b)
         == OrElse(ChanOf(cs[..k], c, b), if SameChan(cs[k], c, b) then Some(cs[k]) else None)
  {
    assert cs[..k + 1] == cs[..k] + [cs[k]];
    ChanConcat(cs[..k], [cs[k]], c, b);
    ChanOfOne(cs[k], c, b);
  }

  lemma HasChan(list: Chans, c: nat, b: nat)
    ensures ChanOf(list, c, b).Some? <==> FindChan(list, c, b) < |list|
    ensures ChanOf(list, c, b).Some? ==> SameChan(ChanOf(list, c, b).value, c, b)
  {
  }

  /** Room for entry e, if it is new to the table. */
  predicate RoomFor(m: Merging, e: ChanPwr) {
    FindChan(m.known, e.chan, e.band) < |m.known| || |m.known| + |m.added| < MAX_NO_OF_CHAN
  }

  lemma MergeOneChans(m: Merging, list: Chans, cs: Chans, k: nat, fits: bool, c: nat, b: nat)
    requires k < |cs| && RisingChans(cs) && NoMarks(cs) && MergedChans(m, list, cs, k, fits, c, b)
    requires fits ==> RoomFor(m, cs[k])
    ensures MergedChans(MergeOne(m, cs[k]), list, cs, k + 1, fits, c, b)
  {
    hide ChanOf, FindChan, RisingChans;
    var e := cs[k];
    ChanSnoc(cs, k, c, b);
    if SameChan(e, c, b) { NotBefore(cs, k, c, b); }
    HasChan(m.known, e.chan, e.band);
    HasChan(m.known, c, b);
    var i := FindChan(m.known, e.chan, e.band);
    if i < |m.known| {
      ChanUpdate(m.known, m.known[i].(pwr := e.pwr), c, b);
      FoundAt(m.known, e.chan, e.band);
    } else if |m.known| + |m.added| < MAX_NO_OF_CHAN {
      ChanConcat(m.added, [e], c, b);
      ChanOfOne(e, c, b);
      assert e.(apSeen := false) == e;
    }
  }

  lemma FoundAt(list: Chans, c: nat, b: nat)
    ensures var i := FindChan(list, c, b); i < |list| ==> ChanOf(list, c, b) == Some(list[i]) && SameChan(list[i], c, b)
  {
  }

  /** There is room for each entry of a reading when its turn comes. */
  ghost predicate RoomForAll(list: Chans, cs: Chans) {
    forall j :: 0 <= j < |cs| ==> RoomFor(MergeAll(Merging(list, []), cs[..j]), cs[j])
  }

  lemma MergedNone(list: Chans, cs: Chans, fits: bool, c: nat, b: nat)
    ensures cs[..0] == [] && MergedChans(Merging(list, []), list, cs, 0, fits, c, b)
  {
    NothingThere(c, b);
  }

  lemma {:induction false} MergeAllChans(list: Chans, cs: Chans, k: nat, fits: bool, c: nat, b: nat)
    requires k <= |cs| && RisingChans(cs) && NoMarks(cs) && (fits ==> RoomForAll(list, cs))
    ensures MergedChans(MergeAll(Merging(list, []), cs[..k]), list, cs, k, fits, c, b)
  {
    hide MergeOne, MergedChans, RisingChans, NoMarks, RoomFor, RoomForAll;
    if k == 0 {
      MergedNone(list, cs, fits, c, b);
    } else {
      MergeAllChans(list, cs, k - 1, fits, c, b);
      assert cs[..k][..k - 1] == cs[..k - 1];
      if fits { RoomAt(list, cs, k - 1); }
      MergeOneChans(MergeAll(Merging(list, []), cs[..k - 1]), list, cs, k - 1, fits, c, b);
    }
  }

  lemma RoomAt(list: Chans, cs: Chans, k: nat)
    requires RoomForAll(list, cs) && k < |cs|
    ensures RoomFor(MergeAll(Merging(list, []), cs[..k]), cs[k])
  {
  }

  /** What merging a reading does to a channel. */
  lemma MergedSays(list: Chans, cs: Chans, fits: bool, c: nat, b: nat)
    requires RisingChans(cs) && NoMarks(cs) && (fits ==> RoomForAll(list, cs))
    ensures var was, says, r := ChanOf(list, c, b), ChanOf(cs, c, b), ChanOf(Merged(list, cs), c, b);
            && (was.Some? ==> r == Ruled(was, says))
            && (was.None? ==> r == says || r == None)
            && (fits || |list| + |cs| <= MAX_NO_OF_CHAN ==> r == Ruled(was, says))
  {
    hide ChanOf, MergeAll, RisingChans;
    if list == [] {
      NothingThere(c, b);
    } else {
      MergeAllChans(list, cs, |cs|, fits, c, b);
      assert cs[..|cs|] == cs;
      var m := MergeAll(Merging(list, []), cs);
      ChanConcat(m.known, m.added, c, b);
    }
  }

  /** The country information of a BSS decides: a channel it names gets the power it says, a new one without a mark,
      any other channel stays as it is. A channel that is new is lost only when the table is full, never one
      that is known. */
  lemma CountryDecides(list: Chans, cs: Chans, c: nat, b: nat)
    requires RisingChans(cs) && NoMarks(cs)
    ensures var was, says, r := ChanOf(list, c, b), ChanOf(cs, c, b), ChanOf(Merged(list, cs), c, b);
            && (was.Some? ==> r == Ruled(was, says))
            && (was.None? ==> r == says || r == None)
            && (|list| + |cs| <= MAX_NO_OF_CHAN ==> r == Ruled(was, says))
  {
    hide MergeAll, ChanOf, Merged, RisingChans;
    MergedSays(list, cs, false, c, b);
  }

  lemma NothingThere(c: nat, b: nat)
    ensures ChanOf([], c, b) == None
  {
  }
}
