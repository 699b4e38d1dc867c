/** What a whole scan says of each channel: the BSSes decide, in the order they were found. */
module DomainScan {
  import opened Basics
  import opened DomainCodec
  import opened DomainProperties
  import opened DomainTable
  import opened DomainPowers

  /** A channel and its band. */
  type Key = (nat, nat)

  predicate Within(list: Chans, keys: set<Key>) {
    forall i :: 0 <= i < |list| ==> (list[i].chan, list[i].band) in keys
  }

  /** What the country information of a BSS says of a channel. */
  function Says(x: Bss, c: nat, b: nat): Option<ChanPwr>
    requires Complete(x.info)
  {
    if Parse(x.info, x.band).None? then None else ChanOf(Parse(x.info, x.band).value, c, b)
  }

  /** What is said of a channel once the BSSes were seen in turn: one that is on it, where the region allows some power
      on it, lowers or adds it; country information read after that, if it names it, sets its power. */
  function Decided(was: Option<ChanPwr>, bsses: seq<Bss>, c: nat, b: nat): Option<ChanPwr>
    requires AllComplete(bsses)
  {
    if bsses == [] then was else
      var x := bsses[|bsses| - 1];
      var before := Decided(was, bsses[..|bsses| - 1], c, b);
      Ruled(if x.txPower != 0 && x.chan == c && x.band == b then Some(Lowered(before, c, b, x.txPower)) else before,
            Says(x, c, b))
  }

  /** All channels a BSS names are among the keys. */
  predicate Names(x: Bss, keys: set<Key>)
    requires Complete(x.info)
  {
    && (x.txPower != 0 ==> (x.chan, x.band) in keys)
    && (Parse(x.info, x.band).Some? ==> Within(Parse(x.info, x.band).value, keys))
  }

  predicate NamesAll(bsses: seq<Bss>, keys: set<Key>)
    requires AllComplete(bsses)
  {
    forall i :: 0 <= i < |bsses| ==> Names(bsses[i], keys)
  }

  // ---------------------------------------------------------------- room

  /** A table with one entry for a key has no more entries than there are keys, and room for one it lacks. */
  lemma {:induction false} EntriesAreKeys(list: Chans, keys: set<Key>)
    requires OneEntry(list) && Within(list, keys)
    ensures |list| <= |keys|
    decreases |list|
  {
    if list != [] {
      var front, last := list[..|list| - 1], list[|list| - 1];
      var rest := keys - {(last.chan, last.band)};
      assert Within(front, rest) by {
        forall i | 0 <= i < |front| ensures (front[i].chan, front[i].band) in rest {
          assert !SameChan(list[|list| - 1], list[i].chan, list[i].band);
        }
      }
      EntriesAreKeys(front, rest);
    }
  }

  lemma RoomForKey(list: Chans, keys: set<Key>, c: nat, b: nat)
    requires OneEntry(list) && Within(list, keys) && (c, b) in keys && FindChan(list, c, b) == |list|
    ensures |list| < |keys|
  {
    var rest := keys - {(c, b)};
    assert Within(list, rest) by {
      forall i | 0 <= i < |list| ensures (list[i].chan, list[i].band) in rest {
        assert !SameChan(list[i], c, b);
      }
    }
    EntriesAreKeys(list, rest);
  }

  // ---------------------------------------------------------------- merging

  lemma MergeOneWithin(m: Merging, e: ChanPwr, keys: set<Key>)
    requires Within(m.known + m.added, keys) && (e.chan, e.band) in keys
    ensures Within(MergeOne(m, e).known + MergeOne(m, e).added, keys)
  {
    var all, r := m.known + m.added, MergeOne(m, e);
    var out := r.known + r.added;
    assert forall i :: 0 <= i < |m.known| ==> all[i] == m.known[i];
    assert forall i :: 0 <= i < |m.added| ==> all[|m.known| + i] == m.added[i];
    forall i | 0 <= i < |out| ensures (out[i].chan, out[i].band) in keys {
      if i >= |r.known| {
        assert out[i] == r.added[i - |r.known|];
      }
    }
  }

  lemma {:induction false} MergeAllWithin(list: Chans, cs: Chans, k: nat, keys: set<Key>)
    requires k <= |cs| && Within(list, keys) && Within(cs, keys)
    ensures var m := MergeAll(Merging(list, []), cs[..k]); Within(m.known + m.added, keys)
  {
    if k == 0 {
      assert list + [] == list;
    } else {
      hide MergeOne;
      MergeAllWithin(list, cs, k - 1, keys);
      assert cs[..k][..k - 1] == cs[..k - 1];
      MergeOneWithin(MergeAll(Merging(list, []), cs[..k - 1]), cs[k - 1], keys);
    }
  }

  /** While all keys fit, a merge never runs out of room. */
  lemma MergeHasRoom(list: Chans, cs: Chans, j: nat, band: nat, keys: set<Key>)
    requires j < |cs| && GoodTable(list) && RisingChans(cs) && OfBand(cs, band)
    requires Within(list, keys) && Within(cs, keys) && |keys| <= MAX_NO_OF_CHAN
    ensures RoomFor(MergeAll(Merging(list, []), cs[..j]), cs[j])
  {
    hide MergeAll;
    var m, e := MergeAll(Merging(list, []), cs[..j]), cs[j];
    MergeAllGood(list, cs, j, band);
    MergeAllWithin(list, cs, j, keys);
    if FindChan(m.known, e.chan, e.band) == |m.known| {
      NotFound(m.known, m.added, e);
      RoomForKey(m.known + m.added, keys, e.chan, e.band);
    }
  }

  lemma NotFound(a: Chans, d: Chans, e: ChanPwr)
    requires FindChan(a, e.chan, e.band) == |a| && forall i :: 0 <= i < |d| ==> d[i].chan < e.chan
    ensures FindChan(a + d, e.chan, e.band) == |a + d|
  {
    FindInFront(a, d, e.chan, e.band);
  }

  lemma MergedWithin(list: Chans, cs: Chans, keys: set<Key>)
    requires Within(list, keys) && Within(cs, keys)
    ensures Within(Merged(list, cs), keys)
  {
    if list != [] {
      MergeAllWithin(list, cs, |cs|, keys);
      assert cs[..|cs|] == cs;
    }
  }

  lemma SeenWithin(list: Chans, chan: nat, band: nat, txPower: nat, keys: set<Key>)
    requires Within(list, keys) && (chan, band) in keys
    ensures Within(Seen(list, chan, band, txPower), keys)
  {
  }

  // ---------------------------------------------------------------- one BSS

  lemma SeenDecides(list: Chans, x: Bss, keys: set<Key>, c: nat, b: nat)
    requires GoodTable(list) && Within(list, keys) && |keys| <= MAX_NO_OF_CHAN
    requires x.txPower != 0 && (x.chan, x.band) in keys
    ensures ChanOf(Seen(list, x.chan, x.band, x.txPower), c, b)
         == if x.chan == c && x.band == b then Some(Lowered(ChanOf(list, c, b), c, b, x.txPower))
            else ChanOf(list, c, b)
  {
    hide Seen;
    SeenLowers(list, x.chan, x.band, x.txPower, c, b);
    if x.chan == c && x.band == b && ChanOf(list, c, b).None? {
      RoomForKey(list, keys, c, b);
    }
  }

  lemma CountryRules(list: Chans, x: Bss, keys: set<Key>, c: nat, b: nat)
    requires GoodTable(list) && Within(list, keys) && |keys| <= MAX_NO_OF_CHAN
    requires Complete(x.info) && Parse(x.info, x.band).Some? && Within(Parse(x.info, x.band).value, keys)
    ensures var r := Merged(list, Parse(x.info, x.band).value);
            ChanOf(r, c, b) == Ruled(ChanOf(list, c, b), Says(x, c, b)) && Within(r, keys) && GoodTable(r)
  {
    hide Parse, Merged, ChanOf, RoomFor;
    var cs := Parse(x.info, x.band).value;
    ParseRises(x.info, x.band);
    MergedGood(list, cs, x.band);
    MergedWithin(list, cs, keys);
    forall j | 0 <= j < |cs| ensures RoomFor(MergeAll(Merging(list, []), cs[..j]), cs[j]) {
      MergeHasRoom(list, cs, j, x.band, keys);
    }
    MergedSays(list, cs, true, c, b);
  }

  lemma BssDecides(list: Chans, x: Bss, keys: set<Key>, c: nat, b: nat)
    requires GoodTable(list) && Within(list, keys) && |keys| <= MAX_NO_OF_CHAN && Complete(x.info) && Names(x, keys)
    ensures var r, was := AddBss(list, x), ChanOf(list, c, b);
            && GoodTable(r) && Within(r, keys)
            && ChanOf(r, c, b)
               == Ruled(if x.txPower != 0 && x.chan == c && x.band == b then Some(Lowered(was, c, b, x.txPower))
                        else was, Says(x, c, b))
  {
    hide Parse, Merged, Seen, ChanOf, Within, GoodTable;
    var seen := if x.txPower == 0 then list else Seen(list, x.chan, x.band, x.txPower);
    if x.txPower != 0 {
      SeenGood(list, x.chan, x.band, x.txPower);
      SeenWithin(list, x.chan, x.band, x.txPower, keys);
      SeenDecides(list, x, keys, c, b);
    }
    if Parse(x.info, x.band).Some? {
      CountryRules(seen, x, keys, c, b);
    }
  }

  // ---------------------------------------------------------------- whole scans

  lemma {:induction false} AddAllDecides(list: Chans, bsses: seq<Bss>, keys: set<Key>, c: nat, b: nat)
    requires GoodTable(list) && Within(list, keys) && |keys| <= MAX_NO_OF_CHAN
    requires AllComplete(bsses) && NamesAll(bsses, keys)
    ensures var r := AddAll(list, bsses);
            GoodTable(r) && Within(r, keys) && ChanOf(r, c, b) == Decided(ChanOf(list, c, b), bsses, c, b)
  {
    if bsses != [] {
      hide AddBss, ChanOf, Within, GoodTable, Names, Says;
      AddAllDecides(list, bsses[..|bsses| - 1], keys, c, b);
      BssDecides(AddAll(list, bsses[..|bsses| - 1]), bsses[|bsses| - 1], keys, c, b);
    }
  }

  /** Reordering a table changes nothing it says. */
  lemma PermutedSays(a: Chans, d: Chans, c: nat, b: nat)
    requires OneEntry(a) && multiset(a) == multiset(d)
    ensures ChanOf(a, c, b) == ChanOf(d, c, b)
  {
    var i, j := FindChan(a, c, b), FindChan(d, c, b);
    if i < |a| {
      assert a[i] in multiset(d);
    }
    if j < |d| {
      assert d[j] in multiset(a);
      if i < |a| {
        OneValue(a, a[i], d[j]);
      }
    }
  }

  /** What a whole scan leaves, for every table and every scan whose channels fit the table together: of each channel
      the sorted table says what the BSSes decide, in the order they were found. */
  lemma ScanDecides(list: Chans, bsses: seq<Bss>, keys: set<Key>, c: nat, b: nat)
    requires GoodTable(list) && Within(list, keys) && |keys| <= MAX_NO_OF_CHAN
    requires AllComplete(bsses) && NamesAll(bsses, keys)
    ensures ChanOf(Sorted(AddAll(list, bsses)), c, b) == Decided(ChanOf(list, c, b), bsses, c, b)
  {
    hide ChanOf, AddAll, Sorted;
    AddAllDecides(list, bsses, keys, c, b);
    SortedSorts(AddAll(list, bsses), 0);
    PermutedSays(AddAll(list, bsses), Sorted(AddAll(list, bsses)), c, b);
  }

  /** A BSS that neither is on the channel nor names it. */
  predicate Passes(x: Bss, c: nat, b: nat)
    requires Complete(x.info)
  {
    !(x.txPower != 0 && x.chan == c && x.band == b) && Says(x, c, b).None?
  }

  lemma {:induction false} DecidedStays(was: Option<ChanPwr>, bsses: seq<Bss>, c: nat, b: nat, i: nat)
    requires AllComplete(bsses) && i < |bsses| && Says(bsses[i], c, b).Some?
    ensures var r := Decided(was, bsses, c, b);
            && r.Some?
            && ((forall j :: i < j < |bsses| ==> Passes(bsses[j], c, b)) ==>
                  r.value.pwr == Says(bsses[i], c, b).value.pwr)
  {
    hide Says;
    if i < |bsses| - 1 {
      DecidedStays(was, bsses[..|bsses| - 1], c, b, i);
    }
  }

  /** Every channel that some country information of the scan names is in the table afterwards, with the power it says
      unless a later BSS is on the channel or names it. */
  lemma NamedIsThere(list: Chans, bsses: seq<Bss>, keys: set<Key>, c: nat, b: nat, i: nat)
    requires GoodTable(list) && Within(list, keys) && |keys| <= MAX_NO_OF_CHAN
    requires AllComplete(bsses) && NamesAll(bsses, keys)
    requires i < |bsses| && Says(bsses[i], c, b).Some?
    ensures var r := ChanOf(Sorted(AddAll(list, bsses)), c, b);
            && r.Some?
            && ((forall j :: i < j < |bsses| ==> Passes(bsses[j], c, b)) ==>
                  r.value.pwr == Says(bsses[i], c, b).value.pwr)
  {
    hide ChanOf, AddAll, Sorted, Says, Passes;
    ScanDecides(list, bsses, keys, c, b);
    DecidedStays(ChanOf(list, c, b), bsses, c, b, i);
  }

  // ---------------------------------------------------------------- full tables

  /** Whether or not all channels fit, a channel the table has is never lost. */
  lemma {:induction false} NeverLost(list: Chans, bsses: seq<Bss>, c: nat, b: nat)
    requires AllComplete(bsses) && ChanOf(list, c, b).Some?
    ensures ChanOf(AddAll(list, bsses), c, b).Some?
  {
    if bsses != [] {
      hide AddBss, ChanOf;
      NeverLost(list, bsses[..|bsses| - 1], c, b);
      BssLosesNothing(AddAll(list, bsses[..|bsses| - 1]), bsses[|bsses| - 1], c, b);
    }
  }

  lemma BssLosesNothing(list: Chans, x: Bss, c: nat, b: nat)
    requires Complete(x.info) && ChanOf(list, c, b).Some?
    ensures ChanOf(AddBss(list, x), c, b).Some?
  {
    hide Parse, Merged, Seen, ChanOf;
    SeenLowers(list, x.chan, x.band, x.txPower, c, b);
    if Parse(x.info, x.band).Some? {
      ParseRises(x.info, x.band);
      CountryDecides(if x.txPower == 0 then list else Seen(list, x.chan, x.band, x.txPower),
                     Parse(x.info, x.band).value, c, b);
    }
  }
}
