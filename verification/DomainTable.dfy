/** The channel table merged over a scan: one update per BSS, a merge of its country information, and a
    final sort, with what every scan keeps. */
module DomainTable {
  import opened Basics
  import opened DomainCodec
  import opened DomainProperties

  type Chans = seq<ChanPwr>

  predicate SameChan(c: ChanPwr, chan: nat, band: nat) {
    c.chan == chan && c.band == band
  }

  /** First entry of a channel and band; |list| when there is none. */
  function FindChan(list: Chans, chan: nat, band: nat): (i: nat)
    ensures i <= |list|
    ensures i < |list| ==> SameChan(list[i], chan, band)
    ensures forall j :: 0 <= j < i ==> !SameChan(list[j], chan, band)
  {
    if list == [] || SameChan(list[0], chan, band) then 0 else 1 + FindChan(list[1..], chan, band)
  }

  // ---------------------------------------------------------------- steps on values

  /** A BSS was seen on a channel. */
  function Seen(list: Chans, chan: nat, band: nat, txPower: nat): Chans {
    var i := FindChan(list, chan, band);
    if i < |list| then list[i := list[i].(pwr := Min(list[i].pwr, txPower), apSeen := true)]
    else if |list| < MAX_NO_OF_CHAN then list + [ChanPwr(chan, band, txPower, true)]
    else list
  }

  /** One entry of country information: new power for a known channel, else a new entry while there is
      room. The search looks at the entries known before the merge only. */
  datatype Merging = Merging(known: Chans, added: Chans)

  function MergeOne(m: Merging, c: ChanPwr): Merging {
    var i := FindChan(m.known, c.chan, c.band);
    if i < |m.known| then m.(known := m.known[i := m.known[i].(pwr := c.pwr)])
    else if |m.known| + |m.added| < MAX_NO_OF_CHAN then m.(added := m.added + [c.(apSeen := false)])
    else m
  }

  function MergeAll(m: Merging, cs: Chans): Merging {
    if cs == [] then m else MergeOne(MergeAll(m, cs[..|cs| - 1]), cs[|cs| - 1])
  }

  function Merged(list: Chans, cs: Chans): Chans {
    if list == [] then cs else
      var m := MergeAll(Merging(list, []), cs);
      m.known + m.added
  }

  /** A BSS of the scan table: its channel, band, the power the driver allows there (0: not a channel of
      the region), and its country information. */
  datatype Bss = Bss(chan: nat, band: nat, txPower: nat, info: CountryInfo)

  function AddBss(list: Chans, b: Bss): Chans
    requires Complete(b.info)
  {
    var seen := if b.txPower == 0 then list else Seen(list, b.chan, b.band, b.txPower);
    var country := Parse(b.info, b.band);
    if country.None? then seen else Merged(seen, country.value)
  }

  predicate AllComplete(bsses: seq<Bss>) {
    forall i :: 0 <= i < |bsses| ==> Complete(bsses[i].info)
  }

  function AddAll(list: Chans, bsses: seq<Bss>): Chans
    requires AllComplete(bsses)
  {
    if bsses == [] then list else AddBss(AddAll(list, bsses[..|bsses| - 1]), bsses[|bsses| - 1])
  }

  /** Inserts behind every entry that is not above it. */
  function Insert(s: Chans, c: ChanPwr): Chans {
    if s == [] || s[|s| - 1].chan <= c.chan then s + [c]
    else Insert(s[..|s| - 1], c) + [s[|s| - 1]]
  }

  function Sorted(list: Chans): Chans {
    if list == [] then [] else Insert(Sorted(list[..|list| - 1]), list[|list| - 1])
  }

  // ---------------------------------------------------------------- what every scan keeps

  /** At most one entry for a channel and band. */
  predicate OneEntry(list: Chans) {
    forall i, j :: 0 <= i < j < |list| ==> !SameChan(list[j], list[i].chan, list[i].band)
  }

  predicate GoodTable(list: Chans) {
    OneEntry(list) && |list| <= MAX_NO_OF_CHAN
  }

  lemma MergedOfNothing()
    ensures forall cs :: Merged([], cs) == cs
  {
  }

  lemma SeenGood(list: Chans, chan: nat, band: nat, txPower: nat)
    requires GoodTable(list)
    ensures GoodTable(Seen(list, chan, band, txPower))
  {
  }

  /** State of a merge of rising entries of one band, k of them done. */
  ghost predicate MergeGood(m: Merging, cs: Chans, k: nat) {
    && k <= |cs| && OneEntry(m.known + m.added) && |m.known + m.added| <= MAX_NO_OF_CHAN
    && (k < |cs| ==> forall j :: 0 <= j < |m.added| ==> m.added[j].chan < cs[k].chan)
  }

  lemma MergeOneGood(m: Merging, cs: Chans, k: nat, band: nat)
    requires k < |cs| && MergeGood(m, cs, k) && RisingChans(cs) && OfBand(cs, band)
    ensures MergeGood(MergeOne(m, cs[k]), cs, k + 1)
  {
    hide FindChan, OneEntry;
    var c := cs[k];
    var i := FindChan(m.known, c.chan, c.band);
    if i < |m.known| {
      SameKeysGood(m.known + m.added, m.known[i := m.known[i].(pwr := c.pwr)] + m.added);
    } else if |m.known| + |m.added| < MAX_NO_OF_CHAN {
      NewKeyGood(m, c.(apSeen := false));
    }
  }

  lemma SameKeysGood(a: Chans, b: Chans)
    requires OneEntry(a) && |a| == |b| && forall j :: 0 <= j < |a| ==> SameChan(b[j], a[j].chan, a[j].band)
    ensures OneEntry(b)
  {
  }

  lemma NewKeyGood(m: Merging, c: ChanPwr)
    requires OneEntry(m.known + m.added) && forall j :: 0 <= j < |m.known| ==> !SameChan(m.known[j], c.chan, c.band)
    requires forall j :: 0 <= j < |m.added| ==> m.added[j].chan < c.chan
    ensures OneEntry(m.known + (m.added + [c]))
  {
    var a, b := m.known + m.added, m.known + (m.added + [c]);
    assert b == a + [c];
    assert forall j :: |m.known| <= j < |a| ==> a[j] == m.added[j - |m.known|];
    assert forall j :: 0 <= j < |m.known| ==> a[j] == m.known[j];
  }

  lemma {:induction false} MergeAllGood(list: Chans, cs: Chans, k: nat, band: nat)
    requires k <= |cs| && GoodTable(list) && RisingChans(cs) && OfBand(cs, band)
    ensures MergeGood(MergeAll(Merging(list, []), cs[..k]), cs, k)
  {
    if k == 0 {
      assert list + [] == list;
    } else {
      MergeAllGood(list, cs, k - 1, band);
      assert cs[..k][..k - 1] == cs[..k - 1];
      MergeOneGood(MergeAll(Merging(list, []), cs[..k - 1]), cs, k - 1, band);
    }
  }

  lemma MergedGood(list: Chans, cs: Chans, band: nat)
    requires GoodTable(list) && RisingChans(cs) && OfBand(cs, band) && |cs| <= MAX_NO_OF_CHAN
    ensures GoodTable(Merged(list, cs))
  {
    if list != [] {
      MergeAllGood(list, cs, |cs|, band);
      assert cs[..|cs|] == cs;
    }
  }

  lemma AddBssGood(list: Chans, b: Bss)
    requires GoodTable(list) && Complete(b.info)
    ensures GoodTable(AddBss(list, b))
  {
    hide Parse, Merged, Seen;
    SeenGood(list, b.chan, b.band, b.txPower);
    if Parse(b.info, b.band).Some? {
      ParseRises(b.info, b.band);
      MergedGood(if b.txPower == 0 then list else Seen(list, b.chan, b.band, b.txPower), Parse(b.info, b.band).value,
          b.band);
    }
  }

  /** Whatever a scan contains, the table has at most one entry for a channel and band and at most 40
      entries. */
  lemma {:induction false} AddAllGood(list: Chans, bsses: seq<Bss>)
    requires GoodTable(list) && AllComplete(bsses)
    ensures GoodTable(AddAll(list, bsses))
  {
    if bsses != [] {
      hide AddBss;
      AddAllGood(list, bsses[..|bsses| - 1]);
      AddBssGood(AddAll(list, bsses[..|bsses| - 1]), bsses[|bsses| - 1]);
    }
  }

  // ---------------------------------------------------------------- the sort

  predicate Ascends(s: Chans) {
    forall i, j :: 0 <= i < j < |s| ==> s[i].chan <= s[j].chan
  }

  /** Entries of one channel number, in the order they come. */
  function OfChan(s: Chans, chan: nat): Chans {
    if s == [] then [] else OfChan(s[..|s| - 1], chan) + if s[|s| - 1].chan == chan then [s[|s| - 1]] else []
  }

  lemma {:induction false} InsertAscends(s: Chans, c: ChanPwr)
    requires Ascends(s)
    ensures Ascends(Insert(s, c)) && |Insert(s, c)| == |s| + 1
    ensures forall i :: 0 <= i < |Insert(s, c)| ==>
        Insert(s, c)[i].chan <= if s == [] then c.chan else Max(c.chan, s[|s| - 1].chan)
  {
    if s != [] && s[|s| - 1].chan > c.chan {
      InsertAscends(s[..|s| - 1], c);
    }
  }

  lemma {:induction false} InsertPermutes(s: Chans, c: ChanPwr)
    ensures multiset(Insert(s, c)) == multiset(s) + multiset{c}
  {
    if s != [] && s[|s| - 1].chan > c.chan {
      InsertPermutes(s[..|s| - 1], c);
      assert s == s[..|s| - 1] + [s[|s| - 1]];
    }
  }

  lemma {:induction false} InsertKeepsOrder(s: Chans, c: ChanPwr, chan: nat)
    ensures OfChan(Insert(s, c), chan) == OfChan(s, chan) + if c.chan == chan then [c] else []
  {
    if s == [] || s[|s| - 1].chan <= c.chan {
      assert (s + [c])[..|s|] == s;
    } else {
      var front, last := s[..|s| - 1], s[|s| - 1];
      InsertKeepsOrder(front, c, chan);
      var r := Insert(front, c) + [last];
      assert r[..|r| - 1] == Insert(front, c);
    }
  }

  lemma SortedFirst(list: Chans)
    ensures list == [] ==> Sorted(list) == []
    ensures list != [] ==> Sorted(list[..1]) == list[..1]
  {
    if list != [] {
      assert list[..1] == [list[0]] && [list[0]][..0] == [];
    }
  }

  lemma SortedNext(list: Chans, i: nat)
    requires i < |list|
    ensures Sorted(list[..i + 1]) == Insert(Sorted(list[..i]), list[i])
  {
    hide Insert;
    assert list[..i + 1][..i] == list[..i];
  }

  lemma {:induction false} SortedAscends(list: Chans)
    ensures Ascends(Sorted(list))
  {
    if list != [] {
      hide Insert, Ascends;
      SortedAscends(list[..|list| - 1]);
      InsertAscends(Sorted(list[..|list| - 1]), list[|list| - 1]);
    }
  }

  lemma LastApart(list: Chans)
    requires list != []
    ensures multiset(list) == multiset(list[..|list| - 1]) + multiset{list[|list| - 1]}
  {
    assert list == list[..|list| - 1] + [list[|list| - 1]];
  }

  lemma {:induction false} SortedPermutes(list: Chans)
    ensures multiset(Sorted(list)) == multiset(list)
  {
    if list != [] {
      hide Insert;
      SortedPermutes(list[..|list| - 1]);
      InsertPermutes(Sorted(list[..|list| - 1]), list[|list| - 1]);
      LastApart(list);
    }
  }

  lemma {:induction false} SortedKeepsOrder(list: Chans, chan: nat)
    ensures OfChan(Sorted(list), chan) == OfChan(list, chan)
  {
    if list != [] {
      hide Insert;
      SortedKeepsOrder(list[..|list| - 1], chan);
      InsertKeepsOrder(Sorted(list[..|list| - 1]), list[|list| - 1], chan);
    }
  }

  /** The sort gives the same entries in ascending order of channel, entries of one channel number in
      the order they had. */
  lemma SortedSorts(list: Chans, chan: nat)
    ensures Ascends(Sorted(list)) && multiset(Sorted(list)) == multiset(list)
    ensures OfChan(Sorted(list), chan) == OfChan(list, chan)
  {
    hide Sorted, OfChan;
    SortedAscends(list);
    SortedPermutes(list);
    SortedKeepsOrder(list, chan);
  }

  // ---------------------------------------------------------------- the table in place

  const ZERO_CHAN := ChanPwr(0, 0, 0, false)

  class ParsedRegionChan {
    const chanPwr: array<ChanPwr>
    var noOfChan: nat

    predicate Valid()
      reads this
    {
      noOfChan <= chanPwr.Length == MAX_NO_OF_CHAN
    }

    function Chans(): Chans
      requires Valid()
      reads this, chanPwr
    {
      chanPwr[..noOfChan]
    }

    constructor ()
      ensures Valid() && Chans() == [] && fresh(chanPwr)
    {
      chanPwr := new ChanPwr[MAX_NO_OF_CHAN](i => ZERO_CHAN);
      noOfChan := 0;
    }

    method Find(chan: nat, band: nat) returns (i: nat)
      requires Valid()
      ensures i == FindChan(Chans(), chan, band)
    {
      i := 0;
      while i < noOfChan && i < MAX_NO_OF_CHAN && !(chanPwr[i].chan == chan && chanPwr[i].band == band)
        invariant i <= noOfChan && forall j :: 0 <= j < i ==> !SameChan(Chans()[j], chan, band)
      {
        i := i + 1;
      }
    }

    /** Notes the channel of a BSS; a channel without a power for the region is refused. */
    method UpdateChanPwrTable(chan: nat, band: nat, txPower: nat) returns (ok: bool)
      requires Valid()
      modifies this, chanPwr
      ensures Valid() && ok == (txPower != 0)
      ensures Chans() == if ok then Seen(old(Chans()), chan, band, txPower) else old(Chans())
    {
      if txPower == 0 {
        return false;
      }
      var i := Find(chan, band);
      if i < noOfChan {
        chanPwr[i] := chanPwr[i].(pwr := Min(chanPwr[i].pwr, txPower), apSeen := true);
      } else if i < MAX_NO_OF_CHAN {
        chanPwr[i] := ChanPwr(chan, band, txPower, true);
        noOfChan := noOfChan + 1;
      }
      ok := true;
    }

    /** Merges entry c; `added` entries of this merge lie behind the table already. */
    method MergeEntry(c: ChanPwr, added: nat, ghost m: Merging) returns (added': nat)
      requires Valid() && noOfChan + added <= MAX_NO_OF_CHAN
      requires m == Merging(chanPwr[..noOfChan], chanPwr[noOfChan..noOfChan + added])
      modifies chanPwr
      ensures noOfChan + added' <= MAX_NO_OF_CHAN
      ensures MergeOne(m, c) == Merging(chanPwr[..noOfChan], chanPwr[noOfChan..noOfChan + added'])
    {
      added' := added;
      var j := Find(c.chan, c.band);
      if j < noOfChan {
        chanPwr[j] := chanPwr[j].(pwr := c.pwr);
      } else if j + added < MAX_NO_OF_CHAN {
        chanPwr[noOfChan + added] := ChanPwr(c.chan, c.band, c.pwr, false);
        added' := added + 1;
      }
    }

    /** Merges the first n entries of `region`, in order. */
    method MergeRegion(region: array<ChanPwr>, n: nat)
      requires Valid() && region != chanPwr && n <= region.Length && noOfChan != 0
      modifies this, chanPwr
      ensures Valid() && Chans() == Merged(old(Chans()), region[..n])
    {
      hide MergeOne;
      ghost var list, cs := Chans(), region[..n];
      var added := 0;
      for i := 0 to n
        invariant noOfChan + added <= MAX_NO_OF_CHAN && region[..n] == cs
        invariant MergeAll(Merging(list, []), cs[..i])
             == Merging(chanPwr[..noOfChan], chanPwr[noOfChan..noOfChan + added])
        modifies chanPwr
      {
        assert cs[..i + 1][..i] == cs[..i] && region[..n][i] == cs[i];
        added := MergeEntry(region[i], added, MergeAll(Merging(list, []), cs[..i]));
      }
      assert cs[..n] == cs;
      assert chanPwr[..noOfChan + added] == chanPwr[..noOfChan] + chanPwr[noOfChan..noOfChan + added];
      noOfChan := noOfChan + added;
    }

    /** Merges the country information of a BSS; the first one is taken over as it is. */
    method ProcessCountryInfo(info: CountryInfo, band: nat) returns (ok: bool)
      requires Valid() && Complete(info)
      modifies this, chanPwr
      ensures Valid() && ok == Parse(info, band).Some?
      ensures Chans() == if ok then Merged(old(Chans()), Parse(info, band).value) else old(Chans())
    {
      hide Parse, Merged;
      MergedOfNothing();
      var region := new ChanPwr[MAX_NO_OF_CHAN](i => ZERO_CHAN);
      var n;
      ok, n := ParseDomainInfo(info, band, region);
      if !ok {
        return;
      }
      ParseRises(info, band);
      ghost var cs := Parse(info, band).value;
      assert region[..n] == cs;
      if noOfChan != 0 {
        MergeRegion(region, n);
      } else {
        forall i | 0 <= i < MAX_NO_OF_CHAN {
          chanPwr[i] := region[i];
        }
        noOfChan := n;
      }
    }

    /** Shifts entry i down to its place among the sorted ones before it. */
    method InsertAt(i: nat)
      requires Valid() && i < noOfChan
      modifies chanPwr
      ensures chanPwr[..i + 1] == Insert(old(chanPwr[..i]), old(chanPwr[i]))
      ensures forall k :: i < k < chanPwr.Length ==> chanPwr[k] == old(chanPwr[k])
    {
      hide Insert;
      ghost var s := chanPwr[..i];
      var temp := chanPwr[i];
      var j := i;
      while j > 0 && chanPwr[j - 1].chan > temp.chan
        invariant j <= i
        invariant forall k :: 0 <= k < j ==> chanPwr[k] == s[k]
        invariant forall k :: j < k <= i ==> chanPwr[k] == s[k - 1]
        invariant forall k :: j <= k < i ==> s[k].chan > temp.chan
        invariant forall k :: i < k < chanPwr.Length ==> chanPwr[k] == old(chanPwr[k])
      {
        chanPwr[j] := chanPwr[j - 1];
        j := j - 1;
      }
      chanPwr[j] := temp;
      InsertPlace(s, temp, j);
      ShiftedIsInserted(chanPwr[..i + 1], s, temp, j);
    }

    /** Sorts the table by channel, in place. */
    method SortParsedRegionChan()
      requires Valid()
      modifies chanPwr
      ensures Valid() && Chans() == Sorted(old(Chans()))
    {
      hide Insert, Sorted;
      ghost var list := Chans();
      SortedFirst(list);
      if noOfChan == 0 {
        return;
      }
      for i := 1 to noOfChan
        invariant chanPwr[..i] == Sorted(list[..i])
        invariant forall k :: i <= k < noOfChan ==> chanPwr[k] == list[k]
      {
        SortedNext(list, i);
        InsertAt(i);
      }
      assert list[..noOfChan] == list;
    }

    /** Folds a scan table into the channel table and sorts it. */
    method PrepareDomainInfo(bsses: seq<Bss>)
      requires Valid() && AllComplete(bsses)
      modifies this, chanPwr
      ensures Valid() && Chans() == if bsses == [] then old(Chans()) else Sorted(AddAll(old(Chans()), bsses))
    {
      if bsses == [] {
        return;
      }
      ghost var list := Chans();
      assert bsses[..0] == [];
      for i := 0 to |bsses|
        invariant Valid() && Chans() == AddAll(list, bsses[..i])
      {
        var b := bsses[i];
        assert bsses[..i + 1][..i] == bsses[..i];
        var ok := UpdateChanPwrTable(b.chan, b.band, b.txPower);
        if b.info.country0 != 0 && b.info.len > COUNTRY_CODE_LEN {
          ok := ProcessCountryInfo(b.info, b.band);
        }
      }
      assert bsses[..|bsses|] == bsses;
      SortParsedRegionChan();
    }
  }

  /** Where insertion puts an entry. */
  lemma {:induction false} InsertPlace(s: Chans, c: ChanPwr, j: nat)
    requires j <= |s| && (j > 0 ==> s[j - 1].chan <= c.chan) && forall k :: j <= k < |s| ==> s[k].chan > c.chan
    ensures Insert(s, c) == s[..j] + [c] + s[j..]
  {
    if j < |s| {
      InsertPlace(s[..|s| - 1], c, j);
      SplitBehind(s, c, j);
    } else {
      assert s[..j] == s && s[j..] == [];
    }
  }

  lemma SplitBehind(s: Chans, c: ChanPwr, j: nat)
    requires j < |s|
    ensures var front := s[..|s| - 1];
            (front[..j] + [c] + front[j..]) + [s[|s| - 1]] == s[..j] + [c] + s[j..]
  {
    var front, last := s[..|s| - 1], s[|s| - 1];
    assert front[..j] == s[..j] && front[j..] + [last] == s[j..];
  }

  lemma ShiftedIsInserted(t: Chans, s: Chans, c: ChanPwr, j: nat)
    requires j <= |s| && |t| == |s| + 1 && t[j] == c
    requires forall k :: 0 <= k < j ==> t[k] == s[k]
    requires forall k :: j < k < |t| ==> t[k] == s[k - 1]
    ensures t == s[..j] + [c] + s[j..]
  {
    assert forall k :: j < k < |t| ==> (s[..j] + [c] + s[j..])[k] == s[k - 1];
  }

  /** What a whole scan leaves: one entry for a channel and band, at most 40, in ascending order. */
  lemma ScanResult(list: Chans, bsses: seq<Bss>)
    requires GoodTable(list) && AllComplete(bsses)
    ensures var r := Sorted(AddAll(list, bsses));
            GoodTable(r) && Ascends(r) && multiset(r) == multiset(AddAll(list, bsses))
  {
    var l := AddAll(list, bsses);
    AddAllGood(list, bsses);
    SortedSorts(l, 0);
    OneEntryOfMultiset(l, Sorted(l));
  }

  lemma OneEntryOfMultiset(a: Chans, b: Chans)
    requires OneEntry(a) && multiset(a) == multiset(b)
    ensures OneEntry(b) && |a| == |b|
  {
    assert |a| == |multiset(a)| == |multiset(b)| == |b|;
    forall i, j | 0 <= i < j < |b| ensures !SameChan(b[j], b[i].chan, b[i].band) {
      if SameChan(b[j], b[i].chan, b[i].band) {
        assert b[i] in multiset(b) && b[j] in multiset(b);
        OneValue(a, b[i], b[j]);
        TwiceIn(b, i, j);
        OnceIn(a, b[i]);
      }
    }
  }

  lemma OneValue(s: Chans, c: ChanPwr, d: ChanPwr)
    requires OneEntry(s) && c in s && d in s && SameChan(d, c.chan, c.band)
    ensures c == d
  {
    var x :| 0 <= x < |s| && s[x] == c;
    var y :| 0 <= y < |s| && s[y] == d;
  }

  lemma TwiceIn(s: Chans, i: nat, j: nat)
    requires i < j < |s| && s[i] == s[j]
    ensures multiset(s)[s[i]] >= 2
  {
    assert s == s[..j] + [s[j]] + s[j + 1..];
    assert s[i] in multiset(s[..j]);
    assert multiset(s)[s[i]] >= multiset(s[..j])[s[i]] + 1;
  }

  lemma {:induction false} OnceIn(s: Chans, c: ChanPwr)
    requires OneEntry(s)
    ensures multiset(s)[c] <= 1
  {
    if s != [] {
      var front, last := s[..|s| - 1], s[|s| - 1];
      assert s == front + [last];
      OnceIn(front, c);
      if last == c {
        assert c !in front;
      }
    }
  }
}
