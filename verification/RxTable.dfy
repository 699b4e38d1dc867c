/** The receive block-ack table of one interface: a list of reorder entries, proved to compute the
    steps of TableSpec. */
module RxTable {
  import opened ReorderSpec
  import opened TableSpec
  import TableRuns
  import opened ReorderConservation
  import opened RxReorder

  ghost function EntryOf(t: RxReorderTbl): Entry
    reads t, t.slots
  {
    Entry(t.tid, t.ta, t.setupComplete, t.Abs())
  }

  class RxPrivate {
    var tbls: seq<RxReorderTbl>
    var addbaReject: seq<bool>
    var rxAmsdu: bool
    var rxWinSize: nat
    /** An access point; for a station, whether it is in infrastructure mode and runs a WPS session. */
    const isUap: bool
    const infra: bool
    var wpsSession: bool
    /** The last sequence number seen for each TID, of the interface and of each station. */
    var rxSeq: seq<nat>
    var stations: map<nat, seq<nat>>
    /** The table as a value. */
    ghost var table: Table
    /** The entries and their slot arrays. */
    ghost var repr: set<object>

    static predicate SeqNumbers(s: seq<nat>) {
      |s| == MAX_NUM_TID && forall i :: 0 <= i < |s| ==> s[i] < 4096 || s[i] == NO_SEQ
    }

    predicate Settings()
      reads this
    {
      && |addbaReject| == MAX_NUM_TID && 1 <= rxWinSize <= 1023
      && SeqNumbers(rxSeq) && forall ta :: ta in stations ==> SeqNumbers(stations[ta])
    }

    /** The sequence number a new entry takes as the last one seen: that of the station when it is known;
        else 0 where queues are kept per receiver, and that of the interface otherwise. */
    function LastSeq(ta: nat, tid: int): (last: nat)
      requires Settings() && 0 <= tid < MAX_NUM_TID
      reads this
      ensures last < 4096 || last == NO_SEQ
      ensures isUap ==> last == if ta in stations then stations[ta][tid] else 0
      ensures !isUap && infra ==> last == if ta in stations then stations[ta][tid] else rxSeq[tid]
      ensures !isUap && !infra ==> last == 0
    {
      var raBased := !(infra && !isUap);
      if ta in stations && (!raBased || isUap) then stations[ta][tid] else if raBased then 0 else rxSeq[tid]
    }

    /** Entries and slot arrays are distinct and belong to this interface. */
    ghost predicate Owned()
      reads this
    {
      && (forall i, j :: 0 <= i < j < |tbls| ==> tbls[i] != tbls[j] && tbls[i].slots != tbls[j].slots)
      && (forall t :: t in tbls ==> t in repr && t.slots in repr) && this !in repr
    }

    /** The list of entries is the table. */
    ghost predicate Mirrors()
      requires Owned()
      reads this, repr
    {
      && |table| == |tbls|
      && forall i :: 0 <= i < |tbls| ==> tbls[i].Valid() && table[i] == EntryOf(tbls[i])
    }

    ghost predicate Valid()
      reads this, repr
    {
      Settings() && Owned() && Mirrors() && Fit(table)
    }

    lemma Member(i: nat)
      requires Valid() && i < |tbls|
      ensures |table| == |tbls| && tbls[i] in repr && tbls[i].slots in repr && this !in repr
      ensures tbls[i].Valid() && table[i] == EntryOf(tbls[i]) && table[i].flow == tbls[i].Abs()
      ensures table[i].flow.size == tbls[i].winSize && table[i].flow.noDrop == tbls[i].forceNoDrop
    {
      hide RxReorderTbl.Valid, Fit, Held;
    }

    /** A step of entry i, and of that entry alone, keeps the invariant. */
    twostate lemma EntryStep(i: nat)
      requires old(Valid()) && i < |old(tbls)| && Fit(table) && Settings()
      requires tbls == old(tbls) && repr == old(repr)
      requires forall o :: o in repr && o != tbls[i] && o != tbls[i].slots ==> unchanged(o)
      requires tbls[i].Valid() && table == old(table)[i := EntryOf(tbls[i])]
      ensures Valid()
    {
      hide RxReorderTbl.Valid, RxReorderTbl.Abs, Fit;
      forall j | 0 <= j < |tbls| && j != i ensures tbls[j].Valid() && table[j] == EntryOf(tbls[j]) {
        assert old(tbls[j].Valid() && table[j] == EntryOf(tbls[j]));
        var t: object, a: object := tbls[j], tbls[j].slots;
        assert tbls[j] in tbls && t in repr && a in repr;
        assert t != tbls[i] && t != tbls[i].slots && a != tbls[i] && a != tbls[i].slots;
        assert unchanged(t) && unchanged(a);
      }
    }

    /** The entry of a TID and transmitter, searched from the head of the list. */
    method GetRxReorderTbl(tid: int, ta: nat) returns (i: nat)
      requires Valid()
      ensures i == Find(table, tid, ta)
    {
      i := 0;
      while i < |tbls| && !(tbls[i].ta == ta && tbls[i].tid == tid)
        invariant 0 <= i <= |tbls|
        invariant forall j :: 0 <= j < i ==> !HasKey(table[j], tid, ta)
      {
        i := i + 1;
      }
    }

    method ReceiveAt(i: nat, s: nat, t: PktType, p: Payload) returns (ok: bool, sent: seq<nat>)
      requires Valid() && s < 4096 && i < |tbls| && tbls[i].winSize >= 2
      modifies this`table, repr
      ensures Valid()
      ensures var r := StepEntry(old(table), i, Packet(s, t, p)); table == r.table && ok == r.ok && sent == Ids(r.out)
    {
      hide ReorderSpec.Receive, Fit, Ids, Owned, Mirrors, RxReorderTbl.Valid, RxReorderTbl.Abs;
      Member(i);
      TableRuns.StepEntryConserves(table, i, Packet(s, t, p), (0, 0));
      ok, sent := tbls[i].Receive(s, t, p);
      table := StepEntry(table, i, Packet(s, t, p)).table;
      EntryStep(i);
    }

    method ReceivePacket(tid: int, ta: nat, s: nat, t: PktType, p: Payload) returns (ok: bool, sent: seq<nat>)
      requires Valid() && s < 4096
      modifies this`table, repr
      ensures Valid()
      ensures var r := ReceiveFor(old(table), tid, ta, s, t, p); table == r.table && ok == r.ok && sent == Ids(r.out)
    {
      hide Release, Held, Shadows, WellFormed, FitFlow, Find, Vacant, ReorderSpec.Receive, Fit, RxReorderTbl.Valid;
      var i := GetRxReorderTbl(tid, ta);
      if i == |tbls| || tbls[i].winSize <= 1 {
        ok, sent := true, [];
        if !t.Bar? {
          sent := Dispatch(p);
        }
      } else {
        ok, sent := ReceiveAt(i, s, t, p);
      }
    }

    /** Sends up the whole window of an entry, then unlinks it. */
    method DeleteEntry(i: nat) returns (sent: seq<nat>)
      requires Valid() && i < |tbls|
      modifies this`table, this`tbls, this`repr, repr
      ensures Valid() && fresh(repr - old(repr))
      ensures table == Remove(old(table), i) && sent == Ids(Drained(old(table)[i].flow))
      ensures tbls == old(tbls[..i] + tbls[i + 1..])
    {
      hide Release, Held, Shadows, WellFormed, FitFlow, Find, Vacant, Drained, Fit, RxReorderTbl.Valid,
          RxReorderTbl.Abs;
      RemoveFit(table, i);
      sent := tbls[i].Drain();
      tbls := tbls[..i] + tbls[i + 1..];
      table := Remove(table, i);
      assert forall j :: 0 <= j < |tbls| ==> tbls[j] == old(tbls)[if j < i then j else j + 1];
    }

    /** Deletes the entry of a key, when there is one: DELBA, a failed response, re-creation. */
    method DeleteFor(tid: int, ta: nat) returns (sent: seq<nat>)
      requires Valid()
      modifies this`table, this`tbls, this`repr, repr
      ensures Valid() && fresh(repr - old(repr))
      ensures var r := Delete(old(table), tid, ta); table == r.table && sent == Ids(r.out)
    {
      var i := GetRxReorderTbl(tid, ta);
      sent := [];
      if i < |tbls| {
        sent := DeleteEntry(i);
      }
    }

    /** Sets up an entry, over an old one when there is one; its packets go up first. */
    method CreateRxReorderTbl(ta: nat, tid: int, winSize: nat, seqNum: nat) returns (sent: seq<nat>)
      requires Valid() && 1 <= winSize <= 1023 && seqNum < 4096
      modifies this`table, this`tbls, this`repr, repr
      ensures Valid() && fresh(repr - old(repr))
      ensures var last := if 0 <= tid < MAX_NUM_TID then old(LastSeq(ta, tid)) else 0;
              var r := Create(old(table), tid, ta, winSize, seqNum, last); table == r.table && sent == Ids(r.out)
    {
      hide Release, Held, Shadows, WellFormed, FitFlow, Find, Vacant, Delete, Fit, LastSeq;
      if tid < 0 || tid >= MAX_NUM_TID {
        return [];
      }
      var last := LastSeq(ta, tid);
      CreateFit(table, tid, ta, winSize, seqNum, last);
      sent := DeleteFor(tid, ta);
      var t := new RxReorderTbl(tid, ta, winSize, seqNum, last);
      tbls := tbls + [t];
      repr := repr + {t, t.slots};
      table := table + [Entry(tid, ta, false, NewFlow(winSize, seqNum, last))];
    }

    /** An ADDBA request is answered unless a scan runs or a stream for its key is being set up. */
    method AddBastream(ta: nat, param: nat, scanning: bool) returns (answered: bool)
      requires Valid()
      ensures var i := Find(table, TidField(param), ta);
              answered <==> !scanning && (i < |table| ==> table[i].complete)
    {
      hide Find, Fit, RxReorderTbl.Valid, RxReorderTbl.Abs;
      answered := !scanning;
      if answered {
        var i := GetRxReorderTbl(TidField(param), ta);
        answered := i == |tbls| || tbls[i].setupComplete;
      }
    }

    /** Builds the response to an ADDBA request; an accepted one creates the entry. */
    method AddbaRspGen(ta: nat, param: nat, ssn: nat, pendingBridgePkts: nat)
      returns (declined: bool, response: nat, sent: seq<nat>)
      requires Valid() && param < 0x1_0000 && ssn < 4096
      modifies this`table, this`tbls, this`repr, repr
      ensures Valid() && fresh(repr - old(repr))
      ensures declined <==>
                || TidField(param) >= MAX_NUM_TID || addbaReject[TidField(param)]
                || (if isUap then pendingBridgePkts > RX_LOW_THRESHOLD else wpsSession)
      ensures response == ResponseParam(param, rxAmsdu, rxWinSize)
      ensures var last := if TidField(param) < MAX_NUM_TID then old(LastSeq(ta, TidField(param))) else 0;
              var e := TableRuns.Addba(ta, param, ssn, last, declined, TableRuns.Config(rxAmsdu, rxWinSize));
              var r := TableRuns.StepTable(old(table), e); table == r.table && sent == Ids(r.out)
    {
      hide Release, Held, Shadows, Fit, Create, LastSeq;
      ResponseAnnouncesWindow(param, rxAmsdu, rxWinSize);
      var tid := TidField(param);
      declined := tid >= MAX_NUM_TID || addbaReject[tid];
      if !isUap && wpsSession {
        declined := true;
      }
      if isUap && pendingBridgePkts > RX_LOW_THRESHOLD {
        declined := true;
      }
      var winSize := WinField(param);
      response := param % 64;
      if !rxAmsdu && AmsduBit(param) {
        response := response - 1;
      }
      if winSize != 0 {
        winSize := if winSize < rxWinSize then winSize else rxWinSize;
      } else {
        winSize := rxWinSize;
      }
      response := response + 64 * winSize;
      sent := [];
      if !declined {
        sent := CreateRxReorderTbl(ta, tid, winSize, ssn);
      }
    }

    method CompleteAt(i: nat, amsduSupported: bool)
      requires Valid() && i < |tbls|
      modifies this`table, repr
      ensures Valid()
      ensures var e := old(table)[i];
              table == old(table)[i := e.(complete := true, flow := e.flow.(amsdu := amsduSupported))]
    {
      hide Fit, Owned, Mirrors, RxReorderTbl.Valid, RxReorderTbl.Abs;
      Member(i);
      ghost var e := table[i].(complete := true, flow := table[i].flow.(amsdu := amsduSupported));
      ReplaceCompletes(table, i, amsduSupported);
      tbls[i].SetUp(amsduSupported);
      table := table[i := e];
      EntryStep(i);
    }

    /** The firmware's answer to the response: a failed one deletes the entry. */
    method RetAddbaResp(ta: nat, param: nat, success: bool) returns (sent: seq<nat>)
      requires Valid()
      modifies this`table, this`tbls, this`repr, repr
      ensures Valid() && fresh(repr - old(repr))
      ensures var r := TableRuns.StepTable(old(table), TableRuns.AddbaResponse(ta, param, success, rxAmsdu));
              table == r.table && sent == Ids(r.out)
    {
      hide Release, Held, Shadows, WellFormed, FitFlow, Find, Vacant, Delete, Fit, RxReorderTbl.Valid, RxReorderTbl.Abs;
      var tid := TidField(param);
      sent := [];
      if success {
        var i := GetRxReorderTbl(tid, ta);
        if i < |tbls| {
          CompleteAt(i, AmsduBit(param) && rxAmsdu);
        }
      } else {
        sent := DeleteFor(tid, ta);
      }
    }

    /** DELBA: one sent by the recipient, or received from the initiator, ends a receive flow. */
    method DeleteBastream(tid: int, ta: nat, received: bool, initiator: bool) returns (sent: seq<nat>)
      requires Valid()
      modifies this`table, this`tbls, this`repr, repr
      ensures Valid() && fresh(repr - old(repr))
      ensures if received == initiator
              then var r := Delete(old(table), tid, ta); table == r.table && sent == Ids(r.out)
              else table == old(table) && sent == []
    {
      sent := [];
      var cleanupRx := if received then initiator else !initiator;
      if cleanupRx {
        sent := DeleteFor(tid, ta);
      }
    }

    /** Deletes all entries, from the head of the list, and forgets the numbers seen. */
    method CleanupReorderTbl() returns (sent: seq<nat>)
      requires Valid()
      modifies this`table, this`tbls, this`repr, this`rxSeq, repr
      ensures Valid() && fresh(repr - old(repr)) && table == [] && sent == Ids(DeleteAll(old(table)).out)
      ensures forall tid :: 0 <= tid < MAX_NUM_TID ==> rxSeq[tid] == NO_SEQ
    {
      hide Release, Held, Shadows, WellFormed, FitFlow, Vacant, Drained, Fit, Remove, DeleteAll, Ids,
          RxReorderTbl.Valid, RxReorderTbl.Abs;
      sent := [];
      ghost var all := table;
      ghost var done := [];
      IdsOfNothing();
      while tbls != []
        invariant Valid() && fresh(repr - old(repr))
        invariant DeleteAll(all).out == done + DeleteAll(table).out && sent == Ids(done)
        decreases |tbls|
      {
        ghost var f := table[0].flow;
        IdsAppend(done, Drained(f));
        DeleteAllStep(table, done);
        var more := DeleteEntry(0);
        sent := sent + more;
        done := done + Drained(f);
      }
      DeleteAllEnd(done);
      rxSeq := seq(MAX_NUM_TID, i => NO_SEQ);
    }

    /** Deletes the entries of one station, TID by TID. */
    method CleanupStation(ta: nat) returns (sent: seq<nat>)
      requires Valid()
      modifies this`table, this`tbls, this`repr, repr
      ensures Valid() && fresh(repr - old(repr))
      ensures var r := TableRuns.CleanupFrom(old(table), 0, ta); table == r.table && sent == Ids(r.out)
    {
      hide Delete, Fit, Ids, RxReorderTbl.Valid, RxReorderTbl.Abs;
      sent := [];
      ghost var all, done := TableRuns.CleanupFrom(table, 0, ta), [];
      IdsOfNothing();
      for tid := 0 to MAX_NUM_TID
        invariant Valid() && fresh(repr - old(repr))
        invariant var r := TableRuns.CleanupFrom(table, tid, ta);
                  all.table == r.table && all.out == done + r.out && sent == Ids(done)
      {
        ghost var d := Delete(table, tid, ta);
        IdsAppend(done, d.out);
        assert done + (d.out + TableRuns.CleanupFrom(d.table, tid + 1, ta).out)
            == (done + d.out) + TableRuns.CleanupFrom(d.table, tid + 1, ta).out;
        var more := DeleteFor(tid, ta);
        sent := sent + more;
        done := done + d.out;
      }
      assert done + [] == done;
    }

    /** One element of the firmware's report: one mark for each packet it dropped, in order. */
    method RxbaSyncOne(e: SyncElement) returns (sent: seq<nat>)
      requires Valid()
      modifies this`table, repr
      ensures Valid()
      ensures var r := TableRuns.RunTable(old(table), SyncEvents(e.tid, e.ta, e.seqNum, e.bits));
              table == r.table && sent == Ids(r.out)
    {
      hide ReceiveFor, Fit, Find, Ids, RxReorderTbl.Valid;
      IdsOfNothing();
      sent := [];
      ghost var was := table;
      for k := 0 to |e.bits|
        invariant Valid()
        invariant var r := TableRuns.RunTable(was, SyncEvents(e.tid, e.ta, e.seqNum, e.bits[..k]));
                  table == r.table && sent == Ids(r.out)
      {
        SyncStep(e.tid, e.ta, e.seqNum, e.bits, k, was);
        if e.bits[k] {
          ghost var before := TableRuns.RunTable(was, SyncEvents(e.tid, e.ta, e.seqNum, e.bits[..k])).out;
          IdsAppend(before, ReceiveFor(table, e.tid, e.ta, (e.seqNum + k) % 4096, Plain, DroppedInFw).out);
          var ok, more := ReceivePacket(e.tid, e.ta, (e.seqNum + k) % 4096, Plain, DroppedInFw);
          sent := sent + more;
        }
      }
      assert e.bits[..|e.bits|] == e.bits;
    }

    /** The firmware reports which packets it dropped; the report ends at the first element that is of another
        type, or for a flow that is not there or resumes. */
    method RxbaSyncEvent(elements: seq<SyncElement>) returns (sent: seq<nat>)
      requires Valid()
      modifies this`table, repr
      ensures Valid()
      ensures var r := SyncAll(old(table), elements); table == r.table && sent == Ids(r.out)
    {
      hide SyncEvents, Fit, Find, Ids, RxReorderTbl.Valid, RxReorderTbl.Abs, TableRuns.RunTable;
      IdsOfNothing();
      sent := [];
      ghost var all, done := SyncAll(table, elements), [];
      var n := 0;
      while n < |elements|
        invariant n <= |elements| && Valid()
        invariant var r := SyncAll(table, elements[n..]); all.table == r.table && all.out == done + r.out
        invariant sent == Ids(done)
      {
        var e := elements[n];
        if !e.isSync {
          break;
        }
        var i := GetRxReorderTbl(e.tid, e.ta);
        if i == |tbls| {
          break;
        }
        Member(i);
        if tbls[i].forceNoDrop {
          break;
        }
        ghost var a := TableRuns.RunTable(table, SyncEvents(e.tid, e.ta, e.seqNum, e.bits));
        SyncNext(table, elements[n..], done);
        IdsAppend(done, a.out);
        assert elements[n..][1..] == elements[n + 1..];
        var more := RxbaSyncOne(e);
        sent := sent + more;
        done := done + a.out;
        n := n + 1;
      }
      SyncEnd(table, elements[n..], done);
    }

    /** The flush timer of an entry expires. */
    method TimerExpires(i: nat)
      requires Valid() && i < |tbls| && tbls[i].timerIsSet
      modifies this`table, repr
      ensures Valid() && table == StepEntry(old(table), i, Input.TimerExpires).table
    {
      hide Fit, Owned, Mirrors, RxReorderTbl.Valid, RxReorderTbl.Abs;
      Member(i);
      TableRuns.StepEntryConserves(table, i, Input.TimerExpires, (0, 0));
      tbls[i].FlushTimerExpires();
      table := StepEntry(table, i, Input.TimerExpires).table;
      EntryStep(i);
    }

    method FlushEntry(i: nat) returns (sent: seq<nat>)
      requires Valid() && i < |tbls|
      modifies this`table, repr
      ensures Valid()
      ensures var r := StepEntry(old(table), i, Input.FlushWork); table == r.table && sent == Ids(r.out)
    {
      hide Flushed, Fit, Ids, Owned, Mirrors, RxReorderTbl.Valid, RxReorderTbl.Abs;
      Member(i);
      TableRuns.StepEntryConserves(table, i, Input.FlushWork, (0, 0));
      sent := tbls[i].FlushWork();
      table := StepEntry(table, i, Input.FlushWork).table;
      EntryStep(i);
    }

    /** Carries out the pending flushes of all entries. */
    method FlushRxReorderTbl() returns (sent: seq<nat>)
      requires Valid()
      modifies this`table, repr
      ensures Valid()
      ensures var r := FlushFrom(old(table), 0); table == r.table && sent == Ids(r.out)
    {
      hide Fit, Ids, StepEntry, RxReorderTbl.Valid, RxReorderTbl.Abs;
      sent := [];
      ghost var all, done := FlushFrom(table, 0), [];
      IdsOfNothing();
      for i := 0 to |tbls|
        invariant Valid()
        invariant var r := FlushFrom(table, i);
                  all.table == r.table && all.out == done + r.out && sent == Ids(done)
      {
        ghost var a := StepEntry(table, i, Input.FlushWork);
        IdsAppend(done, a.out);
        assert done + (a.out + FlushFrom(a.table, i + 1).out) == (done + a.out) + FlushFrom(a.table, i + 1).out;
        var more := FlushEntry(i);
        sent := sent + more;
        done := done + a.out;
      }
      assert done + [] == done;
    }

    method SetNoDropAt(i: nat, flag: bool)
      requires Valid() && i < |tbls|
      modifies this`table, repr
      ensures Valid()
      ensures table == old(table)[i := old(table)[i].(flow := old(table)[i].flow.(noDrop := flag))]
    {
      hide Fit, Owned, Mirrors, RxReorderTbl.Valid, RxReorderTbl.Abs;
      Member(i);
      ReplaceNoDrop(table, i, flag);
      tbls[i].SetNoDrop(flag);
      table := table[i := table[i].(flow := table[i].flow.(noDrop := flag))];
      EntryStep(i);
    }

    /** Sets `force_no_drop` on every entry. */
    method SetNoDropFlag(flag: bool)
      requires Valid()
      modifies this`table, repr
      ensures Valid() && table == SetNoDrops(old(table), flag)
    {
      hide Fit, SetNoDrops, RxReorderTbl.Valid, RxReorderTbl.Abs;
      ghost var es := table;
      NoDropEntries(es, flag);
      for i := 0 to |tbls|
        invariant Valid() && |table| == |es|
        invariant table == SetNoDrops(es, flag)[..i] + es[i..]
      {
        OneMore(SetNoDrops(es, flag), es, i);
        SetNoDropAt(i, flag);
      }
    }
  }

  lemma ReplaceNoDrop(es: Table, i: nat, flag: bool)
    requires i < |es| && Fit(es)
    ensures Fit(es[i := es[i].(flow := es[i].flow.(noDrop := flag))])
  {
    TableRuns.NoDropChangesNothing(es[i].flow, flag, (0, 0));
    hide FitFlow;
    ReplaceFit(es, i, es[i].(flow := es[i].flow.(noDrop := flag)));
  }

  lemma OneMore(a: Table, b: Table, i: nat)
    requires i < |a| == |b|
    ensures (a[..i] + b[i..])[i] == b[i] && (a[..i] + b[i..])[i := a[i]] == a[..i + 1] + b[i + 1..]
  {
  }

  lemma NoDropEntries(es: Table, flag: bool)
    ensures |SetNoDrops(es, flag)| == |es|
    ensures forall i :: 0 <= i < |es| ==> SetNoDrops(es, flag)[i] == es[i].(flow := es[i].flow.(noDrop := flag))
  {
  }

  lemma DeleteAllStep(es: Table, done: seq<Delivery>)
    requires es != []
    ensures done + DeleteAll(es).out == (done + Drained(es[0].flow)) + DeleteAll(Remove(es, 0)).out
    ensures |Remove(es, 0)| == |es| - 1
  {
    hide Drained;
    assert Remove(es, 0) == es[1..];
    assert done + (Drained(es[0].flow) + DeleteAll(es[1..]).out)
         == (done + Drained(es[0].flow)) + DeleteAll(es[1..]).out;
  }

  lemma DeleteAllEnd(done: seq<Delivery>)
    ensures done + DeleteAll([]).out == done
  {
  }

  const RX_LOW_THRESHOLD: nat := 128

  /** One element of the firmware's report of dropped packets. */
  datatype SyncElement = SyncElement(isSync: bool, tid: int, ta: nat, seqNum: nat, bits: seq<bool>)

  predicate Handled(es: Table, e: SyncElement) {
    var i := Find(es, e.tid, e.ta);
    e.isSync && i < |es| && !es[i].flow.noDrop
  }

  function SyncAll(es: Table, elements: seq<SyncElement>): TableOutcome
    decreases |elements|
  {
    if elements == [] || !Handled(es, elements[0]) then TableOutcome(es, [], true) else
      var e := elements[0];
      var a := TableRuns.RunTable(es, SyncEvents(e.tid, e.ta, e.seqNum, e.bits));
      var b := SyncAll(a.table, elements[1..]);
      TableOutcome(b.table, a.out + b.out, true)
  }

  lemma SyncNext(es: Table, elements: seq<SyncElement>, done: seq<Delivery>)
    requires elements != [] && Handled(es, elements[0])
    ensures var e := elements[0];
            var a := TableRuns.RunTable(es, SyncEvents(e.tid, e.ta, e.seqNum, e.bits));
            var b := SyncAll(a.table, elements[1..]);
            SyncAll(es, elements).table == b.table && done + SyncAll(es, elements).out == (done + a.out) + b.out
  {
    hide SyncEvents, Handled, TableRuns.RunTable;
  }

  lemma SyncEnd(es: Table, elements: seq<SyncElement>, done: seq<Delivery>)
    requires elements == [] || !Handled(es, elements[0])
    ensures SyncAll(es, elements) == TableOutcome(es, [], true) && done + [] == done
  {
  }

  /** The firmware's bitmap of packets it dropped, as the packets the reorder code is told of. */
  function SyncEvents(tid: int, ta: nat, seqNum: nat, bits: seq<bool>): seq<TableRuns.Event> {
    if bits == [] then [] else
      var k := |bits| - 1;
      SyncEvents(tid, ta, seqNum, bits[..k])
        + if bits[k] then [TableRuns.Rx(tid, ta, (seqNum + k) % 4096, Plain, DroppedInFw)] else []
  }

  lemma SyncStep(tid: int, ta: nat, seqNum: nat, bits: seq<bool>, k: nat, es: Table)
    requires k < |bits|
    ensures var before := TableRuns.RunTable(es, SyncEvents(tid, ta, seqNum, bits[..k]));
            var r := TableRuns.RunTable(es, SyncEvents(tid, ta, seqNum, bits[..k + 1]));
            if bits[k]
            then var q := ReceiveFor(before.table, tid, ta, (seqNum + k) % 4096, Plain, DroppedInFw);
                 r.table == q.table && r.out == before.out + q.out
            else r == before
  {
    hide ReceiveFor;
    assert bits[..k + 1][..k] == bits[..k];
    var events := SyncEvents(tid, ta, seqNum, bits[..k]);
    if bits[k] {
      var e := TableRuns.Rx(tid, ta, (seqNum + k) % 4096, Plain, DroppedInFw);
      assert (events + [e])[..|events|] == events;
    } else {
      assert events + [] == events;
    }
  }

  lemma ReplaceCompletes(es: Table, i: nat, amsdu: bool)
    requires i < |es| && Fit(es)
    ensures Fit(es[i := es[i].(complete := true, flow := es[i].flow.(amsdu := amsdu))])
  {
    TableRuns.AmsduChangesNothing(es[i].flow, amsdu, (0, 0));
    hide FitFlow;
    ReplaceFit(es, i, es[i].(complete := true, flow := es[i].flow.(amsdu := amsdu)));
  }

  lemma IdsOfNothing()
    ensures Ids([]) == []
  {
  }
}
