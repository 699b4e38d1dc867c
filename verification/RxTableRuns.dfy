/** Whole runs of the block-ack table: the code of one interface, request after request, computes a run of
    table events. */
module RxTableRuns {
  import opened ReorderSpec
  import opened ReorderConservation
  import opened TableSpec
  import T = TableRuns
  import opened TableOrigins
  import opened RxReorder
  import opened RxTable

  /** Everything that happens to the receive table of an interface. */
  datatype Request =
    | Receive(tid: int, ta: nat, s: nat, t: PktType, p: Payload)
    | AddbaRequest(ta: nat, param: nat, ssn: nat, pendingBridgePkts: nat)
    | AddbaAnswered(ta: nat, param: nat, success: bool)
    | DelbaSeen(tid: int, ta: nat, received: bool, initiator: bool)
    | TimerFires(tid: int, ta: nat)
    | DeferredWork
    | Resume(flag: bool)
    | DroppedReport(elements: seq<SyncElement>)
    | StationGone(ta: nat)
    | InterfaceDown

  predicate ProperRequest(req: Request) {
    match req
    case Receive(_, _, s, _, _) => s < 4096
    case AddbaRequest(_, param, ssn, _) => param < 0x1_0000 && ssn < 4096
    case _ => true
  }

  /** The events of the table that a request may give rise to. */
  predicate Realizes(req: Request, events: seq<T.Event>) {
    match req
    case Receive(tid, ta, s, t, p) => events == [T.Rx(tid, ta, s, t, p)]
    case AddbaRequest(ta, param, ssn, _) =>
      |events| == 1 && events[0].Addba? && events[0].ta == ta && events[0].param == param && events[0].ssn == ssn
    case AddbaAnswered(ta, param, success) =>
      |events| == 1 && events[0].AddbaResponse? && events[0].ta == ta && events[0].param == param
      && events[0].accepted == success
    case DelbaSeen(tid, ta, received, initiator) => events == if received == initiator then [T.Delba(tid, ta)] else []
    case TimerFires(tid, ta) => events == [] || events == [T.Timer(tid, ta)]
    case DeferredWork => events == [T.FlushAll]
    case Resume(flag) => events == [T.NoDrop(flag)]
    case DroppedReport(_) => forall i :: 0 <= i < |events| ==> events[i].Rx? && events[i].p.DroppedInFw?
    case StationGone(ta) => events == [T.CleanupStation(ta)]
    case InterfaceDown => events == [T.Cleanup]
  }

  /** The events are those of the requests, one after the other. */
  ghost predicate RealizesAll(reqs: seq<Request>, events: seq<T.Event>)
    decreases |reqs|
  {
    if reqs == [] then events == [] else
      exists k :: 0 <= k <= |events| && RealizesAll(reqs[..|reqs| - 1], events[..k])
                  && Realizes(reqs[|reqs| - 1], events[k..])
  }

  predicate AllProper(events: seq<T.Event>) {
    forall i :: 0 <= i < |events| ==> T.ProperEvent(events[i])
  }

  /** The table and what went up are those of a run. */
  ghost predicate IsRun(was: Table, events: seq<T.Event>, table: Table, sent: seq<nat>) {
    var r := T.RunTable(was, events);
    table == r.table && sent == Ids(r.out)
  }

  lemma {:induction false} RunAppend(es: Table, a: seq<T.Event>, b: seq<T.Event>)
    ensures var x := T.RunTable(es, a);
            var y := T.RunTable(x.table, b);
            T.RunTable(es, a + b).table == y.table && T.RunTable(es, a + b).out == x.out + y.out
    decreases |b|
  {
    hide T.StepTable;
    if b == [] {
      assert a + b == a;
    } else {
      var front, last := b[..|b| - 1], b[|b| - 1];
      RunAppend(es, a, front);
      assert (a + b)[..|a + b| - 1] == a + front;
    }
  }

  lemma OneEvent(es: Table, e: T.Event)
    ensures var r, q := T.RunTable(es, [e]), T.StepTable(es, e);
            r.table == q.table && r.out == q.out
  {
    hide T.StepTable;
    assert [e][..0] == [];
    assert T.RunTable(es, []) == TableOutcome(es, [], true);
  }

  lemma NoEvent(es: Table)
    ensures IsRun(es, [], es, [])
  {
  }

  /** Events that follow a run extend it. */
  lemma IsRunAppend(was: Table, a: seq<T.Event>, mid: Table, sent: seq<nat>, b: seq<T.Event>, table: Table,
      more: seq<nat>)
    requires IsRun(was, a, mid, sent) && IsRun(mid, b, table, more)
    ensures IsRun(was, a + b, table, sent + more)
  {
    RunAppend(was, a, b);
    IdsAppend(T.RunTable(was, a).out, T.RunTable(mid, b).out);
  }

  // ---------------------------------------------------------------- reports of dropped packets

  /** The events of the elements that are handled. */
  function ReportEvents(es: Table, elements: seq<SyncElement>): seq<T.Event>
    decreases |elements|
  {
    if elements == [] || !Handled(es, elements[0]) then [] else
      var events := SyncEvents(elements[0].tid, elements[0].ta, elements[0].seqNum, elements[0].bits);
      events + ReportEvents(T.RunTable(es, events).table, elements[1..])
  }

  lemma {:induction false} SyncEventsProper(tid: int, ta: nat, seqNum: nat, bits: seq<bool>)
    ensures var events := SyncEvents(tid, ta, seqNum, bits);
            AllProper(events) && forall i :: 0 <= i < |events| ==> events[i].Rx? && events[i].p.DroppedInFw?
  {
    if bits != [] {
      SyncEventsProper(tid, ta, seqNum, bits[..|bits| - 1]);
    }
  }

  /** Bits set. */
  function Ones(bits: seq<bool>): nat {
    if bits == [] then 0 else Ones(bits[..|bits| - 1]) + if bits[|bits| - 1] then 1 else 0
  }

  /** A bitmap stands for one mark for each bit set, in order, bit k for the number k behind the first one. */
  lemma {:induction false} MarkOfBit(tid: int, ta: nat, seqNum: nat, bits: seq<bool>, k: nat)
    requires k < |bits| && bits[k]
    ensures var events, n := SyncEvents(tid, ta, seqNum, bits), Ones(bits[..k]);
            && |events| == Ones(bits) && n < |events|
            && events[n] == T.Rx(tid, ta, (seqNum + k) % 4096, Plain, DroppedInFw)
  {
    var front := bits[..|bits| - 1];
    MarksOfBits(tid, ta, seqNum, front);
    MarksOfBits(tid, ta, seqNum, bits);
    if k < |front| {
      MarkOfBit(tid, ta, seqNum, front, k);
      assert front[..k] == bits[..k];
    }
  }

  lemma {:induction false} MarksOfBits(tid: int, ta: nat, seqNum: nat, bits: seq<bool>)
    ensures |SyncEvents(tid, ta, seqNum, bits)| == Ones(bits)
  {
    if bits != [] {
      MarksOfBits(tid, ta, seqNum, bits[..|bits| - 1]);
    }
  }

  /** A report goes on as long as its elements are reports for flows that are there and do not resume; it ends for
      good at the first other one. */
  lemma ReportStep(es: Table, elements: seq<SyncElement>)
    requires elements != []
    ensures var e, x := elements[0], EntryAt(es, elements[0].tid, elements[0].ta);
            if e.isSync && x.Some? && !x.value.flow.noDrop
            then var a := T.RunTable(es, SyncEvents(e.tid, e.ta, e.seqNum, e.bits));
                 var b := SyncAll(a.table, elements[1..]);
                 SyncAll(es, elements).table == b.table && SyncAll(es, elements).out == a.out + b.out
            else SyncAll(es, elements).table == es && SyncAll(es, elements).out == []
  {
    hide SyncEvents, T.RunTable;
    FindsKey(es, elements[0].tid, elements[0].ta);
  }

  lemma {:induction false} ReportIsRun(es: Table, elements: seq<SyncElement>)
    ensures var events, r := ReportEvents(es, elements), SyncAll(es, elements);
            && IsRun(es, events, r.table, Ids(r.out)) && AllProper(events)
            && forall i :: 0 <= i < |events| ==> events[i].Rx? && events[i].p.DroppedInFw?
    decreases |elements|
  {
    hide SyncEvents, Handled, T.RunTable;
    if elements == [] || !Handled(es, elements[0]) {
      NoEvent(es);
      NothingUp();
    } else {
      var e := elements[0];
      var events := SyncEvents(e.tid, e.ta, e.seqNum, e.bits);
      var a := T.RunTable(es, events);
      SyncEventsProper(e.tid, e.ta, e.seqNum, e.bits);
      ReportIsRun(a.table, elements[1..]);
      var b := SyncAll(a.table, elements[1..]);
      IsRunAppend(es, events, a.table, Ids(a.out), ReportEvents(a.table, elements[1..]), b.table, Ids(b.out));
      IdsAppend(a.out, b.out);
    }
  }

  lemma NothingUp()
    ensures Ids([]) == []
  {
  }

  // ---------------------------------------------------------------- the run of the code

  /** One request; the events say what it meant for the table. */
  method Serve(p: RxPrivate, req: Request) returns (sent: seq<nat>, ghost events: seq<T.Event>)
    requires p.Valid() && ProperRequest(req)
    modifies p, p.repr
    ensures p.Valid() && fresh(p.repr - old(p.repr))
    ensures Realizes(req, events) && AllProper(events) && IsRun(old(p.table), events, p.table, sent)
  {
    hide T.RunTable, Ids, Fit, SyncAll, Find, FlushFrom, T.CleanupFrom, SetNoDrops, DeleteAll, Delete, TidField,
        AmsduBit;
    ghost var was := p.table;
    NoEvent(was);
    sent, events := [], [];
    match req {
      case Receive(_, _, _, _, _) => sent, events := ServeReceive(p, req);
      case AddbaRequest(_, _, _, _) => sent, events := ServeAddba(p, req);
      case AddbaAnswered(ta, param, success) =>
        events := [T.AddbaResponse(ta, param, success, p.rxAmsdu)];
        OneEvent(was, events[0]);
        sent := p.RetAddbaResp(ta, param, success);
      case DelbaSeen(_, _, _, _) => sent, events := ServeDelba(p, req);
      case TimerFires(_, _) => events := ServeTimer(p, req);
      case DeferredWork =>
        events := [T.FlushAll];
        OneEvent(was, events[0]);
        sent := p.FlushRxReorderTbl();
      case Resume(flag) =>
        events := [T.NoDrop(flag)];
        OneEvent(was, events[0]);
        NothingUp();
        p.SetNoDropFlag(flag);
      case DroppedReport(elements) =>
        events := ReportEvents(was, elements);
        ReportIsRun(was, elements);
        sent := p.RxbaSyncEvent(elements);
      case StationGone(ta) =>
        events := [T.CleanupStation(ta)];
        OneEvent(was, events[0]);
        sent := p.CleanupStation(ta);
      case InterfaceDown =>
        events := [T.Cleanup];
        OneEvent(was, events[0]);
        AllDeleted(was);
        sent := p.CleanupReorderTbl();
    }
  }

  lemma AllDeleted(es: Table)
    ensures DeleteAll(es).table == []
  {
  }

  method ServeReceive(p: RxPrivate, req: Request) returns (sent: seq<nat>, ghost events: seq<T.Event>)
    requires p.Valid() && ProperRequest(req) && req.Receive?
    modifies p`table, p.repr
    ensures p.Valid() && p.repr == old(p.repr)
    ensures Realizes(req, events) && AllProper(events) && IsRun(old(p.table), events, p.table, sent)
  {
    hide T.RunTable, Ids, Fit, ReceiveFor;
    events := [T.Rx(req.tid, req.ta, req.s, req.t, req.p)];
    OneEvent(p.table, events[0]);
    var ok;
    ok, sent := p.ReceivePacket(req.tid, req.ta, req.s, req.t, req.p);
  }

  method ServeAddba(p: RxPrivate, req: Request) returns (sent: seq<nat>, ghost events: seq<T.Event>)
    requires p.Valid() && ProperRequest(req) && req.AddbaRequest?
    modifies p, p.repr
    ensures p.Valid() && fresh(p.repr - old(p.repr))
    ensures Realizes(req, events) && AllProper(events) && IsRun(old(p.table), events, p.table, sent)
  {
    hide T.StepTable, T.RunTable, Ids, Fit, TidField;
    ghost var was := p.table;
    ghost var tid := TidField(req.param);
    ghost var last := if tid < MAX_NUM_TID then p.LastSeq(req.ta, tid) else 0;
    ghost var cfg := T.Config(p.rxAmsdu, p.rxWinSize);
    var declined, response;
    declined, response, sent := p.AddbaRspGen(req.ta, req.param, req.ssn, req.pendingBridgePkts);
    events := [T.Addba(req.ta, req.param, req.ssn, last, declined, cfg)];
    OneEvent(was, events[0]);
  }

  method ServeDelba(p: RxPrivate, req: Request) returns (sent: seq<nat>, ghost events: seq<T.Event>)
    requires p.Valid() && req.DelbaSeen?
    modifies p, p.repr
    ensures p.Valid() && fresh(p.repr - old(p.repr))
    ensures Realizes(req, events) && AllProper(events) && IsRun(old(p.table), events, p.table, sent)
  {
    hide T.RunTable, Ids, Fit, Delete;
    NoEvent(p.table);
    events := if req.received == req.initiator then [T.Delba(req.tid, req.ta)] else [];
    OneEvent(p.table, T.Delba(req.tid, req.ta));
    sent := p.DeleteBastream(req.tid, req.ta, req.received, req.initiator);
  }

  /** A timer fires only while it runs. */
  method ServeTimer(p: RxPrivate, req: Request) returns (ghost events: seq<T.Event>)
    requires p.Valid() && req.TimerFires?
    modifies p`table, p.repr
    ensures p.Valid() && p.repr == old(p.repr)
    ensures Realizes(req, events) && AllProper(events) && IsRun(old(p.table), events, p.table, [])
  {
    hide T.RunTable, Fit, StepEntry, Find, RxReorderTbl.Valid, RxReorderTbl.Abs;
    NoEvent(p.table);
    NothingUp();
    events := [];
    var i := p.GetRxReorderTbl(req.tid, req.ta);
    if i < |p.tbls| && p.tbls[i].timerIsSet {
      events := [T.Timer(req.tid, req.ta)];
      OneEvent(p.table, events[0]);
      TimerSaysNothing(p.table, i);
      p.TimerExpires(i);
    }
  }

  lemma TimerSaysNothing(es: Table, i: nat)
    requires i < |es|
    ensures StepEntry(es, i, Input.TimerExpires).out == []
  {
  }

  lemma RealizesOne(reqs: seq<Request>, req: Request, a: seq<T.Event>, b: seq<T.Event>)
    requires RealizesAll(reqs, a) && Realizes(req, b)
    ensures RealizesAll(reqs + [req], a + b)
  {
    hide Realizes;
    var all, events := reqs + [req], a + b;
    assert all[..|all| - 1] == reqs && events[..|a|] == a && events[|a|..] == b;
  }

  /** Refinement over every run: after any requests the table of the code, and what went up, are those of a run
      of events the requests gave rise to. So whatever holds over every run of events (one entry for a key,
      conservation of packets, windows as announced) holds of the code. */
  method ServeAll(p: RxPrivate, reqs: seq<Request>) returns (sent: seq<nat>, ghost events: seq<T.Event>)
    requires p.Valid() && forall i :: 0 <= i < |reqs| ==> ProperRequest(reqs[i])
    modifies p, p.repr
    ensures p.Valid() && fresh(p.repr - old(p.repr))
    ensures RealizesAll(reqs, events) && AllProper(events) && IsRun(old(p.table), events, p.table, sent)
  {
    hide Realizes, IsRun, RealizesAll, Fit, Ids;
    ghost var was := p.table;
    sent, events := [], [];
    NoEvent(was);
    NothingRealized();
    assert reqs[..0] == [];
    for i := 0 to |reqs|
      invariant p.Valid() && fresh(p.repr - old(p.repr))
      invariant RealizesAll(reqs[..i], events) && AllProper(events) && IsRun(was, events, p.table, sent)
    {
      ghost var mid := p.table;
      var more;
      ghost var new_;
      more, new_ := Serve(p, reqs[i]);
      assert reqs[..i + 1] == reqs[..i] + [reqs[i]];
      RealizesOne(reqs[..i], reqs[i], events, new_);
      IsRunAppend(was, events, mid, sent, new_, p.table, more);
      sent := sent + more;
      events := events + new_;
    }
    assert reqs[..|reqs|] == reqs;
  }

  lemma NothingRealized()
    ensures RealizesAll([], [])
  {
  }
}
