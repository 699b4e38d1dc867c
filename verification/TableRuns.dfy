/** Runs of the block-ack table: the invariant of its entries and the conservation of packets over the
    creation, re-creation and deletion of flows. */
module TableRuns {
  import opened ReorderSpec
  import opened ReorderConservation
  import opened TableSpec

  datatype Config = Config(rxAmsdu: bool, rxWinSize: nat)

  datatype Event =
    | Rx(tid: int, ta: nat, s: nat, t: PktType, p: Payload)
    | Addba(ta: nat, param: nat, ssn: nat, last: nat, declined: bool, cfg: Config)
    | AddbaResponse(ta: nat, param: nat, accepted: bool, rxAmsdu: bool)
    | Delba(tid: int, ta: nat)
    | Timer(tid: int, ta: nat)
    | FlushAll
    | NoDrop(flag: bool)
    | CleanupStation(ta: nat)
    | Cleanup

  predicate ProperEvent(e: Event) {
    match e
    case Rx(_, _, s, _, _) => s < 4096
    case Addba(_, param, ssn, last, _, cfg) =>
      param < 0x1_0000 && ssn < 4096 && (last < 4096 || last == NO_SEQ) && 1 <= cfg.rxWinSize <= 1023
    case _ => true
  }

  function CleanupFrom(es: Table, tid: int, ta: nat): TableOutcome
    requires 0 <= tid <= MAX_NUM_TID
    decreases MAX_NUM_TID - tid
  {
    if tid == MAX_NUM_TID then TableOutcome(es, [], true) else
      var a := Delete(es, tid, ta);
      var b := CleanupFrom(a.table, tid + 1, ta);
      TableOutcome(b.table, a.out + b.out, true)
  }

  function StepTable(es: Table, e: Event): TableOutcome {
    match e
    case Rx(tid, ta, s, t, p) => ReceiveFor(es, tid, ta, s, t, p)
    case Addba(ta, param, ssn, last, declined, cfg) =>
      if declined || TidField(param) >= MAX_NUM_TID then TableOutcome(es, [], true)
      else Create(es, TidField(param), ta, GrantedWin(param, cfg.rxWinSize), ssn, last)
    case AddbaResponse(ta, param, accepted, rxAmsdu) =>
      if accepted then TableOutcome(Complete(es, TidField(param), ta, AmsduBit(param) && rxAmsdu), [], true)
      else Delete(es, TidField(param), ta)
    case Delba(tid, ta) => Delete(es, tid, ta)
    case Timer(tid, ta) =>
      var i := Find(es, tid, ta);
      if i == |es| then TableOutcome(es, [], true) else StepEntry(es, i, TimerExpires)
    case FlushAll => FlushFrom(es, 0)
    case NoDrop(flag) => TableOutcome(SetNoDrops(es, flag), [], true)
    case CleanupStation(ta) => CleanupFrom(es, 0, ta)
    case Cleanup => DeleteAll(es)
  }

  function RunTable(es: Table, events: seq<Event>): TableOutcome {
    if events == [] then TableOutcome(es, [], true) else
      var r := RunTable(es, events[..|events| - 1]);
      var q := StepTable(r.table, events[|events| - 1]);
      TableOutcome(q.table, r.out + q.out, q.ok)
  }

  // ---------------------------------------------------------------- sums over the table

  function PendingAll(es: Table, x: Tag): nat {
    if es == [] then 0 else Pending(es[0].flow, x) + PendingAll(es[1..], x)
  }

  lemma {:induction false} PendingUpdate(es: Table, i: nat, e: Entry, x: Tag)
    requires i < |es|
    ensures PendingAll(es[i := e], x) + Pending(es[i].flow, x) == PendingAll(es, x) + Pending(e.flow, x)
  {
    if i == 0 {
      assert es[i := e][1..] == es[1..];
    } else {
      PendingUpdate(es[1..], i - 1, e, x);
      assert es[i := e][1..] == es[1..][i - 1 := e];
    }
  }

  lemma {:induction false} PendingRemove(es: Table, i: nat, x: Tag)
    requires i < |es|
    ensures PendingAll(Remove(es, i), x) + Pending(es[i].flow, x) == PendingAll(es, x)
  {
    if i == 0 {
      assert Remove(es, i) == es[1..];
    } else {
      PendingRemove(es[1..], i - 1, x);
      assert Remove(es, i)[1..] == Remove(es[1..], i - 1);
    }
  }

  lemma {:induction false} PendingAppend(es: Table, e: Entry, x: Tag)
    ensures PendingAll(es + [e], x) == PendingAll(es, x) + Pending(e.flow, x)
  {
    if es == [] {
      assert (es + [e])[1..] == [];
    } else {
      PendingAppend(es[1..], e, x);
      assert (es + [e])[1..] == es[1..] + [e];
    }
  }

  lemma {:induction false} PendingSame(a: Table, b: Table, x: Tag)
    requires |a| == |b| && forall i :: 0 <= i < |a| ==> Pending(a[i].flow, x) == Pending(b[i].flow, x)
    ensures PendingAll(a, x) == PendingAll(b, x)
  {
    if a != [] { PendingSame(a[1..], b[1..], x); }
  }

  // ---------------------------------------------------------------- steps

  ghost predicate Inputs(f: Flow, input: Input) {
    Proper(input) && (input.Packet? ==> f.size >= 2)
  }

  lemma FitStep(f: Flow, input: Input, x: Tag)
    requires FitFlow(f) && f.size >= 1 && Inputs(f, input)
    ensures var r := Step(f, input);
            && FitFlow(r.flow) && r.flow.size == f.size
            && Times(r.out, x) + Pending(r.flow, x) == Pending(f, x) + AcceptedBy(f, input, x)
  {
    if f.size == 1 {
      assert PastLast(f.buf, f.base, f.base + 1) == f.base;
    } else {
      StepWellFormed(f, input);
      StepConserves(f, input, x);
      StepKeepsSize(f, input);
    }
  }

  lemma StepKeepsSize(f: Flow, input: Input)
    requires WellFormed(f) && Proper(input)
    ensures Step(f, input).flow.size == f.size
  {
    if input.Packet? {
      hide Settle, Flush, Resync;
      FlushedFacts(f);
      var f0 := Flushed(f).flow;
      if !Bypassed(f0, input.s, input.t) {
        PrepareFacts(f0, input.s, input.t);
        PrepareKeepsSize(f0, input.s);
        SettleWellFormed(Prepare(f0, input.s), input.s, input.t, input.p);
      }
    } else if input.FlushWork? {
      FlushedFacts(f);
    }
  }

  lemma PrepareKeepsSize(f: Flow, s: nat)
    ensures Prepare(f, s).size == f.size
  {
  }

  lemma DrainedIsPending(f: Flow, x: Tag)
    requires FitFlow(f) && f.size >= 1
    ensures Times(Drained(f), x) == Pending(f, x)
  {
    MoveConserves(f, f.base + f.size, x);
    MoveEmpties(f, x);
  }

  lemma DeleteConserves(es: Table, tid: int, ta: nat, x: Tag)
    requires Fit(es)
    ensures var r := Delete(es, tid, ta);
            Fit(r.table) && Times(r.out, x) + PendingAll(r.table, x) == PendingAll(es, x)
  {
    DeleteFit(es, tid, ta);
    var i := Find(es, tid, ta);
    if i < |es| {
      DrainedIsPending(es[i].flow, x);
      PendingRemove(es, i, x);
    }
  }

  lemma CreateConserves(es: Table, tid: int, ta: nat, size: nat, ssn: nat, last: nat, x: Tag)
    requires Fit(es) && 1 <= size <= 1023 && (last < 4096 || last == NO_SEQ)
    ensures var r := Create(es, tid, ta, size, ssn, last);
            Fit(r.table) && Times(r.out, x) + PendingAll(r.table, x) == PendingAll(es, x)
  {
    CreateFit(es, tid, ta, size, ssn, last);
    DeleteConserves(es, tid, ta, x);
    var e := Entry(tid, ta, false, NewFlow(size, ssn, last));
    PendingAppend(Delete(es, tid, ta).table, e, x);
    NothingPending(e.flow, x);
  }

  lemma StepEntryConserves(es: Table, i: nat, input: Input, x: Tag)
    requires Fit(es) && i < |es| && Inputs(es[i].flow, input)
    ensures var r := StepEntry(es, i, input);
            && Fit(r.table) && |r.table| == |es|
            && Times(r.out, x) + PendingAll(r.table, x) == PendingAll(es, x) + AcceptedBy(es[i].flow, input, x)
  {
    hide Step, AcceptedBy;
    var e := es[i].(flow := Step(es[i].flow, input).flow);
    FitStep(es[i].flow, input, x);
    ReplaceFit(es, i, e);
    PendingUpdate(es, i, e, x);
  }

  lemma {:induction false} FlushConserves(es: Table, i: nat, x: Tag)
    requires Fit(es) && i <= |es|
    ensures var r := FlushFrom(es, i);
            Fit(r.table) && Times(r.out, x) + PendingAll(r.table, x) == PendingAll(es, x)
    decreases |es| - i
  {
    hide StepEntry, PendingAll, Times;
    TimesNothing(x);
    if i < |es| {
      var a := StepEntry(es, i, FlushWork);
      StepEntryConserves(es, i, FlushWork, x);
      FlushConserves(a.table, i + 1, x);
      TimesAppend(a.out, FlushFrom(a.table, i + 1).out, x);
    }
  }

  lemma {:induction false} CleanupConserves(es: Table, tid: int, ta: nat, x: Tag)
    requires Fit(es) && 0 <= tid <= MAX_NUM_TID
    ensures var r := CleanupFrom(es, tid, ta);
            Fit(r.table) && Times(r.out, x) + PendingAll(r.table, x) == PendingAll(es, x)
    decreases MAX_NUM_TID - tid
  {
    hide Delete, PendingAll, Fit, Times;
    TimesNothing(x);
    if tid < MAX_NUM_TID {
      var a := Delete(es, tid, ta);
      DeleteConserves(es, tid, ta, x);
      CleanupConserves(a.table, tid + 1, ta, x);
      TimesAppend(a.out, CleanupFrom(a.table, tid + 1, ta).out, x);
    }
  }

  lemma {:induction false} DeleteAllConserves(es: Table, x: Tag)
    requires Fit(es)
    ensures Times(DeleteAll(es).out, x) == PendingAll(es, x)
  {
    if es != [] {
      DeleteAllConserves(es[1..], x);
      DrainedIsPending(es[0].flow, x);
      TimesAppend(Drained(es[0].flow), DeleteAll(es[1..]).out, x);
    }
  }

  function AcceptedEvent(es: Table, e: Event, x: Tag): nat {
    if e.Rx? then Once(e.s, e.t, e.p, StepTable(es, e).ok, x) else 0
  }

  lemma ReceiveForConserves(es: Table, tid: int, ta: nat, s: nat, t: PktType, p: Payload, x: Tag)
    requires Fit(es) && s < 4096
    ensures var r := ReceiveFor(es, tid, ta, s, t, p);
            Fit(r.table) && Times(r.out, x) + PendingAll(r.table, x) == PendingAll(es, x) + Once(s, t, p, r.ok, x)
  {
    hide Receive;
    var i := Find(es, tid, ta);
    if i < |es| && es[i].flow.size > 1 {
      StepEntryConserves(es, i, Packet(s, t, p), x);
    }
  }

  lemma SetNoDropsConserves(es: Table, flag: bool, x: Tag)
    requires Fit(es)
    ensures Fit(SetNoDrops(es, flag)) && PendingAll(SetNoDrops(es, flag), x) == PendingAll(es, x)
  {
    hide Pending, FitFlow;
    var r := SetNoDrops(es, flag);
    forall i | 0 <= i < |es|
      ensures FitFlow(r[i].flow) && Pending(r[i].flow, x) == Pending(es[i].flow, x)
    {
      NoDropChangesNothing(es[i].flow, flag, x);
    }
    PendingSame(r, es, x);
  }

  lemma NoDropChangesNothing(f: Flow, flag: bool, x: Tag)
    ensures FitFlow(f.(noDrop := flag)) == FitFlow(f) && Pending(f.(noDrop := flag), x) == Pending(f, x)
  {
  }

  lemma AmsduChangesNothing(f: Flow, amsdu: bool, x: Tag)
    ensures FitFlow(f.(amsdu := amsdu)) == FitFlow(f) && Pending(f.(amsdu := amsdu), x) == Pending(f, x)
  {
  }

  lemma CompleteConserves(es: Table, tid: int, ta: nat, amsdu: bool, x: Tag)
    requires Fit(es)
    ensures Fit(Complete(es, tid, ta, amsdu)) && PendingAll(Complete(es, tid, ta, amsdu), x) == PendingAll(es, x)
  {
    var i := Find(es, tid, ta);
    if i < |es| {
      hide FitFlow, Pending;
      var e := es[i].(complete := true, flow := es[i].flow.(amsdu := amsdu));
      AmsduChangesNothing(es[i].flow, amsdu, x);
      ReplaceFit(es, i, e);
      PendingUpdate(es, i, e, x);
    }
  }

  lemma StepTableConserves(es: Table, e: Event, x: Tag)
    requires Fit(es) && ProperEvent(e)
    ensures var r := StepTable(es, e);
            Fit(r.table) && Times(r.out, x) + PendingAll(r.table, x) == PendingAll(es, x) + AcceptedEvent(es, e, x)
  {
    match e
    case Rx(tid, ta, s, t, p) => ReceiveForConserves(es, tid, ta, s, t, p, x);
    case Addba(ta, param, ssn, last, declined, cfg) =>
      ResponseAnnouncesWindow(param, cfg.rxAmsdu, cfg.rxWinSize);
      CreateConserves(es, TidField(param), ta, GrantedWin(param, cfg.rxWinSize), ssn, last, x);
    case AddbaResponse(ta, param, accepted, rxAmsdu) =>
      CompleteConserves(es, TidField(param), ta, AmsduBit(param) && rxAmsdu, x);
      DeleteConserves(es, TidField(param), ta, x);
    case Delba(tid, ta) => DeleteConserves(es, tid, ta, x);
    case Timer(tid, ta) =>
      var i := Find(es, tid, ta);
      if i < |es| { StepEntryConserves(es, i, TimerExpires, x); }
    case FlushAll => FlushConserves(es, 0, x);
    case NoDrop(flag) => SetNoDropsConserves(es, flag, x);
    case CleanupStation(ta) => CleanupConserves(es, 0, ta, x);
    case Cleanup => DeleteAllConserves(es, x);
  }

  function AcceptedRun(es: Table, events: seq<Event>, x: Tag): nat {
    if events == [] then 0 else
      var before := events[..|events| - 1];
      AcceptedRun(es, before, x) + AcceptedEvent(RunTable(es, before).table, events[|events| - 1], x)
  }

  /** Over every run of the whole table: at most one entry for a (TID, transmitter) pair, and each packet
      (with its twelve-bit number) goes up or is held exactly as often as it was accepted, through any
      creation, re-creation, deletion and cleanup of flows. In particular an entry is removed only
      after everything it held went up. */
  lemma {:induction false} RunTableConserves(es: Table, events: seq<Event>, x: Tag)
    requires Fit(es) && forall i :: 0 <= i < |events| ==> ProperEvent(events[i])
    ensures var r := RunTable(es, events);
            && Fit(r.table)
            && Times(r.out, x) + PendingAll(r.table, x) == PendingAll(es, x) + AcceptedRun(es, events, x)
  {
    if events != [] {
      hide StepTable, AcceptedEvent, PendingAll, Times, Fit;
      var before, last := events[..|events| - 1], events[|events| - 1];
      RunTableConserves(es, before, x);
      var r := RunTable(es, before);
      StepTableConserves(r.table, last, x);
      TimesAppend(r.out, StepTable(r.table, last).out, x);
    }
  }

  /** An accepted request leaves exactly one entry for its key, empty, starting at the number requested,
      with the window that the response announces. */
  lemma AddbaCreates(es: Table, e: Event)
    requires Fit(es) && ProperEvent(e) && e.Addba? && !e.declined && TidField(e.param) < MAX_NUM_TID
    ensures var r := StepTable(es, e).table;
            var tid := TidField(e.param);
            var i := Find(r, tid, e.ta);
            && UniqueKeys(r) && i == |r| - 1
            && (var f, param := r[i].flow, ResponseParam(e.param, e.cfg.rxAmsdu, e.cfg.rxWinSize);
                && f.base == e.ssn && f.size == WinField(param) && f.buf == map[] && f.lastSeq == e.last
                && f.checkStart && f.pktCount == 0 && !f.amsdu && !f.noDrop && !f.flushPending)
            && r[..i] == Delete(es, tid, e.ta).table
  {
    var tid, size := TidField(e.param), GrantedWin(e.param, e.cfg.rxWinSize);
    ResponseAnnouncesWindow(e.param, e.cfg.rxAmsdu, e.cfg.rxWinSize);
    DeleteFit(es, tid, e.ta);
    CreateFit(es, tid, e.ta, size, e.ssn, e.last);
    var d, r := Delete(es, tid, e.ta).table, StepTable(es, e).table;
    assert r[|d|] == Entry(tid, e.ta, false, NewFlow(size, e.ssn, e.last));
  }
}
