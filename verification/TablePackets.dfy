/** What becomes of the packets of a whole table: which are refused, which go up at once, which wait. */
module TablePackets {
  import opened Basics
  import opened ReorderSpec
  import opened ReorderConservation
  import opened ReorderModes
  import opened TableSpec
  import opened TableRuns
  import opened TableOrigins

  /** The packet meets a reorder window: its key has an entry with a window of two packets or more. */
  predicate MeetsWindow(es: Table, tid: int, ta: nat) {
    var x := EntryAt(es, tid, ta);
    x.Some? && x.value.flow.size >= 2
  }

  /** A packet without an entry, or with a window of one packet, is never refused, goes up at once, and changes no
      entry. */
  lemma WithoutWindow(es: Table, tid: int, ta: nat, s: nat, t: PktType, p: Payload)
    requires !MeetsWindow(es, tid, ta)
    ensures StepTable(es, Rx(tid, ta, s, t, p)) == TableOutcome(es, AtOnce(s, t, p), true)
  {
    FindsKey(es, tid, ta);
  }

  /** Any other packet fares as its flow alone would have it. */
  lemma WithWindow(es: Table, tid: int, ta: nat, s: nat, t: PktType, p: Payload)
    requires Fit(es) && MeetsWindow(es, tid, ta) && s < 4096
    ensures var f, r := EntryAt(es, tid, ta).value.flow, StepTable(es, Rx(tid, ta, s, t, p));
            && (r.ok <==> !Refuses(f, s, t)) && r.out == Receive(f, s, t, p).out
            && EntryAt(r.table, tid, ta).Some? && EntryAt(r.table, tid, ta).value.flow == Receive(f, s, t, p).flow
  {
    hide Receive, Refuses;
    FindsKey(es, tid, ta);
    var f := EntryAt(es, tid, ta).value.flow;
    RefusedIff(f, s, t, p);
    StepOfKey(es, Rx(tid, ta, s, t, p), tid, ta);
  }

  /** Exactly which packets a table refuses. */
  predicate TableRefuses(es: Table, e: Event)
    requires e.Rx?
  {
    MeetsWindow(es, e.tid, e.ta) && Refuses(EntryAt(es, e.tid, e.ta).value.flow, e.s, e.t)
  }

  lemma RxRefusedIff(es: Table, e: Event)
    requires Fit(es) && ProperEvent(e) && e.Rx?
    ensures StepTable(es, e).ok <==> !TableRefuses(es, e)
  {
    hide StepTable, Refuses, Receive;
    if MeetsWindow(es, e.tid, e.ta) {
      WithWindow(es, e.tid, e.ta, e.s, e.t, e.p);
    } else {
      WithoutWindow(es, e.tid, e.ta, e.s, e.t, e.p);
    }
  }

  // ---------------------------------------------------------------- runs

  predicate TableKeeps(es: Table, e: Event, x: Tag) {
    e.Rx? && !e.t.Bar? && e.p.Data? && x == (e.s, e.p.id) && !TableRefuses(es, e)
  }

  /** Data packets with a tag that the table does not refuse. */
  function KeptBy(es: Table, events: seq<Event>, x: Tag): nat {
    if events == [] then 0 else
      var before, last := events[..|events| - 1], events[|events| - 1];
      KeptBy(es, before, x) + if TableKeeps(RunTable(es, before).table, last, x) then 1 else 0
  }

  lemma {:induction false} AcceptedIsKeptBy(es: Table, events: seq<Event>, x: Tag)
    requires Fit(es) && forall i :: 0 <= i < |events| ==> ProperEvent(events[i])
    ensures AcceptedRun(es, events, x) == KeptBy(es, events, x)
  {
    if events != [] {
      hide StepTable, Fit, TableRefuses, RunTable;
      var before, last := events[..|events| - 1], events[|events| - 1];
      AcceptedIsKeptBy(es, before, x);
      RunTableConserves(es, before, x);
      if last.Rx? {
        RxRefusedIff(RunTable(es, before).table, last);
      }
    }
  }

  /** Over every run of the whole table each data packet is delivered or held exactly as often as it came without
      being refused; a packet without a window always counts. */
  lemma RunTableKeeps(es: Table, events: seq<Event>, x: Tag)
    requires Fit(es) && forall i :: 0 <= i < |events| ==> ProperEvent(events[i])
    ensures var r := RunTable(es, events);
            Times(r.out, x) + PendingAll(r.table, x) == PendingAll(es, x) + KeptBy(es, events, x)
  {
    hide Times, PendingAll, RunTable, KeptBy, AcceptedRun;
    RunTableConserves(es, events, x);
    AcceptedIsKeptBy(es, events, x);
  }

  // ---------------------------------------------------------------- flushes and deletion

  /** What an entry that goes hands up: everything it holds, in order. */
  lemma DeleteHandsUp(es: Table, tid: int, ta: nat)
    ensures var x := EntryAt(es, tid, ta);
            Delete(es, tid, ta).out
            == if x.Some? then Release(x.value.flow.buf, x.value.flow.base, x.value.flow.base + x.value.flow.size)
               else []
  {
    hide Release;
    FindsKey(es, tid, ta);
  }

  /** A timer that expires and the deferred work after it leave the entry of its key with nothing held, whatever else
      is pending. */
  lemma TimerThenFlush(es: Table, tid: int, ta: nat)
    requires Fit(es) && EntryAt(es, tid, ta).Some?
    ensures var r := RunTable(es, [Timer(tid, ta), FlushAll]);
            var f := EntryAt(es, tid, ta).value.flow;
            && EntryAt(r.table, tid, ta).Some? && EntryAt(r.table, tid, ta).value.flow == Emptied(f)
  {
    hide StepTable, RunTable, Fit, EntryAt, Emptied, Flushed, Advanced;
    var a, x := StepTable(es, Timer(tid, ta)).table, EntryAt(es, tid, ta).value;
    TwoEvents(es, Timer(tid, ta), FlushAll);
    StepTableConserves(es, Timer(tid, ta), (0, 0));
    StepOfKey(es, Timer(tid, ta), tid, ta);
    StepOfKey(a, FlushAll, tid, ta);
    EntrySays(es, tid, ta);
    FitWindow(es, x);
    PendsThenFlushes(x);
  }

  lemma TwoEvents(es: Table, e: Event, e': Event)
    ensures RunTable(es, [e, e']).table == StepTable(StepTable(es, e).table, e').table
  {
    hide StepTable;
    assert [e, e'] == [e] + [e'] && [e] == [] + [e];
    RunTableSnoc(es, [e], e');
    RunTableSnoc(es, [], e);
  }

  lemma PendsThenFlushes(x: Entry)
    requires InWindow(x.flow) && x.flow.size >= 1
    ensures Advanced(Advanced(x, Timer(x.tid, x.ta)), FlushAll).flow == Emptied(x.flow)
  {
    hide Flushed;
    FlushWorkSays(x.flow.(flushPending := true));
  }

  lemma FitWindow(es: Table, x: Entry)
    requires Fit(es) && x in es
    ensures InWindow(x.flow) && x.flow.size >= 1
  {
  }
}
