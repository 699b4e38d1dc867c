/** Which entries the block-ack table has, with which windows, and how each one gets where it is: the flow of a key
    is a run of its own, from the latest request accepted for it, which no other key has a part in. */
module TableOrigins {
  import opened Basics
  import opened ReorderSpec
  import opened ReorderConservation
  import opened TableSpec
  import opened TableRuns

  /** The entry of a key, if there is one. */
  function EntryAt(es: Table, tid: int, ta: nat): Option<Entry> {
    var i := Find(es, tid, ta);
    if i < |es| then Some(es[i]) else None
  }

  /** The window of the entry of a key, if there is one. */
  function WindowOf(es: Table, tid: int, ta: nat): Option<nat> {
    var e := EntryAt(es, tid, ta);
    if e.Some? then Some(e.value.flow.size) else None
  }

  /** The event accepts a request for the key. */
  predicate Accepts(e: Event, tid: int, ta: nat) {
    e.Addba? && !e.declined && TidField(e.param) == tid && tid < MAX_NUM_TID && e.ta == ta
  }

  /** The event ends the flow of the key. */
  predicate Ends(e: Event, tid: int, ta: nat) {
    match e
    case AddbaResponse(ta', param, accepted, _) => !accepted && TidField(param) == tid && ta' == ta
    case Delba(tid', ta') => tid' == tid && ta' == ta
    case CleanupStation(ta') => ta' == ta
    case Cleanup => true
    case _ => false
  }

  /** The event says that the response to a request for the key was sent. */
  predicate Confirms(e: Event, tid: int, ta: nat) {
    e.AddbaResponse? && e.accepted && TidField(e.param) == tid && e.ta == ta
  }

  /** The window the response to a request announces. */
  function Announced(e: Event): nat
    requires e.Addba?
  {
    WinField(ResponseParam(e.param, e.cfg.rxAmsdu, e.cfg.rxWinSize))
  }

  /** The flow an accepted request starts. */
  function Started(e: Event): Flow
    requires e.Addba?
  {
    NewFlow(Announced(e), e.ssn, e.last)
  }

  /** What an event is to the flow of the key, if anything. A window of one packet sees no packets. */
  function InputsOf(e: Event, tid: int, ta: nat, size: nat): seq<Input> {
    match e
    case Rx(tid', ta', s, t, p) => if tid' == tid && ta' == ta && size >= 2 then [Packet(s, t, p)] else []
    case AddbaResponse(_, param, _, rxAmsdu) =>
      if Confirms(e, tid, ta) then [SetAmsdu(param % 2 == 1 && rxAmsdu)] else []
    case Timer(tid', ta') => if tid' == tid && ta' == ta then [TimerExpires] else []
    case FlushAll => [FlushWork]
    case NoDrop(flag) => [SetNoDrop(flag)]
    case _ => []
  }

  /** The entry after an event that neither grants nor ends it. */
  function Advanced(x: Entry, e: Event): Entry {
    var inputs := InputsOf(e, x.tid, x.ta, x.flow.size);
    x.(complete := x.complete || Confirms(e, x.tid, x.ta),
       flow := if inputs == [] then x.flow else Step(x.flow, inputs[0]).flow)
  }

  // ---------------------------------------------------------------- changes of the list

  lemma EntrySays(es: Table, tid: int, ta: nat)
    ensures EntryAt(es, tid, ta).Some? ==>
              var x := EntryAt(es, tid, ta).value; HasKey(x, tid, ta) && Find(es, tid, ta) < |es| && x in es
  {
  }

  lemma EntryRemove(es: Table, at: nat, tid: int, ta: nat)
    requires Fit(es) && at < |es|
    ensures EntryAt(Remove(es, at), tid, ta) == if HasKey(es[at], tid, ta) then None else EntryAt(es, tid, ta)
  {
    var r := Remove(es, at);
    assert forall j :: 0 <= j < |r| ==> r[j] == es[if j < at then j else j + 1];
    var i, k := Find(es, tid, ta), Find(r, tid, ta);
    if i < |es| && i != at {
      assert HasKey(r[if i < at then i else i - 1], tid, ta);
    }
  }

  lemma EntryAppend(es: Table, e: Entry, tid: int, ta: nat)
    ensures EntryAt(es + [e], tid, ta)
         == if EntryAt(es, tid, ta).Some? then EntryAt(es, tid, ta)
            else if HasKey(e, tid, ta) then Some(e)
            else None
  {
    var i, k := Find(es, tid, ta), Find(es + [e], tid, ta);
    assert forall j :: 0 <= j < |es| ==> (es + [e])[j] == es[j];
    assert i < |es| ==> HasKey((es + [e])[i], tid, ta);
    assert (es + [e])[|es|] == e;
  }

  /** Replacing an entry by one of the same key. */
  lemma EntryUpdate(es: Table, at: nat, e: Entry, tid: int, ta: nat)
    requires Fit(es) && at < |es| && HasKey(e, es[at].tid, es[at].ta)
    ensures Find(es[at := e], tid, ta) == Find(es, tid, ta)
    ensures EntryAt(es[at := e], tid, ta) == if HasKey(e, tid, ta) then Some(e) else EntryAt(es, tid, ta)
  {
    var r := es[at := e];
    var i, k := Find(es, tid, ta), Find(r, tid, ta);
    assert i < |es| ==> HasKey(r[i], tid, ta);
    assert k < |es| ==> HasKey(es[k], tid, ta);
    assert HasKey(e, tid, ta) ==> HasKey(es[at], tid, ta);
  }

  lemma DeleteEntry(es: Table, tid': int, ta': nat, tid: int, ta: nat)
    requires Fit(es)
    ensures EntryAt(Delete(es, tid', ta').table, tid, ta)
         == if tid' == tid && ta' == ta then None else EntryAt(es, tid, ta)
  {
    hide Drained, Fit, Remove;
    var at := Find(es, tid', ta');
    if at < |es| {
      EntryRemove(es, at, tid, ta);
    }
  }

  lemma StepOneEntry(es: Table, i: nat, input: Input, tid: int, ta: nat)
    requires Fit(es) && i < |es|
    ensures var r, x := StepEntry(es, i, input).table, es[i].(flow := Step(es[i].flow, input).flow);
            && Find(r, tid, ta) == Find(es, tid, ta)
            && EntryAt(r, tid, ta) == if HasKey(es[i], tid, ta) then Some(x) else EntryAt(es, tid, ta)
  {
    hide Step, Fit, EntryAt, Find;
    EntryUpdate(es, i, es[i].(flow := Step(es[i].flow, input).flow), tid, ta);
  }

  lemma {:induction false} FlushEntry(es: Table, i: nat, tid: int, ta: nat)
    requires Fit(es) && i <= |es|
    ensures var x := EntryAt(es, tid, ta);
            EntryAt(FlushFrom(es, i).table, tid, ta)
            == if x.Some? && i <= Find(es, tid, ta) then Some(x.value.(flow := Step(x.value.flow, FlushWork).flow))
               else x
    decreases |es| - i
  {
    hide Fit, Step, Find;
    if i < |es| {
      var a := StepEntry(es, i, Input.FlushWork).table;
      StepEntryConserves(es, i, Input.FlushWork, (0, 0));
      StepOneEntry(es, i, Input.FlushWork, tid, ta);
      FlushEntry(a, i + 1, tid, ta);
      FoundHere(es, i, tid, ta);
    }
  }

  lemma FoundHere(es: Table, i: nat, tid: int, ta: nat)
    requires Fit(es) && i < |es|
    ensures HasKey(es[i], tid, ta) <==> i == Find(es, tid, ta)
  {
  }

  lemma {:induction false} CleanupEntry(es: Table, from: nat, ta': nat, tid: int, ta: nat)
    requires Fit(es) && from <= MAX_NUM_TID
    ensures EntryAt(CleanupFrom(es, from, ta').table, tid, ta)
         == if ta' == ta && from <= tid < MAX_NUM_TID then None else EntryAt(es, tid, ta)
    decreases MAX_NUM_TID - from
  {
    hide Delete, Fit, EntryAt;
    if from < MAX_NUM_TID {
      DeleteConserves(es, from, ta', (0, 0));
      DeleteEntry(es, from, ta', tid, ta);
      CleanupEntry(Delete(es, from, ta').table, from + 1, ta', tid, ta);
    }
  }

  lemma AddbaEntry(es: Table, e: Event, tid: int, ta: nat)
    requires Fit(es) && ProperEvent(e) && e.Addba?
    ensures EntryAt(StepTable(es, e).table, tid, ta)
         == if Accepts(e, tid, ta) then Some(Entry(tid, ta, false, Started(e))) else EntryAt(es, tid, ta)
  {
    hide Delete, Fit, EntryAt, WinField, TidField, ResponseParam, GrantedWin;
    var tid', size := TidField(e.param), GrantedWin(e.param, e.cfg.rxWinSize);
    if !e.declined && tid' < MAX_NUM_TID {
      ResponseAnnouncesWindow(e.param, e.cfg.rxAmsdu, e.cfg.rxWinSize);
      DeleteEntry(es, tid', e.ta, tid, ta);
      EntryAppend(Delete(es, tid', e.ta).table, Entry(tid', e.ta, false, NewFlow(size, e.ssn, e.last)), tid, ta);
    }
  }

  /** Only valid TIDs have entries. */
  lemma NoOtherTid(es: Table, tid: int, ta: nat)
    requires Fit(es) && !(0 <= tid < MAX_NUM_TID)
    ensures EntryAt(es, tid, ta) == None
  {
  }

  lemma CompleteEntry(es: Table, tid': int, ta': nat, amsdu: bool, tid: int, ta: nat)
    requires Fit(es)
    ensures var x := EntryAt(es, tid, ta);
            EntryAt(Complete(es, tid', ta', amsdu), tid, ta)
            == if tid' == tid && ta' == ta && x.Some?
               then Some(x.value.(complete := true, flow := x.value.flow.(amsdu := amsdu))) else x
  {
    hide Fit;
    var i := Find(es, tid', ta');
    if i < |es| {
      EntryUpdate(es, i, es[i].(complete := true, flow := es[i].flow.(amsdu := amsdu)), tid, ta);
    }
  }

  lemma NoDropsEntry(es: Table, flag: bool, tid: int, ta: nat)
    ensures var x := EntryAt(es, tid, ta);
            EntryAt(SetNoDrops(es, flag), tid, ta)
            == if x.Some? then Some(x.value.(flow := x.value.flow.(noDrop := flag))) else None
  {
    var r := SetNoDrops(es, flag);
    var i, j := Find(es, tid, ta), Find(r, tid, ta);
    assert i < |es| ==> HasKey(r[i], tid, ta);
    assert j < |es| ==> HasKey(es[j], tid, ta);
  }

  lemma NothingFound(tid: int, ta: nat)
    ensures EntryAt([], tid, ta) == None
  {
  }

  lemma ReceiveIsStep(es: Table, tid: int, ta: nat, s: nat, t: PktType, p: Payload)
    ensures var i := Find(es, tid, ta);
            ReceiveFor(es, tid, ta, s, t, p).table
              == if i < |es| && es[i].flow.size > 1 then StepEntry(es, i, Packet(s, t, p)).table else es
  {
    hide Receive;
  }

  // ---------------------------------------------------------------- steps

  /** What one event does to a key: it may grant or end its flow, and otherwise it is at most an input of that flow. */
  lemma StepOfKey(es: Table, e: Event, tid: int, ta: nat)
    requires Fit(es) && ProperEvent(e)
    ensures var x := EntryAt(es, tid, ta);
            EntryAt(StepTable(es, e).table, tid, ta)
            == if Accepts(e, tid, ta) then Some(Entry(tid, ta, false, Started(e)))
               else if Ends(e, tid, ta) || x.None? then None
               else Some(Advanced(x.value, e))
  {
    hide Fit, Find, StepEntry, FlushFrom, CleanupFrom, Delete, Create, ReceiveFor, Complete, SetNoDrops, EntryAt, Step,
        Started;
    EntrySays(es, tid, ta);
    match e
    case Rx(tid', ta', s, t, p) => RxOfKey(es, e, tid, ta);
    case Addba(_, _, _, _, _, _) => AddbaEntry(es, e, tid, ta);
    case AddbaResponse(ta', param, accepted, rxAmsdu) =>
      DeleteEntry(es, TidField(param), ta', tid, ta);
      CompleteEntry(es, TidField(param), ta', AmsduBit(param) && rxAmsdu, tid, ta);
      SettingIsStep(AmsduBit(param) && rxAmsdu);
    case Delba(tid', ta') => DeleteEntry(es, tid', ta', tid, ta);
    case Timer(tid', ta') =>
      EntrySays(es, tid', ta');
      var i := Find(es, tid', ta');
      if i < |es| { StepOneEntry(es, i, TimerExpires, tid, ta); }
      FindsKey(es, tid', ta');
    case FlushAll => FlushEntry(es, 0, tid, ta);
    case NoDrop(flag) =>
      NoDropsEntry(es, flag, tid, ta);
      NoDropIsStep(flag);
    case CleanupStation(ta') =>
      CleanupEntry(es, 0, ta', tid, ta);
      if !(0 <= tid < MAX_NUM_TID) { NoOtherTid(es, tid, ta); }
    case Cleanup => CleanupTable(es, tid, ta);
  }

  lemma CleanupTable(es: Table, tid: int, ta: nat)
    ensures EntryAt(DeleteAll(es).table, tid, ta) == None
  {
  }

  lemma FindsKey(es: Table, tid: int, ta: nat)
    ensures var i := Find(es, tid, ta);
            if i < |es| then EntryAt(es, tid, ta) == Some(es[i]) && HasKey(es[i], tid, ta)
            else EntryAt(es, tid, ta) == None
  {
  }

  lemma SettingIsStep(supported: bool)
    ensures forall f: Flow :: Step(f, SetAmsdu(supported)).flow == f.(amsdu := supported)
  {
  }

  lemma NoDropIsStep(flag: bool)
    ensures forall f: Flow :: Step(f, SetNoDrop(flag)).flow == f.(noDrop := flag)
  {
  }

  lemma RxOfKey(es: Table, e: Event, tid: int, ta: nat)
    requires Fit(es) && e.Rx?
    ensures var x := EntryAt(es, tid, ta);
            EntryAt(StepTable(es, e).table, tid, ta) == if x.None? then None else Some(Advanced(x.value, e))
  {
    hide Fit, Find, StepEntry, ReceiveFor, EntryAt, Step;
    var i := Find(es, e.tid, e.ta);
    EntrySays(es, tid, ta);
    FindsKey(es, e.tid, e.ta);
    FindsKey(es, tid, ta);
    ReceiveIsStep(es, e.tid, e.ta, e.s, e.t, e.p);
    if i < |es| && es[i].flow.size > 1 {
      StepOneEntry(es, i, Packet(e.s, e.t, e.p), tid, ta);
    }
  }

  lemma AdvancedSize(es: Table, e: Event, tid: int, ta: nat)
    requires Fit(es) && ProperEvent(e) && EntryAt(es, tid, ta).Some?
    ensures var x := EntryAt(es, tid, ta).value; Advanced(x, e).flow.size == x.flow.size
  {
    hide Step;
    var x := EntryAt(es, tid, ta).value;
    var inputs := InputsOf(e, x.tid, x.ta, x.flow.size);
    if inputs != [] {
      FitStep(x.flow, inputs[0], (0, 0));
    }
  }

  /** What one event does to the window of a key. */
  lemma StepWindow(es: Table, e: Event, tid: int, ta: nat)
    requires Fit(es) && ProperEvent(e)
    ensures WindowOf(StepTable(es, e).table, tid, ta)
         == if Accepts(e, tid, ta) then Some(Announced(e))
            else if Ends(e, tid, ta) then None
            else WindowOf(es, tid, ta)
  {
    hide Fit, StepTable, EntryAt, Announced, Advanced;
    StepOfKey(es, e, tid, ta);
    if EntryAt(es, tid, ta).Some? {
      AdvancedSize(es, e, tid, ta);
    }
  }

  // ---------------------------------------------------------------- runs

  /** The latest event that accepts a request for the key or ends its flow, as an index; -1 when none does. */
  function LatestConcern(events: seq<Event>, tid: int, ta: nat): (k: int)
    ensures -1 <= k < |events|
    ensures k >= 0 ==> Accepts(events[k], tid, ta) || Ends(events[k], tid, ta)
    ensures forall j :: k < j < |events| ==> !Accepts(events[j], tid, ta) && !Ends(events[j], tid, ta)
  {
    if events == [] then -1 else
      var n := |events| - 1;
      if Accepts(events[n], tid, ta) || Ends(events[n], tid, ta) then n else LatestConcern(events[..n], tid, ta)
  }

  /** At every point of every run that starts with an empty table, a key has an entry if and only if the latest
      event that concerns it accepted a request, and the window of the entry is the one the response to
      that very request announced, between 1 and the limit then in force. */
  lemma {:induction false} EntryIffLatestAccepts(events: seq<Event>, tid: int, ta: nat)
    requires forall i :: 0 <= i < |events| ==> ProperEvent(events[i])
    ensures var k, window := LatestConcern(events, tid, ta), WindowOf(RunTable([], events).table, tid, ta);
            && (window.Some? <==> k >= 0 && Accepts(events[k], tid, ta))
            && (window.Some? ==> window.value == Announced(events[k]) && 1 <= window.value <= events[k].cfg.rxWinSize)
  {
    hide StepTable, Fit, WindowOf, Accepts, Ends;
    if events == [] {
      NoWindow(tid, ta);
    } else {
      var before, last := events[..|events| - 1], events[|events| - 1];
      EntryIffLatestAccepts(before, tid, ta);
      EmptyFit();
      RunTableConserves([], before, (0, 0));
      StepWindow(RunTable([], before).table, last, tid, ta);
      AcceptedWindow(last, tid, ta);
    }
  }

  lemma NoWindow(tid: int, ta: nat)
    ensures WindowOf([], tid, ta) == None
  {
  }

  lemma AcceptedWindow(e: Event, tid: int, ta: nat)
    requires ProperEvent(e)
    ensures Accepts(e, tid, ta) ==> e.Addba? && 1 <= Announced(e) <= e.cfg.rxWinSize
  {
    hide WinField, ResponseParam;
    if e.Addba? {
      ResponseAnnouncesWindow(e.param, e.cfg.rxAmsdu, e.cfg.rxWinSize);
    }
  }

  lemma EmptyFit()
    ensures Fit([])
  {
  }

  /** The inputs of the flow of a key, of all events. */
  function AllInputs(events: seq<Event>, tid: int, ta: nat, size: nat): seq<Input> {
    if events == [] then [] else
      AllInputs(events[..|events| - 1], tid, ta, size) + InputsOf(events[|events| - 1], tid, ta, size)
  }

  /** An answer to a request for the key came. */
  predicate Confirmed(events: seq<Event>, tid: int, ta: nat) {
    exists i :: 0 <= i < |events| && Confirms(events[i], tid, ta)
  }

  /** The entry is what a request started, run on the inputs of its key that came since. */
  ghost predicate IsOwnRun(x: Entry, e: Event, since: seq<Event>, tid: int, ta: nat) {
    && e.Addba?
    && x == Entry(tid, ta, Confirmed(since, tid, ta),
                  Run(Started(e), AllInputs(since, tid, ta, Announced(e))).flow)
  }

  lemma LatestSnoc(events: seq<Event>, last: Event, tid: int, ta: nat)
    ensures LatestConcern(events + [last], tid, ta)
         == if Accepts(last, tid, ta) || Ends(last, tid, ta) then |events| else LatestConcern(events, tid, ta)
  {
    hide Accepts, Ends;
    assert (events + [last])[..|events|] == events;
  }

  lemma RunTableSnoc(es: Table, events: seq<Event>, last: Event)
    ensures RunTable(es, events + [last]).table == StepTable(RunTable(es, events).table, last).table
  {
    hide StepTable;
    assert (events + [last])[..|events|] == events;
  }

  /** The entry of a key after events, as a run of its own. */
  ghost predicate KeyIsOwnRun(events: seq<Event>, tid: int, ta: nat) {
    var k, x := LatestConcern(events, tid, ta), EntryAt(RunTable([], events).table, tid, ta);
    && (x.Some? <==> k >= 0 && Accepts(events[k], tid, ta))
    && (x.Some? ==> IsOwnRun(x.value, events[k], events[k + 1..], tid, ta))
  }

  lemma KeySnoc(events: seq<Event>, last: Event, tid: int, ta: nat)
    requires KeyIsOwnRun(events, tid, ta) && Fit(RunTable([], events).table) && ProperEvent(last)
    requires var k, x := LatestConcern(events, tid, ta), EntryAt(RunTable([], events).table, tid, ta);
             x.Some? ==> k >= 0 && events[k].Addba? && x.value.flow.size == Announced(events[k])
    ensures KeyIsOwnRun(events + [last], tid, ta)
  {
    hide StepTable, RunTable, Fit, EntryAt, Accepts, Ends, Advanced, IsOwnRun, Started, LatestConcern, Announced;
    var all, es, k := events + [last], RunTable([], events).table, LatestConcern(events, tid, ta);
    LatestSnoc(events, last, tid, ta);
    RunTableSnoc([], events, last);
    StepOfKey(es, last, tid, ta);
    if Accepts(last, tid, ta) {
      assert all[|events| + 1..] == [] && all[|events|] == last;
      StartsRun(last, tid, ta);
    } else if !Ends(last, tid, ta) && EntryAt(es, tid, ta).Some? {
      assert all[k + 1..] == events[k + 1..] + [last] && all[k] == events[k];
      AdvancesRun(EntryAt(es, tid, ta).value, events[k], events[k + 1..], last, tid, ta);
    } else if Ends(last, tid, ta) {
      assert all[|events|] == last;
      NotBoth(last, tid, ta);
    } else if k >= 0 {
      assert all[k] == events[k];
    }
  }

  lemma NotBoth(e: Event, tid: int, ta: nat)
    ensures !(Accepts(e, tid, ta) && Ends(e, tid, ta))
  {
  }

  /** Flows do not meet: at every point of every run that starts with an empty table, a key has an entry exactly when
      the latest event that concerns it accepted a request; the entry is the flow that request started, after
      a run on the inputs of that key alone that came since, and it is complete exactly when the response
      was confirmed since. */
  lemma {:induction false} FlowIsItsOwnRun(events: seq<Event>, tid: int, ta: nat)
    requires forall i :: 0 <= i < |events| ==> ProperEvent(events[i])
    ensures KeyIsOwnRun(events, tid, ta)
  {
    hide Fit, KeyIsOwnRun, EntryAt, LatestConcern, ProperEvent, RunTable, StepTable;
    if events == [] {
      NoKey(tid, ta);
    } else {
      var before, last := events[..|events| - 1], events[|events| - 1];
      FlowIsItsOwnRun(before, tid, ta);
      EmptyFit();
      RunTableConserves([], before, (0, 0));
      EntrySize(before, tid, ta);
      KeySnoc(before, last, tid, ta);
      assert before + [last] == events;
    }
  }

  lemma NoKey(tid: int, ta: nat)
    ensures KeyIsOwnRun([], tid, ta)
  {
  }

  lemma EntrySize(events: seq<Event>, tid: int, ta: nat)
    requires forall i :: 0 <= i < |events| ==> ProperEvent(events[i])
    ensures var k, x := LatestConcern(events, tid, ta), EntryAt(RunTable([], events).table, tid, ta);
            x.Some? ==> k >= 0 && events[k].Addba? && x.value.flow.size == Announced(events[k])
  {
    hide RunTable, EntryAt, Announced;
    EntryIffLatestAccepts(events, tid, ta);
  }

  lemma StartsRun(e: Event, tid: int, ta: nat)
    requires Accepts(e, tid, ta)
    ensures IsOwnRun(Entry(tid, ta, false, Started(e)), e, [], tid, ta)
  {
  }

  lemma AdvancesRun(x: Entry, e: Event, since: seq<Event>, last: Event, tid: int, ta: nat)
    requires IsOwnRun(x, e, since, tid, ta) && x.flow.size == Announced(e)
    ensures IsOwnRun(Advanced(x, last), e, since + [last], tid, ta)
  {
    hide Step, Confirms, Started, InputsOf, Announced;
    var all := since + [last];
    assert all[..|all| - 1] == since;
    AtMostOne(last, tid, ta, Announced(e));
    RunMore(Started(e), AllInputs(since, tid, ta, Announced(e)), InputsOf(last, tid, ta, Announced(e)));
    assert Confirmed(all, tid, ta) <==> Confirmed(since, tid, ta) || Confirms(last, tid, ta) by {
      assert forall i :: 0 <= i < |since| ==> all[i] == since[i];
      assert all[|since|] == last;
    }
  }

  lemma AtMostOne(e: Event, tid: int, ta: nat, size: nat)
    ensures |InputsOf(e, tid, ta, size)| <= 1
  {
  }

  lemma RunMore(f: Flow, inputs: seq<Input>, more: seq<Input>)
    requires |more| <= 1
    ensures Run(f, inputs + more).flow
         == if more == [] then Run(f, inputs).flow else Step(Run(f, inputs).flow, more[0]).flow
  {
    hide Step;
    if more == [] {
      assert inputs + more == inputs;
    } else {
      assert (inputs + more)[..|inputs|] == inputs;
    }
  }
}
