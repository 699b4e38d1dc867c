/** Order of delivery of one flow, in its steady phase: what one step does, when runs are in order,
    and exactly which window moves break the order. */
module ReorderOrder {
  import opened SerialNumbers
  import opened ReorderSpec
  import opened ReorderConservation

  // ---------------------------------------------------------------- the steady phase

  /** Past the start-up phase, with no forced restart under way. */
  predicate Steady(f: Flow) {
    !f.checkStart && !f.noDrop
  }

  predicate SteadyInput(f: Flow, input: Input) {
    match input
    case Packet(s, t, p) => s < 4096 && (t.Amsdu? ==> f.amsdu)
    case TimerExpires => true
    case FlushWork => true
    case SetNoDrop(flag) => !flag
    case SetAmsdu(supported) => false
  }

  /** What the flow would hold were the packet stored without moving anything. */
  function WithPacket(f: Flow, t: PktType, d: nat, p: Payload): map<int, Payload> {
    if t.Bar? then f.buf else f.buf[f.base + d := p]
  }

  /** `h` is the first number at or after `lo` that is missing from `buf`. */
  ghost predicate FirstMissing(buf: map<int, Payload>, lo: int, h: int) {
    lo <= h && h !in buf && forall u :: lo <= u < h ==> u in buf
  }

  /** The packet is neither too old nor a duplicate. */
  predicate Fresh(f: Flow, t: PktType, d: nat) {
    d < 2048 && (t.Bar? || f.base + d !in f.buf)
  }

  lemma {:induction false} ReleaseJoin(buf: map<int, Payload>, lo: int, mid: int, hi: int)
    requires lo <= mid <= hi
    ensures Release(buf, lo, hi) == Release(buf, lo, mid) + Release(buf, mid, hi)
    decreases hi - mid
  {
    if mid < hi {
      ReleaseJoin(buf, lo, mid, hi - 1);
    }
  }

  /** Admission of a fresh packet when the window does not cross the wrap: the window advances to its
      target and from there to the first number missing, and everything before that goes up in order. */
  lemma AdmitEffect(f: Flow, t: PktType, d: nat, p: Payload)
    requires WellFormed(f) && Fresh(f, t, d) && !CrossesWrap(f.base, Target(f, t, d))
    ensures var b := WithPacket(f, t, d, p);
            var r := Admit(f, t, d, p);
            && r.ok && FirstMissing(b, Target(f, t, d), r.flow.base)
            && r.out == Release(b, f.base, r.flow.base)
            && r.flow == f.(base := r.flow.base, buf := KeepFrom(b, r.flow.base))
  {
    hide Release, Scan, Moved;
    var to, b, m := Target(f, t, d), WithPacket(f, t, d, p), Moved(f, t, d);
    MovedFacts(f, t, d);
    MovedKeeps(f, t, d);
    var g := if t.Bar? then m.flow else m.flow.(buf := m.flow.buf[f.base + d := p]);
    MovedOut(f, t, d, b);
    ScanFrom(g, b);
    ReleaseJoin(b, f.base, to, Scan(g).flow.base);
  }

  /** A scan sees only the numbers from the start of the window on. */
  lemma ScanFrom(g: Flow, b: map<int, Payload>)
    requires g.base + g.size !in b && g.size >= 1
    requires forall u :: g.base <= u ==> (u in g.buf <==> u in b) && (u in b ==> g.buf[u] == b[u])
    ensures var h := Scan(g).flow.base;
            && FirstMissing(b, g.base, h)
            && Scan(g) == Outcome(g.(base := h, buf := KeepFrom(b, h)), Release(b, g.base, h), true)
  {
    var h := NextHole(g.buf, g.base, g.base + g.size);
    ReleaseAgree(g.buf, b, g.base, h);
    assert KeepFrom(g.buf, h) == KeepFrom(b, h);
  }

  lemma MovedKeeps(f: Flow, t: PktType, d: nat)
    requires WellFormed(f) && !CrossesWrap(f.base, Target(f, t, d))
    ensures var m := Moved(f, t, d).flow;
            forall u :: m.base <= u ==> (u in m.buf <==> u in f.buf) && (u in f.buf ==> m.buf[u] == f.buf[u])
  {
  }

  lemma MovedOut(f: Flow, t: PktType, d: nat, b: map<int, Payload>)
    requires WellFormed(f) && !CrossesWrap(f.base, Target(f, t, d))
    requires forall u :: u < Target(f, t, d) ==> (u in f.buf <==> u in b) && (u in b ==> f.buf[u] == b[u])
    ensures Moved(f, t, d).out == Release(b, f.base, Target(f, t, d))
  {
    var to := Target(f, t, d);
    if to > f.base {
      var hi := ReleaseEnd(f, to);
      ReleaseAgree(f.buf, b, f.base, to);
      ReleaseJoin(f.buf, f.base, hi, to);
      ReleaseNothing(f.buf, hi, to);
    }
  }

  /** Admission when the window crosses the wrap: everything held goes up, wherever the new start is. */
  lemma AdmitCrossing(f: Flow, t: PktType, d: nat, p: Payload)
    requires WellFormed(f) && Fresh(f, t, d) && CrossesWrap(f.base, Target(f, t, d))
    ensures var r := Admit(f, t, d, p);
            && r.ok && r.out == Release(f.buf, f.base, f.base + f.size)
            && r.flow == f.(base := Target(f, t, d), buf := if t.Bar? then map[] else map[f.base + d := p])
  {
    var to, m := Target(f, t, d), Moved(f, t, d);
    assert m.flow == f.(base := to, buf := map[]);
    var g := if t.Bar? then m.flow else m.flow.(buf := map[f.base + d := p]);
    assert NextHole(g.buf, to, to + f.size) == to;
    assert KeepFrom(g.buf, to) == g.buf;
  }

  /** The steady step, completely. */
  lemma ReceiveSteady(f: Flow, s: nat, t: PktType, p: Payload)
    requires WellFormed(f) && Steady(f) && !f.flushPending && s < 4096 && (t.Amsdu? ==> f.amsdu)
    ensures var d := Dist(f.base, s);
            Receive(f, s, t, p) == if Fresh(f, t, d) then Admit(f, t, d, p) else Outcome(f, [], false)
  {
    hide Release, Scan, MoveTo;
    MovedFacts(f, t, Dist(f.base, s));
    var r := ReceiveFlushed(f, s, t, p);
    assert [] + r.out == r.out;
    assert Prepare(f, s) == f;
  }

  // ---------------------------------------------------------------- order of what goes up

  predicate Ascending(out: seq<Delivery>) {
    && (forall i :: 0 <= i < |out| ==> out[i].InOrder?)
    && forall i, j :: 0 <= i < j < |out| ==> out[i].num < out[j].num
  }

  predicate AtLeast(out: seq<Delivery>, lo: int) {
    forall i :: 0 <= i < |out| ==> out[i].InOrder? && lo <= out[i].num
  }

  predicate Below(out: seq<Delivery>, hi: int) {
    forall i :: 0 <= i < |out| ==> out[i].InOrder? && out[i].num < hi
  }

  lemma AscendingAppend(a: seq<Delivery>, b: seq<Delivery>, mid: int)
    requires Ascending(a) && Ascending(b) && Below(a, mid) && AtLeast(b, mid)
    ensures Ascending(a + b)
  {
  }

  lemma {:induction false} ReleaseAscends(buf: map<int, Payload>, lo: int, hi: int)
    ensures Ascending(Release(buf, lo, hi)) && AtLeast(Release(buf, lo, hi), lo) && Below(Release(buf, lo, hi), hi)
    ensures forall i :: 0 <= i < |Release(buf, lo, hi)| ==>
              var d := Release(buf, lo, hi)[i]; d.num in buf && buf[d.num] == Data(d.id)
    decreases hi - lo
  {
    if lo < hi {
      ReleaseAscends(buf, lo, hi - 1);
    }
  }

  lemma {:induction false} ReleaseHas(buf: map<int, Payload>, lo: int, hi: int, u: int)
    requires lo <= u < hi && u in buf && buf[u].Data?
    ensures InOrder(u, buf[u].id) in Release(buf, lo, hi)
    decreases hi - lo
  {
    if u < hi - 1 {
      ReleaseHas(buf, lo, hi - 1, u);
    }
  }

  /** The packet makes the window cross the wrap while data at or past its new start is held. */
  ghost predicate ReleasesEarly(f: Flow, s: nat, t: PktType) {
    var d := Dist(f.base, s);
    && Fresh(f, t, d)
    && CrossesWrap(f.base, Target(f, t, d))
    && exists u :: u in f.buf && f.buf[u].Data? && Target(f, t, d) <= u
  }

  /** The same of any step; a pending flush comes before the packet. */
  ghost predicate Early(f: Flow, input: Input) {
    input.Packet? && ReleasesEarly(Flushed(f).flow, input.s, input.t)
  }

  lemma PacketOrder(f: Flow, s: nat, t: PktType, p: Payload)
    requires WellFormed(f) && Steady(f) && !f.flushPending && s < 4096 && (t.Amsdu? ==> f.amsdu)
    ensures var r := Receive(f, s, t, p);
            && Ascending(r.out) && AtLeast(r.out, f.base) && f.base <= r.flow.base
            && r.flow == f.(base := r.flow.base, buf := r.flow.buf)
            && (Below(r.out, r.flow.base) <==> !ReleasesEarly(f, s, t))
  {
    hide Admit, Receive, Release;
    var d := Dist(f.base, s);
    var to, r := Target(f, t, d), Receive(f, s, t, p);
    ReceiveSteady(f, s, t, p);
    if Fresh(f, t, d) {
      if CrossesWrap(f.base, to) {
        AdmitCrossing(f, t, d, p);
        ReleaseAscends(f.buf, f.base, f.base + f.size);
        if ReleasesEarly(f, s, t) {
          var u :| u in f.buf && f.buf[u].Data? && to <= u;
          ReleaseHas(f.buf, f.base, f.base + f.size, u);
        }
      } else {
        AdmitEffect(f, t, d, p);
        ReleaseAscends(WithPacket(f, t, d, p), f.base, r.flow.base);
      }
    }
  }

  lemma ReceiveAfterFlush(f: Flow, s: nat, t: PktType, p: Payload)
    requires WellFormed(f)
    ensures var f0 := Flushed(f);
            var r := Receive(f0.flow, s, t, p);
            Receive(f, s, t, p) == Outcome(r.flow, f0.out + r.out, r.ok)
  {
    FlushedFacts(f);
    hide ReceiveFlushed, Flush;
    var f0 := Flushed(f).flow;
    var r := ReceiveFlushed(f0, s, t, p);
    assert Flushed(f0) == Outcome(f0, [], true);
    assert [] + r.out == r.out;
  }

  lemma FlushedOrder(f: Flow)
    requires WellFormed(f)
    ensures var r := Flushed(f);
            && Ascending(r.out) && AtLeast(r.out, f.base) && Below(r.out, r.flow.base) && f.base <= r.flow.base
            && (f.flushPending ==> r.flow.buf == map[])
  {
    FlushedFacts(f);
    if f.flushPending {
      var g := f.(flushPending := false);
      var e := PastLast(f.buf, f.base, f.base + f.size);
      ReleaseAscends(f.buf, f.base, ReleaseEnd(g, e));
    }
  }

  /** One steady step hands up ascending numbers from the window on; all of them lie before the new
      start of the window exactly when the step does not release early. */
  lemma StepOrder(f: Flow, input: Input)
    requires WellFormed(f) && Steady(f) && SteadyInput(f, input)
    ensures var r := Step(f, input);
            && Ascending(r.out) && AtLeast(r.out, f.base) && f.base <= r.flow.base
            && WellFormed(r.flow) && Steady(r.flow) && r.flow.amsdu == f.amsdu
            && (Below(r.out, r.flow.base) <==> !Early(f, input))
  {
    hide Receive, Flushed;
    StepWellFormed(f, input);
    FlushedFacts(f);
    FlushedOrder(f);
    if input.Packet? {
      var f0 := Flushed(f);
      ReceiveAfterFlush(f, input.s, input.t, input.p);
      PacketOrder(f0.flow, input.s, input.t, input.p);
      AscendingAppend(f0.out, Receive(f0.flow, input.s, input.t, input.p).out, f0.flow.base);
      var q := Receive(f0.flow, input.s, input.t, input.p).out;
      assert Below(q, Step(f, input).flow.base) <==> Below(f0.out + q, Step(f, input).flow.base) by {
        assert forall i :: 0 <= i < |q| ==> (f0.out + q)[|f0.out| + i] == q[i];
      }
    }
  }

  // ---------------------------------------------------------------- runs

  predicate SteadyRun(f: Flow, inputs: seq<Input>) {
    forall i :: 0 <= i < |inputs| ==> SteadyInput(f, inputs[i])
  }

  /** No step of the run moves the window across the wrap while data at or past its new start is held. */
  ghost predicate NeverEarly(f: Flow, inputs: seq<Input>) {
    forall i :: 0 <= i < |inputs| ==> !Early(Run(f, inputs[..i]).flow, inputs[i])
  }

  lemma {:induction false} RunSteady(f: Flow, inputs: seq<Input>)
    requires WellFormed(f) && Steady(f) && SteadyRun(f, inputs)
    ensures var r := Run(f, inputs).flow;
            WellFormed(r) && Steady(r) && r.amsdu == f.amsdu && f.base <= r.base
  {
    if inputs != [] {
      hide Step, Early;
      var before := inputs[..|inputs| - 1];
      RunSteady(f, before);
      StepOrder(Run(f, before).flow, inputs[|inputs| - 1]);
    }
  }

  /** In-order, at-most-once delivery: the unbounded numbers handed up strictly increase over the
      whole run, and all lie before the window. */
  lemma {:induction false} RunInOrder(f: Flow, inputs: seq<Input>)
    requires WellFormed(f) && Steady(f) && SteadyRun(f, inputs) && NeverEarly(f, inputs)
    ensures var r := Run(f, inputs);
            Ascending(r.out) && AtLeast(r.out, f.base) && Below(r.out, r.flow.base)
  {
    if inputs != [] {
      hide Step, Early;
      var before, last := inputs[..|inputs| - 1], inputs[|inputs| - 1];
      assert forall i :: 0 <= i < |before| ==> before[..i] == inputs[..i];
      RunInOrder(f, before);
      RunSteady(f, before);
      var r := Run(f, before);
      StepOrder(r.flow, last);
      AscendingAppend(r.out, Step(r.flow, last).out, r.flow.base);
    }
  }

  lemma RunSnoc(f: Flow, inputs: seq<Input>, input: Input)
    ensures var r := Run(f, inputs);
            var q := Step(r.flow, input);
            Run(f, inputs + [input]) == Outcome(q.flow, r.out + q.out, q.ok)
  {
    assert (inputs + [input])[..|inputs|] == inputs;
  }

  /** The packet numbered as the start of the window goes up at once. */
  lemma HeadGoesUp(f: Flow, id: nat)
    requires WellFormed(f) && Steady(f) && !f.flushPending
    ensures InOrder(f.base, id) in Receive(f, f.base % 4096, Plain, Data(id)).out
  {
    hide Receive, Admit;
    var s := f.base % 4096;
    ReceiveSteady(f, s, Plain, Data(id));
    AdmitEffect(f, Plain, 0, Data(id));
    var b := f.buf[f.base := Data(id)];
    var h := Receive(f, s, Plain, Data(id)).flow.base;
    assert f.base in b;
    ReleaseHas(b, f.base, h, f.base);
  }

  /** After an early release, the packet the window is waiting for goes up behind a later one. */
  lemma EarlyBreaksOrder(f: Flow, inputs: seq<Input>, i: nat, id: nat)
    requires WellFormed(f) && Steady(f) && SteadyRun(f, inputs) && i < |inputs|
    requires Early(Run(f, inputs[..i]).flow, inputs[i])
    ensures var g := Run(f, inputs[..i + 1]);
            !Ascending(Run(f, inputs[..i + 1] + [Packet(g.flow.base % 4096, Plain, Data(id))]).out)
  {
    hide Early, Receive, Flushed;
    var r := Run(f, inputs[..i]);
    assert inputs[..i + 1] == inputs[..i] + [inputs[i]];
    RunSnoc(f, inputs[..i], inputs[i]);
    RunSteady(f, inputs[..i]);
    StepOrder(r.flow, inputs[i]);
    var q := Step(r.flow, inputs[i]);
    var g := Run(f, inputs[..i + 1]);
    assert !Below(q.out, g.flow.base);
    var j :| 0 <= j < |q.out| && g.flow.base <= q.out[j].num;
    EarlyIsPacket(r.flow, inputs[i]);
    HeadGoesUp(g.flow, id);
    var next := Packet(g.flow.base % 4096, Plain, Data(id));
    RunSnoc(f, inputs[..i + 1], next);
    var more := Step(g.flow, next).out;
    var k :| 0 <= k < |more| && more[k] == InOrder(g.flow.base, id);
    var all := g.out + more;
    assert all[|r.out| + j] == q.out[j];
    assert all[|g.out| + k] == more[k];
  }

  lemma EarlyIsPacket(f: Flow, input: Input)
    requires WellFormed(f) && SteadyInput(f, input) && Early(f, input)
    ensures input.Packet? && !Step(f, input).flow.flushPending
  {
    ReceiveWellFormed(f, input.s, input.t, input.p);
  }

  /** Exactly when delivery is in order: a steady run never releases early if and only if it is in
      order at every point, whatever data packet comes next. */
  lemma InOrderIffNeverEarly(f: Flow, inputs: seq<Input>)
    requires WellFormed(f) && Steady(f) && SteadyRun(f, inputs)
    ensures NeverEarly(f, inputs) <==>
            forall i: nat, s: nat, id: nat :: i <= |inputs| && s < 4096 ==>
              Ascending(Run(f, inputs[..i] + [Packet(s, Plain, Data(id))]).out)
  {
    if NeverEarly(f, inputs) {
      forall i: nat, s: nat, id: nat | i <= |inputs| && s < 4096
        ensures Ascending(Run(f, inputs[..i] + [Packet(s, Plain, Data(id))]).out)
      {
        var before, next := inputs[..i], Packet(s, Plain, Data(id));
        assert forall k :: 0 <= k < i ==> before[..k] == inputs[..k];
        RunInOrder(f, before);
        RunSteady(f, before);
        var r := Run(f, before);
        StepOrder(r.flow, next);
        RunSnoc(f, before, next);
        AscendingAppend(r.out, Step(r.flow, next).out, r.flow.base);
      }
    } else {
      var i :| 0 <= i < |inputs| && Early(Run(f, inputs[..i]).flow, inputs[i]);
      EarlyBreaksOrder(f, inputs, i, 0);
      var g := Run(f, inputs[..i + 1]).flow.base % 4096;
      assert !Ascending(Run(f, inputs[..i + 1] + [Packet(g, Plain, Data(0))]).out);
    }
  }

  const SMALL_FLOW := Flow(4094, 4, map[], NO_SEQ, 0, false, false, false, false)

  lemma ExampleHolds()
    ensures Step(SMALL_FLOW, Packet(1, Plain, Data(71))) == Outcome(SMALL_FLOW.(buf := map[4097 := Data(71)]), [], true)
  {
    hide Admit;
    ReceiveSteady(SMALL_FLOW, 1, Plain, Data(71));
    AdmitEffect(SMALL_FLOW, Plain, 3, Data(71));
    var b := map[4097 := Data(71)];
    assert KeepFrom(b, 4094) == b;
    assert FirstMissing(b, 4094, Step(SMALL_FLOW, Packet(1, Plain, Data(71))).flow.base);
    assert Release(b, 4094, 4094) == [];
  }

  lemma ExampleMoves()
    ensures Step(SMALL_FLOW.(buf := map[4097 := Data(71)]), Packet(0, Bar, DroppedInFw))
         == Outcome(SMALL_FLOW.(base := 4096), [InOrder(4097, 71)], true)
  {
    hide Admit;
    var f := SMALL_FLOW.(buf := map[4097 := Data(71)]);
    ReceiveSteady(f, 0, Bar, DroppedInFw);
    AdmitCrossing(f, Bar, 2, DroppedInFw);
    ReleaseNothing(f.buf, 4094, 4097);
    assert Release(f.buf, 4094, 4098) == Release(f.buf, 4094, 4097) + DeliverAt(f.buf, 4097);
  }

  lemma ExampleGoesUpLate()
    ensures Step(SMALL_FLOW.(base := 4096), Packet(0, Plain, Data(70))).out == [InOrder(4096, 70)]
  {
    hide Admit;
    var f := SMALL_FLOW.(base := 4096);
    ReceiveSteady(f, 0, Plain, Data(70));
    AdmitEffect(f, Plain, 0, Data(70));
    var b, h := map[4096 := Data(70)], Step(f, Packet(0, Plain, Data(70))).flow.base;
    assert FirstMissing(b, 4096, h);
    assert h == 4097;
    ReleaseNothing(b, 4096, 4096);
    assert Release(b, 4096, 4097) == [] + DeliverAt(b, 4096);
  }

  /** The first packet of a new flow, numbered as its start, ends the start-up phase. */
  lemma ExampleStarts()
    ensures Step(NewFlow(4, 4093, NO_SEQ), Packet(4093, Plain, Data(69)))
         == Outcome(SMALL_FLOW, [InOrder(4093, 69)], true)
  {
    hide Admit, Settle;
    var f := NewFlow(4, 4093, NO_SEQ);
    var g := f.(checkStart := false);
    var input := Packet(4093, Plain, Data(69));
    assert Step(f, input).flow == Settle(g, 4093, Plain, Data(69)).flow && Step(g, input) == Step(f, input);
    ReceiveSteady(g, 4093, Plain, Data(69));
    AdmitEffect(g, Plain, 0, Data(69));
    var b, h := map[4093 := Data(69)], Step(g, input).flow.base;
    assert FirstMissing(b, 4093, h);
    assert h == 4094 && KeepFrom(b, 4094) == map[];
    ReleaseNothing(b, 4093, 4093);
    assert Release(b, 4093, 4094) == [] + DeliverAt(b, 4093);
  }

  /** A failing run from a new flow: once packet 4093 is up, packet 4097 is held when a block ack request
      moves the start from 4094 to 4096, and packet 4096 goes up behind it. */
  lemma EarlyReleaseExample()
    ensures var inputs := [Packet(4093, Plain, Data(69)), Packet(1, Plain, Data(71)),
                           Packet(0, Bar, DroppedInFw), Packet(0, Plain, Data(70))];
            Run(NewFlow(4, 4093, NO_SEQ), inputs).out == [InOrder(4093, 69), InOrder(4097, 71), InOrder(4096, 70)]
  {
    hide Step, Run;
    ExampleStarts();
    ExampleHolds();
    ExampleMoves();
    ExampleGoesUpLate();
    RunOfFour(NewFlow(4, 4093, NO_SEQ),
              Packet(4093, Plain, Data(69)), Packet(1, Plain, Data(71)),
              Packet(0, Bar, DroppedInFw), Packet(0, Plain, Data(70)));
  }

  lemma RunOfOne(f: Flow, a: Input)
    ensures Run(f, [a]) == Step(f, a)
  {
    hide Step;
    assert [a][..0] == [];
    assert Run(f, []) == Outcome(f, [], true);
    assert [] + Step(f, a).out == Step(f, a).out;
  }

  lemma RunOfFour(f: Flow, a: Input, b: Input, c: Input, d: Input)
    ensures var x := Step(f, a);
            var y := Step(x.flow, b);
            var z := Step(y.flow, c);
            Run(f, [a, b, c, d]).out == x.out + y.out + z.out + Step(z.flow, d).out
  {
    hide Step, Run;
    RunOfOne(f, a);
    RunSnoc(f, [a], b);
    assert [a] + [b] == [a, b];
    RunSnoc(f, [a, b], c);
    assert [a, b] + [c] == [a, b, c];
    RunSnoc(f, [a, b, c], d);
    assert [a, b, c] + [d] == [a, b, c, d];
  }

  /** A block ack request strictly ahead of the start, by less than half the number space, when the move
      does not cross the wrap: everything held before its number goes up, with the run that follows
      it, and the window waits for the first missing number at or after it. */
  lemma BlockAckRequest(f: Flow, s: nat)
    requires WellFormed(f) && Steady(f) && !f.flushPending && s < 4096
    requires 1 <= Dist(f.base, s) < 2048 && !CrossesWrap(f.base, f.base + Dist(f.base, s))
    ensures var to := f.base + Dist(f.base, s);
            var r := Receive(f, s, Bar, DroppedInFw);
            && r.ok && FirstMissing(f.buf, to, r.flow.base)
            && r.out == Release(f.buf, f.base, r.flow.base)
            && r.flow == f.(base := r.flow.base, buf := KeepFrom(f.buf, r.flow.base))
  {
    ReceiveSteady(f, s, Bar, DroppedInFw);
    AdmitEffect(f, Bar, Dist(f.base, s), DroppedInFw);
  }

  // ---------------------------------------------------------------- runs inside the window

  ghost predicate HoldsData(f: Flow) {
    forall u :: u in f.buf ==> f.buf[u].Data?
  }

  /** A data packet that does not move the window: inside it, or too old. */
  predicate NoMove(f: Flow, input: Input) {
    && input.Packet? && input.s < 4096 && input.t.Plain? && input.p.Data?
    && !(f.size <= Dist(f.base, input.s) < 2048)
  }

  predicate Contiguous(out: seq<Delivery>, lo: int, hi: int) {
    |out| == hi - lo && forall i :: 0 <= i < |out| ==> out[i].InOrder? && out[i].num == lo + i
  }

  lemma {:induction false} ReleaseContiguous(buf: map<int, Payload>, lo: int, hi: int)
    requires lo <= hi && forall u :: lo <= u < hi ==> u in buf && buf[u].Data?
    ensures Contiguous(Release(buf, lo, hi), lo, hi)
    decreases hi - lo
  {
    if lo < hi {
      ReleaseContiguous(buf, lo, hi - 1);
    }
  }

  lemma ContiguousAppend(a: seq<Delivery>, b: seq<Delivery>, lo: int, mid: int, hi: int)
    requires Contiguous(a, lo, mid) && Contiguous(b, mid, hi)
    ensures Contiguous(a + b, lo, hi)
  {
  }

  lemma NoMoveStep(f: Flow, input: Input)
    requires WellFormed(f) && Steady(f) && !f.flushPending && HoldsData(f) && NoMove(f, input)
    ensures var r := Step(f, input);
            && WellFormed(r.flow) && Steady(r.flow) && !r.flow.flushPending && HoldsData(r.flow)
            && r.flow.size == f.size && f.base <= r.flow.base && Contiguous(r.out, f.base, r.flow.base)
  {
    hide Receive, Admit;
    var d := Dist(f.base, input.s);
    var r := Step(f, input);
    StepWellFormed(f, input);
    ReceiveSteady(f, input.s, input.t, input.p);
    if Fresh(f, input.t, d) {
      AdmitEffect(f, input.t, d, input.p);
      ReleaseContiguous(WithPacket(f, input.t, d, input.p), f.base, r.flow.base);
    }
  }

  /** What reordering is for: whatever the order in which packets arrive, as long as none runs ahead of
      the window, exactly the numbers the window passes go up, each once, in order and without a gap. */
  lemma {:induction false} RunGapFree(f: Flow, inputs: seq<Input>)
    requires WellFormed(f) && Steady(f) && !f.flushPending && HoldsData(f)
    requires forall i :: 0 <= i < |inputs| ==> NoMove(Run(f, inputs[..i]).flow, inputs[i])
    ensures var r := Run(f, inputs);
            && WellFormed(r.flow) && Steady(r.flow) && !r.flow.flushPending && HoldsData(r.flow)
            && f.base <= r.flow.base && Contiguous(r.out, f.base, r.flow.base)
  {
    if inputs != [] {
      hide Step, NoMove, WellFormed, HoldsData, Contiguous;
      var before, last := inputs[..|inputs| - 1], inputs[|inputs| - 1];
      assert forall i :: 0 <= i < |before| ==> before[..i] == inputs[..i];
      RunGapFree(f, before);
      var r := Run(f, before);
      NoMoveStep(r.flow, last);
      ContiguousAppend(r.out, Step(r.flow, last).out, f.base, r.flow.base, Step(r.flow, last).flow.base);
    }
  }
}
