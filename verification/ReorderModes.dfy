/** What becomes of one packet in every mode of a flow: when it is refused, what goes up, and where the window
    then starts, in terms of the fields of the flow alone. */
module ReorderModes {
  import opened SerialNumbers
  import opened ReorderSpec
  import opened ReorderConservation
  import opened ReorderOrder
  import opened ReorderStartUp

  /** What a packet that does not wait in the window hands up. */
  function AtOnce(s: nat, t: PktType, p: Payload): seq<Delivery> {
    if p.Data? && !t.Bar? then [Forwarded(s, p.id)] else []
  }

  /** An A-MSDU on a flow that did not negotiate them. */
  predicate Unnegotiated(f: Flow, t: PktType) {
    t.Amsdu? && !f.amsdu
  }

  /** A packet the start-up phase keeps out of the window. */
  predicate StartUpPacket(f: Flow, s: nat, t: PktType) {
    && f.checkStart && !Unnegotiated(f, t)
    && s != f.base % 4096 && (f.pktCount + 1) % 256 < f.size / 2
  }

  // ---------------------------------------------------------------- pending flushes

  /** The flow once a pending flush is carried out: nothing held, the window behind the last number held. */
  function Emptied(f: Flow): Flow {
    f.(base := PastLast(f.buf, f.base, f.base + f.size), buf := map[], flushPending := false)
  }

  /** The deferred work hands up everything held, in order, when a flush is pending, and else nothing. */
  lemma FlushWorkSays(f: Flow)
    requires InWindow(f) && f.size >= 1
    ensures Step(f, FlushWork)
         == if f.flushPending then Outcome(Emptied(f), Release(f.buf, f.base, f.base + f.size), true)
            else Outcome(f, [], true)
  {
    hide Release, PastLast;
    var g := f.(flushPending := false);
    FlushEmpties(g);
    var e := PastLast(f.buf, f.base, f.base + f.size);
    if f.flushPending {
      if e > f.base {
        var hi := ReleaseEnd(g, e);
        ReleaseJoin(f.buf, f.base, hi, f.base + f.size);
        ReleaseNothing(f.buf, hi, f.base + f.size);
      } else {
        ReleaseNothing(f.buf, f.base, f.base + f.size);
        assert f.buf == map[];
      }
    }
  }

  /** A flush that is pending when a packet comes is carried out first. */
  lemma FlushComesFirst(f: Flow, s: nat, t: PktType, p: Payload)
    requires WellFormed(f) && f.flushPending
    ensures var r := Receive(Emptied(f), s, t, p);
            Receive(f, s, t, p) == Outcome(r.flow, Release(f.buf, f.base, f.base + f.size) + r.out, r.ok)
  {
    hide Receive, Release;
    FlushWorkSays(f);
    ReceiveAfterFlush(f, s, t, p);
  }

  // ---------------------------------------------------------------- around the window

  /** An A-MSDU on a flow that did not negotiate them is never refused, goes up at once and changes nothing. */
  lemma UnnegotiatedGoesUp(f: Flow, s: nat, t: PktType, p: Payload)
    requires !f.flushPending && Unnegotiated(f, t)
    ensures Receive(f, s, t, p) == Outcome(f, AtOnce(s, t, p), true)
  {
    assert [] + AtOnce(s, t, p) == AtOnce(s, t, p);
  }

  /** A packet of the start-up phase is refused if and only if it repeats the number before it; any other one goes
      up at once and is remembered. */
  lemma StartUpForwards(f: Flow, s: nat, t: PktType, p: Payload)
    requires WellFormed(f) && StartUpPacket(f, s, t)
    ensures var r := Receive(f, s, t, p);
            && (r.ok <==> s != f.lastSeq)
            && r.out == (if s == f.lastSeq then [] else AtOnce(s, t, p))
            && r.flow == f.(flushPending := false, pktCount := (f.pktCount + 1) % 256, lastSeq := s)
  {
    FlushNothing(f);
    assert [] + AtOnce(s, t, p) == AtOnce(s, t, p);
  }

  lemma FlushNothing(f: Flow)
    requires WellFormed(f) && f.buf == map[]
    ensures Flushed(f) == Outcome(f.(flushPending := false), [], true)
  {
    assert PastLast(f.buf, f.base, f.base + f.size) == f.base;
  }

  // ---------------------------------------------------------------- the end of the start-up phase

  /** The window follows the last number seen: that one lies in the window, not at its end, or the packet that ends
      the phase lies between it and the start, below the start in twelve bits. */
  predicate Follows(f: Flow, s: nat) {
    f.lastSeq != NO_SEQ && (Dist(f.base, f.lastSeq) + 1 < f.size || f.lastSeq < s < f.base % 4096)
  }

  /** The packet that ends the start-up phase meets a window that starts where it did, when it carries that number
      or the window does not follow the last number seen, and else just past that number: ahead, inside
      the window, or behind. */
  lemma StartUpEnds(f: Flow, s: nat, t: PktType, p: Payload) returns (b: int)
    requires WellFormed(f) && f.checkStart && !Unnegotiated(f, t) && !StartUpPacket(f, s, t) && s < 4096
    ensures var n := if s == f.base % 4096 then f.pktCount else (f.pktCount + 1) % 256;
            var g := f.(checkStart := false, base := b, pktCount := n, flushPending := false);
            WellFormed(g) && Receive(f, s, t, p) == Receive(g, s, t, p)
    ensures s == f.base % 4096 || !Follows(f, s) ==> b == f.base
    ensures s != f.base % 4096 && Follows(f, s) ==>
              && (b - 1) % 4096 == f.lastSeq
              && (Dist(f.base, f.lastSeq) + 1 < f.size ==> f.base < b < f.base + f.size)
              && (Dist(f.base, f.lastSeq) + 1 >= f.size ==> f.base - 4096 < b < f.base)
  {
    hide Receive, Resync;
    FlushNothing(f);
    var g := Prepare(f.(flushPending := false), s);
    b := g.base;
    PrepareFacts(f.(flushPending := false), s, t);
    ResyncSays(f, s);
    SettledReceives(f, g, s, t, p);
  }

  lemma ResyncSays(f: Flow, s: nat)
    requires 2 <= f.size <= 1023
    ensures var c := Count(f).(checkStart := false, flushPending := false);
            var r := Resync(c, s);
            && r == c.(base := r.base)
            && (!Follows(f, s) ==> r.base == f.base)
            && (Follows(f, s) && f.lastSeq < 4096 ==> (r.base - 1) % 4096 == f.lastSeq)
            && (Follows(f, s) && Dist(f.base, f.lastSeq) + 1 < f.size ==> f.base < r.base < f.base + f.size)
            && (Follows(f, s) && Dist(f.base, f.lastSeq) + 1 >= f.size ==> f.base - 4096 < r.base < f.base)
  {
    if f.lastSeq < 4096 {
      DistShift(f.base, f.base, f.lastSeq);
      Lap(f.base, f.lastSeq);
    }
  }

  lemma Lap(base: int, n: nat)
    requires n < 4096
    ensures (base - base % 4096 + n) % 4096 == n
  {
    var q := base / 4096;
    assert base - base % 4096 == 4096 * q;
    ModAdd(q, n);
  }

  /** Whether the phase ends with this packet or ended before makes no difference to the window test. */
  lemma SettledReceives(f: Flow, g: Flow, s: nat, t: PktType, p: Payload)
    requires WellFormed(f) && Flushed(f) == Outcome(f.(flushPending := false), [], true)
    requires !Bypassed(f, s, t) && g == Prepare(f.(flushPending := false), s)
    requires !g.flushPending && !g.checkStart && !Unnegotiated(g, t)
    ensures Receive(f, s, t, p) == Receive(g, s, t, p)
  {
    hide Settle, Resync;
    assert Prepare(g, s) == g;
  }

  // ---------------------------------------------------------------- forced restarts

  lemma SteadyMeets(g: Flow, s: nat, t: PktType, p: Payload)
    requires !g.flushPending && !g.checkStart && !Unnegotiated(g, t)
    ensures Receive(g, s, t, p) == Settle(g, s, t, p)
  {
    hide Settle;
    assert Prepare(g, s) == g;
    assert [] + Settle(g, s, t, p).out == Settle(g, s, t, p).out;
  }

  /** `force_no_drop`, once past the start-up phase: everything held goes up. A packet is never refused: it goes up
      behind that, under the next number past the window that ends in its twelve bits, and the window starts
      behind it. A block ack request makes the window start at its number, unless that is further than the
      number space less a window. */
  lemma ForcedRestart(f: Flow, s: nat, t: PktType, p: Payload)
    requires WellFormed(f) && !f.checkStart && f.noDrop && !f.flushPending && !Unnegotiated(f, t) && s < 4096
    ensures var end, r := f.base + f.size, Receive(f, s, t, p);
            var u := end + Dist(end, s);
            && r.ok && u % 4096 == s
            && (!t.Bar? ==>
                  && r.out == Release(f.buf, f.base, end) + (if p.Data? then [InOrder(u, p.id)] else [])
                  && r.flow == f.(noDrop := false, base := u + 1, buf := map[]))
            && (t.Bar? ==>
                  && r.out == Release(f.buf, f.base, end)
                  && r.flow == f.(noDrop := false, buf := map[], base := if u + f.size <= end + 4096 then u else end))
  {
    hide Release, Receive, Settle, Admit;
    var end := f.base + f.size;
    var u := end + Dist(end, s);
    DistShift(end, end, s);
    SteadyMeets(f, s, t, p);
    ForcedSettles(f, s, t, p);
    var m := f.(noDrop := false, buf := map[], base := if t.Bar? then end else u);
    if !t.Bar? {
      AdmitsNext(m, t, p);
      DistZero(u, s);
    } else {
      RequestOnEmpty(m, Dist(end, s), p);
    }
  }

  lemma DistZero(u: int, s: nat)
    requires u % 4096 == s
    ensures Dist(u, s) == 0
  {
    DistShift(u, u, s);
  }

  lemma ForcedSettles(f: Flow, s: nat, t: PktType, p: Payload)
    requires WellFormed(f) && f.noDrop
    ensures var end := f.base + f.size;
            var to := if t.Bar? then end else end + Dist(end, s);
            var r := Admit(f.(noDrop := false, buf := map[], base := to), t, Dist(to, s), p);
            Settle(f, s, t, p) == Outcome(r.flow, Release(f.buf, f.base, end) + r.out, r.ok)
  {
    hide Release, Admit;
    ForceFacts(f, s, t);
  }

  /** The packet an empty window waits for. */
  lemma AdmitsNext(m: Flow, t: PktType, p: Payload)
    requires m.buf == map[] && !t.Bar? && m.size >= 2
    ensures Admit(m, t, 0, p)
         == Outcome(m.(base := m.base + 1), if p.Data? then [InOrder(m.base, p.id)] else [], true)
  {
    var g := m.(buf := map[m.base := p]);
    assert Moved(m, t, 0) == Outcome(m, [], true);
    assert m.buf[m.base := p] == g.buf;
    var h := NextHole(g.buf, g.base, g.base + g.size);
    assert m.base in g.buf && m.base + 1 !in g.buf;
    assert h == m.base + 1;
    assert KeepFrom(g.buf, h) == map[];
    ReleaseOne(g.buf, m.base);
  }

  /** A block ack request on an empty window. */
  lemma RequestOnEmpty(m: Flow, d: nat, p: Payload)
    requires m.buf == map[] && m.size >= 2 && d < 4096
    ensures Admit(m, Bar, d, p) == Outcome(m.(base := if d + m.size <= 4096 then m.base + d else m.base), [], true)
  {
    var to := if d + m.size <= 4096 then m.base + d else m.base;
    ReleaseNothing(m.buf, m.base, ReleaseEnd(m, to));
    assert KeepFrom(m.buf, ReleaseEnd(m, to)) == map[];
    var g := m.(base := to);
    assert NextHole(g.buf, to, to + m.size) == to && KeepFrom(g.buf, to) == map[];
    ReleaseNothing(g.buf, to, to);
  }

  // ---------------------------------------------------------------- packets ahead of the window

  /** A packet past the end of a steady window, by less than half the number space, when the move does not cross the
      wrap: the window ends in its number at least, everything before its first missing number goes up. */
  lemma AheadMoves(f: Flow, s: nat, t: PktType, p: Payload)
    requires WellFormed(f) && Steady(f) && !f.flushPending && !t.Bar? && !Unnegotiated(f, t) && s < 4096
    requires var d := Dist(f.base, s); f.size <= d < 2048 && !CrossesWrap(f.base, f.base + d - f.size + 1)
    ensures var u, r := f.base + Dist(f.base, s), Receive(f, s, t, p);
            && r.ok && u % 4096 == s && FirstMissing(f.buf[u := p], u - f.size + 1, r.flow.base)
            && r.out == Release(f.buf[u := p], f.base, r.flow.base)
            && r.flow == f.(base := r.flow.base, buf := KeepFrom(f.buf[u := p], r.flow.base))
  {
    hide Receive, Admit;
    DistShift(f.base, f.base, s);
    ReceiveSteady(f, s, t, p);
    AdmitEffect(f, t, Dist(f.base, s), p);
  }

  // ---------------------------------------------------------------- refusal

  /** How far ahead of the window the number lies, when the packet meets it. */
  function Ahead(f: Flow, s: nat): nat {
    if f.checkStart && s != f.base % 4096 && Follows(f, s) then (s - f.lastSeq - 1) % 4096
    else if f.flushPending then Dist(PastLast(f.buf, f.base, f.base + f.size), s)
    else Dist(f.base, s)
  }

  /** The packet is refused: in the start-up phase when it repeats the number before it; otherwise when it is 2048 or
      more ahead of the window or held already. A forced restart refuses nothing, nor does the way around
      the window for A-MSDUs. */
  predicate Refuses(f: Flow, s: nat, t: PktType) {
    if Unnegotiated(f, t) then false
    else if StartUpPacket(f, s, t) then s == f.lastSeq
    else if f.noDrop then false
    else Ahead(f, s) >= 2048 || (!t.Bar? && !f.flushPending && f.base + Ahead(f, s) in f.buf)
  }

  lemma SettledRefusal(g: Flow, s: nat, t: PktType, p: Payload)
    requires WellFormed(g) && !g.checkStart && !g.flushPending && !Unnegotiated(g, t) && s < 4096
    ensures var d := Dist(g.base, s);
            Receive(g, s, t, p).ok <==> g.noDrop || (d < 2048 && (t.Bar? || g.base + d !in g.buf))
  {
    hide Receive, Admit, WellFormed;
    if g.noDrop {
      ForcedRestart(g, s, t, p);
    } else {
      ReceiveSteady(g, s, t, p);
      if Fresh(g, t, Dist(g.base, s)) {
        AdmitsFresh(g, t, Dist(g.base, s), p);
      }
    }
  }

  lemma AdmitsFresh(f: Flow, t: PktType, d: nat, p: Payload)
    requires WellFormed(f) && Fresh(f, t, d)
    ensures Admit(f, t, d, p).ok
  {
    hide Scan, Moved;
    MovedFacts(f, t, d);
  }

  lemma RefusedUnflushed(f: Flow, s: nat, t: PktType, p: Payload)
    requires WellFormed(f) && !f.flushPending && s < 4096
    ensures Receive(f, s, t, p).ok <==> !Refuses(f, s, t)
  {
    hide Receive, WellFormed, Follows;
    NothingInStartUp(f);
    if Unnegotiated(f, t) {
      UnnegotiatedGoesUp(f, s, t, p);
    } else if StartUpPacket(f, s, t) {
      StartUpForwards(f, s, t, p);
    } else if f.checkStart {
      var b := StartUpEnds(f, s, t, p);
      var n := if s == f.base % 4096 then f.pktCount else (f.pktCount + 1) % 256;
      SettledRefusal(f.(checkStart := false, base := b, pktCount := n, flushPending := false), s, t, p);
      if s != f.base % 4096 && Follows(f, s) {
        BehindLast(b, f.lastSeq, s);
      }
    } else {
      SettledRefusal(f, s, t, p);
    }
  }

  /** The distance from just past the last number seen. */
  lemma BehindLast(b: int, last: nat, s: nat)
    requires (b - 1) % 4096 == last
    ensures Dist(b, s) == (s - last - 1) % 4096
  {
    var q := (b - 1) / 4096;
    assert b - 1 == 4096 * q + last;
    ModAdd(-q, s - last - 1);
  }

  lemma NothingInStartUp(f: Flow)
    requires WellFormed(f)
    ensures f.checkStart ==> f.buf == map[] && PastLast(f.buf, f.base, f.base + f.size) == f.base
  {
  }

  lemma EmptiedWellFormed(f: Flow)
    requires WellFormed(f)
    ensures WellFormed(Emptied(f))
  {
  }

  /** Exactly which packets are refused, in every mode. */
  lemma RefusedIff(f: Flow, s: nat, t: PktType, p: Payload)
    requires WellFormed(f) && s < 4096
    ensures Receive(f, s, t, p).ok <==> !Refuses(f, s, t)
  {
    hide Receive, WellFormed;
    if f.flushPending {
      NothingInStartUp(f);
      FlushComesFirst(f, s, t, p);
      EmptiedWellFormed(f);
      RefusedUnflushed(Emptied(f), s, t, p);
    } else {
      RefusedUnflushed(f, s, t, p);
    }
  }

  // ---------------------------------------------------------------- runs

  /** Data packets with a tag that the flow does not refuse. */
  function Kept(f: Flow, inputs: seq<Input>, x: Tag): nat {
    if inputs == [] then 0 else
      var before, last := inputs[..|inputs| - 1], inputs[|inputs| - 1];
      Kept(f, before, x) + if Keeps(Run(f, before).flow, last, x) then 1 else 0
  }

  predicate Keeps(f: Flow, input: Input, x: Tag) {
    && input.Packet? && !input.t.Bar? && input.p.Data? && x == (input.s, input.p.id)
    && !Refuses(f, input.s, input.t)
  }

  /** Over every run, in every mode, each data packet that is not refused goes up or is held, exactly as often as it
      came, and no other packet is. */
  lemma RunKeeps(f: Flow, inputs: seq<Input>, x: Tag)
    requires WellFormed(f) && forall input :: input in inputs ==> Proper(input)
    ensures var r := Run(f, inputs);
            Times(r.out, x) + Pending(r.flow, x) == Pending(f, x) + Kept(f, inputs, x)
  {
    hide Times, Pending;
    RunConserves(f, inputs, x);
    AcceptedIsKept(f, inputs, x);
  }

  lemma {:induction false} AcceptedIsKept(f: Flow, inputs: seq<Input>, x: Tag)
    requires WellFormed(f) && forall input :: input in inputs ==> Proper(input)
    ensures Accepted(f, inputs, x) == Kept(f, inputs, x)
  {
    if inputs != [] {
      hide Receive, Refuses, Run, WellFormed;
      var before, last := inputs[..|inputs| - 1], inputs[|inputs| - 1];
      AcceptedIsKept(f, before, x);
      RunWellFormed(f, before);
      if last.Packet? {
        assert Proper(last);
        RefusedIff(Run(f, before).flow, last.s, last.t, last.p);
      }
    }
  }

  /** Whether A-MSDUs are negotiated after a run: the latest setting decides. */
  function AmsduAfter(f: Flow, inputs: seq<Input>): bool {
    if inputs == [] then f.amsdu else
      var last := inputs[|inputs| - 1];
      if last.SetAmsdu? then last.supported else AmsduAfter(f, inputs[..|inputs| - 1])
  }

  /** The number of the latest packet that was not an A-MSDU of a flow without them. */
  function LastNumber(f: Flow, inputs: seq<Input>): nat {
    if inputs == [] then f.lastSeq else
      var before, last := inputs[..|inputs| - 1], inputs[|inputs| - 1];
      if last.Packet? && (last.t.Amsdu? ==> AmsduAfter(f, before)) then last.s else LastNumber(f, before)
  }

  /** The data packets of a run, in order of arrival, but for those that repeat the number before them. */
  function Unrepeated(f: Flow, inputs: seq<Input>): seq<Delivery> {
    if inputs == [] then [] else
      var before, last := inputs[..|inputs| - 1], inputs[|inputs| - 1];
      Unrepeated(f, before)
        + if last.Packet? && ((last.t.Amsdu? && !AmsduAfter(f, before)) || last.s != LastNumber(f, before))
          then AtOnce(last.s, last.t, last.p) else []
  }

  /** As long as the start-up phase of a flow lasts, exactly the data packets that do not repeat the packet before
      them go up, each at once. */
  lemma {:induction false} StartUpRun(f: Flow, inputs: seq<Input>)
    requires WellFormed(f) && f.checkStart && forall input :: input in inputs ==> Proper(input)
    requires Run(f, inputs).flow.checkStart
    ensures var r := Run(f, inputs);
            && r.out == Unrepeated(f, inputs) && r.flow.lastSeq == LastNumber(f, inputs)
            && r.flow.amsdu == AmsduAfter(f, inputs)
            && WellFormed(r.flow)
  {
    if inputs != [] {
      hide Step, WellFormed, AtOnce;
      var before, last := inputs[..|inputs| - 1], inputs[|inputs| - 1];
      RunWellFormed(f, before);
      RunWellFormed(f, inputs);
      var r := Run(f, before);
      if !r.flow.checkStart {
        StartUpOver(r.flow, last);
      }
      StartUpRun(f, before);
      StartUpStepSays(r.flow, last);
    }
  }

  lemma StartUpStepSays(f: Flow, input: Input)
    requires WellFormed(f) && f.checkStart && Proper(input) && Step(f, input).flow.checkStart
    ensures var r := Step(f, input);
            var seen := input.Packet? && !Unnegotiated(f, input.t);
            && r.out == (if input.Packet? && (Unnegotiated(f, input.t) || input.s != f.lastSeq)
                         then AtOnce(input.s, input.t, input.p) else [])
            && r.flow.lastSeq == (if seen then input.s else f.lastSeq)
            && r.flow.amsdu == if input.SetAmsdu? then input.supported else f.amsdu
  {
    hide Receive, WellFormed, AtOnce;
    NothingInStartUp(f);
    match input
    case Packet(s, t, p) =>
      StartUpStep(f, input);
      if Unnegotiated(f, t) {
        FlushNothing(f);
        ReceiveAfterFlush(f, s, t, p);
        UnnegotiatedGoesUp(f.(flushPending := false), s, t, p);
      } else {
        StartUpForwards(f, s, t, p);
      }
    case FlushWork =>
      FlushNothing(f);
    case _ =>
  }
}
