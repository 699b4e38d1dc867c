/** No packet is lost, duplicated or renumbered, over every run of one flow. */
module ReorderConservation {
  import opened SerialNumbers
  import opened ReorderSpec

  // ---------------------------------------------------------------- runs

  /** Everything that can happen to a flow between its ADDBA and its DELBA. */
  datatype Input =
    | Packet(s: nat, t: PktType, p: Payload)
    | TimerExpires
    | FlushWork
    | SetNoDrop(flag: bool)
    | SetAmsdu(supported: bool)

  predicate Proper(input: Input) {
    input.Packet? ==> input.s < 4096
  }

  function Step(f: Flow, input: Input): Outcome {
    match input
    case Packet(s, t, p) => Receive(f, s, t, p)
    case TimerExpires => Outcome(f.(flushPending := true), [], true)
    case FlushWork => Flushed(f)
    case SetNoDrop(flag) => Outcome(f.(noDrop := flag), [], true)
    case SetAmsdu(supported) => Outcome(f.(amsdu := supported), [], true)
  }

  function Run(f: Flow, inputs: seq<Input>): Outcome {
    if inputs == [] then Outcome(f, [], true) else
      var r := Run(f, inputs[..|inputs| - 1]);
      var q := Step(r.flow, inputs[|inputs| - 1]);
      Outcome(q.flow, r.out + q.out, q.ok)
  }

  lemma StepWellFormed(f: Flow, input: Input)
    requires WellFormed(f) && Proper(input)
    ensures WellFormed(Step(f, input).flow)
  {
    match input
    case Packet(s, t, p) => ReceiveWellFormed(f, s, t, p);
    case FlushWork => FlushedFacts(f);
    case _ =>
  }

  /** Every reachable flow is well formed: what it holds lies inside its window, and the first number
      of the window is always the next one missing. */
  lemma {:induction false} RunWellFormed(f: Flow, inputs: seq<Input>)
    requires WellFormed(f) && forall input :: input in inputs ==> Proper(input)
    ensures WellFormed(Run(f, inputs).flow)
  {
    if inputs != [] {
      RunWellFormed(f, inputs[..|inputs| - 1]);
      StepWellFormed(Run(f, inputs[..|inputs| - 1]).flow, inputs[|inputs| - 1]);
    }
  }

  // ---------------------------------------------------------------- what there is to conserve

  /** A packet, by its identity and the twelve bits of sequence number it carried. */
  type Tag = (int, nat)

  function TagOf(d: Delivery): Tag {
    match d
    case Forwarded(s, id) => (s, id)
    case InOrder(num, id) => (num % 4096, id)
  }

  /** How often a packet occurs among those handed up. */
  function Times(out: seq<Delivery>, x: Tag): nat {
    if out == [] then 0 else
      Times(out[..|out| - 1], x) + if TagOf(out[|out| - 1]) == x then 1 else 0
  }

  /** How often a flow holds a packet. */
  function Pending(f: Flow, x: Tag): nat {
    Times(Release(f.buf, f.base, f.base + f.size), x)
  }

  /** A data packet reported as taken in; everything else counts for nothing. */
  function Once(s: nat, t: PktType, p: Payload, ok: bool, x: Tag): nat {
    if !t.Bar? && p.Data? && ok && x == (s, p.id) then 1 else 0
  }

  function AcceptedBy(f: Flow, input: Input, x: Tag): nat {
    if input.Packet? then Once(input.s, input.t, input.p, Step(f, input).ok, x) else 0
  }

  /** How often a packet is accepted with success over a run. */
  function Accepted(f: Flow, inputs: seq<Input>, x: Tag): nat {
    if inputs == [] then 0 else
      var before := inputs[..|inputs| - 1];
      Accepted(f, before, x) + AcceptedBy(Run(f, before).flow, inputs[|inputs| - 1], x)
  }

  // ---------------------------------------------------------------- releases

  lemma {:induction false} TimesAppend(a: seq<Delivery>, b: seq<Delivery>, x: Tag)
    ensures Times(a + b, x) == Times(a, x) + Times(b, x)
  {
    if b == [] {
      assert a + b == a;
    } else {
      TimesAppend(a, b[..|b| - 1], x);
      assert (a + b)[..|a + b| - 1] == a + b[..|b| - 1];
    }
  }

  lemma {:induction false} ReleaseSplit(buf: map<int, Payload>, lo: int, mid: int, hi: int, x: Tag)
    requires lo <= mid <= hi
    ensures Times(Release(buf, lo, hi), x) == Times(Release(buf, lo, mid), x) + Times(Release(buf, mid, hi), x)
    decreases hi - mid
  {
    if mid < hi {
      ReleaseSplit(buf, lo, mid, hi - 1, x);
      TimesAppend(Release(buf, lo, hi - 1), DeliverAt(buf, hi - 1), x);
      TimesAppend(Release(buf, mid, hi - 1), DeliverAt(buf, hi - 1), x);
    }
  }

  lemma {:induction false} ReleaseAgree(a: map<int, Payload>, b: map<int, Payload>, lo: int, hi: int)
    requires forall u :: lo <= u < hi ==> (u in a <==> u in b) && (u in a ==> a[u] == b[u])
    ensures Release(a, lo, hi) == Release(b, lo, hi)
    decreases hi - lo
  {
    if lo < hi {
      ReleaseAgree(a, b, lo, hi - 1);
    }
  }

  /** The range a release is taken over matters only where there are packets. */
  lemma ReleaseWiden(buf: map<int, Payload>, lo: int, hi: int, lo': int, hi': int, x: Tag)
    requires lo' <= lo <= hi <= hi'
    requires forall u :: u in buf ==> lo <= u < hi
    ensures Times(Release(buf, lo', hi'), x) == Times(Release(buf, lo, hi), x)
  {
    ReleaseSplit(buf, lo', lo, hi', x);
    ReleaseSplit(buf, lo, hi, hi', x);
    ReleaseNothing(buf, lo', lo);
    ReleaseNothing(buf, hi, hi');
  }

  /** Releasing up to `hi` and keeping the rest conserves, whatever the window becomes. */
  lemma CutConserves(buf: map<int, Payload>, lo: int, hi: int, end: int, lo': int, end': int, x: Tag)
    requires lo <= hi <= end
    requires forall u :: u in buf ==> lo <= u < end
    requires forall u :: u in buf && hi <= u ==> lo' <= u < end'
    ensures Times(Release(buf, lo, end), x)
         == Times(Release(buf, lo, hi), x) + Times(Release(KeepFrom(buf, hi), lo', end'), x)
  {
    var keep := KeepFrom(buf, hi);
    ReleaseSplit(buf, lo, hi, end, x);
    ReleaseAgree(buf, keep, hi, end);
    if keep == map[] {
      ReleaseNothing(keep, hi, end);
      ReleaseNothing(keep, lo', end');
    } else {
      var u :| u in keep;
      var l, r := if hi < lo' then lo' else hi, if end < end' then end else end';
      assert forall v :: v in keep ==> l <= v < r;
      ReleaseWiden(keep, l, r, hi, end, x);
      ReleaseWiden(keep, l, r, lo', end', x);
    }
  }

  lemma ReleaseOne(buf: map<int, Payload>, u: int)
    ensures Release(buf, u, u + 1) == DeliverAt(buf, u)
  {
    assert Release(buf, u, u) == [];
  }

  lemma StoreConserves(buf: map<int, Payload>, lo: int, u: int, hi: int, p: Payload, x: Tag)
    requires lo <= u < hi && u !in buf
    ensures Times(Release(buf[u := p], lo, hi), x)
         == Times(Release(buf, lo, hi), x) + if p.Data? && x == (u % 4096, p.id) then 1 else 0
  {
    hide Release;
    var b := buf[u := p];
    ReleaseSplit(buf, lo, u, hi, x);
    ReleaseSplit(b, lo, u, hi, x);
    ReleaseSplit(buf, u, u + 1, hi, x);
    ReleaseSplit(b, u, u + 1, hi, x);
    ReleaseAgree(buf, b, lo, u);
    ReleaseAgree(buf, b, u + 1, hi);
    ReleaseOne(buf, u);
    ReleaseOne(b, u);
  }

  // ---------------------------------------------------------------- steps

  lemma MoveConserves(f: Flow, to: int, x: Tag)
    requires InWindow(f) && to > f.base && f.size >= 1
    ensures Pending(f, x) == Times(MoveTo(f, to).out, x) + Pending(MoveTo(f, to).flow, x)
  {
    hide Release, Times;
    CutConserves(f.buf, f.base, ReleaseEnd(f, to), f.base + f.size, to, to + f.size, x);
  }

  lemma ScanConserves(f: Flow, x: Tag)
    requires InWindow(f)
    ensures Pending(f, x) == Times(Scan(f).out, x) + Pending(Scan(f).flow, x)
  {
    hide Release, Times;
    var h := NextHole(f.buf, f.base, f.base + f.size);
    CutConserves(f.buf, f.base, h, f.base + f.size, h, h + f.size, x);
  }

  lemma TimesNothing(x: Tag)
    ensures Times([], x) == 0
  {
  }

  lemma AdmitConserves(f: Flow, s: nat, t: PktType, p: Payload, x: Tag)
    requires 2 <= f.size && InWindow(f) && s < 4096
    ensures var r := Admit(f, t, Dist(f.base, s), p);
            Times(r.out, x) + Pending(r.flow, x) == Pending(f, x) + Once(s, t, p, r.ok, x)
  {
    hide Release, Scan, MoveTo, Times;
    var d := Dist(f.base, s);
    var m := Moved(f, t, d);
    MovedFacts(f, t, d);
    TimesNothing(x);
    if Target(f, t, d) > f.base {
      MoveConserves(f, Target(f, t, d), x);
    }
    DistShift(f.base, f.base, s);
    if t.Bar? {
      ScanConserves(m.flow, x);
      TimesAppend(m.out, Scan(m.flow).out, x);
    } else if f.base + d !in m.flow.buf {
      var g := m.flow.(buf := m.flow.buf[f.base + d := p]);
      StoreConserves(m.flow.buf, m.flow.base, f.base + d, m.flow.base + m.flow.size, p, x);
      ScanConserves(g, x);
      TimesAppend(m.out, Scan(g).out, x);
    }
  }

  lemma NothingPending(f: Flow, x: Tag)
    requires f.buf == map[]
    ensures Pending(f, x) == 0
  {
    ReleaseNothing(f.buf, f.base, f.base + f.size);
  }

  lemma SettleConserves(f: Flow, s: nat, t: PktType, p: Payload, x: Tag)
    requires WellFormed(f) && s < 4096
    ensures var r := Settle(f, s, t, p);
            Times(r.out, x) + Pending(r.flow, x) == Pending(f, x) + Once(s, t, p, r.ok, x)
  {
    hide Release, Admit, MoveTo, Pending;
    if f.noDrop {
      ForceFacts(f, s, t);
      var m := Force(f, s, t);
      MoveConserves(f, f.base + f.size, x);
      NothingPending(m.flow, x);
      MoveEmpties(f, x);
      AdmitConserves(m.flow, s, t, p, x);
      TimesAppend(m.out, Admit(m.flow, t, Dist(m.flow.base, s), p).out, x);
    } else {
      AdmitConserves(f, s, t, p, x);
    }
  }

  lemma MoveEmpties(f: Flow, x: Tag)
    requires InWindow(f)
    ensures Pending(MoveTo(f, f.base + f.size).flow, x) == 0
  {
    assert KeepFrom(f.buf, f.base + f.size) == map[];
    NothingPending(MoveTo(f, f.base + f.size).flow, x);
  }

  lemma FlushedConserves(f: Flow, x: Tag)
    requires WellFormed(f)
    ensures Pending(f, x) == Times(Flushed(f).out, x) + Pending(Flushed(f).flow, x)
  {
    hide Release, MoveTo;
    var g := f.(flushPending := false);
    var e := PastLast(f.buf, f.base, f.base + f.size);
    if f.flushPending && e > f.base {
      MoveConserves(g, e, x);
    }
  }

  lemma PrepareKeepsPending(f: Flow, s: nat, t: PktType, x: Tag)
    requires WellFormed(f) && !Bypassed(f, s, t)
    ensures Pending(Prepare(f, s), x) == Pending(f, x)
  {
    if f.checkStart {
      NothingPending(f, x);
      NothingPending(Prepare(f, s), x);
    }
  }

  lemma BypassConserves(f: Flow, s: nat, t: PktType, p: Payload, x: Tag)
    requires Bypassed(f, s, t)
    ensures var r := Bypass(f, s, t, p);
            Times(r.out, x) + Pending(r.flow, x) == Pending(f, x) + Once(s, t, p, r.ok, x)
  {
    hide Release;
    assert forall d: Delivery :: [d][..0] == [];
  }

  lemma ReceiveConserves(f: Flow, s: nat, t: PktType, p: Payload, x: Tag)
    requires WellFormed(f) && s < 4096
    ensures var r := Receive(f, s, t, p);
            Times(r.out, x) + Pending(r.flow, x) == Pending(f, x) + Once(s, t, p, r.ok, x)
  {
    hide Release, Settle, Flush, Resync, Prepare, Bypass, Times;
    FlushedFacts(f);
    FlushedConserves(f, x);
    var f0 := Flushed(f);
    var r := ReceiveFlushed(f0.flow, s, t, p);
    TimesAppend(f0.out, r.out, x);
    if Bypassed(f0.flow, s, t) {
      BypassConserves(f0.flow, s, t, p, x);
    } else {
      PrepareFacts(f0.flow, s, t);
      SettleConserves(Prepare(f0.flow, s), s, t, p, x);
      PrepareKeepsPending(f0.flow, s, t, x);
    }
  }

  /** One step: what it hands up and still holds is what was held before and what it accepted. */
  lemma StepConserves(f: Flow, input: Input, x: Tag)
    requires WellFormed(f) && Proper(input)
    ensures var r := Step(f, input);
            Times(r.out, x) + Pending(r.flow, x) == Pending(f, x) + AcceptedBy(f, input, x)
  {
    match input
    case Packet(s, t, p) => ReceiveConserves(f, s, t, p, x);
    case FlushWork => FlushedConserves(f, x);
    case _ =>
  }

  /** Over every run, in every mode, the packets handed up and the packets still held are, counted
      with their twelve-bit numbers, those held at first and those accepted with success. So nothing
      a step reported as failed is ever handed up, no packet goes up twice or under another number,
      and neither block ack requests nor firmware-drop marks ever do. */
  lemma {:induction false} RunConserves(f: Flow, inputs: seq<Input>, x: Tag)
    requires WellFormed(f) && forall input :: input in inputs ==> Proper(input)
    ensures var r := Run(f, inputs);
            Times(r.out, x) + Pending(r.flow, x) == Pending(f, x) + Accepted(f, inputs, x)
  {
    if inputs != [] {
      hide Step, Pending, AcceptedBy, Times;
      var before, last := inputs[..|inputs| - 1], inputs[|inputs| - 1];
      RunConserves(f, before, x);
      RunWellFormed(f, before);
      var r := Run(f, before);
      StepConserves(r.flow, last, x);
      TimesAppend(r.out, Step(r.flow, last).out, x);
    }
  }

  /** Nothing stays behind: once the timer expired and the deferred work ran after any run, every packet
      went up exactly as often as it was held at first or accepted. */
  lemma RunDelivers(f: Flow, inputs: seq<Input>, x: Tag)
    requires WellFormed(f) && forall input :: input in inputs ==> Proper(input)
    ensures var r := Run(f, inputs + [TimerExpires, FlushWork]);
            r.flow.buf == map[] && Times(r.out, x) == Pending(f, x) + Accepted(f, inputs, x)
  {
    hide Times, Receive;
    var all := inputs + [TimerExpires];
    assert all[..|inputs|] == inputs && inputs + [TimerExpires, FlushWork] == all + [FlushWork];
    assert (all + [FlushWork])[..|all|] == all;
    RunConserves(f, all + [FlushWork], x);
    RunWellFormed(f, all);
    FlushedFacts(Run(f, all).flow);
    NothingPending(Run(f, all + [FlushWork]).flow, x);
  }
}
