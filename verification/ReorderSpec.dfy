/** The receive reordering of one (TID, transmitter) flow, as a machine on unbounded numbers.

  The buffer is a map from unbounded sequence numbers to packets. Nothing here rotates, and no
  test is made on twelve-bit numbers: module RxReorder proves that the slot array, `start_win` and
  the branchy tests of the receive path compute exactly the steps of this machine. */
module ReorderSpec {
  import opened SerialNumbers

  /** What is handed to the reorder code: a packet, or the mark for "dropped in firmware". */
  datatype Payload = Data(id: nat) | DroppedInFw

  datatype PktType = Plain | Amsdu | Bar

  /** What the upper layer receives: a packet that passed through the window, with its unbounded
      number, or one that was forwarded around it, with the twelve bits it carried. */
  datatype Delivery = Forwarded(seq12: nat, id: nat) | InOrder(num: int, id: nat)

  /** `last_seq` of a flow that has seen no packet. */
  const NO_SEQ: nat := 0xffff

  datatype Flow = Flow(
    base: int,                // the next number expected
    size: nat,
    buf: map<int, Payload>,
    lastSeq: nat,
    pktCount: nat,
    checkStart: bool,
    amsdu: bool,
    noDrop: bool,
    flushPending: bool)

  /** The flow an accepted ADDBA request sets up. */
  function NewFlow(size: nat, ssn: nat, last: nat): Flow {
    Flow(ssn, size, map[], last, 0, true, false, false, false)
  }

  datatype Outcome = Outcome(flow: Flow, out: seq<Delivery>, ok: bool)

  // ---------------------------------------------------------------- handing packets upward

  function Forward(s: nat, p: Payload): seq<Delivery> {
    if p.Data? then [Forwarded(s, p.id)] else []
  }

  function DeliverAt(buf: map<int, Payload>, u: int): seq<Delivery> {
    if u in buf && buf[u].Data? then [InOrder(u, buf[u].id)] else []
  }

  /** The packets held under the numbers lo, .., hi - 1, in that order. */
  function Release(buf: map<int, Payload>, lo: int, hi: int): seq<Delivery>
    decreases hi - lo
  {
    if hi <= lo then [] else Release(buf, lo, hi - 1) + DeliverAt(buf, hi - 1)
  }

  /** The first number in lo, .., hi - 1 with no packet; hi when there is none. */
  function NextHole(buf: map<int, Payload>, lo: int, hi: int): (h: int)
    ensures lo <= hi ==> lo <= h <= hi
    ensures forall u :: lo <= u < h ==> u in buf
    ensures h < hi ==> h !in buf
    decreases hi - lo
  {
    if lo < hi && lo in buf then NextHole(buf, lo + 1, hi) else lo
  }

  /** One past the last number in lo, .., hi - 1 with a packet; lo when there is none. */
  function PastLast(buf: map<int, Payload>, lo: int, hi: int): (e: int)
    ensures lo <= hi ==> lo <= e <= hi
    ensures forall u :: e <= u < hi ==> u !in buf
    ensures lo < e ==> e - 1 in buf
    decreases hi - lo
  {
    if hi <= lo then lo else if hi - 1 in buf then hi else PastLast(buf, lo, hi - 1)
  }

  function KeepFrom(buf: map<int, Payload>, lo: int): map<int, Payload> {
    map u | u in buf && lo <= u :: buf[u]
  }

  lemma ReleaseNothing(buf: map<int, Payload>, lo: int, hi: int)
    requires forall u :: lo <= u < hi ==> u !in buf
    ensures Release(buf, lo, hi) == []
    decreases hi - lo
  {
    if lo < hi { ReleaseNothing(buf, lo, hi - 1); }
  }

  // ---------------------------------------------------------------- window moves

  /** How far a move to `to` empties the buffer: everything, when it crosses the wrap. */
  function ReleaseEnd(f: Flow, to: int): int {
    if CrossesWrap(f.base, to) || f.base + f.size <= to then f.base + f.size else to
  }

  function MoveTo(f: Flow, to: int): Outcome {
    var hi := ReleaseEnd(f, to);
    Outcome(f.(base := to, buf := KeepFrom(f.buf, hi)), Release(f.buf, f.base, hi), true)
  }

  function Scan(f: Flow): Outcome {
    var h := NextHole(f.buf, f.base, f.base + f.size);
    Outcome(f.(base := h, buf := KeepFrom(f.buf, h)), Release(f.buf, f.base, h), true)
  }

  /** What goes up when the flow is torn down. */
  function Drained(f: Flow): seq<Delivery> {
    MoveTo(f, f.base + f.size).out
  }

  function Flush(f: Flow): Outcome {
    var e := PastLast(f.buf, f.base, f.base + f.size);
    if e > f.base then MoveTo(f, e) else Outcome(f, [], true)
  }

  /** Where the window starts once number base + d (a block ack request: start at base + d) is taken in. */
  function Target(f: Flow, t: PktType, d: nat): int {
    if t.Bar? then
      if 1 <= d && d + f.size <= 4096 then f.base + d else f.base
    else
      if d >= f.size then f.base + d - f.size + 1 else f.base
  }

  /** The window after the move that admitting a packet makes. */
  function Moved(f: Flow, t: PktType, d: nat): Outcome {
    var to := Target(f, t, d);
    if to > f.base then MoveTo(f, to) else Outcome(f, [], true)
  }

  /** One packet or block ack request, once the window is settled; d is its serial distance. */
  function Admit(f: Flow, t: PktType, d: nat, p: Payload): Outcome {
    var m := Moved(f, t, d);
    if !t.Bar? && f.base + d in m.flow.buf then
      Outcome(m.flow, m.out, false)
    else
      var g := if t.Bar? then m.flow else m.flow.(buf := m.flow.buf[f.base + d := p]);
      var r := Scan(g);
      Outcome(r.flow, m.out + r.out, true)
  }

  /** `force_no_drop`: everything held goes up, and a packet restarts the window at its own number. */
  function Force(f: Flow, s: nat, t: PktType): Outcome {
    var m := MoveTo(f, f.base + f.size);
    var to := if t.Bar? then m.flow.base else m.flow.base + Dist(m.flow.base, s);
    Outcome(m.flow.(noDrop := false, base := to), m.out, true)
  }

  /** The window test; after `force_no_drop` nothing is too old. */
  function Settle(f: Flow, s: nat, t: PktType, p: Payload): Outcome {
    if f.noDrop then
      var m := Force(f, s, t);
      var r := Admit(m.flow, t, Dist(m.flow.base, s), p);
      Outcome(r.flow, m.out + r.out, r.ok)
    else if Dist(f.base, s) >= 2048 then
      Outcome(f, [], false)
    else
      Admit(f, t, Dist(f.base, s), p)
  }

  /** End of the start-up phase: the window follows the last number seen while it lasted. */
  function Resync(f: Flow, s: nat): Flow {
    var start := f.base % 4096;
    if f.lastSeq == NO_SEQ then f
    else if Dist(f.base, f.lastSeq) < f.size - 1 then f.(base := f.base + Dist(f.base, f.lastSeq) + 1)
    else if f.lastSeq < s < start then f.(base := f.base - start + f.lastSeq + 1)
    else f
  }

  /** The start-up phase counts a packet that is not the one the window starts at. */
  function Count(f: Flow): Flow {
    f.(pktCount := (f.pktCount + 1) % 256)
  }

  predicate StartingUp(f: Flow, s: nat) {
    f.checkStart && s != f.base % 4096 && Count(f).pktCount < f.size / 2
  }

  /** Packets that go around the window: an A-MSDU on a flow that did not negotiate them, and all
      packets of the start-up phase. */
  predicate Bypassed(f: Flow, s: nat, t: PktType) {
    (t.Amsdu? && !f.amsdu) || StartingUp(f, s)
  }

  function Bypass(f: Flow, s: nat, t: PktType, p: Payload): Outcome
    requires Bypassed(f, s, t)
  {
    if t.Amsdu? && !f.amsdu then
      Outcome(f, Forward(s, p), true)
    else if f.lastSeq == s then
      Outcome(Count(f), [], false)
    else
      Outcome(Count(f).(lastSeq := s), if t.Bar? then [] else Forward(s, p), true)
  }

  /** The flow a packet that is not bypassed meets. */
  function Prepare(f: Flow, s: nat): Flow {
    if !f.checkStart || s == f.base % 4096 then
      f.(checkStart := false)
    else
      Resync(Count(f).(checkStart := false), s)
  }

  function ReceiveFlushed(f: Flow, s: nat, t: PktType, p: Payload): Outcome {
    if Bypassed(f, s, t) then Bypass(f, s, t, p) else Settle(Prepare(f, s), s, t, p)
  }

  function Flushed(f: Flow): Outcome {
    if f.flushPending then Flush(f.(flushPending := false)) else Outcome(f, [], true)
  }

  /** A packet, in every phase of the flow. */
  function Receive(f: Flow, s: nat, t: PktType, p: Payload): Outcome {
    var f0 := Flushed(f);
    var r := ReceiveFlushed(f0.flow, s, t, p);
    Outcome(r.flow, f0.out + r.out, r.ok)
  }

  // ---------------------------------------------------------------- well-formed flows

  ghost predicate InWindow(f: Flow) {
    forall u :: u in f.buf ==> f.base <= u < f.base + f.size
  }

  ghost predicate WellFormed(f: Flow) {
    && 2 <= f.size <= 1023
    && InWindow(f)
    && f.base !in f.buf
    && (f.checkStart ==> f.buf == map[])
    && f.pktCount < 256
    && (f.lastSeq < 4096 || f.lastSeq == NO_SEQ)
  }

  /** A flow with a window of one packet never buffers: its packets go around the reorder code. */
  ghost predicate FitFlow(f: Flow) {
    if f.size == 1 then f.buf == map[] && f.checkStart else WellFormed(f)
  }

  lemma FlushEmpties(f: Flow)
    requires InWindow(f)
    ensures Flush(f).flow.buf == map[]
    ensures Flush(f).flow.base == PastLast(f.buf, f.base, f.base + f.size)
  {
    assert forall u :: u in f.buf ==> u < PastLast(f.buf, f.base, f.base + f.size);
  }

  lemma MoveFacts(f: Flow, to: int)
    requires InWindow(f) && to > f.base
    ensures var r := MoveTo(f, to).flow;
            r == f.(base := to, buf := r.buf) && InWindow(r)
            && forall u :: u in r.buf ==> u in f.buf && r.buf[u] == f.buf[u]
  {
  }

  lemma ScanFacts(f: Flow)
    requires InWindow(f) && f.size >= 2
    ensures var r := Scan(f).flow;
            r == f.(base := r.base, buf := r.buf) && InWindow(r) && r.base !in r.buf
            && f.base <= r.base <= f.base + f.size
  {
  }

  lemma MovedFacts(f: Flow, t: PktType, d: nat)
    requires InWindow(f) && f.size >= 2
    ensures var m := Moved(f, t, d).flow;
            && m == f.(base := Target(f, t, d), buf := m.buf) && InWindow(m)
            && f.base <= m.base
            && (m.base == f.base ==> m == f)
            && (!t.Bar? ==> m.base <= f.base + d < m.base + m.size)
            && (!t.Bar? && f.base + d in m.buf ==> m == f)
  {
    var to := Target(f, t, d);
    if to > f.base { MoveFacts(f, to); }
  }

  lemma AdmitWellFormed(f: Flow, t: PktType, d: nat, p: Payload)
    requires WellFormed(f) || (2 <= f.size <= 1023 && f.buf == map[])
    ensures var r := Admit(f, t, d, p).flow;
            r == f.(base := r.base, buf := r.buf) && InWindow(r) && r.base !in r.buf
            && Target(f, t, d) <= r.base <= Target(f, t, d) + f.size
  {
    hide Scan, Moved;
    MovedFacts(f, t, d);
    var m := Moved(f, t, d).flow;
    if t.Bar? {
      ScanFacts(m);
    } else if f.base + d !in m.buf {
      ScanFacts(m.(buf := m.buf[f.base + d := p]));
    }
  }

  lemma ForceFacts(f: Flow, s: nat, t: PktType)
    requires InWindow(f) && f.size >= 2
    ensures var m := Force(f, s, t).flow;
            m == f.(base := m.base, buf := map[], noDrop := false) && f.base + f.size <= m.base
  {
    assert KeepFrom(f.buf, f.base + f.size) == map[];
  }

  lemma SettleWellFormed(f: Flow, s: nat, t: PktType, p: Payload)
    requires WellFormed(f) && !f.checkStart
    ensures var r := Settle(f, s, t, p).flow;
            WellFormed(r) && r == f.(base := r.base, buf := r.buf, noDrop := false)
  {
    if f.noDrop {
      ForceFacts(f, s, t);
      var m := Force(f, s, t).flow;
      AdmitWellFormed(m, t, Dist(m.base, s), p);
    } else {
      AdmitWellFormed(f, t, Dist(f.base, s), p);
    }
  }

  lemma PrepareFacts(f: Flow, s: nat, t: PktType)
    requires WellFormed(f) && !Bypassed(f, s, t)
    ensures WellFormed(Prepare(f, s)) && !Prepare(f, s).checkStart
    ensures Prepare(f, s).flushPending == f.flushPending
  {
  }

  lemma BypassFacts(f: Flow, s: nat, t: PktType, p: Payload)
    requires WellFormed(f) && Bypassed(f, s, t) && s < 4096
    ensures var r := Bypass(f, s, t, p).flow;
            WellFormed(r) && r == f.(pktCount := r.pktCount, lastSeq := r.lastSeq)
  {
  }

  lemma FlushedFacts(f: Flow)
    requires WellFormed(f)
    ensures var r := Flushed(f).flow;
            WellFormed(r) && r == f.(base := r.base, buf := r.buf, flushPending := false)
            && (f.flushPending ==> r.buf == map[])
  {
    FlushEmpties(f.(flushPending := false));
  }

  lemma FlushedFit(f: Flow)
    requires FitFlow(f)
    ensures var r := Flushed(f).flow;
            FitFlow(r) && r == f.(base := r.base, buf := r.buf, flushPending := false)
            && (f.flushPending ==> r.buf == map[])
  {
    if f.size == 1 {
      assert PastLast(f.buf, f.base, f.base + 1) == f.base;
    } else {
      FlushedFacts(f);
    }
  }

  /** Between packets a flow is well formed; in particular its first number is the next one missing. */
  lemma ReceiveWellFormed(f: Flow, s: nat, t: PktType, p: Payload)
    requires WellFormed(f) && s < 4096
    ensures WellFormed(Receive(f, s, t, p).flow)
    ensures !Receive(f, s, t, p).flow.flushPending
  {
    FlushedFacts(f);
    var f0 := Flushed(f).flow;
    if Bypassed(f0, s, t) {
      BypassFacts(f0, s, t, p);
    } else {
      PrepareFacts(f0, s, t);
      SettleWellFormed(Prepare(f0, s), s, t, p);
    }
  }
}
