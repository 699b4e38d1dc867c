/** The receive reorder table entry: a slot array rotated in place, a 64-bit word shadowing it, a
    12-bit window start and a flush timer, proved to compute the steps of ReorderSpec. */
module RxReorder {
  import opened Basics
  import opened SerialNumbers
  import opened ReorderSpec

  type Slots = seq<Option<Payload>>

  /** A `t_u64`, bit 0 first. */
  type Word = w: seq<bool> | |w| == 64 witness seq(64, i => false)

  const ZERO_WORD: Word := seq(64, i => false)

  function ShiftRight(w: Word, k: nat): Word {
    if k < 64 then seq(64, i requires 0 <= i < 64 => i + k < 64 && w[i + k]) else ZERO_WORD
  }

  // ---------------------------------------------------------------- slot arrays as maps

  predicate Occupied(slots: Slots, base: int, u: int) {
    base <= u < base + |slots| && slots[u - base].Some?
  }

  /** The packets of a slot array whose first slot belongs to number `base`. */
  function Held(slots: Slots, base: int): map<int, Payload> {
    map u | base <= u < base + |slots| && Occupied(slots, base, u) :: slots[u - base].value
  }

  function Nones(n: nat): Slots {
    seq(n, i => None)
  }

  /** The array rotated left by k places, the places vacated at the end being empty. */
  function ShiftLeft(slots: Slots, k: nat): Slots
    requires k <= |slots|
  {
    slots[k..] + Nones(k)
  }

  predicate Vacant(slots: Slots) {
    forall i :: 0 <= i < |slots| ==> slots[i].None?
  }

  /** The word has a bit for each occupied slot; meaningful for windows no wider than the word. */
  predicate Shadows(w: Word, slots: Slots) {
    |slots| <= 64 ==> forall i :: 0 <= i < 64 ==> (w[i] <==> i < |slots| && slots[i].Some?)
  }

  /** Rotating the slots is forgetting the numbers that left the window. */
  lemma ShiftForgets(slots: Slots, base: int, k: nat)
    requires k <= |slots|
    ensures Held(ShiftLeft(slots, k), base + k) == KeepFrom(Held(slots, base), base + k)
  {
    var l, r := Held(ShiftLeft(slots, k), base + k), KeepFrom(Held(slots, base), base + k);
    forall u ensures u in l <==> u in r {
      assert Occupied(ShiftLeft(slots, k), base + k, u) <==> base + k <= u && Occupied(slots, base, u);
    }
    forall u | u in l ensures l[u] == r[u] {
      assert ShiftLeft(slots, k)[u - base - k] == slots[u - base];
    }
  }

  lemma HeldAt(slots: Slots, base: int, i: nat)
    requires i < |slots|
    ensures base + i in Held(slots, base) <==> slots[i].Some?
  {
    assert Occupied(slots, base, base + i) <==> slots[i].Some?;
  }

  lemma HeldInWindow(slots: Slots, base: int)
    ensures forall u :: u in Held(slots, base) ==> base <= u < base + |slots|
  {
  }

  lemma VacantHoldsNothing(slots: Slots, base: int)
    ensures Vacant(slots) <==> Held(slots, base) == map[]
  {
    if !Vacant(slots) {
      var i :| 0 <= i < |slots| && slots[i].Some?;
      assert Occupied(slots, base, base + i);
      assert base + i in Held(slots, base);
    }
  }

  lemma SomeNotVacant(slots: Slots, i: nat)
    requires i < |slots| && slots[i].Some?
    ensures !Vacant(slots)
  {
  }

  lemma VacantShift(slots: Slots)
    ensures Vacant(ShiftLeft(slots, |slots|))
  {
  }

  lemma StoreHolds(slots: Slots, base: int, i: nat, p: Payload)
    requires i < |slots|
    ensures Held(slots[i := Some(p)], base) == Held(slots, base)[base + i := p]
  {
    var l, r := Held(slots[i := Some(p)], base), Held(slots, base)[base + i := p];
    forall u ensures u in l <==> u in r {
      assert Occupied(slots[i := Some(p)], base, u) <==> u == base + i || Occupied(slots, base, u);
    }
  }

  /** Right shifts of the word follow left rotations of the slots. */
  lemma ShiftShadows(w: Word, slots: Slots, k: nat)
    requires k <= |slots| && Shadows(w, slots)
    ensures Shadows(ShiftRight(w, k), ShiftLeft(slots, k))
  {
  }

  function Ids(out: seq<Delivery>): seq<nat> {
    seq(|out|, i requires 0 <= i < |out| => out[i].id)
  }

  lemma IdsAppend(a: seq<Delivery>, b: seq<Delivery>)
    ensures Ids(a + b) == Ids(a) + Ids(b)
  {
  }

  /** Hands up what a slot holds; the firmware-drop mark is swallowed. */
  function Dispatch(p: Payload): seq<nat> {
    match p
    case Data(id) => [id]
    case DroppedInFw => []
  }

  function DispatchSlot(o: Option<Payload>): seq<nat> {
    if o.Some? then Dispatch(o.value) else []
  }

  /** What emptying the slots, first to last, hands up. */
  function Packets(slots: Slots): seq<nat> {
    if slots == [] then [] else Packets(slots[..|slots| - 1]) + DispatchSlot(slots[|slots| - 1])
  }

  lemma PacketsStep(slots: Slots, i: nat)
    requires i < |slots|
    ensures Packets(slots[..i + 1]) == Packets(slots[..i]) + DispatchSlot(slots[i])
  {
    assert slots[..i + 1][..i] == slots[..i];
  }

  /** Emptying the first slots hands up what the map machine releases. */
  lemma {:induction false} PacketsAreRelease(slots: Slots, base: int, i: nat)
    requires i <= |slots|
    ensures Packets(slots[..i]) == Ids(Release(Held(slots, base), base, base + i))
  {
    if i > 0 {
      PacketsAreRelease(slots, base, i - 1);
      PacketsStep(slots, i - 1);
      var buf, u := Held(slots, base), base + i - 1;
      assert u in buf <==> Occupied(slots, base, u);
      IdsAppend(Release(buf, base, u), DeliverAt(buf, u));
    }
  }

  predicate FirstNone(slots: Slots, i: nat) {
    && i <= |slots|
    && (forall j :: 0 <= j < i ==> slots[j].Some?)
    && (i < |slots| ==> slots[i].None?)
  }

  lemma FirstNoneInside(slots: Slots, i: nat)
    requires FirstNone(slots, i)
    ensures i <= |slots|
  {
  }

  lemma HoleIsFirstNone(slots: Slots, base: int, i: nat)
    requires FirstNone(slots, i)
    ensures NextHole(Held(slots, base), base, base + |slots|) == base + i
  {
    var h := NextHole(Held(slots, base), base, base + |slots|);
    assert h < base + i ==> Occupied(slots, base, h);
    assert i < |slots| ==> base + i !in Held(slots, base);
  }

  /** Emptying the slots before the first empty one and rotating over them is the map machine's scan. */
  lemma RunIsScan(f: Flow, slots: Slots, i: nat)
    requires |slots| == f.size && f.buf == Held(slots, f.base) && FirstNone(slots, i)
    ensures Scan(f) == Outcome(f.(base := f.base + i, buf := Held(ShiftLeft(slots, i), f.base + i)),
                               Release(f.buf, f.base, f.base + i), true)
  {
    hide Held, KeepFrom, Release, NextHole, FirstNone;
    HoleIsFirstNone(slots, f.base, i);
    assert i <= |slots| by { FirstNoneInside(slots, i); }
    ShiftForgets(slots, f.base, i);
  }

  lemma LastIsLastSome(slots: Slots, base: int, last: int)
    requires -1 <= last < |slots| && (last >= 0 ==> slots[last].Some?)
    requires forall j :: last < j < |slots| ==> slots[j].None?
    ensures PastLast(Held(slots, base), base, base + |slots|) == base + last + 1
  {
    var e := PastLast(Held(slots, base), base, base + |slots|);
    if last >= 0 {
      assert Occupied(slots, base, base + last);
      assert base + last in Held(slots, base);
    }
    assert base < e ==> Occupied(slots, base, e - 1);
  }

  /** How many slots a move of the window start empties, as computed on 12-bit starts. */
  function CountToSend(startWin: int, newStart: int, winSize: nat): int {
    if newStart > startWin then Min(newStart - startWin, winSize) else winSize
  }

  lemma CountIsReleaseEnd(f: Flow, startWin: int, newStart: int, to: int)
    requires startWin == f.base % 4096 && newStart == to % 4096 && f.base < to < f.base + 4096
    ensures var n := CountToSend(startWin, newStart, f.size);
            ReleaseEnd(f, to) == f.base + n && (n < f.size ==> to == f.base + n)
  {
    UpwardIffNoWrap(f.base, to);
    if newStart > startWin {
      SameLap(f.base, to);
    }
  }

  lemma KeepOfNothing(hi: int)
    ensures KeepFrom(map[], hi) == map[]
  {
  }

  /** What the map machine keeps when n slots are emptied is what the rotated array holds. */
  lemma KeptIsShifted(slots: Slots, base: int, n: nat, to: int)
    requires n <= |slots| && (n < |slots| ==> to == base + n)
    ensures KeepFrom(Held(slots, base), base + n) == Held(ShiftLeft(slots, n), to)
  {
    ShiftForgets(slots, base, n);
    if n == |slots| {
      hide Held;
      VacantShift(slots);
      VacantHoldsNothing(ShiftLeft(slots, n), to);
      VacantHoldsNothing(ShiftLeft(slots, n), base + n);
    }
  }

  /** Emptying that many slots and rotating over them is the map machine's move. */
  lemma DispatchIsMove(f: Flow, slots: Slots, startWin: int, newStart: int, to: int)
    requires |slots| == f.size && f.size >= 1 && f.buf == Held(slots, f.base)
    requires 0 <= startWin <= 4096 && startWin % 4096 == f.base % 4096 && (startWin == 4096 ==> Vacant(slots))
    requires f.base < to < f.base + 4096 && newStart == to % 4096
    ensures var n := CountToSend(startWin, newStart, f.size);
            && 1 <= n <= f.size
            && MoveTo(f, to) == Outcome(f.(base := to, buf := Held(ShiftLeft(slots, n), to)),
                                        Release(f.buf, f.base, f.base + n), true)
  {
    hide Held, KeepFrom, Release, ReleaseEnd;
    var n, hi := CountToSend(startWin, newStart, f.size), ReleaseEnd(f, to);
    if startWin == 4096 {
      VacantHoldsNothing(slots, f.base);
      KeepOfNothing(hi);
      KeepOfNothing(f.base + n);
      ReleaseNothing(f.buf, f.base, f.base + n);
      ReleaseNothing(f.buf, f.base, hi);
    } else {
      CountIsReleaseEnd(f, startWin, newStart, to);
    }
    KeptIsShifted(slots, f.base, n, to);
  }

  /** The number the window test is made on: a block ack request stands for the end of its window. */
  function TestedNumber(t: PktType, s: nat, winSize: nat): nat {
    if t.Bar? then (s + winSize - 1) % 4096 else s
  }

  predicate WindowMoves(startWin: int, winSize: nat, t: PktType, s: nat)
    requires winSize > 0
  {
    OutsideWindow(startWin, EndWin(startWin, winSize), TestedNumber(t, s, winSize))
  }

  /** The 12-bit tests, for data and for block ack requests, are the map machine's. */
  lemma TestsAreTarget(startWin: int, f: Flow, t: PktType, s: nat)
    requires startWin % 4096 == f.base % 4096 && 0 <= startWin <= 4096 && s < 4096
    requires 2 <= f.size <= 1023
    ensures var base, d := f.base, Dist(f.base, s);
            var to := Target(f, t, d);
            var moves := WindowMoves(startWin, f.size, t, s);
            var start := if moves then MovedStart(TestedNumber(t, s, f.size), f.size) else startWin;
            && (TooOld(startWin, s) <==> d >= 2048)
            && (moves <==> to > base)
            && (moves ==> base < to < base + 4096 && 0 <= start < 4096)
            && (moves ==> start % 4096 == to % 4096)
            && (!t.Bar? ==> SlotIndex(start, s) == base + d - to && 0 <= base + d - to < f.size)
  {
    DistShift(f.base, startWin, s);
    SerialArithmetic(startWin, f.size, s);
    if t.Bar? {
      BarMove(startWin, f.size, s);
      SerialArithmetic(startWin, f.size, TestedNumber(t, s, f.size));
    } else {
      DataMove(f.base, f.size, s);
    }
  }

  lemma ResyncFacts(f: Flow, s: nat)
    ensures Resync(f, s) == f.(base := Resync(f, s).base)
    ensures f.lastSeq == NO_SEQ ==> Resync(f, s) == f
  {
  }

  /** The 12-bit follow-up of the start-up phase is the map machine's. */
  lemma FollowIsResync(startWin: int, f: Flow, s: nat)
    requires startWin == f.base % 4096 && 2 <= f.size <= 1023 && s < 4096 && s != startWin
    requires f.lastSeq < 4096
    ensures var r := Resync(f, s).base;
            if LastSeenInWindow(startWin, EndWin(startWin, f.size), f.lastSeq) || (s < startWin && s > f.lastSeq)
            then r % 4096 == (f.lastSeq + 1) % 4096 else r == f.base
  {
    DistShift(f.base, startWin, f.lastSeq);
    SerialArithmetic(startWin, f.size, f.lastSeq);
    NextAfter(f.base, f.lastSeq);
  }

  /** In the start-up phase nothing is held. */
  lemma StartsEmpty(f: Flow)
    requires WellFormed(f) && f.checkStart
    ensures f.buf == map[] && f.pktCount < 256 && (f.lastSeq < 4096 || f.lastSeq == NO_SEQ)
  {
  }

  class RxReorderTbl {
    const tid: int
    const ta: nat
    var setupComplete: bool
    var startWin: int
    var lastSeq: nat
    const winSize: nat
    const slots: array<Option<Payload>>
    var timerIsSet: bool
    var amsdu: bool
    var forceNoDrop: bool
    var checkStartWin: bool
    var pktCount: nat
    var flushData: bool
    var bitmap: Word
    /** The unbounded number that `startWin` stands for. */
    ghost var base: int

    ghost function Abs(): Flow
      reads this, slots
    {
      Flow(base, winSize, Held(slots[..], base), lastSeq, pktCount, checkStartWin, amsdu, forceNoDrop, flushData)
    }

    /** Representation: holds at every step of an operation. */
    ghost predicate Core()
      reads this, slots
    {
      && slots.Length == winSize && 1 <= winSize <= 1023
      && 0 <= startWin <= 4096 && startWin % 4096 == base % 4096
      && Shadows(bitmap, slots[..])
    }

    /** The start of the window is out of the 12-bit range only while nothing is held. */
    ghost predicate StartInRange()
      reads this, slots
    {
      startWin == 4096 ==> Vacant(slots[..])
    }

    /** No packet is stranded: something is held exactly when the timer runs or a flush is pending. */
    ghost predicate NoneStranded()
      reads this, slots
    {
      && (!Vacant(slots[..]) <==> timerIsSet || flushData)
      && !(timerIsSet && flushData)
    }

    /** Holds between operations. */
    ghost predicate Valid()
      reads this, slots
    {
      && Core() && StartInRange()
      && FitFlow(Abs())
      && (checkStartWin ==> startWin < 4096)
      && (winSize <= 64 ==> NoneStranded())
    }

    constructor (tid: int, ta: nat, size: nat, seqNum: nat, last: nat)
      requires 1 <= size <= 1023 && seqNum < 4096 && (last < 4096 || last == NO_SEQ)
      ensures Valid() && fresh(slots)
      ensures Abs() == Flow(seqNum, size, map[], last, 0, true, false, false, false)
      ensures startWin == seqNum && !timerIsSet && !setupComplete && this.tid == tid && this.ta == ta
    {
      this.tid, this.ta, setupComplete := tid, ta, false;
      startWin, lastSeq, winSize := seqNum, last, size;
      slots := new Option<Payload>[size](i => None);
      timerIsSet, amsdu, forceNoDrop, checkStartWin, pktCount, flushData := false, false, false, true, 0, false;
      bitmap := ZERO_WORD;
      base := seqNum;
    }

    /** Empties the first k slots, handing up what they hold. */
    method DispatchSlots(k: nat) returns (sent: seq<nat>)
      requires k <= slots.Length
      modifies slots
      ensures sent == Packets(old(slots[..])[..k])
      ensures slots[..] == Nones(k) + old(slots[..])[k..]
    {
      ghost var was := slots[..];
      sent := [];
      for i := 0 to k
        invariant sent == Packets(was[..i])
        invariant forall j :: 0 <= j < i ==> slots[j].None?
        invariant forall j :: i <= j < slots.Length ==> slots[j] == was[j]
      {
        PacketsStep(was, i);
        if slots[i].Some? {
          var p := slots[i].value;
          slots[i] := None;
          sent := sent + Dispatch(p);
        }
      }
    }

    /** Shifts the array left by k, over k vacated slots, as the source rotates it. */
    method Rotate(k: nat)
      requires 1 <= k <= slots.Length
      requires forall j :: 0 <= j < k ==> slots[j].None?
      modifies slots
      ensures slots[..] == ShiftLeft(old(slots[..]), k)
    {
      ghost var was := slots[..];
      for i := 0 to slots.Length - k
        invariant forall j :: 0 <= j < i ==> slots[j] == was[k + j]
        invariant forall j :: i <= j < k + i ==> slots[j].None?
        invariant forall j :: k + i <= j < slots.Length ==> slots[j] == was[j]
      {
        slots[i] := slots[k + i];
        slots[k + i] := None;
      }
    }

    method ShiftBitmap(k: nat)
      modifies this`bitmap
      ensures bitmap == ShiftRight(old(bitmap), k)
    {
      bitmap := if k < 64 then ShiftRight(bitmap, k) else ZERO_WORD;
    }

    /** Dispatches all packets before the new start of the window; there could be holes. */
    method DispatchUntilStartWin(newStart: int, ghost to: int) returns (sent: seq<nat>)
      requires Core() && StartInRange()
      requires base < to < base + 4096 && 0 <= newStart < 4096 && newStart % 4096 == to % 4096
      modifies this`bitmap, this`startWin, this`base, slots
      ensures Core() && startWin == newStart && base == to
      ensures var r := MoveTo(old(Abs()), to); Abs() == r.flow && sent == Ids(r.out)
    {
      hide Held, MoveTo, Release, ReleaseEnd, Shadows, ShiftRight, Ids, Vacant;
      ghost var f, was := Abs(), slots[..];
      DispatchIsMove(f, was, startWin, newStart, to);
      var count := CountToSend(startWin, newStart, winSize);
      PacketsAreRelease(was, base, count);
      sent := DispatchSlots(count);
      Rotate(count);
      assert slots[..] == ShiftLeft(was, count) && newStart < 4096;
      ShiftShadows(bitmap, was, count);
      ShiftBitmap(count);
      startWin := newStart;
      base := to;
    }

    /** Empties the slots before the first empty one, handing up what they hold. */
    method DispatchRun() returns (i: nat, sent: seq<nat>)
      modifies slots
      ensures FirstNone(old(slots[..]), i)
      ensures sent == Packets(old(slots[..])[..i])
      ensures slots[..] == Nones(i) + old(slots[..])[i..]
    {
      ghost var was := slots[..];
      i, sent := 0, [];
      while i < slots.Length
        invariant 0 <= i <= slots.Length
        invariant sent == Packets(was[..i])
        invariant forall j :: 0 <= j < i ==> slots[j].None? && was[j].Some?
        invariant forall j :: i <= j < slots.Length ==> slots[j] == was[j]
        modifies slots
      {
        if slots[i].None? {
          break;
        }
        PacketsStep(was, i);
        var p := slots[i].value;
        slots[i] := None;
        sent := sent + Dispatch(p);
        i := i + 1;
      }
    }

    /** Dispatches packets from the start of the window until a hole is found. */
    method ScanAndDispatch() returns (sent: seq<nat>)
      requires Core()
      modifies this`bitmap, this`startWin, this`base, slots
      ensures Core() && startWin < 4096
      ensures var r := Scan(old(Abs())); Abs() == r.flow && sent == Ids(r.out)
    {
      hide Held, Scan, Release, Shadows, FirstNone, ShiftRight, Ids, Vacant, Packets, KeepFrom, NextHole;
      ghost var f, was := Abs(), slots[..];
      var i;
      i, sent := DispatchRun();
      RunIsScan(f, was, i);
      PacketsAreRelease(was, base, i);
      if i > 0 {
        Rotate(i);
      }
      assert slots[..] == ShiftLeft(was, i);
      ShiftShadows(bitmap, was, i);
      ShiftBitmap(i);
      SameShift(startWin, base, i);
      startWin := (startWin + i) % 4096;
      base := base + i;
    }

    /** Index of the last occupied slot, -1 when there is none. */
    method FindLastSeqNum() returns (last: int)
      ensures -1 <= last < slots.Length
      ensures last >= 0 ==> slots[last].Some?
      ensures forall j :: last < j < slots.Length ==> slots[j].None?
    {
      last := slots.Length - 1;
      while last >= 0 && slots[last].None?
        invariant -1 <= last < slots.Length
        invariant forall j :: last < j < slots.Length ==> slots[j].None?
      {
        last := last - 1;
      }
    }

    /** Flushes everything held, up to the last occupied slot. */
    method StartFlushData() returns (sent: seq<nat>)
      requires Core() && StartInRange()
      modifies this`bitmap, this`startWin, this`base, slots
      ensures Core()
      ensures var r := Flush(old(Abs())); Abs() == r.flow && sent == Ids(r.out)
      ensures Vacant(slots[..])
      ensures old(startWin) < 4096 ==> startWin < 4096
    {
      hide Held, Release, MoveTo, PastLast, Shadows, Vacant;
      ghost var f, was := Abs(), slots[..];
      HeldInWindow(was, base);
      FlushEmpties(f);
      var last := FindLastSeqNum();
      LastIsLastSome(was, base, last);
      sent := [];
      if last >= 0 {
        SomeNotVacant(was, last);
        SameShift(startWin, base, last + 1);
        sent := DispatchUntilStartWin((startWin + last + 1) % 4096, base + last + 1);
      }
      VacantHoldsNothing(slots[..], base);
    }

    /** The flush timer expires. */
    method FlushTimerExpires()
      requires Valid() && timerIsSet
      modifies this`flushData, this`timerIsSet
      ensures Valid() && Abs() == old(Abs()).(flushPending := true)
    {
      flushData := true;
      timerIsSet := false;
    }

    /** The deferred receive work: carries out a pending flush. */
    method FlushWork() returns (sent: seq<nat>)
      requires Valid()
      modifies this, slots
      ensures Valid() && setupComplete == old(setupComplete)
      ensures var r := Flushed(old(Abs())); Abs() == r.flow && sent == Ids(r.out)
    {
      FlushedFit(Abs());
      sent := [];
      if flushData {
        flushData := false;
        sent := StartFlushData();
      }
    }

    /** Stores a packet and sets its bit. A shift by 64 or more is undefined in the source, so the
        word may then become anything. */
    method Store(i: nat, p: Payload)
      requires i < slots.Length && Shadows(bitmap, slots[..])
      modifies this`bitmap, slots
      ensures Shadows(bitmap, slots[..])
      ensures slots[..] == old(slots[..])[i := Some(p)]
    {
      slots[i] := Some(p);
      if i < 64 {
        bitmap := bitmap[i := true];
      } else {
        var w: Word := *;
        bitmap := w;
      }
    }

    method RestartTimer()
      modifies this`timerIsSet
      ensures timerIsSet
    {
      timerIsSet := true;
    }

    /** The timer decision at the end of every packet that reached the window. */
    method UpdateTimer(prevStartWin: int)
      modifies this`timerIsSet
      ensures Shadows(bitmap, slots[..]) && slots.Length <= 64 ==> (timerIsSet <==> !Vacant(slots[..]))
    {
      if bitmap == ZERO_WORD {
        if timerIsSet {
          timerIsSet := false;
        }
        assert forall i :: 0 <= i < 64 ==> !bitmap[i];
      } else if !timerIsSet || prevStartWin != startWin {
        RestartTimer();
      }
    }

    /** Moves the window when the number lies outside it; returns the start the packet is stored against. */
    method MoveWindow(s: nat, t: PktType) returns (start: int, sent: seq<nat>)
      requires Core() && StartInRange() && s < 4096 && winSize >= 2
      modifies this`bitmap, this`startWin, this`base, slots
      ensures Core() && StartInRange()
      ensures var r := Moved(old(Abs()), t, Dist(old(base), s)); Abs() == r.flow && sent == Ids(r.out)
      ensures !t.Bar? ==> 0 <= SlotIndex(start, s) < winSize
      ensures !t.Bar? ==> SlotIndex(start, s) == old(base) + Dist(old(base), s) - base
    {
      hide Held, Release, MoveTo, Shadows, SlotIndex, OutsideWindow, MovedStart;
      ghost var f := Abs();
      TestsAreTarget(startWin, f, t, s);
      var n := TestedNumber(t, s, winSize);
      start, sent := startWin, [];
      if OutsideWindow(startWin, EndWin(startWin, winSize), n) {
        start := MovedStart(n, winSize);
        sent := DispatchUntilStartWin(start, Target(f, t, Dist(base, s)));
      }
    }

    /** Takes in one packet or block ack request that was not dropped. */
    method Take(s: nat, t: PktType, p: Payload) returns (ok: bool, sent: seq<nat>)
      requires Core() && StartInRange() && s < 4096 && winSize >= 2
      modifies this`bitmap, this`startWin, this`base, slots
      ensures Core() && StartInRange()
      ensures var r := ReorderSpec.Admit(old(Abs()), t, Dist(old(base), s), p);
              Abs() == r.flow && ok == r.ok && sent == Ids(r.out)
    {
      hide Release, Moved, Shadows, SlotIndex, Held, Scan, Ids;
      ghost var u := base + Dist(base, s);
      ghost var m := Moved(Abs(), t, Dist(base, s));
      var start;
      start, sent := MoveWindow(s, t);
      if !t.Bar? {
        var i := SlotIndex(start, s);
        HeldAt(slots[..], base, i);
        if slots[i].Some? {
          return false, sent;
        }
        StoreHolds(slots[..], base, i, p);
        Store(i, p);
      }
      ghost var g := if t.Bar? then m.flow else m.flow.(buf := m.flow.buf[u := p]);
      assert Abs() == g;
      IdsAppend(m.out, Scan(g).out);
      var more := ScanAndDispatch();
      sent := sent + more;
      ok := true;
    }

    /** `force_no_drop`: flushes the window; a packet then restarts it at its own number. */
    method ForceWindow(s: nat, t: PktType) returns (sent: seq<nat>)
      requires Core() && StartInRange() && s < 4096 && winSize >= 2
      modifies this`bitmap, this`startWin, this`base, this`timerIsSet, slots
      ensures Core() && StartInRange()
      ensures var r := Force(old(Abs()), s, t); Abs().(noDrop := false) == r.flow && sent == Ids(r.out)
    {
      hide Release, Shadows, Ids, MoveTo, Held;
      ghost var f := Abs();
      HeldInWindow(slots[..], base);
      ForceFacts(f, s, t);
      sent := DispatchUntilStartWin((startWin + winSize) % 4096, base + winSize);
      VacantHoldsNothing(slots[..], base);
      if !t.Bar? {
        DistShift(base, base, s);
        base := base + Dist(base, s);
        startWin := s;
        VacantHoldsNothing(slots[..], base);
      }
      RestartTimer();
    }

    /** Everything after the start-up phase. */
    method Settle(s: nat, t: PktType, p: Payload) returns (ok: bool, sent: seq<nat>)
      requires Core() && StartInRange() && WellFormed(Abs()) && !checkStartWin && s < 4096
      modifies this`bitmap, this`startWin, this`base, this`timerIsSet, this`forceNoDrop, slots
      ensures Core() && StartInRange()
      ensures var r := ReorderSpec.Settle(old(Abs()), s, t, p); Abs() == r.flow && ok == r.ok && sent == Ids(r.out)
      ensures winSize <= 64 ==> (timerIsSet <==> !Vacant(slots[..]))
    {
      hide Release, Shadows, ReorderSpec.Admit, Force, Held;
      ghost var f := Abs();
      sent := [];
      if forceNoDrop {
        sent := ForceWindow(s, t);
      }
      var prevStartWin := startWin;
      DistShift(base, startWin, s);
      SerialArithmetic(startWin, winSize, s);
      if forceNoDrop {
        forceNoDrop := false;
        ghost var m := Force(f, s, t);
        IdsAppend(m.out, ReorderSpec.Admit(m.flow, t, Dist(m.flow.base, s), p).out);
        var more;
        ok, more := Take(s, t, p);
        sent := sent + more;
      } else if TooOld(startWin, s) {
        ok := false;
      } else {
        ok, sent := Take(s, t, p);
      }
      UpdateTimer(prevStartWin);
    }

    /** Sets the window after the last number seen while the start-up phase lasted. */
    method FollowLastSeen(s: nat)
      requires Core() && Vacant(slots[..]) && startWin < 4096 && s < 4096 && s != startWin && winSize >= 2
      requires lastSeq < 4096 || lastSeq == NO_SEQ
      modifies this`startWin, this`base
      ensures Core() && Abs() == Resync(old(Abs()), s)
    {
      hide Resync, Shadows, LastSeenInWindow;
      ghost var f := Abs();
      ghost var g := Resync(f, s);
      ResyncFacts(f, s);
      if lastSeq != NO_SEQ {
        FollowIsResync(startWin, f, s);
        var endWin := EndWin(startWin, winSize);
        if LastSeenInWindow(startWin, endWin, lastSeq) {
          startWin := lastSeq + 1;
        } else if s < startWin && s > lastSeq {
          startWin := lastSeq + 1;
        }
        VacantHoldsNothing(slots[..], base);
        base := g.base;
        VacantHoldsNothing(slots[..], base);
      }
    }

    /** A packet of the start-up phase goes around the window, unless it repeats the last one. */
    method ForwardStartUp(s: nat, t: PktType, p: Payload) returns (ok: bool, sent: seq<nat>)
      requires Valid() && StartingUp(Abs(), s) && !(t.Amsdu? && !amsdu) && s < 4096 && winSize >= 2
      modifies this`pktCount, this`lastSeq
      ensures Valid()
      ensures var r := Bypass(old(Abs()), s, t, p); Abs() == r.flow && ok == r.ok && sent == Ids(r.out)
    {
      hide Shadows, Held, Vacant, WellFormed;
      BypassFacts(Abs(), s, t, p);
      pktCount := (pktCount + 1) % 256;
      ok, sent := true, [];
      if lastSeq == s {
        ok := false;
      } else {
        lastSeq := s;
        if !t.Bar? {
          sent := Dispatch(p);
        }
      }
    }

    /** The start-up phase: packets that do not carry the window's start are forwarded, until half a
        window of them was seen; then the window follows the last number forwarded. */
    method CheckStart(s: nat, t: PktType, p: Payload) returns (bypassed: bool, ok: bool, sent: seq<nat>)
      requires Valid() && checkStartWin && s < 4096 && !(t.Amsdu? && !amsdu) && winSize >= 2
      modifies this`pktCount, this`lastSeq, this`checkStartWin, this`startWin, this`base
      ensures bypassed == Bypassed(old(Abs()), s, t)
      ensures bypassed ==> Valid()
      ensures bypassed ==>
                var r := Bypass(old(Abs()), s, t, p); Abs() == r.flow && ok == r.ok && sent == Ids(r.out)
      ensures !bypassed ==> Core() && StartInRange() && Abs() == Prepare(old(Abs()), s)
    {
      hide Shadows, Resync, Held, Vacant, WellFormed, Bypass;
      VacantHoldsNothing(slots[..], base);
      StartsEmpty(Abs());
      bypassed, ok, sent := false, true, [];
      if s == startWin {
        checkStartWin := false;
      } else if (pktCount + 1) % 256 < winSize / 2 {
        bypassed := true;
        ok, sent := ForwardStartUp(s, t, p);
      } else {
        pktCount := (pktCount + 1) % 256;
        checkStartWin := false;
        FollowLastSeen(s);
      }
    }

    /** A packet or block ack request of this flow, or the firmware's mark for a packet it dropped. */
    method Receive(s: nat, t: PktType, p: Payload) returns (ok: bool, sent: seq<nat>)
      requires Valid() && s < 4096 && winSize >= 2
      modifies this, slots
      ensures Valid() && setupComplete == old(setupComplete)
      ensures var r := ReorderSpec.Receive(old(Abs()), s, t, p); Abs() == r.flow && ok == r.ok && sent == Ids(r.out)
    {
      hide Release, Shadows, ReorderSpec.Settle, Resync, Held;
      ghost var f := Abs();
      ReceiveWellFormed(f, s, t, p);
      sent := FlushWork();
      ghost var f0 := Flushed(f);
      ghost var r := ReceiveFlushed(f0.flow, s, t, p);
      IdsAppend(f0.out, r.out);
      var more;
      if t.Amsdu? && !amsdu {
        more := Dispatch(p);
        return true, sent + more;
      }
      if checkStartWin {
        var bypassed;
        bypassed, ok, more := CheckStart(s, t, p);
        if bypassed {
          return ok, sent + more;
        }
      }
      PrepareFacts(f0.flow, s, t);
      ok, more := Settle(s, t, p);
      sent := sent + more;
    }

    /** Firmware resumes: nothing may be dropped on the next packet. */
    method SetNoDrop(flag: bool)
      requires Valid()
      modifies this`forceNoDrop
      ensures Valid() && Abs() == old(Abs()).(noDrop := flag)
    {
      forceNoDrop := flag;
    }

    /** Before the entry is deleted its whole window goes up. */
    method Drain() returns (sent: seq<nat>)
      requires Valid()
      modifies this`bitmap, this`startWin, this`base, slots
      ensures sent == Ids(Drained(old(Abs())))
      ensures Vacant(slots[..])
    {
      hide Release, Shadows;
      HeldInWindow(slots[..], base);
      ghost var f := Abs();
      sent := DispatchUntilStartWin((startWin + winSize) % 4096, base + winSize);
      assert KeepFrom(f.buf, f.base + f.size) == map[];
      VacantHoldsNothing(slots[..], base);
    }

    method SetUp(amsduSupported: bool)
      requires Valid()
      modifies this`setupComplete, this`amsdu
      ensures Valid() && setupComplete && Abs() == old(Abs()).(amsdu := amsduSupported)
    {
      setupComplete := true;
      amsdu := amsduSupported;
    }
  }
}
