/** Aggregation of a transmit queue into one A-MSDU: what is consumed, what is written, how large it can
    get, and what the queue counters become. */
module AmsduQueue {
  import opened Basics
  import opened AmsduCodec
  import opened AmsduProperties

  /** A buffer of the queue: a frame, or an aggregate put back because the interface was busy. */
  datatype Buffer = Msdu(frame: Bytes) | Requeued(bytes: Bytes)

  datatype HostStatus = Success | Pending | Failure | Resource

  function Frames(q: seq<Buffer>): seq<Bytes>
    requires AllMsdu(q)
  {
    seq(|q|, i requires 0 <= i < |q| => q[i].frame)
  }

  predicate AllMsdu(q: seq<Buffer>) {
    forall i :: 0 <= i < |q| ==> q[i].Msdu? && ETH_HDR_LEN <= |q[i].frame|
  }

  /** Length of a run of subframes, each with its padding. */
  function PaddedLen(fs: seq<Bytes>): nat {
    if fs == [] then 0 else
      var last := |fs[|fs| - 1]| + LLC_SNAP_LEN;
      PaddedLen(fs[..|fs| - 1]) + last + Pad(last)
  }

  function LastPad(fs: seq<Bytes>): nat {
    if fs == [] then 0 else Pad(|fs[|fs| - 1]| + LLC_SNAP_LEN)
  }

  /** Subframe n fits behind n subframes with their padding. */
  predicate FitsNext(fs: seq<Bytes>, n: nat, room: int)
    requires n < |fs|
  {
    PaddedLen(fs[..n]) + |fs[n]| + LLC_SNAP_LEN <= room
  }

  /** Each of the first n subframes fits when its turn comes. */
  predicate EachFits(fs: seq<Bytes>, n: nat, room: int) {
    n <= |fs| && forall k {:trigger FitsNext(fs, k, room)} :: 0 <= k < n ==> FitsNext(fs, k, room)
  }

  /** The aggregate takes as many frames as fit, in order. */
  predicate TakesGreedily(fs: seq<Bytes>, n: nat, room: int) {
    EachFits(fs, n, room) && (n < |fs| ==> !FitsNext(fs, n, room))
  }

  lemma PaddedStep(fs: seq<Bytes>, n: nat)
    requires n < |fs|
    ensures PaddedLen(fs[..n + 1]) == PaddedLen(fs[..n]) + |fs[n]| + LLC_SNAP_LEN + Pad(|fs[n]| + LLC_SNAP_LEN)
    ensures LastPad(fs[..n + 1]) == Pad(|fs[n]| + LLC_SNAP_LEN)
  {
    assert fs[..n + 1][..n] == fs[..n];
  }

  /** Taking the last pad off the padded length gives the length of the aggregate. */
  lemma {:induction false} PaddedIsTotal(fs: seq<Bytes>)
    ensures PaddedLen(fs) - LastPad(fs) == TotalLen(fs)
  {
    if |fs| > 1 {
      PaddedIsTotal(fs[1..]);
      PaddedFront(fs);
      assert LastPad(fs) == LastPad(fs[1..]);
    } else if |fs| == 1 {
      assert fs[..0] == [];
    }
  }

  lemma {:induction false} PaddedFront(fs: seq<Bytes>)
    requires fs != []
    ensures PaddedLen(fs) == |fs[0]| + LLC_SNAP_LEN + Pad(|fs[0]| + LLC_SNAP_LEN) + PaddedLen(fs[1..])
  {
    if |fs| == 1 {
      assert fs[..0] == [];
    } else {
      PaddedFront(fs[..|fs| - 1]);
      assert fs[..|fs| - 1][1..] == fs[1..][..|fs| - 2];
    }
  }

  lemma NothingPadded()
    ensures PaddedLen([]) == 0 && LastPad([]) == 0
  {
  }

  /** Appending a subframe, with its pad skipped, extends what memory holds. */
  lemma {:induction false} HoldsMore(mem: Bytes, at: nat, fs: seq<Bytes>, f: Bytes)
    requires AllFit(fs) && Fits(f) && AllFit(fs + [f])
    requires at + PaddedLen(fs) + |f| + LLC_SNAP_LEN <= |mem|
    requires at + TotalLen(fs) <= |mem| && Holds(mem, at, fs)
    requires mem[at + PaddedLen(fs)..at + PaddedLen(fs) + |f| + LLC_SNAP_LEN] == Subframe(f)
    ensures TotalLen(fs + [f]) == PaddedLen(fs) + |f| + LLC_SNAP_LEN
    ensures Holds(mem, at, fs + [f])
    decreases |fs|
  {
    hide Subframe, Pad, PaddedLen, LastPad;
    TotalOfMore(fs, f);
    if fs == [] {
      NothingPadded();
      assert fs + [f] == [f];
    } else {
      var size := |fs[0]| + LLC_SNAP_LEN;
      PaddedFront(fs);
      PaddedIsTotal(fs[1..]);
      assert (fs + [f])[1..] == fs[1..] + [f];
      TotalOfMore(fs[1..], f);
      HoldsMore(mem, at + size + Pad(size), fs[1..], f);
    }
  }

  lemma TotalOfMore(fs: seq<Bytes>, f: Bytes)
    ensures TotalLen(fs + [f]) == PaddedLen(fs) + |f| + LLC_SNAP_LEN
  {
    PaddedIsTotal(fs + [f]);
    assert (fs + [f])[..|fs|] == fs;
  }

  /** How many frames are taken, once n are. */
  function TakenFrom(fs: seq<Bytes>, n: nat, room: int): (m: nat)
    requires EachFits(fs, n, room)
    ensures TakesGreedily(fs, m, room) && n <= m
    decreases |fs| - n
  {
    if n < |fs| && FitsNext(fs, n, room) then TakenFrom(fs, n + 1, room) else n
  }

  function Taken(fs: seq<Bytes>, room: int): (m: nat)
    ensures TakesGreedily(fs, m, room)
  {
    TakenFrom(fs, 0, room)
  }

  /** There is only one greedy count. */
  lemma GreedyIsTaken(fs: seq<Bytes>, n: nat, room: int)
    requires TakesGreedily(fs, n, room)
    ensures n == Taken(fs, room)
  {
    var m := Taken(fs, room);
  }

  class RaList {
    var bufHead: seq<Buffer>
    var totalPkts: int
    /** `pkts_queued` of this list's access category, and the sum over all of them. */
    var pktsQueued: int
    var txPktsQueued: int

    /** Takes a frame off the head of the list. */
    method Dequeue() returns (b: Buffer)
      requires bufHead != []
      modifies this
      ensures b == old(bufHead)[0] && bufHead == old(bufHead)[1..]
      ensures totalPkts == old(totalPkts) - 1
      ensures pktsQueued == old(pktsQueued) - 1 && txPktsQueued == old(txPktsQueued) - 1
    {
      b := bufHead[0];
      bufHead := bufHead[1..];
      totalPkts, pktsQueued, txPktsQueued := totalPkts - 1, pktsQueued - 1, txPktsQueued - 1;
    }

    /** Moves the frame at the head of the list into the aggregate. */
    method TakeOne(buf: array<byte>, start: nat, end: nat, ghost fs: seq<Bytes>, ghost n: nat)
      returns (size: nat, pad: nat)
      requires bufHead != [] && bufHead[0].Msdu? && n < |fs| && bufHead[0].frame == fs[n]
      requires end == start + PaddedLen(fs[..n]) && end + |fs[n]| + LLC_SNAP_LEN <= buf.Length
      requires Filled(buf[..], start, fs, n) && Fits(fs[n])
      modifies this, buf
      ensures bufHead == old(bufHead)[1..] && totalPkts == old(totalPkts) - 1
      ensures pktsQueued == old(pktsQueued) - 1 && txPktsQueued == old(txPktsQueued) - 1
      ensures end + size == start + PaddedLen(fs[..n + 1]) && pad == LastPad(fs[..n + 1])
      ensures Filled(buf[..], start, fs, n + 1) && buf[..start] == old(buf[..start])
      ensures size - pad == |fs[n]| + LLC_SNAP_LEN
    {
      hide Filled, Subframe;
      ghost var was := buf[..];
      var b := Dequeue();
      size, pad := FormAmsduPkt(buf, end, b.frame);
      FillStep(was, buf[..], start, fs, n);
      PutKeeps(was, end, Subframe(fs[n]), start);
      PaddedStep(fs, n);
    }

    /** Fills the aggregate behind the TxPD; returns its size with the last pad, and that pad. */
    method Fill(buf: array<byte>, start: nat, limit: nat) returns (end: nat, pad: nat)
      requires AllMsdu(bufHead) && start <= limit <= buf.Length && limit < 0x1_0000
      modifies this, buf
      ensures var fs := Frames(old(bufHead));
              var n := Taken(fs, limit - start);
              && Filled(buf[..], start, fs, n)
              && end - pad == start + TotalLen(fs[..n]) <= limit
              && bufHead == old(bufHead)[n..]
              && totalPkts == old(totalPkts) - n && pktsQueued == old(pktsQueued) - n
              && txPktsQueued == old(txPktsQueued) - n
      ensures buf[..start] == old(buf[..start])
    {
      hide Filled, PaddedLen, TotalLen, Taken, LastPad;
      ghost var q, fs := bufHead, Frames(bufHead);
      ghost var n := 0;
      end, pad := start, 0;
      FilledNothing(buf[..], start, fs);
      while bufHead != [] && end + |bufHead[0].frame| + LLC_SNAP_LEN <= limit
        invariant n <= |q| && bufHead == q[n..]
        invariant end == start + PaddedLen(fs[..n]) && pad == LastPad(fs[..n]) && end - pad <= limit
        invariant EachFits(fs, n, limit - start) && Filled(buf[..], start, fs, n)
        invariant totalPkts == old(totalPkts) - n && pktsQueued == old(pktsQueued) - n
        invariant txPktsQueued == old(txPktsQueued) - n
        invariant buf[..start] == old(buf[..start])
        decreases |bufHead|
      {
        assert FitsNext(fs, n, limit - start);
        var size;
        size, pad := TakeOne(buf, start, end, fs, n);
        end := end + size;
        n := n + 1;
      }
      GreedyIsTaken(fs, n, limit - start);
      PaddedIsTotal(fs[..n]);
    }

    /** Writes the TxPD and behind it the frames that fit; returns the size without the last pad. */
    method Assemble(buf: array<byte>, headroom: nat, txPd: Bytes, limit: nat) returns (size: nat)
      requires AllMsdu(bufHead) && headroom + |txPd| <= buf.Length && limit <= buf.Length && limit < 0x1_0000
      modifies this, buf
      ensures var fs, start := Frames(old(bufHead)), headroom + |txPd|;
              var n := Consumed(fs, start, limit);
              && Filled(buf[..], start, fs, n) && size == start + TotalLen(fs[..n])
              && (start <= limit ==> size <= limit)
              && bufHead == old(bufHead)[n..]
              && totalPkts == old(totalPkts) - n && pktsQueued == old(pktsQueued) - n
              && txPktsQueued == old(txPktsQueued) - n
      ensures buf[headroom..headroom + |txPd|] == txPd
    {
      hide Filled, Taken, TotalLen, PaddedLen, FitsNext, EachFits;
      CopyIn(buf, headroom, txPd);
      var start := headroom + |txPd|;
      var end, pad := start, 0;
      ghost var fs := Frames(bufHead);
      assert buf[headroom..start] == txPd;
      if start <= limit {
        ghost var was := buf[..start];
        end, pad := Fill(buf, start, limit);
        assert buf[headroom..start] == was[headroom..start];
      } else {
        FilledNothing(buf[..], start, fs);
        NothingTotal(fs);
      }
      size := end - pad;
    }

    /** Sends the frames that fit as one A-MSDU; when the interface has no resources the aggregate goes
        back to the head of the list as one buffer. Returns the size of the aggregate. */
    method AggregatePkt(headroom: nat, txPd: Bytes, maxAmsdu: nat, txBufSize: nat, host: HostStatus)
      returns (size: nat, mem: Bytes)
      requires AllMsdu(bufHead) && headroom + |txPd| <= txBufSize
      requires maxAmsdu < 0x1_0000 && txBufSize < 0x1_0000
      modifies this
      ensures old(bufHead) == [] ==>
                size == headroom && mem == [] && bufHead == [] && totalPkts == old(totalPkts)
                && pktsQueued == old(pktsQueued) && txPktsQueued == old(txPktsQueued)
      ensures old(bufHead) != [] ==>
                var fs, start, limit := Frames(old(bufHead)), headroom + |txPd|, Min(maxAmsdu, txBufSize);
                var n := Consumed(fs, start, limit);
                var back := if host.Resource? then 1 else 0;
                && |mem| == txBufSize && Filled(mem, start, fs, n)
                && size == start + TotalLen(fs[..n]) && (start <= limit ==> size <= limit)
                && mem[headroom..start] == txPd
                && bufHead == (if host.Resource? then [Requeued(mem[..size])] else []) + old(bufHead)[n..]
                && totalPkts == old(totalPkts) - n + back && pktsQueued == old(pktsQueued) - n + back
                && txPktsQueued == old(txPktsQueued) - n + back
    {
      if bufHead == [] {
        return headroom, [];
      }
      hide Consumed, Holds, Frames, TotalLen;
      var buf := new byte[txBufSize];
      size := Assemble(buf, headroom, txPd, Min(maxAmsdu, txBufSize));
      mem := buf[..];
      if host.Resource? {
        bufHead := [Requeued(mem[..size])] + bufHead;
        totalPkts, pktsQueued, txPktsQueued := totalPkts + 1, pktsQueued + 1, txPktsQueued + 1;
      }
    }
  }

  /** How many frames an aggregate takes: as many as fit behind the TxPD in turn. */
  function Consumed(fs: seq<Bytes>, start: nat, limit: nat): (n: nat)
    ensures n <= |fs|
    ensures start <= limit ==> TakesGreedily(fs, n, limit - start)
    ensures start > limit ==> n == 0
  {
    if start <= limit then Taken(fs, limit - start) else 0
  }

  lemma NothingTotal(fs: seq<Bytes>)
    ensures TotalLen(fs[..0]) == 0
  {
  }

  /** Memory from `start` on holds the first n frames. */
  predicate Filled(mem: Bytes, start: nat, fs: seq<Bytes>, n: nat) {
    n <= |fs| && AllFit(fs[..n]) && start + TotalLen(fs[..n]) <= |mem| && Holds(mem, start, fs[..n])
  }

  lemma FilledNothing(mem: Bytes, start: nat, fs: seq<Bytes>)
    requires start <= |mem|
    ensures Filled(mem, start, fs, 0) && PaddedLen(fs[..0]) == 0 && LastPad(fs[..0]) == 0
  {
    assert fs[..0] == [];
  }

  lemma PutKeeps(mem: Bytes, off: nat, s: Bytes, start: nat)
    requires off + |s| <= |mem| && start <= off
    ensures Put(mem, off, s)[..start] == mem[..start] && Put(mem, off, s)[..off] == mem[..off]
    ensures Put(mem, off, s)[off..off + |s|] == s
  {
  }

  /** Writing the next frame behind the padded ones. */
  lemma FillStep(was: Bytes, mem: Bytes, start: nat, fs: seq<Bytes>, n: nat)
    requires n < |fs| && Fits(fs[n]) && Filled(was, start, fs, n)
    requires start + PaddedLen(fs[..n]) + |fs[n]| + LLC_SNAP_LEN <= |was|
    requires mem == Put(was, start + PaddedLen(fs[..n]), Subframe(fs[n]))
    ensures Filled(mem, start, fs, n + 1)
  {
    hide Holds, Subframe, Put, PaddedLen, TotalLen;
    var done, end := fs[..n], start + PaddedLen(fs[..n]);
    assert done + [fs[n]] == fs[..n + 1];
    PaddedIsTotal(done);
    SubframeLen(fs[n]);
    PutKeeps(was, end, Subframe(fs[n]), start);
    HoldsBefore(was, mem, start, done, end);
    HoldsMore(mem, start, done, fs[n]);
  }

  lemma SubframeLen(f: Bytes)
    requires Fits(f)
    ensures |Subframe(f)| == |f| + LLC_SNAP_LEN
  {
  }

  lemma PrefixSlice(a: Bytes, b: Bytes, end: nat, lo: nat, hi: nat)
    requires lo <= hi <= end <= |a| == |b| && a[..end] == b[..end]
    ensures a[lo..hi] == b[lo..hi]
  {
    assert a[lo..hi] == a[..end][lo..hi];
    assert b[lo..hi] == b[..end][lo..hi];
  }

  lemma {:induction false} HoldsBefore(a: Bytes, b: Bytes, at: nat, fs: seq<Bytes>, end: nat)
    requires AllFit(fs) && at + TotalLen(fs) <= end <= |a| == |b| && a[..end] == b[..end]
    requires Holds(a, at, fs)
    ensures Holds(b, at, fs)
    decreases |fs|
  {
    if fs != [] {
      var size := |fs[0]| + LLC_SNAP_LEN;
      assert at + size <= at + TotalLen(fs);
      PrefixSlice(a, b, end, at, at + size);
      if |fs| > 1 {
        HoldsBefore(a, b, at + size + Pad(size), fs[1..], end);
      }
    }
  }

  /** End to end: a receive buffer with the aggregate in it deaggregates into exactly the frames that were
      taken from the queue, in order. */
  lemma FilledReadsBack(mem: Bytes, start: nat, fs: seq<Bytes>, n: nat)
    requires Filled(mem, start, fs, n) && start + TotalLen(fs[..n]) + 14 <= |mem|
    ensures var r := Deaggregate(mem, start, TotalLen(fs[..n])); r.frames == fs[..n] && r.ok
    ensures Count(mem, start, TotalLen(fs[..n])) == n
  {
    RoundTrip(mem, start, fs[..n]);
    CountAgrees(mem, start, TotalLen(fs[..n]));
  }
}
