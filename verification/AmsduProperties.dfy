/** What the in-place A-MSDU reader really does: it inverts the writer, it yields as many frames as the
    counting pass announced, and exactly when its rewriting in place changes what it reads. */
module AmsduProperties {
  import opened AmsduCodec

  predicate SameFrom(a: Bytes, b: Bytes, at: nat) {
    |a| == |b| && forall i :: at <= i < |a| ==> a[i] == b[i]
  }

  // ---------------------------------------------------------------- counting

  lemma {:induction false} CountSees(a: Bytes, b: Bytes, at: nat, left: int)
    requires at + left + 14 <= |a| && SameFrom(a, b, at + 12)
    ensures Count(a, at, left) == Count(b, at, left)
    decreases left
  {
    if left >= ETH_HDR_LEN && PktLen(a, at) <= left {
      var len := PktLen(a, at);
      CountSees(a, b, at + Stride(len), left - Stride(len));
    }
  }

  lemma RewriteStaysBehind(mem: Bytes, at: nat, len: nat)
    requires at + 20 <= |mem|
    ensures SameFrom(mem, Rewritten(mem, at), at + Stride(len) + 12)
  {
  }

  lemma CountStep(mem: Bytes, at: nat, left: int)
    requires at + left + 14 <= |mem| && left >= ETH_HDR_LEN && PktLen(mem, at) <= left
    ensures var len := PktLen(mem, at);
            Count(mem, at, left) == 1 + Count(Rewritten(mem, at), at + Stride(len), left - Stride(len))
  {
    var len := PktLen(mem, at);
    RewriteStaysBehind(mem, at, len);
    CountSees(mem, Rewritten(mem, at), at + Stride(len), left - Stride(len));
  }

  /** The counting pass, which runs before anything is rewritten, announces exactly the number of frames
      the reader then yields, for every buffer. */
  lemma {:induction false} CountAgrees(mem: Bytes, at: nat, left: int)
    requires at + left + 14 <= |mem|
    ensures |Deaggregate(mem, at, left).frames| == Count(mem, at, left)
    decreases left
  {
    hide Deaggregate, Rewritten, Count, PktLen;
    CountEnds(mem, at, left);
    if left < ETH_HDR_LEN {
      DeaggregateEnd(mem, at, left);
    } else {
      DeaggregateStep(mem, at, left);
      if PktLen(mem, at) <= left {
        var len := PktLen(mem, at);
        CountStep(mem, at, left);
        CountAgrees(Rewritten(mem, at), at + Stride(len), left - Stride(len));
      }
    }
  }

  lemma CountEnds(mem: Bytes, at: nat, left: int)
    requires at + left + 14 <= |mem|
    ensures left < ETH_HDR_LEN || PktLen(mem, at) > left ==> Count(mem, at, left) == 0
  {
  }

  // ---------------------------------------------------------------- round trip

  /** A frame that fits a subframe: a whole header, and a length its 16-bit field can hold. */
  predicate Fits(f: Bytes) {
    ETH_HDR_LEN <= |f| && |f| + LLC_SNAP_LEN - ETH_HDR_LEN < 0x1_0000
  }

  predicate AllFit(fs: seq<Bytes>) {
    forall i :: 0 <= i < |fs| ==> Fits(fs[i])
  }

  /** Length of an aggregate; its last subframe is not padded. */
  function TotalLen(fs: seq<Bytes>): nat {
    if fs == [] then 0
    else if |fs| == 1 then |fs[0]| + LLC_SNAP_LEN
    else |fs[0]| + LLC_SNAP_LEN + Pad(|fs[0]| + LLC_SNAP_LEN) + TotalLen(fs[1..])
  }

  /** Memory holds the subframes of `fs` from `at` on, whatever the bytes between them. */
  predicate Holds(mem: Bytes, at: nat, fs: seq<Bytes>)
    requires AllFit(fs) && at + TotalLen(fs) <= |mem|
    decreases |fs|
  {
    fs == [] ||
    (&& mem[at..at + |fs[0]| + LLC_SNAP_LEN] == Subframe(fs[0])
     && (|fs| > 1 ==> Holds(mem, at + |fs[0]| + LLC_SNAP_LEN + Pad(|fs[0]| + LLC_SNAP_LEN), fs[1..])))
  }

  lemma {:induction false} HoldsSees(a: Bytes, b: Bytes, at: nat, fs: seq<Bytes>)
    requires AllFit(fs) && at + TotalLen(fs) <= |a| && SameFrom(a, b, at) && Holds(a, at, fs)
    ensures Holds(b, at, fs)
    decreases |fs|
  {
    if fs != [] {
      var end := at + |fs[0]| + LLC_SNAP_LEN;
      assert a[at..end] == b[at..end];
      if |fs| > 1 {
        HoldsSees(a, b, end + Pad(|fs[0]| + LLC_SNAP_LEN), fs[1..]);
      }
    }
  }

  /** Reading one subframe of the writer's gives the frame back. */
  lemma SubframeReads(mem: Bytes, at: nat, f: Bytes)
    requires Fits(f) && at + |f| + LLC_SNAP_LEN <= |mem| && mem[at..at + |f| + LLC_SNAP_LEN] == Subframe(f)
    ensures PktLen(mem, at) == |f| + LLC_SNAP_LEN - ETH_HDR_LEN && IsSnap(mem, at)
    ensures Rewritten(mem, at)[at + LLC_SNAP_LEN..at + LLC_SNAP_LEN + |f|] == f
  {
    var s, n := Subframe(f), |f| + LLC_SNAP_LEN - ETH_HDR_LEN;
    assert forall i :: 0 <= i < |s| ==> mem[at + i] == s[i];
    assert s[12] as int == n / 256 && s[13] as int == n % 256;
    assert s[14..20] == RFC1042_HDR;
    assert mem[at + 14..at + 20] == s[14..20];
    var m := Rewritten(mem, at);
    assert m[at + 8..at + 20] == f[..12] by {
      assert m[at + 8..at + 20] == mem[at..at + 12];
      assert s[..12] == f[..12];
    }
    assert m[at + 20..at + 8 + |f|] == f[12..] by {
      assert s[20..] == f[12..];
    }
    assert f == f[..12] + f[12..];
  }

  /** Reading the first of several subframes leaves the others as they were. */
  lemma FirstReads(mem: Bytes, at: nat, f: Bytes, left: int)
    requires Fits(f) && at + |f| + LLC_SNAP_LEN <= at + left && at + left + 14 <= |mem|
    requires mem[at..at + |f| + LLC_SNAP_LEN] == Subframe(f)
    ensures var m, next := Rewritten(mem, at), |f| + LLC_SNAP_LEN + Pad(|f| + LLC_SNAP_LEN);
            var r := Deaggregate(m, at + next, left - next);
            SameFrom(mem, m, at + next)
            && Deaggregate(mem, at, left) == Deaggregated(r.mem, [f] + r.frames, r.ok)
  {
    hide Deaggregate, Subframe;
    SubframeReads(mem, at, f);
    DeaggregateStep(mem, at, left);
    assert ETH_HDR_LEN + PktLen(mem, at) == |f| + LLC_SNAP_LEN;
    assert at + LLC_SNAP_LEN + |f| == at + ETH_HDR_LEN + PktLen(mem, at);
  }

  /** Round trip: deaggregating an aggregate of any Ethernet frames, the last pad removed, hands up
      exactly those frames in order, and no length field is found wrong. */
  lemma {:induction false} RoundTrip(mem: Bytes, at: nat, fs: seq<Bytes>)
    requires AllFit(fs) && at + TotalLen(fs) + 14 <= |mem| && Holds(mem, at, fs)
    ensures var r := Deaggregate(mem, at, TotalLen(fs)); r.frames == fs && r.ok
    decreases |fs|, 0
  {
    hide Deaggregate, Subframe, Rewritten, SameFrom;
    if fs == [] {
      DeaggregateEnd(mem, at, 0);
    } else {
      var f, left := fs[0], TotalLen(fs);
      var m, size := Rewritten(mem, at), |f| + LLC_SNAP_LEN;
      FirstReads(mem, at, f, left);
      if |fs| == 1 {
        DeaggregateEnd(m, at + size + Pad(size), left - size - Pad(size));
        assert fs == [f];
      } else {
        assert left - size - Pad(size) == TotalLen(fs[1..]);
        RoundTripRest(mem, m, at + size + Pad(size), fs[1..]);
        assert fs == [f] + fs[1..];
      }
    }
  }

  lemma {:induction false} RoundTripRest(mem: Bytes, m: Bytes, at: nat, fs: seq<Bytes>)
    requires AllFit(fs) && at + TotalLen(fs) + 14 <= |mem| && Holds(mem, at, fs) && SameFrom(mem, m, at)
    ensures var r := Deaggregate(m, at, TotalLen(fs)); r.frames == fs && r.ok
    decreases |fs|, 1
  {
    HoldsSees(mem, m, at, fs);
    RoundTrip(m, at, fs);
  }

  // ---------------------------------------------------------------- rewriting in place

  /** The frame a subframe yields. */
  function Frame(mem: Bytes, at: nat): Bytes
    requires at + 20 <= |mem| && at + ETH_HDR_LEN + PktLen(mem, at) <= |mem|
  {
    Rewritten(mem, at)[FrameStart(mem, at)..at + ETH_HDR_LEN + PktLen(mem, at)]
  }

  predicate Yields(mem: Bytes, at: nat, left: int)
    requires at + left + 14 <= |mem|
  {
    left >= ETH_HDR_LEN && PktLen(mem, at) <= left
  }

  /** The frames of a buffer nobody writes to. */
  function Reading(mem: Bytes, at: nat, left: int): seq<Bytes>
    requires at + left + 14 <= |mem|
    decreases left
  {
    if !Yields(mem, at, left) then [] else
      var stride := Stride(PktLen(mem, at));
      [Frame(mem, at)] + Reading(mem, at + stride, left - stride)
  }

  /** Moving the addresses up writes over the addresses of the next subframe. */
  predicate Overruns(mem: Bytes, at: nat)
    requires at + 20 <= |mem|
  {
    IsSnap(mem, at) && PktLen(mem, at) <= 2
  }

  /** Wherever a subframe of at most two bytes claims an LLC/SNAP header and another frame follows, the
      bytes written over that frame's address are the bytes it has. */
  predicate Harmless(mem: Bytes, at: nat, left: int)
    requires at + left + 14 <= |mem|
    decreases left
  {
    !Yields(mem, at, left) ||
    var stride := Stride(PktLen(mem, at));
    && (Overruns(mem, at) && Yields(mem, at + stride, left - stride) ==> mem[at + 8..at + 12] == mem[at + 16..at + 20])
    && Harmless(mem, at + stride, left - stride)
  }

  lemma RewritingSees(a: Bytes, b: Bytes, at: nat, next: nat)
    requires at + 20 <= |a| && SameFrom(a, b, at) && at <= next
    ensures SameFrom(Rewritten(a, at), Rewritten(b, at), at)
    ensures PktLen(a, at) == PktLen(b, at)
    ensures at + ETH_HDR_LEN + PktLen(a, at) <= |a| ==> Frame(a, at) == Frame(b, at)
  {
    assert a[at + 14..at + 20] == b[at + 14..at + 20];
    var x, y := Rewritten(a, at), Rewritten(b, at);
    assert FrameStart(a, at) == FrameStart(b, at);
    assert forall i :: at <= i < |a| ==> x[i] == y[i];
  }

  lemma {:induction false} DeaggregateSees(a: Bytes, b: Bytes, at: nat, left: int)
    requires at + left + 14 <= |a| && SameFrom(a, b, at)
    ensures Deaggregate(a, at, left).frames == Deaggregate(b, at, left).frames
    decreases left
  {
    hide Deaggregate, Rewritten, PktLen;
    if left < ETH_HDR_LEN {
      DeaggregateEnd(a, at, left);
      DeaggregateEnd(b, at, left);
    } else {
      DeaggregateStep(a, at, left);
      DeaggregateStep(b, at, left);
      RewritingSees(a, b, at, at);
      if PktLen(a, at) <= left {
        var stride := Stride(PktLen(a, at));
        DeaggregateSees(Rewritten(a, at), Rewritten(b, at), at + stride, left - stride);
      }
    }
  }

  /** What rewriting a subframe does to the bytes of the next one. */
  lemma RewriteReach(mem: Bytes, at: nat)
    requires at + 20 <= |mem|
    ensures var m, next := Rewritten(mem, at), at + Stride(PktLen(mem, at));
            && (!Overruns(mem, at) ==> SameFrom(mem, m, next))
            && (Overruns(mem, at) ==>
                  && next == at + 16 && m[next..next + 4] == mem[at + 8..at + 12]
                  && (mem[at + 8..at + 12] == mem[at + 16..at + 20] ==> SameFrom(mem, m, next)))
  {
    if Overruns(mem, at) {
      var m, x, y := Rewritten(mem, at), mem[at + 8..at + 12], mem[at + 16..at + 20];
      assert m[at + 8..at + 20] == mem[at..at + 12];
      assert m[at + 16..at + 20] == m[at + 8..at + 20][8..12] == mem[at..at + 12][8..12] == x;
      if x == y {
        forall i | at + 16 <= i < |mem| ensures m[i] == mem[i] {
          if i < at + 20 {
            assert m[i] == m[at + 16..at + 20][i - at - 16] == y[i - at - 16] == mem[i];
          }
        }
      }
    }
  }

  /** A frame starts with the destination address of its subframe. */
  lemma FrameStartsWithAddress(mem: Bytes, at: nat)
    requires at + 20 <= |mem| && at + ETH_HDR_LEN + PktLen(mem, at) <= |mem|
    ensures |Frame(mem, at)| >= 4 && Frame(mem, at)[..4] == mem[at..at + 4]
  {
    hide Rewritten, FrameStart;
    AddressesFirst(mem, at);
    var m, start := Rewritten(mem, at), FrameStart(mem, at);
    forall i | 0 <= i < 4 ensures Frame(mem, at)[i] == mem[at..at + 4][i] {
      assert Frame(mem, at)[i] == m[start + i];
    }
  }

  /** The frame starts with both addresses, within it. */
  lemma AddressesFirst(mem: Bytes, at: nat)
    requires at + 20 <= |mem|
    ensures var m, start := Rewritten(mem, at), FrameStart(mem, at);
            && at <= start <= at + LLC_SNAP_LEN
            && forall j :: start <= j < start + 12 ==> m[j] == mem[j - start + at]
  {
    var m := Rewritten(mem, at);
    if IsSnap(mem, at) {
      forall j | at + 8 <= j < at + 20 ensures m[j] == mem[j - 8] {
        assert m[j] == mem[at..at + 12][j - at - 8];
      }
    }
  }

  predicate Harms(mem: Bytes, at: nat, left: int)
    requires at + left + 14 <= |mem| && Yields(mem, at, left)
  {
    var stride := Stride(PktLen(mem, at));
    && Overruns(mem, at) && Yields(mem, at + stride, left - stride)
    && mem[at + 8..at + 12] != mem[at + 16..at + 20]
  }

  lemma SamePktLen(a: Bytes, b: Bytes, at: nat)
    requires at + 14 <= |a| && SameFrom(a, b, at + 12)
    ensures PktLen(a, at) == PktLen(b, at)
  {
  }

  lemma FirstFrame(mem: Bytes, at: nat, left: int)
    requires at + left + 14 <= |mem|
    ensures var d := Deaggregate(mem, at, left).frames;
            if Yields(mem, at, left) then |d| > 0 && d[0] == Frame(mem, at) else d == []
  {
    if left < ETH_HDR_LEN {
      DeaggregateEnd(mem, at, left);
    } else {
      DeaggregateStep(mem, at, left);
    }
  }

  lemma FirstRead(mem: Bytes, at: nat, left: int)
    requires at + left + 14 <= |mem|
    ensures var d := Reading(mem, at, left);
            if Yields(mem, at, left) then |d| > 0 && d[0] == Frame(mem, at) else d == []
  {
  }

  /** What the rewriting of one subframe does to the reading of the rest. */
  lemma NextReads(mem: Bytes, at: nat, left: int)
    requires at + left + 14 <= |mem| && Yields(mem, at, left)
    ensures var m, stride := Rewritten(mem, at), Stride(PktLen(mem, at));
            var d := Deaggregate(m, at + stride, left - stride).frames;
            if Harms(mem, at, left) then d != Reading(mem, at + stride, left - stride)
            else d == Deaggregate(mem, at + stride, left - stride).frames
  {
    hide Deaggregate, Rewritten, PktLen, Frame, Overruns, Reading;
    var m, stride := Rewritten(mem, at), Stride(PktLen(mem, at));
    var next, left' := at + stride, left - stride;
    RewriteReach(mem, at);
    YieldsAfter(mem, at, left);
    FirstFrame(m, next, left');
    if Harms(mem, at, left) {
      FirstRead(mem, next, left');
      FrameStartsWithAddress(m, next);
      FrameStartsWithAddress(mem, next);
    } else if Overruns(mem, at) && !Yields(mem, next, left') {
      FirstFrame(mem, next, left');
    } else {
      DeaggregateSees(mem, m, next, left');
    }
  }

  lemma YieldsAfter(mem: Bytes, at: nat, left: int)
    requires at + left + 14 <= |mem| && Yields(mem, at, left)
    ensures var m, stride := Rewritten(mem, at), Stride(PktLen(mem, at));
            Yields(m, at + stride, left - stride) == Yields(mem, at + stride, left - stride)
  {
    hide Rewritten;
    var stride := Stride(PktLen(mem, at));
    RewriteStaysBehind(mem, at, PktLen(mem, at));
    if left - stride >= ETH_HDR_LEN {
      SamePktLen(mem, Rewritten(mem, at), at + stride);
    }
  }

  /** Exactly when reading in place is reading: the frames handed up are those of the buffer as it was
      received if and only if the rewriting is harmless. */
  lemma {:induction false} InPlaceIffHarmless(mem: Bytes, at: nat, left: int)
    requires at + left + 14 <= |mem|
    ensures Deaggregate(mem, at, left).frames == Reading(mem, at, left) <==> Harmless(mem, at, left)
    decreases left
  {
    hide Deaggregate, Rewritten, PktLen, Overruns, Reading, Harmless, Frame, Harms;
    FirstFrame(mem, at, left);
    ReadingStep(mem, at, left);
    if left >= ETH_HDR_LEN {
      DeaggregateFrames(mem, at, left);
      if Yields(mem, at, left) {
        NextReads(mem, at, left);
        var stride := Stride(PktLen(mem, at));
        var d, r := Deaggregate(Rewritten(mem, at), at + stride, left - stride).frames,
            Reading(mem, at + stride, left - stride);
        InPlaceIffHarmless(mem, at + stride, left - stride);
        SameTail(Frame(mem, at), d, r);
      }
    }
  }

  /** Two subframes, the first of two bytes that begin an LLC/SNAP header. */
  function HarmfulByte(i: nat): byte {
    if i < 12 then 1
    else if i == 13 then 2
    else if 14 <= i <= 15 then 0xaa
    else if i == 16 then 3
    else 0
  }

  const HARMFUL: Bytes := seq(44, i requires 0 <= i < 44 => HarmfulByte(i))

  /** A failing input: the second frame goes up with an address it did not have. */
  lemma HarmfulExample()
    ensures Deaggregate(HARMFUL, 0, 30).frames != Reading(HARMFUL, 0, 30)
  {
    hide Deaggregate, Reading;
    InPlaceIffHarmless(HARMFUL, 0, 30);
    assert HARMFUL[14..20] == RFC1042_HDR && PktLen(HARMFUL, 0) == 2 && Stride(2) == 16 && PktLen(HARMFUL, 16) == 0;
    assert HARMFUL[8..12][0] == 1 && HARMFUL[16..20][0] == 3;
  }

  lemma DeaggregateFrames(mem: Bytes, at: nat, left: int)
    requires at + left + 14 <= |mem| && left >= ETH_HDR_LEN
    ensures Yields(mem, at, left) ==>
              var stride := Stride(PktLen(mem, at));
              Deaggregate(mem, at, left).frames
                == [Frame(mem, at)] + Deaggregate(Rewritten(mem, at), at + stride, left - stride).frames
  {
    hide Deaggregate, Rewritten, PktLen;
    DeaggregateStep(mem, at, left);
  }

  lemma ReadingStep(mem: Bytes, at: nat, left: int)
    requires at + left + 14 <= |mem|
    ensures !Yields(mem, at, left) ==> Reading(mem, at, left) == [] && Harmless(mem, at, left)
    ensures Yields(mem, at, left) ==>
              var stride := Stride(PktLen(mem, at));
              && Reading(mem, at, left) == [Frame(mem, at)] + Reading(mem, at + stride, left - stride)
              && (Harmless(mem, at, left) <==> !Harms(mem, at, left) && Harmless(mem, at + stride, left - stride))
  {
    hide Rewritten, PktLen, Frame;
  }

  lemma SameTail(f: Bytes, a: seq<Bytes>, b: seq<Bytes>)
    ensures [f] + a == [f] + b <==> a == b
  {
    if [f] + a == [f] + b {
      assert a == ([f] + a)[1..] == ([f] + b)[1..] == b;
    }
  }
}
