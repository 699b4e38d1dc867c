/** Where the subframes of an A-MSDU lie and what their bytes are, as section 9.3.2.2 of IEEE Std 802.11-2016 has it:
    the writer, both readers and the transmit queue keep to one layout. */
module AmsduLayout {
  import opened AmsduCodec
  import opened AmsduProperties
  import opened AmsduQueue

  // ---------------------------------------------------------------- one subframe

  /** The bytes of a subframe written: the addresses, the length of what follows, most significant byte first, the
      LLC/SNAP header, and the type and payload. */
  lemma SubframeBytes(f: Bytes)
    requires Fits(f)
    ensures var s := Subframe(f);
            && |s| == |f| + 8 && s[..12] == f[..12]
            && 256 * (s[12] as int) + s[13] as int == |s| - 14
            && s[14..20] == [0xaa, 0xaa, 0x03, 0x00, 0x00, 0x00] && s[20..] == f[12..]
  {
    var s, n := Subframe(f), |f| + LLC_SNAP_LEN - ETH_HDR_LEN;
    assert s[..12] == f[..12];
    assert s[12] as int == n / 256 && s[13] as int == n % 256;
    assert s[14..20] == RFC1042_HDR;
    assert s[20..] == f[12..];
  }

  /** The length field of the subframe at `at`. */
  function LengthAt(mem: Bytes, at: nat): nat
    requires at + 14 <= |mem|
  {
    256 * (mem[at + 12] as int) + mem[at + 13] as int
  }

  /** The Ethernet frame that the subframe at `at` carries: without an LLC/SNAP header, or with a type of zero when it
      has none. */
  function Ethernet(mem: Bytes, at: nat): Bytes
    requires at + 20 <= |mem| && at + 14 + LengthAt(mem, at) <= |mem|
  {
    if mem[at + 14..at + 20] == [0xaa, 0xaa, 0x03, 0x00, 0x00, 0x00]
    then (mem[at..at + 12] + mem[at + 20..])[..LengthAt(mem, at) + 6]
    else (mem[at..at + 12] + [0, 0] + mem[at + 14..])[..LengthAt(mem, at) + 14]
  }

  lemma FrameIsEthernet(mem: Bytes, at: nat)
    requires at + 20 <= |mem| && at + 14 + LengthAt(mem, at) <= |mem|
    ensures Frame(mem, at) == Ethernet(mem, at)
  {
    var m, n := Rewritten(mem, at), LengthAt(mem, at);
    if IsSnap(mem, at) {
      assert m[at + 8..] == mem[at..at + 12] + mem[at + 20..];
      assert m[at + 8..at + 14 + n] == m[at + 8..][..n + 6];
    } else {
      assert m[at..] == mem[at..at + 12] + [0, 0] + mem[at + 14..];
      assert m[at..at + 14 + n] == m[at..][..n + 14];
    }
  }

  /** Rewriting a subframe in place: with an LLC/SNAP header both addresses move up by eight bytes, without one the
      length field is cleared, and no other byte changes. */
  lemma RewritesBytes(mem: Bytes, at: nat, i: nat)
    requires at + 20 <= |mem| && i < |mem|
    ensures Rewritten(mem, at)[i]
         == if mem[at + 14..at + 20] == [0xaa, 0xaa, 0x03, 0x00, 0x00, 0x00]
            then (if at + 8 <= i < at + 20 then mem[i - 8] else mem[i])
            else if i == at + 12 || i == at + 13 then 0 else mem[i]
  {
    if IsSnap(mem, at) && at + 8 <= i < at + 20 {
      assert Rewritten(mem, at)[i] == mem[at..at + 12][i - at - 8];
    }
  }

  // ---------------------------------------------------------------- offsets

  /** What a subframe with `len` bytes behind its header takes up: the next multiple of four. */
  function RoundUp(len: nat): nat {
    4 * ((14 + len + 3) / 4)
  }

  /** The least multiple of four at or past the end of the subframe. */
  lemma RoundsUp(len: nat)
    ensures RoundUp(len) % 4 == 0 && 14 + len <= RoundUp(len) < 14 + len + 4
    ensures forall n: nat :: n % 4 == 0 && n >= 14 + len ==> n >= RoundUp(len)
    ensures Stride(len) == RoundUp(len)
  {
  }

  /** Offsets of the headers a reader comes to; only the last one may have a length that makes no sense. */
  function Headers(mem: Bytes, at: nat, left: int): seq<nat>
    requires at + left + 14 <= |mem|
    decreases left
  {
    if left < 14 then [] else
      var len := LengthAt(mem, at);
      [at] + if len > left then [] else Headers(mem, at + RoundUp(len), left - RoundUp(len))
  }

  /** The first subframe lies at the front of the aggregate, and each next one RoundUp of the length further. */
  lemma {:induction false} HeadersSay(mem: Bytes, at: nat, left: int, i: nat)
    requires at + left + 14 <= |mem| && i < |Headers(mem, at, left)|
    ensures var hs := Headers(mem, at, left);
            && hs[0] == at && at <= hs[i] && hs[i] + 14 <= at + left
            && (i + 1 < |hs| ==> hs[i + 1] == hs[i] + RoundUp(LengthAt(mem, hs[i])))
    decreases left
  {
    hide RoundUp, LengthAt;
    var len := LengthAt(mem, at);
    RoundsUp(len);
    if len <= left {
      var hs, rest := Headers(mem, at, left), Headers(mem, at + RoundUp(len), left - RoundUp(len));
      assert hs == [at] + rest;
      if rest != [] {
        HeadersSay(mem, at + RoundUp(len), left - RoundUp(len), if i > 0 then i - 1 else 0);
      }
    }
  }

  /** The length of a header stays within the bytes left, the header included. */
  predicate Sound(mem: Bytes, h: nat, end: int) {
    h + 14 <= |mem| && LengthAt(mem, h) <= end - h
  }

  predicate AllSound(mem: Bytes, hs: seq<nat>, end: int) {
    forall i :: 0 <= i < |hs| ==> Sound(mem, hs[i], end)
  }

  lemma AllSoundCons(mem: Bytes, h: nat, hs: seq<nat>, end: int)
    ensures AllSound(mem, [h] + hs, end) <==> Sound(mem, h, end) && AllSound(mem, hs, end)
  {
    hide Sound;
    var all := [h] + hs;
    assert all[0] == h && forall i :: 0 <= i < |hs| ==> all[i + 1] == hs[i];
  }

  lemma HeadersStep(mem: Bytes, at: nat, left: int)
    requires at + left + 14 <= |mem|
    ensures left < 14 ==> Headers(mem, at, left) == []
    ensures left >= 14 && LengthAt(mem, at) > left ==> Headers(mem, at, left) == [at] && !Sound(mem, at, at + left)
    ensures left >= 14 && LengthAt(mem, at) <= left ==>
              var n := RoundUp(LengthAt(mem, at));
              Sound(mem, at, at + left) && Headers(mem, at, left) == [at] + Headers(mem, at + n, left - n)
  {
    hide RoundUp;
    RoundsUp(if left >= 14 then LengthAt(mem, at) else 0);
  }

  lemma {:induction false} HeadersSee(a: Bytes, b: Bytes, at: nat, left: int)
    requires at + left + 14 <= |a| && SameFrom(a, b, at + 12)
    ensures Headers(a, at, left) == Headers(b, at, left)
    ensures AllSound(a, Headers(a, at, left), at + left) <==> AllSound(b, Headers(b, at, left), at + left)
    decreases left
  {
    hide AllSound, RoundUp, Sound, Headers, LengthAt, SameFrom;
    SameFurther(a, b, at + 12, at + 12);
    NoneSound(a, at + left);
    NoneSound(b, at + left);
    HeadersStep(a, at, left);
    HeadersStep(b, at, left);
    if left >= 14 {
      SameLength(a, b, at);
      var len := LengthAt(a, at);
      RoundsUp(len);
      var n := RoundUp(len);
      if len <= left {
        SameFurther(a, b, at + 12, at + n + 12);
        HeadersSee(a, b, at + n, left - n);
        AllSoundCons(a, at, Headers(a, at + n, left - n), at + left);
        AllSoundCons(b, at, Headers(b, at + n, left - n), at + left);
      } else {
        AllSoundCons(a, at, [], at + left);
        AllSoundCons(b, at, [], at + left);
        assert [at] + [] == [at];
      }
    }
  }

  lemma SameLength(a: Bytes, b: Bytes, at: nat)
    requires at + 14 <= |a| && SameFrom(a, b, at + 12)
    ensures |a| == |b| && LengthAt(a, at) == LengthAt(b, at)
  {
  }

  lemma SameFurther(a: Bytes, b: Bytes, from: nat, further: nat)
    requires SameFrom(a, b, from) && from <= further
    ensures SameFrom(a, b, further) && |a| == |b|
  {
  }

  lemma NoneSound(mem: Bytes, end: int)
    ensures AllSound(mem, [], end)
  {
  }

  /** The counting pass counts the headers whose length makes sense, and the reader yields as many frames; it reports
      an error if and only if there is one whose length does not. */
  lemma {:induction false} CountsHeaders(mem: Bytes, at: nat, left: int)
    requires at + left + 14 <= |mem|
    ensures var hs, r := Headers(mem, at, left), Deaggregate(mem, at, left);
            && (r.ok <==> AllSound(mem, hs, at + left))
            && Count(mem, at, left) == |r.frames| == if r.ok then |hs| else |hs| - 1
    decreases left
  {
    hide AllSound, RoundUp, Deaggregate, Count, Rewritten, Stride, Sound, Headers, SameFrom, FrameStart, LengthAt,
        PktLen;
    CountAgrees(mem, at, left);
    HeadersStep(mem, at, left);
    NoneSound(mem, at + left);
    if left < 14 {
      DeaggregateEnd(mem, at, left);
    } else {
      DeaggregateStep(mem, at, left);
      SameField(mem, at);
      var len := LengthAt(mem, at);
      var n, m := RoundUp(len), Rewritten(mem, at);
      RoundsUp(len);
      AllSoundCons(mem, at, if len <= left then Headers(mem, at + n, left - n) else [], at + left);
      if len <= left {
        RewriteStaysBehind(mem, at, len);
        HeadersSee(mem, m, at + n, left - n);
        CountsHeaders(m, at + n, left - n);
      } else {
        assert [at] + [] == [at];
      }
    }
  }

  lemma SameField(mem: Bytes, at: nat)
    requires at + 14 <= |mem|
    ensures LengthAt(mem, at) == PktLen(mem, at)
  {
  }

  /** The frames of a buffer that nobody writes to are those its headers announce, in order. */
  lemma {:induction false} ReadsHeaders(mem: Bytes, at: nat, left: int, i: nat)
    requires at + left + 14 <= |mem| && i < Count(mem, at, left)
    ensures |Reading(mem, at, left)| == Count(mem, at, left) <= |Headers(mem, at, left)|
    ensures var h := Headers(mem, at, left)[i];
            && h + 20 <= |mem| && h + 14 + LengthAt(mem, h) <= |mem|
            && Reading(mem, at, left)[i] == Ethernet(mem, h)
    decreases left
  {
    hide RoundUp, Ethernet, Frame, Headers, LengthAt, PktLen, Stride, Count, Deaggregate, AllSound, Sound;
    CountsHeaders(mem, at, left);
    CountEnds(mem, at, left);
    CountMore(mem, at, left);
    HeadersStep(mem, at, left);
    SameField(mem, at);
    var len := LengthAt(mem, at);
    RoundsUp(len);
    FrameIsEthernet(mem, at);
    ReadingCount(mem, at, left);
    if i > 0 {
      ReadsHeaders(mem, at + RoundUp(len), left - RoundUp(len), i - 1);
    }
  }

  lemma CountMore(mem: Bytes, at: nat, left: int)
    requires at + left + 14 <= |mem|
    ensures Yields(mem, at, left) ==>
              var n := Stride(PktLen(mem, at)); Count(mem, at, left) == 1 + Count(mem, at + n, left - n)
  {
  }

  lemma {:induction false} ReadingCount(mem: Bytes, at: nat, left: int)
    requires at + left + 14 <= |mem|
    ensures |Reading(mem, at, left)| == Count(mem, at, left)
    decreases left
  {
    hide Frame;
    if Yields(mem, at, left) {
      var n := Stride(PktLen(mem, at));
      ReadingCount(mem, at + n, left - n);
    }
  }

  /** The header names a group or a station of the access point as the destination. */
  predicate ForOthers(mem: Bytes, h: nat, stations: set<Bytes>) {
    h + 6 <= |mem| && (mem[h] % 2 == 1 || mem[h..h + 6] in stations)
  }

  /** An access point has to forward exactly when some header it comes to, sound or not, names a group or one of its
      stations as the destination. */
  lemma {:induction false} ForwardsIff(mem: Bytes, at: nat, left: int, stations: set<Bytes>)
    requires at + left + 14 <= |mem|
    ensures Forwards(mem, at, left, stations) <==>
            exists i :: 0 <= i < |Headers(mem, at, left)| && ForOthers(mem, Headers(mem, at, left)[i], stations)
    decreases left
  {
    hide RoundUp, Headers, LengthAt, PktLen, Stride, ForOthers, Sound, Forwards;
    HeadersStep(mem, at, left);
    ForwardsStep(mem, at, left, stations);
    if left >= 14 {
      SameField(mem, at);
      var len, hs := LengthAt(mem, at), Headers(mem, at, left);
      RoundsUp(len);
      assert hs[0] == at;
      if len <= left {
        var rest := Headers(mem, at + RoundUp(len), left - RoundUp(len));
        assert forall i :: 0 <= i < |rest| ==> hs[i + 1] == rest[i];
        ForwardsIff(mem, at + RoundUp(len), left - RoundUp(len), stations);
      }
    }
  }

  lemma ForwardsStep(mem: Bytes, at: nat, left: int, stations: set<Bytes>)
    requires at + left + 14 <= |mem|
    ensures Forwards(mem, at, left, stations) <==>
            && left >= 14
            && (|| ForOthers(mem, at, stations)
                || var len := PktLen(mem, at);
                   len <= left && Forwards(mem, at + Stride(len), left - Stride(len), stations))
  {
  }

  // ---------------------------------------------------------------- the transmit queue

  /** Bytes of subframes that are all padded. */
  function Rounded(fs: seq<Bytes>): nat {
    if fs == [] then 0 else Rounded(fs[..|fs| - 1]) + 4 * ((|fs[|fs| - 1]| + 8 + 3) / 4)
  }

  lemma {:induction false} PaddedIsRounded(fs: seq<Bytes>)
    ensures PaddedLen(fs) == Rounded(fs)
  {
    if fs != [] {
      hide Pad;
      PaddedIsRounded(fs[..|fs| - 1]);
      PadRounds(|fs[|fs| - 1]| + 8);
    }
  }

  lemma PadRounds(n: nat)
    ensures n + Pad(n) == 4 * ((n + 3) / 4)
  {
  }

  /** Length of an aggregate: every subframe but the last one takes up a multiple of four bytes. */
  lemma TotalIsRounded(fs: seq<Bytes>, f: Bytes)
    ensures TotalLen(fs + [f]) == Rounded(fs) + |f| + 8
  {
    TotalOfMore(fs, f);
    PaddedIsRounded(fs);
  }

  lemma {:induction false} TotalGrows(fs: seq<Bytes>, m: nat, n: nat)
    requires m <= n <= |fs|
    ensures TotalLen(fs[..m]) <= TotalLen(fs[..n])
    decreases n - m
  {
    if m < n {
      TotalGrows(fs, m, n - 1);
      assert fs[..n] == fs[..n - 1] + [fs[n - 1]];
      TotalIsRounded(fs[..n - 1], fs[n - 1]);
      PaddedIsTotal(fs[..n - 1]);
      PaddedIsRounded(fs[..n - 1]);
    }
  }

  /** An aggregate takes the most frames that fit: exactly the numbers of frames up to it make an aggregate, the last
      pad not counted, within the room there is. */
  lemma TakenIsMost(fs: seq<Bytes>, room: nat, m: nat)
    requires m <= |fs|
    ensures m <= Taken(fs, room) <==> TotalLen(fs[..m]) <= room
  {
    hide TotalLen, PaddedLen;
    var n := Taken(fs, room);
    if n > 0 {
      assert FitsNext(fs, n - 1, room);
      TotalAt(fs, n - 1);
    } else {
      NothingTotal(fs);
    }
    if m <= n {
      TotalGrows(fs, m, n);
    } else {
      TotalAt(fs, n);
      TotalGrows(fs, n + 1, m);
    }
  }

  lemma TotalAt(fs: seq<Bytes>, n: nat)
    requires n < |fs|
    ensures TotalLen(fs[..n + 1]) == PaddedLen(fs[..n]) + |fs[n]| + LLC_SNAP_LEN
  {
    assert fs[..n + 1] == fs[..n] + [fs[n]];
    TotalOfMore(fs[..n], fs[n]);
  }
}
