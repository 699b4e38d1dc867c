/** A-MSDU subframes, byte by byte: the writer, the in-place reader, and the pass that only counts.

  Section 9.3.2.2 of IEEE Std 802.11-2016 defines the A-MSDU format. */
module AmsduCodec {

  type byte = b: int | 0 <= b < 256

  type Bytes = seq<byte>

  /** Destination, source and type of an Ethernet frame. */
  const ETH_HDR_LEN := 14
  const LLC_SNAP_LEN := 8

  /** LLC and SNAP header, without the two type bytes that follow it. */
  const RFC1042_HDR: Bytes := [0xaa, 0xaa, 0x03, 0x00, 0x00, 0x00]

  /** `MLAN_RX_DATA_BUF_SIZE` */
  const RX_LIMIT := 4096

  function BigEndian(v: nat): Bytes {
    [v / 256 % 256, v % 256]
  }

  /** Bytes that bring a length to a multiple of four. */
  function Pad(len: nat): nat {
    if len % 4 != 0 then 4 - len % 4 else 0
  }

  // ---------------------------------------------------------------- writing

  /** An Ethernet frame as an A-MSDU subframe: a length field takes the place of the type, and an
      LLC/SNAP header with that type goes before the payload. */
  function Subframe(f: Bytes): Bytes
    requires |f| >= ETH_HDR_LEN
  {
    f[..12] + BigEndian(|f| + LLC_SNAP_LEN - ETH_HDR_LEN) + RFC1042_HDR + f[12..]
  }

  /** Memory with `s` written at `off`. */
  function Put(mem: Bytes, off: nat, s: Bytes): (m: Bytes)
    requires off + |s| <= |mem|
    ensures |m| == |mem|
  {
    mem[..off] + s + mem[off + |s|..]
  }

  lemma PutPut(mem: Bytes, off: nat, s: Bytes, t: Bytes)
    requires off + |s| + |t| <= |mem|
    ensures Put(Put(mem, off, s), off + |s|, t) == Put(mem, off, s + t)
  {
  }

  method CopyIn(buf: array<byte>, off: nat, s: Bytes)
    requires off + |s| <= buf.Length
    modifies buf
    ensures buf[..] == Put(old(buf[..]), off, s)
  {
    forall i | 0 <= i < |s| {
      buf[off + i] := s[i];
    }
  }

  /** Writes one subframe; the padding it counts is left as it is. */
  method FormAmsduPkt(buf: array<byte>, off: nat, data: Bytes) returns (size: nat, pad: nat)
    requires ETH_HDR_LEN <= |data| && off + |data| + LLC_SNAP_LEN <= buf.Length
    modifies buf
    ensures buf[..] == Put(old(buf[..]), off, Subframe(data))
    ensures pad == Pad(|data| + LLC_SNAP_LEN) && size == |data| + LLC_SNAP_LEN + pad
    ensures size % 4 == 0 && pad < 4
  {
    ghost var was := buf[..];
    var len, snap := BigEndian(|data| + LLC_SNAP_LEN - ETH_HDR_LEN), RFC1042_HDR + data[12..14];
    PutPut(was, off, data[..12], len);
    PutPut(was, off, data[..12] + len, snap);
    PutPut(was, off, data[..12] + len + snap, data[14..]);
    SubframeParts(data);
    hide Put, Subframe, BigEndian, Pad;
    CopyIn(buf, off, data[..12]);
    CopyIn(buf, off + 12, len);
    CopyIn(buf, off + 14, snap);
    CopyIn(buf, off + 22, data[14..]);
    pad := if (|data| + LLC_SNAP_LEN) % 4 != 0 then 4 - (|data| + LLC_SNAP_LEN) % 4 else 0;
    size := |data| + LLC_SNAP_LEN + pad;
    PadAligns(|data| + LLC_SNAP_LEN);
  }

  lemma PadAligns(n: nat)
    ensures Pad(n) == (if n % 4 != 0 then 4 - n % 4 else 0) < 4 && (n + Pad(n)) % 4 == 0
  {
  }

  lemma SubframeParts(data: Bytes)
    requires ETH_HDR_LEN <= |data|
    ensures data[..12] + BigEndian(|data| + LLC_SNAP_LEN - ETH_HDR_LEN) + (RFC1042_HDR + data[12..14]) + data[14..]
         == Subframe(data)
  {
    assert data[12..] == data[12..14] + data[14..];
  }

  // ---------------------------------------------------------------- reading

  /** The length field of the subframe at `at`. */
  function PktLen(mem: Bytes, at: nat): nat
    requires at + 14 <= |mem|
  {
    256 * (mem[at + 12] as int) + mem[at + 13] as int
  }

  predicate IsSnap(mem: Bytes, at: nat)
    requires at + 20 <= |mem|
  {
    mem[at + 14..at + 20] == RFC1042_HDR
  }

  /** Bytes of a subframe with its padding. */
  function Stride(len: nat): nat {
    ETH_HDR_LEN + len + Pad(ETH_HDR_LEN + len)
  }

  /** Memory after a subframe was rewritten in place: addresses moved up against the type, or the
      length field cleared. */
  function Rewritten(mem: Bytes, at: nat): (m: Bytes)
    requires at + 20 <= |mem|
    ensures |m| == |mem|
  {
    if IsSnap(mem, at) then mem[..at + 8] + mem[at..at + 12] + mem[at + 20..]
    else mem[at + 12 := 0][at + 13 := 0]
  }

  /** Where the frame handed up starts. */
  function FrameStart(mem: Bytes, at: nat): nat
    requires at + 20 <= |mem|
  {
    if IsSnap(mem, at) then at + LLC_SNAP_LEN else at
  }

  datatype Deaggregated = Deaggregated(mem: Bytes, frames: seq<Bytes>, ok: bool)

  /** The reader: memory, the frames it hands up, and whether every length field made sense. Bytes up to
      14 past the end of the aggregate can be looked at. */
  function Deaggregate(mem: Bytes, at: nat, left: int): (r: Deaggregated)
    requires at + left + 14 <= |mem|
    ensures |r.mem| == |mem|
    decreases left
  {
    if left < ETH_HDR_LEN then Deaggregated(mem, [], true) else
      var len := PktLen(mem, at);
      if len > left then Deaggregated(mem, [], false) else
        var m := Rewritten(mem, at);
        var frame := m[FrameStart(mem, at)..at + ETH_HDR_LEN + len];
        var r := Deaggregate(m, at + Stride(len), left - Stride(len));
        Deaggregated(r.mem, [frame] + r.frames, r.ok)
  }

  lemma DeaggregateStep(mem: Bytes, at: nat, left: int)
    requires at + left + 14 <= |mem| && left >= ETH_HDR_LEN
    ensures var len := PktLen(mem, at);
            if len > left then Deaggregate(mem, at, left) == Deaggregated(mem, [], false) else
              var m := Rewritten(mem, at);
              var r := Deaggregate(m, at + Stride(len), left - Stride(len));
              Deaggregate(mem, at, left)
                == Deaggregated(r.mem, [m[FrameStart(mem, at)..at + ETH_HDR_LEN + len]] + r.frames, r.ok)
  {
  }

  /** The subframes the counting pass counts. */
  function Count(mem: Bytes, at: nat, left: int): nat
    requires at + left + 14 <= |mem|
    decreases left
  {
    if left < ETH_HDR_LEN || PktLen(mem, at) > left then 0
    else 1 + Count(mem, at + Stride(PktLen(mem, at)), left - Stride(PktLen(mem, at)))
  }

  /** A frame to many receivers, or to a station of the access point. */
  predicate GoesOn(mem: Bytes, at: nat, stations: set<Bytes>)
    requires at + 6 <= |mem|
  {
    mem[at] % 2 == 1 || mem[at..at + 6] in stations
  }

  /** Some subframe the counting pass looks at goes on to another receiver; the one whose length makes no
      sense is looked at too. */
  predicate Forwards(mem: Bytes, at: nat, left: int, stations: set<Bytes>)
    requires at + left + 14 <= |mem|
    decreases left
  {
    && left >= ETH_HDR_LEN
    && (|| GoesOn(mem, at, stations)
        || var len := PktLen(mem, at);
           len <= left && Forwards(mem, at + Stride(len), left - Stride(len), stations))
  }

  /** The counting pass: the number of subframes and, for an access point, whether one has to be forwarded. */
  method GetNumAggrPkts(buf: array<byte>, off: nat, total: nat, uap: bool, stations: set<Bytes>)
    returns (count: nat, forwardFlag: bool)
    requires off + total + 14 <= buf.Length
    ensures count == Count(buf[..], off, total)
    ensures forwardFlag <==> uap && Forwards(buf[..], off, total, stations)
  {
    var data, left: int := off, total;
    count, forwardFlag := 0, false;
    while left >= ETH_HDR_LEN
      invariant data + left == off + total && 0 <= data
      invariant count + Count(buf[..], data, left) == Count(buf[..], off, total)
      invariant uap && Forwards(buf[..], off, total, stations)
                <==> forwardFlag || (uap && Forwards(buf[..], data, left, stations))
      decreases left
    {
      if uap && (buf[data] % 2 == 1 || buf[data..data + 6] in stations) {
        forwardFlag := true;
      }
      assert buf[data..data + 6] == buf[..][data..data + 6];
      var len := 256 * (buf[data + 12] as int) + buf[data + 13] as int;
      if len > left {
        break;
      }
      var pad := Pad(len + ETH_HDR_LEN);
      data := data + len + pad + ETH_HDR_LEN;
      left := left - (len + pad + ETH_HDR_LEN);
      count := count + 1;
    }
  }

  /** Turns the subframe header into an Ethernet header; returns where the frame starts and its length. */
  method RewriteHeader(buf: array<byte>, data: nat, len: nat) returns (start: nat, frameLen: nat)
    requires data + 20 <= buf.Length
    modifies buf
    ensures buf[..] == Rewritten(old(buf[..]), data)
    ensures start == FrameStart(old(buf[..]), data) && start + frameLen == data + ETH_HDR_LEN + len
  {
    if buf[data + 14..data + 20] == RFC1042_HDR {
      CopyIn(buf, data + LLC_SNAP_LEN, buf[data..data + 12]);
      start := data + LLC_SNAP_LEN;
      frameLen := len + ETH_HDR_LEN - LLC_SNAP_LEN;
    } else {
      CopyIn(buf, data + 12, [0, 0]);
      start := data;
      frameLen := len + ETH_HDR_LEN;
    }
  }

  lemma DeaggregateEnd(mem: Bytes, at: nat, left: int)
    requires at + left + 14 <= |mem| && left < ETH_HDR_LEN
    ensures Deaggregate(mem, at, left) == Deaggregated(mem, [], true)
  {
  }

  lemma LengthField(mem: Bytes, at: nat)
    requires at + 14 <= |mem|
    ensures PktLen(mem, at) == 256 * (mem[at + 12] as int) + mem[at + 13] as int
  {
  }

  /** `all` is what was read so far followed by what `rest` reads. */
  ghost predicate Continues(all: Deaggregated, done: seq<Bytes>, rest: Deaggregated) {
    all == Deaggregated(rest.mem, done + rest.frames, rest.ok)
  }

  lemma ContinuesStep(all: Deaggregated, done: seq<Bytes>, frame: Bytes, rest: Deaggregated)
    requires Continues(all, done, Deaggregated(rest.mem, [frame] + rest.frames, rest.ok))
    ensures Continues(all, done + [frame], rest)
  {
    assert done + ([frame] + rest.frames) == (done + [frame]) + rest.frames;
  }

  /** Copies one subframe out as an Ethernet frame. */
  method TakeFrame(buf: array<byte>, data: nat, len: nat, ghost left: int) returns (frame: Bytes, next: nat)
    requires data + left + 14 <= buf.Length && ETH_HDR_LEN <= left && len == PktLen(buf[..], data) && len <= left
    modifies buf
    ensures next == data + Stride(len)
    ensures var r := Deaggregate(buf[..], next, left - Stride(len));
            Deaggregate(old(buf[..]), data, left) == Deaggregated(r.mem, [frame] + r.frames, r.ok)
  {
    hide Deaggregate, Rewritten, FrameStart, IsSnap;
    DeaggregateStep(buf[..], data, left);
    var pad := Pad(len + ETH_HDR_LEN);
    var start, frameLen := RewriteHeader(buf, data, len);
    frame := buf[start..start + frameLen];
    next := start + frameLen + pad;
  }

  /** Deaggregates in place; a total over the receive limit is refused untouched. */
  method DeaggregatePkt(buf: array<byte>, off: nat, total: nat) returns (frames: seq<Bytes>, ok: bool)
    requires off + total + 14 <= buf.Length
    modifies buf
    ensures total > RX_LIMIT ==> frames == [] && !ok && buf[..] == old(buf[..])
    ensures total <= RX_LIMIT ==> Deaggregate(old(buf[..]), off, total) == Deaggregated(buf[..], frames, ok)
  {
    hide Deaggregate, PktLen;
    frames, ok := [], true;
    if total > RX_LIMIT {
      return [], false;
    }
    ghost var all := Deaggregate(buf[..], off, total);
    var data, left: int := off, total;
    while left >= ETH_HDR_LEN
      invariant data + left == off + total && 0 <= data
      invariant ok && Continues(all, frames, Deaggregate(buf[..], data, left))
      decreases left
    {
      LengthField(buf[..], data);
      DeaggregateStep(buf[..], data, left);
      var len := 256 * (buf[data + 12] as int) + buf[data + 13] as int;
      if len > left {
        return frames, false;
      }
      var frame;
      frame, data := TakeFrame(buf, data, len, left);
      left := left - (len + Pad(len + ETH_HDR_LEN) + ETH_HDR_LEN);
      ContinuesStep(all, frames, frame, Deaggregate(buf[..], data, left));
      frames := frames + [frame];
    }
    DeaggregateEnd(buf[..], data, left);
  }
}
