/** Twelve-bit sequence numbers, and the tests the receive path makes on them.

  A flow is numbered without bound by the transmitter; on the air only the number modulo 4096 is
  seen. `Dist` is the serial distance between the two views. The functions below it are the tests
  of the receive path on 12-bit numbers, with their branches; the lemmas say what each one decides. */
module SerialNumbers {

  /** How far forward of `base` the next number ending in the twelve bits `s` lies. */
  function Dist(base: int, s: int): nat {
    (s - base) % 4096
  }

  /** Moving from one unbounded number to another passes a multiple of 4096. */
  predicate CrossesWrap(from: int, to: int) {
    from / 4096 < to / 4096
  }

  /** The "ignore and drop" test, one branch when the upper half of the space wraps and one when it does not. */
  predicate TooOld(startWin: int, s: int) {
    if startWin + 2048 > 4095 then
      s >= (startWin + 2048) % 4096 && s < startWin
    else
      s < startWin || s >= startWin + 2048
  }

  function EndWin(startWin: int, winSize: int): int {
    (startWin + winSize - 1) % 4096
  }

  /** The test that makes the window move. */
  predicate OutsideWindow(startWin: int, endWin: int, s: int) {
    || (endWin < startWin && s < startWin && s > endWin)
    || (endWin > startWin && (s > endWin || s < startWin))
  }

  /** Start of the window that ends in `s`. */
  function MovedStart(s: int, winSize: int): int {
    if s - winSize + 1 >= 0 then s - winSize + 1 else 4096 - (winSize - s) + 1
  }

  /** The slot a number is stored in. */
  function SlotIndex(startWin: int, s: int): int {
    if s >= startWin then s - startWin else s + 4096 - startWin
  }

  /** The test that decides, when the start-up phase ends, that the window must follow the last
      number seen in that phase. */
  predicate LastSeenInWindow(startWin: int, endWin: int, lastSeq: int) {
    || (endWin > startWin && lastSeq >= startWin && lastSeq < endWin)
    || (endWin < startWin && (lastSeq >= startWin || lastSeq < endWin))
  }

  /** All the branchy tests at once are arithmetic on the serial distance, for every start of the
      window (4096 included, which stands for 0) and every twelve-bit number. */
  lemma SerialArithmetic(startWin: int, winSize: int, s: int)
    requires 0 <= startWin <= 4096 && 2 <= winSize <= 1023 && 0 <= s < 4096
    ensures TooOld(startWin, s) <==> Dist(startWin, s) >= 2048
    ensures OutsideWindow(startWin, EndWin(startWin, winSize), s) <==> Dist(startWin, s) >= winSize
    ensures SlotIndex(startWin, s) == Dist(startWin, s)
    ensures 0 <= MovedStart(s, winSize) < 4096
    ensures Dist(MovedStart(s, winSize), s) == winSize - 1
    ensures LastSeenInWindow(startWin, EndWin(startWin, winSize), s) <==> Dist(startWin, s) < winSize - 1
  {
    var e := startWin + winSize - 1;
    assert EndWin(startWin, winSize) == if e < 4096 then e else e - 4096;
    assert Dist(startWin, s) == if s >= startWin then s - startWin else s + 4096 - startWin;
  }

  /** A bounded forward move is numerically upward exactly when it does not cross the wrap. */
  lemma UpwardIffNoWrap(from: int, to: int)
    requires from < to < from + 4096
    ensures to % 4096 > from % 4096 <==> !CrossesWrap(from, to)
  {
  }

  lemma DistShift(base: int, start: int, s: int)
    requires base % 4096 == start % 4096
    ensures Dist(base, s) == Dist(start, s)
    ensures (base + Dist(base, s)) % 4096 == s % 4096
  {
    var q := (base - start) / 4096;
    assert base == start + 4096 * q;
    assert (s - start) % 4096 == (s - base) % 4096;
  }

  /** A packet past the end of the window moves its start so that the packet gets the last slot. */
  lemma DataMove(base: int, size: int, s: int)
    requires 2 <= size <= 1023 && 0 <= s < 4096
    ensures var start := MovedStart(s, size);
            0 <= start < 4096 && start == (base + Dist(base, s) - size + 1) % 4096 && SlotIndex(start, s) == size - 1
  {
    var k := (base + Dist(base, s)) / 4096;
    DistShift(base, base, s);
    assert base + Dist(base, s) - size + 1 == 4096 * k + (s - size + 1);
  }

  /** A block ack request is tested as the end of the window it asks for, and moves the start to its own number. */
  lemma BarMove(startWin: int, size: int, s: int)
    requires 2 <= size <= 1023 && 0 <= s < 4096 && 0 <= startWin <= 4096
    ensures var q := (s + size - 1) % 4096;
            0 <= q < 4096 && MovedStart(q, size) == s
            && (Dist(startWin, q) >= size <==> 1 <= Dist(startWin, s) && Dist(startWin, s) + size <= 4096)
  {
    var q := (s + size - 1) % 4096;
    assert q == if s + size - 1 < 4096 then s + size - 1 else s + size - 1 - 4096;
    assert Dist(startWin, s) == if s >= startWin then s - startWin else s + 4096 - startWin;
    assert Dist(startWin, q) == if q >= startWin then q - startWin else q + 4096 - startWin;
  }

  lemma SameLap(from: int, to: int)
    requires from < to < from + 4096 && from % 4096 < to % 4096
    ensures to - from == to % 4096 - from % 4096
  {
  }

  lemma ModAdd(k: int, x: int)
    ensures (4096 * k + x) % 4096 == x % 4096
  {
  }

  lemma SameShift(x: int, y: int, k: nat)
    requires x % 4096 == y % 4096
    ensures 0 <= (x + k) % 4096 < 4096 && (x + k) % 4096 % 4096 == (y + k) % 4096
  {
  }

  /** The number after the nearest one ending in `s`, forward of `base` or in the lap of `base`. */
  lemma NextAfter(base: int, s: int)
    requires 0 <= s < 4096
    ensures (base + Dist(base, s) + 1) % 4096 == (s + 1) % 4096
    ensures (base - base % 4096 + s + 1) % 4096 == (s + 1) % 4096
  {
    DistShift(base, base, s);
    ModAdd((base + Dist(base, s)) / 4096, s + 1);
    ModAdd(base / 4096, s + 1);
  }
}
