/** How long the start-up phase of a flow lasts. */
module ReorderStartUp {
  import opened ReorderSpec
  import opened ReorderConservation

  /** A packet the start-up phase looks at; an A-MSDU on a flow that did not negotiate them is not. */
  predicate Counts(f: Flow, input: Input) {
    input.Packet? && !(input.t.Amsdu? && !f.amsdu)
  }

  /** How many such packets a run has. */
  function Counted(f: Flow, inputs: seq<Input>): nat {
    if inputs == [] then 0 else
      var before, last := inputs[..|inputs| - 1], inputs[|inputs| - 1];
      Counted(f, before) + if Counts(Run(f, before).flow, last) then 1 else 0
  }

  /** One of them carries the number `start`. */
  predicate SawStart(f: Flow, inputs: seq<Input>, start: nat) {
    inputs != []
    && (|| SawStart(f, inputs[..|inputs| - 1], start)
        || (&& Counts(Run(f, inputs[..|inputs| - 1]).flow, inputs[|inputs| - 1])
            && inputs[|inputs| - 1].s == start))
  }

  /** One step of the phase: a packet with the number of the start ends it, any other one ends it exactly when
      the counter, a byte, has reached half the window; nothing else touches it. */
  lemma StartUpStep(f: Flow, input: Input)
    requires WellFormed(f) && f.checkStart && Proper(input)
    ensures var r := Step(f, input).flow;
            && r.size == f.size
            && (r.checkStart <==>
                 (Counts(f, input) ==> input.s != f.base % 4096 && (f.pktCount + 1) % 256 < f.size / 2))
            && (r.checkStart ==>
                 r.base == f.base && r.pktCount == if Counts(f, input) then (f.pktCount + 1) % 256 else f.pktCount)
  {
    hide Settle, Resync;
    NothingFlushed(f);
    if input.Packet? {
      var f0 := Flushed(f).flow;
      if !Bypassed(f0, input.s, input.t) {
        PrepareFacts(f0, input.s, input.t);
        PrepareSize(f0, input.s);
        SettleWellFormed(Prepare(f0, input.s), input.s, input.t, input.p);
      }
    }
  }

  lemma NothingFlushed(f: Flow)
    requires WellFormed(f) && f.checkStart
    ensures Flushed(f).flow == f.(flushPending := false)
  {
    assert PastLast(f.buf, f.base, f.base + f.size) == f.base;
  }

  lemma PrepareSize(f: Flow, s: nat)
    ensures Prepare(f, s).size == f.size
  {
  }

  /** The phase never comes back. */
  lemma StartUpOver(f: Flow, input: Input)
    requires WellFormed(f) && !f.checkStart && Proper(input)
    ensures !Step(f, input).flow.checkStart
  {
    hide Settle, Resync;
    FlushedFacts(f);
    if input.Packet? {
      var f0 := Flushed(f).flow;
      if !Bypassed(f0, input.s, input.t) {
        PrepareFacts(f0, input.s, input.t);
        SettleWellFormed(Prepare(f0, input.s), input.s, input.t, input.p);
      }
    }
  }

  /** The phase of flow `r` after n packets it looked at; `saw`: one of them carried the start. */
  predicate InPhase(r: Flow, size: nat, ssn: nat, n: nat, saw: bool) {
    && (r.checkStart <==> !saw && (size >= 512 || n < size / 2))
    && (r.checkStart ==> r.size == size && r.base == ssn && r.pktCount == n % 256)
  }

  lemma LastInput(f: Flow, inputs: seq<Input>, start: nat)
    requires inputs != []
    ensures var before, last := inputs[..|inputs| - 1], inputs[|inputs| - 1];
            var counts := Counts(Run(f, before).flow, last);
            && Counted(f, inputs) == Counted(f, before) + (if counts then 1 else 0)
            && (SawStart(f, inputs, start) <==> SawStart(f, before, start) || (counts && last.s == start))
  {
    hide Run;
  }

  /** The byte counter against half the window, when that was not reached before. */
  lemma CounterStep(size: nat, n: nat)
    requires size <= 1023 && (size >= 512 || n < size / 2)
    ensures (n % 256 + 1) % 256 == (n + 1) % 256
    ensures (n + 1) % 256 < size / 2 <==> size >= 512 || n + 1 < size / 2
  {
    if size < 512 {
      assert size / 2 <= 255;
    } else {
      assert size / 2 >= 256;
    }
  }

  lemma PhaseStep(r: Flow, size: nat, ssn: nat, n: nat, saw: bool, input: Input)
    requires WellFormed(r) && Proper(input) && size <= 1023 && ssn < 4096 && InPhase(r, size, ssn, n, saw)
    ensures var counts := Counts(r, input);
            InPhase(Step(r, input).flow, size, ssn, n + (if counts then 1 else 0), saw || (counts && input.s == ssn))
  {
    hide Step, WellFormed, Counts;
    if r.checkStart {
      CounterStep(size, n);
      StartUpStep(r, input);
    } else {
      StartUpOver(r, input);
    }
  }

  /** Exactly how long the phase lasts, over every run of a new flow: until a packet carries the number the
      window starts at, or half a window of packets was seen, but never the latter for a window of 512
      or more, whose half the counter cannot reach. */
  lemma {:induction false} StartUpLasts(size: nat, ssn: nat, last: nat, inputs: seq<Input>)
    requires 2 <= size <= 1023 && ssn < 4096 && (last < 4096 || last == NO_SEQ)
    requires forall input :: input in inputs ==> Proper(input)
    ensures var f := NewFlow(size, ssn, last);
            InPhase(Run(f, inputs).flow, size, ssn, Counted(f, inputs), SawStart(f, inputs, ssn))
  {
    var f := NewFlow(size, ssn, last);
    if inputs != [] {
      hide Step, Counted, SawStart, WellFormed, Counts, InPhase;
      var before, input := inputs[..|inputs| - 1], inputs[|inputs| - 1];
      StartUpLasts(size, ssn, last, before);
      NewIsWellFormed(size, ssn, last);
      RunWellFormed(f, before);
      LastInput(f, inputs, ssn);
      PhaseStep(Run(f, before).flow, size, ssn, Counted(f, before), SawStart(f, before, ssn), input);
    }
  }

  lemma NewIsWellFormed(size: nat, ssn: nat, last: nat)
    requires 2 <= size <= 1023 && (last < 4096 || last == NO_SEQ)
    ensures WellFormed(NewFlow(size, ssn, last))
  {
  }
}
