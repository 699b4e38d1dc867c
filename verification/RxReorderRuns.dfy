/** Whole runs of a reorder entry: the array code, input after input, computes the run of the map machine. */
module RxReorderRuns {
  import opened ReorderSpec
  import opened ReorderConservation
  import opened RxReorder

  /** The inputs without the expiries of a timer that does not run: nothing is held, or it expired already. */
  function Real(f: Flow, inputs: seq<Input>): seq<Input> {
    if inputs == [] then [] else
      var before, last := Real(f, inputs[..|inputs| - 1]), inputs[|inputs| - 1];
      var g := Run(f, before).flow;
      if last.TimerExpires? && (g.buf == map[] || g.flushPending) then before else before + [last]
  }

  /** All inputs but expiries. */
  function Others(inputs: seq<Input>): seq<Input> {
    if inputs == [] then [] else
      var before, last := Others(inputs[..|inputs| - 1]), inputs[|inputs| - 1];
      if last.TimerExpires? then before else before + [last]
  }

  lemma OthersSnoc(inputs: seq<Input>, input: Input)
    ensures Others(inputs + [input]) == if input.TimerExpires? then Others(inputs) else Others(inputs) + [input]
  {
    assert (inputs + [input])[..|inputs|] == inputs;
  }

  lemma RealSnoc(f: Flow, inputs: seq<Input>, input: Input)
    ensures var before := Real(f, inputs);
            var g := Run(f, before).flow;
            Real(f, inputs + [input])
              == if input.TimerExpires? && (g.buf == map[] || g.flushPending) then before else before + [input]
  {
    hide Run;
    assert (inputs + [input])[..|inputs|] == inputs;
  }

  lemma RunNext(f: Flow, inputs: seq<Input>, input: Input)
    ensures var r := Run(f, inputs);
            var q := Step(r.flow, input);
            Run(f, inputs + [input]) == Outcome(q.flow, r.out + q.out, q.ok)
  {
    hide Step;
    assert (inputs + [input])[..|inputs|] == inputs;
  }

  /** One input; an expiry is taken only while the timer runs. */
  method TakeInput(t: RxReorderTbl, input: Input) returns (taken: bool, sent: seq<nat>)
    requires t.Valid() && t.winSize >= 2 && Proper(input)
    modifies t, t.slots
    ensures t.Valid()
    ensures !taken ==> input.TimerExpires? && t.Abs() == old(t.Abs()) && sent == []
    ensures taken ==> var q := Step(old(t.Abs()), input); t.Abs() == q.flow && sent == Ids(q.out)
    ensures t.winSize <= 64 && input.TimerExpires? ==>
        (taken <==> old(t.Abs()).buf != map[] && !old(t.Abs()).flushPending)
  {
    hide Receive, Flushed, FitFlow, Held, Vacant;
    VacantHoldsNothing(t.slots[..], t.base);
    taken, sent := true, [];
    match input {
      case Packet(s, typ, p) =>
        var ok;
        ok, sent := t.Receive(s, typ, p);
      case TimerExpires =>
        taken := t.timerIsSet;
        if taken {
          t.FlushTimerExpires();
        }
      case FlushWork => sent := t.FlushWork();
      case SetNoDrop(flag) => t.SetNoDrop(flag);
      case SetAmsdu(supported) => t.SetUp(supported);
    }
  }

  /** Refinement over every run: after any inputs the slot array holds, and the calls handed up, what the map
      machine does after those inputs (an expiry counts when the timer runs, which for windows of at
      most 64 is exactly when something is held and no flush is pending). */
  method RunInputs(t: RxReorderTbl, inputs: seq<Input>) returns (sent: seq<nat>, ghost taken: seq<Input>)
    requires t.Valid() && t.winSize >= 2 && forall input :: input in inputs ==> Proper(input)
    modifies t, t.slots
    ensures t.Valid()
    ensures var r := Run(old(t.Abs()), taken); t.Abs() == r.flow && sent == Ids(r.out)
    ensures Others(taken) == Others(inputs) && (t.winSize <= 64 ==> taken == Real(old(t.Abs()), inputs))
  {
    hide Step, RxReorderTbl.Valid, RxReorderTbl.Abs, Ids;
    ghost var f := t.Abs();
    sent, taken := [], [];
    assert inputs[..0] == [];
    NothingRuns(f);
    for i := 0 to |inputs|
      invariant t.Valid()
      invariant var r := Run(f, taken); t.Abs() == r.flow && sent == Ids(r.out)
      invariant Others(taken) == Others(inputs[..i]) && (t.winSize <= 64 ==> taken == Real(f, inputs[..i]))
    {
      var input := inputs[i];
      assert inputs[..i + 1] == inputs[..i] + [input];
      OthersSnoc(inputs[..i], input);
      OthersSnoc(taken, input);
      RealSnoc(f, inputs[..i], input);
      RunNext(f, taken, input);
      IdsAppend(Run(f, taken).out, Step(Run(f, taken).flow, input).out);
      var counts, more := TakeInput(t, input);
      sent := sent + more;
      if counts {
        taken := taken + [input];
      }
    }
    assert inputs[..|inputs|] == inputs;
  }

  lemma NothingRuns(f: Flow)
    ensures Run(f, []) == Outcome(f, [], true) && Ids([]) == []
  {
  }
}
