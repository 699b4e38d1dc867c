/** What a run of the radar handler does, started for an access point or for a station: its commands are
    exactly a plan, phase by phase, that can be written down from the state at its start. */
module RadarPlan {
  import opened Basics
  import NonOccupancy
  import opened RadarSpec
  import opened RadarRuns

  function All(ph: Phase, privs: seq<Intf>): seq<Cmd> {
    Collect(ph, privs, 0, |privs|)
  }

  /** The commands of a run that moves to channel `chan`; `head` are those that settle that channel. */
  function Plan(cfg: Config, head: seq<Cmd>, chan: nat): seq<Cmd> {
    var privs := cfg.active;
    All(Disable, privs) + head
      + (All(Dtim, privs)
        + (All(Add, privs)
          + ([Delay(DelayMs(MaxOver(privs, 0, |privs|, 0)))] + All(Remove, privs)
            + (All(Stop, privs)
              + ((if cfg.noChannelChange then [] else All(Set(chan), privs))
                + (All(Start(chan in cfg.radarChannels), privs)
                  + All(Enable, privs)))))))
  }

  // ---------------------------------------------------------------- what is left to do

  /** What a phase still has to do behind index `idx`. */
  function Rest(ph: Phase, privs: seq<Intf>, idx: nat): seq<Cmd> {
    Collect(ph, privs, Bump(idx), |privs|)
  }

  function ToRestart(privs: seq<Intf>, idx: nat, chan: nat, cfg: Config): seq<Cmd> {
    Rest(Start(chan in cfg.radarChannels), privs, idx) + All(Enable, privs)
  }

  function ToSet(privs: seq<Intf>, idx: nat, chan: nat, cfg: Config): seq<Cmd> {
    Rest(Set(chan), privs, idx) + ToRestart(privs, FIRST_ENTRY, chan, cfg)
  }

  function ToStop(privs: seq<Intf>, idx: nat, curr: nat, chan: nat, cfg: Config): seq<Cmd> {
    Rest(Stop, privs, idx)
      + if cfg.noChannelChange then ToRestart(privs, FIRST_ENTRY, curr, cfg) else ToSet(privs, FIRST_ENTRY, chan, cfg)
  }

  function ToRemove(privs: seq<Intf>, idx: nat, curr: nat, chan: nat, maxBcn: nat, cfg: Config): seq<Cmd> {
    (if idx == FIRST_ENTRY then [Delay(DelayMs(maxBcn))] + All(Remove, privs) else [])
      + ToStop(privs, FIRST_ENTRY, curr, chan, cfg)
  }

  function ToAdd(privs: seq<Intf>, idx: nat, curr: nat, chan: nat, maxBcn: nat, cfg: Config): seq<Cmd> {
    (if idx == FIRST_ENTRY then All(Add, privs) else []) + ToRemove(privs, FIRST_ENTRY, curr, chan, maxBcn, cfg)
  }

  /** The longest period, once every interface was looked at. */
  function FinalMax(privs: seq<Intf>, idx: nat, maxBcn: nat): nat {
    MaxOver(privs, Bump(idx), |privs|, if idx < |privs| then Max(maxBcn, BcnDtim(privs[idx])) else maxBcn)
  }

  function ToDtim(privs: seq<Intf>, idx: nat, curr: nat, chan: nat, maxBcn: nat, cfg: Config): seq<Cmd> {
    Rest(Dtim, privs, idx) + ToAdd(privs, FIRST_ENTRY, curr, chan, FinalMax(privs, idx, maxBcn), cfg)
  }

  function ToDo(s: Rdh, cfg: Config): seq<Cmd> {
    match s.stage
    case GetInfoBeaconDtim => ToDtim(s.privs, s.idx, s.curr, s.new_, s.maxBcn, cfg)
    case SetCustomIe => ToAdd(s.privs, s.idx, s.curr, s.new_, s.maxBcn, cfg)
    case RemCustomIe => ToRemove(s.privs, s.idx, s.curr, s.new_, s.maxBcn, cfg)
    case StopIntfs => ToStop(s.privs, s.idx, s.curr, s.new_, cfg)
    case SetNewChannel => ToSet(s.privs, s.idx, s.new_, cfg)
    case RestartIntfs => ToRestart(s.privs, s.idx, s.new_, cfg)
    case RestartTraffic => All(Enable, s.privs)
    case _ => []
  }

  /** Commands issued and commands left, in order. */
  function Whole(s: Rdh, cfg: Config): seq<Cmd> {
    s.cmds + ToDo(s, cfg)
  }

  // ---------------------------------------------------------------- one phase

  lemma {:induction false} CollectNext(ph: Phase, privs: seq<Intf>, from: nat)
    ensures var j := Next(ph, privs, from);
            Collect(ph, privs, from, |privs|)
              == if j < |privs| then CmdsOf(ph, privs[j]) + Collect(ph, privs, j + 1, |privs|) else []
    decreases |privs| - from
  {
    hide CmdsOf;
    if from < |privs| && CmdsOf(ph, privs[from]) == [] {
      CollectNext(ph, privs, from + 1);
      assert [] + Collect(ph, privs, from + 1, |privs|) == Collect(ph, privs, from + 1, |privs|);
    }
  }

  lemma {:induction false} MaxOverSplit(privs: seq<Intf>, from: nat, mid: nat, to: nat, m: nat)
    requires from <= mid <= to <= |privs|
    ensures MaxOver(privs, from, to, m) == MaxOver(privs, mid, to, MaxOver(privs, from, mid, m))
    decreases mid - from
  {
    if from < mid {
      MaxOverSplit(privs, from + 1, mid, to, Max(m, BcnDtim(privs[from])));
    }
  }

  /** Issuing the next command of a phase leaves the whole unchanged. */
  lemma RestStep(ph: Phase, privs: seq<Intf>, idx: nat, cmds: seq<Cmd>, tail: seq<Cmd>)
    requires |privs| <= MAX_BSS_NUM && (idx <= |privs| || idx == FIRST_ENTRY)
    ensures var j := Next(ph, privs, Bump(idx));
            if j < |privs|
            then (cmds + CmdsOf(ph, privs[j])) + (Rest(ph, privs, j) + tail) == cmds + (Rest(ph, privs, idx) + tail)
            else Rest(ph, privs, idx) + tail == tail
  {
    hide CmdsOf, Collect, Next;
    CollectNext(ph, privs, Bump(idx));
    var j := Next(ph, privs, Bump(idx));
    if j < |privs| {
      Regroup(cmds, CmdsOf(ph, privs[j]), Collect(ph, privs, j + 1, |privs|), tail);
    } else {
      assert [] + tail == tail;
    }
  }

  lemma Regroup(a: seq<Cmd>, b: seq<Cmd>, c: seq<Cmd>, d: seq<Cmd>)
    ensures (a + b) + (c + d) == a + ((b + c) + d)
  {
  }

  // ---------------------------------------------------------------- stages

  lemma RestartKeeps(s: Rdh, cfg: Config)
    requires IndexValid(s) && s.stage.RestartIntfs?
    ensures Whole(AtRestartIntfs(s, cfg), cfg) == Whole(s, cfg)
  {
    hide CmdsOf, Rest, Collect, Next, Bump;
    RestStep(Start(s.new_ in cfg.radarChannels), s.privs, s.idx, s.cmds, All(Enable, s.privs));
  }

  lemma SetKeeps(s: Rdh, cfg: Config)
    requires IndexValid(s) && s.stage.SetNewChannel?
    ensures Whole(AtSetNewChannel(s, cfg), cfg) == Whole(s, cfg)
  {
    hide CmdsOf, Rest, Collect, Next, Bump, All, AtRestartIntfs, ToRestart;
    RestStep(Set(s.new_), s.privs, s.idx, s.cmds, ToRestart(s.privs, FIRST_ENTRY, s.new_, cfg));
    RestartKeeps(s.(idx := FIRST_ENTRY, stage := RestartIntfs), cfg);
  }

  lemma StopKeeps(s: Rdh, cfg: Config)
    requires IndexValid(s) && s.stage.StopIntfs?
    ensures Whole(AtStopIntfs(s, cfg), cfg) == Whole(s, cfg)
  {
    if cfg.noChannelChange {
      StopKeepsChannel(s, cfg);
    } else {
      StopChangesChannel(s, cfg);
    }
  }

  lemma StopKeepsChannel(s: Rdh, cfg: Config)
    requires IndexValid(s) && s.stage.StopIntfs? && cfg.noChannelChange
    ensures Whole(AtStopIntfs(s, cfg), cfg) == Whole(s, cfg)
  {
    hide CmdsOf, Rest, Collect, Next, Bump, All, AtRestartIntfs, ToRestart, AtSetNewChannel, ToSet;
    RestStep(Stop, s.privs, s.idx, s.cmds, ToRestart(s.privs, FIRST_ENTRY, s.curr, cfg));
    RestartKeeps(s.(idx := FIRST_ENTRY, stage := RestartIntfs, new_ := s.curr), cfg);
  }

  lemma StopChangesChannel(s: Rdh, cfg: Config)
    requires IndexValid(s) && s.stage.StopIntfs? && !cfg.noChannelChange
    ensures Whole(AtStopIntfs(s, cfg), cfg) == Whole(s, cfg)
  {
    hide CmdsOf, Rest, Collect, Next, Bump, All, AtRestartIntfs, ToRestart, AtSetNewChannel, ToSet;
    RestStep(Stop, s.privs, s.idx, s.cmds, ToSet(s.privs, FIRST_ENTRY, s.new_, cfg));
    SetKeeps(s.(idx := FIRST_ENTRY, stage := SetNewChannel), cfg);
  }

  lemma NoFaults(privs: seq<Intf>, from: nat)
    requires from <= |privs|
    ensures UntilFault(privs, from, {}) == |privs|
    decreases |privs| - from
  {
    if from < |privs| { NoFaults(privs, from + 1); }
  }

  lemma RemoveKeeps(s: Rdh, cfg: Config)
    requires IndexValid(s) && s.stage.RemCustomIe?
    ensures Whole(AtRemCustomIe(s, cfg, {}), cfg) == Whole(s, cfg)
  {
    hide CmdsOf, Rest, Collect, AtStopIntfs, ToStop;
    NoFaults(s.privs, 0);
    var d, r, t := [Delay(DelayMs(s.maxBcn))], All(Remove, s.privs), ToStop(s.privs, FIRST_ENTRY, s.curr, s.new_, cfg);
    assert ((s.cmds + d) + r) + ([] + t) == s.cmds + ((d + r) + t);
    assert [] + t == t;
    StopKeeps(s.(idx := FIRST_ENTRY, stage := StopIntfs), cfg);
  }

  lemma AddKeeps(s: Rdh, cfg: Config)
    requires IndexValid(s) && s.stage.SetCustomIe?
    ensures Whole(AtSetCustomIe(s, cfg, {}), cfg) == Whole(s, cfg)
  {
    hide CmdsOf, Rest, Collect, AtRemCustomIe, ToRemove;
    NoFaults(s.privs, 0);
    var r, t := All(Add, s.privs), ToRemove(s.privs, FIRST_ENTRY, s.curr, s.new_, s.maxBcn, cfg);
    assert (s.cmds + r) + ([] + t) == s.cmds + (r + t);
    assert [] + t == t;
    RemoveKeeps(s.(idx := FIRST_ENTRY, stage := RemCustomIe), cfg);
  }

  lemma FinalMaxStep(privs: seq<Intf>, idx: nat, maxBcn: nat)
    requires |privs| <= MAX_BSS_NUM && (idx <= |privs| || idx == FIRST_ENTRY)
    ensures var j := Next(Dtim, privs, Bump(idx));
            var m := if idx < |privs| then Max(maxBcn, BcnDtim(privs[idx])) else maxBcn;
            j < |privs| ==> FinalMax(privs, j, MaxOver(privs, Bump(idx), j, m)) == FinalMax(privs, idx, maxBcn)
  {
    hide BcnDtim, CmdsOf;
    var j := Next(Dtim, privs, Bump(idx));
    if j < |privs| {
      MaxOverSplit(privs, Bump(idx), j, |privs|, if idx < |privs| then Max(maxBcn, BcnDtim(privs[idx])) else maxBcn);
    }
  }

  lemma DtimKeeps(s: Rdh, cfg: Config)
    requires IndexValid(s) && s.stage.GetInfoBeaconDtim?
    ensures Whole(AtGetInfoBeaconDtim(s, cfg, {}), cfg) == Whole(s, cfg)
  {
    hide CmdsOf, Rest, Collect, AtSetCustomIe, ToAdd, MaxOver, BcnDtim;
    FinalMaxStep(s.privs, s.idx, s.maxBcn);
    var m := FinalMax(s.privs, s.idx, s.maxBcn);
    RestStep(Dtim, s.privs, s.idx, s.cmds, ToAdd(s.privs, FIRST_ENTRY, s.curr, s.new_, m, cfg));
    AddKeeps(s.(idx := FIRST_ENTRY, stage := SetCustomIe, maxBcn := m), cfg);
  }

  /** A stage in which the channel to leave and the one to move to are settled. */
  predicate Settled(s: Rdh) {
    Rank(s.stage) <= 7
  }

  /** Every call keeps the whole: what it issues is the front of what was left. */
  lemma HandleKeeps(s: Rdh, cfg: Config, c: Call)
    requires IndexValid(s) && Settled(s) && c.faults == {}
    ensures Whole(Handle(s, cfg, c), cfg) == Whole(s, cfg)
  {
    hide AtGetInfoBeaconDtim, AtSetCustomIe, AtRemCustomIe, AtStopIntfs, AtSetNewChannel, AtRestartIntfs, Collect,
        Whole;
    match s.stage
    case GetInfoBeaconDtim => DtimKeeps(s, cfg);
    case SetCustomIe => AddKeeps(s, cfg);
    case RemCustomIe => RemoveKeeps(s, cfg);
    case StopIntfs => StopKeeps(s, cfg);
    case SetNewChannel => SetKeeps(s, cfg);
    case RestartIntfs => RestartKeeps(s, cfg);
    case RestartTraffic => TrafficKeeps(s, cfg);
    case Off =>
  }

  lemma TrafficKeeps(s: Rdh, cfg: Config)
    requires s.stage.RestartTraffic?
    ensures Whole(AtRestartTraffic(s), cfg) == Whole(s, cfg)
  {
  }

  // ---------------------------------------------------------------- the run

  /** How many calls it takes until the channel is known: a station's is kept in the driver, an access point
      is asked for its own. */
  function AskingCalls(calls: seq<Call>): nat
    requires calls != []
  {
    if calls[0].priv.role.Sta? then 1 else 2
  }

  /** Handling starts with some interface active: nothing was issued yet, the calls reach the point where the
      channel is known, and no IE preparation fails. */
  predicate Starts(s: Rdh, cfg: Config, calls: seq<Call>) {
    && s.stage.ChkIntfs? && s.cmds == [] && |s.privs| <= MAX_BSS_NUM
    && 1 <= |cfg.active| <= MAX_BSS_NUM
    && (forall i :: 0 <= i < |calls| ==> calls[i].faults == {})
    && calls != [] && |calls| >= AskingCalls(calls)
  }

  /** Who settles the channel of a run, which channel it leaves, and what was asked before. */
  datatype Origin = Origin(owner: Intf, curr: nat, asked: seq<Cmd>, env: Surroundings)

  /** A run for a station takes the channel the driver keeps for the first station of the list (for its last
      interface, when there is none); a run for an access point takes the answer of the second call,
      or no channel when the access point is not active. */
  function OriginOf(cfg: Config, calls: seq<Call>): Origin
    requires cfg.active != [] && calls != [] && |calls| >= AskingCalls(calls)
  {
    var first := calls[0];
    if first.priv.role.Sta? then
      var owner := FirstSta(cfg.active, 0);
      Origin(owner, owner.bssChannel, [], first.env)
    else if first.priv in cfg.active then
      Origin(calls[1].priv, calls[1].priv.channel, [GetChannel(first.priv.id)], calls[1].env)
    else
      Origin(calls[1].priv, 0, [], calls[1].env)
  }

  /** What an access point picks; a station picks nothing. */
  function Picked(stamps: NonOccupancy.Stamps, cfg: Config, o: Origin): nat {
    if o.owner.role.Uap? then Search(stamps, o.curr, cfg, o.env).chan else 0
  }

  /** The channel a run moves to. */
  function Target(stamps: NonOccupancy.Stamps, cfg: Config, o: Origin): nat {
    NewChannel(cfg, o.curr, Picked(stamps, cfg, o))
  }

  /** The stamps a run leaves. */
  function StampsAfter(stamps: NonOccupancy.Stamps, cfg: Config, o: Origin): NonOccupancy.Stamps {
    if o.owner.role.Uap? then Search(stamps, o.curr, cfg, o.env).list
    else NonOccupancy.Marked(stamps, o.curr, NonOccupancy.NopStart, o.env.now)
  }

  /** The commands that settle the channel: it is marked before another one is picked. */
  function Head(stamps: NonOccupancy.Stamps, cfg: Config, o: Origin): seq<Cmd> {
    o.asked + [MarkNop(o.curr)] + if o.owner.role.Uap? then [PickChannel(o.owner.id, Picked(stamps, cfg, o))] else []
  }

  function RunPlan(stamps: NonOccupancy.Stamps, cfg: Config, o: Origin): seq<Cmd> {
    Plan(cfg, Head(stamps, cfg, o), Target(stamps, cfg, o))
  }

  lemma IndexFinds(privs: seq<Intf>, p: Intf, from: nat)
    requires from <= |privs|
    ensures p in privs[from..] <==> IndexOf(privs, p, from) < |privs|
    decreases |privs| - from
  {
    if from < |privs| && privs[from] != p {
      assert privs[from..] == [privs[from]] + privs[from + 1..];
      IndexFinds(privs, p, from + 1);
    }
  }

  /** The state in which the channel to leave is known. */
  predicate ChannelIsKnown(t: Rdh, s: Rdh, cfg: Config, o: Origin) {
    && t.privs == cfg.active && t.curr == o.curr && t.new_ == 0 && t.maxBcn == 0 && t.stamps == s.stamps
    && t.cmds == All(Disable, cfg.active) + o.asked && t.stage.GetInfoChannel?
  }

  /** The first call, or the first two, lead there and go on from it. */
  lemma ReachesChannel(s: Rdh, cfg: Config, calls: seq<Call>) returns (t: Rdh)
    requires Starts(s, cfg, calls) && |calls| == AskingCalls(calls)
    ensures var o := OriginOf(cfg, calls);
            && ChannelIsKnown(t, s, cfg, o)
            && Run(s, cfg, calls) == AtGetInfoBeaconDtim(Chosen(t, cfg, o.owner, o.env), cfg, {})
  {
    hide ChannelKnown, Collect, AtGetInfoBeaconDtim, Chosen;
    var o, c := OriginOf(cfg, calls), calls[0];
    assert [] + All(Disable, cfg.active) == All(Disable, cfg.active);
    assert All(Disable, cfg.active) + [] == All(Disable, cfg.active);
    var r := s.(privs := cfg.active, curr := 0, new_ := 0, maxBcn := 0, idx := FIRST_ENTRY, stage := GetInfoChannel,
                cmds := All(Disable, cfg.active));
    assert calls[..0] == [];
    assert Handle(s, cfg, c) == AtGetInfoChannel(r, cfg, c);
    if c.priv.role.Sta? {
      assert calls[..|calls| - 1] == [];
      t := r.(curr := o.curr);
      KnownIsChosen(t, cfg, o.owner, c);
    } else {
      var before := calls[..1];
      assert calls[..|calls| - 1] == before && before[..0] == [];
      assert Run(s, cfg, before) == Handle(s, cfg, c) by { assert Run(s, cfg, []) == s; }
      assert cfg.active[0..] == cfg.active;
      IndexFinds(cfg.active, c.priv, 0);
      var q := Handle(s, cfg, c);
      t := q.(curr := o.curr);
      KnownIsChosen(t, cfg, o.owner, calls[1]);
    }
  }

  lemma KnownIsChosen(t: Rdh, cfg: Config, owner: Intf, c: Call)
    requires c.faults == {}
    ensures ChannelKnown(t, cfg, owner, c) == AtGetInfoBeaconDtim(Chosen(t, cfg, owner, c.env), cfg, {})
  {
    hide AtGetInfoBeaconDtim, Chosen;
  }

  /** From there on the whole is the plan. */
  lemma ChosenIsPlan(t: Rdh, s: Rdh, cfg: Config, o: Origin)
    requires ChannelIsKnown(t, s, cfg, o) && |cfg.active| <= MAX_BSS_NUM
    ensures var u := Chosen(t, cfg, o.owner, o.env);
            && Whole(u, cfg) == RunPlan(s.stamps, cfg, o) && IndexValid(u) && u.stage.GetInfoBeaconDtim?
            && u.stamps == StampsAfter(s.stamps, cfg, o)
  {
    hide Collect, MaxOver, Search, Bump;
    var u, chan := Chosen(t, cfg, o.owner, o.env), Target(s.stamps, cfg, o);
    var x := if o.owner.role.Uap? then [PickChannel(o.owner.id, Picked(s.stamps, cfg, o))] else [];
    assert u.cmds == (All(Disable, cfg.active) + o.asked) + ([MarkNop(o.curr)] + x);
    assert u.cmds == All(Disable, cfg.active) + Head(s.stamps, cfg, o);
    LeftIsPlan(cfg, o.curr, chan);
  }

  lemma LeftIsPlan(cfg: Config, curr: nat, chan: nat)
    requires |cfg.active| <= MAX_BSS_NUM && (cfg.noChannelChange ==> chan == curr)
    ensures forall head: seq<Cmd> ::
              (All(Disable, cfg.active) + head) + ToDtim(cfg.active, FIRST_ENTRY, curr, chan, 0, cfg)
                   == Plan(cfg, head, chan)
  {
    hide Collect, MaxOver;
    assert [] + All(Start(chan in cfg.radarChannels), cfg.active) == All(Start(chan in cfg.radarChannels), cfg.active);
  }

  lemma SettledKeepsStamps(s: Rdh, cfg: Config, c: Call)
    requires Settled(s)
    ensures Handle(s, cfg, c).stamps == s.stamps
  {
    hide AtGetInfoBeaconDtim, AtSetCustomIe, AtRemCustomIe, AtStopIntfs, AtSetNewChannel, AtRestartIntfs,
        AtRestartTraffic;
  }

  lemma {:induction false} WholeIsPlan(s: Rdh, cfg: Config, calls: seq<Call>)
    requires Starts(s, cfg, calls)
    ensures var o, r := OriginOf(cfg, calls), Run(s, cfg, calls);
            && Whole(r, cfg) == RunPlan(s.stamps, cfg, o) && Settled(r) && IndexValid(r)
            && r.stamps == StampsAfter(s.stamps, cfg, o)
  {
    hide Handle, Whole, RunPlan, StampsAfter, AtGetInfoBeaconDtim, Chosen, ChannelIsKnown;
    if |calls| == AskingCalls(calls) {
      var o := OriginOf(cfg, calls);
      var t := ReachesChannel(s, cfg, calls);
      ChosenIsPlan(t, s, cfg, o);
      var u := Chosen(t, cfg, o.owner, o.env);
      DtimKeeps(u, cfg);
      DtimProgress(u, cfg, {});
    } else {
      var before, c := calls[..|calls| - 1], calls[|calls| - 1];
      WholeIsPlan(s, cfg, before);
      var r := Run(s, cfg, before);
      HandleKeeps(r, cfg, c);
      SettledKeepsStamps(r, cfg, c);
      if r.stage.Off? {
        OffStays(r, cfg, c);
      } else {
        HandleProgress(r, cfg, c);
      }
    }
  }

  /** Every completed run, for an access point or a station, issues exactly the plan for the channel it
      settles on: all transmit queues are disabled first, the current channel enters non-occupancy before a
      new one is picked, and each phase is finished for all interfaces before the next one begins. */
  lemma CompletedRunIsPlan(s: Rdh, cfg: Config, calls: seq<Call>)
    requires Starts(s, cfg, calls) && Run(s, cfg, calls).stage.Off?
    ensures var o := OriginOf(cfg, calls);
            && Run(s, cfg, calls).cmds == RunPlan(s.stamps, cfg, o)
            && Run(s, cfg, calls).stamps == StampsAfter(s.stamps, cfg, o)
  {
    hide RunPlan, StampsAfter;
    WholeIsPlan(s, cfg, calls);
    var r := Run(s, cfg, calls);
    assert Whole(r, cfg) == r.cmds + [];
  }

  // ---------------------------------------------------------------- once per interface

  function Occurs(cmds: seq<Cmd>, c: Cmd): nat {
    if cmds == [] then 0 else (if cmds[0] == c then 1 else 0) + Occurs(cmds[1..], c)
  }

  lemma {:induction false} OccursAppend(a: seq<Cmd>, b: seq<Cmd>, c: Cmd)
    ensures Occurs(a + b, c) == Occurs(a, c) + Occurs(b, c)
  {
    if a == [] {
      assert a + b == b;
    } else {
      OccursAppend(a[1..], b, c);
      assert (a + b)[1..] == a[1..] + b;
    }
  }

  predicate DistinctIds(privs: seq<Intf>) {
    forall i, j :: 0 <= i < j < |privs| ==> privs[i].id != privs[j].id
  }

  lemma OneOccurs(d: Cmd, c: Cmd)
    ensures Occurs([d], c) == if d == c then 1 else 0
  {
    assert [d][1..] == [];
  }

  lemma OccursHere(ph: Phase, p: Intf, c: Cmd)
    ensures Occurs(CmdsOf(ph, p), c) == if c in CmdsOf(ph, p) then 1 else 0
  {
    var s := CmdsOf(ph, p);
    if |s| == 2 {
      assert s[1..] == [s[1]];
      OneOccurs(s[1], c);
    } else if |s| == 1 {
      assert s == [s[0]];
      OneOccurs(s[0], c);
    }
  }

  /** A phase has a command for at most one interface. */
  lemma OneOwner(ph: Phase, p: Intf, q: Intf, c: Cmd)
    requires p.id != q.id && c in CmdsOf(ph, p)
    ensures c !in CmdsOf(ph, q)
  {
  }

  /** A phase issues each command of each interface exactly once. */
  lemma {:induction false} PhaseOnce(ph: Phase, privs: seq<Intf>, from: nat, k: nat, c: Cmd)
    requires DistinctIds(privs) && k < |privs| && c in CmdsOf(ph, privs[k])
    ensures Occurs(Collect(ph, privs, from, |privs|), c) == if from <= k then 1 else 0
    decreases |privs| - from
  {
    if from < |privs| {
      hide CmdsOf;
      PhaseOnce(ph, privs, from + 1, k, c);
      OccursAppend(CmdsOf(ph, privs[from]), Collect(ph, privs, from + 1, |privs|), c);
      OccursHere(ph, privs[from], c);
      if from != k {
        OneOwner(ph, privs[k], privs[from], c);
      }
    }
  }

  function In(ph: Phase, privs: seq<Intf>, c: Cmd): nat {
    Occurs(All(ph, privs), c)
  }

  /** Commands the plan issues outside the phases. */
  predicate Single(c: Cmd) {
    c.GetChannel? || c.MarkNop? || c.PickChannel? || c.Delay?
  }

  predicate AllSingle(head: seq<Cmd>) {
    forall i :: 0 <= i < |head| ==> Single(head[i])
  }

  lemma {:induction false} NotAmongSingles(head: seq<Cmd>, c: Cmd)
    requires AllSingle(head) && !Single(c)
    ensures Occurs(head, c) == 0
  {
    if head != [] {
      NotAmongSingles(head[1..], c);
    }
  }

  /** The one delay of a plan. */
  function Wait(cfg: Config): Cmd {
    Delay(DelayMs(MaxOver(cfg.active, 0, |cfg.active|, 0)))
  }

  lemma PlanOccurs(cfg: Config, head: seq<Cmd>, chan: nat, c: Cmd)
    ensures var privs := cfg.active;
            Occurs(Plan(cfg, head, chan), c)
              == Occurs(head, c) + (if c == Wait(cfg) then 1 else 0)
                 + In(Disable, privs, c) + In(Dtim, privs, c) + In(Add, privs, c) + In(Remove, privs, c)
                 + In(Stop, privs, c)
                 + (if cfg.noChannelChange then 0 else In(Set(chan), privs, c))
                 + In(Start(chan in cfg.radarChannels), privs, c) + In(Enable, privs, c)
  {
    hide Collect, All, MaxOver;
    var privs := cfg.active;
    var d := [Delay(DelayMs(MaxOver(privs, 0, |privs|, 0)))];
    var x6 := All(Start(chan in cfg.radarChannels), privs) + All(Enable, privs);
    OccursAppend(All(Start(chan in cfg.radarChannels), privs), All(Enable, privs), c);
    var set_ := if cfg.noChannelChange then [] else All(Set(chan), privs);
    var x5 := set_ + x6;
    OccursAppend(set_, x6, c);
    var x4 := All(Stop, privs) + x5;
    OccursAppend(All(Stop, privs), x5, c);
    var x3 := d + All(Remove, privs) + x4;
    OccursAppend(d + All(Remove, privs), x4, c);
    OccursAppend(d, All(Remove, privs), c);
    var x2 := All(Add, privs) + x3;
    OccursAppend(All(Add, privs), x3, c);
    var x1 := All(Dtim, privs) + x2;
    OccursAppend(All(Dtim, privs), x2, c);
    OccursAppend(All(Disable, privs) + head, x1, c);
    OccursAppend(All(Disable, privs), head, c);
    OneOccurs(d[0], c);
  }

  /** The command is one for interface `id`. */
  predicate OwnedBy(c: Cmd, id: nat) {
    match c
    case MarkNop(_) => false
    case Delay(_) => false
    case PickChannel(i, _) => i == id
    case SetChannel(i, _) => i == id
    case _ => c.id == id
  }

  /** A phase that has the command for no interface does not issue it. */
  lemma {:induction false} PhaseNever(ph: Phase, privs: seq<Intf>, from: nat, c: Cmd)
    requires forall i :: 0 <= i < |privs| ==> c !in CmdsOf(ph, privs[i])
    ensures Occurs(Collect(ph, privs, from, |privs|), c) == 0
    decreases |privs| - from
  {
    if from < |privs| {
      hide CmdsOf;
      PhaseNever(ph, privs, from + 1, c);
      OccursAppend(CmdsOf(ph, privs[from]), Collect(ph, privs, from + 1, |privs|), c);
      OccursHere(ph, privs[from], c);
    }
  }

  lemma NotItsOwn(ph: Phase, p: Intf, c: Cmd, id: nat)
    requires OwnedBy(c, id) && p.id != id
    ensures c !in CmdsOf(ph, p)
  {
  }

  function Has(ph: Phase, p: Intf, c: Cmd): nat {
    if c in CmdsOf(ph, p) then 1 else 0
  }

  lemma InPhase(ph: Phase, privs: seq<Intf>, k: nat, c: Cmd)
    requires DistinctIds(privs) && k < |privs| && OwnedBy(c, privs[k].id)
    ensures In(ph, privs, c) == Has(ph, privs[k], c)
  {
    if c in CmdsOf(ph, privs[k]) {
      PhaseOnce(ph, privs, 0, k, c);
    } else {
      forall i | 0 <= i < |privs| ensures c !in CmdsOf(ph, privs[i]) {
        if i != k {
          assert privs[i].id != privs[k].id;
          NotItsOwn(ph, privs[i], c, privs[k].id);
        }
      }
      PhaseNever(ph, privs, 0, c);
    }
  }

  /** A plan has a command of an interface as often as its phases do. */
  lemma PlanHas(cfg: Config, head: seq<Cmd>, chan: nat, k: nat, c: Cmd)
    requires AllSingle(head) && DistinctIds(cfg.active) && k < |cfg.active|
    requires OwnedBy(c, cfg.active[k].id) && !Single(c)
    ensures var p := cfg.active[k];
            Occurs(Plan(cfg, head, chan), c)
            == Has(Disable, p, c) + Has(Dtim, p, c) + Has(Add, p, c) + Has(Remove, p, c) + Has(Stop, p, c)
               + (if cfg.noChannelChange then 0 else Has(Set(chan), p, c))
               + Has(Start(chan in cfg.radarChannels), p, c) + Has(Enable, p, c)
  {
    hide Plan, In, Has, OwnedBy;
    var privs := cfg.active;
    NotAmongSingles(head, c);
    PlanOccurs(cfg, head, chan, c);
    InPhase(Disable, privs, k, c);
    InPhase(Dtim, privs, k, c);
    InPhase(Add, privs, k, c);
    InPhase(Remove, privs, k, c);
    InPhase(Stop, privs, k, c);
    InPhase(Set(chan), privs, k, c);
    InPhase(Start(chan in cfg.radarChannels), privs, k, c);
    InPhase(Enable, privs, k, c);
  }

  lemma TrafficOnce(cfg: Config, head: seq<Cmd>, chan: nat, k: nat)
    requires AllSingle(head) && DistinctIds(cfg.active) && k < |cfg.active|
    ensures var p, plan := cfg.active[k], Plan(cfg, head, chan);
            Occurs(plan, TxDisable(p.id)) == 1 && Occurs(plan, TxEnable(p.id)) == 1
  {
    hide Plan, Occurs;
    var id := cfg.active[k].id;
    PlanHas(cfg, head, chan, k, TxDisable(id));
    PlanHas(cfg, head, chan, k, TxEnable(id));
  }

  lemma IeOnce(cfg: Config, head: seq<Cmd>, chan: nat, k: nat)
    requires AllSingle(head) && DistinctIds(cfg.active) && k < |cfg.active|
    ensures var p, plan := cfg.active[k], Plan(cfg, head, chan);
            Occurs(plan, AddIe(p.id)) == Occurs(plan, RemoveIe(p.id)) == if p.dfsMaster then 1 else 0
  {
    hide Plan, Occurs;
    var id := cfg.active[k].id;
    PlanHas(cfg, head, chan, k, AddIe(id));
    PlanHas(cfg, head, chan, k, RemoveIe(id));
  }

  lemma BssOnce(cfg: Config, head: seq<Cmd>, chan: nat, k: nat)
    requires AllSingle(head) && DistinctIds(cfg.active) && k < |cfg.active|
    ensures var p, plan := cfg.active[k], Plan(cfg, head, chan);
            && Occurs(plan, GetBeaconDtim(p.id)) == Occurs(plan, BssStop(p.id)) == (if p.role.Uap? then 1 else 0)
            && Occurs(plan, Disconnect(p.id)) == if p.role.Sta? && p.connected then 1 else 0
  {
    hide Plan, Occurs;
    var id := cfg.active[k].id;
    PlanHas(cfg, head, chan, k, GetBeaconDtim(id));
    PlanHas(cfg, head, chan, k, BssStop(id));
    PlanHas(cfg, head, chan, k, Disconnect(id));
  }

  lemma StartOnce(cfg: Config, head: seq<Cmd>, chan: nat, k: nat)
    requires AllSingle(head) && DistinctIds(cfg.active) && k < |cfg.active|
    ensures var p, plan := cfg.active[k], Plan(cfg, head, chan);
            && Occurs(plan, BssStart(p.id)) == (if p.role.Uap? then 1 else 0)
            && Occurs(plan, ActivateRadarDetection(p.id)) == if p.role.Uap? && chan in cfg.radarChannels then 1 else 0
  {
    hide Plan, Occurs;
    var id := cfg.active[k].id;
    PlanHas(cfg, head, chan, k, BssStart(id));
    PlanHas(cfg, head, chan, k, ActivateRadarDetection(id));
  }

  lemma SetOnce(cfg: Config, head: seq<Cmd>, chan: nat, k: nat, c: nat)
    requires AllSingle(head) && DistinctIds(cfg.active) && k < |cfg.active|
    ensures var p, plan := cfg.active[k], Plan(cfg, head, chan);
            Occurs(plan, SetChannel(p.id, c)) == if p.role.Uap? && c == chan && !cfg.noChannelChange then 1 else 0
  {
    hide Plan, Occurs;
    var id := cfg.active[k].id;
    PlanHas(cfg, head, chan, k, SetChannel(id, c));
  }

  /** In a run every interface has its traffic stopped and started exactly once. Every access point is asked for its
      periods, stopped and started exactly once, is told to look for radar exactly when the new channel needs
      that, and, unless the channel stays, is moved exactly once, to the new channel; a station is
      disconnected exactly when it is connected and gets none of these. The channel-switch IE goes to the
      DFS masters, and is taken back, exactly once. */
  lemma EachIntfOnce(cfg: Config, head: seq<Cmd>, chan: nat, k: nat, c: nat)
    requires AllSingle(head) && DistinctIds(cfg.active) && k < |cfg.active|
    ensures var p, plan := cfg.active[k], Plan(cfg, head, chan);
            var uap, master := if p.role.Uap? then 1 else 0, if p.dfsMaster then 1 else 0;
            && Occurs(plan, TxDisable(p.id)) == 1 && Occurs(plan, TxEnable(p.id)) == 1
            && Occurs(plan, GetBeaconDtim(p.id)) == uap
            && Occurs(plan, AddIe(p.id)) == master && Occurs(plan, RemoveIe(p.id)) == master
            && Occurs(plan, BssStop(p.id)) == uap && Occurs(plan, BssStart(p.id)) == uap
            && Occurs(plan, Disconnect(p.id)) == (if p.role.Sta? && p.connected then 1 else 0)
            && Occurs(plan, SetChannel(p.id, c)) == (if c == chan && !cfg.noChannelChange then uap else 0)
            && Occurs(plan, ActivateRadarDetection(p.id)) == if chan in cfg.radarChannels then uap else 0
  {
    hide Plan, Occurs;
    TrafficOnce(cfg, head, chan, k);
    IeOnce(cfg, head, chan, k);
    BssOnce(cfg, head, chan, k);
    StartOnce(cfg, head, chan, k);
    SetOnce(cfg, head, chan, k, c);
  }
}
