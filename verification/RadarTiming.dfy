/** How long the channel-switch IE is broadcast in a completed run, and what else the order of commands says. */
module RadarTiming {
  import opened Basics
  import opened RadarSpec
  import opened RadarRuns
  import opened RadarPlan

  lemma {:induction false} MaxIsMost(privs: seq<Intf>, from: nat, m: nat)
    requires from <= |privs|
    ensures var r := MaxOver(privs, from, |privs|, m);
            && m <= r && (forall i :: from <= i < |privs| ==> BcnDtim(privs[i]) <= r)
            && (r == m || exists i :: from <= i < |privs| && r == BcnDtim(privs[i]))
    decreases |privs| - from
  {
    hide BcnDtim;
    if from < |privs| {
      MaxIsMost(privs, from + 1, Max(m, BcnDtim(privs[from])));
    }
  }

  /** The delay is issued once and no other one is. */
  lemma OneWait(cfg: Config, head: seq<Cmd>, chan: nat, d: Cmd)
    requires d.Delay? && Occurs(head, d) == 0
    ensures Occurs(Plan(cfg, head, chan), d) == if d == Wait(cfg) then 1 else 0
  {
    hide Plan, Occurs, Wait;
    PlanOccurs(cfg, head, chan, d);
    NoDelayIn(Disable, cfg.active, d);
    NoDelayIn(Dtim, cfg.active, d);
    NoDelayIn(Add, cfg.active, d);
    NoDelayIn(Remove, cfg.active, d);
    NoDelayIn(Stop, cfg.active, d);
    NoDelayIn(Set(chan), cfg.active, d);
    NoDelayIn(Start(chan in cfg.radarChannels), cfg.active, d);
    NoDelayIn(Enable, cfg.active, d);
  }

  lemma NoDelayIn(ph: Phase, privs: seq<Intf>, d: Cmd)
    requires d.Delay?
    ensures In(ph, privs, d) == 0
  {
    PhaseNever(ph, privs, 0, d);
  }

  lemma {:induction false} NoDelayAmong(head: seq<Cmd>, d: Cmd)
    requires d.Delay? && forall i :: 0 <= i < |head| ==> !head[i].Delay?
    ensures Occurs(head, d) == 0
  {
    if head != [] {
      NoDelayAmong(head[1..], d);
    }
  }

  /** A completed run broadcasts the channel-switch IE once, for the longest of 400 ms and four DTIM periods of any
      interface, up to 3000 ms. A DTIM period is the beacon period times the DTIM count, which is one for a
      station, in 16 bits. */
  lemma IeLasts(s: Rdh, cfg: Config, calls: seq<Call>) returns (ms: nat)
    requires Starts(s, cfg, calls) && Run(s, cfg, calls).stage.Off?
    ensures var cmds := Run(s, cfg, calls).cmds;
            forall other :: Occurs(cmds, Delay(other)) == if other == ms then 1 else 0
    ensures 400 <= ms <= 3000
    ensures forall i :: 0 <= i < |cfg.active| ==>
              var p := cfg.active[i];
              var period := p.beaconPeriod * (if p.role.Uap? then p.dtimPeriod else 1) % 0x1_0000;
              ms >= 4 * period || ms == 3000
    ensures ms == 400 || ms == 3000 || exists p ::
              p in cfg.active && ms == 4 * (p.beaconPeriod * (if p.role.Uap? then p.dtimPeriod else 1) % 0x1_0000)
  {
    hide Run, Plan, Occurs, MaxOver;
    var o := OriginOf(cfg, calls);
    var head, chan := Head(s.stamps, cfg, o), Target(s.stamps, cfg, o);
    CompletedRunIsPlan(s, cfg, calls);
    ms := DelayMs(MaxOver(cfg.active, 0, |cfg.active|, 0));
    MaxIsMost(cfg.active, 0, 0);
    forall other
      ensures Occurs(RunPlan(s.stamps, cfg, o), Delay(other)) == if other == ms then 1 else 0
    {
      NoDelayAmong(head, Delay(other));
      OneWait(cfg, head, chan, Delay(other));
    }
  }

  // ---------------------------------------------------------------- radar detection comes first

  lemma {:induction false} CollectAround(ph: Phase, privs: seq<Intf>, from: nat, k: nat)
    returns (a: seq<Cmd>, b: seq<Cmd>)
    requires from <= k < |privs|
    ensures Collect(ph, privs, from, |privs|) == a + CmdsOf(ph, privs[k]) + b
    decreases k - from
  {
    hide CmdsOf;
    if from == k {
      a, b := [], Collect(ph, privs, k + 1, |privs|);
      assert [] + CmdsOf(ph, privs[k]) == CmdsOf(ph, privs[k]);
    } else {
      a, b := CollectAround(ph, privs, from + 1, k);
      assert CmdsOf(ph, privs[from]) + (a + CmdsOf(ph, privs[k]) + b)
          == (CmdsOf(ph, privs[from]) + a) + CmdsOf(ph, privs[k]) + b;
      a := CmdsOf(ph, privs[from]) + a;
    }
  }

  /** An access point that moves to a channel in need of radar detection is told to look for radar just before it is
      started. */
  lemma DetectsBeforeStart(s: Rdh, cfg: Config, calls: seq<Call>, k: nat) returns (a: seq<Cmd>, b: seq<Cmd>)
    requires Starts(s, cfg, calls) && Run(s, cfg, calls).stage.Off?
    requires k < |cfg.active| && cfg.active[k].role.Uap?
    requires Target(s.stamps, cfg, OriginOf(cfg, calls)) in cfg.radarChannels
    ensures var id := cfg.active[k].id;
            Run(s, cfg, calls).cmds == a + [ActivateRadarDetection(id), BssStart(id)] + b
  {
    hide Run, Collect, MaxOver, Target, Head;
    var o, id, privs := OriginOf(cfg, calls), cfg.active[k].id, cfg.active;
    var chan := Target(s.stamps, cfg, o);
    CompletedRunIsPlan(s, cfg, calls);
    var x, y := CollectAround(Start(true), privs, 0, k);
    var front := All(Disable, privs) + Head(s.stamps, cfg, o) + (All(Dtim, privs) + (All(Add, privs)
                 + ([Delay(DelayMs(MaxOver(privs, 0, |privs|, 0)))] + All(Remove, privs) + (All(Stop, privs)
                 + (if cfg.noChannelChange then [] else All(Set(chan), privs))))));
    a, b := front + x, y + All(Enable, privs);
    assert Plan(cfg, Head(s.stamps, cfg, o), chan) == front + (All(Start(true), privs) + All(Enable, privs));
    assert All(Start(true), privs) == x + [ActivateRadarDetection(id), BssStart(id)] + y;
  }

  // ---------------------------------------------------------------- faults

  lemma {:induction false} CollectTo(ph: Phase, privs: seq<Intf>, from: nat, to: nat)
    requires to <= |privs|
    ensures Collect(ph, privs, from, to) == Collect(ph, privs[..to], from, to)
    decreases if from < to then to - from else 0
  {
    hide CmdsOf;
    if from < to {
      CollectTo(ph, privs, from + 1, to);
    }
  }

  /** The IE of interface i cannot be prepared. */
  predicate Fails(p: Intf, faults: set<nat>) {
    p.dfsMaster && p.id in faults
  }

  /** A DFS master gets the IE, or loses it, exactly when neither it nor an interface before it fails. */
  lemma UpToFault(ph: Phase, privs: seq<Intf>, faults: set<nat>, k: nat, c: Cmd)
    requires DistinctIds(privs) && k < |privs| && (ph.Add? || ph.Remove?)
    requires c == if ph.Add? then AddIe(privs[k].id) else RemoveIe(privs[k].id)
    ensures Occurs(Collect(ph, privs, 0, UntilFault(privs, 0, faults)), c)
         == if privs[k].dfsMaster && forall i :: 0 <= i <= k ==> !Fails(privs[i], faults) then 1 else 0
  {
    var j := UntilFault(privs, 0, faults);
    CollectTo(ph, privs, 0, j);
    assert j < |privs| ==> Fails(privs[j], faults);
    if k < j && privs[k].dfsMaster {
      PhaseOnce(ph, privs[..j], 0, k, c);
    } else {
      PhaseNever(ph, privs[..j], 0, c);
    }
  }

  /** The call that adds the channel-switch IE, and the one that takes it back after the delay, reach every DFS master
      up to the first one whose IE cannot be prepared; the handler stays there until it is called again. */
  lemma IesUpToFault(s: Rdh, cfg: Config, c: Call, k: nat) returns (x: seq<Cmd>)
    requires s.idx == FIRST_ENTRY && (s.stage.SetCustomIe? || s.stage.RemCustomIe?)
    requires DistinctIds(s.privs) && k < |s.privs|
    ensures var r, id := Handle(s, cfg, c), s.privs[k].id;
            && r.stage == s.stage && r.cmds == s.cmds + x
            && Occurs(x, if s.stage.SetCustomIe? then AddIe(id) else RemoveIe(id))
               == if s.privs[k].dfsMaster && forall i :: 0 <= i <= k ==> !Fails(s.privs[i], c.faults) then 1 else 0
  {
    hide Collect, Occurs;
    var ph, id := if s.stage.SetCustomIe? then Add else Remove, s.privs[k].id;
    x := Collect(ph, s.privs, 0, UntilFault(s.privs, 0, c.faults));
    UpToFault(ph, s.privs, c.faults, k, if ph.Add? then AddIe(id) else RemoveIe(id));
    if s.stage.RemCustomIe? {
      var d := [Delay(DelayMs(s.maxBcn))];
      OccursAppend(d, x, RemoveIe(id));
      OneOccurs(d[0], RemoveIe(id));
      assert (s.cmds + d) + x == s.cmds + (d + x);
      x := d + x;
    }
  }

  /** The interface whose BSS gives the channel of a run started for a station. */
  lemma {:induction false} FirstStaFinds(privs: seq<Intf>, from: nat) returns (j: nat)
    requires from < |privs|
    ensures from <= j < |privs| && FirstSta(privs, from) == privs[j]
    ensures forall i :: from <= i < j ==> privs[i].role.Uap?
    ensures privs[j].role.Sta? || j == |privs| - 1
    decreases |privs| - from
  {
    if privs[from].role.Sta? || from + 1 == |privs| {
      j := from;
    } else {
      j := FirstStaFinds(privs, from + 1);
    }
  }

  /** With no interface active the handler is off again at once, and nothing is issued. */
  lemma {:induction false} NothingActive(s: Rdh, cfg: Config, calls: seq<Call>)
    requires s.stage.ChkIntfs? && cfg.active == [] && calls != []
    ensures var r := Run(s, cfg, calls); r.stage.Off? && r.cmds == s.cmds && r.stamps == s.stamps
  {
    if |calls| > 1 {
      NothingActive(s, cfg, calls[..|calls| - 1]);
    } else {
      assert calls[..0] == [];
    }
  }
}
