/** The radar handler as a re-entrant state machine that advances its fields, proved to compute the steps
    of RadarSpec. Commands, delays and traffic switches are appended to `cmds`. */
module RadarHandler {
  import opened Basics
  import ChannelSearch
  import NonOccupancy
  import opened RadarSpec
  import RadarRuns

  datatype Status = Success | Failure | Pending

  class RadarState {
    var stage: Stage
    var privList: seq<Intf>
    var privCurrIdx: nat
    var currChannel: nat
    var newChannel: nat
    var maxBcnDtimMs: nat
    var cmds: seq<Cmd>
    const cfg: Config
    const dfs: NonOccupancy.DfsState

    function Abs(): Rdh
      reads this, dfs
    {
      Rdh(stage, privList, privCurrIdx, currChannel, newChannel, maxBcnDtimMs, dfs.list, cmds)
    }

    predicate Indexed()
      reads this
    {
      |privList| <= MAX_BSS_NUM && (privCurrIdx <= |privList| || privCurrIdx == FIRST_ENTRY)
    }

    /** A radar event was accepted: handling is about to start. */
    constructor (cfg: Config, dfs: NonOccupancy.DfsState)
      requires dfs.userNopPeriodSec == cfg.userNopPeriodSec
      ensures this.cfg == cfg && this.dfs == dfs && Linked()
      ensures Abs() == Rdh(Stage.ChkIntfs, [], FIRST_ENTRY, 0, 0, 0, dfs.list, [])
    {
      this.cfg, this.dfs := cfg, dfs;
      stage, privList, privCurrIdx, cmds := Stage.ChkIntfs, [], FIRST_ENTRY, [];
      currChannel, newChannel, maxBcnDtimMs := 0, 0, 0;
    }

    /** One setting of the period, seen by the handler and by the list of stamps. */
    predicate Linked() {
      dfs.userNopPeriodSec == cfg.userNopPeriodSec
    }

    method Enter(next: Stage)
      modifies this`stage, this`privCurrIdx
      ensures stage == next && privCurrIdx == FIRST_ENTRY
    {
      privCurrIdx := FIRST_ENTRY;
      stage := next;
    }

    /** Appends a phase's commands for every interface. */
    method ForAll(ph: Phase)
      modifies this`cmds
      ensures cmds == old(cmds) + Collect(ph, privList, 0, |privList|)
    {
      hide CmdsOf;
      assert cmds + [] == cmds;
      for i := 0 to |privList|
        invariant cmds == old(cmds) + Collect(ph, privList, 0, i)
      {
        AppendNext(old(cmds), ph, privList, i);
        cmds := cmds + CmdsOf(ph, privList[i]);
      }
    }

    method RestartTraffic()
      modifies this`cmds, this`stage
      ensures Abs() == AtRestartTraffic(old(Abs()))
    {
      ForAll(Enable);
      stage := Off;
    }

    /** One command to the next access point; when there is none left the stage is over. */
    method NextUap(ph: Phase) returns (ret: Status)
      requires Indexed() && (ph.Set? || ph.Start?)
      modifies this`privCurrIdx, this`cmds
      ensures privCurrIdx == Next(ph, privList, Bump(old(privCurrIdx)))
      ensures cmds == old(cmds) + if privCurrIdx < |privList| then CmdsOf(ph, privList[privCurrIdx]) else []
      ensures privCurrIdx >= |privList| ==> ret == Success
    {
      hide CmdsOf;
      ret := Success;
      privCurrIdx := Bump(privCurrIdx);
      while privCurrIdx < |privList|
        invariant Next(ph, privList, privCurrIdx) == Next(ph, privList, Bump(old(privCurrIdx)))
        invariant cmds == old(cmds) && privCurrIdx <= MAX_BSS_NUM + 1 && ret == Success
        decreases |privList| - privCurrIdx
      {
        CmdOfUap(ph, privList[privCurrIdx]);
        if privList[privCurrIdx].role.Uap? {
          cmds := cmds + CmdsOf(ph, privList[privCurrIdx]);
          ret := *;
          break;
        }
        privCurrIdx := Bump(privCurrIdx);
      }
    }

    method RestartIntfs() returns (ret: Status)
      requires Indexed()
      modifies this
      ensures Abs() == AtRestartIntfs(old(Abs()), cfg)
    {
      ret := NextUap(Start(newChannel in cfg.radarChannels));
      if privCurrIdx < |privList| || ret == Failure {
        return;
      }
      assert cmds == old(cmds);
      Enter(Stage.RestartTraffic);
      RestartTraffic();
    }

    method SetNewChannel() returns (ret: Status)
      requires Indexed()
      modifies this
      ensures Abs() == AtSetNewChannel(old(Abs()), cfg)
    {
      ret := NextUap(Set(newChannel));
      if privCurrIdx < |privList| || ret == Failure {
        return;
      }
      assert cmds == old(cmds);
      Enter(Stage.RestartIntfs);
      ret := RestartIntfs();
    }

    /** One stop or disconnect to the next interface that is up. */
    method NextStop() returns (ret: Status)
      requires Indexed()
      modifies this`privCurrIdx, this`cmds
      ensures privCurrIdx == Next(Stop, privList, Bump(old(privCurrIdx)))
      ensures cmds == old(cmds) + if privCurrIdx < |privList| then CmdsOf(Stop, privList[privCurrIdx]) else []
      ensures privCurrIdx >= |privList| ==> ret == Success
    {
      hide CmdsOf;
      ret := Success;
      privCurrIdx := Bump(privCurrIdx);
      while privCurrIdx < |privList|
        invariant Next(Stop, privList, privCurrIdx) == Next(Stop, privList, Bump(old(privCurrIdx)))
        invariant cmds == old(cmds) && privCurrIdx <= MAX_BSS_NUM + 1 && ret == Success
        decreases |privList| - privCurrIdx
      {
        var p := privList[privCurrIdx];
        StopOfIntf(p);
        if p.role.Uap? {
          cmds := cmds + [BssStop(p.id)];
          ret := *;
          return;
        } else if p.connected {
          cmds := cmds + [Disconnect(p.id)];
          return;
        }
        privCurrIdx := Bump(privCurrIdx);
      }
    }

    method StopIntfs() returns (ret: Status)
      requires Indexed()
      modifies this
      ensures Abs() == AtStopIntfs(old(Abs()), cfg)
    {
      hide AtRestartIntfs, AtSetNewChannel, CmdsOf;
      ret := NextStop();
      if privCurrIdx < |privList| || ret == Failure {
        return;
      }
      assert cmds == old(cmds);
      Enter(Stage.SetNewChannel);
      if cfg.noChannelChange {
        newChannel := currChannel;
        Enter(Stage.RestartIntfs);
        ret := RestartIntfs();
      } else {
        ret := SetNewChannel();
      }
    }

    /** Adds or removes the IE on every DFS master, up to the first one it cannot be prepared for. */
    method CustomIes(ph: Phase, faults: set<nat>) returns (ret: Status)
      requires Indexed() && privCurrIdx == FIRST_ENTRY && (ph.Add? || ph.Remove?)
      modifies this`privCurrIdx, this`cmds
      ensures privCurrIdx == UntilFault(privList, 0, faults)
      ensures cmds == old(cmds) + Collect(ph, privList, 0, privCurrIdx)
    {
      hide CmdsOf;
      ret := Success;
      privCurrIdx := Bump(privCurrIdx);
      assert old(cmds) + [] == cmds;
      while privCurrIdx < |privList|
        invariant privCurrIdx <= |privList|
        invariant UntilFault(privList, privCurrIdx, faults) == UntilFault(privList, 0, faults)
        invariant cmds == old(cmds) + Collect(ph, privList, 0, privCurrIdx)
        decreases |privList| - privCurrIdx
      {
        var p := privList[privCurrIdx];
        AppendNext(old(cmds), ph, privList, privCurrIdx);
        IeOfMaster(ph, p);
        if p.dfsMaster {
          if p.id in faults {
            ret := Failure;
            return;
          }
          cmds := cmds + CmdsOf(ph, p);
          ret := *;
        }
        privCurrIdx := Bump(privCurrIdx);
      }
    }

    method RemCustomIe(faults: set<nat>) returns (ret: Status)
      requires Indexed()
      modifies this
      ensures Abs() == AtRemCustomIe(old(Abs()), cfg, faults)
    {
      if privCurrIdx == FIRST_ENTRY {
        cmds := cmds + [Delay(DelayMs(maxBcnDtimMs))];
        ret := CustomIes(Remove, faults);
        return;
      }
      Enter(Stage.StopIntfs);
      ret := StopIntfs();
    }

    method SetCustomIe(faults: set<nat>) returns (ret: Status)
      requires Indexed()
      modifies this
      ensures Abs() == AtSetCustomIe(old(Abs()), cfg, faults)
    {
      if privCurrIdx == FIRST_ENTRY {
        ret := CustomIes(Add, faults);
        return;
      }
      Enter(Stage.RemCustomIe);
      ret := RemCustomIe(faults);
    }

    method NotePeriod(p: Intf)
      modifies this`maxBcnDtimMs
      ensures maxBcnDtimMs == Max(old(maxBcnDtimMs), BcnDtim(p))
    {
      var period := BcnDtim(p);
      if period > maxBcnDtimMs {
        maxBcnDtimMs := period;
      }
    }

    /** Asks the next access point for its periods, noting those of the stations before it. */
    method NextDtim() returns (ret: Status)
      requires Indexed()
      modifies this`privCurrIdx, this`cmds, this`maxBcnDtimMs
      ensures privCurrIdx == Next(Dtim, privList, Bump(old(privCurrIdx)))
      ensures cmds == old(cmds) + if privCurrIdx < |privList| then CmdsOf(Dtim, privList[privCurrIdx]) else []
      ensures maxBcnDtimMs == MaxOver(privList, Bump(old(privCurrIdx)), Min(privCurrIdx, |privList|), old(maxBcnDtimMs))
    {
      hide MaxOver, CmdsOf, BcnDtim;
      ret := Success;
      ghost var m, from := maxBcnDtimMs, Bump(privCurrIdx);
      privCurrIdx := Bump(privCurrIdx);
      MaxOverNothing(privList, from, m);
      while privCurrIdx < |privList| && privCurrIdx < MAX_BSS_NUM
        invariant from <= privCurrIdx <= MAX_BSS_NUM + 1 && (from < |privList| ==> privCurrIdx <= |privList|)
        invariant Next(Dtim, privList, privCurrIdx) == Next(Dtim, privList, from)
        invariant cmds == old(cmds)
        invariant maxBcnDtimMs == MaxOver(privList, from, Min(privCurrIdx, |privList|), m)
        decreases |privList| - privCurrIdx
      {
        var p := privList[privCurrIdx];
        DtimOfUap(p);
        if p.role.Uap? {
          cmds := cmds + CmdsOf(Dtim, p);
          ret := *;
          return;
        }
        MaxOverSnoc(privList, from, privCurrIdx, m);
        NotePeriod(p);
        privCurrIdx := Bump(privCurrIdx);
      }
    }

    /** Collects the longest beacon and DTIM period; an access point has to be asked for its own. */
    method GetInfoBeaconDtim(faults: set<nat>) returns (ret: Status)
      requires Indexed()
      modifies this
      ensures Abs() == AtGetInfoBeaconDtim(old(Abs()), cfg, faults)
    {
      hide MaxOver, CmdsOf, AtSetCustomIe, BcnDtim;
      if privCurrIdx < |privList| {
        NotePeriod(privList[privCurrIdx]);
      }
      ret := NextDtim();
      if privCurrIdx < |privList| {
        return;
      }
      assert cmds == old(cmds);
      Enter(Stage.SetCustomIe);
      ret := SetCustomIe(faults);
    }

    /** The channel to leave is known: marks it, picks a new one, and goes on. For a station there is
        nothing to pick, and the handler goes on with no channel chosen. */
    method ChannelKnown(priv: Intf, c: Call) returns (ret: Status)
      requires Indexed() && Linked()
      modifies this, dfs
      ensures Abs() == RadarSpec.ChannelKnown(old(Abs()), cfg, priv, c)
    {
      hide AtGetInfoBeaconDtim, ChannelSearch.StartChannel, NonOccupancy.Marked;
      dfs.AddDfsTimestamp(NonOccupancy.NopStart, currChannel, c.env.now);
      cmds := cmds + [MarkNop(currChannel)];
      if priv.role.Uap? {
        newChannel := ChannelSearch.GetUapStartChannel(dfs, SearchSettings(cfg, c.env), c.env.tables, c.env.rand,
            c.env.now);
        cmds := cmds + [PickChannel(priv.id, newChannel)];
      }
      assert priv.role.Sta? ==> cmds + [] == cmds;
      if !cfg.noChannelChange && cfg.fixedChannel != 0 {
        newChannel := cfg.fixedChannel;
      }
      if cfg.noChannelChange {
        newChannel := currChannel;
      }
      Enter(Stage.GetInfoBeaconDtim);
      assert Abs() == Chosen(old(Abs()), cfg, priv, c.env);
      ret := GetInfoBeaconDtim(c.faults);
    }

    /** Moves the index to the interface the handler was called for. */
    method GetPrivCurrIdx(p: Intf) returns (found: bool)
      requires Indexed() && privCurrIdx == FIRST_ENTRY
      modifies this`privCurrIdx
      ensures privCurrIdx == IndexOf(privList, p, 0) && found == (privCurrIdx < |privList|)
    {
      privCurrIdx := Bump(privCurrIdx);
      while privCurrIdx < |privList|
        invariant privCurrIdx <= |privList| && IndexOf(privList, p, privCurrIdx) == IndexOf(privList, p, 0)
        decreases |privList| - privCurrIdx
      {
        if privList[privCurrIdx] == p {
          return true;
        }
        privCurrIdx := Bump(privCurrIdx);
      }
      found := false;
    }

    /** The first station of the list; the last interface when there is none. */
    method FindSta() returns (p: Intf)
      requires privList != []
      ensures p == FirstSta(privList, 0)
    {
      var i := 0;
      p := privList[0];
      while i < |privList| && privList[i].role.Uap?
        invariant 0 <= i <= |privList|
        invariant i < |privList| ==> FirstSta(privList, i) == FirstSta(privList, 0)
        invariant i == |privList| ==> p == FirstSta(privList, 0)
      {
        p := privList[i];
        i := i + 1;
      }
      if i < |privList| {
        p := privList[i];
      }
    }

    method GetInfoChannel(c: Call) returns (ret: Status)
      requires Indexed() && Linked() && privList != []
      modifies this, dfs
      ensures Abs() == AtGetInfoChannel(old(Abs()), cfg, c)
    {
      hide RadarSpec.ChannelKnown, IndexOf, FirstSta;
      if privCurrIdx == FIRST_ENTRY {
        if c.priv.role.Uap? {
          var found := GetPrivCurrIdx(c.priv);
          assert cmds + [] == cmds;
          if !found {
            return Failure;
          }
          cmds := cmds + [GetChannel(c.priv.id)];
          ret := *;
          return;
        }
        var sta := FindSta();
        currChannel := sta.bssChannel;
        ret := ChannelKnown(sta, c);
      } else {
        if privCurrIdx < |privList| {
          currChannel := c.priv.channel;
        }
        ret := ChannelKnown(c.priv, c);
      }
    }

    method StopTraffic(c: Call) returns (ret: Status)
      requires |privList| <= MAX_BSS_NUM && Linked() && privList != []
      modifies this, dfs
      ensures Abs() == AtStopTraffic(old(Abs()), cfg, c)
    {
      hide AtGetInfoChannel, Collect;
      ForAll(Disable);
      Enter(Stage.GetInfoChannel);
      ret := GetInfoChannel(c);
    }

    method ChkIntfs(c: Call) returns (ret: Status)
      requires |cfg.active| <= MAX_BSS_NUM && Linked()
      modifies this, dfs
      ensures Abs() == AtChkIntfs(old(Abs()), cfg, c)
    {
      hide AtStopTraffic;
      privList := cfg.active;
      if privList == [] {
        stage := Off;
        return Success;
      }
      currChannel, newChannel, maxBcnDtimMs := 0, 0, 0;
      Enter(Stage.StopTraffic);
      ret := StopTraffic(c);
    }

    /** One call, entering at the current stage. */
    method Handle(c: Call) returns (ret: Status)
      requires RadarRuns.Reached(Abs(), cfg) && |cfg.active| <= MAX_BSS_NUM && Linked()
      modifies this, dfs
      ensures Abs() == RadarSpec.Handle(old(Abs()), cfg, c) && RadarRuns.Reached(Abs(), cfg)
    {
      hide AtStopTraffic, AtGetInfoChannel, AtGetInfoBeaconDtim, AtSetCustomIe, AtRemCustomIe, AtStopIntfs,
           AtSetNewChannel, AtRestartIntfs, AtRestartTraffic;
      if !stage.Off? {
        RadarRuns.HandleProgress(Abs(), cfg, c);
      }
      match stage {
        case Off =>
          stage := Off;
          ret := Success;
        case ChkIntfs => ret := ChkIntfs(c);
        case StopTraffic => ret := StopTraffic(c);
        case GetInfoChannel => ret := GetInfoChannel(c);
        case GetInfoBeaconDtim => ret := GetInfoBeaconDtim(c.faults);
        case SetCustomIe => ret := SetCustomIe(c.faults);
        case RemCustomIe => ret := RemCustomIe(c.faults);
        case StopIntfs => ret := StopIntfs();
        case SetNewChannel => ret := SetNewChannel();
        case RestartIntfs => ret := RestartIntfs();
        case RestartTraffic =>
          RestartTraffic();
          ret := Success;
      }
    }

    /** The callbacks of a whole run, one after the other. */
    method HandleAll(calls: seq<Call>)
      requires RadarRuns.Reached(Abs(), cfg) && |cfg.active| <= MAX_BSS_NUM && Linked()
      modifies this, dfs
      ensures Abs() == RadarRuns.Run(old(Abs()), cfg, calls)
    {
      hide RadarSpec.Handle;
      assert calls[..0] == [];
      for i := 0 to |calls|
        invariant RadarRuns.Reached(Abs(), cfg) && Abs() == RadarRuns.Run(old(Abs()), cfg, calls[..i])
      {
        assert calls[..i + 1][..i] == calls[..i];
        var ret := Handle(calls[i]);
      }
      assert calls[..|calls|] == calls;
    }
  }

  lemma CmdOfUap(ph: Phase, p: Intf)
    requires ph.Set? || ph.Start?
    ensures CmdsOf(ph, p) != [] <==> p.role.Uap?
  {
  }

  lemma StopOfIntf(p: Intf)
    ensures CmdsOf(Stop, p) == if p.role.Uap? then [BssStop(p.id)] else if p.connected then [Disconnect(p.id)] else []
  {
  }

  lemma IeOfMaster(ph: Phase, p: Intf)
    requires ph.Add? || ph.Remove?
    ensures CmdsOf(ph, p) != [] <==> p.dfsMaster
  {
  }

  lemma DtimOfUap(p: Intf)
    ensures CmdsOf(Dtim, p) != [] <==> p.role.Uap?
  {
  }

  lemma MaxOverNothing(privs: seq<Intf>, from: nat, m: nat)
    ensures from <= |privs| ==> MaxOver(privs, from, from, m) == m
    ensures from >= |privs| ==> MaxOver(privs, from, |privs|, m) == m
  {
  }

  lemma {:induction false} MaxOverSnoc(privs: seq<Intf>, from: nat, to: nat, m: nat)
    requires from <= to < |privs|
    ensures MaxOver(privs, from, to + 1, m) == Max(MaxOver(privs, from, to, m), BcnDtim(privs[to]))
    decreases if from < to then to - from else 0
  {
    if from < to {
      MaxOverSnoc(privs, from + 1, to, Max(m, BcnDtim(privs[from])));
    }
  }

  lemma AppendNext(cmds: seq<Cmd>, ph: Phase, privs: seq<Intf>, to: nat)
    requires to < |privs|
    ensures (cmds + Collect(ph, privs, 0, to)) + CmdsOf(ph, privs[to]) == cmds + Collect(ph, privs, 0, to + 1)
    ensures CmdsOf(ph, privs[to]) == [] ==> Collect(ph, privs, 0, to + 1) == Collect(ph, privs, 0, to)
  {
    hide CmdsOf;
    CollectSnoc(ph, privs, 0, to);
  }

  lemma {:induction false} CollectSnoc(ph: Phase, privs: seq<Intf>, from: nat, to: nat)
    requires from <= to < |privs|
    ensures Collect(ph, privs, from, to + 1) == Collect(ph, privs, from, to) + CmdsOf(ph, privs[to])
    decreases if from < to then to - from else 0
  {
    hide CmdsOf;
    var last := CmdsOf(ph, privs[to]);
    if from < to {
      CollectSnoc(ph, privs, from + 1, to);
      Regrouped(CmdsOf(ph, privs[from]), Collect(ph, privs, from + 1, to), last);
    } else {
      assert last + [] == last && [] + last == last;
    }
  }

  lemma Regrouped(a: seq<Cmd>, b: seq<Cmd>, c: seq<Cmd>)
    ensures a + (b + c) == (a + b) + c
  {
  }
}
