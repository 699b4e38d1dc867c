/** Radar handling: the steps of the handler as functions of its state. Each stage function says what one
    call does from that stage on: it ends at a command whose completion calls the handler again. */
module RadarSpec {
  import opened Basics
  import NonOccupancy
  import ChannelSearch

  datatype Role = Uap | Sta

  /** An interface, with what the driver and the firmware answer about it. */
  datatype Intf = Intf(
    id: nat,
    role: Role,
    dfsMaster: bool,
    connected: bool,
    channel: nat,         // channel an access point reports
    bssChannel: nat,      // channel of the BSS it is in, kept in the driver
    beaconPeriod: nat,
    dtimPeriod: nat)

  datatype Stage =
    | Off | ChkIntfs | StopTraffic | GetInfoChannel | GetInfoBeaconDtim | SetCustomIe
    | RemCustomIe | StopIntfs | SetNewChannel | RestartIntfs | RestartTraffic

  datatype Cmd =
    | TxDisable(id: nat) | TxEnable(id: nat)
    | GetChannel(id: nat) | GetBeaconDtim(id: nat)
    | MarkNop(chan: nat) | PickChannel(id: nat, chan: nat)
    | AddIe(id: nat) | RemoveIe(id: nat) | Delay(ms: nat)
    | BssStop(id: nat) | Disconnect(id: nat)
    | SetChannel(id: nat, chan: nat) | ActivateRadarDetection(id: nat) | BssStart(id: nat)

  /** `RDH_STAGE_FIRST_ENTRY_PRIV_IDX`: the stage was not entered yet. */
  const FIRST_ENTRY: nat := 0xff
  const MAX_BSS_NUM: nat := 16
  const MIN_IE_PERIOD_MSEC: nat := 400
  const MAX_IE_PERIOD_MSEC: nat := 3000

  /** Settings of the adapter, and the interfaces that are active when handling starts. */
  datatype Config = Config(
    active: seq<Intf>,
    noChannelChange: bool,
    fixedChannel: nat,
    radarChannels: set<nat>,
    userNopPeriodSec: nat)

  datatype Rdh = Rdh(
    stage: Stage,
    privs: seq<Intf>,
    idx: nat,
    curr: nat,
    new_: nat,
    maxBcn: nat,
    stamps: NonOccupancy.Stamps,
    cmds: seq<Cmd>)

  /** What a search for a channel meets: settings of the access point, region tables, random numbers and
      the clock. */
  datatype Surroundings = Surroundings(
    settings: ChannelSearch.Settings, tables: ChannelSearch.Tables, rand: nat -> nat, now: nat)

  /** One call of the handler: the interface it is called for, its surroundings, and the interfaces for
      which no channel-switch IE can be prepared. */
  datatype Call = Call(priv: Intf, env: Surroundings, faults: set<nat>)

  // ---------------------------------------------------------------- phases

  /** The parts of the handling that go over all interfaces. */
  datatype Phase = Disable | Enable | Dtim | Add | Remove | Stop | Set(chan: nat) | Start(activate: bool)

  function CmdsOf(ph: Phase, p: Intf): seq<Cmd> {
    match ph
    case Disable => [TxDisable(p.id)]
    case Enable => [TxEnable(p.id)]
    case Dtim => if p.role.Uap? then [GetBeaconDtim(p.id)] else []
    case Add => if p.dfsMaster then [AddIe(p.id)] else []
    case Remove => if p.dfsMaster then [RemoveIe(p.id)] else []
    case Stop => if p.role.Uap? then [BssStop(p.id)] else if p.connected then [Disconnect(p.id)] else []
    case Set(chan) => if p.role.Uap? then [SetChannel(p.id, chan)] else []
    case Start(activate) =>
      if p.role.Uap? then (if activate then [ActivateRadarDetection(p.id)] else []) + [BssStart(p.id)] else []
  }

  /** The commands of a phase for the interfaces from, .., to - 1. */
  function Collect(ph: Phase, privs: seq<Intf>, from: nat, to: nat): seq<Cmd>
    requires to <= |privs|
    decreases if from < to then to - from else 0
  {
    if to <= from then [] else CmdsOf(ph, privs[from]) + Collect(ph, privs, from + 1, to)
  }

  /** First interface at or after `from` that a phase has a command for. */
  function Next(ph: Phase, privs: seq<Intf>, from: nat): (j: nat)
    ensures from <= |privs| ==> from <= j <= |privs|
    ensures j < |privs| ==> CmdsOf(ph, privs[j]) != []
    ensures forall k :: from <= k < j && k < |privs| ==> CmdsOf(ph, privs[k]) == []
    decreases |privs| - from
  {
    if from < |privs| && CmdsOf(ph, privs[from]) == [] then Next(ph, privs, from + 1) else from
  }

  /** The index is an unsigned byte. */
  function Bump(idx: nat): nat {
    if idx == 255 then 0 else idx + 1
  }

  /** Beacon period times DTIM period, in 16 bits; a station's DTIM period counts as 1. */
  function BcnDtim(p: Intf): nat {
    (p.beaconPeriod * if p.role.Uap? then p.dtimPeriod else 1) % 0x1_0000
  }

  function MaxOver(privs: seq<Intf>, from: nat, to: nat, m: nat): nat
    requires to <= |privs|
    decreases if from < to then to - from else 0
  {
    if to <= from then m else MaxOver(privs, from + 1, to, Max(m, BcnDtim(privs[from])))
  }

  /** How long the IE is broadcast. */
  function DelayMs(maxBcn: nat): nat {
    Max(MIN_IE_PERIOD_MSEC, Min(4 * maxBcn, MAX_IE_PERIOD_MSEC))
  }

  function IndexOf(privs: seq<Intf>, p: Intf, from: nat): (j: nat)
    ensures from <= |privs| ==> from <= j <= |privs|
    ensures j < |privs| ==> privs[j] == p
    ensures forall k :: from <= k < j && k < |privs| ==> privs[k] != p
    decreases |privs| - from
  {
    if from < |privs| && privs[from] != p then IndexOf(privs, p, from + 1) else from
  }

  /** First station at or after `from`, else the last interface. */
  function FirstSta(privs: seq<Intf>, from: nat): Intf
    requires from < |privs|
    decreases |privs| - from
  {
    if privs[from].role.Sta? || from + 1 == |privs| then privs[from] else FirstSta(privs, from + 1)
  }

  /** Interfaces from, .., to - 1 whose IE is prepared before the first fault, as an end index. */
  function UntilFault(privs: seq<Intf>, from: nat, faults: set<nat>): (j: nat)
    ensures from <= |privs| ==> from <= j <= |privs|
    ensures j < |privs| ==> privs[j].dfsMaster && privs[j].id in faults
    ensures forall k :: from <= k < j && k < |privs| ==> !(privs[k].dfsMaster && privs[k].id in faults)
    decreases |privs| - from
  {
    if from < |privs| && !(privs[from].dfsMaster && privs[from].id in faults) then UntilFault(privs, from + 1, faults)
    else from
  }

  // ---------------------------------------------------------------- stages, last first

  function AtRestartTraffic(s: Rdh): (r: Rdh)
    ensures r.stamps == s.stamps
  {
    s.(cmds := s.cmds + Collect(Enable, s.privs, 0, |s.privs|), stage := Off)
  }

  function AtRestartIntfs(s: Rdh, cfg: Config): (r: Rdh)
    ensures r.stamps == s.stamps
  {
    var ph := Start(s.new_ in cfg.radarChannels);
    var j := Next(ph, s.privs, Bump(s.idx));
    if j < |s.privs| then s.(idx := j, cmds := s.cmds + CmdsOf(ph, s.privs[j]))
    else AtRestartTraffic(s.(idx := FIRST_ENTRY, stage := RestartTraffic))
  }

  function AtSetNewChannel(s: Rdh, cfg: Config): (r: Rdh)
    ensures r.stamps == s.stamps
  {
    var j := Next(Set(s.new_), s.privs, Bump(s.idx));
    if j < |s.privs| then s.(idx := j, cmds := s.cmds + CmdsOf(Set(s.new_), s.privs[j]))
    else AtRestartIntfs(s.(idx := FIRST_ENTRY, stage := RestartIntfs), cfg)
  }

  function AtStopIntfs(s: Rdh, cfg: Config): (r: Rdh)
    ensures r.stamps == s.stamps
  {
    var j := Next(Stop, s.privs, Bump(s.idx));
    if j < |s.privs| then s.(idx := j, cmds := s.cmds + CmdsOf(Stop, s.privs[j]))
    else if cfg.noChannelChange then
      AtRestartIntfs(s.(idx := FIRST_ENTRY, stage := RestartIntfs, new_ := s.curr), cfg)
    else
      AtSetNewChannel(s.(idx := FIRST_ENTRY, stage := SetNewChannel), cfg)
  }

  function AtRemCustomIe(s: Rdh, cfg: Config, faults: set<nat>): (r: Rdh)
    ensures r.stamps == s.stamps
  {
    if s.idx == FIRST_ENTRY then
      var j := UntilFault(s.privs, 0, faults);
      s.(idx := j, cmds := s.cmds + [Delay(DelayMs(s.maxBcn))] + Collect(Remove, s.privs, 0, j))
    else
      AtStopIntfs(s.(idx := FIRST_ENTRY, stage := StopIntfs), cfg)
  }

  function AtSetCustomIe(s: Rdh, cfg: Config, faults: set<nat>): (r: Rdh)
    ensures r.stamps == s.stamps
  {
    if s.idx == FIRST_ENTRY then
      var j := UntilFault(s.privs, 0, faults);
      s.(idx := j, cmds := s.cmds + Collect(Add, s.privs, 0, j))
    else
      AtRemCustomIe(s.(idx := FIRST_ENTRY, stage := RemCustomIe), cfg, faults)
  }

  function AtGetInfoBeaconDtim(s: Rdh, cfg: Config, faults: set<nat>): (r: Rdh)
    ensures r.stamps == s.stamps
  {
    var m := if s.idx < |s.privs| then Max(s.maxBcn, BcnDtim(s.privs[s.idx])) else s.maxBcn;
    var from := Bump(s.idx);
    var j := Next(Dtim, s.privs, from);
    if j < |s.privs| then
      s.(idx := j, maxBcn := MaxOver(s.privs, from, j, m), cmds := s.cmds + CmdsOf(Dtim, s.privs[j]))
    else
      AtSetCustomIe(s.(idx := FIRST_ENTRY, stage := SetCustomIe, maxBcn := MaxOver(s.privs, from, |s.privs|, m)), cfg,
          faults)
  }

  /** The channel to move to, given what the search picked for an access point. */
  function NewChannel(cfg: Config, curr: nat, picked: nat): nat {
    if cfg.noChannelChange then curr
    else if cfg.fixedChannel != 0 then cfg.fixedChannel
    else picked
  }

  /** The settings a search runs under while the handler is choosing a channel. */
  function SearchSettings(cfg: Config, env: Surroundings): ChannelSearch.Settings {
    env.settings.(inGetInfoStage := true, radarChannels := cfg.radarChannels)
  }

  /** The search an access point makes once channel `curr` was marked. */
  function Search(stamps: NonOccupancy.Stamps, curr: nat, cfg: Config, env: Surroundings): ChannelSearch.Found {
    ChannelSearch.StartChannel(NonOccupancy.Marked(stamps, curr, NonOccupancy.NopStart, env.now),
                               SearchSettings(cfg, env), env.tables, env.rand, env.now,
                               NonOccupancy.Period(cfg.userNopPeriodSec))
  }

  /** The current channel enters non-occupancy, and only then does an access point pick a new one. */
  function Chosen(s: Rdh, cfg: Config, priv: Intf, env: Surroundings): Rdh {
    var uap, f := priv.role.Uap?, Search(s.stamps, s.curr, cfg, env);
    s.(idx := FIRST_ENTRY, stage := GetInfoBeaconDtim,
       new_ := NewChannel(cfg, s.curr, if uap then f.chan else s.new_),
       stamps := if uap then f.list else NonOccupancy.Marked(s.stamps, s.curr, NonOccupancy.NopStart, env.now),
       cmds := s.cmds + [MarkNop(s.curr)] + if uap then [PickChannel(priv.id, f.chan)] else [])
  }

  /** The current channel is known. */
  function ChannelKnown(s: Rdh, cfg: Config, priv: Intf, c: Call): Rdh {
    AtGetInfoBeaconDtim(Chosen(s, cfg, priv, c.env), cfg, c.faults)
  }

  function AtGetInfoChannel(s: Rdh, cfg: Config, c: Call): Rdh {
    if s.idx == FIRST_ENTRY then
      if c.priv.role.Uap? then
        var j := IndexOf(s.privs, c.priv, 0);
        s.(idx := j, cmds := s.cmds + if j < |s.privs| then [GetChannel(c.priv.id)] else [])
      else if s.privs == [] then s
      else
        var sta := FirstSta(s.privs, 0);
        ChannelKnown(s.(curr := sta.bssChannel), cfg, sta, c)
    else
      ChannelKnown(if s.idx < |s.privs| then s.(curr := c.priv.channel) else s, cfg, c.priv, c)
  }

  function AtStopTraffic(s: Rdh, cfg: Config, c: Call): Rdh {
    AtGetInfoChannel(
      s.(cmds := s.cmds + Collect(Disable, s.privs, 0, |s.privs|), idx := FIRST_ENTRY, stage := GetInfoChannel), cfg, c)
  }

  function AtChkIntfs(s: Rdh, cfg: Config, c: Call): Rdh {
    var t := s.(privs := cfg.active);
    if cfg.active == [] then t.(stage := Off)
    else AtStopTraffic(t.(curr := 0, new_ := 0, maxBcn := 0, idx := FIRST_ENTRY, stage := StopTraffic), cfg, c)
  }

  /** One call of the handler. */
  function Handle(s: Rdh, cfg: Config, c: Call): Rdh {
    match s.stage
    case Off => s
    case ChkIntfs => AtChkIntfs(s, cfg, c)
    case StopTraffic => AtStopTraffic(s, cfg, c)
    case GetInfoChannel => AtGetInfoChannel(s, cfg, c)
    case GetInfoBeaconDtim => AtGetInfoBeaconDtim(s, cfg, c.faults)
    case SetCustomIe => AtSetCustomIe(s, cfg, c.faults)
    case RemCustomIe => AtRemCustomIe(s, cfg, c.faults)
    case StopIntfs => AtStopIntfs(s, cfg)
    case SetNewChannel => AtSetNewChannel(s, cfg)
    case RestartIntfs => AtRestartIntfs(s, cfg)
    case RestartTraffic => AtRestartTraffic(s)
  }
}
