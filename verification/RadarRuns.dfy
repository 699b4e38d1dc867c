/** Runs of the radar handler: they end, within a bound linear in the number of interfaces, whatever the
    calls bring; and a run started for an access point issues exactly the planned commands. */
module RadarRuns {
  import opened Basics
  import opened RadarSpec

  function Run(s: Rdh, cfg: Config, calls: seq<Call>): Rdh {
    if calls == [] then s else Handle(Run(s, cfg, calls[..|calls| - 1]), cfg, calls[|calls| - 1])
  }

  // ---------------------------------------------------------------- termination

  /** Stages left. */
  function Rank(stage: Stage): nat {
    match stage
    case Off => 0
    case RestartTraffic => 1
    case RestartIntfs => 2
    case SetNewChannel => 3
    case StopIntfs => 4
    case RemCustomIe => 5
    case SetCustomIe => 6
    case GetInfoBeaconDtim => 7
    case GetInfoChannel => 8
    case StopTraffic => 9
    case ChkIntfs => 10
  }

  predicate IndexValid(s: Rdh) {
    |s.privs| <= MAX_BSS_NUM && (s.idx <= |s.privs| || s.idx == FIRST_ENTRY || s.stage.Off? || s.stage.ChkIntfs?)
  }

  /** Interfaces left in the stage; one more when it was not entered yet. */
  function Left(s: Rdh): int {
    if s.idx == FIRST_ENTRY then |s.privs| + 1 else |s.privs| - s.idx
  }

  /** The lexicographic measure (stages left, interfaces left) went down. */
  predicate Progress(s: Rdh, r: Rdh) {
    && IndexValid(r)
    && (Rank(r.stage) < Rank(s.stage) || (r.stage == s.stage && r.privs == s.privs && Left(r) < Left(s)))
  }

  lemma RestartProgress(s: Rdh, cfg: Config)
    requires IndexValid(s) && s.stage.RestartIntfs?
    ensures Progress(s, AtRestartIntfs(s, cfg)) && AtRestartIntfs(s, cfg).privs == s.privs
  {
    hide CmdsOf, Collect;
  }

  lemma SetProgress(s: Rdh, cfg: Config)
    requires IndexValid(s) && s.stage.SetNewChannel?
    ensures Progress(s, AtSetNewChannel(s, cfg)) && AtSetNewChannel(s, cfg).privs == s.privs
  {
    hide CmdsOf, Collect, AtRestartIntfs;
    RestartProgress(s.(idx := FIRST_ENTRY, stage := RestartIntfs), cfg);
  }

  lemma StopProgress(s: Rdh, cfg: Config)
    requires IndexValid(s) && s.stage.StopIntfs?
    ensures Progress(s, AtStopIntfs(s, cfg)) && AtStopIntfs(s, cfg).privs == s.privs
  {
    hide CmdsOf, Collect, AtRestartIntfs, AtSetNewChannel;
    RestartProgress(s.(idx := FIRST_ENTRY, stage := RestartIntfs, new_ := s.curr), cfg);
    SetProgress(s.(idx := FIRST_ENTRY, stage := SetNewChannel), cfg);
  }

  lemma RemProgress(s: Rdh, cfg: Config, faults: set<nat>)
    requires IndexValid(s) && s.stage.RemCustomIe?
    ensures Progress(s, AtRemCustomIe(s, cfg, faults)) && AtRemCustomIe(s, cfg, faults).privs == s.privs
  {
    hide CmdsOf, Collect, AtStopIntfs;
    StopProgress(s.(idx := FIRST_ENTRY, stage := StopIntfs), cfg);
  }

  lemma AddProgress(s: Rdh, cfg: Config, faults: set<nat>)
    requires IndexValid(s) && s.stage.SetCustomIe?
    ensures Progress(s, AtSetCustomIe(s, cfg, faults)) && AtSetCustomIe(s, cfg, faults).privs == s.privs
  {
    hide CmdsOf, Collect, AtRemCustomIe;
    RemProgress(s.(idx := FIRST_ENTRY, stage := RemCustomIe), cfg, faults);
  }

  lemma DtimProgress(s: Rdh, cfg: Config, faults: set<nat>)
    requires IndexValid(s) && s.stage.GetInfoBeaconDtim?
    ensures Progress(s, AtGetInfoBeaconDtim(s, cfg, faults)) && AtGetInfoBeaconDtim(s, cfg, faults).privs == s.privs
  {
    hide CmdsOf, Collect, AtSetCustomIe, MaxOver, BcnDtim;
    var m := if s.idx < |s.privs| then Max(s.maxBcn, BcnDtim(s.privs[s.idx])) else s.maxBcn;
    AddProgress(s.(idx := FIRST_ENTRY, stage := SetCustomIe, maxBcn := MaxOver(s.privs, Bump(s.idx), |s.privs|, m)),
        cfg, faults);
  }

  lemma ChannelProgress(s: Rdh, cfg: Config, c: Call)
    requires IndexValid(s) && s.stage.GetInfoChannel? && s.privs != []
    ensures Progress(s, AtGetInfoChannel(s, cfg, c)) && AtGetInfoChannel(s, cfg, c).privs == s.privs
  {
    hide CmdsOf, Collect, ChannelKnown, IndexOf, FirstSta;
    if s.idx != FIRST_ENTRY {
      KnownProgress(if s.idx < |s.privs| then s.(curr := c.priv.channel) else s, cfg, c.priv, c);
    } else if c.priv.role.Sta? {
      var sta := FirstSta(s.privs, 0);
      KnownProgress(s.(curr := sta.bssChannel), cfg, sta, c);
    }
  }

  lemma KnownProgress(s: Rdh, cfg: Config, priv: Intf, c: Call)
    requires IndexValid(s) && s.stage.GetInfoChannel?
    ensures Progress(s, ChannelKnown(s, cfg, priv, c)) && ChannelKnown(s, cfg, priv, c).privs == s.privs
  {
    hide AtGetInfoBeaconDtim, Search;
    DtimProgress(Chosen(s, cfg, priv, c.env), cfg, c.faults);
  }

  /** Any call in a stage other than off brings the handler strictly closer to it. */
  lemma HandleProgress(s: Rdh, cfg: Config, c: Call)
    requires IndexValid(s) && !s.stage.Off? && |cfg.active| <= MAX_BSS_NUM
    requires s.stage.GetInfoChannel? || s.stage.StopTraffic? ==> s.privs != []
    ensures Progress(s, Handle(s, cfg, c)) && !Handle(s, cfg, c).stage.ChkIntfs?
    ensures Handle(s, cfg, c).privs == if s.stage.ChkIntfs? then cfg.active else s.privs
  {
    hide AtGetInfoChannel, AtGetInfoBeaconDtim, AtSetCustomIe, AtRemCustomIe, AtStopIntfs, AtSetNewChannel,
        AtRestartIntfs, Collect;
    match s.stage
    case ChkIntfs =>
      if cfg.active != [] {
        var t := s.(privs := cfg.active, curr := 0, new_ := 0, maxBcn := 0, idx := FIRST_ENTRY,
            stage := GetInfoChannel);
        ChannelProgress(t.(cmds := t.cmds + Collect(Disable, t.privs, 0, |t.privs|)), cfg, c);
      }
    case StopTraffic =>
      ChannelProgress(s.(cmds := s.cmds + Collect(Disable, s.privs, 0, |s.privs|), idx := FIRST_ENTRY,
          stage := GetInfoChannel), cfg, c);
    case GetInfoChannel => ChannelProgress(s, cfg, c);
    case GetInfoBeaconDtim => DtimProgress(s, cfg, c.faults);
    case SetCustomIe => AddProgress(s, cfg, c.faults);
    case RemCustomIe => RemProgress(s, cfg, c.faults);
    case StopIntfs => StopProgress(s, cfg);
    case SetNewChannel => SetProgress(s, cfg);
    case RestartIntfs => RestartProgress(s, cfg);
    case RestartTraffic =>
  }

  /** Calls that can still come before the handler is off. */
  function Budget(s: Rdh, n: nat): int {
    if s.stage.ChkIntfs? then 10 * (n + 3) else Rank(s.stage) * (n + 3) + Left(s)
  }

  lemma BudgetDrops(s: Rdh, r: Rdh, n: nat)
    requires IndexValid(s) && Progress(s, r) && !s.stage.Off? && r.stage != ChkIntfs
    requires |r.privs| <= n && (s.stage.ChkIntfs? || s.privs == r.privs)
    ensures Budget(r, n) < Budget(s, n)
  {
    if Rank(r.stage) < Rank(s.stage) {
      assert (Rank(s.stage) - Rank(r.stage)) * (n + 3) >= n + 3;
    }
  }

  /** The handler is called on in a state it can be in. */
  ghost predicate Reached(s: Rdh, cfg: Config) {
    && IndexValid(s)
    && (s.stage.ChkIntfs? || s.stage.Off? || (s.privs == cfg.active && cfg.active != []))
  }

  lemma {:induction false} RunReached(s: Rdh, cfg: Config, calls: seq<Call>)
    requires s.stage.ChkIntfs? && IndexValid(s) && |cfg.active| <= MAX_BSS_NUM
    ensures var r := Run(s, cfg, calls);
            Reached(r, cfg) && (calls != [] ==> !r.stage.ChkIntfs?)
            && (r.stage.Off? || Budget(r, |cfg.active|) + |calls| <= 10 * (|cfg.active| + 3))
  {
    if calls != [] {
      hide Handle, Budget;
      var before, c := calls[..|calls| - 1], calls[|calls| - 1];
      RunReached(s, cfg, before);
      var r := Run(s, cfg, before);
      if r.stage.Off? {
        OffStays(r, cfg, c);
      } else {
        HandleProgress(r, cfg, c);
        BudgetDrops(r, Handle(r, cfg, c), |cfg.active|);
      }
    } else {
      assert Budget(s, |cfg.active|) == 10 * (|cfg.active| + 3);
    }
  }

  lemma OffStays(s: Rdh, cfg: Config, c: Call)
    requires s.stage.Off?
    ensures Handle(s, cfg, c) == s
  {
  }

  lemma BudgetPositive(s: Rdh, n: nat)
    requires IndexValid(s) && !s.stage.ChkIntfs? && !s.stage.Off?
    ensures Budget(s, n) > 0
  {
    assert Rank(s.stage) * (n + 3) >= n + 3;
  }

  /** Termination: from the start of handling, after at most 10 (n + 3) calls for n active interfaces the
      handler is off, for any interfaces it is called for, any channels picked and any commands failing. */
  lemma HandlerEnds(s: Rdh, cfg: Config, calls: seq<Call>)
    requires s.stage.ChkIntfs? && IndexValid(s) && |cfg.active| <= MAX_BSS_NUM
    requires |calls| >= 10 * (|cfg.active| + 3)
    ensures Run(s, cfg, calls).stage.Off?
  {
    hide Budget;
    RunReached(s, cfg, calls);
    var r := Run(s, cfg, calls);
    if !r.stage.Off? {
      BudgetPositive(r, |cfg.active|);
    }
  }
}
