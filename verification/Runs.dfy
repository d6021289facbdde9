// Runs of the whole job: the invariant holds in every reachable state.
module Runs {
  import opened Files
  import opened FdTables
  import opened Protocol
  import opened ProtocolInv
  import Steps = ProtocolSteps
  import Served = ProtocolServed
  import Server

  // ------------------------------------------------------------------ runs

  ghost predicate Start(cfg: Config, g: Global)
  {
    && cfg.count > 0 && |g.sv| == cfg.count
    && (forall s: nat :: s < |g.sv| ==> g.sv[s] == Server.Boot)
    && (forall c: nat :: c < |g.cl| ==> g.cl[c] == Fresh)
    && g.ops == map[] && g.owner == map[] && g.spec == map[] && g.lin == map[] && g.log == map[]
  }

  ghost predicate Valid(cfg: Config, g: Global, run: seq<Action>)
    decreases |run|
  {
    run == [] || (Enabled(cfg, g, run[0]) && Valid(cfg, Apply(cfg, g, run[0]), run[1..]))
  }

  ghost function After(cfg: Config, g: Global, run: seq<Action>): Global
    requires Valid(cfg, g, run)
    decreases |run|
  {
    if run == [] then g else After(cfg, Apply(cfg, g, run[0]), run[1..])
  }

  lemma StartInv(cfg: Config, g: Global)
    requires Start(cfg, g)
    ensures Inv(cfg, g)
  {
    forall s: nat | s < |g.sv| ensures Server.Inv(cfg, s, g.sv[s]) { Server.BootInv(cfg, s); }
  }

  lemma OpenStepInv(cfg: Config, g: Global, a: OpenStep)
    requires Core(cfg, g) && OpenEnabled(cfg, g, a)
    ensures Core(cfg, OpenApply(cfg, g, a))
  {
    match a
    case OBegin(c, fd, p, tracked) => Steps.OpenBeginInv(cfg, g, c, fd, p, tracked);
    case ORegister(k) => Steps.OpenRegisterInv(cfg, g, k);
    case OMark(k) => Steps.OpenMarkInv(cfg, g, k);
    case ODispatch(k, ok) => Steps.OpenDispatchInv(cfg, g, k, ok);
    case OServe(k, r) => Served.SrvOpenInv(cfg, g, k, r);
    case OMap(k) => Served.OpenMapInv(cfg, g, k);
    case OReady(k) => Steps.OpenReadyInv(cfg, g, k);
    case OReturn(k) => Steps.OpenReturnInv(cfg, g, k);
  }

  lemma IoStepInv(cfg: Config, g: Global, a: IoStep)
    requires Core(cfg, g) && IoEnabled(cfg, g, a)
    ensures Core(cfg, IoApply(cfg, g, a))
  {
    match a
    case RBegin(c, fd, count) => Steps.ReadBeginInv(cfg, g, c, fd, count);
    case PBegin(c, fd, count, offset) => Steps.PreadBeginInv(cfg, g, c, fd, count, offset);
    case RWait(k) => Steps.WaitReturnInv(cfg, g, k);
    case RDispatch(k, ok) => Steps.ReadDispatchInv(cfg, g, k, ok);
    case RServe(k, n) => Served.SrvReadInv(cfg, g, k, n);
    case RBulk(k) => Steps.BulkDoneInv(cfg, g, k);
    case RReturn(k) => Steps.ReadReturnInv(cfg, g, k);
    case RLocal(k, n) => Steps.LocalDoneInv(cfg, g, k, n);
    case SBegin(c, fd, off, whence) => Steps.SeekBeginInv(cfg, g, c, fd, off, whence);
    case SServe(k, wild) => Served.SrvSeekInv(cfg, g, k, wild);
    case SReturn(k) => Steps.SeekReturnInv(cfg, g, k);
  }

  lemma CloseStepInv(cfg: Config, g: Global, a: CloseStep)
    requires Core(cfg, g) && CloseEnabled(cfg, g, a)
    requires a.CInner? ==> Server.Books(cfg, a.s, g.sv[a.s])
    ensures Core(cfg, CloseApply(cfg, g, a))
  {
    match a
    case CBegin(c, fd, ok) => Served.CloseBeginInv(cfg, g, c, fd, ok);
    case CCleanup(k) => Steps.CloseCleanupInv(cfg, g, k);
    case CForget(k) => Steps.CloseForgetInv(cfg, g, k);
    case CReal(k) => Steps.CloseRealInv(cfg, g, k);
    case CServe(k) => Served.SrvCloseInv(cfg, g, k);
    case CInner(s, act) => Served.SrvInnerInv(cfg, g, s, act);
  }

  lemma OnServerInv(cfg: Config, g: Global, s: nat, a: Server.Act)
    requires ServersOk(cfg, g) && s < |g.sv| && Server.Enabled(cfg, g.sv[s], a) && Server.Routed(cfg, s, a)
    ensures ServersOk(cfg, OnServer(cfg, g, s, a))
  {
    Server.StepInv(cfg, s, g.sv[s], a);
  }

  lemma OpenServers(cfg: Config, g: Global, a: OpenStep)
    requires Inv(cfg, g) && OpenEnabled(cfg, g, a)
    ensures ServersOk(cfg, OpenApply(cfg, g, a))
  {
    if a.OServe? {
      var k := a.k;
      assert OpOk(cfg, g, k);
      assert FdOk(cfg, g, g.ops[k].c, g.ops[k].fd);
      OnServerInv(cfg, g, Host(cfg, g.ops[k].at.path), Server.Open(g.ops[k].at.path, a.r));
    } else {
      assert OpenApply(cfg, g, a).sv == g.sv;
    }
  }

  lemma IoServers(cfg: Config, g: Global, a: IoStep)
    requires ServersOk(cfg, g) && IoEnabled(cfg, g, a)
    ensures ServersOk(cfg, IoApply(cfg, g, a))
  {
    if a.RServe? {
      OnServerInv(cfg, g, g.ops[a.k].at.server, ReadAct(g.ops[a.k].at, a.n));
    } else if a.SServe? && g.ops[a.k].at.rfd in g.sv[g.ops[a.k].at.server].kernel {
      OnServerInv(cfg, g, g.ops[a.k].at.server, SeekAct(g.ops[a.k].at));
    } else {
      assert IoApply(cfg, g, a).sv == g.sv;
    }
  }

  lemma CloseServers(cfg: Config, g: Global, a: CloseStep)
    requires ServersOk(cfg, g) && CloseEnabled(cfg, g, a)
    ensures ServersOk(cfg, CloseApply(cfg, g, a))
  {
    if a.CServe? {
      OnServerInv(cfg, g, g.ops[a.k].at.server, Server.CloseTest(g.ops[a.k].at.rfd));
    } else if a.CInner? {
      OnServerInv(cfg, g, a.s, a.act);
    } else {
      assert CloseApply(cfg, g, a).sv == g.sv;
    }
  }

  lemma StepInv(cfg: Config, g: Global, a: Action)
    requires Inv(cfg, g) && Enabled(cfg, g, a)
    ensures Inv(cfg, Apply(cfg, g, a))
  {
    match a
    case OfOpen(o) =>
      OpenServers(cfg, g, o);
      OpenStepInv(cfg, g, o);
    case OfIo(io) =>
      IoServers(cfg, g, io);
      IoStepInv(cfg, g, io);
    case OfClose(x) =>
      CloseServers(cfg, g, x);
      if x.CInner? { assert Server.Inv(cfg, x.s, g.sv[x.s]); }
      CloseStepInv(cfg, g, x);
  }

  lemma {:induction false} RunInv(cfg: Config, g: Global, run: seq<Action>)
    requires Inv(cfg, g) && Valid(cfg, g, run)
    ensures Inv(cfg, After(cfg, g, run))
    decreases |run|
  {
    if run != [] {
      StepInv(cfg, g, run[0]);
      RunInv(cfg, Apply(cfg, g, run[0]), run[1..]);
    }
  }
}
