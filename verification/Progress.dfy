// No thread and no message of the job is ever stuck: whatever the others did, it has a
// step of its own to take, or waits for a close handler that has one.
module Progress {
  import opened Files
  import opened FdTables
  import opened Protocol
  import opened ProtocolInv
  import opened Settling
  import Resources
  import Transparency
  import Server
  import ServerRuns

  // Action `a` is a step of operation k.
  ghost predicate StepOf(a: Action, k: nat)
  {
    match a
    case OfOpen(o) => !o.OBegin? && o.k == k
    case OfIo(io) => !io.RBegin? && !io.PBegin? && !io.SBegin? && io.k == k
    case OfClose(x) => !x.CBegin? && !x.CInner? && x.k == k
  }

  ghost predicate CanStep(cfg: Config, g: Global, k: nat)
  {
    exists a :: StepOf(a, k) && Enabled(cfg, g, a)
  }

  // The server whose handler operation k waits for, if any.
  ghost function WaitsFor(cfg: Config, st: Stage): Option<nat>
    requires cfg.count > 0
  {
    match st
    case OpenReq(p) => Some(Host(cfg, p))
    case ReadReq(s, _, _, _) => Some(s)
    case SeekReq(s, _, _, _) => Some(s)
    case CloseReq(s, _, _) => Some(s)
    case _ => None
  }

  // The position a seek would reach can be sent back.
  ghost predicate SeekFits(cfg: Config, g: Global, st: Stage)
  {
    st.SeekReq? && st.server < |g.sv| && st.rfd in g.sv[st.server].kernel ==>
      FitsInt32(Server.SeekResult(cfg, g.sv[st.server], st.rfd, st.soff, st.whence))
  }

  lemma OpenSteps(cfg: Config, g: Global, k: nat)
    requires Has(g, k) && IsOpen(g.ops[k].at) && cfg.count > 0
    requires var st := g.ops[k].at;
             st.OpenReq? ==> Host(cfg, st.path) < |g.sv| && g.sv[Host(cfg, st.path)].closing.None?
    ensures CanStep(cfg, g, k)
  {
    var o := match g.ops[k].at
      case Opened(_) => ORegister(k)
      case Registered(_) => OMark(k)
      case Opening(_) => ODispatch(k, true)
      case OpenReq(_) => OServe(k, -1)
      case OpenResp(_, _) => OMap(k)
      case OpenMapped(_, _) => OReady(k)
      case _ => OReturn(k);
    assert OpenEnabled(cfg, g, o);
    assert StepOf(OfOpen(o), k) && Enabled(cfg, g, OfOpen(o));
  }

  lemma CloseSteps(cfg: Config, g: Global, k: nat)
    requires Has(g, k) && IsClosing(g.ops[k].at)
    ensures CanStep(cfg, g, k)
  {
    var x := match g.ops[k].at
      case CloseUnmapped => CCleanup(k)
      case CloseCleaned => CForget(k)
      case _ => CReal(k);
    assert StepOf(OfClose(x), k) && Enabled(cfg, g, OfClose(x));
  }

  lemma LocalReadSteps(cfg: Config, g: Global, k: nat)
    requires Has(g, k) && OpOk(cfg, g, k) && FdOk(cfg, g, g.ops[k].c, g.ops[k].fd) && g.ops[k].at.ReadLocal?
    ensures CanStep(cfg, g, k)
  {
    var size, pos, count := |cfg.disk[Mine(g, k).local[g.ops[k].fd].path]|, LocalPos(g, k), g.ops[k].at.count;
    LengthExists(size, pos, count);
    var n: int :| 0 <= n <= count && ReadLength(size, pos, count, n);
    assert StepOf(OfIo(RLocal(k, n)), k) && Enabled(cfg, g, OfIo(RLocal(k, n)));
  }

  // Waiting for nobody: even a wait for READY has its timeout.
  lemma IoSteps(cfg: Config, g: Global, k: nat)
    requires Has(g, k) && IsIo(g.ops[k].at)
    requires !g.ops[k].at.ReadLocal? && !g.ops[k].at.ReadReq? && !g.ops[k].at.SeekReq?
    ensures CanStep(cfg, g, k)
  {
    var io := match g.ops[k].at
      case ReadWait(_, _, _) => RWait(k)
      case ReadReady(_, _, _) => RDispatch(k, true)
      case ReadBulk(_) => RBulk(k)
      case ReadResp(_) => RReturn(k)
      case _ => SReturn(k);
    assert StepOf(OfIo(io), k) && Enabled(cfg, g, OfIo(io));
  }

  lemma SeekSteps(cfg: Config, g: Global, k: nat)
    requires Has(g, k) && g.ops[k].at.SeekReq? && SeekFits(cfg, g, g.ops[k].at)
    requires g.ops[k].at.server < |g.sv| && g.sv[g.ops[k].at.server].closing.None?
    ensures CanStep(cfg, g, k)
  {
    assert StepOf(OfIo(SServe(k, 0)), k) && Enabled(cfg, g, OfIo(SServe(k, 0)));
  }

  lemma RequestSteps(cfg: Config, g: Global, k: nat)
    requires Inv(cfg, g) && Has(g, k) && (g.ops[k].at.ReadReq? || g.ops[k].at.CloseReq?)
    requires g.ops[k].at.server < |g.sv| && g.sv[g.ops[k].at.server].closing.None?
    ensures CanStep(cfg, g, k)
  {
    if g.ops[k].at.ReadReq? {
      Resources.ReadsCanBeServed(cfg, g, k);
      var n: nat :| CanSrvRead(cfg, g, k, n);
      assert StepOf(OfIo(RServe(k, n)), k) && Enabled(cfg, g, OfIo(RServe(k, n)));
    } else {
      Resources.RequestsNameOpenFds(cfg, g, k);
      assert StepOf(OfClose(CServe(k)), k) && Enabled(cfg, g, OfClose(CServe(k)));
    }
  }

  lemma WaitsForAServer(cfg: Config, g: Global, k: nat)
    requires Inv(cfg, g) && k in g.ops
    ensures Has(g, k) && OpOk(cfg, g, k) && FdOk(cfg, g, g.ops[k].c, g.ops[k].fd)
    ensures WaitsFor(cfg, g.ops[k].at).Some? ==> WaitsFor(cfg, g.ops[k].at).value < |g.sv|
  {
    assert OpOk(cfg, g, k);
    if g.ops[k].at.CloseReq? { Resources.RequestsNameOpenFds(cfg, g, k); }
    if g.ops[k].at.ReadReq? { Resources.ReadsCanBeServed(cfg, g, k); }
  }

  lemma HandlerCanFinish(cfg: Config, g: Global, s: nat)
    requires ServersOk(cfg, g) && s < |g.sv| && g.sv[s].closing.Some?
    ensures Enabled(cfg, g, OfClose(CInner(s, Server.ClosePush)))
  {
    assert Server.Inv(cfg, s, g.sv[s]);
  }

  // In every reachable state every operation can take a step of its own, unless the
  // server it waits for is inside a close handler, which then can finish.  (A seek whose
  // result does not fit 32 bits is outside this model.)
  lemma NobodyIsStuck(cfg: Config, g: Global, k: nat)
    requires Inv(cfg, g) && k in g.ops && SeekFits(cfg, g, g.ops[k].at)
    ensures WaitsFor(cfg, g.ops[k].at).Some? ==> WaitsFor(cfg, g.ops[k].at).value < |g.sv|
    ensures var w := WaitsFor(cfg, g.ops[k].at);
            if w.Some? && g.sv[w.value].closing.Some?
            then Enabled(cfg, g, OfClose(CInner(w.value, Server.ClosePush)))
            else CanStep(cfg, g, k)
  {
    WaitsForAServer(cfg, g, k);
    var st, w := g.ops[k].at, WaitsFor(cfg, g.ops[k].at);
    if w.Some? && g.sv[w.value].closing.Some? {
      HandlerCanFinish(cfg, g, w.value);
    } else if IsOpen(st) {
      OpenSteps(cfg, g, k);
    } else if IsClosing(st) {
      CloseSteps(cfg, g, k);
    } else if st.ReadLocal? {
      LocalReadSteps(cfg, g, k);
    } else if st.SeekReq? {
      SeekSteps(cfg, g, k);
    } else if st.ReadReq? || st.CloseReq? {
      RequestSteps(cfg, g, k);
    } else {
      IoSteps(cfg, g, k);
    }
  }

  // Whatever the application may call can begin, with any arguments and while any other
  // operations are under way: an open of a file with an fd that is not in use, a read or
  // pread of an open fd nobody is closing, a seek of a tracked one, and the close of an fd
  // nobody else uses, whether or not its message can be sent.
  lemma CallsCanBegin(cfg: Config, g: Global, c: nat, fd: int, count: nat, offset: nat, off: int, whence: Whence)
    requires Inv(cfg, g) && c < |g.cl| && 1 <= count < 0x8000_0000
    ensures fd >= 0 && fd !in g.cl[c].local ==>
              forall p, tracked: bool :: p in cfg.disk ==> Enabled(cfg, g, OfOpen(OBegin(c, fd, p, tracked)))
    ensures fd in g.cl[c].local && (forall k :: IsOn(g, k, c, fd) ==> !IsClosing(g.ops[k].at)) ==>
              && Enabled(cfg, g, OfIo(RBegin(c, fd, count)))
              && Enabled(cfg, g, OfIo(PBegin(c, fd, count, offset)))
              && (fd in g.cl[c].fdMap ==> Enabled(cfg, g, OfIo(SBegin(c, fd, off, whence))))
    ensures fd in g.cl[c].local && (forall k :: IsOn(g, k, c, fd) ==> g.ops[k].at.CloseReq?) ==>
              forall ok: bool :: Enabled(cfg, g, OfClose(CBegin(c, fd, ok)))
  {
    if forall k :: IsOn(g, k, c, fd) ==> !IsClosing(g.ops[k].at) {
      forall k | k in g.ops && g.ops[k].c == c && g.ops[k].fd == fd ensures !IsClosing(g.ops[k].at) {
        assert IsOn(g, k, c, fd);
      }
    }
    if forall k :: IsOn(g, k, c, fd) ==> g.ops[k].at.CloseReq? {
      forall k | k in g.ops && g.ops[k].c == c && g.ops[k].fd == fd ensures g.ops[k].at.CloseReq? {
        assert IsOn(g, k, c, fd);
      }
    }
  }

  // Every failure can strike: a send, a wait that times out, an open that the server
  // refuses or answers with any fd that is free there, a read that comes back short.
  lemma FailuresCanStrike(cfg: Config, g: Global, k: nat, r: int, n: nat)
    requires Inv(cfg, g) && k in g.ops
    ensures g.ops[k].at.Opening? ==> Enabled(cfg, g, OfOpen(ODispatch(k, false)))
    ensures g.ops[k].at.ReadWait? ==> Enabled(cfg, g, OfIo(RWait(k)))
    ensures g.ops[k].at.ReadReady? ==> Enabled(cfg, g, OfIo(RDispatch(k, false)))
    ensures g.ops[k].at.OpenReq? ==>
              var s := Host(cfg, g.ops[k].at.path);
              && s < |g.sv|
              && (g.sv[s].closing.None? && (r == -1 || (r >= 0 && r !in g.sv[s].kernel)) ==>
                    Enabled(cfg, g, OfOpen(OServe(k, r))))
    ensures g.ops[k].at.ReadReq? ==>
              var st, c, fd := g.ops[k].at, g.ops[k].c, g.ops[k].fd;
              && c < |g.cl| && fd in g.cl[c].local && g.cl[c].local[fd].path in cfg.disk
              && st.server < |g.sv| && st.rfd in g.sv[st.server].kernel
              && var pos := if st.offset < 0 then g.sv[st.server].kernel[st.rfd].cursor else st.offset;
              && var fits := 0 < n <= st.count && pos + n <= |cfg.disk[g.cl[c].local[fd].path]|;
              && (g.sv[st.server].closing.None? && fits ==> Enabled(cfg, g, OfIo(RServe(k, n))))
  {
    WaitsForAServer(cfg, g, k);
    if g.ops[k].at.ReadReq? {
      Transparency.RequestSynced(cfg, g, k);
    }
  }

  // Every mover of every server goes on beside all that, at every point of its loop.
  lemma MoversGoOn(cfg: Config, g: Global, s: nat)
    requires Inv(cfg, g) && s < |g.sv|
    ensures g.sv[s].phase.Waiting? ==> Enabled(cfg, g, OfClose(CInner(s, Server.Wake)))
    ensures !g.sv[s].phase.Waiting? ==>
              exists a :: Server.IsMover(a) && !a.Wake? && Enabled(cfg, g, OfClose(CInner(s, a)))
  {
    assert Server.Inv(cfg, s, g.sv[s]);
    if !g.sv[s].phase.Waiting? {
      ServerRuns.MoverNeverStuck(cfg, s, g.sv[s]);
      var a :| Server.IsMover(a) && !a.Wake? && Server.Enabled(cfg, g.sv[s], a);
      assert Enabled(cfg, g, OfClose(CInner(s, a)));
    }
  }
}
