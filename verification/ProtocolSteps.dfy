// The actions that leave servers and owners alone keep the invariant.
module ProtocolSteps {
  import opened Files
  import opened FdTables
  import opened Protocol
  import opened ProtocolInv
  import opened ProtocolFrame
  import Posix

  lemma Facts(cfg: Config, g: Global, k: nat)
    requires Core(cfg, g) && Has(g, k)
    ensures OpOk(cfg, g, k) && FdOk(cfg, g, g.ops[k].c, g.ops[k].fd)
  {
  }

  // A thread that reads or seeks minds neither status nor new entries in the maps.
  lemma Bystander(cfg: Config, g: Global, t: Global, j: nat)
    requires j in g.ops && OpOk(cfg, g, j) && j in t.ops && t.ops[j] == g.ops[j]
    requires !g.ops[j].at.CloseReq? && !IsOpen(g.ops[j].at) && !IsClosing(g.ops[j].at)
    requires |t.cl| == |g.cl| && g.next <= t.next
    requires var x, y, fd := g.cl[g.ops[j].c], t.cl[g.ops[j].c], g.ops[j].fd;
             && (fd in x.local ==> fd in y.local)
             && (fd in x.fdMap ==> fd in y.fdMap && y.fdMap[fd] == x.fdMap[fd])
             && (Mapped(x, fd) ==> fd in y.redir && y.redir[fd] == x.redir[fd])
    requires (j in g.lin <==> j in t.lin) && (j in g.lin ==> t.lin[j] == g.lin[j])
    requires OwnersSeenBy(g, t, j)
    ensures OpOk(cfg, t, j)
  {
  }

  // The threads beside an open that moves on.
  lemma Bystanders(cfg: Config, g: Global, t: Global, k: nat)
    requires OpsOk(cfg, g) && PairsOk(g) && Has(g, k) && IsOpen(g.ops[k].at)
    requires Frame(g, t, k, g.ops[k].c, g.ops[k].fd)
    requires forall x :: x in g.owner && (g.owner[x] != ByOp(k)) ==> x in t.owner && t.owner[x] == g.owner[x]
    requires var x, y, fd := g.cl[g.ops[k].c], t.cl[g.ops[k].c], g.ops[k].fd;
             && (fd in x.local ==> fd in y.local)
             && (fd in x.fdMap ==> fd in y.fdMap && y.fdMap[fd] == x.fdMap[fd])
             && (Mapped(x, fd) ==> fd in y.redir && y.redir[fd] == x.redir[fd])
    requires k in t.ops ==> OpOk(cfg, t, k)
    ensures OpsOk(cfg, t)
  {
    forall j | j != k && On(g, j, g.ops[k].c, g.ops[k].fd) ensures OpOk(cfg, t, j) {
      assert Compatible(g, j, k);
      Bystander(cfg, g, t, j);
    }
    WideOps(cfg, g, t, k, g.ops[k].c, g.ops[k].fd);
  }

  // close(2) has its fd for itself.
  lemma Alone(g: Global, k: nat)
    requires PairsOk(g) && Has(g, k) && IsClosing(g.ops[k].at)
    ensures forall j :: j != k ==> !On(g, j, g.ops[k].c, g.ops[k].fd)
  {
    forall j | j != k && j in g.ops ensures !On(g, j, g.ops[k].c, g.ops[k].fd) {
      assert Compatible(g, j, k);
    }
  }

  lemma NotBeingClosed(g: Global, k: nat)
    requires PairsOk(g) && Has(g, k) && !g.ops[k].at.CloseReq? && !IsClosing(g.ops[k].at)
    ensures !BeingClosed(g, g.ops[k].c, g.ops[k].fd)
  {
    forall m | m in g.ops ensures g.ops[m] != Op(g.ops[k].c, g.ops[k].fd, CloseUnmapped) {
      assert Compatible(g, m, k);
    }
  }

  lemma NoRemote(cfg: Config, g: Global, c: nat, fd: int)
    requires OwnersOk(cfg, g) && c < |g.cl| && !Mapped(g.cl[c], fd)
    ensures forall x :: x in g.owner ==> g.owner[x] != ByClient(c, fd)
  {
    forall x | x in g.owner ensures g.owner[x] != ByClient(c, fd) { assert OwnerOk(cfg, g, x); }
  }

  lemma UnownedOwners(cfg: Config, g: Global, t: Global, k: nat, c: nat, fd: int)
    requires OwnersOk(cfg, g) && Frame(g, t, k, c, fd) && t.sv == g.sv && t.owner == g.owner
    requires !Mapped(g.cl[c], fd) && (k in g.ops ==> !g.ops[k].at.OpenResp? && !g.ops[k].at.CloseReq?)
    ensures OwnersOk(cfg, t)
  {
    NoRemote(cfg, g, c, fd);
    forall x | x in g.owner ensures OwnerOk(cfg, t, x) {
      assert OwnerOk(cfg, g, x);
      OtherOwner(cfg, g, t, k, c, fd, x);
    }
  }

  // A stage of the same family leaves the pairing of threads as it was.
  ghost predicate Successor(old_: Stage, new_: Stage)
  {
    (IsOpen(new_) ==> IsOpen(old_)) && (IsClosing(new_) ==> IsClosing(old_)) && !old_.CloseReq? && !new_.CloseReq?
  }

  lemma SuccessorPairs(g: Global, t: Global, k: nat, c: nat, fd: int)
    requires PairsOk(g) && Frame(g, t, k, c, fd) && k in g.ops && k in t.ops
    requires Successor(g.ops[k].at, t.ops[k].at)
    ensures PairsOk(t)
  {
    forall m | m in t.ops ensures Compatible(t, m, k) { assert Compatible(g, m, k); }
    WidePairs(g, t, k, c, fd);
  }

  // What a step shows when it leaves its own fd as the other threads on it need it.
  ghost predicate Steady(cfg: Config, g: Global, t: Global, k: nat, c: nat, fd: int)
  {
    && Frame(g, t, k, c, fd) && KeepsOwners(g, t, k, c, fd)
    && (forall x :: x in g.owner && g.owner[x] == ByClient(c, fd) ==> x in t.owner && t.owner[x] == g.owner[x])
    && Stable(g.cl[c], t.cl[c], fd)
    && (Unused(g, c, fd) ==> Unused(t, c, fd) || Mapped(g.cl[c], fd))
    && k in g.ops
    && (k in t.ops ==> Successor(g.ops[k].at, t.ops[k].at) && OpOk(cfg, t, k))
    && FdOk(cfg, t, c, fd)
    && Logs(t)
  }

  lemma SteadyStep(cfg: Config, g: Global, t: Global, k: nat, c: nat, fd: int)
    requires Core(cfg, g) && Steady(cfg, g, t, k, c, fd) && OwnersOk(cfg, t)
    ensures Core(cfg, t)
  {
    SteadyOps(cfg, g, t, k, c, fd);
    if k in t.ops { SuccessorPairs(g, t, k, c, fd); } else { WidePairs(g, t, k, c, fd); }
    WideFds(cfg, g, t, k, c, fd);
  }

  // Nothing changes but the stage of operation k, or k is over.
  lemma StageStep(cfg: Config, g: Global, t: Global, k: nat)
    requires Core(cfg, g) && Has(g, k)
    requires t.cl == g.cl && t.sv == g.sv && t.owner == g.owner && t.spec == g.spec
    requires t.lin == g.lin && t.next == g.next
    requires Frame(g, t, k, g.ops[k].c, g.ops[k].fd) && Logs(t)
    requires !g.ops[k].at.OpenResp? && !g.ops[k].at.CloseReq? && !g.ops[k].at.CloseUnmapped?
    requires k in t.ops ==> Successor(g.ops[k].at, t.ops[k].at) && OpOk(cfg, t, k)
    ensures Core(cfg, t)
  {
    var c, fd := g.ops[k].c, g.ops[k].fd;
    SteadyOps(cfg, g, t, k, c, fd);
    if k in t.ops { SuccessorPairs(g, t, k, c, fd); } else { WidePairs(g, t, k, c, fd); }
    SteadyFds(cfg, g, t, k, c, fd);
    SteadyOwners(cfg, g, t, k, c, fd);
  }

  lemma WaitReturnInv(cfg: Config, g: Global, k: nat)
    requires Core(cfg, g) && Has(g, k) && g.ops[k].at.ReadWait?
    ensures Core(cfg, WaitReturn(g, k))
  {
    Facts(cfg, g, k);
    NotBeingClosed(g, k);
    var t := WaitReturn(g, k);
    assert OpOk(cfg, t, k);
    StageStep(cfg, g, t, k);
  }

  lemma ReadDispatchOp(cfg: Config, g: Global, k: nat, ok: bool)
    requires Has(g, k) && g.ops[k].at.ReadReady? && OpOk(cfg, g, k) && FdOk(cfg, g, g.ops[k].c, g.ops[k].fd) && Logs(g)
    ensures var t := ReadDispatch(g, k, ok);
            && k in t.ops && Successor(g.ops[k].at, t.ops[k].at) && OpOk(cfg, t, k)
            && t.cl == g.cl && Frame(g, t, k, g.ops[k].c, g.ops[k].fd) && Logs(t)
  {
  }

  lemma ReadDispatchInv(cfg: Config, g: Global, k: nat, ok: bool)
    requires Core(cfg, g) && Has(g, k) && g.ops[k].at.ReadReady?
    ensures Core(cfg, ReadDispatch(g, k, ok))
  {
    Facts(cfg, g, k);
    var t := ReadDispatch(g, k, ok);
    ReadDispatchOp(cfg, g, k, ok);
    StageStep(cfg, g, t, k);
  }

  lemma BulkDoneInv(cfg: Config, g: Global, k: nat)
    requires Core(cfg, g) && Has(g, k) && g.ops[k].at.ReadBulk?
    ensures Core(cfg, BulkDone(g, k))
  {
    Facts(cfg, g, k);
    StageStep(cfg, g, BulkDone(g, k), k);
  }

  lemma ReadReturnInv(cfg: Config, g: Global, k: nat)
    requires Core(cfg, g) && Has(g, k) && g.ops[k].at.ReadResp?
    ensures Core(cfg, ReadReturn(g, k))
  {
    Facts(cfg, g, k);
    StageStep(cfg, g, ReadReturn(g, k), k);
  }

  lemma SeekReturnInv(cfg: Config, g: Global, k: nat)
    requires Core(cfg, g) && Has(g, k) && g.ops[k].at.SeekResp?
    ensures Core(cfg, SeekReturn(g, k))
  {
    Facts(cfg, g, k);
    StageStep(cfg, g, SeekReturn(g, k), k);
  }

  lemma OpenReturnInv(cfg: Config, g: Global, k: nat)
    requires Core(cfg, g) && Has(g, k) && g.ops[k].at.OpenSettled?
    ensures Core(cfg, OpenReturn(g, k))
  {
    StageStep(cfg, g, OpenReturn(g, k), k);
  }

  // An open under way changes the maps at its own fd only by adding to them.
  lemma OpenStage(cfg: Config, g: Global, t: Global, k: nat)
    requires Core(cfg, g) && Has(g, k) && IsOpen(g.ops[k].at) && !g.ops[k].at.OpenResp?
    requires Frame(g, t, k, g.ops[k].c, g.ops[k].fd) && Logs(t)
    requires t.sv == g.sv && t.owner == g.owner && t.spec == g.spec
    requires var x, y, fd := g.cl[g.ops[k].c], t.cl[g.ops[k].c], g.ops[k].fd;
             && y.local == x.local && y.redir == x.redir
             && (fd in x.fdMap ==> fd in y.fdMap && y.fdMap[fd] == x.fdMap[fd])
    requires k in t.ops ==> IsOpen(t.ops[k].at) && OpOk(cfg, t, k)
    requires FdOk(cfg, t, g.ops[k].c, g.ops[k].fd)
    ensures Core(cfg, t)
  {
    var c, fd := g.ops[k].c, g.ops[k].fd;
    Bystanders(cfg, g, t, k);
    if k in t.ops { SuccessorPairs(g, t, k, c, fd); } else { WidePairs(g, t, k, c, fd); }
    WideFds(cfg, g, t, k, c, fd);
    SteadyOwners(cfg, g, t, k, c, fd);
  }

  lemma OpenRegisterInv(cfg: Config, g: Global, k: nat)
    requires Core(cfg, g) && Has(g, k) && g.ops[k].at.Opened?
    ensures Core(cfg, OpenRegister(g, k))
  {
    Facts(cfg, g, k);
    OpenStage(cfg, g, OpenRegister(g, k), k);
  }

  lemma OpenMarkInv(cfg: Config, g: Global, k: nat)
    requires Core(cfg, g) && Has(g, k) && g.ops[k].at.Registered?
    ensures Core(cfg, OpenMark(g, k))
  {
    Facts(cfg, g, k);
    OpenStage(cfg, g, OpenMark(g, k), k);
  }

  // Only the status of the fd at hand changes.
  lemma StatusFrame(g: Global, k: nat, x: Client, st: Stage)
    requires Has(g, k) && k < g.next && Logs(g) && x == g.cl[g.ops[k].c].(status := x.status)
    requires forall e :: e != g.ops[k].fd ==>
               var was := g.cl[g.ops[k].c].status;
               (e in was <==> e in x.status) && (e in was ==> x.status[e] == was[e])
    ensures Frame(g, Go(g, k, x, st), k, g.ops[k].c, g.ops[k].fd) && Logs(Go(g, k, x, st))
  {
  }

  lemma EndFrame(g: Global, k: nat, x: Client)
    requires Has(g, k) && k < g.next && Logs(g) && x == g.cl[g.ops[k].c].(status := x.status)
    requires forall e :: e != g.ops[k].fd ==>
               var was := g.cl[g.ops[k].c].status;
               (e in was <==> e in x.status) && (e in was ==> x.status[e] == was[e])
    ensures Frame(g, Finish(g, k, x), k, g.ops[k].c, g.ops[k].fd) && Logs(Finish(g, k, x))
  {
  }

  lemma OpenSentOp(cfg: Config, g: Global, k: nat)
    requires Has(g, k) && g.ops[k].at.Opening? && OpOk(cfg, g, k) && Logs(g)
    ensures var t := OpenDispatch(g, k, true);
            && k in t.ops && Successor(g.ops[k].at, t.ops[k].at) && OpOk(cfg, t, k)
            && t.cl == g.cl && Frame(g, t, k, g.ops[k].c, g.ops[k].fd) && Logs(t)
  {
  }

  lemma OpenDispatchInv(cfg: Config, g: Global, k: nat, ok: bool)
    requires Core(cfg, g) && Has(g, k) && g.ops[k].at.Opening?
    ensures Core(cfg, OpenDispatch(g, k, ok))
  {
    Facts(cfg, g, k);
    if ok {
      OpenSentOp(cfg, g, k);
      StageStep(cfg, g, OpenDispatch(g, k, ok), k);
    } else {
      EndFrame(g, k, SetError(Mine(g, k), g.ops[k].fd));
      OpenStage(cfg, g, OpenDispatch(g, k, ok), k);
    }
  }

  lemma OpenReadyInv(cfg: Config, g: Global, k: nat)
    requires Core(cfg, g) && Has(g, k) && g.ops[k].at.OpenMapped?
    ensures Core(cfg, OpenReady(g, k))
  {
    Facts(cfg, g, k);
    StatusFrame(g, k, SetReady(Mine(g, k), g.ops[k].fd), OpenSettled);
    OpenStage(cfg, g, OpenReady(g, k), k);
  }

  // close(2) after its message left: it has the fd to itself and no mapping.
  lemma CloseStage(cfg: Config, g: Global, t: Global, k: nat)
    requires Core(cfg, g) && Has(g, k) && IsClosing(g.ops[k].at) && !Mapped(g.cl[g.ops[k].c], g.ops[k].fd)
    requires Frame(g, t, k, g.ops[k].c, g.ops[k].fd) && Logs(t)
    requires t.sv == g.sv && t.owner == g.owner
    requires k in t.ops ==> IsClosing(t.ops[k].at) && OpOk(cfg, t, k)
    requires FdOk(cfg, t, g.ops[k].c, g.ops[k].fd)
    ensures Core(cfg, t)
  {
    var c, fd := g.ops[k].c, g.ops[k].fd;
    Alone(g, k);
    WideOps(cfg, g, t, k, c, fd);
    if k in t.ops { SuccessorPairs(g, t, k, c, fd); } else { WidePairs(g, t, k, c, fd); }
    WideFds(cfg, g, t, k, c, fd);
    UnownedOwners(cfg, g, t, k, c, fd);
  }

  lemma CloseCleanupInv(cfg: Config, g: Global, k: nat)
    requires Core(cfg, g) && Has(g, k) && g.ops[k].at.CloseUnmapped?
    ensures Core(cfg, CloseCleanup(g, k))
  {
    Facts(cfg, g, k);
    CloseStage(cfg, g, CloseCleanup(g, k), k);
  }

  lemma CloseForgetInv(cfg: Config, g: Global, k: nat)
    requires Core(cfg, g) && Has(g, k) && g.ops[k].at.CloseCleaned?
    ensures Core(cfg, CloseForget(g, k))
  {
    Facts(cfg, g, k);
    CloseStage(cfg, g, CloseForget(g, k), k);
  }

  lemma CloseRealInv(cfg: Config, g: Global, k: nat)
    requires Core(cfg, g) && Has(g, k) && g.ops[k].at.CloseForgot?
    ensures Core(cfg, CloseReal(g, k))
  {
    Facts(cfg, g, k);
    CloseStage(cfg, g, CloseReal(g, k), k);
  }

  lemma FreshId(cfg: Config, g: Global)
    requires OpsOk(cfg, g) && Logs(g)
    ensures forall j :: j >= g.next ==> j !in g.ops && j !in g.lin && j !in g.log
  {
    forall j | j in g.ops ensures j < g.next { assert OpOk(cfg, g, j); }
  }

  lemma NobodyOn(cfg: Config, g: Global, c: nat, fd: int)
    requires OpsOk(cfg, g) && c < |g.cl| && fd !in g.cl[c].local
    ensures forall j :: !On(g, j, c, fd)
  {
    forall j ensures !On(g, j, c, fd) {
      if j in g.ops { assert OpOk(cfg, g, j); }
    }
  }

  lemma OpenBeginInv(cfg: Config, g: Global, c: nat, fd: int, p: Path, tracked: bool)
    requires Core(cfg, g) && CanOpenBegin(cfg, g, c, fd, p)
    ensures Core(cfg, OpenBegin(cfg, g, c, fd, p, tracked))
  {
    var t, k := OpenBegin(cfg, g, c, fd, p, tracked), g.next;
    FreshId(cfg, g);
    assert Frame(g, t, k, c, fd);
    NobodyOn(cfg, g, c, fd);
    assert FdOk(cfg, g, c, fd);
    WideOps(cfg, g, t, k, c, fd);
    if tracked {
      forall m | m in t.ops ensures Compatible(t, m, k) { assert m != k ==> !On(g, m, c, fd); }
    }
    WidePairs(g, t, k, c, fd);
    WideFds(cfg, g, t, k, c, fd);
    UnownedOwners(cfg, g, t, k, c, fd);
  }

  // A thread that starts to read or seek beside whatever else happens on its fd.
  lemma BeginFrame(g: Global, c: nat, fd: int, y: Client, st: Stage)
    requires Logs(g) && c < |g.cl| && (y == g.cl[c] || y == Touch(g.cl[c], fd))
    requires g.next !in g.ops && g.next !in g.lin
    ensures var t := Begin(g, c, fd, y, st);
            && Frame(g, t, g.next, c, fd) && KeepsOwners(g, t, g.next, c, fd) && Logs(t)
            && Stable(g.cl[c], t.cl[c], fd) && SameAt(g.cl[c], t.cl[c], fd)
            && t.sv == g.sv && t.owner == g.owner && t.spec == g.spec
  {
  }

  lemma BeginPairs(g: Global, c: nat, fd: int, y: Client, st: Stage)
    requires PairsOk(g) && c < |g.cl| && NotClosing(g, c, fd) && g.next !in g.ops
    requires !IsOpen(st) && !IsClosing(st) && Frame(g, Begin(g, c, fd, y, st), g.next, c, fd)
    ensures PairsOk(Begin(g, c, fd, y, st))
  {
    WidePairs(g, Begin(g, c, fd, y, st), g.next, c, fd);
  }

  lemma BeginIo(cfg: Config, g: Global, c: nat, fd: int, y: Client, st: Stage)
    requires Core(cfg, g) && c < |g.cl| && fd in g.cl[c].local && NotClosing(g, c, fd)
    requires y == g.cl[c] || y == Touch(g.cl[c], fd)
    requires !IsOpen(st) && !IsClosing(st) && !st.CloseReq?
    requires var t := Begin(g, c, fd, y, st); g.next in t.ops && OpOk(cfg, t, g.next)
    ensures Core(cfg, Begin(g, c, fd, y, st))
  {
    var t, k := Begin(g, c, fd, y, st), g.next;
    FreshId(cfg, g);
    BeginFrame(g, c, fd, y, st);
    assert OpsOk(cfg, t) by { SteadyOps(cfg, g, t, k, c, fd); }
    assert PairsOk(t) by { BeginPairs(g, c, fd, y, st); }
    assert FdsOk(cfg, t) by { SteadyFds(cfg, g, t, k, c, fd); }
    assert OwnersOk(cfg, t) by { SteadyOwners(cfg, g, t, k, c, fd); }
  }

  lemma ReadBeginInv(cfg: Config, g: Global, c: nat, fd: int, count: nat)
    requires Core(cfg, g) && CanReadBegin(cfg, g, c, fd, count)
    ensures Core(cfg, ReadBegin(cfg, g, c, fd, count))
  {
    FreshId(cfg, g);
    var x := g.cl[c];
    BeginIo(cfg, g, c, fd, x, if fd !in x.fdMap then ReadLocal(count, -1, Posix.Untracked)
                              else ReadWait(Host(cfg, x.fdMap[fd]), count, -1));
  }

  lemma PreadBeginInv(cfg: Config, g: Global, c: nat, fd: int, count: nat, offset: nat)
    requires Core(cfg, g) && CanReadBegin(cfg, g, c, fd, count)
    ensures Core(cfg, PreadBegin(cfg, g, c, fd, count, offset))
  {
    FreshId(cfg, g);
    var x, y := g.cl[c], Touch(g.cl[c], fd);
    if fd !in x.fdMap {
      BeginIo(cfg, g, c, fd, x, ReadLocal(count, offset, Posix.Untracked));
    } else if y.redir[fd] != 0 {
      BeginIo(cfg, g, c, fd, y, ReadWait(Host(cfg, x.fdMap[fd]), count, offset));
    } else {
      BeginIo(cfg, g, c, fd, y, ReadLocal(count, offset, Posix.NotReady));
    }
  }

  lemma SeekBeginInv(cfg: Config, g: Global, c: nat, fd: int, off: int, whence: Whence)
    requires Core(cfg, g) && CanSeekBegin(cfg, g, c, fd)
    ensures Core(cfg, SeekBegin(cfg, g, c, fd, off, whence))
  {
    assert FdOk(cfg, g, c, fd);
    var y := Touch(g.cl[c], fd);
    var st := SeekReq(Host(cfg, y.fdMap[fd]), y.redir[fd], off, whence);
    assert OpOk(cfg, Begin(g, c, fd, y, st), g.next);
    BeginIo(cfg, g, c, fd, y, st);
  }

  lemma LocalDoneSteady(cfg: Config, g: Global, k: nat, n: nat)
    requires CanLocalRead(cfg, g, k, n) && OpOk(cfg, g, k) && FdOk(cfg, g, g.ops[k].c, g.ops[k].fd)
    requires !BeingClosed(g, g.ops[k].c, g.ops[k].fd) && Logs(g)
    ensures Steady(cfg, g, LocalDone(cfg, g, k, n), k, g.ops[k].c, g.ops[k].fd)
  {
    LocalDoneFrame(cfg, g, k, n);
  }

  lemma LocalDoneFrame(cfg: Config, g: Global, k: nat, n: nat)
    requires CanLocalRead(cfg, g, k, n) && k < g.next && Logs(g)
    ensures var t := LocalDone(cfg, g, k, n);
            Frame(g, t, k, g.ops[k].c, g.ops[k].fd) && Logs(t)
  {
  }

  lemma LocalDoneInv(cfg: Config, g: Global, k: nat, n: nat)
    requires Core(cfg, g) && CanLocalRead(cfg, g, k, n)
    ensures Core(cfg, LocalDone(cfg, g, k, n))
  {
    var t := LocalDone(cfg, g, k, n);
    Facts(cfg, g, k);
    NotBeingClosed(g, k);
    LocalDoneSteady(cfg, g, k, n);
    SteadyOwners(cfg, g, t, k, g.ops[k].c, g.ops[k].fd);
    SteadyStep(cfg, g, t, k, g.ops[k].c, g.ops[k].fd);
  }
}
