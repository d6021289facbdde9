// The actions that touch a server or hand a remote fd on keep the invariant.
module ProtocolServed {
  import opened Files
  import opened FdTables
  import opened Protocol
  import opened ProtocolInv
  import opened ProtocolFrame
  import opened ProtocolSteps
  import Server
  import Posix

  // ---------------------------------------------------------------- open

  lemma SrvOpenOwner(cfg: Config, g: Global, k: nat, r: int, x: Remote)
    requires CanSrvOpen(cfg, g, k, r) && x in g.owner && OwnerOk(cfg, g, x)
    ensures x != Remote(Host(cfg, g.ops[k].at.path), r)
    ensures OwnerOk(cfg, SrvOpen(cfg, g, k, r), x)
  {
  }

  lemma SrvOpenSteady(cfg: Config, g: Global, k: nat, r: int)
    requires CanSrvOpen(cfg, g, k, r) && OpOk(cfg, g, k) && FdOk(cfg, g, g.ops[k].c, g.ops[k].fd) && Logs(g)
    requires !BeingClosed(g, g.ops[k].c, g.ops[k].fd)
    requires forall x :: x in g.owner ==> x != Remote(Host(cfg, g.ops[k].at.path), r)
    ensures Steady(cfg, g, SrvOpen(cfg, g, k, r), k, g.ops[k].c, g.ops[k].fd)
  {
  }

  lemma SrvOpenInv(cfg: Config, g: Global, k: nat, r: int)
    requires Core(cfg, g) && CanSrvOpen(cfg, g, k, r)
    ensures Core(cfg, SrvOpen(cfg, g, k, r))
  {
    var t := SrvOpen(cfg, g, k, r);
    Facts(cfg, g, k);
    NotBeingClosed(g, k);
    forall x | x in g.owner ensures x != Remote(Host(cfg, g.ops[k].at.path), r) && OwnerOk(cfg, t, x) {
      SrvOpenOwner(cfg, g, k, r, x);
    }
    SrvOpenSteady(cfg, g, k, r);
    assert OwnersOk(cfg, t) by { SrvOpenNew(cfg, g, k, r); }
    SteadyStep(cfg, g, t, k, g.ops[k].c, g.ops[k].fd);
  }

  lemma SrvOpenNew(cfg: Config, g: Global, k: nat, r: int)
    requires CanSrvOpen(cfg, g, k, r)
    ensures r >= 0 ==> OwnerOk(cfg, SrvOpen(cfg, g, k, r), Remote(Host(cfg, g.ops[k].at.path), r))
  {
  }

  lemma OpenMapOwner(cfg: Config, g: Global, k: nat, x: Remote)
    requires CanOpenMap(cfg, g, k) && OpOk(cfg, g, k) && FdOk(cfg, g, g.ops[k].c, g.ops[k].fd)
    requires x in g.owner && OwnerOk(cfg, g, x)
    ensures OwnerOk(cfg, OpenMap(cfg, g, k), x)
  {
  }

  ghost predicate OpenMapFramed(g: Global, t: Global, k: nat, c: nat, fd: int)
  {
    && Frame(g, t, k, c, fd) && KeepsOwners(g, t, k, c, fd)
    && t.cl[c].local == g.cl[c].local && t.cl[c].fdMap == g.cl[c].fdMap
    && (forall x :: x in g.owner && g.owner[x] != ByOp(k) ==> x in t.owner && t.owner[x] == g.owner[x])
  }

  lemma GoFrame(g: Global, k: nat, x: Client, st: Stage)
    requires Has(g, k) && k < g.next && forall e :: e != g.ops[k].fd ==> SameAt(g.cl[g.ops[k].c], x, e)
    ensures Frame(g, Go(g, k, x, st), k, g.ops[k].c, g.ops[k].fd)
  {
  }

  lemma OpenMapKeepsOwners(cfg: Config, g: Global, k: nat)
    requires CanOpenMap(cfg, g, k) && OpOk(cfg, g, k)
    requires forall x :: x in g.owner ==> g.owner[x] != ByClient(g.ops[k].c, g.ops[k].fd)
    ensures var t, c, fd := OpenMap(cfg, g, k), g.ops[k].c, g.ops[k].fd;
            && KeepsOwners(g, t, k, c, fd) && (Logs(g) ==> Logs(t))
            && t.cl[c].local == g.cl[c].local && t.cl[c].fdMap == g.cl[c].fdMap
            && forall x :: x in g.owner && g.owner[x] != ByOp(k) ==> x in t.owner && t.owner[x] == g.owner[x]
  {
  }

  lemma OpenMapFrame(cfg: Config, g: Global, k: nat)
    requires CanOpenMap(cfg, g, k) && OpOk(cfg, g, k) && Logs(g)
    requires forall x :: x in g.owner ==> g.owner[x] != ByClient(g.ops[k].c, g.ops[k].fd)
    ensures var t, c, fd := OpenMap(cfg, g, k), g.ops[k].c, g.ops[k].fd;
            OpenMapFramed(g, t, k, c, fd) && Logs(t)
  {
    OpenMapKeepsOwners(cfg, g, k);
    var p, ret, fd, x := g.ops[k].at.path, g.ops[k].at.ret, g.ops[k].fd, Mine(g, k);
    if ret > 0 {
      GoFrame(g, k, MapRemote(x, fd, ret), OpenMapped(p, ret));
    } else {
      GoFrame(g, k, SetError(x, fd), OpenSettled);
    }
  }

  lemma OpenMapOp(cfg: Config, g: Global, k: nat)
    requires CanOpenMap(cfg, g, k) && OpOk(cfg, g, k)
    ensures var t := OpenMap(cfg, g, k);
            k in t.ops && Successor(g.ops[k].at, t.ops[k].at) && OpOk(cfg, t, k)
  {
  }

  lemma OpenMapFd(cfg: Config, g: Global, k: nat)
    requires CanOpenMap(cfg, g, k) && OpOk(cfg, g, k) && FdOk(cfg, g, g.ops[k].c, g.ops[k].fd)
    requires !BeingClosed(g, g.ops[k].c, g.ops[k].fd)
    ensures FdOk(cfg, OpenMap(cfg, g, k), g.ops[k].c, g.ops[k].fd)
  {
  }

  lemma OpenMapInv(cfg: Config, g: Global, k: nat)
    requires Core(cfg, g) && CanOpenMap(cfg, g, k)
    ensures Core(cfg, OpenMap(cfg, g, k))
  {
    Facts(cfg, g, k);
    NotBeingClosed(g, k);
    NoRemote(cfg, g, g.ops[k].c, g.ops[k].fd);
    OpenMapFrame(cfg, g, k);
    OpenMapOp(cfg, g, k);
    OpenMapFd(cfg, g, k);
    var t := OpenMap(cfg, g, k);
    assert OwnersOk(cfg, t) by { OpenMapOwners(cfg, g, k); }
    OpenMapWide(cfg, g, t, k);
  }

  lemma OpenMapWide(cfg: Config, g: Global, t: Global, k: nat)
    requires OpsOk(cfg, g) && PairsOk(g) && FdsOk(cfg, g) && Has(g, k) && g.ops[k].at.OpenResp?
    requires !Mapped(g.cl[g.ops[k].c], g.ops[k].fd)
    requires OpenMapFramed(g, t, k, g.ops[k].c, g.ops[k].fd)
    requires k in t.ops && Successor(g.ops[k].at, t.ops[k].at) && OpOk(cfg, t, k)
    requires FdOk(cfg, t, g.ops[k].c, g.ops[k].fd)
    ensures OpsOk(cfg, t) && PairsOk(t) && FdsOk(cfg, t)
  {
    var c, fd := g.ops[k].c, g.ops[k].fd;
    SuccessorPairs(g, t, k, c, fd);
    WideFds(cfg, g, t, k, c, fd);
    Bystanders(cfg, g, t, k);
  }

  lemma OpenMapOwners(cfg: Config, g: Global, k: nat)
    requires CanOpenMap(cfg, g, k) && OpOk(cfg, g, k) && FdOk(cfg, g, g.ops[k].c, g.ops[k].fd) && OwnersOk(cfg, g)
    ensures OwnersOk(cfg, OpenMap(cfg, g, k))
  {
    var t := OpenMap(cfg, g, k);
    forall x | x in g.owner ensures OwnerOk(cfg, t, x) { OpenMapOwner(cfg, g, k, x); }
  }

  // ------------------------------------------------------- read and lseek

  lemma SrvReadOwner(cfg: Config, g: Global, k: nat, n: nat, x: Remote)
    requires CanSrvRead(cfg, g, k, n) && OpOk(cfg, g, k) && x in g.owner && OwnerOk(cfg, g, x)
    ensures OwnerOk(cfg, SrvRead(cfg, g, k, n), x)
  {
  }

  lemma AnswerFrame(g: Global, t: Global, k: nat, st: Stage, v: Value, ev: Posix.Event)
    requires Has(g, k) && Logs(g) && k < g.next
    requires t == g.(sv := t.sv, ops := g.ops[k := g.ops[k].(at := st)], lin := g.lin[k := v],
                     spec := Posix.Next(g.spec, ev))
    requires (ev.ReadEv? || ev.PreadEv? || ev.SeekEv?) && ev.h == Posix.Handle(g.ops[k].c, g.ops[k].fd)
    ensures Frame(g, t, k, g.ops[k].c, g.ops[k].fd) && Logs(t)
  {
  }

  // A handler answers request k: clients and owners stand still.
  lemma AnswerSteady(cfg: Config, g: Global, t: Global, k: nat, st: Stage, v: Value, ev: Posix.Event)
    requires Has(g, k) && OpOk(cfg, g, k) && Logs(g)
    requires g.ops[k].at.ReadReq? || g.ops[k].at.SeekReq?
    requires st.ReadBulk? || st.SeekResp?
    requires t == g.(sv := t.sv, ops := g.ops[k := g.ops[k].(at := st)], lin := g.lin[k := v],
                     spec := Posix.Next(g.spec, ev))
    requires ev.ReadEv? || ev.PreadEv? || ev.SeekEv?
    requires ev.h == Posix.Handle(g.ops[k].c, g.ops[k].fd)
    requires ev.ReadEv? ==> g.ops[k].at.ReadReq?
    requires ev.SeekEv? ==> g.ops[k].at.SeekReq? && ev.reached == (g.ops[k].at.rfd > 0)
    requires OpOk(cfg, t, k) && FdOk(cfg, t, g.ops[k].c, g.ops[k].fd)
    ensures Steady(cfg, g, t, k, g.ops[k].c, g.ops[k].fd)
  {
    AnswerFrame(g, t, k, st, v, ev);
  }

  lemma SrvReadSteady(cfg: Config, g: Global, k: nat, n: nat)
    requires CanSrvRead(cfg, g, k, n) && OpOk(cfg, g, k) && FdOk(cfg, g, g.ops[k].c, g.ops[k].fd) && Logs(g)
    ensures Steady(cfg, g, SrvRead(cfg, g, k, n), k, g.ops[k].c, g.ops[k].fd)
  {
    var st, out := g.ops[k].at, SrvReadOut(cfg, g, k, n);
    SrvReadFd(cfg, g, k, n);
    AnswerSteady(cfg, g, SrvRead(cfg, g, k, n), k, ReadBulk(out), Data(out),
                 ReadEvent(g, k, Posix.RemoteSide, st.count, st.offset, out));
  }

  lemma SrvReadFd(cfg: Config, g: Global, k: nat, n: nat)
    requires CanSrvRead(cfg, g, k, n) && OpOk(cfg, g, k) && FdOk(cfg, g, g.ops[k].c, g.ops[k].fd)
    ensures FdOk(cfg, SrvRead(cfg, g, k, n), g.ops[k].c, g.ops[k].fd)
  {
  }

  lemma SrvReadOwners(cfg: Config, g: Global, k: nat, n: nat)
    requires CanSrvRead(cfg, g, k, n) && OpOk(cfg, g, k) && OwnersOk(cfg, g)
    ensures OwnersOk(cfg, SrvRead(cfg, g, k, n))
  {
    var t := SrvRead(cfg, g, k, n);
    forall x | x in g.owner ensures OwnerOk(cfg, t, x) { SrvReadOwner(cfg, g, k, n, x); }
    SameFds(cfg, g, t);
  }

  // A step that neither opens nor closes a server fd.
  lemma SameFds(cfg: Config, g: Global, t: Global)
    requires OwnersOk(cfg, g) && t.owner == g.owner && |t.sv| == |g.sv|
    requires forall s: nat :: s < |g.sv| ==> t.sv[s].kernel.Keys == g.sv[s].kernel.Keys
    requires forall x :: x in t.owner ==> OwnerOk(cfg, t, x)
    ensures OwnersOk(cfg, t)
  {
    forall s: nat, q | s < |t.sv| && q in t.sv[s].kernel ensures q >= 0 && Remote(s, q) in t.owner {
      assert q in g.sv[s].kernel;
    }
  }

  lemma SrvReadInv(cfg: Config, g: Global, k: nat, n: nat)
    requires Core(cfg, g) && CanSrvRead(cfg, g, k, n)
    ensures Core(cfg, SrvRead(cfg, g, k, n))
  {
    var t := SrvRead(cfg, g, k, n);
    Facts(cfg, g, k);
    SrvReadSteady(cfg, g, k, n);
    SrvReadOwners(cfg, g, k, n);
    SteadyStep(cfg, g, t, k, g.ops[k].c, g.ops[k].fd);
  }

  lemma SrvSeekOwner(cfg: Config, g: Global, k: nat, wild: int, x: Remote)
    requires CanSrvSeek(cfg, g, k, wild) && OpOk(cfg, g, k) && x in g.owner && OwnerOk(cfg, g, x)
    requires FdOk(cfg, g, g.ops[k].c, g.ops[k].fd) && Logs(g)
    ensures OwnerOk(cfg, SrvSeek(cfg, g, k, wild), x)
  {
    if x == Remote(g.ops[k].at.server, g.ops[k].at.rfd) {
      SrvSeekTarget(cfg, g, k, wild);
    } else {
      SrvSeekElsewhere(cfg, g, k, wild, x);
    }
  }

  lemma SrvSeekTarget(cfg: Config, g: Global, k: nat, wild: int)
    requires CanSrvSeek(cfg, g, k, wild) && OpOk(cfg, g, k) && FdOk(cfg, g, g.ops[k].c, g.ops[k].fd)
    requires var x := Remote(g.ops[k].at.server, g.ops[k].at.rfd);
             x in g.owner && OwnerOk(cfg, g, x)
    ensures OwnerOk(cfg, SrvSeek(cfg, g, k, wild), Remote(g.ops[k].at.server, g.ops[k].at.rfd))
  {
  }

  // A seek request that left without a mapping, and a mapping that came after it.
  lemma SrvSeekLate(cfg: Config, g: Global, k: nat, wild: int, x: Remote)
    requires CanSrvSeek(cfg, g, k, wild) && OpOk(cfg, g, k) && x in g.owner && OwnerOk(cfg, g, x)
    requires x != Remote(g.ops[k].at.server, g.ops[k].at.rfd)
    requires g.owner[x] == ByClient(g.ops[k].c, g.ops[k].fd)
    ensures OwnerOk(cfg, SrvSeek(cfg, g, k, wild), x)
  {
  }

  lemma SrvSeekKeeps(cfg: Config, g: Global, k: nat, wild: int, x: Remote)
    requires CanSrvSeek(cfg, g, k, wild) && x.server < |g.sv| && x != Remote(g.ops[k].at.server, g.ops[k].at.rfd)
    ensures var t := SrvSeek(cfg, g, k, wild);
            && |t.sv| == |g.sv| && t.sv[x.server].fdToPath == g.sv[x.server].fdToPath
            && (x.fd in g.sv[x.server].kernel ==>
                  x.fd in t.sv[x.server].kernel && t.sv[x.server].kernel[x.fd] == g.sv[x.server].kernel[x.fd])
  {
    var st := g.ops[k].at;
    if st.rfd in g.sv[st.server].kernel {
      Server.SeekMovesOneCursor(cfg, g.sv[st.server], st.rfd, st.soff, st.whence);
    }
  }

  lemma SrvSeekElsewhere(cfg: Config, g: Global, k: nat, wild: int, x: Remote)
    requires CanSrvSeek(cfg, g, k, wild) && OpOk(cfg, g, k) && x in g.owner && OwnerOk(cfg, g, x)
    requires x != Remote(g.ops[k].at.server, g.ops[k].at.rfd) && Logs(g)
    ensures OwnerOk(cfg, SrvSeek(cfg, g, k, wild), x)
  {
    var t, c, fd, res := SrvSeek(cfg, g, k, wild), g.ops[k].c, g.ops[k].fd, SrvSeekRes(cfg, g, k, wild);
    if g.owner[x] == ByClient(c, fd) {
      SrvSeekLate(cfg, g, k, wild, x);
    } else {
      SrvSeekKeeps(cfg, g, k, wild, x);
      AnswerFrame(g, t, k, SeekResp(res), Offset(res), SeekEvent(g, k, res));
      OtherOwner(cfg, g, t, k, c, fd, x);
    }
  }

  lemma SrvSeekSteady(cfg: Config, g: Global, k: nat, wild: int)
    requires CanSrvSeek(cfg, g, k, wild) && OpOk(cfg, g, k) && FdOk(cfg, g, g.ops[k].c, g.ops[k].fd) && Logs(g)
    requires !BeingClosed(g, g.ops[k].c, g.ops[k].fd)
    ensures Steady(cfg, g, SrvSeek(cfg, g, k, wild), k, g.ops[k].c, g.ops[k].fd)
  {
    SrvSeekFd(cfg, g, k, wild);
    var res := SrvSeekRes(cfg, g, k, wild);
    AnswerSteady(cfg, g, SrvSeek(cfg, g, k, wild), k, SeekResp(res), Offset(res), SeekEvent(g, k, res));
  }

  lemma SrvSeekFd(cfg: Config, g: Global, k: nat, wild: int)
    requires CanSrvSeek(cfg, g, k, wild) && OpOk(cfg, g, k) && FdOk(cfg, g, g.ops[k].c, g.ops[k].fd)
    requires !BeingClosed(g, g.ops[k].c, g.ops[k].fd)
    ensures FdOk(cfg, SrvSeek(cfg, g, k, wild), g.ops[k].c, g.ops[k].fd)
  {
  }

  lemma SrvSeekOwners(cfg: Config, g: Global, k: nat, wild: int)
    requires CanSrvSeek(cfg, g, k, wild) && OpOk(cfg, g, k) && OwnersOk(cfg, g)
    requires FdOk(cfg, g, g.ops[k].c, g.ops[k].fd) && Logs(g)
    ensures OwnersOk(cfg, SrvSeek(cfg, g, k, wild))
  {
    var t := SrvSeek(cfg, g, k, wild);
    forall x | x in g.owner ensures OwnerOk(cfg, t, x) { SrvSeekOwner(cfg, g, k, wild, x); }
    SrvSeekSameKeys(cfg, g, k, wild);
    SameFds(cfg, g, t);
  }

  lemma SrvSeekSameKeys(cfg: Config, g: Global, k: nat, wild: int)
    requires CanSrvSeek(cfg, g, k, wild)
    ensures var t := SrvSeek(cfg, g, k, wild);
            && t.owner == g.owner && |t.sv| == |g.sv|
            && forall s: nat :: s < |g.sv| ==> t.sv[s].kernel.Keys == g.sv[s].kernel.Keys
  {
    var st := g.ops[k].at;
    if st.rfd in g.sv[st.server].kernel {
      Server.SeekMovesOneCursor(cfg, g.sv[st.server], st.rfd, st.soff, st.whence);
    }
  }

  lemma SrvSeekInv(cfg: Config, g: Global, k: nat, wild: int)
    requires Core(cfg, g) && CanSrvSeek(cfg, g, k, wild)
    ensures Core(cfg, SrvSeek(cfg, g, k, wild))
  {
    var t := SrvSeek(cfg, g, k, wild);
    Facts(cfg, g, k);
    NotBeingClosed(g, k);
    SrvSeekSteady(cfg, g, k, wild);
    SrvSeekOwners(cfg, g, k, wild);
    SteadyStep(cfg, g, t, k, g.ops[k].c, g.ops[k].fd);
  }

  // ---------------------------------------------------------------- close

  lemma SrvCloseOwner(cfg: Config, g: Global, k: nat, x: Remote)
    requires CanSrvClose(cfg, g, k) && OpOk(cfg, g, k)
    requires x in g.owner && x != Remote(g.ops[k].at.server, g.ops[k].at.rfd) && OwnerOk(cfg, g, x)
    ensures OwnerOk(cfg, SrvClose(cfg, g, k), x)
  {
  }

  lemma SrvCloseSteady(cfg: Config, g: Global, k: nat)
    requires CanSrvClose(cfg, g, k) && OpOk(cfg, g, k) && FdOk(cfg, g, g.ops[k].c, g.ops[k].fd) && Logs(g)
    ensures Steady(cfg, g, SrvClose(cfg, g, k), k, g.ops[k].c, g.ops[k].fd)
  {
    SrvCloseFd(cfg, g, k);
  }

  lemma SrvCloseFd(cfg: Config, g: Global, k: nat)
    requires CanSrvClose(cfg, g, k) && OpOk(cfg, g, k) && FdOk(cfg, g, g.ops[k].c, g.ops[k].fd)
    ensures FdOk(cfg, SrvClose(cfg, g, k), g.ops[k].c, g.ops[k].fd)
  {
    var t, c, fd := SrvClose(cfg, g, k), g.ops[k].c, g.ops[k].fd;
    if BeingClosed(g, c, fd) {
      var m :| m in g.ops && g.ops[m] == Op(c, fd, CloseUnmapped);
      assert t.ops[m] == g.ops[m];
    }
  }

  lemma SrvCloseOwners(cfg: Config, g: Global, k: nat)
    requires CanSrvClose(cfg, g, k) && OpOk(cfg, g, k) && OwnersOk(cfg, g)
    ensures OwnersOk(cfg, SrvClose(cfg, g, k))
  {
    var t := SrvClose(cfg, g, k);
    forall x | x in t.owner ensures OwnerOk(cfg, t, x) { SrvCloseOwner(cfg, g, k, x); }
  }

  lemma SrvCloseInv(cfg: Config, g: Global, k: nat)
    requires Core(cfg, g) && CanSrvClose(cfg, g, k)
    ensures Core(cfg, SrvClose(cfg, g, k))
  {
    var t := SrvClose(cfg, g, k);
    Facts(cfg, g, k);
    SrvCloseSteady(cfg, g, k);
    SrvCloseOwners(cfg, g, k);
    SteadyStep(cfg, g, t, k, g.ops[k].c, g.ops[k].fd);
  }

  lemma CloseQuietOwner(cfg: Config, g: Global, c: nat, fd: int, x: Remote)
    requires CanCloseBegin(cfg, g, c, fd) && FdOk(cfg, g, c, fd) && g.next !in g.ops
    requires x in g.owner && OwnerOk(cfg, g, x)
    ensures OwnerOk(cfg, CloseBegin(cfg, g, c, fd, false), x)
  {
  }

  lemma CloseQuietFrame(cfg: Config, g: Global, c: nat, fd: int)
    requires CanCloseBegin(cfg, g, c, fd) && FdOk(cfg, g, c, fd) && Logs(g)
    requires forall j :: j in g.ops ==> j < g.next
    ensures var t, k := CloseBegin(cfg, g, c, fd, false), g.next;
            && Frame(g, t, k, c, fd) && KeepsOwners(g, t, k, c, fd) && Logs(t)
  {
    CloseQuietOwners(cfg, g, c, fd);
  }

  lemma CloseQuietOwners(cfg: Config, g: Global, c: nat, fd: int)
    requires CanCloseBegin(cfg, g, c, fd) && FdOk(cfg, g, c, fd) && Logs(g)
    requires forall j :: j in g.ops ==> j < g.next
    ensures var t, k := CloseBegin(cfg, g, c, fd, false), g.next;
            KeepsOwners(g, t, k, c, fd) && Logs(t)
  {
  }

  lemma CloseQuietOp(cfg: Config, g: Global, c: nat, fd: int)
    requires CanCloseBegin(cfg, g, c, fd) && FdOk(cfg, g, c, fd) && g.next !in g.lin
    ensures var t, k := CloseBegin(cfg, g, c, fd, false), g.next;
            k in t.ops && OpOk(cfg, t, k)
  {
  }

  lemma CloseQuietFd(cfg: Config, g: Global, c: nat, fd: int)
    requires CanCloseBegin(cfg, g, c, fd) && FdOk(cfg, g, c, fd)
    ensures FdOk(cfg, CloseBegin(cfg, g, c, fd, false), c, fd)
  {
    var t := CloseBegin(cfg, g, c, fd, false);
    assert t.ops[g.next].at.CloseUnmapped? ==> BeingClosed(t, c, fd);
  }

  lemma CloseQuietAlone(cfg: Config, g: Global, c: nat, fd: int)
    requires CanCloseBegin(cfg, g, c, fd)
    ensures var t, k := CloseBegin(cfg, g, c, fd, false), g.next;
            && (forall m :: m in t.ops ==> Compatible(t, m, k))
            && (forall j :: !On(g, j, c, fd))
  {
    var t := CloseBegin(cfg, g, c, fd, false);
    forall j ensures !On(g, j, c, fd) { }
    forall m | m in t.ops ensures Compatible(t, m, g.next) { assert m != g.next ==> !On(g, m, c, fd); }
  }

  // close(2) whose message could not be sent: the remote fd leaks.
  lemma CloseQuietInv(cfg: Config, g: Global, c: nat, fd: int)
    requires Core(cfg, g) && CanCloseBegin(cfg, g, c, fd)
    ensures Core(cfg, CloseBegin(cfg, g, c, fd, false))
  {
    var t, k := CloseBegin(cfg, g, c, fd, false), g.next;
    FreshId(cfg, g);
    assert FdOk(cfg, g, c, fd);
    CloseQuietFrame(cfg, g, c, fd);
    assert OpsOk(cfg, t) && PairsOk(t) by {
      CloseQuietOp(cfg, g, c, fd);
      CloseQuietAlone(cfg, g, c, fd);
      WideOps(cfg, g, t, k, c, fd);
      WidePairs(g, t, k, c, fd);
    }
    assert FdsOk(cfg, t) by {
      CloseQuietFd(cfg, g, c, fd);
      WideFds(cfg, g, t, k, c, fd);
    }
    assert OwnersOk(cfg, t) by { CloseQuietAllOwners(cfg, g, c, fd); }
  }

  lemma CloseQuietAllOwners(cfg: Config, g: Global, c: nat, fd: int)
    requires CanCloseBegin(cfg, g, c, fd) && FdOk(cfg, g, c, fd) && g.next !in g.ops && OwnersOk(cfg, g)
    ensures OwnersOk(cfg, CloseBegin(cfg, g, c, fd, false))
  {
    var t := CloseBegin(cfg, g, c, fd, false);
    forall x | x in g.owner ensures OwnerOk(cfg, t, x) { CloseQuietOwner(cfg, g, c, fd, x); }
  }

  function Adopt(g: Global, c: nat, fd: int, x: Remote, p: Path): Global
  {
    g.(ops := g.ops[g.next := Op(c, fd, CloseReq(x.server, x.fd, p))], next := g.next + 1,
       owner := g.owner[x := ByOp(g.next)])
  }

  // A leaked fd is taken over by a close message.
  lemma AdoptInv(cfg: Config, g: Global, c: nat, fd: int, x: Remote, p: Path)
    requires Core(cfg, g) && c < |g.cl| && x in g.owner && g.owner[x] == Leaked && x.fd > 0
    requires OwnerOk(cfg, g, x) && g.sv[x.server].fdToPath[x.fd] == p
    ensures Core(cfg, Adopt(g, c, fd, x, p))
  {
    var t, k := Adopt(g, c, fd, x, p), g.next;
    FreshId(cfg, g);
    AdoptFrame(cfg, g, c, fd, x, p);
    assert OpsOk(cfg, t) by { SteadyOps(cfg, g, t, k, c, fd); }
    assert PairsOk(t) by { WidePairs(g, t, k, c, fd); }
    assert FdsOk(cfg, t) by { SteadyFds(cfg, g, t, k, c, fd); }
    AdoptOwners(cfg, g, c, fd, x, p);
  }

  lemma AdoptFrame(cfg: Config, g: Global, c: nat, fd: int, x: Remote, p: Path)
    requires Logs(g) && c < |g.cl| && x in g.owner && g.owner[x] == Leaked && x.fd > 0
    requires g.next !in g.ops && g.next !in g.lin
    ensures var t, k := Adopt(g, c, fd, x, p), g.next;
            && Frame(g, t, k, c, fd) && KeepsOwners(g, t, k, c, fd) && Logs(t) && OpOk(cfg, t, k)
            && (forall y :: y in g.owner && g.owner[y] == ByClient(c, fd) ==> y in t.owner && t.owner[y] == g.owner[y])
  {
  }

  lemma AdoptOwners(cfg: Config, g: Global, c: nat, fd: int, x: Remote, p: Path)
    requires OwnersOk(cfg, g) && x in g.owner && g.owner[x] == Leaked && g.next !in g.ops
    requires OwnerOk(cfg, g, x) && g.sv[x.server].fdToPath[x.fd] == p
    ensures OwnersOk(cfg, Adopt(g, c, fd, x, p))
  {
    var t := Adopt(g, c, fd, x, p);
    forall y | y in t.owner ensures OwnerOk(cfg, t, y) { AdoptOwner(cfg, g, c, fd, x, p, y); }
  }

  lemma AdoptOwner(cfg: Config, g: Global, c: nat, fd: int, x: Remote, p: Path, y: Remote)
    requires x in g.owner && g.owner[x] == Leaked && y in g.owner && OwnerOk(cfg, g, x) && OwnerOk(cfg, g, y)
    requires g.next !in g.ops && g.sv[x.server].fdToPath[x.fd] == p
    ensures OwnerOk(cfg, Adopt(g, c, fd, x, p), y)
  {
  }

  lemma CloseIsAdoption(cfg: Config, g: Global, c: nat, fd: int)
    requires CanCloseBegin(cfg, g, c, fd)
    ensures CloseBegin(cfg, g, c, fd, true) ==
              var q, x := CloseBegin(cfg, g, c, fd, false), g.cl[c];
              if fd in x.fdMap && fd in x.redir && x.redir[fd] != 0
              then Adopt(q, c, fd, Remote(Host(cfg, x.fdMap[fd]), x.redir[fd]), x.fdMap[fd])
              else q
  {
    var x := g.cl[c];
    if fd in x.fdMap && fd in x.redir && x.redir[fd] != 0 {
      var y := Remote(Host(cfg, x.fdMap[fd]), x.redir[fd]);
      assert g.owner[y := ByOp(g.next + 1)] == g.owner[y := Leaked][y := ByOp(g.next + 1)];
    }
  }

  lemma CloseBeginInv(cfg: Config, g: Global, c: nat, fd: int, ok: bool)
    requires Core(cfg, g) && CanCloseBegin(cfg, g, c, fd)
    ensures Core(cfg, CloseBegin(cfg, g, c, fd, ok))
  {
    CloseQuietInv(cfg, g, c, fd);
    CloseIsAdoption(cfg, g, c, fd);
    var x := g.cl[c];
    if ok && fd in x.fdMap && fd in x.redir && x.redir[fd] != 0 {
      assert FdOk(cfg, g, c, fd);
      var remote := Remote(Host(cfg, x.fdMap[fd]), x.redir[fd]);
      assert OwnerOk(cfg, g, remote);
      AdoptInv(cfg, CloseBegin(cfg, g, c, fd, false), c, fd, remote, x.fdMap[fd]);
    }
  }

  lemma SrvInnerOwner(cfg: Config, g: Global, s: nat, a: Server.Act, x: Remote)
    requires CanSrvInner(cfg, g, s, a) && Server.Books(cfg, s, g.sv[s])
    requires x in g.owner && OwnerOk(cfg, g, x)
    ensures OwnerOk(cfg, SrvInner(cfg, g, s, a), x)
  {
  }

  lemma SrvInnerInv(cfg: Config, g: Global, s: nat, a: Server.Act)
    requires Core(cfg, g) && CanSrvInner(cfg, g, s, a) && Server.Books(cfg, s, g.sv[s])
    ensures Core(cfg, SrvInner(cfg, g, s, a))
  {
    SrvInnerOwners(cfg, g, s, a);
    OnlyServers(cfg, g, SrvInner(cfg, g, s, a));
  }

  lemma SrvInnerOwners(cfg: Config, g: Global, s: nat, a: Server.Act)
    requires OwnersOk(cfg, g) && CanSrvInner(cfg, g, s, a) && Server.Books(cfg, s, g.sv[s])
    ensures OwnersOk(cfg, SrvInner(cfg, g, s, a))
  {
    var t := SrvInner(cfg, g, s, a);
    forall x | x in t.owner ensures OwnerOk(cfg, t, x) { SrvInnerOwner(cfg, g, s, a, x); }
    Server.InnerKeepsKernel(cfg, g.sv[s], a);
    SameFds(cfg, g, t);
  }

  lemma OnlyServers(cfg: Config, g: Global, t: Global)
    requires Core(cfg, g) && t == g.(sv := t.sv)
    requires OwnersOk(cfg, t)
    ensures Core(cfg, t)
  {
    forall j | j in t.ops ensures OpOk(cfg, t, j) { SameOp(cfg, g, t, j); }
    forall i, j | i in t.ops && j in t.ops ensures Compatible(t, i, j) { assert Compatible(g, i, j); }
    forall d: nat, e | d < |t.cl| ensures FdOk(cfg, t, d, e) { assert FdOk(cfg, g, d, e); }
  }
}
