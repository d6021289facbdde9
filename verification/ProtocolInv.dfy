// The invariant of the whole job.
module ProtocolInv {
  import opened Files
  import opened FdTables
  import opened Protocol
  import Server
  import Posix

  // The client's own remote fd: mapped, and owned by exactly this client fd on the
  // server its path hashes to.
  ghost predicate Linked(cfg: Config, g: Global, c: nat, fd: int, s: nat, r: int)
  {
    && c < |g.cl| && cfg.count > 0
    && r > 0 && fd in g.cl[c].redir && g.cl[c].redir[fd] == r
    && fd in g.cl[c].fdMap && Host(cfg, g.cl[c].fdMap[fd]) == s
    && Remote(s, r) in g.owner && g.owner[Remote(s, r)] == ByClient(c, fd)
  }

  // While an open is on its way the remote cursor has not been used.
  ghost predicate Unused(g: Global, c: nat, fd: int)
  {
    var h := Posix.Handle(c, fd);
    h in g.spec && g.spec[h].remote == 0
  }

  ghost predicate InOpening(g: Global, c: nat, fd: int, p: Path)
  {
    && c < |g.cl|
    && fd in g.cl[c].fdMap && g.cl[c].fdMap[fd] == p
    && fd in g.cl[c].status && g.cl[c].status[fd] == OPENING
    && Unused(g, c, fd)
  }

  ghost predicate AtHost(cfg: Config, g: Global, c: nat, fd: int, s: nat)
  {
    c < |g.cl| && cfg.count > 0 && fd in g.cl[c].fdMap && Host(cfg, g.cl[c].fdMap[fd]) == s
  }

  ghost predicate OpOk(cfg: Config, g: Global, k: nat)
    requires k in g.ops
  {
    var o := g.ops[k];
    var c, fd := o.c, o.fd;
    && k < g.next
    && c < |g.cl|
    && (!o.at.CloseReq? ==> fd in g.cl[c].local)
    && (k in g.lin ==> o.at.ReadBulk? || o.at.ReadResp? || o.at.SeekResp?)
    && match o.at
       case Opened(p) =>
         fd !in g.cl[c].fdMap && g.cl[c].local[fd].path == p && !Mapped(g.cl[c], fd) && Unused(g, c, fd)
       case Registered(p) =>
         && fd in g.cl[c].fdMap && g.cl[c].fdMap[fd] == p
         && fd !in g.cl[c].status && !Mapped(g.cl[c], fd) && Unused(g, c, fd)
       case Opening(p) => InOpening(g, c, fd, p) && !Mapped(g.cl[c], fd)
       case OpenReq(p) => InOpening(g, c, fd, p) && !Mapped(g.cl[c], fd)
       case OpenResp(p, r) =>
         && InOpening(g, c, fd, p) && !Mapped(g.cl[c], fd)
         && (r >= 0 ==> && cfg.count > 0 && Remote(Host(cfg, p), r) in g.owner
                        && g.owner[Remote(Host(cfg, p), r)] == ByOp(k))
       case OpenMapped(p, r) =>
         && fd in g.cl[c].fdMap && g.cl[c].fdMap[fd] == p
         && fd in g.cl[c].status && g.cl[c].status[fd] == OPENING
         && r > 0 && Mapped(g.cl[c], fd)
       case OpenSettled => true
       case ReadWait(s, _, off) => AtHost(cfg, g, c, fd, s) && off >= -1
       case ReadReady(s, _, off) => AtHost(cfg, g, c, fd, s) && Mapped(g.cl[c], fd) && off >= -1
       case ReadLocal(_, off, _) => off >= -1
       case ReadReq(s, r, _, off) => Linked(cfg, g, c, fd, s, r) && off >= -1
       case ReadBulk(d) => k in g.lin && g.lin[k] == Data(d)
       case ReadResp(d) => k in g.lin && g.lin[k] == Data(d)
       case SeekReq(s, r, _, _) => AtHost(cfg, g, c, fd, s) && (r == 0 || Linked(cfg, g, c, fd, s, r))
       case SeekResp(v) => k in g.lin && g.lin[k] == Offset(v)
       case CloseReq(s, r, _) => r > 0 && Remote(s, r) in g.owner && g.owner[Remote(s, r)] == ByOp(k)
       case CloseUnmapped => fd in g.cl[c].fdMap && !Mapped(g.cl[c], fd)
       case CloseCleaned => fd in g.cl[c].fdMap && !Mapped(g.cl[c], fd) && fd !in g.cl[c].status
       case CloseForgot => fd !in g.cl[c].fdMap
  }

  // Two threads busy with the same fd: neither is closing it, and one open at a time.
  ghost predicate Compatible(g: Global, j: nat, k: nat)
    requires j in g.ops && k in g.ops
  {
    j != k && g.ops[j].c == g.ops[k].c && g.ops[j].fd == g.ops[k].fd
    && !g.ops[j].at.CloseReq? && !g.ops[k].at.CloseReq? ==>
      && !IsClosing(g.ops[j].at) && !IsClosing(g.ops[k].at)
      && !(IsOpen(g.ops[j].at) && IsOpen(g.ops[k].at))
  }

  ghost predicate BeingClosed(g: Global, c: nat, fd: int)
  {
    exists k :: k in g.ops && g.ops[k] == Op(c, fd, CloseUnmapped)
  }

  // The state of one client fd.  READY means mapped until close(2) begins; the cursor
  // that serves the handle agrees with the specification.
  ghost predicate FdOk(cfg: Config, g: Global, c: nat, fd: int)
    requires c < |g.cl|
  {
    var x, h := g.cl[c], Posix.Handle(c, fd);
    && (fd in x.local <==> h in g.spec)
    && (fd in x.local ==> x.local[fd].path in cfg.disk && g.spec[h].path == x.local[fd].path)
    && (fd in x.fdMap ==> fd in x.local && x.local[fd].path == x.fdMap[fd])
    && (fd in x.status ==> fd in x.fdMap)
    && (fd in x.status && x.status[fd] == READY ==> Mapped(x, fd) || BeingClosed(g, c, fd))
    && (fd in x.redir ==> x.redir[fd] >= 0)
    && (Mapped(x, fd) ==> fd in x.fdMap && cfg.count > 0 && Linked(cfg, g, c, fd, Host(cfg, x.fdMap[fd]), x.redir[fd]))
    && (fd in x.local ==> x.local[fd].cursor == g.spec[h].local)
  }

  // Every open server fd has one owner, and serves the path its owner opened.
  ghost predicate OwnerOk(cfg: Config, g: Global, x: Remote)
    requires x in g.owner
  {
    && cfg.count > 0 && x.server < |g.sv|
    && x.fd >= 0 && x.fd in g.sv[x.server].kernel && x.fd in g.sv[x.server].fdToPath
    && match g.owner[x]
       case ByOp(k) =>
         && k in g.ops
         && (|| (g.ops[k].at.OpenResp? && g.ops[k].at.ret == x.fd && Host(cfg, g.ops[k].at.path) == x.server
                 && g.sv[x.server].fdToPath[x.fd] == g.ops[k].at.path
                 && (x.fd > 0 ==> g.sv[x.server].kernel[x.fd].cursor == 0))
             || g.ops[k].at == CloseReq(x.server, x.fd, g.sv[x.server].fdToPath[x.fd]))
       case ByClient(c, fd) =>
         && Linked(cfg, g, c, fd, x.server, x.fd)
         && g.sv[x.server].fdToPath[x.fd] == g.cl[c].fdMap[fd]
         && CursorOk(g, Posix.Handle(c, fd), g.sv[x.server].kernel[x.fd].cursor)
       case Leaked => true
  }

  ghost predicate CursorOk(g: Global, h: Posix.Handle, cursor: nat)
  {
    h in g.spec && cursor == g.spec[h].remote
  }

  ghost predicate Logs(g: Global)
  {
    && (forall k :: k in g.lin ==> k < g.next)
    && (forall k :: k in g.log ==> k < g.next && k in g.lin && g.log[k] == g.lin[k] && k !in g.ops)
  }

  ghost predicate OpsOk(cfg: Config, g: Global) { forall k :: k in g.ops ==> OpOk(cfg, g, k) }

  ghost predicate PairsOk(g: Global) { forall j, k :: j in g.ops && k in g.ops ==> Compatible(g, j, k) }

  ghost predicate FdsOk(cfg: Config, g: Global)
  {
    forall c: nat, fd :: c < |g.cl| ==> FdOk(cfg, g, c, fd)
  }

  ghost predicate OwnersOk(cfg: Config, g: Global)
  {
    && (forall x :: x in g.owner ==> OwnerOk(cfg, g, x))
    && (forall s: nat, r :: s < |g.sv| && r in g.sv[s].kernel ==> r >= 0 && Remote(s, r) in g.owner)
  }

  ghost predicate ServersOk(cfg: Config, g: Global)
  {
    && cfg.count > 0 && |g.sv| == cfg.count
    && forall s: nat :: s < |g.sv| ==> Server.Inv(cfg, s, g.sv[s])
  }

  ghost predicate Core(cfg: Config, g: Global)
  {
    OpsOk(cfg, g) && PairsOk(g) && FdsOk(cfg, g) && OwnersOk(cfg, g) && Logs(g)
  }

  ghost predicate Inv(cfg: Config, g: Global)
  {
    ServersOk(cfg, g) && Core(cfg, g)
  }
}
