// Steps that concern one client fd: what they must re-establish there, and why
// everything else keeps the invariant.
module ProtocolFrame {
  import opened Files
  import opened FdTables
  import opened Protocol
  import opened ProtocolInv
  import Posix

  // The maps agree at fd but for the local cursor; a zero mapping counts as none.
  ghost predicate Stable(x: Client, y: Client, fd: int)
  {
    && (fd in x.local <==> fd in y.local) && (fd in x.local ==> x.local[fd].path == y.local[fd].path)
    && (fd in x.fdMap <==> fd in y.fdMap) && (fd in x.fdMap ==> x.fdMap[fd] == y.fdMap[fd])
    && (fd in x.status <==> fd in y.status) && (fd in x.status ==> x.status[fd] == y.status[fd])
    && (Mapped(x, fd) <==> Mapped(y, fd)) && (Mapped(x, fd) ==> x.redir[fd] == y.redir[fd])
    && (fd in y.redir ==> y.redir[fd] >= 0 || (fd in x.redir && x.redir[fd] == y.redir[fd]))
  }

  ghost predicate SameAt(x: Client, y: Client, fd: int)
  {
    Stable(x, y, fd) && (fd in x.local ==> x.local[fd] == y.local[fd])
  }

  ghost predicate SameHandle(g: Global, t: Global, h: Posix.Handle)
  {
    (h in g.spec <==> h in t.spec) && (h in g.spec ==> g.spec[h] == t.spec[h])
  }

  // Operation k of client fd (c, fd) moves from g to t, the rest of the clients and of
  // the outstanding operations stand still.
  ghost predicate Frame(g: Global, t: Global, k: nat, c: nat, fd: int)
  {
    && c < |g.cl| && |t.cl| == |g.cl| && g.next <= t.next
    && (forall d: nat :: d < |g.cl| && d != c ==> t.cl[d] == g.cl[d])
    && (forall e :: e != fd ==> SameAt(g.cl[c], t.cl[c], e))
    && (forall h :: h != Posix.Handle(c, fd) ==> SameHandle(g, t, h))
    && (forall j :: j != k ==> (j in g.ops <==> j in t.ops) && (j in g.ops ==> t.ops[j] == g.ops[j]))
    && (forall j :: j != k ==> (j in g.lin <==> j in t.lin) && (j in g.lin ==> t.lin[j] == g.lin[j]))
    && (k in g.ops ==> g.ops[k].c == c && g.ops[k].fd == fd)
    && (k in t.ops ==> t.ops[k].c == c && t.ops[k].fd == fd)
  }

  ghost predicate On(g: Global, j: nat, c: nat, fd: int)
  {
    j in g.ops && g.ops[j].c == c && g.ops[j].fd == fd && !g.ops[j].at.CloseReq?
  }

  // No owner in sight of operation j changes.
  ghost predicate OwnersSeenBy(g: Global, t: Global, j: nat)
    requires j in g.ops
  {
    forall x :: x in g.owner
                && (g.owner[x] == ByOp(j)
                    || (!g.ops[j].at.CloseReq? && g.owner[x] == ByClient(g.ops[j].c, g.ops[j].fd))) ==>
      x in t.owner && t.owner[x] == g.owner[x]
  }

  // An operation whose client fd, handle, owners and result stand still stays in order.
  lemma SameOp(cfg: Config, g: Global, t: Global, j: nat)
    requires j in g.ops && OpOk(cfg, g, j) && j in t.ops && t.ops[j] == g.ops[j]
    requires |t.cl| == |g.cl| && g.next <= t.next
    requires g.ops[j].at.CloseReq? ||
             var c, fd := g.ops[j].c, g.ops[j].fd;
             && Stable(g.cl[c], t.cl[c], fd)
             && (Unused(g, c, fd) ==> Unused(t, c, fd) || Mapped(g.cl[c], fd))
    requires (j in g.lin <==> j in t.lin) && (j in g.lin ==> t.lin[j] == g.lin[j])
    requires OwnersSeenBy(g, t, j)
    ensures OpOk(cfg, t, j)
  {
  }

  lemma OtherOp(cfg: Config, g: Global, t: Global, k: nat, c: nat, fd: int, j: nat)
    requires Frame(g, t, k, c, fd) && j != k && j in g.ops && OpOk(cfg, g, j)
    requires OwnersSeenBy(g, t, j)
    requires !On(g, j, c, fd)
    ensures j in t.ops && OpOk(cfg, t, j)
  {
    var o := g.ops[j];
    if !o.at.CloseReq? {
      assert SameAt(g.cl[o.c], t.cl[o.c], o.fd);
      assert SameHandle(g, t, Posix.Handle(o.c, o.fd));
    }
    SameOp(cfg, g, t, j);
  }

  lemma OtherFd(cfg: Config, g: Global, t: Global, k: nat, c: nat, fd: int, d: nat, e: int)
    requires Frame(g, t, k, c, fd) && d < |g.cl| && (d != c || e != fd) && FdOk(cfg, g, d, e)
    requires forall x :: x in g.owner && g.owner[x] == ByClient(d, e) ==> x in t.owner && t.owner[x] == g.owner[x]
    ensures FdOk(cfg, t, d, e)
  {
    assert SameAt(g.cl[d], t.cl[d], e);
    assert SameHandle(g, t, Posix.Handle(d, e));
    if BeingClosed(g, d, e) {
      var m :| m in g.ops && g.ops[m] == Op(d, e, CloseUnmapped);
      assert t.ops[m] == g.ops[m];
    }
  }

  // An owner that has nothing to do with (c, fd), on a server record that still knows it.
  lemma OtherOwner(cfg: Config, g: Global, t: Global, k: nat, c: nat, fd: int, x: Remote)
    requires Frame(g, t, k, c, fd) && x in g.owner && OwnerOk(cfg, g, x)
    requires x in t.owner && t.owner[x] == g.owner[x]
    requires g.owner[x] != ByOp(k) && g.owner[x] != ByClient(c, fd)
    requires x.server < |t.sv| && x.fd in t.sv[x.server].kernel && x.fd in t.sv[x.server].fdToPath
    requires t.sv[x.server].fdToPath[x.fd] == g.sv[x.server].fdToPath[x.fd]
    requires x.fd > 0 ==> t.sv[x.server].kernel[x.fd] == g.sv[x.server].kernel[x.fd]
    ensures OwnerOk(cfg, t, x)
  {
    match g.owner[x]
    case ByClient(d, e) =>
      assert SameAt(g.cl[d], t.cl[d], e);
      assert SameHandle(g, t, Posix.Handle(d, e));
    case _ =>
  }

  lemma OtherPair(g: Global, t: Global, k: nat, c: nat, fd: int, i: nat, j: nat)
    requires Frame(g, t, k, c, fd) && i in t.ops && j in t.ops
    requires i != k && j != k ==> Compatible(g, i, j)
    requires k in t.ops ==> forall m :: m in t.ops ==> Compatible(t, m, k)
    ensures Compatible(t, i, j)
  {
    if j == k {
    } else if i == k {
      assert Compatible(t, j, k);
    }
  }

  // Only the owners that are operation k or client fd (c, fd), and leaked fds, change.
  ghost predicate KeepsOwners(g: Global, t: Global, k: nat, c: nat, fd: int)
  {
    forall x :: x in g.owner && g.owner[x] != ByOp(k) && g.owner[x] != ByClient(c, fd) && g.owner[x] != Leaked ==>
      x in t.owner && t.owner[x] == g.owner[x]
  }

  lemma WideOps(cfg: Config, g: Global, t: Global, k: nat, c: nat, fd: int)
    requires OpsOk(cfg, g) && Frame(g, t, k, c, fd) && KeepsOwners(g, t, k, c, fd)
    requires k in t.ops ==> OpOk(cfg, t, k)
    requires forall j :: j != k && On(g, j, c, fd) ==> OpOk(cfg, t, j)
    ensures OpsOk(cfg, t)
  {
    forall j | j in t.ops ensures OpOk(cfg, t, j) {
      if j != k && !On(g, j, c, fd) { OtherOp(cfg, g, t, k, c, fd, j); }
    }
  }

  lemma WidePairs(g: Global, t: Global, k: nat, c: nat, fd: int)
    requires PairsOk(g) && Frame(g, t, k, c, fd)
    requires k in t.ops ==> forall m :: m in t.ops ==> Compatible(t, m, k)
    ensures PairsOk(t)
  {
    forall i, j | i in t.ops && j in t.ops ensures Compatible(t, i, j) {
      if i != k && j != k { assert Compatible(g, i, j); }
      OtherPair(g, t, k, c, fd, i, j);
    }
  }

  lemma WideFds(cfg: Config, g: Global, t: Global, k: nat, c: nat, fd: int)
    requires FdsOk(cfg, g) && Frame(g, t, k, c, fd) && KeepsOwners(g, t, k, c, fd)
    requires FdOk(cfg, t, c, fd)
    ensures FdsOk(cfg, t)
  {
    forall d: nat, e | d < |t.cl| ensures FdOk(cfg, t, d, e) {
      if d != c || e != fd {
        assert FdOk(cfg, g, d, e);
        OtherFd(cfg, g, t, k, c, fd, d, e);
      }
    }
  }

  // ---------------------------------------------- the fd of the step itself

  // The step leaves its own fd as the other threads on it need it.
  lemma SteadyOps(cfg: Config, g: Global, t: Global, k: nat, c: nat, fd: int)
    requires OpsOk(cfg, g) && Frame(g, t, k, c, fd) && KeepsOwners(g, t, k, c, fd)
    requires forall x :: x in g.owner && g.owner[x] == ByClient(c, fd) ==> x in t.owner && t.owner[x] == g.owner[x]
    requires Stable(g.cl[c], t.cl[c], fd)
    requires Unused(g, c, fd) ==> Unused(t, c, fd) || Mapped(g.cl[c], fd)
    requires k in t.ops ==> OpOk(cfg, t, k)
    ensures OpsOk(cfg, t)
  {
    forall j | j != k && On(g, j, c, fd) ensures OpOk(cfg, t, j) { SameOp(cfg, g, t, j); }
    WideOps(cfg, g, t, k, c, fd);
  }

  lemma SteadyFds(cfg: Config, g: Global, t: Global, k: nat, c: nat, fd: int)
    requires FdsOk(cfg, g) && Frame(g, t, k, c, fd) && KeepsOwners(g, t, k, c, fd)
    requires forall x :: x in g.owner && g.owner[x] == ByClient(c, fd) ==> x in t.owner && t.owner[x] == g.owner[x]
    requires SameAt(g.cl[c], t.cl[c], fd) && SameHandle(g, t, Posix.Handle(c, fd))
    requires k in g.ops ==> !g.ops[k].at.CloseUnmapped?
    ensures FdsOk(cfg, t)
  {
    assert FdOk(cfg, g, c, fd);
    if BeingClosed(g, c, fd) {
      var m :| m in g.ops && g.ops[m] == Op(c, fd, CloseUnmapped);
      assert t.ops[m] == g.ops[m];
    }
    WideFds(cfg, g, t, k, c, fd);
  }

  lemma SteadyOwners(cfg: Config, g: Global, t: Global, k: nat, c: nat, fd: int)
    requires OwnersOk(cfg, g) && Frame(g, t, k, c, fd) && t.sv == g.sv && t.owner == g.owner
    requires k in g.ops ==> !g.ops[k].at.OpenResp? && !g.ops[k].at.CloseReq?
    requires Mapped(g.cl[c], fd) ==>
               && fd in t.cl[c].redir && t.cl[c].redir[fd] == g.cl[c].redir[fd]
               && (fd in g.cl[c].fdMap ==> fd in t.cl[c].fdMap && t.cl[c].fdMap[fd] == g.cl[c].fdMap[fd])
    requires forall cursor: nat :: CursorOk(g, Posix.Handle(c, fd), cursor) ==> CursorOk(t, Posix.Handle(c, fd), cursor)
    ensures OwnersOk(cfg, t)
  {
    forall x | x in t.owner ensures OwnerOk(cfg, t, x) {
      assert OwnerOk(cfg, g, x);
      if g.owner[x] != ByClient(c, fd) { OtherOwner(cfg, g, t, k, c, fd, x); }
    }
  }
}
