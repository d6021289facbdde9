// Who holds what: ownership of server fds, delivery under reordering, leaks, the
// client's maps, the status machine and routing, in every reachable state.
module Resources {
  import opened Files
  import opened FdTables
  import opened Protocol
  import opened ProtocolInv
  import opened Runs
  import opened Settling
  import Steps = ProtocolSteps
  import Transparency
  import Server

  // ------------------------------------------------------------- ownership

  datatype Holder = InOpen(k: nat) | InClose(k: nat) | ClientFd(c: nat, fd: int) | Leak

  // The four ways a server fd can still matter, read off the state itself.
  ghost predicate Holds(cfg: Config, g: Global, h: Holder, x: Remote)
    requires cfg.count > 0
  {
    match h
    case InOpen(k) =>
      k in g.ops && g.ops[k].at.OpenResp? && g.ops[k].at.ret == x.fd && Host(cfg, g.ops[k].at.path) == x.server
    case InClose(k) => k in g.ops && g.ops[k].at.CloseReq? && g.ops[k].at.server == x.server && g.ops[k].at.rfd == x.fd
    case ClientFd(c, fd) =>
      && c < |g.cl| && Mapped(g.cl[c], fd) && g.cl[c].redir[fd] == x.fd
      && fd in g.cl[c].fdMap && Host(cfg, g.cl[c].fdMap[fd]) == x.server
    case Leak => x in g.owner && g.owner[x] == Leaked
  }

  lemma HolderIsOwner(cfg: Config, g: Global, h: Holder, x: Remote)
    requires Inv(cfg, g) && x.fd >= 0 && Holds(cfg, g, h, x)
    ensures x in g.owner
    ensures g.owner[x] == match h case InOpen(k) => ByOp(k) case InClose(k) => ByOp(k)
                                  case ClientFd(c, fd) => ByClient(c, fd) case Leak => Leaked
  {
    match h
    case InOpen(k) => assert OpOk(cfg, g, k);
    case InClose(k) => assert OpOk(cfg, g, k);
    case ClientFd(c, fd) => assert FdOk(cfg, g, c, fd);
    case Leak =>
  }

  lemma OwnerHolds(cfg: Config, g: Global, x: Remote) returns (h: Holder)
    requires Inv(cfg, g) && x in g.owner
    ensures Holds(cfg, g, h, x)
  {
    assert OwnerOk(cfg, g, x);
    match g.owner[x]
    case ByOp(k) => h := if g.ops[k].at.OpenResp? then InOpen(k) else InClose(k);
    case ByClient(c, fd) => h := ClientFd(c, fd);
    case Leaked => h := Leak;
  }

  // A server fd is open for clients exactly when someone holds it, and never two hold it.
  lemma OneHolder(cfg: Config, g: Global, x: Remote)
    requires Inv(cfg, g) && x.server < |g.sv| && x.fd >= 0
    ensures x.fd in g.sv[x.server].kernel <==> exists h :: Holds(cfg, g, h, x)
    ensures forall h, i :: Holds(cfg, g, h, x) && Holds(cfg, g, i, x) ==> h == i
  {
    if x.fd in g.sv[x.server].kernel {
      assert Remote(x.server, x.fd) == x;
      var h := OwnerHolds(cfg, g, x);
    }
    forall h | Holds(cfg, g, h, x) ensures x.fd in g.sv[x.server].kernel {
      HolderIsOwner(cfg, g, h, x);
      assert OwnerOk(cfg, g, x);
    }
    forall h, i | Holds(cfg, g, h, x) && Holds(cfg, g, i, x) ensures h == i {
      HolderIsOwner(cfg, g, h, x);
      HolderIsOwner(cfg, g, i, x);
    }
  }

  // -------------------------------------------- delivery under reordering

  // However closes are reordered with opens and reads, a read request and a seek of a
  // mapped fd name an fd that is open for the client's own path, and a close request one
  // that is open for the path its client had opened, which is the path the server queues.
  lemma RequestsNameOpenFds(cfg: Config, g: Global, k: nat)
    requires Inv(cfg, g) && k in g.ops
    ensures g.ops[k].at.ReadReq? || (g.ops[k].at.SeekReq? && g.ops[k].at.rfd > 0) ==>
              var st, x := g.ops[k].at, g.cl[g.ops[k].c];
              && st.server < |g.sv| && st.rfd in g.sv[st.server].kernel
              && g.ops[k].fd in x.local
              && g.sv[st.server].fdToPath[st.rfd] == x.local[g.ops[k].fd].path
    ensures g.ops[k].at.CloseReq? ==>
              var st := g.ops[k].at;
              && st.server < |g.sv| && st.rfd in g.sv[st.server].kernel
              && st.rfd in g.sv[st.server].fdToPath && g.sv[st.server].fdToPath[st.rfd] == st.path
              // the server's close succeeds whenever its handler gets to run
              && (g.sv[st.server].closing.None? ==> CanSrvClose(cfg, g, k))
  {
    assert OpOk(cfg, g, k);
    var o := g.ops[k];
    if o.at.ReadReq? || (o.at.SeekReq? && o.at.rfd > 0) {
      Transparency.LinkedFd(cfg, g, o.c, o.fd, o.at.server, o.at.rfd);
    } else if o.at.CloseReq? {
      assert OwnerOk(cfg, g, Remote(o.at.server, o.at.rfd));
    }
  }

  lemma OpenFdCanBeRead(cfg: Config, g: Global, k: nat)
    requires Has(g, k) && g.ops[k].at.ReadReq? && g.ops[k].at.offset >= -1
    requires var st := g.ops[k].at;
             st.server < |g.sv| && st.rfd in g.sv[st.server].kernel && g.sv[st.server].closing.None?
    ensures exists n: nat :: CanSrvRead(cfg, g, k, n)
  {
    var st := g.ops[k].at;
    var sv := g.sv[st.server];
    var size, pos := |Server.Content(cfg, sv, sv.kernel[st.rfd].file)|, Server.ReadPos(sv, st.rfd, st.offset);
    LengthExists(size, pos, st.count);
    var n :| 0 <= n <= st.count && ReadLength(size, pos, st.count, n);
    assert CanSrvRead(cfg, g, k, n);
  }

  // No read request is ever stuck: between close handlers its server can answer it.
  lemma ReadsCanBeServed(cfg: Config, g: Global, k: nat)
    requires Inv(cfg, g) && Has(g, k) && g.ops[k].at.ReadReq?
    ensures g.ops[k].at.server < |g.sv|
    ensures g.sv[g.ops[k].at.server].closing.None? ==> exists n: nat :: CanSrvRead(cfg, g, k, n)
  {
    Transparency.RequestSynced(cfg, g, k);
    if g.sv[g.ops[k].at.server].closing.None? { OpenFdCanBeRead(cfg, g, k); }
  }

  lemma LinkedIsMapped(cfg: Config, g: Global, c: nat, fd: int)
    requires Inv(cfg, g) && c < |g.cl|
    ensures Mapped(g.cl[c], fd) ==>
              fd in g.cl[c].fdMap && Linked(cfg, g, c, fd, Host(cfg, g.cl[c].fdMap[fd]), g.cl[c].redir[fd])
  {
    assert FdOk(cfg, g, c, fd);
  }

  lemma OpenKeepsMapping(cfg: Config, g: Global, a: OpenStep, c: nat, fd: int)
    requires OpsOk(cfg, g) && OpenEnabled(cfg, g, a) && c < |g.cl| && Mapped(g.cl[c], fd)
    ensures var t := OpenApply(cfg, g, a);
            c < |t.cl| && Mapped(t.cl[c], fd) && t.cl[c].redir[fd] == g.cl[c].redir[fd]
  {
    if a.OMap? {
      assert OpOk(cfg, g, a.k);
      OpenMapKeepsMapping(cfg, g, a.k, c, fd);
    } else {
      OpenKeepsRedir(cfg, g, a, c);
    }
  }

  lemma OpenKeepsRedir(cfg: Config, g: Global, a: OpenStep, c: nat)
    requires OpenEnabled(cfg, g, a) && !a.OMap? && c < |g.cl|
    ensures var t := OpenApply(cfg, g, a);
            c < |t.cl| && t.cl[c].redir == g.cl[c].redir
  {
  }

  lemma OpenMapKeepsMapping(cfg: Config, g: Global, k: nat, c: nat, fd: int)
    requires CanOpenMap(cfg, g, k) && OpOk(cfg, g, k) && c < |g.cl| && Mapped(g.cl[c], fd)
    ensures var t := OpenMap(cfg, g, k);
            c < |t.cl| && Mapped(t.cl[c], fd) && t.cl[c].redir[fd] == g.cl[c].redir[fd]
  {
  }

  lemma IoKeepsMapping(cfg: Config, g: Global, a: IoStep, c: nat, fd: int)
    requires IoEnabled(cfg, g, a) && c < |g.cl| && Mapped(g.cl[c], fd)
    ensures var t := IoApply(cfg, g, a);
            c < |t.cl| && Mapped(t.cl[c], fd) && t.cl[c].redir[fd] == g.cl[c].redir[fd]
  {
    IoClients(cfg, g, a, c);
  }

  lemma CloseKeepsMapping(cfg: Config, g: Global, a: CloseStep, c: nat, fd: int)
    requires CloseEnabled(cfg, g, a) && c < |g.cl| && Mapped(g.cl[c], fd)
    requires !(a.CBegin? && a.c == c && a.fd == fd)
    ensures var t := CloseApply(cfg, g, a);
            c < |t.cl| && Mapped(t.cl[c], fd) && t.cl[c].redir[fd] == g.cl[c].redir[fd]
  {
  }

  // Until the client itself closes its fd, no step of anyone closes or reuses the server
  // fd behind it: it stays mapped, open, and on the same path.
  lemma NobodyClosesItUnderMe(cfg: Config, g: Global, a: Action, c: nat, fd: int)
    requires Inv(cfg, g) && Enabled(cfg, g, a) && c < |g.cl| && Mapped(g.cl[c], fd)
    requires !(a.OfClose? && a.x.CBegin? && a.x.c == c && a.x.fd == fd)
    ensures var t := Apply(cfg, g, a);
            && c < |t.cl| && Mapped(t.cl[c], fd) && t.cl[c].redir[fd] == g.cl[c].redir[fd]
            && fd in t.cl[c].fdMap
            && var s := Host(cfg, t.cl[c].fdMap[fd]);
            && s < |t.sv| && t.cl[c].redir[fd] in t.sv[s].kernel
            && t.cl[c].redir[fd] in t.sv[s].fdToPath
            && t.sv[s].fdToPath[t.cl[c].redir[fd]] == t.cl[c].fdMap[fd]
  {
    match a {
      case OfOpen(o) => OpenKeepsMapping(cfg, g, o, c, fd);
      case OfIo(io) => IoKeepsMapping(cfg, g, io, c, fd);
      case OfClose(x) => CloseKeepsMapping(cfg, g, x, c, fd);
    }
    var t := Apply(cfg, g, a);
    StepInv(cfg, g, a);
    LinkedIsMapped(cfg, t, c, fd);
    Transparency.LinkedFd(cfg, t, c, fd, Host(cfg, t.cl[c].fdMap[fd]), t.cl[c].redir[fd]);
  }

  // ------------------------------------------------------------------ seek

  // hvac_remote_lseek checks neither the status nor the mapping.  Its request names the
  // client's own remote fd exactly when a positive mapping exists at that moment;
  // otherwise it names the server's fd 0.
  lemma SeekReachesIffMapped(cfg: Config, g: Global, c: nat, fd: int, off: int, whence: Whence)
    requires Inv(cfg, g) && CanSeekBegin(cfg, g, c, fd)
    ensures var t := SeekBegin(cfg, g, c, fd, off, whence);
            var st := t.ops[g.next].at;
            && st.SeekReq? && st.soff == off && st.whence == whence
            && (Linked(cfg, t, c, fd, st.server, st.rfd) <==> Mapped(g.cl[c], fd))
            && (!Mapped(g.cl[c], fd) ==> st.rfd == 0)
  {
    assert FdOk(cfg, g, c, fd);
  }

  // -------------------------------------------------------------- no leaks

  ghost predicate AllQuiet(g: Global)
  {
    && g.ops == map[]
    && (forall c: nat :: c < |g.cl| ==> g.cl[c].fdMap == map[])
    && (forall s: nat :: s < |g.sv| ==> g.sv[s].closing.None?)
  }

  ghost function LeakedOn(g: Global, s: nat): set<int>
  {
    set x | x in g.owner && x.server == s && g.owner[x] == Leaked :: x.fd
  }

  // When everything tracked was closed and nothing is in flight, what a server still has
  // open, and what fd_to_path still names, is exactly what leaked.
  lemma QuiescentServersHoldLeaksOnly(cfg: Config, g: Global, s: nat)
    requires Inv(cfg, g) && AllQuiet(g) && s < |g.sv|
    ensures g.sv[s].kernel.Keys == LeakedOn(g, s)
    ensures forall r :: r in g.sv[s].fdToPath && r >= 0 <==> r in LeakedOn(g, s)
  {
    assert Server.Inv(cfg, s, g.sv[s]);
    forall r | r in g.sv[s].kernel ensures r in LeakedOn(g, s) {
      var x := Remote(s, r);
      assert OwnerOk(cfg, g, x);
    }
    forall r | r in LeakedOn(g, s) ensures r in g.sv[s].kernel && r >= 0 {
      assert OwnerOk(cfg, g, Remote(s, r));
    }
  }

  // A close message that could not be sent although there was something to close, and an
  // open that a server answered with fd 0.
  ghost predicate Leaks(g: Global, a: Action)
  {
    || (a.OfClose? && a.x.CBegin? && !a.x.ok && a.x.c < |g.cl|
        && a.x.fd in g.cl[a.x.c].fdMap && Mapped(g.cl[a.x.c], a.x.fd))
    || (a.OfOpen? && a.o.OServe? && a.o.r == 0)
  }

  ghost predicate SomeStepLeaks(cfg: Config, g: Global, run: seq<Action>)
    requires Valid(cfg, g, run)
    decreases |run|
  {
    run != [] && (Leaks(g, run[0]) || SomeStepLeaks(cfg, Apply(cfg, g, run[0]), run[1..]))
  }

  ghost predicate LeakedFd(g: Global, x: Remote) { x in g.owner && g.owner[x] == Leaked }

  ghost predicate AboutToLeak(g: Global, k: nat) { k in g.ops && g.ops[k].at.OpenResp? && g.ops[k].at.ret == 0 }

  ghost predicate NothingLeaks(g: Global)
  {
    (forall x :: !LeakedFd(g, x)) && (forall k :: !AboutToLeak(g, k))
  }

  lemma IoKeepsOwners(cfg: Config, g: Global, a: IoStep)
    requires IoEnabled(cfg, g, a)
    ensures IoApply(cfg, g, a).owner == g.owner
  {
    if a.RServe? {
      assert SrvRead(cfg, g, a.k, a.n).owner == g.owner;
    } else if a.SServe? {
      assert SrvSeek(cfg, g, a.k, a.wild).owner == g.owner;
    } else if a.PBegin? {
      assert PreadBegin(cfg, g, a.c, a.fd, a.count, a.offset).owner == g.owner;
    }
  }

  // ----- a leak stays

  lemma OpenKeepsLeaks(cfg: Config, g: Global, a: OpenStep, x: Remote)
    requires OwnersOk(cfg, g) && OpsOk(cfg, g) && OpenEnabled(cfg, g, a) && LeakedFd(g, x)
    ensures LeakedFd(OpenApply(cfg, g, a), x)
  {
    assert OwnerOk(cfg, g, x);
    if a.OMap? { assert OpOk(cfg, g, a.k); }
  }

  lemma CloseKeepsLeaks(cfg: Config, g: Global, a: CloseStep, x: Remote)
    requires FdsOk(cfg, g) && OpsOk(cfg, g) && CloseEnabled(cfg, g, a) && LeakedFd(g, x)
    ensures LeakedFd(CloseApply(cfg, g, a), x)
  {
    if a.CBegin? { assert FdOk(cfg, g, a.c, a.fd); }
    if a.CServe? { assert OpOk(cfg, g, a.k); }
  }

  lemma OpenKeepsZeros(cfg: Config, g: Global, a: OpenStep, k: nat)
    requires OpenEnabled(cfg, g, a) && g.next !in g.ops && AboutToLeak(g, k)
    ensures !NothingLeaks(OpenApply(cfg, g, a))
  {
    var t := OpenApply(cfg, g, a);
    if a.OMap? && a.k == k {
      assert LeakedFd(t, Remote(Host(cfg, g.ops[k].at.path), 0));
    } else {
      OpenAlone(cfg, g, a);
      assert AboutToLeak(t, k);
    }
  }

  lemma StepKeepsLeaks(cfg: Config, g: Global, a: Action)
    requires Core(cfg, g) && Enabled(cfg, g, a) && !NothingLeaks(g)
    ensures !NothingLeaks(Apply(cfg, g, a))
  {
    FreshIds(cfg, g);
    var t := Apply(cfg, g, a);
    if x :| LeakedFd(g, x) {
      match a {
        case OfOpen(o) => OpenKeepsLeaks(cfg, g, o, x);
        case OfIo(io) => IoKeepsOwners(cfg, g, io);
        case OfClose(c) => CloseKeepsLeaks(cfg, g, c, x);
      }
      assert LeakedFd(t, x);
    } else {
      var k :| AboutToLeak(g, k);
      match a {
        case OfOpen(o) => OpenKeepsZeros(cfg, g, o, k);
        case OfIo(io) =>
          IoAlone(cfg, g, io);
          assert AboutToLeak(t, k);
        case OfClose(c) =>
          CloseKeepsZeros(cfg, g, c, k);
          assert AboutToLeak(t, k);
      }
    }
  }

  lemma CloseKeepsZeros(cfg: Config, g: Global, a: CloseStep, k: nat)
    requires CloseEnabled(cfg, g, a) && AboutToLeak(g, k) && g.next !in g.ops && g.next + 1 !in g.ops
    ensures AboutToLeak(CloseApply(cfg, g, a), k)
  {
  }

  // ----- a leak comes about in the two ways only

  lemma LeaksLeak(cfg: Config, g: Global, a: Action)
    requires FdsOk(cfg, g) && Enabled(cfg, g, a) && Leaks(g, a)
    ensures !NothingLeaks(Apply(cfg, g, a))
  {
    var t := Apply(cfg, g, a);
    if a.OfOpen? {
      assert AboutToLeak(t, a.o.k);
    } else {
      var x := g.cl[a.x.c];
      assert LeakedFd(t, Remote(Host(cfg, x.fdMap[a.x.fd]), x.redir[a.x.fd]));
    }
  }

  lemma ServeLeaksNothing(cfg: Config, g: Global, k: nat, r: int)
    requires CanSrvOpen(cfg, g, k, r) && r != 0 && NothingLeaks(g)
    ensures NothingLeaks(SrvOpen(cfg, g, k, r))
  {
    var t := SrvOpen(cfg, g, k, r);
    forall x ensures !LeakedFd(t, x) { assert !LeakedFd(g, x); }
    forall j ensures !AboutToLeak(t, j) { assert !AboutToLeak(g, j); }
  }

  lemma MapLeaksNothing(cfg: Config, g: Global, k: nat)
    requires CanOpenMap(cfg, g, k) && NothingLeaks(g)
    ensures NothingLeaks(OpenMap(cfg, g, k))
  {
    var t := OpenMap(cfg, g, k);
    assert !AboutToLeak(g, k);
    forall x ensures !LeakedFd(t, x) { assert !LeakedFd(g, x); }
    forall j ensures !AboutToLeak(t, j) { assert !AboutToLeak(g, j); }
  }

  lemma OpenLeaksNothing(cfg: Config, g: Global, a: OpenStep)
    requires OpenEnabled(cfg, g, a) && !Leaks(g, OfOpen(a)) && NothingLeaks(g)
    ensures NothingLeaks(OpenApply(cfg, g, a))
  {
    if a.OServe? {
      ServeLeaksNothing(cfg, g, a.k, a.r);
    } else if a.OMap? {
      MapLeaksNothing(cfg, g, a.k);
    } else {
      OtherOpenLeaksNothing(cfg, g, a);
    }
  }

  lemma OtherOpenLeaksNothing(cfg: Config, g: Global, a: OpenStep)
    requires OpenEnabled(cfg, g, a) && !a.OServe? && !a.OMap? && NothingLeaks(g)
    ensures NothingLeaks(OpenApply(cfg, g, a))
  {
    var t := OpenApply(cfg, g, a);
    assert t.owner == g.owner;
    forall x ensures !LeakedFd(t, x) { assert !LeakedFd(g, x); }
    forall j ensures !AboutToLeak(t, j) { assert !AboutToLeak(g, j); }
  }

  lemma IoLeaksNothing(cfg: Config, g: Global, a: IoStep)
    requires IoEnabled(cfg, g, a) && g.next !in g.ops && NothingLeaks(g)
    ensures NothingLeaks(IoApply(cfg, g, a))
  {
    var t := IoApply(cfg, g, a);
    IoKeepsOwners(cfg, g, a);
    IoAlone(cfg, g, a);
    forall x ensures !LeakedFd(t, x) { assert !LeakedFd(g, x); }
    forall j ensures !AboutToLeak(t, j) { assert !AboutToLeak(g, j); }
  }

  lemma CloseLeaksNothing(cfg: Config, g: Global, a: CloseStep)
    requires FdsOk(cfg, g) && CloseEnabled(cfg, g, a) && !Leaks(g, OfClose(a)) && NothingLeaks(g)
    ensures NothingLeaks(CloseApply(cfg, g, a))
  {
    var t := CloseApply(cfg, g, a);
    if a.CBegin? { assert FdOk(cfg, g, a.c, a.fd); }
    forall x ensures !LeakedFd(t, x) { assert !LeakedFd(g, x); }
    forall j ensures !AboutToLeak(t, j) {
      assert !AboutToLeak(g, j);
      if j in t.ops { CloseThreadsOn(cfg, g, a, j); }
    }
  }

  lemma StepLeaks(cfg: Config, g: Global, a: Action)
    requires Inv(cfg, g) && Enabled(cfg, g, a)
    ensures NothingLeaks(Apply(cfg, g, a)) <==> NothingLeaks(g) && !Leaks(g, a)
  {
    FreshIds(cfg, g);
    if !NothingLeaks(g) {
      StepKeepsLeaks(cfg, g, a);
    } else if Leaks(g, a) {
      LeaksLeak(cfg, g, a);
    } else {
      match a
      case OfOpen(o) => OpenLeaksNothing(cfg, g, o);
      case OfIo(io) => IoLeaksNothing(cfg, g, io);
      case OfClose(c) => CloseLeaksNothing(cfg, g, c);
    }
  }

  lemma {:induction false} RunLeaks(cfg: Config, g: Global, run: seq<Action>)
    requires Inv(cfg, g) && Valid(cfg, g, run)
    ensures NothingLeaks(After(cfg, g, run)) <==> NothingLeaks(g) && !SomeStepLeaks(cfg, g, run)
    decreases |run|
  {
    if run != [] {
      StepLeaks(cfg, g, run[0]);
      StepInv(cfg, g, run[0]);
      RunLeaks(cfg, Apply(cfg, g, run[0]), run[1..]);
    }
  }

  // At quiescence every server is empty if and only if, in the run that led there, no
  // close message of a mapped fd failed to leave and no server answered an open with 0.
  lemma LeakFreeIff(cfg: Config, g: Global, run: seq<Action>)
    requires Start(cfg, g) && Valid(cfg, g, run) && AllQuiet(After(cfg, g, run))
    ensures (forall s: nat :: s < |After(cfg, g, run).sv| ==> After(cfg, g, run).sv[s].kernel == map[])
            <==> !SomeStepLeaks(cfg, g, run)
    ensures !SomeStepLeaks(cfg, g, run) ==>
              forall s: nat, r :: s < |After(cfg, g, run).sv| && r in After(cfg, g, run).sv[s].fdToPath ==> r < 0
  {
    StartInv(cfg, g);
    RunInv(cfg, g, run);
    RunLeaks(cfg, g, run);
    var t := After(cfg, g, run);
    if NothingLeaks(t) {
      forall s: nat | s < |t.sv|
        ensures t.sv[s].kernel == map[] && forall r :: r in t.sv[s].fdToPath ==> r < 0
      {
        QuiescentServersHoldLeaksOnly(cfg, t, s);
        forall x: Remote ensures x in t.owner ==> t.owner[x] != Leaked { assert !LeakedFd(t, x); }
        assert LeakedOn(t, s) == {};
      }
    } else {
      var x :| LeakedFd(t, x);
      assert OwnerOk(cfg, t, x);
    }
  }

  // ------------------------------------------------- the client's own maps

  // fd_state_map and the positive part of fd_redir_map lie within fd_map, whose keys are
  // really open fds; so an fd number the kernel hands out anew carries nothing old.
  lemma ClientMaps(cfg: Config, g: Global, c: nat, fd: int)
    requires Inv(cfg, g) && c < |g.cl|
    ensures fd in g.cl[c].status || Mapped(g.cl[c], fd) ==> fd in g.cl[c].fdMap
    ensures fd in g.cl[c].fdMap ==> fd in g.cl[c].local && g.cl[c].local[fd].path == g.cl[c].fdMap[fd]
    ensures forall p :: CanOpenBegin(cfg, g, c, fd, p) ==>
              fd !in g.cl[c].status && fd !in g.cl[c].fdMap && !Mapped(g.cl[c], fd)
              && forall x :: x in g.owner ==> g.owner[x] != ByClient(c, fd)
  {
    assert FdOk(cfg, g, c, fd);
    if !Mapped(g.cl[c], fd) { Steps.NoRemote(cfg, g, c, fd); }
  }

  // -------------------------------------------------------- status machine

  lemma OpenSettlesOnce(cfg: Config, g: Global, a: OpenStep, c: nat, fd: int)
    requires OpsOk(cfg, g) && OpenEnabled(cfg, g, a) && c < |g.cl|
    requires fd in g.cl[c].status && g.cl[c].status[fd] != OPENING
    ensures var t := OpenApply(cfg, g, a);
            fd in t.cl[c].status && t.cl[c].status[fd] == g.cl[c].status[fd]
  {
    if !a.OBegin? { assert OpOk(cfg, g, a.k); }
  }

  // A status object leaves OPENING at most once: READY and ERROR stay until the object
  // is erased by close.
  lemma SettlesOnce(cfg: Config, g: Global, a: Action, c: nat, fd: int)
    requires OpsOk(cfg, g) && Enabled(cfg, g, a) && c < |g.cl|
    requires fd in g.cl[c].status && g.cl[c].status[fd] != OPENING
    ensures var t := Apply(cfg, g, a);
            c < |t.cl| && (fd in t.cl[c].status ==> t.cl[c].status[fd] == g.cl[c].status[fd])
  {
    match a
    case OfOpen(o) => OpenSettlesOnce(cfg, g, o, c, fd);
    case OfIo(io) => IoKeepsStatus(cfg, g, io, c);
    case OfClose(x) => CloseOnlyErases(cfg, g, x, c, fd);
  }

  lemma IoKeepsStatus(cfg: Config, g: Global, a: IoStep, c: nat)
    requires IoEnabled(cfg, g, a) && c < |g.cl|
    ensures c < |IoApply(cfg, g, a).cl| && IoApply(cfg, g, a).cl[c].status == g.cl[c].status
  {
    IoClients(cfg, g, a, c);
  }

  lemma CloseOnlyErases(cfg: Config, g: Global, a: CloseStep, c: nat, fd: int)
    requires CloseEnabled(cfg, g, a) && c < |g.cl| && fd in g.cl[c].status
    ensures var t := CloseApply(cfg, g, a);
            c < |t.cl| && (fd in t.cl[c].status ==> t.cl[c].status[fd] == g.cl[c].status[fd])
  {
  }

  // READY means mapped, until close(2) takes the mapping away; and a read whose wait said
  // READY finds the mapping when it looks.
  lemma ReadyMeansMapped(cfg: Config, g: Global, c: nat, fd: int)
    requires Inv(cfg, g) && c < |g.cl| && NotClosing(g, c, fd)
    ensures fd in g.cl[c].status && g.cl[c].status[fd] == READY ==> Mapped(g.cl[c], fd)
    ensures forall k :: k in g.ops && g.ops[k].c == c && g.ops[k].fd == fd && g.ops[k].at.ReadReady? ==>
              Mapped(g.cl[c], fd) && ReadDispatch(g, k, true).ops[k].at.ReadReq?
  {
    assert FdOk(cfg, g, c, fd);
    assert !BeingClosed(g, c, fd);
    forall k | k in g.ops && g.ops[k].c == c && g.ops[k].fd == fd && g.ops[k].at.ReadReady?
      ensures Mapped(g.cl[c], fd)
    {
      assert OpOk(cfg, g, k);
    }
  }

  // ---------------------------------------------------------------- routing

  ghost predicate Knows(s: Server.Server, p: Path)
  {
    || p in s.cache || p in s.queue || p in s.local
    || (exists r :: r in s.fdToPath && s.fdToPath[r] == p)
    || (exists f :: f in s.published && s.published[f] == p)
  }

  // All clients agree on the server of a path: no other server ever opens, queues, copies
  // or maps it, and every request about a tracked fd goes there.
  lemma OneServerPerPath(cfg: Config, g: Global, s: nat, p: Path)
    requires Inv(cfg, g) && s < |g.sv| && Knows(g.sv[s], p)
    ensures s == Host(cfg, p)
  {
    assert Server.Inv(cfg, s, g.sv[s]);
  }

  lemma RequestsGoToTheHost(cfg: Config, g: Global, k: nat)
    requires Inv(cfg, g) && k in g.ops
    ensures var o := g.ops[k];
            && (o.at.ReadWait? || o.at.ReadReady? || o.at.ReadReq? || o.at.SeekReq? ==>
                  o.c < |g.cl| && o.fd in g.cl[o.c].local && o.at.server == Host(cfg, g.cl[o.c].local[o.fd].path))
            && (o.at.CloseReq? ==>
                  && o.at.server < |g.sv| && o.at.rfd in g.sv[o.at.server].fdToPath
                  && o.at.server == Host(cfg, g.sv[o.at.server].fdToPath[o.at.rfd]))
  {
    assert OpOk(cfg, g, k);
    var o := g.ops[k];
    if o.at.CloseReq? {
      assert OwnerOk(cfg, g, Remote(o.at.server, o.at.rfd));
      assert Server.Inv(cfg, o.at.server, g.sv[o.at.server]);
    } else {
      assert FdOk(cfg, g, o.c, o.fd);
    }
  }
}
