// The status of a client fd while its open is under way and after: OPENING is seen only as
// long as the open has not returned, so a thread that was handed the fd never waits.
module Settling {
  import opened Files
  import opened FdTables
  import opened Protocol
  import opened ProtocolInv
  import opened Runs
  import Posix

  ghost predicate IsOn(g: Global, k: nat, c: nat, fd: int)
  {
    k in g.ops && g.ops[k].c == c && g.ops[k].fd == fd
  }

  ghost predicate NoOpen(g: Global, c: nat, fd: int)
  {
    forall k :: IsOn(g, k, c, fd) ==> !IsOpen(g.ops[k].at)
  }

  predicate Unsettled(st: Stage) { st.Opening? || st.OpenReq? || st.OpenResp? || st.OpenMapped? }

  ghost predicate UnderWay(g: Global, c: nat, fd: int)
  {
    exists k :: IsOn(g, k, c, fd) && Unsettled(g.ops[k].at)
  }

  // In fd_map without a status object: registered but not yet OPENING, or half closed.
  ghost predicate HalfWay(g: Global, c: nat, fd: int)
  {
    exists k :: IsOn(g, k, c, fd) && (g.ops[k].at.Registered? || g.ops[k].at.CloseCleaned?)
  }

  ghost predicate Settled(g: Global, c: nat, fd: int)
  {
    c < |g.cl| ==>
      var x := g.cl[c];
      && (fd in x.status && x.status[fd] == OPENING ==> UnderWay(g, c, fd))
      && (fd in x.fdMap ==> fd in x.status || HalfWay(g, c, fd))
      && (fd in x.status && x.status[fd] == ERROR ==> !Mapped(x, fd))
  }

  // From g to t nothing changed for this client fd but its cursor.
  ghost predicate Untouched(g: Global, t: Global, c: nat, fd: int)
    requires c < |g.cl|
  {
    && c < |t.cl|
    && (fd in g.cl[c].fdMap <==> fd in t.cl[c].fdMap)
    && (fd in g.cl[c].status <==> fd in t.cl[c].status)
    && (fd in g.cl[c].status ==> t.cl[c].status[fd] == g.cl[c].status[fd])
    && (Mapped(g.cl[c], fd) <==> Mapped(t.cl[c], fd))
  }

  // ... nor for the threads that open or close it.
  ghost predicate SameThreads(g: Global, t: Global, c: nat, fd: int)
  {
    && (forall k :: IsOn(g, k, c, fd) && (IsOpen(g.ops[k].at) || IsClosing(g.ops[k].at)) ==>
          k in t.ops && t.ops[k] == g.ops[k])
    && (forall k :: IsOn(t, k, c, fd) && (IsOpen(t.ops[k].at) || IsClosing(t.ops[k].at)) ==>
          k in g.ops && t.ops[k] == g.ops[k])
  }

  lemma StaysSettled(g: Global, t: Global, c: nat, fd: int)
    requires c < |g.cl| && Settled(g, c, fd) && Untouched(g, t, c, fd) && SameThreads(g, t, c, fd)
    ensures Settled(t, c, fd)
  {
    if UnderWay(g, c, fd) {
      var k :| IsOn(g, k, c, fd) && Unsettled(g.ops[k].at);
      assert IsOn(t, k, c, fd);
    }
    if HalfWay(g, c, fd) {
      var k :| IsOn(g, k, c, fd) && (g.ops[k].at.Registered? || g.ops[k].at.CloseCleaned?);
      assert IsOn(t, k, c, fd);
    }
  }

  // The operations other than k stand still, and k stays where it was.
  ghost predicate Alone(g: Global, t: Global, k: nat)
  {
    && (forall j :: j != k ==> (j in g.ops <==> j in t.ops) && (j in g.ops ==> t.ops[j] == g.ops[j]))
    && (k in g.ops && k in t.ops ==> t.ops[k].c == g.ops[k].c && t.ops[k].fd == g.ops[k].fd)
  }

  // ---------------------------------------------------------------- open

  ghost function OpenActor(g: Global, a: OpenStep): nat { if a.OBegin? then g.next else a.k }

  lemma OpenAlone(cfg: Config, g: Global, a: OpenStep)
    requires OpenEnabled(cfg, g, a) && g.next !in g.ops
    ensures var t, k := OpenApply(cfg, g, a), OpenActor(g, a);
            && Alone(g, t, k)
            && (a.OBegin? && k in t.ops ==> t.ops[k].c == a.c && t.ops[k].fd == a.fd)
  {
  }

  lemma OpenActs(cfg: Config, g: Global, a: OpenStep)
    requires OpenEnabled(cfg, g, a) && g.next !in g.ops
    ensures var t, k := OpenApply(cfg, g, a), OpenActor(g, a);
            k in t.ops ==> IsOpen(t.ops[k].at)
  {
  }

  ghost predicate OpenOn(g: Global, a: OpenStep, c: nat, fd: int)
  {
    if a.OBegin? then a.c == c && a.fd == fd else IsOn(g, a.k, c, fd)
  }

  // An open changes the maps at its own fd only.
  lemma OpenMaps(cfg: Config, g: Global, a: OpenStep, c: nat, fd: int)
    requires OpenEnabled(cfg, g, a) && c < |g.cl| && !OpenOn(g, a, c, fd)
    ensures Untouched(g, OpenApply(cfg, g, a), c, fd)
  {
    var t := OpenApply(cfg, g, a);
    if a.OMap? {
      OpenMapMaps(cfg, g, a.k, c, fd);
    } else {
      assert t.cl[c].redir == g.cl[c].redir;
    }
  }

  lemma OpenMapMaps(cfg: Config, g: Global, k: nat, c: nat, fd: int)
    requires CanOpenMap(cfg, g, k) && c < |g.cl| && !IsOn(g, k, c, fd)
    ensures Untouched(g, OpenMap(cfg, g, k), c, fd)
  {
  }

  lemma OpenElsewhere(cfg: Config, g: Global, a: OpenStep, c: nat, fd: int)
    requires OpenEnabled(cfg, g, a) && c < |g.cl| && !OpenOn(g, a, c, fd) && g.next !in g.ops
    ensures var t := OpenApply(cfg, g, a);
            Untouched(g, t, c, fd) && SameThreads(g, t, c, fd)
  {
    OpenMaps(cfg, g, a, c, fd);
    OpenAlone(cfg, g, a);
  }

  lemma OpenSettles(cfg: Config, g: Global, a: OpenStep, c: nat, fd: int)
    requires OpenEnabled(cfg, g, a) && c < |g.cl| && OpenOn(g, a, c, fd)
    requires FdOk(cfg, g, c, fd) && Settled(g, c, fd) && PairsOk(g)
    requires !a.OBegin? ==> OpOk(cfg, g, a.k)
    ensures Settled(OpenApply(cfg, g, a), c, fd)
  {
    if a.OBegin? {
      assert fd !in OpenApply(cfg, g, a).cl[c].fdMap;
    } else {
      OpenGoesOnSettled(cfg, g, a);
    }
  }

  // An open under way has its fd for itself but for reads, so its own stage is the witness.
  lemma OpenGoesOnSettled(cfg: Config, g: Global, a: OpenStep)
    requires OpenEnabled(cfg, g, a) && !a.OBegin?
    requires Settled(g, g.ops[a.k].c, g.ops[a.k].fd) && PairsOk(g) && OpOk(cfg, g, a.k)
    ensures Settled(OpenApply(cfg, g, a), g.ops[a.k].c, g.ops[a.k].fd)
  {
    var t, c, fd := OpenApply(cfg, g, a), g.ops[a.k].c, g.ops[a.k].fd;
    assert a.k in t.ops ==> IsOn(t, a.k, c, fd);
    forall j | IsOn(g, j, c, fd) && j != a.k ensures !IsOpen(g.ops[j].at) && !IsClosing(g.ops[j].at) {
      assert Compatible(g, j, a.k);
    }
  }

  // ------------------------------------------------------------ read, lseek

  ghost function IoActor(g: Global, a: IoStep): nat
  {
    if a.RBegin? || a.PBegin? || a.SBegin? then g.next else a.k
  }

  predicate IsIo(st: Stage) { !IsOpen(st) && !IsClosing(st) && !st.CloseReq? }

  lemma IoAlone(cfg: Config, g: Global, a: IoStep)
    requires IoEnabled(cfg, g, a) && g.next !in g.ops
    ensures var t, k := IoApply(cfg, g, a), IoActor(g, a);
            && Alone(g, t, k)
            && (k in g.ops ==> IsIo(g.ops[k].at)) && (k in t.ops ==> IsIo(t.ops[k].at))
  {
    if a.RBegin? || a.PBegin? || a.SBegin? { IoBegins(cfg, g, a); } else { IoGoesOn(cfg, g, a); }
  }

  lemma IoBegins(cfg: Config, g: Global, a: IoStep)
    requires IoEnabled(cfg, g, a) && (a.RBegin? || a.PBegin? || a.SBegin?)
    ensures var t := IoApply(cfg, g, a);
            && g.next in t.ops && IsIo(t.ops[g.next].at)
            && t.ops == g.ops[g.next := Op(a.c, a.fd, t.ops[g.next].at)]
  {
    match a
    case RBegin(c, fd, count) => assert IoApply(cfg, g, a) == ReadBegin(cfg, g, c, fd, count);
    case PBegin(c, fd, count, offset) => PreadBegins(cfg, g, c, fd, count, offset);
    case SBegin(c, fd, off, whence) => assert IoApply(cfg, g, a) == SeekBegin(cfg, g, c, fd, off, whence);
  }

  lemma PreadBegins(cfg: Config, g: Global, c: nat, fd: int, count: nat, offset: int)
    requires CanReadBegin(cfg, g, c, fd, count)
    ensures var t := PreadBegin(cfg, g, c, fd, count, offset);
            && g.next in t.ops && IsIo(t.ops[g.next].at)
            && t.ops == g.ops[g.next := Op(c, fd, t.ops[g.next].at)]
  {
    var x, y := g.cl[c], Touch(g.cl[c], fd);
    var st := if fd !in x.fdMap then ReadLocal(count, offset, Posix.Untracked)
      else if y.redir[fd] != 0 then ReadWait(Host(cfg, x.fdMap[fd]), count, offset)
      else ReadLocal(count, offset, Posix.NotReady);
    assert PreadBegin(cfg, g, c, fd, count, offset) == Begin(g, c, fd, if fd in x.fdMap then y else x, st);
  }

  lemma IoGoesOn(cfg: Config, g: Global, a: IoStep)
    requires IoEnabled(cfg, g, a) && !(a.RBegin? || a.PBegin? || a.SBegin?)
    ensures var t := IoApply(cfg, g, a);
            && a.k in g.ops && IsIo(g.ops[a.k].at)
            && (t.ops == g.ops - {a.k}
                || (a.k in t.ops && t.ops == g.ops[a.k := g.ops[a.k].(at := t.ops[a.k].at)] && IsIo(t.ops[a.k].at)))
  {
  }

  // Reads and seeks touch a client's maps only by inserting zeroes and moving a cursor.
  lemma IoClients(cfg: Config, g: Global, a: IoStep, c: nat)
    requires IoEnabled(cfg, g, a) && c < |g.cl|
    ensures var t := IoApply(cfg, g, a);
            && c < |t.cl|
            && t.cl[c] == g.cl[c].(redir := t.cl[c].redir, local := t.cl[c].local)
            && (t.cl[c].redir == g.cl[c].redir
                || ((a.PBegin? || a.SBegin?) && t.cl[c].redir == Touch(g.cl[c], a.fd).redir))
  {
    var t := IoApply(cfg, g, a);
    if a.PBegin? {
      PreadBeginClients(cfg, g, a.c, a.fd, a.count, a.offset);
    } else if !a.SBegin? && !a.RLocal? {
      IoQuiet(cfg, g, a);
    }
  }

  lemma PreadBeginClients(cfg: Config, g: Global, c: nat, fd: int, count: nat, offset: int)
    requires CanReadBegin(cfg, g, c, fd, count)
    ensures var t := PreadBegin(cfg, g, c, fd, count, offset);
            t.cl == g.cl || t.cl == g.cl[c := Touch(g.cl[c], fd)]
  {
  }

  lemma IoQuiet(cfg: Config, g: Global, a: IoStep)
    requires IoEnabled(cfg, g, a) && !a.PBegin? && !a.SBegin? && !a.RLocal?
    ensures IoApply(cfg, g, a).cl == g.cl
  {
  }

  lemma IoMaps(cfg: Config, g: Global, a: IoStep, c: nat, fd: int)
    requires IoEnabled(cfg, g, a) && c < |g.cl|
    ensures Untouched(g, IoApply(cfg, g, a), c, fd)
  {
    IoClients(cfg, g, a, c);
  }

  lemma IoElsewhere(cfg: Config, g: Global, a: IoStep, c: nat, fd: int)
    requires IoEnabled(cfg, g, a) && c < |g.cl| && g.next !in g.ops
    ensures var t := IoApply(cfg, g, a);
            Untouched(g, t, c, fd) && SameThreads(g, t, c, fd)
  {
    IoMaps(cfg, g, a, c, fd);
    IoAlone(cfg, g, a);
  }

  // ---------------------------------------------------------------- close

  ghost predicate CloseOn(g: Global, a: CloseStep, c: nat, fd: int)
  {
    match a
    case CBegin(d, e, _) => d == c && e == fd
    case CCleanup(k) => IsOn(g, k, c, fd)
    case CForget(k) => IsOn(g, k, c, fd)
    case CReal(k) => IsOn(g, k, c, fd)
    case _ => false
  }

  // What a step of close(2), or on a server, leaves among the threads and messages.
  lemma CloseThreadsOn(cfg: Config, g: Global, a: CloseStep, k: nat)
    requires CloseEnabled(cfg, g, a) && k in CloseApply(cfg, g, a).ops
    ensures var t := CloseApply(cfg, g, a);
            (k in g.ops && t.ops[k] == g.ops[k]) || IsClosing(t.ops[k].at) || t.ops[k].at.CloseReq?
  {
    if a.CBegin? { CloseBeginThreadsOn(cfg, g, a.c, a.fd, a.ok, k); }
  }

  lemma CloseBeginThreadsOn(cfg: Config, g: Global, c: nat, fd: int, ok: bool, k: nat)
    requires CanCloseBegin(cfg, g, c, fd) && k in CloseBegin(cfg, g, c, fd, ok).ops
    ensures var t := CloseBegin(cfg, g, c, fd, ok);
            (k in g.ops && t.ops[k] == g.ops[k]) || IsClosing(t.ops[k].at) || t.ops[k].at.CloseReq?
  {
  }

  lemma CloseElsewhere(cfg: Config, g: Global, a: CloseStep, c: nat, fd: int)
    requires CloseEnabled(cfg, g, a) && c < |g.cl| && !CloseOn(g, a, c, fd) && g.next !in g.ops
    requires g.next + 1 !in g.ops
    ensures var t := CloseApply(cfg, g, a);
            Untouched(g, t, c, fd) && SameThreads(g, t, c, fd)
  {
    CloseMaps(cfg, g, a, c, fd);
    CloseThreads(cfg, g, a, c, fd);
  }

  lemma CloseMaps(cfg: Config, g: Global, a: CloseStep, c: nat, fd: int)
    requires CloseEnabled(cfg, g, a) && c < |g.cl| && !CloseOn(g, a, c, fd)
    ensures Untouched(g, CloseApply(cfg, g, a), c, fd)
  {
    if a.CBegin? {
      CloseBeginMaps(cfg, g, a.c, a.fd, a.ok, c, fd);
    } else if a.CServe? || a.CInner? {
      assert CloseApply(cfg, g, a).cl == g.cl;
    }
  }

  lemma CloseBeginMaps(cfg: Config, g: Global, d: nat, e: int, ok: bool, c: nat, fd: int)
    requires CanCloseBegin(cfg, g, d, e) && c < |g.cl| && (d != c || e != fd)
    ensures Untouched(g, CloseBegin(cfg, g, d, e, ok), c, fd)
  {
  }

  lemma CloseThreads(cfg: Config, g: Global, a: CloseStep, c: nat, fd: int)
    requires CloseEnabled(cfg, g, a) && c < |g.cl| && !CloseOn(g, a, c, fd)
    requires g.next !in g.ops && g.next + 1 !in g.ops
    ensures SameThreads(g, CloseApply(cfg, g, a), c, fd)
  {
    if a.CBegin? {
      CloseBeginThreads(cfg, g, a.c, a.fd, a.ok, c, fd);
    } else if a.CServe? {
      assert CloseApply(cfg, g, a).ops == g.ops - {a.k};
    }
  }

  lemma CloseBeginThreads(cfg: Config, g: Global, d: nat, e: int, ok: bool, c: nat, fd: int)
    requires CanCloseBegin(cfg, g, d, e) && (d != c || e != fd)
    requires g.next !in g.ops && g.next + 1 !in g.ops
    ensures SameThreads(g, CloseBegin(cfg, g, d, e, ok), c, fd)
  {
  }

  lemma CloseSettles(cfg: Config, g: Global, a: CloseStep, c: nat, fd: int)
    requires CloseEnabled(cfg, g, a) && c < |g.cl| && CloseOn(g, a, c, fd)
    requires FdOk(cfg, g, c, fd) && Settled(g, c, fd) && PairsOk(g)
    requires !a.CBegin? ==> OpOk(cfg, g, a.k)
    ensures Settled(CloseApply(cfg, g, a), c, fd)
  {
    var t := CloseApply(cfg, g, a);
    if !a.CBegin? {
      assert a.k in t.ops ==> IsOn(t, a.k, c, fd);
      forall j | IsOn(g, j, c, fd) && j != a.k ensures !IsOpen(g.ops[j].at) && !IsClosing(g.ops[j].at) {
        assert Compatible(g, j, a.k);
      }
    }
  }

  // ------------------------------------------------------------------ runs

  ghost predicate AllSettled(g: Global)
  {
    forall c: nat, fd :: Settled(g, c, fd)
  }

  lemma FreshIds(cfg: Config, g: Global)
    requires OpsOk(cfg, g)
    ensures g.next !in g.ops && g.next + 1 !in g.ops
  {
    forall j | j in g.ops ensures j < g.next { assert OpOk(cfg, g, j); }
  }

  lemma SameClients(cfg: Config, g: Global, a: Action)
    requires Enabled(cfg, g, a)
    ensures |Apply(cfg, g, a).cl| == |g.cl|
  {
    match a
    case OfOpen(o) => OpenSameClients(cfg, g, o);
    case OfIo(io) => IoSameClients(cfg, g, io);
    case OfClose(x) => CloseSameClients(cfg, g, x);
  }

  lemma OpenSameClients(cfg: Config, g: Global, a: OpenStep)
    requires OpenEnabled(cfg, g, a)
    ensures |OpenApply(cfg, g, a).cl| == |g.cl|
  {
  }

  lemma IoSameClients(cfg: Config, g: Global, a: IoStep)
    requires IoEnabled(cfg, g, a)
    ensures |IoApply(cfg, g, a).cl| == |g.cl|
  {
  }

  lemma CloseSameClients(cfg: Config, g: Global, a: CloseStep)
    requires CloseEnabled(cfg, g, a)
    ensures |CloseApply(cfg, g, a).cl| == |g.cl|
  {
  }

  lemma StepSettled(cfg: Config, g: Global, a: Action, c: nat, fd: int)
    requires Core(cfg, g) && Enabled(cfg, g, a) && Settled(g, c, fd) && c < |g.cl|
    ensures Settled(Apply(cfg, g, a), c, fd)
  {
    FreshIds(cfg, g);
    assert FdOk(cfg, g, c, fd);
    var t := Apply(cfg, g, a);
    match a
    case OfOpen(o) =>
      if OpenOn(g, o, c, fd) {
        assert !o.OBegin? ==> OpOk(cfg, g, o.k);
        OpenSettles(cfg, g, o, c, fd);
      } else {
        OpenElsewhere(cfg, g, o, c, fd);
        StaysSettled(g, t, c, fd);
      }
    case OfIo(io) =>
      IoElsewhere(cfg, g, io, c, fd);
      StaysSettled(g, t, c, fd);
    case OfClose(x) =>
      if CloseOn(g, x, c, fd) {
        assert !x.CBegin? ==> OpOk(cfg, g, x.k);
        CloseSettles(cfg, g, x, c, fd);
      } else {
        CloseElsewhere(cfg, g, x, c, fd);
        StaysSettled(g, t, c, fd);
      }
  }

  lemma StepAllSettled(cfg: Config, g: Global, a: Action)
    requires Inv(cfg, g) && Enabled(cfg, g, a) && AllSettled(g)
    ensures AllSettled(Apply(cfg, g, a))
  {
    SameClients(cfg, g, a);
    forall c: nat, fd ensures Settled(Apply(cfg, g, a), c, fd) {
      if c < |g.cl| { StepSettled(cfg, g, a, c, fd); }
    }
  }

  lemma {:induction false} RunSettled(cfg: Config, g: Global, run: seq<Action>)
    requires Inv(cfg, g) && Valid(cfg, g, run) && AllSettled(g)
    ensures AllSettled(After(cfg, g, run))
    decreases |run|
  {
    if run != [] {
      StepAllSettled(cfg, g, run[0]);
      StepInv(cfg, g, run[0]);
      RunSettled(cfg, Apply(cfg, g, run[0]), run[1..]);
    }
  }

  // Once the open of an fd has returned its status is final: hvac_wait_fd_ready answers at
  // once, READY or ERROR, unless close(2) is taking the fd away.
  lemma NobodyWaitsOnceOpened(cfg: Config, g: Global, run: seq<Action>, c: nat, fd: int)
    requires Start(cfg, g) && Valid(cfg, g, run)
    requires var t := After(cfg, g, run);
             c < |t.cl| && fd in t.cl[c].fdMap && NoOpen(t, c, fd) && NotClosing(t, c, fd)
    ensures var x := After(cfg, g, run).cl[c];
            fd in x.status && (x.status[fd] == READY || x.status[fd] == ERROR)
  {
    StartInv(cfg, g);
    RunSettled(cfg, g, run);
    assert Settled(After(cfg, g, run), c, fd);
  }
}
