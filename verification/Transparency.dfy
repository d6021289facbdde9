// The job is transparent: its runs are runs of the simple file system.
module Transparency {
  import opened Files
  import opened FdTables
  import opened Protocol
  import opened ProtocolInv
  import opened Runs
  import Server
  import ServerRuns
  import Posix

  // A linked remote fd is open, serves the path its client opened, and its content is
  // the original's, whichever copy it sits on.
  lemma LinkedFd(cfg: Config, g: Global, c: nat, fd: int, s: nat, r: int)
    requires Inv(cfg, g) && Linked(cfg, g, c, fd, s, r)
    ensures s < |g.sv| && r in g.sv[s].kernel && r in g.sv[s].fdToPath
    ensures fd in g.cl[c].local && g.sv[s].fdToPath[r] == g.cl[c].fdMap[fd] == g.cl[c].local[fd].path
    ensures g.cl[c].local[fd].path in cfg.disk
    ensures Server.Content(cfg, g.sv[s], g.sv[s].kernel[r].file) == cfg.disk[g.cl[c].local[fd].path]
    ensures CursorOk(g, Posix.Handle(c, fd), g.sv[s].kernel[r].cursor)
    ensures g.spec[Posix.Handle(c, fd)].path == g.cl[c].local[fd].path
  {
    assert OwnerOk(cfg, g, Remote(s, r));
    assert FdOk(cfg, g, c, fd);
    ServerRuns.FdContent(cfg, s, g.sv[s], r);
  }

  // The server's cursor and content are the specification's.
  ghost predicate Synced(cfg: Config, g: Global, k: nat)
  {
    && Has(g, k) && g.ops[k].at.ReadReq? && g.ops[k].at.server < |g.sv|
    && var o, sv, h := g.ops[k], g.sv[g.ops[k].at.server], Posix.Handle(g.ops[k].c, g.ops[k].fd);
    && h in g.spec && g.spec[h].path in cfg.disk && o.at.rfd in sv.kernel && o.at.offset >= -1
    && Server.Content(cfg, sv, sv.kernel[o.at.rfd].file) == cfg.disk[g.spec[h].path]
    && CursorOk(g, h, sv.kernel[o.at.rfd].cursor)
  }

  lemma RequestSynced(cfg: Config, g: Global, k: nat)
    requires Inv(cfg, g) && Has(g, k) && g.ops[k].at.ReadReq?
    ensures Synced(cfg, g, k)
    ensures var x, fd := Mine(g, k), g.ops[k].fd;
            fd in x.local && x.local[fd].path == g.spec[Posix.Handle(g.ops[k].c, fd)].path
  {
    assert OpOk(cfg, g, k);
    var o := g.ops[k];
    LinkedFd(cfg, g, o.c, o.fd, o.at.server, o.at.rfd);
  }

  lemma ReadMeets(cfg: Config, g: Global, k: nat, n: nat)
    requires CanSrvRead(cfg, g, k, n) && Synced(cfg, g, k)
    ensures Posix.Accepts(cfg, g.spec, EventOf(cfg, g, OfIo(RServe(k, n))))
  {
  }

  lemma RemoteReadSimulates(cfg: Config, g: Global, k: nat, n: nat)
    requires Inv(cfg, g) && CanSrvRead(cfg, g, k, n)
    ensures Posix.Accepts(cfg, g.spec, EventOf(cfg, g, OfIo(RServe(k, n))))
  {
    RequestSynced(cfg, g, k);
    ReadMeets(cfg, g, k, n);
  }

  lemma RemoteSeekSimulates(cfg: Config, g: Global, k: nat, wild: int)
    requires Inv(cfg, g) && CanSrvSeek(cfg, g, k, wild)
    ensures Posix.Accepts(cfg, g.spec, EventOf(cfg, g, OfIo(SServe(k, wild))))
  {
    assert OpOk(cfg, g, k);
    var o := g.ops[k];
    assert FdOk(cfg, g, o.c, o.fd);
    if o.at.rfd > 0 {
      LinkedFd(cfg, g, o.c, o.fd, o.at.server, o.at.rfd);
    }
    SeekMeets(cfg, g, k, wild);
  }

  lemma SeekMeets(cfg: Config, g: Global, k: nat, wild: int)
    requires CanSrvSeek(cfg, g, k, wild)
    requires var o, h := g.ops[k], Posix.Handle(g.ops[k].c, g.ops[k].fd);
             && h in g.spec && g.spec[h].path in cfg.disk
             && (o.at.rfd > 0 ==>
                   var sv := g.sv[o.at.server];
                   && o.at.rfd in sv.kernel && CursorOk(g, h, sv.kernel[o.at.rfd].cursor)
                   && Server.Content(cfg, sv, sv.kernel[o.at.rfd].file) == cfg.disk[g.spec[h].path])
    ensures Posix.Accepts(cfg, g.spec, EventOf(cfg, g, OfIo(SServe(k, wild))))
  {
  }

  lemma LocalReadSimulates(cfg: Config, g: Global, k: nat, n: nat)
    requires Inv(cfg, g) && CanLocalRead(cfg, g, k, n)
    ensures Posix.Accepts(cfg, g.spec, EventOf(cfg, g, OfIo(RLocal(k, n))))
  {
    assert OpOk(cfg, g, k);
    assert FdOk(cfg, g, g.ops[k].c, g.ops[k].fd);
  }

  lemma ServedSlice(cfg: Config, g: Global, k: nat, n: nat, content: Bytes)
    requires CanSrvRead(cfg, g, k, n) && g.ops[k].at.offset >= 0
    requires var sv := g.sv[g.ops[k].at.server];
             content == Server.Content(cfg, sv, sv.kernel[g.ops[k].at.rfd].file)
    ensures ReadMeaning(content, g.ops[k].at.offset, g.ops[k].at.count, SrvReadOut(cfg, g, k, n))
  {
  }

  // A pread served remotely hands out the original file's slice, wherever the cursors of
  // either side stand and whichever copy the server has open.
  lemma ServedPreadIsTheSlice(cfg: Config, g: Global, k: nat, n: nat)
    requires Inv(cfg, g) && CanSrvRead(cfg, g, k, n) && g.ops[k].at.offset >= 0
    ensures var x, fd, out := Mine(g, k), g.ops[k].fd, SrvReadOut(cfg, g, k, n);
            && fd in x.local && x.local[fd].path in cfg.disk
            && ReadMeaning(cfg.disk[x.local[fd].path], g.ops[k].at.offset, g.ops[k].at.count, out)
  {
    RequestSynced(cfg, g, k);
    ServedSlice(cfg, g, k, n, cfg.disk[Mine(g, k).local[g.ops[k].fd].path]);
  }

  // A pread is told from a read by its offset alone.  On a mapped fd a pread at offset -1,
  // which POSIX refuses, puts the job in the very state a read would; no other offset does.
  lemma PreadIsReadIffSentinel(cfg: Config, g: Global, c: nat, fd: int, count: nat, offset: int)
    requires Inv(cfg, g) && CanReadBegin(cfg, g, c, fd, count) && Mapped(g.cl[c], fd)
    ensures PreadBegin(cfg, g, c, fd, count, offset) == ReadBegin(cfg, g, c, fd, count) <==> offset == -1
  {
    assert FdOk(cfg, g, c, fd);
    var x := g.cl[c];
    assert Touch(x, fd) == x;
    assert PreadBegin(cfg, g, c, fd, count, offset).ops[g.next].at == ReadWait(Host(cfg, x.fdMap[fd]), count, offset);
    assert ReadBegin(cfg, g, c, fd, count).ops[g.next].at == ReadWait(Host(cfg, x.fdMap[fd]), count, -1);
  }

  lemma StepAccepted(cfg: Config, g: Global, a: Action)
    requires Inv(cfg, g) && Enabled(cfg, g, a)
    ensures Posix.Accepts(cfg, g.spec, EventOf(cfg, g, a))
  {
    match a
    case OfOpen(OBegin(c, fd, _, _)) => assert FdOk(cfg, g, c, fd);
    case OfIo(RServe(k, n)) => RemoteReadSimulates(cfg, g, k, n);
    case OfIo(RLocal(k, n)) => LocalReadSimulates(cfg, g, k, n);
    case OfIo(SServe(k, wild)) => RemoteSeekSimulates(cfg, g, k, wild);
    case OfClose(CReal(k)) =>
      assert OpOk(cfg, g, k);
      assert FdOk(cfg, g, g.ops[k].c, g.ops[k].fd);
    case _ =>
  }

  lemma OpenMoves(cfg: Config, g: Global, a: OpenStep)
    requires OpenEnabled(cfg, g, a)
    ensures OpenApply(cfg, g, a).spec == Posix.Next(g.spec, EventOf(cfg, g, OfOpen(a)))
  {
  }

  lemma IoMoves(cfg: Config, g: Global, a: IoStep)
    requires IoEnabled(cfg, g, a)
    ensures IoApply(cfg, g, a).spec == Posix.Next(g.spec, EventOf(cfg, g, OfIo(a)))
  {
  }

  lemma IoSameHandles(cfg: Config, g: Global, a: IoStep)
    requires IoEnabled(cfg, g, a)
    ensures IoApply(cfg, g, a).spec.Keys == g.spec.Keys
  {
    IoMoves(cfg, g, a);
    SameHandles(g.spec, EventOf(cfg, g, OfIo(a)));
  }

  lemma SameHandles(st: Posix.State, ev: Posix.Event)
    requires !ev.OpenEv? && !ev.CloseEv?
    ensures Posix.Next(st, ev).Keys == st.Keys
  {
  }

  lemma CloseMoves(cfg: Config, g: Global, a: CloseStep)
    requires CloseEnabled(cfg, g, a)
    ensures CloseApply(cfg, g, a).spec == Posix.Next(g.spec, EventOf(cfg, g, OfClose(a)))
  {
  }

  lemma StepSimulates(cfg: Config, g: Global, a: Action)
    requires Inv(cfg, g) && Enabled(cfg, g, a)
    ensures Posix.Accepts(cfg, g.spec, EventOf(cfg, g, a))
    ensures Apply(cfg, g, a).spec == Posix.Next(g.spec, EventOf(cfg, g, a))
  {
    StepAccepted(cfg, g, a);
    match a
    case OfOpen(o) => OpenMoves(cfg, g, o);
    case OfIo(io) => IoMoves(cfg, g, io);
    case OfClose(x) => CloseMoves(cfg, g, x);
  }

  ghost function Events(cfg: Config, g: Global, run: seq<Action>): seq<Posix.Event>
    requires Valid(cfg, g, run)
    decreases |run|
  {
    if run == [] then [] else [EventOf(cfg, g, run[0])] + Events(cfg, Apply(cfg, g, run[0]), run[1..])
  }

  lemma {:induction false} RunSimulates(cfg: Config, g: Global, run: seq<Action>)
    requires Inv(cfg, g) && Valid(cfg, g, run)
    ensures Posix.AcceptsAll(cfg, g.spec, Events(cfg, g, run))
    decreases |run|
  {
    if run != [] {
      var t := Apply(cfg, g, run[0]);
      StepSimulates(cfg, g, run[0]);
      StepInv(cfg, g, run[0]);
      RunSimulates(cfg, t, run[1..]);
      assert Events(cfg, g, run)[1..] == Events(cfg, t, run[1..]);
    }
  }

  // Every interleaving of clients, servers, messages and movers is a behaviour of the
  // simple file system: each read, wherever served, hands out what the file holds at the
  // cursor of the side that served it.
  lemma Transparent(cfg: Config, g: Global, run: seq<Action>)
    requires Start(cfg, g) && Valid(cfg, g, run)
    ensures Posix.AcceptsAll(cfg, map[], Events(cfg, g, run))
  {
    StartInv(cfg, g);
    RunSimulates(cfg, g, run);
  }

  lemma {:induction false} FinalSpec(cfg: Config, g: Global, run: seq<Action>)
    requires Inv(cfg, g) && Valid(cfg, g, run)
    ensures Posix.Final(g.spec, Events(cfg, g, run)) == After(cfg, g, run).spec
    decreases |run|
  {
    if run != [] {
      var t := Apply(cfg, g, run[0]);
      StepSimulates(cfg, g, run[0]);
      StepInv(cfg, g, run[0]);
      FinalSpec(cfg, t, run[1..]);
      assert Events(cfg, g, run)[1..] == Events(cfg, t, run[1..]);
    }
  }
}
