// The whole job: client processes, servers and the requests between them, as one
// transition system.  Every action is one atomic step of one thread; messages are
// delivered at most once and in any order.
module Protocol {
  import opened Files
  import opened FdTables
  import Server
  import Posix

  datatype Remote = Remote(server: nat, fd: int)

  // One outstanding operation: a thread of client `c` busy with `fd`, or a message.
  datatype Op = Op(c: nat, fd: int, at: Stage)

  datatype Stage =
    // open(2): real open done, fd_map set, status OPENING, request sent, answered,
    // mapping written, status settled
    | Opened(path: Path)
    | Registered(path: Path)
    | Opening(path: Path)
    | OpenReq(path: Path)
    | OpenResp(path: Path, ret: int)
    | OpenMapped(path: Path, ret: int)
    | OpenSettled
    // read(2) (offset -1) and pread(2): waiting for READY, found READY, bound for the
    // real call, request sent, bulk transfer running, answered
    | ReadWait(server: nat, count: nat, offset: int)
    | ReadReady(server: nat, count: nat, offset: int)
    | ReadLocal(count: nat, offset: int, why: Posix.Why)
    | ReadReq(server: nat, rfd: int, count: nat, offset: int)
    | ReadBulk(data: Bytes)
    | ReadResp(data: Bytes)
    // hvac_remote_lseek
    | SeekReq(server: nat, rfd: int, soff: int, whence: Whence)
    | SeekResp(res: int)
    // the close message, and close(2) after it was sent
    | CloseReq(server: nat, rfd: int, path: Path)   // path: what the client had opened
    | CloseUnmapped
    | CloseCleaned
    | CloseForgot

  datatype Owner = ByOp(k: nat) | ByClient(c: nat, fd: int) | Leaked

  datatype Value = Data(bytes: Bytes) | Offset(pos: int)

  datatype Global = Global(
    cl: seq<Client>,
    sv: seq<Server.Server>,
    ops: map<nat, Op>,
    next: nat,                    // operation ids are never reused
    // history variables, which no guard reads
    owner: map<Remote, Owner>,    // who answers for each open server fd
    spec: Posix.State,            // the simple file system the job should look like
    lin: map<nat, Value>,         // the result of each operation where it took effect
    log: map<nat, Value>)         // the result handed back to the application

  predicate IsOpen(st: Stage)
  {
    st.Opened? || st.Registered? || st.Opening? || st.OpenReq? || st.OpenResp? || st.OpenMapped? || st.OpenSettled?
  }

  predicate IsClosing(st: Stage) { st.CloseUnmapped? || st.CloseCleaned? || st.CloseForgot? }

  // ------------------------------------------------------------- helpers

  predicate Has(g: Global, k: nat) { k in g.ops && g.ops[k].c < |g.cl| }

  // Nobody is busy with this fd; a close message travels on its own.
  ghost predicate Idle(g: Global, c: nat, fd: int)
  {
    forall k :: k in g.ops && g.ops[k].c == c && g.ops[k].fd == fd ==> g.ops[k].at.CloseReq?
  }

  ghost predicate NotClosing(g: Global, c: nat, fd: int)
  {
    forall k :: k in g.ops && g.ops[k].c == c && g.ops[k].fd == fd ==> !IsClosing(g.ops[k].at)
  }

  function Mine(g: Global, k: nat): Client
    requires Has(g, k)
  {
    g.cl[g.ops[k].c]
  }

  // The thread or message `k` moves on to stage `st`, its client's maps become `x`.
  function Go(g: Global, k: nat, x: Client, st: Stage): Global
    requires Has(g, k)
  {
    g.(cl := g.cl[g.ops[k].c := x], ops := g.ops[k := g.ops[k].(at := st)])
  }

  // The operation is over.
  function Finish(g: Global, k: nat, x: Client): Global
    requires Has(g, k)
  {
    g.(cl := g.cl[g.ops[k].c := x], ops := g.ops - {k})
  }

  function Begin(g: Global, c: nat, fd: int, x: Client, st: Stage): Global
    requires c < |g.cl|
  {
    g.(cl := g.cl[c := x], ops := g.ops[g.next := Op(c, fd, st)], next := g.next + 1)
  }

  function OnServer(cfg: Config, g: Global, s: nat, a: Server.Act): Global
    requires s < |g.sv| && Server.Enabled(cfg, g.sv[s], a)
  {
    g.(sv := g.sv[s := Server.Apply(cfg, g.sv[s], a)])
  }

  // ---------------------------------------------------------------- open

  predicate CanOpenBegin(cfg: Config, g: Global, c: nat, fd: int, p: Path)
  {
    c < |g.cl| && fd >= 0 && fd !in g.cl[c].local && p in cfg.disk
  }

  // The real open returned fd.  Untracked files need nothing more.
  function OpenBegin(cfg: Config, g: Global, c: nat, fd: int, p: Path, tracked: bool): Global
    requires CanOpenBegin(cfg, g, c, fd, p)
  {
    var x := RealOpen(g.cl[c], fd, p);
    var h := if tracked then Begin(g, c, fd, x, Opened(p)) else g.(cl := g.cl[c := x]);
    h.(spec := Posix.Next(g.spec, Posix.OpenEv(Posix.Handle(c, fd), p)))
  }

  function OpenRegister(g: Global, k: nat): Global
    requires Has(g, k) && g.ops[k].at.Opened?
  {
    var p := g.ops[k].at.path;
    Go(g, k, Register(Mine(g, k), g.ops[k].fd, p), Registered(p))
  }

  function OpenMark(g: Global, k: nat): Global
    requires Has(g, k) && g.ops[k].at.Registered?
  {
    Go(g, k, SetOpening(Mine(g, k), g.ops[k].fd), Opening(g.ops[k].at.path))
  }

  function OpenDispatch(g: Global, k: nat, ok: bool): Global
    requires Has(g, k) && g.ops[k].at.Opening?
  {
    if ok then Go(g, k, Mine(g, k), OpenReq(g.ops[k].at.path))
    else Finish(g, k, SetError(Mine(g, k), g.ops[k].fd))
  }

  predicate CanSrvOpen(cfg: Config, g: Global, k: nat, r: int)
  {
    && Has(g, k) && g.ops[k].at.OpenReq? && cfg.count > 0
    && Host(cfg, g.ops[k].at.path) < |g.sv|
    && Server.Enabled(cfg, g.sv[Host(cfg, g.ops[k].at.path)], Server.Open(g.ops[k].at.path, r))
  }

  function SrvOpen(cfg: Config, g: Global, k: nat, r: int): Global
    requires CanSrvOpen(cfg, g, k, r)
  {
    var p := g.ops[k].at.path;
    var s := Host(cfg, p);
    var h := OnServer(cfg, g, s, Server.Open(p, r));
    h.(ops := g.ops[k := g.ops[k].(at := OpenResp(p, r))],
       owner := if r >= 0 then g.owner[Remote(s, r) := ByOp(k)] else g.owner)
  }

  predicate CanOpenMap(cfg: Config, g: Global, k: nat)
  {
    Has(g, k) && g.ops[k].at.OpenResp? && cfg.count > 0
  }

  // First half of the open callback.  Remote fd 0 counts as a failure and leaks.
  function OpenMap(cfg: Config, g: Global, k: nat): Global
    requires CanOpenMap(cfg, g, k)
  {
    var p, r, fd := g.ops[k].at.path, g.ops[k].at.ret, g.ops[k].fd;
    var x := Remote(Host(cfg, p), r);
    if r > 0 then
      Go(g, k, MapRemote(Mine(g, k), fd, r), OpenMapped(p, r)).(owner := g.owner[x := ByClient(g.ops[k].c, fd)])
    else
      Go(g, k, SetError(Mine(g, k), fd), OpenSettled).(owner := if r == 0 then g.owner[x := Leaked] else g.owner)
  }

  function OpenReady(g: Global, k: nat): Global
    requires Has(g, k) && g.ops[k].at.OpenMapped?
  {
    Go(g, k, SetReady(Mine(g, k), g.ops[k].fd), OpenSettled)
  }

  function OpenReturn(g: Global, k: nat): Global
    requires Has(g, k) && g.ops[k].at.OpenSettled?
  {
    Finish(g, k, Mine(g, k))
  }

  // ------------------------------------------------------- read and pread

  ghost predicate CanReadBegin(cfg: Config, g: Global, c: nat, fd: int, count: nat)
  {
    c < |g.cl| && cfg.count > 0 && fd in g.cl[c].local && NotClosing(g, c, fd) && 1 <= count < 0x8000_0000
  }

  // read(2): the request will carry offset -1.
  ghost function ReadBegin(cfg: Config, g: Global, c: nat, fd: int, count: nat): Global
    requires CanReadBegin(cfg, g, c, fd, count)
  {
    var x := g.cl[c];
    Begin(g, c, fd, x, if fd !in x.fdMap then ReadLocal(count, -1, Posix.Untracked)
                       else ReadWait(Host(cfg, x.fdMap[fd]), count, -1))
  }

  // pread(2) looks at fd_redir_map[fd] first; the request will carry its own offset.
  ghost function PreadBegin(cfg: Config, g: Global, c: nat, fd: int, count: nat, offset: int): Global
    requires CanReadBegin(cfg, g, c, fd, count)
  {
    var x := g.cl[c];
    if fd !in x.fdMap then
      Begin(g, c, fd, x, ReadLocal(count, offset, Posix.Untracked))
    else
      var y := Touch(x, fd);
      Begin(g, c, fd, y, if y.redir[fd] != 0 then ReadWait(Host(cfg, x.fdMap[fd]), count, offset)
                         else ReadLocal(count, offset, Posix.NotReady))
  }

  // hvac_wait_fd_ready returns true only on READY; it returns false on ERROR, when
  // there is no status object, and when it times out while still OPENING.
  function WaitReturn(g: Global, k: nat): Global
    requires Has(g, k) && g.ops[k].at.ReadWait?
  {
    var st, x, fd := g.ops[k].at, Mine(g, k), g.ops[k].fd;
    Go(g, k, x,
       if fd in x.status && x.status[fd] == READY then ReadReady(st.server, st.count, st.offset)
       else ReadLocal(st.count, st.offset, Posix.NotReady))
  }

  function ReadDispatch(g: Global, k: nat, ok: bool): Global
    requires Has(g, k) && g.ops[k].at.ReadReady?
  {
    var st, x, fd := g.ops[k].at, Mine(g, k), g.ops[k].fd;
    Go(g, k, x,
       if fd !in x.redir || x.redir[fd] == 0 then ReadLocal(st.count, st.offset, Posix.NotReady)
       else if ok then ReadReq(st.server, x.redir[fd], st.count, st.offset)
       else ReadLocal(st.count, st.offset, Posix.NotSent))
  }

  function ReadAct(st: Stage, n: nat): Server.Act
    requires st.ReadReq?
  {
    Server.Read(st.rfd, st.offset, st.count, n)
  }

  predicate CanSrvRead(cfg: Config, g: Global, k: nat, n: nat)
  {
    && Has(g, k) && g.ops[k].at.ReadReq? && g.ops[k].at.server < |g.sv|
    && Server.Enabled(cfg, g.sv[g.ops[k].at.server], ReadAct(g.ops[k].at, n))
  }

  function SrvReadOut(cfg: Config, g: Global, k: nat, n: nat): Bytes
    requires CanSrvRead(cfg, g, k, n)
  {
    var st := g.ops[k].at;
    Server.ReadResult(cfg, g.sv[st.server], st.rfd, st.offset, n)
  }

  function ReadEvent(g: Global, k: nat, side: Posix.Side, count: nat, offset: int, out: Bytes): Posix.Event
    requires k in g.ops
  {
    var h := Posix.Handle(g.ops[k].c, g.ops[k].fd);
    if offset < 0 then Posix.ReadEv(h, side, count, out) else Posix.PreadEv(h, count, offset, out)
  }

  // The read handler: this is where a remote read takes effect.
  function SrvRead(cfg: Config, g: Global, k: nat, n: nat): Global
    requires CanSrvRead(cfg, g, k, n)
  {
    var st, out := g.ops[k].at, SrvReadOut(cfg, g, k, n);
    OnServer(cfg, g, st.server, ReadAct(st, n)).(
      ops := g.ops[k := g.ops[k].(at := ReadBulk(out))],
      lin := g.lin[k := Data(out)],
      spec := Posix.Next(g.spec, ReadEvent(g, k, Posix.RemoteSide, st.count, st.offset, out)))
  }

  function BulkDone(g: Global, k: nat): Global
    requires Has(g, k) && g.ops[k].at.ReadBulk?
  {
    Go(g, k, Mine(g, k), ReadResp(g.ops[k].at.data))
  }

  function ReadReturn(g: Global, k: nat): Global
    requires Has(g, k) && g.ops[k].at.ReadResp?
  {
    Finish(g, k, Mine(g, k)).(log := g.log[k := Data(g.ops[k].at.data)])
  }

  function LocalPos(g: Global, k: nat): nat
    requires Has(g, k) && g.ops[k].at.ReadLocal? && g.ops[k].fd in Mine(g, k).local
  {
    if g.ops[k].at.offset < 0 then Mine(g, k).local[g.ops[k].fd].cursor else g.ops[k].at.offset
  }

  predicate CanLocalRead(cfg: Config, g: Global, k: nat, n: nat)
  {
    && Has(g, k) && g.ops[k].at.ReadLocal? && g.ops[k].fd in Mine(g, k).local
    && Mine(g, k).local[g.ops[k].fd].path in cfg.disk
    && ReadLength(|cfg.disk[Mine(g, k).local[g.ops[k].fd].path]|, LocalPos(g, k), g.ops[k].at.count, n)
  }

  function LocalOut(cfg: Config, g: Global, k: nat, n: nat): Bytes
    requires CanLocalRead(cfg, g, k, n)
  {
    Chunk(cfg.disk[Mine(g, k).local[g.ops[k].fd].path], LocalPos(g, k), n)
  }

  // The fallback, and every read of an untracked file: the real read or pread.
  function LocalDone(cfg: Config, g: Global, k: nat, n: nat): Global
    requires CanLocalRead(cfg, g, k, n)
  {
    var st, x, fd, out := g.ops[k].at, Mine(g, k), g.ops[k].fd, LocalOut(cfg, g, k, n);
    Finish(g, k, if st.offset < 0 then LocalRead(x, fd, n) else x).(
      lin := g.lin[k := Data(out)],
      log := g.log[k := Data(out)],
      spec := Posix.Next(g.spec, ReadEvent(g, k, Posix.LocalSide(st.why), st.count, st.offset, out)))
  }

  // ---------------------------------------------------------------- lseek

  ghost predicate CanSeekBegin(cfg: Config, g: Global, c: nat, fd: int)
  {
    c < |g.cl| && cfg.count > 0 && fd in g.cl[c].local && fd in g.cl[c].fdMap && NotClosing(g, c, fd)
  }

  // No wait for READY and no check of the mapping: without one, remote fd 0 is named.
  ghost function SeekBegin(cfg: Config, g: Global, c: nat, fd: int, off: int, whence: Whence): Global
    requires CanSeekBegin(cfg, g, c, fd)
  {
    var y := Touch(g.cl[c], fd);
    Begin(g, c, fd, y, SeekReq(Host(cfg, y.fdMap[fd]), y.redir[fd], off, whence))
  }

  function SeekAct(st: Stage): Server.Act
    requires st.SeekReq?
  {
    Server.Seek(st.rfd, st.soff, st.whence)
  }

  // A seek on an fd the server has not open for a client hits whatever the server
  // process has there; its answer `wild` is arbitrary.
  predicate CanSrvSeek(cfg: Config, g: Global, k: nat, wild: int)
  {
    && Has(g, k) && g.ops[k].at.SeekReq? && g.ops[k].at.server < |g.sv|
    && g.sv[g.ops[k].at.server].closing.None?
    && FitsInt32(SrvSeekRes(cfg, g, k, wild))
  }

  function SrvSeekRes(cfg: Config, g: Global, k: nat, wild: int): int
    requires k in g.ops && g.ops[k].at.SeekReq? && g.ops[k].at.server < |g.sv|
  {
    var st := g.ops[k].at;
    var sv := g.sv[st.server];
    if st.rfd in sv.kernel then Server.SeekResult(cfg, sv, st.rfd, st.soff, st.whence) else wild
  }

  function SeekEvent(g: Global, k: nat, res: int): Posix.Event
    requires k in g.ops && g.ops[k].at.SeekReq?
  {
    var st := g.ops[k].at;
    Posix.SeekEv(Posix.Handle(g.ops[k].c, g.ops[k].fd), st.rfd > 0, st.soff, st.whence, res)
  }

  function SrvSeek(cfg: Config, g: Global, k: nat, wild: int): Global
    requires CanSrvSeek(cfg, g, k, wild)
  {
    var st, res := g.ops[k].at, SrvSeekRes(cfg, g, k, wild);
    var h := if st.rfd in g.sv[st.server].kernel then OnServer(cfg, g, st.server, SeekAct(st)) else g;
    h.(ops := g.ops[k := g.ops[k].(at := SeekResp(res))],
       lin := g.lin[k := Offset(res)],
       spec := Posix.Next(g.spec, SeekEvent(g, k, res)))
  }

  function SeekReturn(g: Global, k: nat): Global
    requires Has(g, k) && g.ops[k].at.SeekResp?
  {
    Finish(g, k, Mine(g, k)).(log := g.log[k := Offset(g.ops[k].at.res)])
  }

  // ---------------------------------------------------------------- close

  // The application closes an fd it is not using otherwise.
  ghost predicate CanCloseBegin(cfg: Config, g: Global, c: nat, fd: int)
  {
    c < |g.cl| && cfg.count > 0 && fd in g.cl[c].local && Idle(g, c, fd)
  }

  // Sending the close request and erasing the mapping are one step; when the send
  // fails the mapping is erased all the same and the remote fd leaks.
  ghost function CloseBegin(cfg: Config, g: Global, c: nat, fd: int, ok: bool): Global
    requires CanCloseBegin(cfg, g, c, fd)
  {
    var x := g.cl[c];
    if fd !in x.fdMap then
      Begin(g, c, fd, x, CloseForgot)
    else
      var h := Begin(g, c, fd, Unmap(x, fd), CloseUnmapped);
      if fd in x.redir && x.redir[fd] != 0 then
        var s := Host(cfg, x.fdMap[fd]);
        var remote := Remote(s, x.redir[fd]);
        if ok then
          h.(ops := h.ops[h.next := Op(c, fd, CloseReq(s, x.redir[fd], x.fdMap[fd]))], next := h.next + 1,
             owner := g.owner[remote := ByOp(h.next)])
        else
          h.(owner := g.owner[remote := Leaked])
      else h
  }

  function CloseCleanup(g: Global, k: nat): Global
    requires Has(g, k) && g.ops[k].at.CloseUnmapped?
  {
    Go(g, k, Cleanup(Mine(g, k), g.ops[k].fd), CloseCleaned)
  }

  function CloseForget(g: Global, k: nat): Global
    requires Has(g, k) && g.ops[k].at.CloseCleaned?
  {
    Go(g, k, Forget(Mine(g, k), g.ops[k].fd), CloseForgot)
  }

  function CloseReal(g: Global, k: nat): Global
    requires Has(g, k) && g.ops[k].at.CloseForgot?
  {
    Finish(g, k, RealClose(Mine(g, k), g.ops[k].fd)).(
      spec := Posix.Next(g.spec, Posix.CloseEv(Posix.Handle(g.ops[k].c, g.ops[k].fd))))
  }

  predicate CanSrvClose(cfg: Config, g: Global, k: nat)
  {
    && Has(g, k) && g.ops[k].at.CloseReq? && g.ops[k].at.server < |g.sv|
    && Server.Enabled(cfg, g.sv[g.ops[k].at.server], Server.CloseTest(g.ops[k].at.rfd))
  }

  function SrvClose(cfg: Config, g: Global, k: nat): Global
    requires CanSrvClose(cfg, g, k)
  {
    var st := g.ops[k].at;
    OnServer(cfg, g, st.server, Server.CloseTest(st.rfd)).(
      ops := g.ops - {k}, owner := g.owner - {Remote(st.server, st.rfd)})
  }

  // ------------------------------------------------------- server threads

  predicate CanSrvInner(cfg: Config, g: Global, s: nat, a: Server.Act)
  {
    s < |g.sv| && (a.ClosePush? || Server.IsMover(a)) && Server.Enabled(cfg, g.sv[s], a)
  }

  // The second half of a close handler, or a step of the data mover.
  function SrvInner(cfg: Config, g: Global, s: nat, a: Server.Act): Global
    requires CanSrvInner(cfg, g, s, a)
  {
    OnServer(cfg, g, s, a)
  }

  // ------------------------------------------------------- all the actions

  datatype OpenStep =
    | OBegin(c: nat, fd: int, path: Path, tracked: bool)
    | ORegister(k: nat)
    | OMark(k: nat)
    | ODispatch(k: nat, ok: bool)
    | OServe(k: nat, r: int)
    | OMap(k: nat)
    | OReady(k: nat)
    | OReturn(k: nat)

  ghost predicate OpenEnabled(cfg: Config, g: Global, a: OpenStep)
  {
    match a
    case OBegin(c, fd, p, _) => CanOpenBegin(cfg, g, c, fd, p)
    case ORegister(k) => Has(g, k) && g.ops[k].at.Opened?
    case OMark(k) => Has(g, k) && g.ops[k].at.Registered?
    case ODispatch(k, _) => Has(g, k) && g.ops[k].at.Opening?
    case OServe(k, r) => CanSrvOpen(cfg, g, k, r)
    case OMap(k) => CanOpenMap(cfg, g, k)
    case OReady(k) => Has(g, k) && g.ops[k].at.OpenMapped?
    case OReturn(k) => Has(g, k) && g.ops[k].at.OpenSettled?
  }

  ghost function OpenApply(cfg: Config, g: Global, a: OpenStep): Global
    requires OpenEnabled(cfg, g, a)
  {
    match a
    case OBegin(c, fd, p, tracked) => OpenBegin(cfg, g, c, fd, p, tracked)
    case ORegister(k) => OpenRegister(g, k)
    case OMark(k) => OpenMark(g, k)
    case ODispatch(k, ok) => OpenDispatch(g, k, ok)
    case OServe(k, r) => SrvOpen(cfg, g, k, r)
    case OMap(k) => OpenMap(cfg, g, k)
    case OReady(k) => OpenReady(g, k)
    case OReturn(k) => OpenReturn(g, k)
  }

  datatype IoStep =
    | RBegin(c: nat, fd: int, count: nat)
    | PBegin(c: nat, fd: int, count: nat, offset: nat)
    | RWait(k: nat)
    | RDispatch(k: nat, ok: bool)
    | RServe(k: nat, n: nat)
    | RBulk(k: nat)
    | RReturn(k: nat)
    | RLocal(k: nat, n: nat)
    | SBegin(c: nat, fd: int, off: int, whence: Whence)
    | SServe(k: nat, wild: int)
    | SReturn(k: nat)

  ghost predicate IoEnabled(cfg: Config, g: Global, a: IoStep)
  {
    match a
    case RBegin(c, fd, count) => CanReadBegin(cfg, g, c, fd, count)
    case PBegin(c, fd, count, _) => CanReadBegin(cfg, g, c, fd, count)
    case RWait(k) => Has(g, k) && g.ops[k].at.ReadWait?
    case RDispatch(k, _) => Has(g, k) && g.ops[k].at.ReadReady?
    case RServe(k, n) => CanSrvRead(cfg, g, k, n)
    case RBulk(k) => Has(g, k) && g.ops[k].at.ReadBulk?
    case RReturn(k) => Has(g, k) && g.ops[k].at.ReadResp?
    case RLocal(k, n) => CanLocalRead(cfg, g, k, n)
    case SBegin(c, fd, _, _) => CanSeekBegin(cfg, g, c, fd)
    case SServe(k, wild) => CanSrvSeek(cfg, g, k, wild)
    case SReturn(k) => Has(g, k) && g.ops[k].at.SeekResp?
  }

  ghost function IoApply(cfg: Config, g: Global, a: IoStep): Global
    requires IoEnabled(cfg, g, a)
  {
    match a
    case RBegin(c, fd, count) => ReadBegin(cfg, g, c, fd, count)
    case PBegin(c, fd, count, offset) => PreadBegin(cfg, g, c, fd, count, offset)
    case RWait(k) => WaitReturn(g, k)
    case RDispatch(k, ok) => ReadDispatch(g, k, ok)
    case RServe(k, n) => SrvRead(cfg, g, k, n)
    case RBulk(k) => BulkDone(g, k)
    case RReturn(k) => ReadReturn(g, k)
    case RLocal(k, n) => LocalDone(cfg, g, k, n)
    case SBegin(c, fd, off, whence) => SeekBegin(cfg, g, c, fd, off, whence)
    case SServe(k, wild) => SrvSeek(cfg, g, k, wild)
    case SReturn(k) => SeekReturn(g, k)
  }

  datatype CloseStep =
    | CBegin(c: nat, fd: int, ok: bool)
    | CCleanup(k: nat)
    | CForget(k: nat)
    | CReal(k: nat)
    | CServe(k: nat)
    | CInner(s: nat, act: Server.Act)

  ghost predicate CloseEnabled(cfg: Config, g: Global, a: CloseStep)
  {
    match a
    case CBegin(c, fd, _) => CanCloseBegin(cfg, g, c, fd)
    case CCleanup(k) => Has(g, k) && g.ops[k].at.CloseUnmapped?
    case CForget(k) => Has(g, k) && g.ops[k].at.CloseCleaned?
    case CReal(k) => Has(g, k) && g.ops[k].at.CloseForgot?
    case CServe(k) => CanSrvClose(cfg, g, k)
    case CInner(s, act) => CanSrvInner(cfg, g, s, act)
  }

  ghost function CloseApply(cfg: Config, g: Global, a: CloseStep): Global
    requires CloseEnabled(cfg, g, a)
  {
    match a
    case CBegin(c, fd, ok) => CloseBegin(cfg, g, c, fd, ok)
    case CCleanup(k) => CloseCleanup(g, k)
    case CForget(k) => CloseForget(g, k)
    case CReal(k) => CloseReal(g, k)
    case CServe(k) => SrvClose(cfg, g, k)
    case CInner(s, act) => SrvInner(cfg, g, s, act)
  }

  datatype Action = OfOpen(o: OpenStep) | OfIo(io: IoStep) | OfClose(x: CloseStep)

  ghost predicate Enabled(cfg: Config, g: Global, a: Action)
  {
    match a
    case OfOpen(o) => OpenEnabled(cfg, g, o)
    case OfIo(io) => IoEnabled(cfg, g, io)
    case OfClose(x) => CloseEnabled(cfg, g, x)
  }

  ghost function Apply(cfg: Config, g: Global, a: Action): Global
    requires Enabled(cfg, g, a)
  {
    match a
    case OfOpen(o) => OpenApply(cfg, g, o)
    case OfIo(io) => IoApply(cfg, g, io)
    case OfClose(x) => CloseApply(cfg, g, x)
  }

  // What a step does as seen by the simple file system.
  ghost function EventOf(cfg: Config, g: Global, a: Action): Posix.Event
    requires Enabled(cfg, g, a)
  {
    match a
    case OfOpen(OBegin(c, fd, p, _)) => Posix.OpenEv(Posix.Handle(c, fd), p)
    case OfIo(RServe(k, n)) =>
      ReadEvent(g, k, Posix.RemoteSide, g.ops[k].at.count, g.ops[k].at.offset, SrvReadOut(cfg, g, k, n))
    case OfIo(RLocal(k, n)) =>
      ReadEvent(g, k, Posix.LocalSide(g.ops[k].at.why), g.ops[k].at.count, g.ops[k].at.offset, LocalOut(cfg, g, k, n))
    case OfIo(SServe(k, wild)) => SeekEvent(g, k, SrvSeekRes(cfg, g, k, wild))
    case OfClose(CReal(k)) => Posix.CloseEv(Posix.Handle(g.ops[k].c, g.ops[k].fd))
    case _ => Posix.Silent
  }
}
