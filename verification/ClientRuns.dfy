// The client's methods as runs of the job: what each of them makes of the maps, of the
// cursors and of the server is what the steps of its one operation make of them when
// nobody else moves meanwhile.
module ClientRuns {
  import opened Files
  import opened FdTables
  import opened Protocol
  import opened ProtocolInv
  import opened Runs
  import opened Settling
  import opened ClientProcess
  import Server
  import Posix
  import Transparency

  lemma {:induction false} Snoc(cfg: Config, g: Global, run: seq<Action>, a: Action)
    requires Valid(cfg, g, run) && Enabled(cfg, After(cfg, g, run), a)
    ensures Valid(cfg, g, run + [a]) && After(cfg, g, run + [a]) == Apply(cfg, After(cfg, g, run), a)
    decreases |run|
  {
    if run == [] {
      assert run + [a] == [a] && [a][1..] == [];
    } else {
      assert (run + [a])[1..] == run[1..] + [a];
      Snoc(cfg, Apply(cfg, g, run[0]), run[1..], a);
    }
  }

  lemma Prepend(cfg: Config, g: Global, a: Action, tail: seq<Action>)
    requires Enabled(cfg, g, a) && Valid(cfg, Apply(cfg, g, a), tail)
    ensures Valid(cfg, g, [a] + tail) && After(cfg, g, [a] + tail) == After(cfg, Apply(cfg, g, a), tail)
  {
    assert ([a] + tail)[1..] == tail;
  }

  // The run leads from g to t, and t is g but for operation k of client fd (c, fd), now at
  // stage st, the maps x of its client, and the server s.
  ghost predicate Leads(cfg: Config, g: Global, run: seq<Action>, t: Global, k: nat, o: Op, x: Client)
  {
    && Valid(cfg, g, run) && After(cfg, g, run) == t
    && o.c < |g.cl| && t.cl == g.cl[o.c := x] && t.ops == g.ops[k := o]
  }

  // ... and the operation is over.
  ghost predicate Ends(cfg: Config, g: Global, run: seq<Action>, k: nat, c: nat, x: Client)
  {
    && Valid(cfg, g, run) && c < |g.cl|
    && After(cfg, g, run).cl == g.cl[c := x] && After(cfg, g, run).ops == g.ops - {k}
  }

  lemma DropNew(ops: map<nat, Op>, k: nat, o: Op)
    ensures ops[k := o] - {k} == ops - {k}
  {
  }

  // A step that takes operation k to stage st and its client's maps to y.
  lemma Go1(cfg: Config, g: Global, run: seq<Action>, t: Global, k: nat, o: Op, x: Client, a: Action, y: Client,
            st: Stage)
    returns (longer: seq<Action>, u: Global)
    requires Leads(cfg, g, run, t, k, o, x) && Enabled(cfg, t, a)
    requires Apply(cfg, t, a).cl == t.cl[o.c := y] && Apply(cfg, t, a).ops == t.ops[k := o.(at := st)]
    ensures longer == run + [a] && u == Apply(cfg, t, a) && Leads(cfg, g, longer, u, k, o.(at := st), y)
  {
    Snoc(cfg, g, run, a);
    longer, u := run + [a], Apply(cfg, t, a);
  }

  lemma End1(cfg: Config, g: Global, run: seq<Action>, t: Global, k: nat, o: Op, x: Client, a: Action, y: Client)
    returns (longer: seq<Action>)
    requires Leads(cfg, g, run, t, k, o, x) && Enabled(cfg, t, a)
    requires Apply(cfg, t, a).cl == t.cl[o.c := y] && Apply(cfg, t, a).ops == t.ops - {k}
    ensures longer == run + [a] && Ends(cfg, g, longer, k, o.c, y) && After(cfg, g, longer) == Apply(cfg, t, a)
  {
    Snoc(cfg, g, run, a);
    longer := run + [a];
    DropNew(g.ops, k, o);
    assert g.cl[o.c := x][o.c := y] == g.cl[o.c := y];
  }

  // ---------------------------------------------------------------- open

  // hvac_track_file after the real open: the maps become what TrackedOpen says, the server
  // takes its open step, and the operation is over.
  lemma OpenRun(cfg: Config, g: Global, k: nat, answer: Option<int>) returns (run: seq<Action>)
    requires Has(g, k) && g.ops[k].at.Opened? && cfg.count > 0 && Host(cfg, g.ops[k].at.path) < |g.sv|
    requires answer.Some? ==>
               Server.Enabled(cfg, g.sv[Host(cfg, g.ops[k].at.path)], Server.Open(g.ops[k].at.path, answer.value))
    ensures var c, fd, p := g.ops[k].c, g.ops[k].fd, g.ops[k].at.path;
            var s := Host(cfg, p);
            && Ends(cfg, g, run, k, c, TrackedOpen(g.cl[c], fd, p, answer))
            && After(cfg, g, run).sv ==
               if answer.Some? then g.sv[s := Server.Apply(cfg, g.sv[s], Server.Open(p, answer.value))] else g.sv
  {
    var o := g.ops[k];
    var c, fd, p := o.c, o.fd, o.at.path;
    var t;
    run, t := [], g;
    var x := Register(g.cl[c], fd, p);
    run, t := Go1(cfg, g, run, t, k, o, g.cl[c], OfOpen(ORegister(k)), x, Registered(p));
    var y := SetOpening(x, fd);
    run, t := Go1(cfg, g, run, t, k, o.(at := Registered(p)), x, OfOpen(OMark(k)), y, Opening(p));
    if answer.None? {
      run := End1(cfg, g, run, t, k, o.(at := Opening(p)), y, OfOpen(ODispatch(k, false)), SetError(y, fd));
    } else {
      run, t := Go1(cfg, g, run, t, k, o.(at := Opening(p)), y, OfOpen(ODispatch(k, true)), y, OpenReq(p));
      run := AnsweredRun(cfg, g, run, t, k, o.(at := OpenReq(p)), y, answer.value);
    }
  }

  lemma AnsweredRun(cfg: Config, g: Global, run: seq<Action>, t: Global, k: nat, o: Op, y: Client, r: int)
    returns (longer: seq<Action>)
    requires Leads(cfg, g, run, t, k, o, y) && o.at.OpenReq? && cfg.count > 0 && Host(cfg, o.at.path) < |t.sv|
    requires Server.Enabled(cfg, t.sv[Host(cfg, o.at.path)], Server.Open(o.at.path, r))
    ensures Ends(cfg, g, longer, k, o.c, OpenDone(y, o.fd, r))
    ensures var s := Host(cfg, o.at.path);
            After(cfg, g, longer).sv == t.sv[s := Server.Apply(cfg, t.sv[s], Server.Open(o.at.path, r))]
  {
    var p, u := o.at.path, t;
    longer, u := Go1(cfg, g, run, u, k, o, y, OfOpen(OServe(k, r)), y, OpenResp(p, r));
    longer, u := SettledRun(cfg, g, longer, u, k, o.(at := OpenResp(p, r)), y);
    longer := End1(cfg, g, longer, u, k, o.(at := OpenSettled), OpenDone(y, o.fd, r), OfOpen(OReturn(k)),
                   OpenDone(y, o.fd, r));
  }

  lemma OpenMapIs(cfg: Config, t: Global, k: nat, o: Op, y: Client)
    requires CanOpenMap(cfg, t, k) && t.ops[k] == o && t.cl[o.c] == y
    ensures var u, r := OpenMap(cfg, t, k), o.at.ret;
            && u.sv == t.sv
            && u.cl == t.cl[o.c := if r > 0 then MapRemote(y, o.fd, r) else SetError(y, o.fd)]
            && u.ops == t.ops[k := o.(at := if r > 0 then OpenMapped(o.at.path, r) else OpenSettled)]
  {
  }

  // The open callback.
  lemma SettledRun(cfg: Config, g: Global, run: seq<Action>, t: Global, k: nat, o: Op, y: Client)
    returns (longer: seq<Action>, u: Global)
    requires Leads(cfg, g, run, t, k, o, y) && o.at.OpenResp? && cfg.count > 0
    ensures Leads(cfg, g, longer, u, k, o.(at := OpenSettled), OpenDone(y, o.fd, o.at.ret)) && u.sv == t.sv
  {
    var p, r := o.at.path, o.at.ret;
    longer, u := run, t;
    if r > 0 {
      var z, mapped := MapRemote(y, o.fd, r), o.(at := OpenMapped(p, r));
      OpenMapIs(cfg, u, k, o, y);
      longer, u := Go1(cfg, g, longer, u, k, o, y, OfOpen(OMap(k)), z, OpenMapped(p, r));
      longer, u := Go1(cfg, g, longer, u, k, mapped, z, OfOpen(OReady(k)), SetReady(z, o.fd), OpenSettled);
    } else {
      OpenMapIs(cfg, u, k, o, y);
      longer, u := Go1(cfg, g, longer, u, k, o, y, OfOpen(OMap(k)), SetError(y, o.fd), OpenSettled);
    }
  }

  // ---------------------------------------------------------------- close

  // The rest of close(2) once its message left.
  lemma CloseTail(cfg: Config, g: Global, k: nat) returns (run: seq<Action>)
    requires Has(g, k) && g.ops[k].at.CloseUnmapped?
    ensures var c, fd := g.ops[k].c, g.ops[k].fd;
            && Ends(cfg, g, run, k, c, RealClose(Forget(Cleanup(g.cl[c], fd), fd), fd))
            && After(cfg, g, run).sv == g.sv
  {
    var o := g.ops[k];
    var t;
    run, t := [], g;
    var x := Cleanup(g.cl[o.c], o.fd);
    run, t := Go1(cfg, g, run, t, k, o, g.cl[o.c], OfClose(CCleanup(k)), x, CloseCleaned);
    var y := Forget(x, o.fd);
    run, t := Go1(cfg, g, run, t, k, o.(at := CloseCleaned), x, OfClose(CForget(k)), y, CloseForgot);
    run := End1(cfg, g, run, t, k, o.(at := CloseForgot), y, OfClose(CReal(k)), RealClose(y, o.fd));
  }

  // hvac_remove_fd and the real close: the maps become what TrackedClose says, and a close
  // message for the mapped fd is on its way exactly when there was one and it could be sent.
  lemma CloseRun(cfg: Config, g: Global, c: nat, fd: int, sent: bool) returns (run: seq<Action>)
    requires CanCloseBegin(cfg, g, c, fd) && fd in g.cl[c].fdMap && g.next !in g.ops && g.next + 1 !in g.ops
    ensures Valid(cfg, g, run)
    ensures var x, t := g.cl[c], After(cfg, g, run);
            && t.cl == g.cl[c := RealClose(TrackedClose(x, fd), fd)] && t.sv == g.sv
            && t.ops == if fd in x.redir && x.redir[fd] != 0 && sent
                        then g.ops[g.next + 1 := Op(c, fd, CloseReq(Host(cfg, x.fdMap[fd]), x.redir[fd], x.fdMap[fd]))]
                        else g.ops
  {
    var a, x := OfClose(CBegin(c, fd, sent)), g.cl[c];
    var t := Apply(cfg, g, a);
    BeginsClosing(cfg, g, c, fd, sent);
    var tail := CloseTail(cfg, t, g.next);
    run := [a] + tail;
    Prepend(cfg, g, a, tail);
    DropNew(g.ops, g.next, Op(c, fd, CloseUnmapped));
    if fd in x.redir && x.redir[fd] != 0 && sent {
      DropFirst(g.ops, g.next, Op(c, fd, CloseUnmapped), t.ops[g.next + 1]);
    }
  }

  lemma DropFirst(ops: map<nat, Op>, k: nat, o: Op, p: Op)
    requires k !in ops
    ensures ops[k := o][k + 1 := p] - {k} == ops[k + 1 := p]
  {
  }

  lemma BeginsClosing(cfg: Config, g: Global, c: nat, fd: int, sent: bool)
    requires CanCloseBegin(cfg, g, c, fd) && fd in g.cl[c].fdMap
    ensures var x, t := g.cl[c], CloseBegin(cfg, g, c, fd, sent);
            && t.cl == g.cl[c := Unmap(x, fd)] && t.sv == g.sv
            && t.ops == if fd in x.redir && x.redir[fd] != 0 && sent
                 then g.ops[g.next := Op(c, fd, CloseUnmapped)]
                      [g.next + 1 := Op(c, fd, CloseReq(Host(cfg, x.fdMap[fd]), x.redir[fd], x.fdMap[fd]))]
                 else g.ops[g.next := Op(c, fd, CloseUnmapped)]
  {
  }

  // ------------------------------------------------------- read and pread

  // What a request that waits for READY meets: it reaches the server or falls back.
  ghost predicate ReachesServer(x: Client, fd: int, sent: bool)
  {
    fd in x.status && x.status[fd] == READY && fd in x.redir && x.redir[fd] != 0 && sent
  }

  // From the wait to the return of a request that reaches the server: client and local
  // cursor stand still, the server takes its read step, and the bytes it read come back.
  lemma ServedRun(cfg: Config, g: Global, k: nat, n: nat) returns (run: seq<Action>)
    requires Has(g, k) && g.ops[k].at.ReadWait? && g.ops[k].at.server < |g.sv|
    requires ReachesServer(Mine(g, k), g.ops[k].fd, true)
    requires var st := g.ops[k].at;
             Server.Enabled(cfg, g.sv[st.server], Server.Read(Mine(g, k).redir[g.ops[k].fd], st.offset, st.count, n))
    ensures Valid(cfg, g, run)
    ensures var st, c := g.ops[k].at, g.ops[k].c;
            var r := Mine(g, k).redir[g.ops[k].fd];
            var t := After(cfg, g, run);
            && Ends(cfg, g, run, k, c, g.cl[c])
            && t.sv == g.sv[st.server := Server.Apply(cfg, g.sv[st.server], Server.Read(r, st.offset, st.count, n))]
            && k in t.log && t.log[k] == Data(Server.ReadResult(cfg, g.sv[st.server], r, st.offset, n))
  {
    var o, x := g.ops[k], Mine(g, k);
    var st, r := o.at, x.redir[o.fd];
    var out := Server.ReadResult(cfg, g.sv[st.server], r, st.offset, n);
    var req := ReadReq(st.server, r, st.count, st.offset);
    var t;
    run, t := SentSteps(cfg, g, k);
    run, t := Go1(cfg, g, run, t, k, o.(at := req), x, OfIo(RServe(k, n)), x, ReadBulk(out));
    run, t := Go1(cfg, g, run, t, k, o.(at := ReadBulk(out)), x, OfIo(RBulk(k)), x, ReadResp(out));
    run := End1(cfg, g, run, t, k, o.(at := ReadResp(out)), x, OfIo(RReturn(k)), x);
  }

  lemma SentSteps(cfg: Config, g: Global, k: nat) returns (run: seq<Action>, t: Global)
    requires Has(g, k) && g.ops[k].at.ReadWait? && ReachesServer(Mine(g, k), g.ops[k].fd, true)
    ensures var st, r := g.ops[k].at, Mine(g, k).redir[g.ops[k].fd];
            && Leads(cfg, g, run, t, k, g.ops[k].(at := ReadReq(st.server, r, st.count, st.offset)), Mine(g, k))
            && t.sv == g.sv
  {
    var o, x := g.ops[k], Mine(g, k);
    var st, r := o.at, x.redir[o.fd];
    run, t := [], g;
    var ready := ReadReady(st.server, st.count, st.offset);
    run, t := Go1(cfg, g, run, t, k, o, x, OfIo(RWait(k)), x, ready);
    run, t := Go1(cfg, g, run, t, k, o.(at := ready), x, OfIo(RDispatch(k, true)), x,
                  ReadReq(st.server, r, st.count, st.offset));
  }

  ghost function LocalStart(x: Client, fd: int, offset: int): nat
    requires fd in x.local
  {
    if offset < 0 then x.local[fd].cursor else offset
  }

  // The real call: the file at the local cursor, which read(2) moves, or at the offset.
  lemma RealRun(cfg: Config, g: Global, run: seq<Action>, t: Global, k: nat, o: Op, x: Client, n: nat)
    returns (longer: seq<Action>)
    requires Leads(cfg, g, run, t, k, o, x) && o.at.ReadLocal? && o.fd in x.local && x.local[o.fd].path in cfg.disk
    requires ReadLength(|cfg.disk[x.local[o.fd].path]|, LocalStart(x, o.fd, o.at.offset), o.at.count, n)
    ensures Ends(cfg, g, longer, k, o.c, if o.at.offset < 0 then LocalRead(x, o.fd, n) else x)
    ensures var u := After(cfg, g, longer);
            && u.sv == t.sv && k in u.log
            && u.log[k] == Data(Chunk(cfg.disk[x.local[o.fd].path], LocalStart(x, o.fd, o.at.offset), n))
  {
    longer := End1(cfg, g, run, t, k, o, x, OfIo(RLocal(k, n)), if o.at.offset < 0 then LocalRead(x, o.fd, n) else x);
  }

  // From the wait to the return of a request that does not reach the server.
  lemma FallbackRun(cfg: Config, g: Global, k: nat, sent: bool, n: nat) returns (run: seq<Action>)
    requires Has(g, k) && g.ops[k].at.ReadWait? && !ReachesServer(Mine(g, k), g.ops[k].fd, sent)
    requires var x, fd, st := Mine(g, k), g.ops[k].fd, g.ops[k].at;
             && fd in x.local && x.local[fd].path in cfg.disk
             && ReadLength(|cfg.disk[x.local[fd].path]|, LocalStart(x, fd, st.offset), st.count, n)
    ensures Valid(cfg, g, run)
    ensures var c, fd, st, x := g.ops[k].c, g.ops[k].fd, g.ops[k].at, Mine(g, k);
            var t := After(cfg, g, run);
            && Ends(cfg, g, run, k, c, if st.offset < 0 then LocalRead(x, fd, n) else x)
            && t.sv == g.sv && k in t.log
            && t.log[k] == Data(Chunk(cfg.disk[x.local[fd].path], LocalStart(x, fd, st.offset), n))
  {
    var o, x, st := g.ops[k], Mine(g, k), g.ops[k].at;
    var t, call;
    run, t, call := FallbackSteps(cfg, g, k, sent);
    run := RealRun(cfg, g, run, t, k, o.(at := call), x, n);
  }

  lemma FallbackSteps(cfg: Config, g: Global, k: nat, sent: bool) returns (run: seq<Action>, t: Global, call: Stage)
    requires Has(g, k) && g.ops[k].at.ReadWait? && !ReachesServer(Mine(g, k), g.ops[k].fd, sent)
    ensures call.ReadLocal? && call.count == g.ops[k].at.count && call.offset == g.ops[k].at.offset
    ensures Leads(cfg, g, run, t, k, g.ops[k].(at := call), Mine(g, k)) && t.sv == g.sv
  {
    var o, x, st := g.ops[k], Mine(g, k), g.ops[k].at;
    run, t := [], g;
    if o.fd in x.status && x.status[o.fd] == READY {
      var ready := ReadReady(st.server, st.count, st.offset);
      run, t := Go1(cfg, g, run, t, k, o, x, OfIo(RWait(k)), x, ready);
      var why := if o.fd in x.redir && x.redir[o.fd] != 0 then Posix.NotSent else Posix.NotReady;
      call := ReadLocal(st.count, st.offset, why);
      run, t := Go1(cfg, g, run, t, k, o.(at := ready), x, OfIo(RDispatch(k, sent)), x, call);
    } else {
      call := ReadLocal(st.count, st.offset, Posix.NotReady);
      run, t := Go1(cfg, g, run, t, k, o, x, OfIo(RWait(k)), x, call);
    }
  }

  // Whether a call of read (offset -1) or pread reaches the server.
  ghost predicate CallReaches(x: Client, fd: int, sent: bool)
  {
    fd in x.fdMap && ReachesServer(x, fd, sent)
  }

  // The read wrapper.  `n` is what the serving side can read.
  lemma ReadRun(cfg: Config, g: Global, c: nat, fd: int, count: nat, sent: bool, n: nat) returns (run: seq<Action>)
    requires CanReadBegin(cfg, g, c, fd, count) && g.next !in g.ops && g.cl[c].local[fd].path in cfg.disk
    requires CallReaches(g.cl[c], fd, sent) ==>
               && Host(cfg, g.cl[c].fdMap[fd]) < |g.sv|
               && Server.Enabled(cfg, g.sv[Host(cfg, g.cl[c].fdMap[fd])], Server.Read(g.cl[c].redir[fd], -1, count, n))
    requires !CallReaches(g.cl[c], fd, sent) ==>
               ReadLength(|cfg.disk[g.cl[c].local[fd].path]|, g.cl[c].local[fd].cursor, count, n)
    ensures Valid(cfg, g, run)
    ensures After(cfg, g, run).ops == g.ops && g.next in After(cfg, g, run).log
    ensures CallReaches(g.cl[c], fd, sent) ==>
              var t, s, r := After(cfg, g, run), Host(cfg, g.cl[c].fdMap[fd]), g.cl[c].redir[fd];
              && t.cl == g.cl && t.sv == g.sv[s := Server.Apply(cfg, g.sv[s], Server.Read(r, -1, count, n))]
              && t.log[g.next] == Data(Server.ReadResult(cfg, g.sv[s], r, -1, n))
    ensures !CallReaches(g.cl[c], fd, sent) ==>
              var t, x := After(cfg, g, run), g.cl[c];
              && t.cl == g.cl[c := LocalRead(x, fd, n)] && t.sv == g.sv
              && t.log[g.next] == Data(Chunk(cfg.disk[x.local[fd].path], x.local[fd].cursor, n))
  {
    var a, x := OfIo(RBegin(c, fd, count)), g.cl[c];
    var t, tail := Apply(cfg, g, a), [];
    assert g.cl[c := x] == g.cl;
    if fd !in x.fdMap {
      assert Leads(cfg, t, [], t, g.next, t.ops[g.next], x);
      tail := RealRun(cfg, t, [], t, g.next, t.ops[g.next], x, n);
    } else if ReachesServer(x, fd, sent) {
      tail := ServedRun(cfg, t, g.next, n);
    } else {
      tail := FallbackRun(cfg, t, g.next, sent, n);
    }
    run := [a] + tail;
    Prepend(cfg, g, a, tail);
    assert t.ops - {g.next} == g.ops;
  }

  lemma PreadBeginIs(cfg: Config, g: Global, c: nat, fd: int, count: nat, offset: int)
    requires CanReadBegin(cfg, g, c, fd, count)
    ensures var x, t := g.cl[c], PreadBegin(cfg, g, c, fd, count, offset);
            var y := if fd in x.fdMap then Touch(x, fd) else x;
            && t.cl == g.cl[c := y] && t.sv == g.sv && g.next in t.ops
            && t.ops == g.ops[g.next := Op(c, fd, t.ops[g.next].at)]
            && t.ops[g.next].at ==
               if fd !in x.fdMap then ReadLocal(count, offset, Posix.Untracked)
               else if y.redir[fd] != 0 then ReadWait(Host(cfg, x.fdMap[fd]), count, offset)
               else ReadLocal(count, offset, Posix.NotReady)
  {
    PreadBegins(cfg, g, c, fd, count, offset);
  }

  // The pread wrapper: no cursor of the client moves, and the zero it may leave in
  // fd_redir_map is the only change to the maps.
  lemma PreadRun(cfg: Config, g: Global, c: nat, fd: int, count: nat, offset: nat, sent: bool, n: nat)
    returns (run: seq<Action>)
    requires CanReadBegin(cfg, g, c, fd, count) && g.next !in g.ops && g.cl[c].local[fd].path in cfg.disk
    requires CallReaches(g.cl[c], fd, sent) ==>
               && Host(cfg, g.cl[c].fdMap[fd]) < |g.sv|
               && Server.Enabled(cfg, g.sv[Host(cfg, g.cl[c].fdMap[fd])],
                                 Server.Read(g.cl[c].redir[fd], offset, count, n))
    requires !CallReaches(g.cl[c], fd, sent) ==> ReadLength(|cfg.disk[g.cl[c].local[fd].path]|, offset, count, n)
    ensures Valid(cfg, g, run)
    ensures var x, t, k := g.cl[c], After(cfg, g, run), g.next;
            && t.ops == g.ops && k in t.log && t.sv == g.sv
            && t.cl == (if fd in x.fdMap then g.cl[c := Touch(x, fd)] else g.cl)
            && t.log[k] == if CallReaches(x, fd, sent)
                 then Data(Server.ReadResult(cfg, g.sv[Host(cfg, x.fdMap[fd])], x.redir[fd], offset, n))
                 else Data(Chunk(cfg.disk[x.local[fd].path], offset, n))
  {
    var a := OfIo(PBegin(c, fd, count, offset));
    PreadBeginIs(cfg, g, c, fd, count, offset);
    var tail := PreadTail(cfg, g, Apply(cfg, g, a), c, fd, count, offset, sent, n);
    run := [a] + tail;
    Prepend(cfg, g, a, tail);
  }

  // What follows once the call has begun.
  lemma PreadTail(cfg: Config, g: Global, t: Global, c: nat, fd: int, count: nat, offset: nat, sent: bool, n: nat)
    returns (tail: seq<Action>)
    requires c < |g.cl| && fd in g.cl[c].local && g.cl[c].local[fd].path in cfg.disk && cfg.count > 0
    requires g.next !in g.ops && g.next in t.ops && t.sv == g.sv
    requires t.ops == g.ops[g.next := Op(c, fd, t.ops[g.next].at)]
    requires var y := if fd in g.cl[c].fdMap then Touch(g.cl[c], fd) else g.cl[c];
             && t.cl == g.cl[c := y]
             && t.ops[g.next].at ==
                if fd !in y.fdMap then ReadLocal(count, offset, Posix.Untracked)
                else if y.redir[fd] != 0 then ReadWait(Host(cfg, y.fdMap[fd]), count, offset)
                else ReadLocal(count, offset, Posix.NotReady)
    requires CallReaches(g.cl[c], fd, sent) ==>
               && Host(cfg, g.cl[c].fdMap[fd]) < |g.sv|
               && Server.Enabled(cfg, g.sv[Host(cfg, g.cl[c].fdMap[fd])],
                                 Server.Read(g.cl[c].redir[fd], offset, count, n))
    requires !CallReaches(g.cl[c], fd, sent) ==> ReadLength(|cfg.disk[g.cl[c].local[fd].path]|, offset, count, n)
    ensures Valid(cfg, t, tail)
    ensures var u := After(cfg, t, tail);
            && u.ops == g.ops && u.cl == t.cl && u.sv == g.sv && g.next in u.log
            && u.log[g.next] == if CallReaches(g.cl[c], fd, sent)
                 then Data(Server.ReadResult(cfg, g.sv[Host(cfg, g.cl[c].fdMap[fd])], g.cl[c].redir[fd], offset, n))
                 else Data(Chunk(cfg.disk[g.cl[c].local[fd].path], offset, n))
  {
    var x, y, k := g.cl[c], t.cl[c], g.next;
    assert t.ops - {k} == g.ops && t.cl[c := y] == t.cl;
    if t.ops[k].at.ReadLocal? {
      assert !CallReaches(x, fd, sent);
      assert Leads(cfg, t, [], t, k, t.ops[k], y);
      tail := RealRun(cfg, t, [], t, k, t.ops[k], y, n);
    } else if ReachesServer(y, fd, sent) {
      assert CallReaches(x, fd, sent) && y == x;
      tail := ServedRun(cfg, t, k, n);
    } else {
      tail := FallbackRun(cfg, t, k, sent, n);
    }
  }

  // ---------------------------------------------------------------- lseek

  // hvac_remote_lseek of a mapped fd: the caller's offset and whence decide where the
  // remote cursor goes, and the caller is told; a target before the start of the file, or
  // an unknown whence, gives -1 and moves nothing.
  lemma SeekRun(cfg: Config, g: Global, c: nat, fd: int, off: int, whence: Whence) returns (run: seq<Action>)
    requires Inv(cfg, g) && CanSeekBegin(cfg, g, c, fd) && Mapped(g.cl[c], fd)
    requires Host(cfg, g.cl[c].fdMap[fd]) < |g.sv| && g.sv[Host(cfg, g.cl[c].fdMap[fd])].closing.None?
    requires var x, s := g.cl[c], Host(cfg, g.cl[c].fdMap[fd]);
             && x.redir[fd] in g.sv[s].kernel && x.local[fd].path in cfg.disk
             && (whence == Set ==> FitsInt32(off))
             && (whence == Cur ==> FitsInt32(g.sv[s].kernel[x.redir[fd]].cursor + off))
             && (whence == End ==> FitsInt32(|cfg.disk[x.local[fd].path]| + off))
    ensures Valid(cfg, g, run)
    ensures var t := After(cfg, g, run);
            t.cl == g.cl && t.ops == g.ops && g.next in t.log && t.log[g.next].Offset?
    ensures var s, r, t := Host(cfg, g.cl[c].fdMap[fd]), g.cl[c].redir[fd], After(cfg, g, run);
            var was, size, v := g.sv[s].kernel[r], |cfg.disk[g.cl[c].local[fd].path]|, t.log[g.next].pos;
            && (whence == Set ==> v == if off >= 0 then off else -1)
            && (whence == Cur ==> v == if was.cursor + off >= 0 then was.cursor + off else -1)
            && (whence == End ==> v == if size + off >= 0 then size + off else -1)
            && (whence == Invalid ==> v == -1)
            && |t.sv| == |g.sv| && (forall i :: 0 <= i < |g.sv| && i != s ==> t.sv[i] == g.sv[i])
            && t.sv[s] == g.sv[s].(kernel := g.sv[s].kernel[r := was.(cursor := if v >= 0 then v else was.cursor)])
  {
    var s, r := Host(cfg, g.cl[c].fdMap[fd]), g.cl[c].redir[fd];
    SeekFacts(cfg, g, c, fd);
    SeekStepIs(cfg, g.sv[s], r, off, whence, |cfg.disk[g.cl[c].local[fd].path]|);
    run := SeekSteps(cfg, g, c, fd, off, whence);
  }

  lemma SeekSteps(cfg: Config, g: Global, c: nat, fd: int, off: int, whence: Whence) returns (run: seq<Action>)
    requires CanSeekBegin(cfg, g, c, fd) && Mapped(g.cl[c], fd) && g.next !in g.ops
    requires var s, r := Host(cfg, g.cl[c].fdMap[fd]), g.cl[c].redir[fd];
             && s < |g.sv| && g.sv[s].closing.None? && r in g.sv[s].kernel
             && FitsInt32(Server.SeekResult(cfg, g.sv[s], r, off, whence))
    ensures Valid(cfg, g, run)
    ensures var s, r, t := Host(cfg, g.cl[c].fdMap[fd]), g.cl[c].redir[fd], After(cfg, g, run);
            && t.cl == g.cl && t.ops == g.ops
            && g.next in t.log && t.log[g.next] == Offset(Server.SeekResult(cfg, g.sv[s], r, off, whence))
            && t.sv == g.sv[s := Server.Apply(cfg, g.sv[s], Server.Seek(r, off, whence))]
  {
    var a := OfIo(SBegin(c, fd, off, whence));
    SeekBeginIs(cfg, g, c, fd, off, whence);
    var tail := SeekTail(cfg, Apply(cfg, g, a), g.next);
    run := [a] + tail;
    Prepend(cfg, g, a, tail);
    assert Apply(cfg, g, a).ops - {g.next} == g.ops;
  }

  lemma SeekFacts(cfg: Config, g: Global, c: nat, fd: int)
    requires Inv(cfg, g) && c < |g.cl| && cfg.count > 0 && Mapped(g.cl[c], fd)
    ensures g.next !in g.ops && fd in g.cl[c].fdMap && fd in g.cl[c].local && g.cl[c].local[fd].path in cfg.disk
    ensures var s, r := Host(cfg, g.cl[c].fdMap[fd]), g.cl[c].redir[fd];
            && s < |g.sv| && r in g.sv[s].kernel
            && Server.Content(cfg, g.sv[s], g.sv[s].kernel[r].file) == cfg.disk[g.cl[c].local[fd].path]
  {
    assert FdOk(cfg, g, c, fd);
    Transparency.LinkedFd(cfg, g, c, fd, Host(cfg, g.cl[c].fdMap[fd]), g.cl[c].redir[fd]);
    FreshIds(cfg, g);
  }

  lemma SeekStepIs(cfg: Config, s: Server.Server, r: int, off: int, whence: Whence, size: nat)
    requires r in s.kernel && size == |Server.Content(cfg, s, s.kernel[r].file)|
    ensures var v, pos := Server.SeekResult(cfg, s, r, off, whence), s.kernel[r].cursor;
            && (whence == Set ==> v == if off >= 0 then off else -1)
            && (whence == Cur ==> v == if pos + off >= 0 then pos + off else -1)
            && (whence == End ==> v == if size + off >= 0 then size + off else -1)
            && (whence == Invalid ==> v == -1)
            && (s.closing.None? ==>
                  Server.Apply(cfg, s, Server.Seek(r, off, whence)) ==
                  s.(kernel := s.kernel[r := s.kernel[r].(cursor := if v >= 0 then v else pos)]))
  {
    assert s.kernel[r := s.kernel[r]] == s.kernel;
  }

  // From the request to the return.
  lemma SeekTail(cfg: Config, t: Global, k: nat) returns (tail: seq<Action>)
    requires Has(t, k) && t.ops[k].at.SeekReq? && t.ops[k].at.server < |t.sv|
    requires var st := t.ops[k].at;
             && t.sv[st.server].closing.None? && st.rfd in t.sv[st.server].kernel
             && FitsInt32(Server.SeekResult(cfg, t.sv[st.server], st.rfd, st.soff, st.whence))
    ensures Ends(cfg, t, tail, k, t.ops[k].c, Mine(t, k))
    ensures var st, u := t.ops[k].at, After(cfg, t, tail);
            var s, v := t.sv[st.server], Server.SeekResult(cfg, t.sv[st.server], st.rfd, st.soff, st.whence);
            && k in u.log && u.log[k] == Offset(v)
            && u.sv == t.sv[st.server := Server.Apply(cfg, s, Server.Seek(st.rfd, st.soff, st.whence))]
  {
    var o, x, st := t.ops[k], Mine(t, k), t.ops[k].at;
    var v := Server.SeekResult(cfg, t.sv[st.server], st.rfd, st.soff, st.whence);
    var u;
    tail, u := [], t;
    tail, u := Go1(cfg, t, tail, u, k, o, x, OfIo(SServe(k, 0)), x, SeekResp(v));
    tail := End1(cfg, t, tail, u, k, o.(at := SeekResp(v)), x, OfIo(SReturn(k)), x);
  }

  lemma SeekBeginIs(cfg: Config, g: Global, c: nat, fd: int, off: int, whence: Whence)
    requires CanSeekBegin(cfg, g, c, fd) && Mapped(g.cl[c], fd)
    ensures var t := SeekBegin(cfg, g, c, fd, off, whence);
            && t.cl == g.cl && t.sv == g.sv
            && var req := SeekReq(Host(cfg, g.cl[c].fdMap[fd]), g.cl[c].redir[fd], off, whence);
            && t.ops == g.ops[g.next := Op(c, fd, req)]
  {
    assert Touch(g.cl[c], fd) == g.cl[c];
    assert g.cl[c := g.cl[c]] == g.cl;
  }

  // ------------------------------------------- the wrappers and the steps agree

  // Outside a wait the read wrapper reaches the server exactly when the steps do: the fd
  // is tracked, READY and mapped, and the request can be sent.
  lemma ReachesAgree(client: HvacClient, fd: int, w: World)
    requires client.Valid() && client.StateOf(fd) != Some(OPENING)
    ensures client.Reaches(fd, w) <==> CallReaches(client.View(), fd, w.sent)
    ensures client.Reaches(fd, w) <==>
              && fd in client.fdMap && fd in client.fdStateMap && client.fdStateMap[fd].state == READY
              && fd in client.fdRedirMap && client.fdRedirMap[fd] != 0 && w.sent
  {
  }
}
