// Applications that use an fd only after open(2) has handed it to them.  For these the
// stream of read(2) goes wrong in one way only: a request that could not be sent, after
// another one was served.
module Conforming {
  import opened Files
  import opened FdTables
  import opened Protocol
  import opened ProtocolInv
  import opened Runs
  import opened Settling
  import opened Streams
  import opened Transparency
  import opened Fallback
  import Posix

  // No read of this fd begins while its open is still under way.
  ghost predicate AfterOpen(g: Global, a: Action, c: nat, fd: int)
  {
    a.OfIo? && a.io.RBegin? && a.io.c == c && a.io.fd == fd ==> NoOpen(g, c, fd)
  }

  // No read of this fd finds that its request cannot be sent.
  ghost predicate SentIfReady(g: Global, a: Action, c: nat, fd: int)
  {
    a.OfIo? && a.io.RDispatch? && IsOn(g, a.io.k, c, fd) && PlainRead(g.ops[a.io.k].at) ==> a.io.ok
  }

  ghost predicate Reopens(a: Action, c: nat, fd: int)
  {
    a.OfOpen? && a.o.OBegin? && a.o.c == c && a.o.fd == fd
  }

  ghost predicate EarlyNoted(g: Global, a: Action, c: nat, fd: int, sofar: bool)
  {
    !Reopens(a, c, fd) && (sofar || !AfterOpen(g, a, c, fd))
  }

  // Whether a read began too early since the fd was last opened.
  ghost predicate ReadsEarly(cfg: Config, g: Global, run: seq<Action>, c: nat, fd: int, sofar: bool)
    requires Valid(cfg, g, run)
    decreases |run|
  {
    if run == [] then sofar
    else ReadsEarly(cfg, Apply(cfg, g, run[0]), run[1..], c, fd, EarlyNoted(g, run[0], c, fd, sofar))
  }

  ghost predicate Conforms(cfg: Config, g: Global, run: seq<Action>, c: nat, fd: int)
    requires Valid(cfg, g, run)
  {
    !ReadsEarly(cfg, g, run, c, fd, false)
  }

  ghost predicate UnsentNoted(g: Global, a: Action, c: nat, fd: int, sofar: bool)
  {
    !Reopens(a, c, fd) && (sofar || !SentIfReady(g, a, c, fd))
  }

  // Whether the request of a read could not be sent since the fd was last opened.
  ghost predicate SendFails(cfg: Config, g: Global, run: seq<Action>, c: nat, fd: int, sofar: bool)
    requires Valid(cfg, g, run)
    decreases |run|
  {
    if run == [] then sofar
    else SendFails(cfg, Apply(cfg, g, run[0]), run[1..], c, fd, UnsentNoted(g, run[0], c, fd, sofar))
  }

  ghost predicate AllSent(cfg: Config, g: Global, run: seq<Action>, c: nat, fd: int)
    requires Valid(cfg, g, run)
  {
    !SendFails(cfg, g, run, c, fd, false)
  }

  // A read(2) that has not taken effect yet.
  predicate PlainRead(st: Stage)
  {
    (st.ReadWait? || st.ReadReady? || st.ReadLocal? || st.ReadReq?) && st.offset < 0
  }

  ghost predicate NoRead(g: Global, c: nat, fd: int)
  {
    forall k :: IsOn(g, k, c, fd) ==> !PlainRead(g.ops[k].at)
  }

  predicate BoundEarly(st: Stage) { PlainRead(st) && st.ReadLocal? && !st.why.NotSent? }

  ghost predicate PendingEarly(g: Global, c: nat, fd: int)
  {
    exists k :: IsOn(g, k, c, fd) && BoundEarly(g.ops[k].at)
  }

  // Nobody reads an fd while it is being opened; and once a read was left to the real call
  // without a request, no read of this handle ever was or will be served remotely.
  ghost predicate Orderly(g: Global, c: nat, fd: int, got: seq<Posix.Got>)
  {
    var h := Posix.Handle(c, fd);
    c < |g.cl| ==>
      && (NoOpen(g, c, fd) || NoRead(g, c, fd))
      && (PendingEarly(g, c, fd) || (h in g.spec && Early(got)) ==>
            !Mapped(g.cl[c], fd) && NoOpen(g, c, fd) && (h in g.spec ==> !ServedRemotely(got)))
  }

  // No read of this fd is new or has moved.
  ghost predicate NoNewReads(g: Global, t: Global, c: nat, fd: int)
  {
    forall k :: IsOn(t, k, c, fd) && PlainRead(t.ops[k].at) ==> k in g.ops && g.ops[k] == t.ops[k]
  }

  lemma OrderlyStays(g: Global, t: Global, c: nat, fd: int, got: seq<Posix.Got>)
    requires c < |g.cl| && Orderly(g, c, fd, got)
    requires Untouched(g, t, c, fd) && SameThreads(g, t, c, fd) && NoNewReads(g, t, c, fd)
    requires Posix.Handle(c, fd) in t.spec <==> Posix.Handle(c, fd) in g.spec
    ensures Orderly(t, c, fd, got)
  {
    SameThreadsAgree(g, t, c, fd);
    if PendingEarly(t, c, fd) {
      var k :| IsOn(t, k, c, fd) && BoundEarly(t.ops[k].at);
      assert IsOn(g, k, c, fd);
    }
    if NoRead(g, c, fd) {
      forall k | IsOn(t, k, c, fd) ensures !PlainRead(t.ops[k].at) {
        if PlainRead(t.ops[k].at) { assert IsOn(g, k, c, fd); }
      }
    }
  }

  // ---------------------------------------------------------------- open

  lemma OpenNoNewReads(cfg: Config, g: Global, a: OpenStep, c: nat, fd: int)
    requires OpenEnabled(cfg, g, a) && g.next !in g.ops
    ensures NoNewReads(g, OpenApply(cfg, g, a), c, fd)
  {
    OpenAlone(cfg, g, a);
    OpenActs(cfg, g, a);
  }

  lemma OpenOrderly(cfg: Config, g: Global, a: OpenStep, c: nat, fd: int, got: seq<Posix.Got>)
    requires Core(cfg, g) && OpenEnabled(cfg, g, a) && c < |g.cl| && Orderly(g, c, fd, got)
    ensures Orderly(OpenApply(cfg, g, a), c, fd, Posix.Noted(EventOf(cfg, g, OfOpen(a)), Posix.Handle(c, fd), got))
  {
    FreshIds(cfg, g);
    OpenMoves(cfg, g, a);
    OpenNoNewReads(cfg, g, a, c, fd);
    if !OpenOn(g, a, c, fd) {
      OtherHandle(g.spec, EventOf(cfg, g, OfOpen(a)), Posix.Handle(c, fd), got);
      OpenElsewhere(cfg, g, a, c, fd);
      OrderlyStays(g, OpenApply(cfg, g, a), c, fd, got);
    } else if a.OBegin? {
      OpenBeginOrderly(cfg, g, a.c, a.fd, a.path, a.tracked);
    } else {
      OpenGoesOnOrderly(cfg, g, a, got);
    }
  }

  lemma OpenBeginOrderly(cfg: Config, g: Global, c: nat, fd: int, p: Path, tracked: bool)
    requires Core(cfg, g) && CanOpenBegin(cfg, g, c, fd, p)
    requires NoNewReads(g, OpenBegin(cfg, g, c, fd, p, tracked), c, fd)
    ensures Orderly(OpenBegin(cfg, g, c, fd, p, tracked), c, fd, [])
  {
    var t := OpenBegin(cfg, g, c, fd, p, tracked);
    forall k | IsOn(g, k, c, fd) ensures g.ops[k].at.CloseReq? { assert OpOk(cfg, g, k); }
    assert NoRead(t, c, fd);
  }

  lemma OpenGoesOnOrderly(cfg: Config, g: Global, a: OpenStep, got: seq<Posix.Got>)
    requires OpenEnabled(cfg, g, a) && !a.OBegin? && Orderly(g, g.ops[a.k].c, g.ops[a.k].fd, got)
    requires NoNewReads(g, OpenApply(cfg, g, a), g.ops[a.k].c, g.ops[a.k].fd)
    ensures Orderly(OpenApply(cfg, g, a), g.ops[a.k].c, g.ops[a.k].fd, got)
  {
    var t, c, fd := OpenApply(cfg, g, a), g.ops[a.k].c, g.ops[a.k].fd;
    assert IsOn(g, a.k, c, fd) && !NoOpen(g, c, fd);
    forall k | IsOn(t, k, c, fd) ensures !PlainRead(t.ops[k].at) {
      if PlainRead(t.ops[k].at) { assert IsOn(g, k, c, fd); }
    }
    assert t.spec == g.spec;
  }

  // ---------------------------------------------------------------- close

  lemma CloseNoNewReads(cfg: Config, g: Global, a: CloseStep, c: nat, fd: int)
    requires CloseEnabled(cfg, g, a)
    ensures NoNewReads(g, CloseApply(cfg, g, a), c, fd)
  {
    var t := CloseApply(cfg, g, a);
    forall k | IsOn(t, k, c, fd) && PlainRead(t.ops[k].at) ensures k in g.ops && g.ops[k] == t.ops[k] {
      CloseThreadsOn(cfg, g, a, k);
    }
  }

  lemma CloseOrderly(cfg: Config, g: Global, a: CloseStep, c: nat, fd: int, got: seq<Posix.Got>)
    requires Core(cfg, g) && CloseEnabled(cfg, g, a) && c < |g.cl| && Orderly(g, c, fd, got)
    ensures Orderly(CloseApply(cfg, g, a), c, fd, Posix.Noted(EventOf(cfg, g, OfClose(a)), Posix.Handle(c, fd), got))
  {
    FreshIds(cfg, g);
    CloseMoves(cfg, g, a);
    CloseNoNewReads(cfg, g, a, c, fd);
    if !CloseOn(g, a, c, fd) {
      OtherHandle(g.spec, EventOf(cfg, g, OfClose(a)), Posix.Handle(c, fd), got);
      CloseElsewhere(cfg, g, a, c, fd);
      OrderlyStays(g, CloseApply(cfg, g, a), c, fd, got);
    } else {
      CloseOnOrderly(cfg, g, a, c, fd, got);
    }
  }

  // close(2) has the fd for itself: nobody opens or reads it.
  lemma CloseOnOrderly(cfg: Config, g: Global, a: CloseStep, c: nat, fd: int, got: seq<Posix.Got>)
    requires PairsOk(g) && CloseEnabled(cfg, g, a) && c < |g.cl| && CloseOn(g, a, c, fd) && Orderly(g, c, fd, got)
    requires NoNewReads(g, CloseApply(cfg, g, a), c, fd)
    ensures Orderly(CloseApply(cfg, g, a), c, fd, Posix.Noted(EventOf(cfg, g, OfClose(a)), Posix.Handle(c, fd), got))
  {
    var t := CloseApply(cfg, g, a);
    forall k | IsOn(g, k, c, fd) ensures !IsOpen(g.ops[k].at) && !PlainRead(g.ops[k].at) {
      if !a.CBegin? { assert Compatible(g, k, a.k); }
    }
    forall k | IsOn(t, k, c, fd) ensures !PlainRead(t.ops[k].at) && !IsOpen(t.ops[k].at) {
      CloseThreadsOn(cfg, g, a, k);
      if !IsClosing(t.ops[k].at) && !t.ops[k].at.CloseReq? { assert IsOn(g, k, c, fd); }
    }
    CloseUnmaps(cfg, g, a, c, fd);
    CloseMoves(cfg, g, a);
  }

  lemma CloseUnmaps(cfg: Config, g: Global, a: CloseStep, c: nat, fd: int)
    requires CloseEnabled(cfg, g, a) && c < |g.cl|
    ensures var t := CloseApply(cfg, g, a);
            c < |t.cl| && (Mapped(t.cl[c], fd) ==> Mapped(g.cl[c], fd))
  {
  }

  // ---------------------------------------------------------------- read

  // What became of read k of this fd: nothing, answered, or a new stage.
  lemma ReadBeginOrderly(cfg: Config, g: Global, c: nat, fd: int, count: nat, got: seq<Posix.Got>)
    requires Core(cfg, g) && CanReadBegin(cfg, g, c, fd, count) && NoOpen(g, c, fd) && g.next !in g.ops
    requires Orderly(g, c, fd, got) && Loyal(g, c, fd, got)
    ensures Orderly(ReadBegin(cfg, g, c, fd, count), c, fd, got)
  {
    var t := ReadBegin(cfg, g, c, fd, count);
    assert FdOk(cfg, g, c, fd);
    assert NoOpen(t, c, fd) by {
      forall k | IsOn(t, k, c, fd) ensures !IsOpen(t.ops[k].at) {
        if k != g.next { assert IsOn(g, k, c, fd); }
      }
    }
    if PendingEarly(t, c, fd) && fd in g.cl[c].fdMap {
      var k :| IsOn(t, k, c, fd) && BoundEarly(t.ops[k].at);
      assert k != g.next && IsOn(g, k, c, fd);
    }
  }

  lemma WaitOrderly(cfg: Config, g: Global, k: nat, got: seq<Posix.Got>)
    requires Core(cfg, g) && Has(g, k) && g.ops[k].at.ReadWait?
    requires var c, fd := g.ops[k].c, g.ops[k].fd;
             Orderly(g, c, fd, got) && Loyal(g, c, fd, got) && Settled(g, c, fd)
    ensures Orderly(WaitReturn(g, k), g.ops[k].c, g.ops[k].fd, got)
  {
    var t, c, fd := WaitReturn(g, k), g.ops[k].c, g.ops[k].fd;
    assert OpOk(cfg, g, k) && IsOn(g, k, c, fd);
    assert NotClosing(g, c, fd) by {
      forall j | IsOn(g, j, c, fd) ensures !IsClosing(g.ops[j].at) { assert Compatible(g, j, k); }
    }
    assert NoOpen(g, c, fd) ==> NoOpen(t, c, fd) by {
      forall j | IsOn(t, j, c, fd) && j != k ensures IsOn(g, j, c, fd) && t.ops[j] == g.ops[j] { }
    }
    if g.ops[k].at.offset < 0 {
      assert NoOpen(g, c, fd);
      if PendingEarly(t, c, fd) && !PendingEarly(g, c, fd) {
        assert BoundEarly(t.ops[k].at);
        assert g.cl[c].status[fd] == ERROR;
      }
    } else {
      assert NoNewReads(g, t, c, fd);
      assert SameThreads(g, t, c, fd);
      OrderlyStays(g, t, c, fd, got);
    }
  }

  // Any other step of k, provided that it does not newly leave a read to the real call.
  lemma ReadGoesOnOrderly(g: Global, t: Global, k: nat, c: nat, fd: int, got: seq<Posix.Got>, after: seq<Posix.Got>)
    requires IsOn(g, k, c, fd) && c < |g.cl| && Orderly(g, c, fd, got) && Alone(g, t, k)
    requires Untouched(g, t, c, fd) && SameThreads(g, t, c, fd)
    requires IsIo(g.ops[k].at) && (k in t.ops ==> IsIo(t.ops[k].at))
    requires k in t.ops && PlainRead(t.ops[k].at) ==> PlainRead(g.ops[k].at)
    requires k in t.ops && BoundEarly(t.ops[k].at) ==> BoundEarly(g.ops[k].at)
    requires Posix.Handle(c, fd) in t.spec <==> Posix.Handle(c, fd) in g.spec
    requires Early(after) ==> Early(got) || BoundEarly(g.ops[k].at)
    requires ServedRemotely(after) ==> ServedRemotely(got) || Mapped(g.cl[c], fd)
    ensures Orderly(t, c, fd, after)
  {
    SameThreadsAgree(g, t, c, fd);
    if PendingEarly(t, c, fd) {
      var j :| IsOn(t, j, c, fd) && BoundEarly(t.ops[j].at);
      assert IsOn(g, j, c, fd) && BoundEarly(g.ops[j].at);
    }
    if NoRead(g, c, fd) {
      forall j | IsOn(t, j, c, fd) ensures !PlainRead(t.ops[j].at) {
        assert j != k ==> IsOn(g, j, c, fd);
      }
    }
    if Early(after) && !Early(got) { assert PendingEarly(g, c, fd); }
  }

  // What a read on this fd does to the history it leaves.
  lemma IoNotes(cfg: Config, g: Global, a: IoStep, c: nat, fd: int, got: seq<Posix.Got>)
    requires OpsOk(cfg, g) && IoEnabled(cfg, g, a) && !(a.RBegin? || a.PBegin? || a.SBegin?)
    requires IsOn(g, a.k, c, fd)
    ensures var after := Posix.Noted(EventOf(cfg, g, OfIo(a)), Posix.Handle(c, fd), got);
            && (Early(after) ==> Early(got) || BoundEarly(g.ops[a.k].at))
            && (ServedRemotely(after) ==> ServedRemotely(got) || Mapped(g.cl[c], fd))
  {
    assert OpOk(cfg, g, a.k);
    var ev := EventOf(cfg, g, OfIo(a));
    if ev.ReadEv? {
      var after := got + [Posix.Got(ev.side, ev.count, ev.out)];
      if Early(after) && !Early(got) { assert after[|got|].side.LocalSide?; }
      if ServedRemotely(after) && !ServedRemotely(got) { assert after[|got|].side.RemoteSide?; }
    }
  }

  lemma IoStages(cfg: Config, g: Global, a: IoStep)
    requires IoEnabled(cfg, g, a) && !(a.RBegin? || a.PBegin? || a.SBegin? || a.RWait?)
    requires OpOk(cfg, g, a.k)
    ensures var t, k := IoApply(cfg, g, a), a.k;
            && (k in t.ops && PlainRead(t.ops[k].at) ==> PlainRead(g.ops[k].at))
            && (k in t.ops && BoundEarly(t.ops[k].at) ==> BoundEarly(g.ops[k].at))
  {
  }

  lemma IoOnOrderly(cfg: Config, g: Global, a: IoStep, got: seq<Posix.Got>)
    requires Core(cfg, g) && IoEnabled(cfg, g, a) && !(a.RBegin? || a.PBegin? || a.SBegin?)
    requires var c, fd := g.ops[a.k].c, g.ops[a.k].fd;
             Orderly(g, c, fd, got) && Loyal(g, c, fd, got) && Settled(g, c, fd)
    ensures var c, fd := g.ops[a.k].c, g.ops[a.k].fd;
            Orderly(IoApply(cfg, g, a), c, fd, Posix.Noted(EventOf(cfg, g, OfIo(a)), Posix.Handle(c, fd), got))
  {
    if a.RWait? {
      WaitOrderly(cfg, g, a.k, got);
    } else {
      IoMovesOnOrderly(cfg, g, a, g.ops[a.k].c, g.ops[a.k].fd, got);
    }
  }

  lemma IoMovesOnOrderly(cfg: Config, g: Global, a: IoStep, c: nat, fd: int, got: seq<Posix.Got>)
    requires OpsOk(cfg, g) && IoEnabled(cfg, g, a) && !(a.RBegin? || a.PBegin? || a.SBegin? || a.RWait?)
    requires c < |g.cl| && IsOn(g, a.k, c, fd) && Orderly(g, c, fd, got)
    ensures Orderly(IoApply(cfg, g, a), c, fd, Posix.Noted(EventOf(cfg, g, OfIo(a)), Posix.Handle(c, fd), got))
  {
    FreshIds(cfg, g);
    assert OpOk(cfg, g, a.k);
    var after := Posix.Noted(EventOf(cfg, g, OfIo(a)), Posix.Handle(c, fd), got);
    IoSameHandles(cfg, g, a);
    IoAlone(cfg, g, a);
    IoStages(cfg, g, a);
    IoElsewhere(cfg, g, a, c, fd);
    IoNotes(cfg, g, a, c, fd, got);
    ReadGoesOnOrderly(g, IoApply(cfg, g, a), a.k, c, fd, got, after);
  }

  ghost predicate IoOn(g: Global, a: IoStep, c: nat, fd: int)
  {
    if a.RBegin? || a.PBegin? || a.SBegin? then a.c == c && a.fd == fd else IsOn(g, a.k, c, fd)
  }

  // Operations of other fds, and requests that carry their own offset.
  lemma IoAsideOrderly(cfg: Config, g: Global, a: IoStep, c: nat, fd: int, got: seq<Posix.Got>)
    requires Core(cfg, g) && IoEnabled(cfg, g, a) && c < |g.cl| && Orderly(g, c, fd, got)
    requires !IoOn(g, a, c, fd) || a.PBegin? || a.SBegin?
    ensures Orderly(IoApply(cfg, g, a), c, fd, Posix.Noted(EventOf(cfg, g, OfIo(a)), Posix.Handle(c, fd), got))
  {
    FreshIds(cfg, g);
    IoMoves(cfg, g, a);
    IoAlone(cfg, g, a);
    IoElsewhere(cfg, g, a, c, fd);
    OtherHandle(g.spec, EventOf(cfg, g, OfIo(a)), Posix.Handle(c, fd), got);
    if a.PBegin? || a.SBegin? { NotPlain(cfg, g, a); }
    if a.RBegin? { IoBegins(cfg, g, a); }
    OrderlyStays(g, IoApply(cfg, g, a), c, fd, got);
  }

  lemma NotPlain(cfg: Config, g: Global, a: IoStep)
    requires IoEnabled(cfg, g, a) && (a.PBegin? || a.SBegin?)
    ensures var t := IoApply(cfg, g, a); g.next in t.ops && !PlainRead(t.ops[g.next].at)
  {
  }

  lemma IoOrderly(cfg: Config, g: Global, a: IoStep, c: nat, fd: int, got: seq<Posix.Got>)
    requires Core(cfg, g) && IoEnabled(cfg, g, a) && c < |g.cl| && AfterOpen(g, OfIo(a), c, fd)
    requires Orderly(g, c, fd, got) && Loyal(g, c, fd, got) && Settled(g, c, fd)
    ensures Orderly(IoApply(cfg, g, a), c, fd, Posix.Noted(EventOf(cfg, g, OfIo(a)), Posix.Handle(c, fd), got))
  {
    FreshIds(cfg, g);
    if !IoOn(g, a, c, fd) || a.PBegin? || a.SBegin? {
      IoAsideOrderly(cfg, g, a, c, fd, got);
    } else if a.RBegin? {
      ReadBeginOrderly(cfg, g, c, fd, a.count, got);
    } else {
      IoOnOrderly(cfg, g, a, got);
    }
  }

  // ------------------------------------------------------------------ runs

  lemma StepOrderly(cfg: Config, g: Global, a: Action, c: nat, fd: int, got: seq<Posix.Got>)
    requires Inv(cfg, g) && Enabled(cfg, g, a) && AfterOpen(g, a, c, fd)
    requires Settled(g, c, fd) && Loyal(g, c, fd, got) && Orderly(g, c, fd, got)
    ensures Orderly(Apply(cfg, g, a), c, fd, Posix.Noted(EventOf(cfg, g, a), Posix.Handle(c, fd), got))
  {
    SameClients(cfg, g, a);
    if c < |g.cl| {
      match a
      case OfOpen(o) => OpenOrderly(cfg, g, o, c, fd, got);
      case OfIo(io) => IoOrderly(cfg, g, io, c, fd, got);
      case OfClose(x) => CloseOrderly(cfg, g, x, c, fd, got);
    }
  }

  // A new open starts afresh.
  lemma ReopenOrderly(cfg: Config, g: Global, a: Action, c: nat, fd: int, got: seq<Posix.Got>)
    requires Core(cfg, g) && Enabled(cfg, g, a) && Reopens(a, c, fd)
    ensures Orderly(Apply(cfg, g, a), c, fd, Posix.Noted(EventOf(cfg, g, a), Posix.Handle(c, fd), got))
  {
    FreshIds(cfg, g);
    OpenNoNewReads(cfg, g, a.o, c, fd);
    OpenBeginOrderly(cfg, g, c, fd, a.o.path, a.o.tracked);
  }

  lemma {:induction false} RunOrderly(cfg: Config, g: Global, run: seq<Action>, c: nat, fd: int, got: seq<Posix.Got>,
                                      early: bool)
    requires Inv(cfg, g) && AllSettled(g) && Valid(cfg, g, run)
    requires Loyal(g, c, fd, got) && (early || Orderly(g, c, fd, got))
    ensures ReadsEarly(cfg, g, run, c, fd, early) ||
            Orderly(After(cfg, g, run), c, fd, Posix.Reads(Events(cfg, g, run), Posix.Handle(c, fd), got))
    decreases |run|
  {
    if run != [] {
      var a := run[0];
      var t, next := Apply(cfg, g, a), Posix.Noted(EventOf(cfg, g, a), Posix.Handle(c, fd), got);
      StepInv(cfg, g, a);
      StepAllSettled(cfg, g, a);
      StepLoyal(cfg, g, a, c, fd, got);
      if Reopens(a, c, fd) {
        ReopenOrderly(cfg, g, a, c, fd, got);
      } else if !EarlyNoted(g, a, c, fd, early) {
        StepOrderly(cfg, g, a, c, fd, got);
      }
      RunOrderly(cfg, t, run[1..], c, fd, next, EarlyNoted(g, a, c, fd, early));
      assert Events(cfg, g, run)[1..] == Events(cfg, t, run[1..]);
    }
  }

  // The exact condition for applications that wait for their opens: the file is delivered
  // in order unless some bytes were served and some others were read locally because a
  // request could not be sent.
  lemma InOrderIffNotSentAndServed(cfg: Config, g: Global, run: seq<Action>, c: nat, fd: int)
    requires Start(cfg, g) && Valid(cfg, g, run) && IsOpenFd(After(cfg, g, run), c, fd)
    requires NeverSeeked(cfg, g, run, c, fd) && Conforms(cfg, g, run, c, fd)
    ensures var got := History(cfg, g, run, c, fd);
            InOrder(got) <==> !(Gave(got, Posix.RemoteSide) && Gave(got, Posix.LocalSide(Posix.NotSent)))
  {
    StartInv(cfg, g);
    RunOrderly(cfg, g, run, c, fd, [], false);
    ReadsAtTwoCursors(cfg, g, run, c, fd);
    var got := History(cfg, g, run, c, fd);
    EarlyExcludesServed(got);
  }

  lemma EarlyExcludesServed(got: seq<Posix.Got>)
    requires Early(got) ==> !ServedRemotely(got)
    ensures InOrder(got) <==> !(Gave(got, Posix.RemoteSide) && Gave(got, Posix.LocalSide(Posix.NotSent)))
  {
    InOrderIff(got);
    MovedIffGave(got, true);
    MovedIffGave(got, false);
    if Moved(got, true) > 0 && Moved(got, false) > 0 {
      var i :| 0 <= i < |got| && got[i].side.RemoteSide? && got[i].out != [];
      assert Gave(got, Posix.RemoteSide);
      var j :| 0 <= j < |got| && !got[j].side.RemoteSide? && got[j].out != [];
      assert got[j].side.why.NotSent?;
      assert Gave(got, Posix.LocalSide(Posix.NotSent));
    }
  }

  // ------------------------------------------------ when every request is sent

  predicate Unsent(st: Stage) { PlainRead(st) && st.ReadLocal? && st.why.NotSent? }

  ghost predicate NoneUnsent(g: Global, c: nat, fd: int, got: seq<Posix.Got>)
  {
    && (forall k :: IsOn(g, k, c, fd) ==> !Unsent(g.ops[k].at))
    && (forall i :: 0 <= i < |got| ==> got[i].side != Posix.LocalSide(Posix.NotSent))
  }

  lemma OpenNoneUnsent(cfg: Config, g: Global, a: OpenStep, c: nat, fd: int, got: seq<Posix.Got>)
    requires OpenEnabled(cfg, g, a) && g.next !in g.ops && NoneUnsent(g, c, fd, got)
    ensures NoneUnsent(OpenApply(cfg, g, a), c, fd, Posix.Noted(EventOf(cfg, g, OfOpen(a)), Posix.Handle(c, fd), got))
  {
    OpenAlone(cfg, g, a);
    OpenActs(cfg, g, a);
    var t := OpenApply(cfg, g, a);
    forall k | IsOn(t, k, c, fd) ensures !Unsent(t.ops[k].at) {
      assert k != OpenActor(g, a) ==> IsOn(g, k, c, fd);
    }
  }

  lemma CloseNoneUnsent(cfg: Config, g: Global, a: CloseStep, c: nat, fd: int, got: seq<Posix.Got>)
    requires CloseEnabled(cfg, g, a) && NoneUnsent(g, c, fd, got)
    ensures NoneUnsent(CloseApply(cfg, g, a), c, fd, Posix.Noted(EventOf(cfg, g, OfClose(a)), Posix.Handle(c, fd), got))
  {
    var t := CloseApply(cfg, g, a);
    forall k | IsOn(t, k, c, fd) ensures !Unsent(t.ops[k].at) {
      CloseThreadsOn(cfg, g, a, k);
      if !IsClosing(t.ops[k].at) && !t.ops[k].at.CloseReq? { assert IsOn(g, k, c, fd); }
    }
  }

  lemma IoUnsent(cfg: Config, g: Global, a: IoStep, c: nat, fd: int)
    requires IoEnabled(cfg, g, a) && SentIfReady(g, OfIo(a), c, fd) && IoOn(g, a, c, fd)
    ensures var t, k := IoApply(cfg, g, a), IoActor(g, a);
            k in t.ops && Unsent(t.ops[k].at) ==> k in g.ops && Unsent(g.ops[k].at)
    ensures var ev := EventOf(cfg, g, OfIo(a));
            ev.ReadEv? && ev.side == Posix.LocalSide(Posix.NotSent) ==> a.RLocal? && Unsent(g.ops[a.k].at)
  {
  }

  lemma IoNoneUnsent(cfg: Config, g: Global, a: IoStep, c: nat, fd: int, got: seq<Posix.Got>)
    requires IoEnabled(cfg, g, a) && g.next !in g.ops && SentIfReady(g, OfIo(a), c, fd) && NoneUnsent(g, c, fd, got)
    ensures NoneUnsent(IoApply(cfg, g, a), c, fd, Posix.Noted(EventOf(cfg, g, OfIo(a)), Posix.Handle(c, fd), got))
  {
    IoAlone(cfg, g, a);
    var t := IoApply(cfg, g, a);
    if IoOn(g, a, c, fd) {
      IoUnsent(cfg, g, a, c, fd);
      forall k | IsOn(t, k, c, fd) ensures !Unsent(t.ops[k].at) {
        if k in g.ops { assert IsOn(g, k, c, fd); }
      }
    } else {
      if a.RBegin? || a.PBegin? || a.SBegin? { IoBegins(cfg, g, a); }
      OtherHandle(g.spec, EventOf(cfg, g, OfIo(a)), Posix.Handle(c, fd), got);
      forall k | IsOn(t, k, c, fd) ensures !Unsent(t.ops[k].at) {
        assert k != IoActor(g, a) && IsOn(g, k, c, fd);
      }
    }
  }

  lemma ReopenNoneUnsent(cfg: Config, g: Global, a: Action, c: nat, fd: int, got: seq<Posix.Got>)
    requires Core(cfg, g) && Enabled(cfg, g, a) && Reopens(a, c, fd)
    ensures NoneUnsent(Apply(cfg, g, a), c, fd, Posix.Noted(EventOf(cfg, g, a), Posix.Handle(c, fd), got))
  {
    FreshIds(cfg, g);
    OpenNoNewReads(cfg, g, a.o, c, fd);
    OpenBeginOrderly(cfg, g, c, fd, a.o.path, a.o.tracked);
    forall k | IsOn(g, k, c, fd) ensures !Unsent(g.ops[k].at) { assert OpOk(cfg, g, k); }
  }

  lemma StepNoneUnsent(cfg: Config, g: Global, a: Action, c: nat, fd: int, got: seq<Posix.Got>)
    requires Core(cfg, g) && Enabled(cfg, g, a) && SentIfReady(g, a, c, fd) && NoneUnsent(g, c, fd, got)
    ensures NoneUnsent(Apply(cfg, g, a), c, fd, Posix.Noted(EventOf(cfg, g, a), Posix.Handle(c, fd), got))
  {
    FreshIds(cfg, g);
    match a
    case OfOpen(o) => OpenNoneUnsent(cfg, g, o, c, fd, got);
    case OfIo(io) => IoNoneUnsent(cfg, g, io, c, fd, got);
    case OfClose(x) => CloseNoneUnsent(cfg, g, x, c, fd, got);
  }

  lemma {:induction false} RunNoneUnsent(cfg: Config, g: Global, run: seq<Action>, c: nat, fd: int,
                                         got: seq<Posix.Got>, failed: bool)
    requires Inv(cfg, g) && Valid(cfg, g, run) && (failed || NoneUnsent(g, c, fd, got))
    ensures SendFails(cfg, g, run, c, fd, failed) ||
            NoneUnsent(After(cfg, g, run), c, fd, Posix.Reads(Events(cfg, g, run), Posix.Handle(c, fd), got))
    decreases |run|
  {
    if run != [] {
      var a := run[0];
      var t, next := Apply(cfg, g, a), Posix.Noted(EventOf(cfg, g, a), Posix.Handle(c, fd), got);
      StepInv(cfg, g, a);
      if Reopens(a, c, fd) {
        ReopenNoneUnsent(cfg, g, a, c, fd, got);
      } else if !UnsentNoted(g, a, c, fd, failed) {
        StepNoneUnsent(cfg, g, a, c, fd, got);
      }
      RunNoneUnsent(cfg, t, run[1..], c, fd, next, UnsentNoted(g, a, c, fd, failed));
      assert Events(cfg, g, run)[1..] == Events(cfg, t, run[1..]);
    }
  }

  lemma AllSentOneSide(cfg: Config, g: Global, run: seq<Action>, c: nat, fd: int)
    requires Start(cfg, g) && Valid(cfg, g, run) && IsOpenFd(After(cfg, g, run), c, fd)
    requires NeverSeeked(cfg, g, run, c, fd) && Conforms(cfg, g, run, c, fd) && AllSent(cfg, g, run, c, fd)
    ensures var got := History(cfg, g, run, c, fd);
            && ((forall i :: 0 <= i < |got| ==> got[i].side.RemoteSide?)
                || (forall i :: 0 <= i < |got| ==> got[i].side.LocalSide?))
            && forall i :: 0 <= i < |got| ==> got[i].side != Posix.LocalSide(Posix.NotSent)
  {
    StartInv(cfg, g);
    RunOrderly(cfg, g, run, c, fd, [], false);
    RunNoneUnsent(cfg, g, run, c, fd, [], false);
    ReadsAtTwoCursors(cfg, g, run, c, fd);
  }

  // If moreover every request of the fd that was tried could be sent, one side served all
  // its reads, and what they delivered is the file from its start.
  lemma AllSentDeliversTheFile(cfg: Config, g: Global, run: seq<Action>, c: nat, fd: int)
    requires Start(cfg, g) && Valid(cfg, g, run) && IsOpenFd(After(cfg, g, run), c, fd)
    requires NeverSeeked(cfg, g, run, c, fd) && Conforms(cfg, g, run, c, fd) && AllSent(cfg, g, run, c, fd)
    ensures var t, got := After(cfg, g, run), History(cfg, g, run, c, fd);
            && ((forall i :: 0 <= i < |got| ==> got[i].side.RemoteSide?)
                || (forall i :: 0 <= i < |got| ==> got[i].side.LocalSide?))
            && t.cl[c].local[fd].path in cfg.disk && Stream(got) <= cfg.disk[t.cl[c].local[fd].path]
            && (ReadToTheEnd(got) ==> Stream(got) == cfg.disk[t.cl[c].local[fd].path])
  {
    AllSentOneSide(cfg, g, run, c, fd);
    InOrderIffOneCursorMoved(cfg, g, run, c, fd);
    InOrderIffNotSentAndServed(cfg, g, run, c, fd);
    if ReadToTheEnd(History(cfg, g, run, c, fd)) { ReadingOnDeliversTheFile(cfg, g, run, c, fd); }
  }
}
