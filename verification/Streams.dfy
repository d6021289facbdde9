// What sequences of read(2) deliver in runs of the whole job: when is the stream the
// application sees its file?
module Streams {
  import opened Files
  import opened FdTables
  import opened Protocol
  import opened ProtocolInv
  import opened Runs
  import opened Settling
  import opened Transparency
  import opened Fallback
  import Posix

  // The reads of client fd (c, fd) since it was last opened.
  ghost function History(cfg: Config, g: Global, run: seq<Action>, c: nat, fd: int): seq<Posix.Got>
    requires Valid(cfg, g, run)
  {
    Posix.Reads(Events(cfg, g, run), Posix.Handle(c, fd), [])
  }

  // No seek has reached the fd since it was last opened.
  ghost predicate NeverSeeked(cfg: Config, g: Global, run: seq<Action>, c: nat, fd: int)
    requires Valid(cfg, g, run)
  {
    !Posix.Seeked(Events(cfg, g, run), Posix.Handle(c, fd), false)
  }

  ghost predicate IsOpenFd(g: Global, c: nat, fd: int)
  {
    c < |g.cl| && fd in g.cl[c].local
  }

  // -------------------------------------------------------- in every run

  // However reads, failures and timeouts interleave, every read hands out the client's
  // own file at the cursor of the side that served it, and the two cursors are the ones
  // the client and the specification hold.
  lemma ReadsAtTwoCursors(cfg: Config, g: Global, run: seq<Action>, c: nat, fd: int)
    requires Start(cfg, g) && Valid(cfg, g, run) && IsOpenFd(After(cfg, g, run), c, fd)
    requires NeverSeeked(cfg, g, run, c, fd)
    ensures var t, got := After(cfg, g, run), History(cfg, g, run, c, fd);
            && Posix.Handle(c, fd) in t.spec
            && t.cl[c].local[fd].path in cfg.disk && Replays(cfg.disk[t.cl[c].local[fd].path], got)
            && t.cl[c].local[fd].cursor == Moved(got, false)
            && t.spec[Posix.Handle(c, fd)].remote == Moved(got, true)
  {
    var h := Posix.Handle(c, fd);
    Transparent(cfg, g, run);
    StartInv(cfg, g);
    FinalSpec(cfg, g, run);
    AcceptedReadsReplay(cfg, map[], Events(cfg, g, run), h, [], false);
    RunInv(cfg, g, run);
    assert FdOk(cfg, After(cfg, g, run), c, fd);
  }

  // The exact condition over all runs: the file is delivered from its start, in order,
  // if and only if one of the two cursors has not moved.  Otherwise the first byte was
  // delivered twice, and a file with a first byte of its own shows it.
  lemma InOrderIffOneCursorMoved(cfg: Config, g: Global, run: seq<Action>, c: nat, fd: int)
    requires Start(cfg, g) && Valid(cfg, g, run) && IsOpenFd(After(cfg, g, run), c, fd)
    requires NeverSeeked(cfg, g, run, c, fd)
    ensures var t, got := After(cfg, g, run), History(cfg, g, run, c, fd);
            var x := t.cl[c].local[fd];
            && Posix.Handle(c, fd) in t.spec && x.path in cfg.disk
            && (InOrder(got) <==> x.cursor == 0 || t.spec[Posix.Handle(c, fd)].remote == 0)
            && (InOrder(got) ==> Stream(got) <= cfg.disk[x.path])
            && ((forall j :: 0 < j < |cfg.disk[x.path]| ==> cfg.disk[x.path][j] != cfg.disk[x.path][0]) ==>
                  (Stream(got) <= cfg.disk[x.path] <==> InOrder(got)))
  {
    ReadsAtTwoCursors(cfg, g, run, c, fd);
    var got := History(cfg, g, run, c, fd);
    InOrderIff(got);
    StreamIffInOrder(cfg.disk[After(cfg, g, run).cl[c].local[fd].path], got);
  }

  // The last read asked for something and got nothing.
  ghost predicate ReadToTheEnd(got: seq<Posix.Got>)
  {
    got != [] && got[|got| - 1].count > 0 && got[|got| - 1].out == []
  }

  // Reading on until a read gives nothing delivers exactly the file, when one of the two
  // cursors has not moved.
  lemma ReadingOnDeliversTheFile(cfg: Config, g: Global, run: seq<Action>, c: nat, fd: int)
    requires Start(cfg, g) && Valid(cfg, g, run) && IsOpenFd(After(cfg, g, run), c, fd)
    requires NeverSeeked(cfg, g, run, c, fd) && ReadToTheEnd(History(cfg, g, run, c, fd))
    requires InOrder(History(cfg, g, run, c, fd))
    ensures var t, got := After(cfg, g, run), History(cfg, g, run, c, fd);
            t.cl[c].local[fd].path in cfg.disk && Stream(got) == cfg.disk[t.cl[c].local[fd].path]
  {
    ReadsAtTwoCursors(cfg, g, run, c, fd);
    NothingMoreMeansAll(cfg.disk[After(cfg, g, run).cl[c].local[fd].path], History(cfg, g, run, c, fd));
  }

  // ------------------------------------------------------ who served a handle

  ghost predicate ServedRemotely(got: seq<Posix.Got>)
  {
    exists i :: 0 <= i < |got| && got[i].side.RemoteSide?
  }

  // Left to the real call before the request was even tried.
  ghost predicate Early(got: seq<Posix.Got>)
  {
    exists i :: 0 <= i < |got| && got[i].side.LocalSide? && !got[i].side.why.NotSent?
  }

  // A handle that was ever served remotely is mapped, or being closed, and its open did
  // not fail.
  ghost predicate Loyal(g: Global, c: nat, fd: int, got: seq<Posix.Got>)
  {
    c < |g.cl| && Posix.Handle(c, fd) in g.spec && ServedRemotely(got) ==>
      && (Mapped(g.cl[c], fd) || !NotClosing(g, c, fd))
      && !(fd in g.cl[c].status && g.cl[c].status[fd] == ERROR)
  }

  lemma SameThreadsAgree(g: Global, t: Global, c: nat, fd: int)
    requires SameThreads(g, t, c, fd)
    ensures NoOpen(g, c, fd) <==> NoOpen(t, c, fd)
    ensures NotClosing(g, c, fd) <==> NotClosing(t, c, fd)
  {
    forall k | IsOn(g, k, c, fd) && (IsOpen(g.ops[k].at) || IsClosing(g.ops[k].at)) ensures IsOn(t, k, c, fd) { }
    forall k | IsOn(t, k, c, fd) && (IsOpen(t.ops[k].at) || IsClosing(t.ops[k].at)) ensures IsOn(g, k, c, fd) { }
  }

  // No event on this handle but the given one.
  lemma OtherHandle(st: Posix.State, ev: Posix.Event, h: Posix.Handle, got: seq<Posix.Got>)
    requires !ev.Silent? ==> ev.h != h
    ensures Posix.Noted(ev, h, got) == got && (h in Posix.Next(st, ev) <==> h in st)
  {
  }

  lemma LoyalElsewhere(g: Global, t: Global, c: nat, fd: int, got: seq<Posix.Got>)
    requires c < |g.cl| && Loyal(g, c, fd, got) && Untouched(g, t, c, fd) && SameThreads(g, t, c, fd)
    requires Posix.Handle(c, fd) in t.spec ==> Posix.Handle(c, fd) in g.spec
    ensures Loyal(t, c, fd, got)
  {
    SameThreadsAgree(g, t, c, fd);
  }

  // An open that is still under way was never served.
  lemma OpenGoesOnLoyal(cfg: Config, g: Global, a: OpenStep, got: seq<Posix.Got>)
    requires OpenEnabled(cfg, g, a) && !a.OBegin? && Core(cfg, g)
    requires Loyal(g, g.ops[a.k].c, g.ops[a.k].fd, got)
    ensures Loyal(OpenApply(cfg, g, a), g.ops[a.k].c, g.ops[a.k].fd, got)
  {
    var t, c, fd := OpenApply(cfg, g, a), g.ops[a.k].c, g.ops[a.k].fd;
    assert OpOk(cfg, g, a.k);
    assert NotClosing(g, c, fd) by {
      forall j | IsOn(g, j, c, fd) ensures !IsClosing(g.ops[j].at) { assert Compatible(g, j, a.k); }
    }
  }

  lemma OpenLoyal(cfg: Config, g: Global, a: OpenStep, c: nat, fd: int, got: seq<Posix.Got>)
    requires Core(cfg, g) && OpenEnabled(cfg, g, a) && c < |g.cl| && Loyal(g, c, fd, got)
    ensures Loyal(OpenApply(cfg, g, a), c, fd, Posix.Noted(EventOf(cfg, g, OfOpen(a)), Posix.Handle(c, fd), got))
  {
    FreshIds(cfg, g);
    OpenMoves(cfg, g, a);
    if !OpenOn(g, a, c, fd) {
      OtherHandle(g.spec, EventOf(cfg, g, OfOpen(a)), Posix.Handle(c, fd), got);
      OpenElsewhere(cfg, g, a, c, fd);
      LoyalElsewhere(g, OpenApply(cfg, g, a), c, fd, got);
    } else if !a.OBegin? {
      OpenGoesOnLoyal(cfg, g, a, got);
    }
  }

  lemma IoLoyal(cfg: Config, g: Global, a: IoStep, c: nat, fd: int, got: seq<Posix.Got>)
    requires Core(cfg, g) && IoEnabled(cfg, g, a) && c < |g.cl| && Loyal(g, c, fd, got) && Settled(g, c, fd)
    ensures Loyal(IoApply(cfg, g, a), c, fd, Posix.Noted(EventOf(cfg, g, OfIo(a)), Posix.Handle(c, fd), got))
  {
    FreshIds(cfg, g);
    IoSameHandles(cfg, g, a);
    IoElsewhere(cfg, g, a, c, fd);
    var t, got2 := IoApply(cfg, g, a), Posix.Noted(EventOf(cfg, g, OfIo(a)), Posix.Handle(c, fd), got);
    if a.RServe? && IsOn(g, a.k, c, fd) {
      ServeLoyal(cfg, g, a.k, a.n, c, fd, got2);
    } else {
      NotServedHere(cfg, g, a, c, fd, got);
      assert Loyal(g, c, fd, got2);
    }
    LoyalElsewhere(g, t, c, fd, got2);
  }

  lemma NotServedHere(cfg: Config, g: Global, a: IoStep, c: nat, fd: int, got: seq<Posix.Got>)
    requires IoEnabled(cfg, g, a) && !(a.RServe? && IsOn(g, a.k, c, fd))
    ensures ServedRemotely(Posix.Noted(EventOf(cfg, g, OfIo(a)), Posix.Handle(c, fd), got)) ==> ServedRemotely(got)
  {
  }

  lemma ServeLoyal(cfg: Config, g: Global, k: nat, n: nat, c: nat, fd: int, got: seq<Posix.Got>)
    requires CanSrvRead(cfg, g, k, n) && IsOn(g, k, c, fd) && Settled(g, c, fd) && OpOk(cfg, g, k)
    ensures Loyal(g, c, fd, got)
  {
  }

  lemma CloseLoyal(cfg: Config, g: Global, a: CloseStep, c: nat, fd: int, got: seq<Posix.Got>)
    requires Core(cfg, g) && CloseEnabled(cfg, g, a) && c < |g.cl| && Loyal(g, c, fd, got)
    ensures Loyal(CloseApply(cfg, g, a), c, fd, Posix.Noted(EventOf(cfg, g, OfClose(a)), Posix.Handle(c, fd), got))
  {
    FreshIds(cfg, g);
    CloseMoves(cfg, g, a);
    var t := CloseApply(cfg, g, a);
    if !CloseOn(g, a, c, fd) {
      OtherHandle(g.spec, EventOf(cfg, g, OfClose(a)), Posix.Handle(c, fd), got);
      CloseElsewhere(cfg, g, a, c, fd);
      LoyalElsewhere(g, t, c, fd, got);
    } else if !a.CReal? {
      CloseOnLoyal(cfg, g, a, c, fd, got);
    }
  }

  lemma CloseOnLoyal(cfg: Config, g: Global, a: CloseStep, c: nat, fd: int, got: seq<Posix.Got>)
    requires CloseEnabled(cfg, g, a) && c < |g.cl| && CloseOn(g, a, c, fd) && !a.CReal? && Loyal(g, c, fd, got)
    ensures Loyal(CloseApply(cfg, g, a), c, fd, got)
  {
    var t := CloseApply(cfg, g, a);
    if a.CBegin? {
      CloseBeginCloses(cfg, g, c, fd, a.ok);
    } else {
      assert a.k in t.ops && t.ops[a.k].c == c && t.ops[a.k].fd == fd && IsClosing(t.ops[a.k].at);
    }
  }

  lemma CloseBeginCloses(cfg: Config, g: Global, c: nat, fd: int, ok: bool)
    requires CanCloseBegin(cfg, g, c, fd)
    ensures var t := CloseBegin(cfg, g, c, fd, ok);
            && t.spec == g.spec && c < |t.cl| && t.cl[c].status == g.cl[c].status
            && !NotClosing(t, c, fd)
  {
    var t := CloseBegin(cfg, g, c, fd, ok);
    CloseBeginThread(cfg, g, c, fd, ok);
    assert t.ops[g.next].c == c;
  }

  lemma CloseBeginThread(cfg: Config, g: Global, c: nat, fd: int, ok: bool)
    requires CanCloseBegin(cfg, g, c, fd)
    ensures var t := CloseBegin(cfg, g, c, fd, ok);
            g.next in t.ops && t.ops[g.next].c == c && t.ops[g.next].fd == fd && IsClosing(t.ops[g.next].at)
  {
  }

  lemma StepLoyal(cfg: Config, g: Global, a: Action, c: nat, fd: int, got: seq<Posix.Got>)
    requires Inv(cfg, g) && Enabled(cfg, g, a) && Settled(g, c, fd) && Loyal(g, c, fd, got)
    ensures Loyal(Apply(cfg, g, a), c, fd, Posix.Noted(EventOf(cfg, g, a), Posix.Handle(c, fd), got))
  {
    SameClients(cfg, g, a);
    if c < |g.cl| {
      match a
      case OfOpen(o) => OpenLoyal(cfg, g, o, c, fd, got);
      case OfIo(io) => IoLoyal(cfg, g, io, c, fd, got);
      case OfClose(x) => CloseLoyal(cfg, g, x, c, fd, got);
    }
  }

  lemma {:induction false} RunLoyal(cfg: Config, g: Global, run: seq<Action>, c: nat, fd: int, got: seq<Posix.Got>)
    requires Inv(cfg, g) && AllSettled(g) && Valid(cfg, g, run) && Loyal(g, c, fd, got)
    ensures Loyal(After(cfg, g, run), c, fd, Posix.Reads(Events(cfg, g, run), Posix.Handle(c, fd), got))
    decreases |run|
  {
    if run != [] {
      var t := Apply(cfg, g, run[0]);
      StepInv(cfg, g, run[0]);
      StepAllSettled(cfg, g, run[0]);
      StepLoyal(cfg, g, run[0], c, fd, got);
      RunLoyal(cfg, t, run[1..], c, fd, Posix.Noted(EventOf(cfg, g, run[0]), Posix.Handle(c, fd), got));
      assert Events(cfg, g, run)[1..] == Events(cfg, t, run[1..]);
    }
  }

  // When the remote open failed, every read was left to the real call and the stream is
  // the file's, whatever the order and the timing.
  lemma FailedOpenDeliversTheFile(cfg: Config, g: Global, run: seq<Action>, c: nat, fd: int)
    requires Start(cfg, g) && Valid(cfg, g, run) && IsOpenFd(After(cfg, g, run), c, fd)
    requires NeverSeeked(cfg, g, run, c, fd)
    requires var x := After(cfg, g, run).cl[c]; fd in x.status && x.status[fd] == ERROR
    ensures var t, got := After(cfg, g, run), History(cfg, g, run, c, fd);
            && (forall i :: 0 <= i < |got| ==> got[i].side.LocalSide?)
            && t.cl[c].local[fd].path in cfg.disk && Stream(got) <= cfg.disk[t.cl[c].local[fd].path]
            && (ReadToTheEnd(got) ==> Stream(got) == cfg.disk[t.cl[c].local[fd].path])
  {
    StartInv(cfg, g);
    RunLoyal(cfg, g, run, c, fd, []);
    InOrderIffOneCursorMoved(cfg, g, run, c, fd);
    ReadsAtTwoCursors(cfg, g, run, c, fd);
    MovedIffGave(History(cfg, g, run, c, fd), true);
    if ReadToTheEnd(History(cfg, g, run, c, fd)) { ReadingOnDeliversTheFile(cfg, g, run, c, fd); }
  }
}
