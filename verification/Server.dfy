// One HVAC server as a state machine: the RPC handlers, which run one at a time
// on the progress thread, interleaved with the steps of the data mover thread.
module Server {
  import opened Files

  datatype OpenFile = OpenFile(file: Path, cursor: nat)

  // Where the mover stands: blocked on its condition variable, between two items
  // of its private list, or copying the first item to `target`.
  datatype Phase = Waiting | Running | Copying(target: Path) | Copied(target: Path)

  // What happened on this server, in order.
  datatype Event =
    | Tested(path: Path)
    | Pushed(path: Path)
    | Attempted(path: Path)
    | Published(path: Path, copy: Path)
    | Failed(path: Path)

  datatype Server = Server(
    kernel: map<int, OpenFile>,    // fds this process has open for clients
    fdToPath: map<int, Path>,      // fd_to_path
    cache: map<Path, Path>,        // path_cache_map
    queue: seq<Path>,              // data_queue
    closing: Option<int>,          // close handler between its cache test and its push
    phase: Phase,
    local: seq<Path>,              // local_list
    files: map<Path, Bytes>,       // node-local files the mover created, whole or partial
    published: map<Path, Path>,    // every copy ever published, with its original
    hist: seq<Event>)

  const Boot := Server(map[], map[], map[], [], None, Waiting, [], map[], map[], [])

  datatype Act =
    | Open(path: Path, ret: int)
    | Read(fd: int, offset: int, count: nat, n: nat)
    | Seek(fd: int, offset: int, whence: Whence)
    | CloseTest(fd: int)
    | ClosePush
    | Wake
    | StartCopy(target: Path)
    | WriteSome(upTo: nat)
    | FinishCopy
    | Publish
    | FailCopy
    | Sleep

  predicate IsMover(a: Act)
  {
    a.Wake? || a.StartCopy? || a.WriteSome? || a.FinishCopy? || a.Publish? || a.FailCopy? || a.Sleep?
  }

  // The file an open of `p` reaches: one lookup in path_cache_map, never two.
  function Resolve(s: Server, p: Path): Path
  {
    if p in s.cache then s.cache[p] else p
  }

  function Content(cfg: Config, s: Server, f: Path): Bytes
  {
    if f in cfg.disk then cfg.disk[f] else if f in s.files then s.files[f] else []
  }

  // The position a read request starts at: offset -1 asks for the fd's own cursor.
  function ReadPos(s: Server, fd: int, offset: int): nat
    requires fd in s.kernel
  {
    if offset < 0 then s.kernel[fd].cursor else offset
  }

  function ReadResult(cfg: Config, s: Server, fd: int, offset: int, n: nat): Bytes
    requires fd in s.kernel
  {
    Chunk(Content(cfg, s, s.kernel[fd].file), ReadPos(s, fd, offset), n)
  }

  function SeekResult(cfg: Config, s: Server, fd: int, offset: int, whence: Whence): int
    requires fd in s.kernel
  {
    SeekMeaning(|Content(cfg, s, s.kernel[fd].file)|, s.kernel[fd].cursor, offset, whence)
  }

  predicate Enabled(cfg: Config, s: Server, a: Act)
  {
    match a
    // open(2) fails with -1 or returns an fd that was not open.
    case Open(p, r) => s.closing.None? && (r == -1 || (r >= 0 && r !in s.kernel))
    case Read(fd, offset, count, n) =>
      && s.closing.None? && fd in s.kernel && offset >= -1
      && ReadLength(|Content(cfg, s, s.kernel[fd].file)|, ReadPos(s, fd, offset), count, n)
    case Seek(fd, _, _) => s.closing.None? && fd in s.kernel
    case CloseTest(fd) => s.closing.None? && fd in s.kernel && fd in s.fdToPath
    case ClosePush => s.closing.Some? && s.closing.value in s.fdToPath
    // A signal or a spurious wakeup.
    case Wake => s.phase.Waiting?
    // mkdtemp gives a directory no file lives in yet.
    case StartCopy(t) => s.phase.Running? && s.local != [] && t !in cfg.disk && t !in s.files && t !in s.published
    case WriteSome(n) =>
      && s.phase.Copying? && s.local != [] && s.local[0] in cfg.disk
      && Written(s) < n < |cfg.disk[s.local[0]]|
    case FinishCopy => s.phase.Copying? && s.local != [] && s.local[0] in cfg.disk
    case Publish => s.phase.Copied? && s.local != []
    case FailCopy => s.phase.Copying? && s.local != []
    case Sleep => s.phase.Running? && s.local == []
  }

  function Written(s: Server): nat
  {
    if s.phase.Copying? && s.phase.target in s.files then |s.files[s.phase.target]| else 0
  }

  function Apply(cfg: Config, s: Server, a: Act): Server
    requires Enabled(cfg, s, a)
  {
    match a
    case Open(p, r) =>
      if r >= 0 then
        s.(kernel := s.kernel[r := OpenFile(Resolve(s, p), 0)], fdToPath := s.fdToPath[r := p])
      else
        s.(fdToPath := s.fdToPath[r := p])
    case Read(fd, offset, _, n) =>
      if offset < 0 then s.(kernel := s.kernel[fd := s.kernel[fd].(cursor := s.kernel[fd].cursor + n)]) else s
    case Seek(fd, offset, whence) =>
      var res := SeekResult(cfg, s, fd, offset, whence);
      if res >= 0 then s.(kernel := s.kernel[fd := s.kernel[fd].(cursor := res)]) else s
    case CloseTest(fd) =>
      var p := s.fdToPath[fd];
      var t := s.(kernel := s.kernel - {fd}, hist := s.hist + [Tested(p)]);
      if p in s.cache then t.(fdToPath := s.fdToPath - {fd}) else t.(closing := Some(fd))
    case ClosePush =>
      var p := s.fdToPath[s.closing.value];
      s.(queue := s.queue + [p], hist := s.hist + [Pushed(p)],
         fdToPath := s.fdToPath - {s.closing.value}, closing := None)
    case Wake => s.(local := s.local + s.queue, queue := [], phase := Running)
    case StartCopy(t) => s.(phase := Copying(t), hist := s.hist + [Attempted(s.local[0])])
    case WriteSome(n) => s.(files := s.files[s.phase.target := cfg.disk[s.local[0]][..n]])
    case FinishCopy =>
      s.(files := s.files[s.phase.target := cfg.disk[s.local[0]]], phase := Copied(s.phase.target))
    case Publish =>
      s.(cache := s.cache[s.local[0] := s.phase.target], published := s.published[s.phase.target := s.local[0]],
         hist := s.hist + [Published(s.local[0], s.phase.target)], local := s.local[1..], phase := Running)
    case FailCopy => s.(hist := s.hist + [Failed(s.local[0])], local := s.local[1..], phase := Running)
    case Sleep => s.(phase := Waiting)
  }

  // ---------------------------------------------------------------- history

  ghost function Pushes(h: seq<Event>): seq<Path>
  {
    if h == [] then [] else
      var e := h[|h| - 1];
      Pushes(h[..|h| - 1]) + (if e.Pushed? then [e.path] else [])
  }

  // The items the mover is done with, published or failed, in the order it took them.
  ghost function Retired(h: seq<Event>): seq<Path>
  {
    if h == [] then [] else
      var e := h[|h| - 1];
      Retired(h[..|h| - 1]) + (if e.Published? || e.Failed? then [e.path] else [])
  }

  ghost function Attempts(h: seq<Event>, p: Path): nat
  {
    if h == [] then 0 else
      Attempts(h[..|h| - 1], p) + (if h[|h| - 1] == Attempted(p) then 1 else 0)
  }

  ghost predicate EverPublished(h: seq<Event>, p: Path)
  {
    exists j :: 0 <= j < |h| && h[j].Published? && h[j].path == p
  }

  // Close requests for `p` whose cache test ran before `p` was first published.
  ghost function EarlyTests(h: seq<Event>, p: Path): nat
  {
    if h == [] then 0 else
      var before := h[..|h| - 1];
      EarlyTests(before, p) + (if h[|h| - 1] == Tested(p) && !EverPublished(before, p) then 1 else 0)
  }

  lemma Snoc(h: seq<Event>, e: Event, p: Path)
    ensures Pushes(h + [e]) == Pushes(h) + (if e.Pushed? then [e.path] else [])
    ensures Retired(h + [e]) == Retired(h) + (if e.Published? || e.Failed? then [e.path] else [])
    ensures Attempts(h + [e], p) == Attempts(h, p) + (if e == Attempted(p) then 1 else 0)
    ensures EverPublished(h + [e], p) == (EverPublished(h, p) || (e.Published? && e.path == p))
    ensures EarlyTests(h + [e], p) == EarlyTests(h, p) + (if e == Tested(p) && !EverPublished(h, p) then 1 else 0)
  {
    assert (h + [e])[..|h|] == h;
    if EverPublished(h, p) {
      var j :| 0 <= j < |h| && h[j].Published? && h[j].path == p;
      assert (h + [e])[j] == h[j];
    }
    if e.Published? && e.path == p {
      assert (h + [e])[|h|] == e;
    }
    if EverPublished(h + [e], p) {
      var j :| 0 <= j < |h + [e]| && (h + [e])[j].Published? && (h + [e])[j].path == p;
      assert j < |h| ==> h[j] == (h + [e])[j];
    }
  }

  // -------------------------------------------------------------- invariant

  ghost predicate Mine(cfg: Config, i: nat, p: Path)
  {
    p in cfg.disk && cfg.count > 0 && Host(cfg, p) == i
  }

  // fd_to_path knows exactly the fds open for clients (and the one a close handler
  // is about to forget); every value is an original this server is responsible for.
  ghost predicate Books(cfg: Config, i: nat, s: Server)
  {
    && (forall r :: r in s.kernel ==> r >= 0 && r in s.fdToPath && s.closing != Some(r))
    && (forall r :: r in s.fdToPath && r >= 0 ==> r in s.kernel || s.closing == Some(r))
    && (forall r :: r in s.fdToPath ==> Mine(cfg, i, s.fdToPath[r]))
    && (s.closing.Some? ==> s.closing.value in s.fdToPath && s.closing.value >= 0)
  }

  // A published copy is whole, is not an original and equals its original;
  // path_cache_map leads from originals to published copies only.
  ghost predicate Copies(cfg: Config, i: nat, s: Server)
  {
    && (forall f :: f in s.files ==> f !in cfg.disk)
    && (forall f :: f in s.published ==>
          f in s.files && Mine(cfg, i, s.published[f]) && s.files[f] == cfg.disk[s.published[f]])
    && (forall p :: p in s.cache ==> Mine(cfg, i, p) && s.cache[p] in s.published && s.published[s.cache[p]] == p)
  }

  ghost predicate Busy(cfg: Config, i: nat, s: Server)
  {
    && (forall p :: p in s.local || p in s.queue ==> Mine(cfg, i, p))
    && (s.phase.Waiting? ==> s.local == [])
    && (s.phase.Copying? || s.phase.Copied? ==>
          s.local != [] && s.phase.target !in cfg.disk && s.phase.target !in s.published)
    && (s.phase.Copied? ==>
          && s.local[0] in cfg.disk && s.phase.target in s.files
          && s.files[s.phase.target] == cfg.disk[s.local[0]])
  }

  // The fd serves the path it was opened for: the original or one of its whole copies.
  ghost predicate Serves(s: Server, r: int)
    requires r in s.kernel && r in s.fdToPath
  {
    var f := s.kernel[r].file;
    f == s.fdToPath[r] || (f in s.published && s.published[f] == s.fdToPath[r])
  }

  ghost predicate Queued(s: Server)
  {
    Pushes(s.hist) == Retired(s.hist) + s.local + s.queue
  }

  ghost function Current(s: Server, p: Path): nat
  {
    if (s.phase.Copying? || s.phase.Copied?) && s.local != [] && s.local[0] == p then 1 else 0
  }

  ghost function Pending(s: Server, p: Path): nat
  {
    if s.closing.Some? && s.closing.value in s.fdToPath && s.fdToPath[s.closing.value] == p then 1 else 0
  }

  ghost predicate Counted(s: Server, p: Path)
  {
    && (EverPublished(s.hist, p) <==> p in s.cache)
    && TestCount(s, p)
    && AttemptCount(s, p)
  }

  ghost predicate Inv(cfg: Config, i: nat, s: Server)
  {
    && Books(cfg, i, s)
    && Copies(cfg, i, s)
    && Busy(cfg, i, s)
    && (forall r :: r in s.kernel ==> Serves(s, r))
    && Queued(s)
    && (forall p :: Counted(s, p))
  }

  lemma BootInv(cfg: Config, i: nat)
    ensures Inv(cfg, i, Boot)
  {
  }

  // Every open this server sees is routed to it.
  ghost predicate Routed(cfg: Config, i: nat, a: Act)
  {
    a.Open? ==> Mine(cfg, i, a.path)
  }

  lemma StepBooks(cfg: Config, i: nat, s: Server, a: Act)
    requires Books(cfg, i, s) && Enabled(cfg, s, a) && Routed(cfg, i, a)
    ensures Books(cfg, i, Apply(cfg, s, a))
  {
  }

  lemma StepCopies(cfg: Config, i: nat, s: Server, a: Act)
    requires Copies(cfg, i, s) && Busy(cfg, i, s) && Enabled(cfg, s, a)
    ensures Copies(cfg, i, Apply(cfg, s, a))
  {
  }

  lemma StepBusy(cfg: Config, i: nat, s: Server, a: Act)
    requires Books(cfg, i, s) && Busy(cfg, i, s) && Enabled(cfg, s, a)
    ensures Busy(cfg, i, Apply(cfg, s, a))
  {
  }

  lemma StepServes(cfg: Config, i: nat, s: Server, a: Act, r: int)
    requires Books(cfg, i, s) && Copies(cfg, i, s) && Busy(cfg, i, s)
    requires r in s.kernel ==> Serves(s, r)
    requires Enabled(cfg, s, a)
    requires r in Apply(cfg, s, a).kernel && r in Apply(cfg, s, a).fdToPath
    ensures Serves(Apply(cfg, s, a), r)
  {
    if r in s.kernel { FdKeepsFile(cfg, i, s, a, r); }
    PublishedStays(cfg, i, s, a);
  }

  lemma FdKeepsFile(cfg: Config, i: nat, s: Server, a: Act, r: int)
    requires Books(cfg, i, s) && Enabled(cfg, s, a) && r in s.kernel && r in Apply(cfg, s, a).kernel
    ensures var t := Apply(cfg, s, a);
            && t.kernel[r].file == s.kernel[r].file
            && r in t.fdToPath && t.fdToPath[r] == s.fdToPath[r]
  {
  }

  lemma PublishedStays(cfg: Config, i: nat, s: Server, a: Act)
    requires Busy(cfg, i, s) && Enabled(cfg, s, a)
    ensures forall f :: f in s.published ==>
              f in Apply(cfg, s, a).published && Apply(cfg, s, a).published[f] == s.published[f]
  {
  }

  // The event an act appends to the history, if any.
  ghost function Logged(s: Server, a: Act): seq<Event>
  {
    match a
    case CloseTest(fd) => if fd in s.fdToPath then [Tested(s.fdToPath[fd])] else []
    case ClosePush =>
      if s.closing.Some? && s.closing.value in s.fdToPath then [Pushed(s.fdToPath[s.closing.value])] else []
    case StartCopy(_) => if s.local != [] then [Attempted(s.local[0])] else []
    case Publish => if s.local != [] && s.phase.Copied? then [Published(s.local[0], s.phase.target)] else []
    case FailCopy => if s.local != [] then [Failed(s.local[0])] else []
    case _ => []
  }

  lemma Appends(cfg: Config, s: Server, a: Act)
    requires Enabled(cfg, s, a)
    ensures Apply(cfg, s, a).hist == s.hist + Logged(s, a)
    ensures |Logged(s, a)| <= 1
  {
  }

  // How the counts over the history move when `log`, at most one event, is appended.
  lemma LogGrows(cfg: Config, s: Server, a: Act, p: Path)
    requires Enabled(cfg, s, a)
    ensures |Logged(s, a)| <= 1
    ensures Logged(s, a) == [] ==> Apply(cfg, s, a).hist == s.hist
    ensures Logged(s, a) != [] ==>
              var e, h, k := Logged(s, a)[0], s.hist, Apply(cfg, s, a).hist;
              && Pushes(k) == Pushes(h) + (if e.Pushed? then [e.path] else [])
              && Retired(k) == Retired(h) + (if e.Published? || e.Failed? then [e.path] else [])
              && Attempts(k, p) == Attempts(h, p) + (if e == Attempted(p) then 1 else 0)
              && EverPublished(k, p) == (EverPublished(h, p) || (e.Published? && e.path == p))
              && EarlyTests(k, p) == EarlyTests(h, p) + (if e == Tested(p) && !EverPublished(h, p) then 1 else 0)
  {
    Appends(cfg, s, a);
    var log := Logged(s, a);
    if log != [] {
      assert log == [log[0]];
      Snoc(s.hist, log[0], p);
    }
  }

  lemma MoveHead(d: seq<Path>, l: seq<Path>)
    requires l != []
    ensures d + [l[0]] + l[1..] == d + l
  {
  }

  lemma PushQueued(cfg: Config, s: Server)
    requires Queued(s) && Enabled(cfg, s, ClosePush)
    ensures Queued(Apply(cfg, s, ClosePush))
  {
    LogGrows(cfg, s, ClosePush, Path(""));
    var d, l, q, p := Retired(s.hist), s.local, s.queue, s.fdToPath[s.closing.value];
    assert d + l + q + [p] == d + l + (q + [p]);
  }

  lemma RetireQueued(cfg: Config, s: Server, a: Act)
    requires Queued(s) && Enabled(cfg, s, a) && (a.Publish? || a.FailCopy?)
    ensures Queued(Apply(cfg, s, a))
  {
    LogGrows(cfg, s, a, Path(""));
    MoveHead(Retired(s.hist), s.local);
  }

  lemma WakeQueued(cfg: Config, s: Server)
    requires Queued(s) && Enabled(cfg, s, Wake)
    ensures Queued(Apply(cfg, s, Wake))
  {
    var d, l, q := Retired(s.hist), s.local, s.queue;
    assert d + l + q == d + (l + q) + [];
  }

  lemma SameQueues(cfg: Config, s: Server, a: Act)
    requires Enabled(cfg, s, a) && !a.ClosePush? && !a.Wake? && !a.Publish? && !a.FailCopy?
    ensures Apply(cfg, s, a).local == s.local && Apply(cfg, s, a).queue == s.queue
    ensures Logged(s, a) != [] ==> !Logged(s, a)[0].Pushed? && !Logged(s, a)[0].Published? && !Logged(s, a)[0].Failed?
  {
  }

  lemma StepQueued(cfg: Config, s: Server, a: Act)
    requires Queued(s) && Enabled(cfg, s, a)
    ensures Queued(Apply(cfg, s, a))
  {
    if a.ClosePush? {
      PushQueued(cfg, s);
    } else if a.Wake? {
      WakeQueued(cfg, s);
    } else if a.Publish? || a.FailCopy? {
      RetireQueued(cfg, s, a);
    } else {
      SameQueues(cfg, s, a);
      LogGrows(cfg, s, a, Path(""));
    }
  }

  ghost predicate TestCount(s: Server, p: Path)
  {
    EarlyTests(s.hist, p) == multiset(Pushes(s.hist))[p] + Pending(s, p)
  }

  lemma TestedCount(cfg: Config, s: Server, fd: int, p: Path)
    requires TestCount(s, p) && Enabled(cfg, s, CloseTest(fd)) && (EverPublished(s.hist, p) <==> p in s.cache)
    ensures TestCount(Apply(cfg, s, CloseTest(fd)), p)
  {
    LogGrows(cfg, s, CloseTest(fd), p);
  }

  lemma PushedCount(cfg: Config, s: Server, p: Path)
    requires TestCount(s, p) && Enabled(cfg, s, ClosePush)
    ensures TestCount(Apply(cfg, s, ClosePush), p)
  {
    LogGrows(cfg, s, ClosePush, p);
  }

  lemma SamePending(cfg: Config, i: nat, s: Server, a: Act, p: Path)
    requires Enabled(cfg, s, a) && Books(cfg, i, s) && !a.CloseTest? && !a.ClosePush?
    ensures Pending(Apply(cfg, s, a), p) == Pending(s, p)
  {
    var t := Apply(cfg, s, a);
    assert t.closing == s.closing;
    if !a.Open? { assert t.fdToPath == s.fdToPath; }
  }

  lemma StepTestCount(cfg: Config, i: nat, s: Server, a: Act, p: Path)
    requires Counted(s, p) && Enabled(cfg, s, a) && Books(cfg, i, s)
    ensures TestCount(Apply(cfg, s, a), p)
  {
    if a.CloseTest? {
      TestedCount(cfg, s, a.fd, p);
    } else if a.ClosePush? {
      PushedCount(cfg, s, p);
    } else {
      SamePending(cfg, i, s, a, p);
      LogGrows(cfg, s, a, p);
    }
  }

  ghost predicate AttemptCount(s: Server, p: Path)
  {
    Attempts(s.hist, p) == multiset(Retired(s.hist))[p] + Current(s, p)
  }

  lemma StepAttemptCount(cfg: Config, s: Server, a: Act, p: Path)
    requires AttemptCount(s, p) && Enabled(cfg, s, a)
    ensures AttemptCount(Apply(cfg, s, a), p)
  {
    if a.StartCopy? {
      StartedCount(cfg, s, a.target, p);
    } else {
      LogGrows(cfg, s, a, p);
      if a.Publish? || a.FailCopy? {
        RetireCount(s, Apply(cfg, s, a), p);
      } else {
        SameItem(cfg, s, a, p);
      }
    }
  }

  lemma SameItem(cfg: Config, s: Server, a: Act, p: Path)
    requires Enabled(cfg, s, a)
    requires !(a.StartCopy? || a.Publish? || a.FailCopy?)
    ensures Current(Apply(cfg, s, a), p) == Current(s, p)
  {
    var t := Apply(cfg, s, a);
    assert s.phase.Copying? || s.phase.Copied? ==> t.local == s.local;
  }

  lemma StartedCount(cfg: Config, s: Server, target: Path, p: Path)
    requires AttemptCount(s, p) && Enabled(cfg, s, StartCopy(target))
    ensures AttemptCount(Apply(cfg, s, StartCopy(target)), p)
  {
    Snoc(s.hist, Attempted(s.local[0]), p);
  }

  lemma RetireCount(s: Server, t: Server, p: Path)
    requires AttemptCount(s, p) && s.local != [] && (s.phase.Copying? || s.phase.Copied?)
    requires t.phase.Running? && Attempts(t.hist, p) == Attempts(s.hist, p)
    requires Retired(t.hist) == Retired(s.hist) + [s.local[0]]
    ensures AttemptCount(t, p)
  {
  }

  lemma StepCounted(cfg: Config, i: nat, s: Server, a: Act, p: Path)
    requires Counted(s, p) && Enabled(cfg, s, a)
    requires Busy(cfg, i, s) && Books(cfg, i, s)
    ensures Counted(Apply(cfg, s, a), p)
  {
    StepTestCount(cfg, i, s, a, p);
    StepAttemptCount(cfg, s, a, p);
    StepEverPublished(cfg, s, a, p);
  }

  lemma StepEverPublished(cfg: Config, s: Server, a: Act, p: Path)
    requires Enabled(cfg, s, a) && (EverPublished(s.hist, p) <==> p in s.cache)
    ensures var t := Apply(cfg, s, a);
            EverPublished(t.hist, p) <==> p in t.cache
  {
    if a.Publish? {
      LogGrows(cfg, s, Publish, p);
    } else {
      NothingPublished(cfg, s, a, p);
      OnlyPublishCaches(cfg, s, a);
    }
  }

  lemma OnlyPublishCaches(cfg: Config, s: Server, a: Act)
    requires Enabled(cfg, s, a) && !a.Publish?
    ensures Apply(cfg, s, a).cache == s.cache
  {
  }

  lemma NothingPublished(cfg: Config, s: Server, a: Act, p: Path)
    requires Enabled(cfg, s, a) && !a.Publish?
    ensures EverPublished(Apply(cfg, s, a).hist, p) == EverPublished(s.hist, p)
  {
    LogGrows(cfg, s, a, p);
    assert Logged(s, a) != [] ==> !Logged(s, a)[0].Published?;
  }

  lemma StepInv(cfg: Config, i: nat, s: Server, a: Act)
    requires Inv(cfg, i, s) && Enabled(cfg, s, a) && Routed(cfg, i, a)
    ensures Inv(cfg, i, Apply(cfg, s, a))
  {
    var t := Apply(cfg, s, a);
    StepBooks(cfg, i, s, a);
    StepCopies(cfg, i, s, a);
    StepBusy(cfg, i, s, a);
    StepQueued(cfg, s, a);
    forall r | r in t.kernel ensures Serves(t, r) { StepServes(cfg, i, s, a, r); }
    forall p ensures Counted(t, p) { StepCounted(cfg, i, s, a, p); }
  }

  // A seek moves one cursor and nothing else.
  lemma SeekMovesOneCursor(cfg: Config, s: Server, fd: int, offset: int, whence: Whence)
    requires Enabled(cfg, s, Seek(fd, offset, whence))
    ensures var t := Apply(cfg, s, Seek(fd, offset, whence));
            && t == s.(kernel := t.kernel) && t.kernel.Keys == s.kernel.Keys
            && t.kernel[fd].file == s.kernel[fd].file
            && forall e :: e in s.kernel && e != fd ==> t.kernel[e] == s.kernel[e]
  {
  }

  // The mover, and the second half of a close handler, leave the open fds alone.
  lemma InnerKeepsKernel(cfg: Config, s: Server, a: Act)
    requires Enabled(cfg, s, a) && (a.ClosePush? || IsMover(a))
    ensures Apply(cfg, s, a).kernel == s.kernel
  {
  }
}
