// What holds over every interleaving of one server's handlers with its data mover.
module ServerRuns {
  import opened Files
  import opened Server

  ghost predicate Valid(cfg: Config, i: nat, s: Server, acts: seq<Act>)
    decreases |acts|
  {
    acts == [] ||
    (Enabled(cfg, s, acts[0]) && Routed(cfg, i, acts[0]) && Valid(cfg, i, Apply(cfg, s, acts[0]), acts[1..]))
  }

  ghost function After(cfg: Config, i: nat, s: Server, acts: seq<Act>): Server
    requires Valid(cfg, i, s, acts)
    decreases |acts|
  {
    if acts == [] then s else After(cfg, i, Apply(cfg, s, acts[0]), acts[1..])
  }

  lemma {:induction false} RunInv(cfg: Config, i: nat, s: Server, acts: seq<Act>)
    requires Inv(cfg, i, s) && Valid(cfg, i, s, acts)
    ensures Inv(cfg, i, After(cfg, i, s, acts))
    decreases |acts|
  {
    if acts != [] {
      StepInv(cfg, i, s, acts[0]);
      RunInv(cfg, i, Apply(cfg, s, acts[0]), acts[1..]);
    }
  }

  lemma {:induction false} Append(cfg: Config, i: nat, s: Server, a: seq<Act>, b: seq<Act>)
    requires Valid(cfg, i, s, a) && Valid(cfg, i, After(cfg, i, s, a), b)
    ensures Valid(cfg, i, s, a + b) && After(cfg, i, s, a + b) == After(cfg, i, After(cfg, i, s, a), b)
    decreases |a|
  {
    if a == [] {
      assert a + b == b;
    } else {
      assert (a + b)[1..] == a[1..] + b;
      Append(cfg, i, Apply(cfg, s, a[0]), a[1..], b);
    }
  }

  lemma Then(cfg: Config, i: nat, s: Server, a: seq<Act>, b: Act)
    requires Valid(cfg, i, s, a) && Enabled(cfg, After(cfg, i, s, a), b) && IsMover(b)
    ensures Valid(cfg, i, s, a + [b]) && After(cfg, i, s, a + [b]) == Apply(cfg, After(cfg, i, s, a), b)
  {
    assert [b][1..] == [];
    assert Valid(cfg, i, Apply(cfg, After(cfg, i, s, a), b), []);
    Append(cfg, i, s, a, [b]);
  }

  // What one round of the copy loop makes of the server; `out` is None when the copy
  // succeeds, or else how much of it was written.
  ghost function Round(cfg: Config, s: Server, name: Path, out: Option<nat>): Server
    requires s.local != [] && s.local[0] in cfg.disk
  {
    var p := s.local[0];
    if out.None? then
      s.(cache := s.cache[p := name], published := s.published[name := p], files := s.files[name := cfg.disk[p]],
         local := s.local[1..], hist := s.hist + [Attempted(p)] + [Published(p, name)])
    else
      s.(local := s.local[1..], hist := s.hist + [Attempted(p)] + [Failed(p)],
         files := if 0 < out.value < |cfg.disk[p]| then s.files[name := cfg.disk[p][..out.value]] else s.files)
  }

  // A copy that succeeds is created, written whole and only then published; one that
  // fails, at whatever point, is dropped.
  lemma RoundSteps(cfg: Config, i: nat, s: Server, name: Path, out: Option<nat>) returns (acts: seq<Act>)
    requires Inv(cfg, i, s) && Enabled(cfg, s, StartCopy(name))
    ensures s.local[0] in s.local && s.local[0] in cfg.disk
    ensures Valid(cfg, i, s, acts) && After(cfg, i, s, acts) == Round(cfg, s, name, out)
    ensures forall j :: 0 <= j < |acts| ==> IsMover(acts[j]) && !acts[j].Wake?
  {
    assert s.local[0] in s.local;
    Then(cfg, i, s, [], StartCopy(name));
    assert [] + [StartCopy(name)] == [StartCopy(name)];
    acts := [StartCopy(name)];
    if out.None? {
      Then(cfg, i, s, acts, FinishCopy);
      acts := acts + [FinishCopy];
      Then(cfg, i, s, acts, Publish);
      acts := acts + [Publish];
    } else {
      if 0 < out.value < |cfg.disk[s.local[0]]| {
        Then(cfg, i, s, acts, WriteSome(out.value));
        acts := acts + [WriteSome(out.value)];
      }
      Then(cfg, i, s, acts, FailCopy);
      acts := acts + [FailCopy];
    }
  }

  // A run extended by one round of the copy loop.
  lemma RoundAfter(cfg: Config, i: nat, start: Server, acts: seq<Act>, name: Path, out: Option<nat>)
    returns (all: seq<Act>)
    requires Inv(cfg, i, start) && Valid(cfg, i, start, acts)
    requires Enabled(cfg, After(cfg, i, start, acts), StartCopy(name))
    requires forall j :: 0 <= j < |acts| ==> IsMover(acts[j]) && !acts[j].Wake?
    ensures var s := After(cfg, i, start, acts);
            && s.local[0] in cfg.disk
            && Valid(cfg, i, start, all) && After(cfg, i, start, all) == Round(cfg, s, name, out)
    ensures forall j :: 0 <= j < |all| ==> IsMover(all[j]) && !all[j].Wake?
  {
    RunInv(cfg, i, start, acts);
    var more := RoundSteps(cfg, i, After(cfg, i, start, acts), name, out);
    Append(cfg, i, start, acts, more);
    all := acts + more;
  }

  // What a whole close handler makes of the server when the mover stands still.
  ghost function Closed(s: Server, fd: int): Server
    requires fd in s.fdToPath
  {
    var p := s.fdToPath[fd];
    var t := s.(kernel := s.kernel - {fd}, fdToPath := s.fdToPath - {fd});
    if p in s.cache then t.(hist := s.hist + [Tested(p)])
    else t.(hist := s.hist + [Tested(p)] + [Pushed(p)], queue := s.queue + [p])
  }

  lemma CloseHandled(cfg: Config, i: nat, s: Server, fd: int)
    requires Inv(cfg, i, s) && s.closing.None? && fd in s.kernel
    ensures Enabled(cfg, s, CloseTest(fd)) && Inv(cfg, i, Closed(s, fd))
    ensures var mid := Apply(cfg, s, CloseTest(fd));
            && (mid.closing.Some? ==> Enabled(cfg, mid, ClosePush))
            && (if mid.closing.Some? then Apply(cfg, mid, ClosePush) else mid) == Closed(s, fd)
  {
    var mid := Apply(cfg, s, CloseTest(fd));
    StepInv(cfg, i, s, CloseTest(fd));
    if mid.closing.Some? { StepInv(cfg, i, mid, ClosePush); }
  }

  // ------------------------------------------------------ cache and open fds

  // An fd open for a client reads exactly like the original it was opened for,
  // whether it sits on the original or on any copy, current or superseded.
  lemma FdContent(cfg: Config, i: nat, s: Server, r: int)
    requires Inv(cfg, i, s) && r in s.kernel
    ensures r in s.fdToPath && Mine(cfg, i, s.fdToPath[r])
    ensures Content(cfg, s, s.kernel[r].file) == cfg.disk[s.fdToPath[r]]
  {
    assert Serves(s, r);
  }

  // Redirection is one level deep, ends on a whole copy equal to the original,
  // and no copy is ever cached in its turn.
  lemma RedirectionIsOneLevel(cfg: Config, i: nat, s: Server, p: Path)
    requires Inv(cfg, i, s) && p in cfg.disk
    ensures Resolve(s, Resolve(s, p)) == Resolve(s, p)
    ensures Content(cfg, s, Resolve(s, p)) == cfg.disk[p]
    ensures forall f :: f in s.files ==> f !in s.cache && f !in s.queue && f !in s.local
  {
  }

  // The mover never touches an open fd, nor the bytes it reads.
  lemma MoverLeavesFdsAlone(cfg: Config, i: nat, s: Server, a: Act, r: int)
    requires Inv(cfg, i, s) && Enabled(cfg, s, a) && IsMover(a) && r in s.kernel
    ensures var t := Apply(cfg, s, a);
            && t.kernel == s.kernel && t.fdToPath == s.fdToPath
            && Content(cfg, t, t.kernel[r].file) == Content(cfg, s, s.kernel[r].file)
  {
    assert !a.Open?;
    StepInv(cfg, i, s, a);
    FdContent(cfg, i, s, r);
    FdContent(cfg, i, Apply(cfg, s, a), r);
  }

  lemma CacheGrows(cfg: Config, s: Server, a: Act)
    requires Enabled(cfg, s, a)
    ensures s.cache.Keys <= Apply(cfg, s, a).cache.Keys
  {
  }

  // Once p is published every later open of p on this server is redirected.
  lemma {:induction false} PublishedStaysPublished(cfg: Config, i: nat, s: Server, acts: seq<Act>, p: Path)
    requires Inv(cfg, i, s) && Valid(cfg, i, s, acts) && p in s.cache
    ensures var t := After(cfg, i, s, acts);
            && p in t.cache && Resolve(t, p) != p && Resolve(t, p) in t.published
            && Content(cfg, t, Resolve(t, p)) == cfg.disk[p]
    decreases |acts|
  {
    if acts != [] {
      StepInv(cfg, i, s, acts[0]);
      CacheGrows(cfg, s, acts[0]);
      PublishedStaysPublished(cfg, i, Apply(cfg, s, acts[0]), acts[1..], p);
    }
  }

  // Whatever happened on a server, an open that succeeds there leads to a whole copy of
  // the file exactly when one was ever published, and to the original otherwise; and it
  // starts at the beginning.
  lemma OpensAreRedirected(cfg: Config, i: nat, acts: seq<Act>, p: Path, r: int)
    requires Valid(cfg, i, Boot, acts) && Mine(cfg, i, p) && r >= 0
    requires Enabled(cfg, After(cfg, i, Boot, acts), Open(p, r))
    ensures var s := After(cfg, i, Boot, acts);
            var t := Apply(cfg, s, Open(p, r));
            && r in t.kernel && t.kernel[r].cursor == 0
            && (EverPublished(s.hist, p) ==>
                  && t.kernel[r].file in t.published && t.published[t.kernel[r].file] == p
                  && t.kernel[r].file != p
                  && t.kernel[r].file in t.files && t.files[t.kernel[r].file] == cfg.disk[p])
            && (!EverPublished(s.hist, p) ==> t.kernel[r].file == p)
            && forall e :: e in s.kernel ==> e != r && t.kernel[e] == s.kernel[e]
  {
    BootInv(cfg, i);
    RunInv(cfg, i, Boot, acts);
    assert Counted(After(cfg, i, Boot, acts), p);
  }

  // Once a copy of p was published, every later open of p that succeeds leads to a copy.
  lemma PublishedOpensTheCopy(cfg: Config, i: nat, s: Server, acts: seq<Act>, p: Path, r: int)
    requires Inv(cfg, i, s) && Valid(cfg, i, s, acts) && p in s.cache && r >= 0
    requires Enabled(cfg, After(cfg, i, s, acts), Open(p, r))
    ensures var t := Apply(cfg, After(cfg, i, s, acts), Open(p, r));
            r in t.kernel && t.kernel[r].file in t.published && t.kernel[r].file != p
  {
    PublishedStaysPublished(cfg, i, s, acts, p);
  }

  // ------------------------------------------------------------- the queue

  // No close notification is lost, duplicated or reordered: over every run the items
  // retired, then local_list, then data_queue spell the full history of pushes.
  lemma FifoConservation(cfg: Config, i: nat, acts: seq<Act>)
    requires Valid(cfg, i, Boot, acts)
    ensures var s := After(cfg, i, Boot, acts);
            Pushes(s.hist) == Retired(s.hist) + s.local + s.queue
  {
    BootInv(cfg, i);
    RunInv(cfg, i, Boot, acts);
  }

  lemma CountOfSum(a: seq<Path>, b: seq<Path>, p: Path)
    ensures multiset(a + b)[p] == multiset(a)[p] + multiset(b)[p]
  {
  }

  // Copy attempts for p never exceed the close requests for p whose cache test ran
  // before p was first published.
  lemma BoundedCopying(cfg: Config, i: nat, acts: seq<Act>, p: Path)
    requires Valid(cfg, i, Boot, acts)
    ensures var s := After(cfg, i, Boot, acts);
            Attempts(s.hist, p) <= EarlyTests(s.hist, p)
  {
    BootInv(cfg, i);
    RunInv(cfg, i, Boot, acts);
    var s := After(cfg, i, Boot, acts);
    assert Counted(s, p) && Queued(s);
    CountOfSum(Retired(s.hist) + s.local, s.queue, p);
    CountOfSum(Retired(s.hist), s.local, p);
    if Current(s, p) == 1 {
      assert p in s.local;
    }
  }

  // ---------------------------------------------------------- mover progress

  ghost function Size(cfg: Config, p: Path): nat
  {
    if p in cfg.disk then |cfg.disk[p]| else 0
  }

  ghost function Cost(cfg: Config, ps: seq<Path>): nat
  {
    if ps == [] then 0 else Size(cfg, ps[0]) + 3 + Cost(cfg, ps[1..])
  }

  // A bound on the steps the mover takes before it next waits.
  ghost function Work(cfg: Config, s: Server): int
  {
    if s.phase.Waiting? then 0 else
      1 + Cost(cfg, s.local) -
      (if s.phase.Running? || s.local == [] then 0
       else if s.phase.Copying? then
         1 + (if Written(s) < Size(cfg, s.local[0]) then Written(s) else Size(cfg, s.local[0]))
       else 2 + Size(cfg, s.local[0]))
  }

  // Every step of the mover but the wakeup uses up work; the handlers add none.
  lemma WorkStep(cfg: Config, i: nat, s: Server, a: Act)
    requires Inv(cfg, i, s) && Enabled(cfg, s, a) && !a.Wake?
    ensures Work(cfg, s) >= 0
    ensures IsMover(a) ==> Work(cfg, Apply(cfg, s, a)) < Work(cfg, s)
    ensures !IsMover(a) ==> Work(cfg, Apply(cfg, s, a)) == Work(cfg, s)
  {
    if IsMover(a) {
    } else {
      HandlersLeaveMover(cfg, s, a);
    }
  }

  lemma HandlersLeaveMover(cfg: Config, s: Server, a: Act)
    requires Enabled(cfg, s, a) && !IsMover(a)
    ensures var t := Apply(cfg, s, a);
            t == s.(kernel := t.kernel, fdToPath := t.fdToPath, queue := t.queue, closing := t.closing, hist := t.hist)
  {
  }

  ghost function MoverSteps(acts: seq<Act>): nat
  {
    if acts == [] then 0 else (if IsMover(acts[0]) then 1 else 0) + MoverSteps(acts[1..])
  }

  // Whatever the handlers do meanwhile, the mover waits again after at most Work steps.
  lemma {:induction false} MoverTerminates(cfg: Config, i: nat, s: Server, acts: seq<Act>)
    requires Inv(cfg, i, s) && Valid(cfg, i, s, acts)
    requires forall j :: 0 <= j < |acts| ==> !acts[j].Wake?
    ensures MoverSteps(acts) <= Work(cfg, s)
    decreases |acts|
  {
    if acts == [] {
      if !s.phase.Waiting? {
        assert Cost(cfg, s.local) >= 0;
      }
    } else {
      StepInv(cfg, i, s, acts[0]);
      WorkStep(cfg, i, s, acts[0]);
      MoverTerminates(cfg, i, Apply(cfg, s, acts[0]), acts[1..]);
    }
  }

  // Between two wakeups what is retired and what is still private never changes as a whole.
  lemma RetiredAndLocal(cfg: Config, s: Server, a: Act)
    requires Enabled(cfg, s, a) && !a.Wake?
    ensures var t := Apply(cfg, s, a);
            Retired(t.hist) + t.local == Retired(s.hist) + s.local
  {
    LogGrows(cfg, s, a, Path(""));
    if a.Publish? || a.FailCopy? {
      MoveHead(Retired(s.hist), s.local);
    } else {
      SameLocal(cfg, s, a);
    }
  }

  lemma SameLocal(cfg: Config, s: Server, a: Act)
    requires Enabled(cfg, s, a) && !a.Wake? && !a.Publish? && !a.FailCopy?
    ensures Apply(cfg, s, a).local == s.local
    ensures Retired(Apply(cfg, s, a).hist) == Retired(s.hist)
  {
    LogGrows(cfg, s, a, Path(""));
  }

  lemma {:induction false} RetiredAndLocalRun(cfg: Config, i: nat, s: Server, acts: seq<Act>)
    requires Valid(cfg, i, s, acts)
    requires forall j :: 0 <= j < |acts| ==> !acts[j].Wake?
    ensures var t := After(cfg, i, s, acts);
            Retired(t.hist) + t.local == Retired(s.hist) + s.local
    decreases |acts|
  {
    if acts != [] {
      RetiredAndLocal(cfg, s, acts[0]);
      RetiredAndLocalRun(cfg, i, Apply(cfg, s, acts[0]), acts[1..]);
    }
  }

  // One wakeup, then any interleaving up to the mover's next wait: everything pushed
  // before the wakeup has been published or has failed, in order and exactly once, and
  // everything pushed since is still in data_queue for the next wakeup.
  lemma OnePassRetiresTheQueue(cfg: Config, i: nat, s: Server, acts: seq<Act>)
    requires Inv(cfg, i, s) && s.phase.Waiting?
    requires Valid(cfg, i, Apply(cfg, s, Wake), acts)
    requires forall j :: 0 <= j < |acts| ==> !acts[j].Wake?
    requires After(cfg, i, Apply(cfg, s, Wake), acts).phase.Waiting?
    ensures var t := After(cfg, i, Apply(cfg, s, Wake), acts);
            && Retired(t.hist) == Pushes(s.hist)
            && Pushes(t.hist) == Pushes(s.hist) + t.queue
  {
    var w := Apply(cfg, s, Wake);
    StepInv(cfg, i, s, Wake);
    RunInv(cfg, i, w, acts);
    RetiredAndLocalRun(cfg, i, w, acts);
    var t := After(cfg, i, w, acts);
    assert t.local == [];
    assert Retired(t.hist) + t.local == Retired(t.hist);
    assert w.local == s.queue;
    assert Retired(s.hist) + s.local + s.queue == Retired(s.hist) + s.queue;
  }

  // The mover is never stuck: awake, it always has a step to take.
  lemma MoverNeverStuck(cfg: Config, i: nat, s: Server)
    requires Inv(cfg, i, s) && !s.phase.Waiting?
    ensures exists a :: IsMover(a) && !a.Wake? && Enabled(cfg, s, a)
  {
    match s.phase
    case Running =>
      if s.local == [] {
        assert Enabled(cfg, s, Sleep);
      } else {
        var t := FreshPath(cfg.disk.Keys + s.files.Keys + s.published.Keys);
        assert Enabled(cfg, s, StartCopy(t));
      }
    case Copying(_) => assert Enabled(cfg, s, FailCopy);
    case Copied(_) => assert Enabled(cfg, s, Publish);
  }

  ghost predicate Longer(t: Path, ps: set<Path>)
  {
    forall p :: p in ps ==> |p.name| < |t.name|
  }

  lemma FreshPath(ps: set<Path>) returns (t: Path)
    ensures t !in ps && Longer(t, ps)
    decreases |ps|
  {
    if ps == {} {
      t := Path("");
    } else {
      var p :| p in ps;
      var u := FreshPath(ps - {p});
      t := Path(u.name + p.name + "x");
      forall q | q in ps ensures |q.name| < |t.name| {
        if q != p { assert q in ps - {p}; }
      }
    }
  }

  // ------------------------------------------------------ the offset sentinel

  // A request carries offset -1 for read(2); so a pread at any offset from -1 on leaves
  // the fd's cursor alone exactly when the offset is not -1 or nothing was read.
  lemma CursorMovesIffSentinel(cfg: Config, s: Server, fd: int, offset: int, count: nat, n: nat)
    requires Enabled(cfg, s, Read(fd, offset, count, n))
    ensures Apply(cfg, s, Read(fd, offset, count, n)) == s <==> offset != -1 || n == 0
  {
    var t := Apply(cfg, s, Read(fd, offset, count, n));
    assert t.kernel[fd].cursor == s.kernel[fd].cursor + (if offset == -1 then n else 0);
    assert offset == -1 && n == 0 ==> t.kernel == s.kernel;
  }
}
