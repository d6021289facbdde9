// Complete runs of the job, from the start, in which it is not a plain file system.  In
// all of them the application uses fd 3 only after its open has returned.
module Witnesses {
  import opened Files
  import opened FdTables
  import opened Protocol
  import opened Runs
  import opened Settling
  import opened Streams
  import opened Conforming
  import opened Transparency
  import Fallback
  import Resources
  import Server
  import Posix

  // ------------------------------------------------------- extending a run

  lemma Unroll(cfg: Config, g: Global, a: Action, rest: seq<Action>)
    requires Enabled(cfg, g, a) && Valid(cfg, Apply(cfg, g, a), rest)
    ensures Valid(cfg, g, [a] + rest) && After(cfg, g, [a] + rest) == After(cfg, Apply(cfg, g, a), rest)
    ensures Events(cfg, g, [a] + rest) == [EventOf(cfg, g, a)] + Events(cfg, Apply(cfg, g, a), rest)
    ensures forall e :: ReadsEarly(cfg, g, [a] + rest, 0, 3, e) ==
              ReadsEarly(cfg, Apply(cfg, g, a), rest, 0, 3, EarlyNoted(g, a, 0, 3, e))
  {
    assert ([a] + rest)[1..] == rest;
  }

  lemma {:induction false} Snoc(cfg: Config, g: Global, run: seq<Action>, a: Action)
    requires Valid(cfg, g, run) && Enabled(cfg, After(cfg, g, run), a)
    ensures var t := After(cfg, g, run);
            && Valid(cfg, g, run + [a]) && After(cfg, g, run + [a]) == Apply(cfg, t, a)
            && Events(cfg, g, run + [a]) == Events(cfg, g, run) + [EventOf(cfg, t, a)]
            && forall e :: ReadsEarly(cfg, g, run + [a], 0, 3, e) ==
                 EarlyNoted(t, a, 0, 3, ReadsEarly(cfg, g, run, 0, 3, e))
    decreases |run|
  {
    if run == [] {
      Unroll(cfg, g, a, []);
      assert run + [a] == [a] + [];
    } else {
      var rest := run[1..] + [a];
      Snoc(cfg, Apply(cfg, g, run[0]), run[1..], a);
      Unroll(cfg, g, run[0], rest);
      assert run + [a] == [run[0]] + rest;
    }
  }

  const H := Posix.Handle(0, 3)

  lemma {:induction false} ReadsSnoc(evs: seq<Posix.Event>, e: Posix.Event, sofar: seq<Posix.Got>)
    ensures Posix.Reads(evs + [e], H, sofar) == Posix.Noted(e, H, Posix.Reads(evs, H, sofar))
    decreases |evs|
  {
    if evs == [] {
      assert (evs + [e])[1..] == [];
    } else {
      assert (evs + [e])[1..] == evs[1..] + [e];
      ReadsSnoc(evs[1..], e, Posix.Noted(evs[0], H, sofar));
    }
  }

  // No server is inside a close handler, and no step begins or ends one.
  ghost predicate Between(g: Global) { forall s: nat :: s < |g.sv| ==> g.sv[s].closing.None? }

  ghost predicate NoHandlerCloses(a: Action) { a.OfClose? ==> !a.x.CServe? && !a.x.CInner? }

  lemma StaysBetween(cfg: Config, g: Global, a: Action)
    requires Enabled(cfg, g, a) && NoHandlerCloses(a) && Between(g)
    ensures Between(Apply(cfg, g, a))
  {
    match a
    case OfOpen(o) => OpenStaysBetween(cfg, g, o);
    case OfIo(io) => IoStaysBetween(cfg, g, io);
    case OfClose(x) => assert CloseApply(cfg, g, x).sv == g.sv;
  }

  lemma OpenStaysBetween(cfg: Config, g: Global, a: OpenStep)
    requires OpenEnabled(cfg, g, a) && Between(g)
    ensures Between(OpenApply(cfg, g, a))
  {
    if !a.OServe? { assert OpenApply(cfg, g, a).sv == g.sv; }
  }

  lemma IoStaysBetween(cfg: Config, g: Global, a: IoStep)
    requires IoEnabled(cfg, g, a) && Between(g)
    ensures Between(IoApply(cfg, g, a))
  {
    if !a.RServe? && !a.SServe? { assert IoApply(cfg, g, a).sv == g.sv; }
  }

  // The run, of a conforming application, leads from g to t; `got` are its reads of fd 3.
  ghost predicate Leads(cfg: Config, g: Global, run: seq<Action>, t: Global, got: seq<Posix.Got>)
  {
    && Valid(cfg, g, run) && After(cfg, g, run) == t && Between(t)
    && Conforms(cfg, g, run, 0, 3) && History(cfg, g, run, 0, 3) == got
  }

  lemma Extend(cfg: Config, g: Global, run: seq<Action>, t: Global, got: seq<Posix.Got>, a: Action)
    requires Leads(cfg, g, run, t, got) && Enabled(cfg, t, a) && AfterOpen(t, a, 0, 3) && NoHandlerCloses(a)
    ensures Leads(cfg, g, run + [a], Apply(cfg, t, a), Posix.Noted(EventOf(cfg, t, a), H, got))
  {
    Snoc(cfg, g, run, a);
    StaysBetween(cfg, t, a);
    ReadsSnoc(Events(cfg, g, run), EventOf(cfg, t, a), []);
  }

  ghost predicate Quiet(cfg: Config, t: Global, a: Action)
  {
    Enabled(cfg, t, a) && EventOf(cfg, t, a).Silent?
  }

  // Client 0 has `x` in its maps; `ops` are all threads and messages there are.
  ghost predicate Looks(g: Global, x: Client, ops: map<nat, Op>, next: nat)
  {
    |g.cl| > 0 && g.cl[0] == x && g.ops == ops && g.next == next
  }

  function With3(p: Path, cursor: nat, st: FdState, redir: map<int, int>): Client
  {
    Client(map[3 := LocalFile(p, cursor)], map[3 := p], map[3 := st], redir)
  }

  function Bare3(p: Path, fdMap: map<int, Path>): Client { Client(map[3 := LocalFile(p, 0)], fdMap, map[], map[]) }

  // --------------------------------------------------------- opening fd 3

  // Client 0 has opened p as fd 3 and is about to send the open request.
  lemma ToOpening(cfg: Config, g: Global, p: Path) returns (run: seq<Action>, t: Global)
    requires Start(cfg, g) && |g.cl| > 0 && p in cfg.disk
    ensures Leads(cfg, g, run, t, [])
    ensures Looks(t, With3(p, 0, OPENING, map[]), map[g.next := Op(0, 3, Opening(p))], g.next + 1)
    ensures t.sv == g.sv && t.cl == g.cl[0 := t.cl[0]] && t.owner == g.owner
  {
    var k := g.next;
    run, t := [], g;
    var a := OfOpen(OBegin(0, 3, p, true));
    Extend(cfg, g, run, t, [], a);
    run, t := run + [a], Apply(cfg, t, a);
    assert Looks(t, Bare3(p, map[]), map[k := Op(0, 3, Opened(p))], k + 1);
    a := OfOpen(ORegister(k));
    Extend(cfg, g, run, t, [], a);
    run, t := run + [a], Apply(cfg, t, a);
    assert Looks(t, Bare3(p, map[3 := p]), map[k := Op(0, 3, Registered(p))], k + 1);
    a := OfOpen(OMark(k));
    Extend(cfg, g, run, t, [], a);
    run, t := run + [a], Apply(cfg, t, a);
  }

  // The open request could not be sent, the application keeps the tracked fd and seeks
  // it: the request names the server's fd 0.
  lemma SeekOnFailedOpenMisses(cfg: Config, g: Global, p: Path) returns (run: seq<Action>)
    requires Start(cfg, g) && |g.cl| > 0 && p in cfg.disk
    ensures Valid(cfg, g, run)
    ensures exists k :: k in After(cfg, g, run).ops &&
              After(cfg, g, run).ops[k] == Op(0, 3, SeekReq(Host(cfg, p), 0, 0, Cur))
  {
    var t;
    run, t := ToOpening(cfg, g, p);
    var a := OfOpen(ODispatch(g.next, false));
    Extend(cfg, g, run, t, [], a);
    run, t := run + [a], Apply(cfg, t, a);
    assert Looks(t, With3(p, 0, ERROR, map[]), map[], g.next + 1);
    a := OfIo(SBegin(0, 3, 0, Cur));
    Extend(cfg, g, run, t, [], a);
    run, t := run + [a], Apply(cfg, t, a);
    assert t.ops[g.next + 1] == Op(0, 3, SeekReq(Host(cfg, p), 0, 0, Cur));
  }

  // The server of p has it open as fd 5, at the given position.
  ghost predicate ServesFd5(cfg: Config, g: Global, p: Path, cursor: nat)
  {
    && cfg.count > 0 && Host(cfg, p) < |g.sv| && g.sv[Host(cfg, p)].closing.None?
    && 5 in g.sv[Host(cfg, p)].kernel && g.sv[Host(cfg, p)].kernel[5] == Server.OpenFile(p, cursor)
  }

  lemma IsAnswered(cfg: Config, t: Global, p: Path, k: nat)
    requires cfg.count > 0 && p in cfg.disk && Host(cfg, p) < |t.sv| && t.sv[Host(cfg, p)] == Server.Boot
    requires Looks(t, With3(p, 0, OPENING, map[]), map[k := Op(0, 3, OpenReq(p))], t.next)
    ensures Quiet(cfg, t, OfOpen(OServe(k, 5)))
    ensures var u := Apply(cfg, t, OfOpen(OServe(k, 5)));
            && ServesFd5(cfg, u, p, 0)
            && Looks(u, With3(p, 0, OPENING, map[]), map[k := Op(0, 3, OpenResp(p, 5))], t.next)
  {
  }

  lemma Maps(cfg: Config, t: Global, p: Path, k: nat)
    requires ServesFd5(cfg, t, p, 0)
    requires Looks(t, With3(p, 0, OPENING, map[]), map[k := Op(0, 3, OpenResp(p, 5))], t.next)
    ensures Quiet(cfg, t, OfOpen(OMap(k)))
    ensures var u := Apply(cfg, t, OfOpen(OMap(k)));
            && ServesFd5(cfg, u, p, 0)
            && Looks(u, With3(p, 0, OPENING, map[3 := 5]), map[k := Op(0, 3, OpenMapped(p, 5))], t.next)
  {
  }

  lemma Settles(cfg: Config, t: Global, p: Path, k: nat)
    requires Looks(t, With3(p, 0, OPENING, map[3 := 5]), map[k := Op(0, 3, OpenMapped(p, 5))], t.next)
    ensures Quiet(cfg, t, OfOpen(OReady(k)))
    ensures var u := Apply(cfg, t, OfOpen(OReady(k)));
            && u.sv == t.sv
            && Looks(u, With3(p, 0, READY, map[3 := 5]), map[k := Op(0, 3, OpenSettled)], t.next)
  {
  }

  // The open was answered with fd 5 and has returned.
  lemma ToReady(cfg: Config, g: Global, p: Path) returns (run: seq<Action>, t: Global)
    requires Start(cfg, g) && |g.cl| > 0 && p in cfg.disk
    ensures Leads(cfg, g, run, t, []) && ServesFd5(cfg, t, p, 0)
    ensures Looks(t, With3(p, 0, READY, map[3 := 5]), map[], t.next)
  {
    run, t := ToOpening(cfg, g, p);
    var a := OfOpen(ODispatch(g.next, true));
    Extend(cfg, g, run, t, [], a);
    run, t := run + [a], Apply(cfg, t, a);
    assert Looks(t, With3(p, 0, OPENING, map[]), map[g.next := Op(0, 3, OpenReq(p))], g.next + 1);
    run, t := FromSent(cfg, g, p, run, t, g.next);
  }

  lemma FromSent(cfg: Config, g: Global, p: Path, run: seq<Action>, t: Global, k: nat)
    returns (longer: seq<Action>, u: Global)
    requires cfg.count > 0 && p in cfg.disk && Host(cfg, p) < |t.sv| && t.sv[Host(cfg, p)] == Server.Boot
    requires Leads(cfg, g, run, t, []) && Looks(t, With3(p, 0, OPENING, map[]), map[k := Op(0, 3, OpenReq(p))], t.next)
    ensures Leads(cfg, g, longer, u, []) && ServesFd5(cfg, u, p, 0)
    ensures Looks(u, With3(p, 0, READY, map[3 := 5]), map[], u.next)
  {
    longer, u := run, t;
    var a := OfOpen(OServe(k, 5));
    IsAnswered(cfg, u, p, k);
    Extend(cfg, g, longer, u, [], a);
    longer, u := longer + [a], Apply(cfg, u, a);
    a := OfOpen(OMap(k));
    Maps(cfg, u, p, k);
    Extend(cfg, g, longer, u, [], a);
    longer, u := longer + [a], Apply(cfg, u, a);
    a := OfOpen(OReady(k));
    Settles(cfg, u, p, k);
    Extend(cfg, g, longer, u, [], a);
    longer, u := longer + [a], Apply(cfg, u, a);
    a := OfOpen(OReturn(k));
    Extend(cfg, g, longer, u, [], a);
    longer, u := longer + [a], Apply(cfg, u, a);
  }

  // ------------------------------------------------------------ two reads

  // One byte is asked for, and the fd found READY.
  lemma Asks(cfg: Config, t: Global, p: Path, x: Client)
    requires cfg.count > 0 && Looks(t, x, map[], t.next) && 3 in x.local && 3 in x.fdMap && x.fdMap[3] == p
    ensures var a := OfIo(RBegin(0, 3, 1));
            && Quiet(cfg, t, a) && AfterOpen(t, a, 0, 3)
            && Looks(Apply(cfg, t, a), x, map[t.next := Op(0, 3, ReadWait(Host(cfg, p), 1, -1))], t.next + 1)
            && Apply(cfg, t, a).sv == t.sv
  {
  }

  lemma FindsReady(cfg: Config, t: Global, p: Path, x: Client, k: nat)
    requires cfg.count > 0 && Looks(t, x, map[k := Op(0, 3, ReadWait(Host(cfg, p), 1, -1))], t.next)
    requires 3 in x.status && x.status[3] == READY
    ensures var a := OfIo(RWait(k));
            && Quiet(cfg, t, a)
            && Looks(Apply(cfg, t, a), x, map[k := Op(0, 3, ReadReady(Host(cfg, p), 1, -1))], t.next)
            && Apply(cfg, t, a).sv == t.sv
  {
  }

  lemma ToReadReady(cfg: Config, g: Global, p: Path, cursor: nat, run: seq<Action>, t: Global, got: seq<Posix.Got>)
    returns (longer: seq<Action>, u: Global, k: nat)
    requires cfg.count > 0 && Leads(cfg, g, run, t, got)
    requires Looks(t, With3(p, cursor, READY, map[3 := 5]), map[], t.next)
    ensures Leads(cfg, g, longer, u, got) && u.sv == t.sv
    ensures Looks(u, With3(p, cursor, READY, map[3 := 5]), map[k := Op(0, 3, ReadReady(Host(cfg, p), 1, -1))], u.next)
  {
    k := t.next;
    longer, u := run, t;
    var x := With3(p, cursor, READY, map[3 := 5]);
    var a := OfIo(RBegin(0, 3, 1));
    Asks(cfg, u, p, x);
    Extend(cfg, g, longer, u, got, a);
    longer, u := longer + [a], Apply(cfg, u, a);
    a := OfIo(RWait(k));
    FindsReady(cfg, u, p, x, k);
    Extend(cfg, g, longer, u, got, a);
    longer, u := longer + [a], Apply(cfg, u, a);
  }

  lemma Dispatches(cfg: Config, t: Global, p: Path, k: nat, ok: bool)
    requires cfg.count > 0
    requires Looks(t, With3(p, 0, READY, map[3 := 5]), map[k := Op(0, 3, ReadReady(Host(cfg, p), 1, -1))], t.next)
    ensures var a := OfIo(RDispatch(k, ok));
            && Quiet(cfg, t, a)
            && Looks(Apply(cfg, t, a), With3(p, 0, READY, map[3 := 5]),
                     map[k := Op(0, 3, if ok then ReadReq(Host(cfg, p), 5, 1, -1)
                                       else ReadLocal(1, -1, Posix.NotSent))], t.next)
            && Apply(cfg, t, a).sv == t.sv
  {
  }

  lemma Serves(cfg: Config, t: Global, p: Path, k: nat)
    requires p in cfg.disk && cfg.disk[p] == [0, 1] && ServesFd5(cfg, t, p, 0)
    requires Looks(t, With3(p, 0, READY, map[3 := 5]), map[k := Op(0, 3, ReadReq(Host(cfg, p), 5, 1, -1))], t.next)
    ensures var a := OfIo(RServe(k, 1));
            && Enabled(cfg, t, a) && EventOf(cfg, t, a) == Posix.ReadEv(H, Posix.RemoteSide, 1, [0])
            && Looks(Apply(cfg, t, a), With3(p, 0, READY, map[3 := 5]), map[k := Op(0, 3, ReadBulk([0]))], t.next)
            && ServesFd5(cfg, Apply(cfg, t, a), p, 1)
  {
  }

  // The first read is served and returns.
  lemma ServedRead(cfg: Config, g: Global, p: Path, run: seq<Action>, t: Global, k: nat)
    returns (longer: seq<Action>, u: Global)
    requires p in cfg.disk && cfg.disk[p] == [0, 1] && ServesFd5(cfg, t, p, 0) && Leads(cfg, g, run, t, [])
    requires Looks(t, With3(p, 0, READY, map[3 := 5]), map[k := Op(0, 3, ReadReady(Host(cfg, p), 1, -1))], t.next)
    ensures Leads(cfg, g, longer, u, [Posix.Got(Posix.RemoteSide, 1, [0])])
    ensures ServesFd5(cfg, u, p, 1) && k in u.log && u.log[k] == Data([0])
    ensures Looks(u, With3(p, 0, READY, map[3 := 5]), map[], u.next)
  {
    longer, u := run, t;
    var a := OfIo(RDispatch(k, true));
    Dispatches(cfg, u, p, k, true);
    Extend(cfg, g, longer, u, [], a);
    longer, u := longer + [a], Apply(cfg, u, a);
    a := OfIo(RServe(k, 1));
    Serves(cfg, u, p, k);
    Extend(cfg, g, longer, u, [], a);
    longer, u := longer + [a], Apply(cfg, u, a);
    longer, u := Delivered(cfg, g, p, longer, u, k, [Posix.Got(Posix.RemoteSide, 1, [0])]);
  }

  lemma BulkEnds(cfg: Config, t: Global, p: Path, k: nat)
    requires Looks(t, With3(p, 0, READY, map[3 := 5]), map[k := Op(0, 3, ReadBulk([0]))], t.next)
    ensures var a := OfIo(RBulk(k));
            && Quiet(cfg, t, a)
            && Looks(Apply(cfg, t, a), With3(p, 0, READY, map[3 := 5]), map[k := Op(0, 3, ReadResp([0]))], t.next)
            && Apply(cfg, t, a).sv == t.sv
  {
  }

  lemma ReadReturns(cfg: Config, t: Global, p: Path, k: nat)
    requires Looks(t, With3(p, 0, READY, map[3 := 5]), map[k := Op(0, 3, ReadResp([0]))], t.next)
    ensures var a := OfIo(RReturn(k));
            && Quiet(cfg, t, a)
            && Looks(Apply(cfg, t, a), With3(p, 0, READY, map[3 := 5]), map[], t.next)
            && Apply(cfg, t, a).sv == t.sv && Apply(cfg, t, a).log == t.log[k := Data([0])]
  {
  }

  lemma Delivered(cfg: Config, g: Global, p: Path, run: seq<Action>, t: Global, k: nat, got: seq<Posix.Got>)
    returns (longer: seq<Action>, u: Global)
    requires Leads(cfg, g, run, t, got)
    requires Looks(t, With3(p, 0, READY, map[3 := 5]), map[k := Op(0, 3, ReadBulk([0]))], t.next)
    ensures Leads(cfg, g, longer, u, got) && u.sv == t.sv && k in u.log && u.log[k] == Data([0])
    ensures Looks(u, With3(p, 0, READY, map[3 := 5]), map[], u.next)
  {
    longer, u := run, t;
    var a := OfIo(RBulk(k));
    BulkEnds(cfg, u, p, k);
    Extend(cfg, g, longer, u, got, a);
    longer, u := longer + [a], Apply(cfg, u, a);
    a := OfIo(RReturn(k));
    ReadReturns(cfg, u, p, k);
    Extend(cfg, g, longer, u, got, a);
    longer, u := longer + [a], Apply(cfg, u, a);
  }

  lemma FallsBack(cfg: Config, t: Global, p: Path, k: nat)
    requires p in cfg.disk && cfg.disk[p] == [0, 1]
    requires Looks(t, With3(p, 0, READY, map[3 := 5]), map[k := Op(0, 3, ReadLocal(1, -1, Posix.NotSent))], t.next)
    ensures var a := OfIo(RLocal(k, 1));
            Enabled(cfg, t, a) && EventOf(cfg, t, a) == Posix.ReadEv(H, Posix.LocalSide(Posix.NotSent), 1, [0])
  {
  }

  lemma UnsentRead(cfg: Config, g: Global, p: Path, run: seq<Action>, t: Global, k: nat, got: seq<Posix.Got>)
    returns (longer: seq<Action>)
    requires p in cfg.disk && cfg.disk[p] == [0, 1] && cfg.count > 0 && Leads(cfg, g, run, t, got)
    requires Looks(t, With3(p, 0, READY, map[3 := 5]), map[k := Op(0, 3, ReadReady(Host(cfg, p), 1, -1))], t.next)
    ensures Valid(cfg, g, longer) && Conforms(cfg, g, longer, 0, 3)
    ensures History(cfg, g, longer, 0, 3) == got + [Posix.Got(Posix.LocalSide(Posix.NotSent), 1, [0])]
  {
    var a := OfIo(RDispatch(k, false));
    Dispatches(cfg, t, p, k, false);
    Extend(cfg, g, run, t, got, a);
    var u := Apply(cfg, t, a);
    longer := run + [a];
    a := OfIo(RLocal(k, 1));
    FallsBack(cfg, u, p, k);
    Extend(cfg, g, longer, u, got, a);
    longer := longer + [a];
  }

  // The open settles and returns, the first read is served, the second one's request
  // cannot be sent: two one-byte reads of the file 0 1 deliver 0 0.
  lemma UnsentReadRepeats(cfg: Config, g: Global, p: Path) returns (run: seq<Action>)
    requires Start(cfg, g) && |g.cl| > 0 && p in cfg.disk && cfg.disk[p] == [0, 1]
    ensures Valid(cfg, g, run) && Conforms(cfg, g, run, 0, 3)
    ensures Fallback.Stream(History(cfg, g, run, 0, 3)) == [0, 0]
  {
    var t, k;
    run, t := ToReady(cfg, g, p);
    run, t, k := ToReadReady(cfg, g, p, 0, run, t, []);
    run, t := ServedRead(cfg, g, p, run, t, k);
    var got := [Posix.Got(Posix.RemoteSide, 1, [0])];
    run, t, k := ToReadReady(cfg, g, p, 0, run, t, got);
    run := UnsentRead(cfg, g, p, run, t, k, got);
    var all := got + [Posix.Got(Posix.LocalSide(Posix.NotSent), 1, [0])];
    assert all[..1] == got && got[..0] == [];
    assert Fallback.Stream(got) == [0];
  }

  // ---------------------------------------------------- pread at offset -1

  // What the application gets that calls pread at offset -1 on a READY fd: not a failure
  // but the next byte, and the remote cursor has moved.
  lemma PreadAtMinusOneReads(cfg: Config, g: Global, p: Path) returns (run: seq<Action>, rest: seq<Action>)
    requires Start(cfg, g) && |g.cl| > 0 && p in cfg.disk && cfg.disk[p] == [0, 1]
    ensures Valid(cfg, g, run) && CanReadBegin(cfg, After(cfg, g, run), 0, 3, 1)
    ensures var t := After(cfg, g, run);
            var u := PreadBegin(cfg, t, 0, 3, 1, -1);
            && ServesFd5(cfg, t, p, 0) && Valid(cfg, u, rest)
            && t.next in After(cfg, u, rest).log && After(cfg, u, rest).log[t.next] == Data([0])
            && ServesFd5(cfg, After(cfg, u, rest), p, 1)
  {
    var t;
    run, t := ToReady(cfg, g, p);
    var x, k := With3(p, 0, READY, map[3 := 5]), t.next;
    Asks(cfg, t, p, x);
    var u := Apply(cfg, t, OfIo(RBegin(0, 3, 1)));
    assert Touch(x, 3) == x;
    assert PreadBegin(cfg, t, 0, 3, 1, -1) == u;
    var a := OfIo(RWait(k));
    FindsReady(cfg, u, p, x, k);
    Extend(cfg, u, [], u, [], a);
    var end;
    rest, end := ServedRead(cfg, u, p, [] + [a], Apply(cfg, u, a), k);
  }

  // ------------------------------------------------------------- a leak

  lemma ClosesUnsent(cfg: Config, t: Global, p: Path)
    requires ServesFd5(cfg, t, p, 0) && Looks(t, With3(p, 0, READY, map[3 := 5]), map[], t.next)
    ensures var a := OfClose(CBegin(0, 3, false));
            && Quiet(cfg, t, a) && ServesFd5(cfg, Apply(cfg, t, a), p, 0)
            && Looks(Apply(cfg, t, a), With3(p, 0, READY, map[]), map[t.next := Op(0, 3, CloseUnmapped)], t.next + 1)
  {
  }

  // The close message could not be sent.  Everything is closed, nothing is in flight, and
  // the server still has the fd open.
  lemma UnsentCloseLeaks(cfg: Config, g: Global, p: Path) returns (run: seq<Action>)
    requires Start(cfg, g) && |g.cl| == 1 && p in cfg.disk
    ensures Valid(cfg, g, run) && Conforms(cfg, g, run, 0, 3)
    ensures var t := After(cfg, g, run);
            Resources.AllQuiet(t) && Host(cfg, p) < |t.sv| && 5 in t.sv[Host(cfg, p)].kernel
  {
    var t;
    run, t := ToReady(cfg, g, p);
    var k := t.next;
    var a := OfClose(CBegin(0, 3, false));
    ClosesUnsent(cfg, t, p);
    Extend(cfg, g, run, t, [], a);
    run, t := run + [a], Apply(cfg, t, a);
    run, t := CloseEnds(cfg, g, p, run, t, k);
    ClientCount(cfg, g, run);
    AllIsQuiet(t);
  }

  lemma AllIsQuiet(t: Global)
    requires |t.cl| == 1 && Between(t) && Looks(t, Fresh, map[], t.next)
    ensures Resources.AllQuiet(t)
  {
  }

  lemma ReallyCloses(cfg: Config, t: Global, p: Path, k: nat)
    requires Looks(t, Bare3(p, map[]), map[k := Op(0, 3, CloseForgot)], t.next)
    ensures var a := OfClose(CReal(k));
            && Enabled(cfg, t, a) && EventOf(cfg, t, a) == Posix.CloseEv(H)
            && Looks(Apply(cfg, t, a), Fresh, map[], t.next)
            && Apply(cfg, t, a).sv == t.sv
  {
  }

  lemma CloseEnds(cfg: Config, g: Global, p: Path, run: seq<Action>, t: Global, k: nat)
    returns (longer: seq<Action>, u: Global)
    requires ServesFd5(cfg, t, p, 0) && Leads(cfg, g, run, t, [])
    requires Looks(t, With3(p, 0, READY, map[]), map[k := Op(0, 3, CloseUnmapped)], t.next)
    ensures Leads(cfg, g, longer, u, []) && ServesFd5(cfg, u, p, 0)
    ensures Looks(u, Fresh, map[], t.next)
  {
    longer, u := run, t;
    var a := OfClose(CCleanup(k));
    Extend(cfg, g, longer, u, [], a);
    longer, u := longer + [a], Apply(cfg, u, a);
    assert Looks(u, Bare3(p, map[3 := p]), map[k := Op(0, 3, CloseCleaned)], t.next);
    a := OfClose(CForget(k));
    Extend(cfg, g, longer, u, [], a);
    longer, u := longer + [a], Apply(cfg, u, a);
    assert Looks(u, Bare3(p, map[]), map[k := Op(0, 3, CloseForgot)], t.next);
    a := OfClose(CReal(k));
    ReallyCloses(cfg, u, p, k);
    Extend(cfg, g, longer, u, [], a);
    longer, u := longer + [a], Apply(cfg, u, a);
  }

  lemma {:induction false} ClientCount(cfg: Config, g: Global, run: seq<Action>)
    requires Valid(cfg, g, run)
    ensures |After(cfg, g, run).cl| == |g.cl|
    decreases |run|
  {
    if run != [] {
      SameClients(cfg, g, run[0]);
      ClientCount(cfg, Apply(cfg, g, run[0]), run[1..]);
    }
  }
}
