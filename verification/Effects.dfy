// Linearization: every operation takes effect at exactly one step of the run, between its
// begin and its return, and hands back what that step answered.
module Effects {
  import opened Files
  import opened Protocol
  import opened ProtocolInv
  import opened Runs
  import opened Settling
  import opened Transparency
  import Posix

  // The state before step i.
  ghost function StateAt(cfg: Config, g: Global, run: seq<Action>, i: nat): Global
    requires Valid(cfg, g, run) && i <= |run|
    decreases i
  {
    if i == 0 then g else StateAt(cfg, Apply(cfg, g, run[0]), run[1..], i - 1)
  }

  lemma {:induction false} StateFacts(cfg: Config, g: Global, run: seq<Action>, i: nat)
    requires Inv(cfg, g) && Valid(cfg, g, run) && i <= |run|
    ensures Inv(cfg, StateAt(cfg, g, run, i))
    ensures i == |run| ==> StateAt(cfg, g, run, i) == After(cfg, g, run)
    ensures i < |run| ==>
              && Enabled(cfg, StateAt(cfg, g, run, i), run[i])
              && StateAt(cfg, g, run, i + 1) == Apply(cfg, StateAt(cfg, g, run, i), run[i])
    decreases i
  {
    if i > 0 {
      StepInv(cfg, g, run[0]);
      StateFacts(cfg, Apply(cfg, g, run[0]), run[1..], i - 1);
    }
  }

  // A property of states that holds at j but not at i was brought about by a step between.
  lemma Flips(cfg: Config, g: Global, run: seq<Action>, p: Global -> bool, i: nat, j: nat) returns (m: nat)
    requires Valid(cfg, g, run) && i <= j <= |run|
    requires !p(StateAt(cfg, g, run, i)) && p(StateAt(cfg, g, run, j))
    ensures i <= m < j && !p(StateAt(cfg, g, run, m)) && p(StateAt(cfg, g, run, m + 1))
    decreases j - i
  {
    m := i;
    if !p(StateAt(cfg, g, run, i + 1)) {
      m := Flips(cfg, g, run, p, i + 1, j);
    }
  }

  // ---------------------------------------------------- the life of operation k

  // Action `a` begins the read, pread or seek that gets id k.
  ghost predicate Begins(g: Global, a: Action, k: nat)
  {
    k == g.next && a.OfIo? && (a.io.RBegin? || a.io.PBegin? || a.io.SBegin?)
  }

  // Action `a` is where operation k takes effect, with result v.
  ghost predicate Answers(cfg: Config, g: Global, a: Action, k: nat, v: Value)
    requires Enabled(cfg, g, a)
  {
    match a
    case OfIo(RServe(j, n)) => j == k && v == Data(SrvReadOut(cfg, g, k, n))
    case OfIo(RLocal(j, n)) => j == k && v == Data(LocalOut(cfg, g, k, n))
    case OfIo(SServe(j, wild)) => j == k && v == Offset(SrvSeekRes(cfg, g, k, wild))
    case _ => false
  }

  // Action `a` hands the result of operation k to the application; a real call does so in
  // the same step.
  ghost predicate Returns(a: Action, k: nat)
  {
    a.OfIo? && (a.io.RReturn? || a.io.SReturn? || a.io.RLocal?) && a.io.k == k
  }

  ghost predicate Io(g: Global, k: nat) { k in g.ops && IsIo(g.ops[k].at) }

  // ------------------------------------------------------------- single steps

  lemma OpenRecords(cfg: Config, g: Global, a: OpenStep)
    requires OpenEnabled(cfg, g, a)
    ensures OpenApply(cfg, g, a).lin == g.lin && OpenApply(cfg, g, a).log == g.log
  {
  }

  lemma CloseRecords(cfg: Config, g: Global, a: CloseStep)
    requires CloseEnabled(cfg, g, a)
    ensures CloseApply(cfg, g, a).lin == g.lin && CloseApply(cfg, g, a).log == g.log
  {
  }

  // An answer is recorded when it is given, once and for all.
  lemma IoAnswers(cfg: Config, g: Global, a: IoStep, k: nat, v: Value)
    requires OpsOk(cfg, g) && IoEnabled(cfg, g, a)
    ensures var t := IoApply(cfg, g, a);
            && (Answers(cfg, g, OfIo(a), k, v) <==> k !in g.lin && k in t.lin && t.lin[k] == v)
            && (k in g.lin ==> k in t.lin && t.lin[k] == g.lin[k])
            && (Answers(cfg, g, OfIo(a), k, v) ==> Io(g, k))
  {
    if a.RServe? || a.RLocal? || a.SServe? {
      assert OpOk(cfg, g, a.k);
      IoAnswersNow(cfg, g, a, k, v);
    } else {
      NoAnswer(cfg, g, a);
    }
  }

  lemma NoAnswer(cfg: Config, g: Global, a: IoStep)
    requires IoEnabled(cfg, g, a) && !a.RServe? && !a.RLocal? && !a.SServe?
    ensures IoApply(cfg, g, a).lin == g.lin
  {
  }

  lemma IoAnswersNow(cfg: Config, g: Global, a: IoStep, k: nat, v: Value)
    requires IoEnabled(cfg, g, a) && (a.RServe? || a.RLocal? || a.SServe?) && a.k !in g.lin
    ensures var t := IoApply(cfg, g, a);
            && (Answers(cfg, g, OfIo(a), k, v) <==> k !in g.lin && k in t.lin && t.lin[k] == v)
            && (k in g.lin ==> k in t.lin && t.lin[k] == g.lin[k])
            && Io(g, a.k)
  {
  }

  lemma IoReturns(cfg: Config, g: Global, a: IoStep, k: nat)
    requires IoEnabled(cfg, g, a)
    ensures k in IoApply(cfg, g, a).log ==> k in g.log || Returns(OfIo(a), k)
  {
  }

  lemma StepAnswers(cfg: Config, g: Global, a: Action, k: nat, v: Value)
    requires Inv(cfg, g) && Enabled(cfg, g, a)
    ensures var t := Apply(cfg, g, a);
            && (Answers(cfg, g, a, k, v) <==> k !in g.lin && k in t.lin && t.lin[k] == v)
            && (k in g.lin ==> k in t.lin && t.lin[k] == g.lin[k])
            && (Answers(cfg, g, a, k, v) ==> Io(g, k))
            && (k in t.log ==> k in g.log || Returns(a, k))
  {
    match a
    case OfOpen(o) => OpenRecords(cfg, g, o);
    case OfIo(io) =>
      IoAnswers(cfg, g, io, k, v);
      IoReturns(cfg, g, io, k);
    case OfClose(x) => CloseRecords(cfg, g, x);
  }

  // Only its begin makes an operation one that reads or seeks.
  lemma StepBegins(cfg: Config, g: Global, a: Action, k: nat)
    requires Inv(cfg, g) && Enabled(cfg, g, a) && !Io(g, k) && Io(Apply(cfg, g, a), k)
    ensures Begins(g, a, k)
  {
    FreshIds(cfg, g);
    match a
    case OfOpen(o) =>
      OpenAlone(cfg, g, o);
      OpenActs(cfg, g, o);
    case OfIo(io) =>
      IoAlone(cfg, g, io);
    case OfClose(x) => CloseThreadsOn(cfg, g, x, k);
  }

  // ------------------------------------------------------------------ runs

  // Recorded answers stay.
  lemma StaysAnswered(cfg: Config, g: Global, run: seq<Action>, k: nat, i: nat, j: nat)
    requires Inv(cfg, g) && Valid(cfg, g, run) && i <= j <= |run| && k in StateAt(cfg, g, run, i).lin
    ensures k in StateAt(cfg, g, run, j).lin
    ensures StateAt(cfg, g, run, j).lin[k] == StateAt(cfg, g, run, i).lin[k]
    decreases j - i
  {
    if i < j {
      StateFacts(cfg, g, run, i);
      StepAnswers(cfg, StateAt(cfg, g, run, i), run[i], k, StateAt(cfg, g, run, i).lin[k]);
      StaysAnswered(cfg, g, run, k, i + 1, j);
    }
  }

  ghost predicate AnswersAt(cfg: Config, g: Global, run: seq<Action>, i: nat, k: nat, v: Value)
    requires Valid(cfg, g, run) && i < |run|
  {
    var s := StateAt(cfg, g, run, i);
    Enabled(cfg, s, run[i]) && Answers(cfg, s, run[i], k, v)
  }

  // An operation that returned began at some step b, took effect at some step i and at no
  // other, with the result it returned, and returned at some step r: b < i <= r.
  lemma TakesEffectOnce(cfg: Config, g: Global, run: seq<Action>, k: nat) returns (b: nat, i: nat, r: nat)
    requires Start(cfg, g) && Valid(cfg, g, run) && k in After(cfg, g, run).log
    ensures b < i <= r < |run|
    ensures Begins(StateAt(cfg, g, run, b), run[b], k) && Returns(run[r], k)
    ensures AnswersAt(cfg, g, run, i, k, After(cfg, g, run).log[k])
    // what took effect is what was asked for, and a conforming answer
    ensures AsAsked(cfg, g, run, run[b].io, i, After(cfg, g, run).log[k])
    ensures forall j: nat, v :: j < |run| && AnswersAt(cfg, g, run, j, k, v) ==> j == i
  {
    StartInv(cfg, g);
    i := EffectStep(cfg, g, run, k);
    b := BeginStep(cfg, g, run, k, i);
    r := ReturnStep(cfg, g, run, k, i);
    AskedIsAnswered(cfg, g, run, k, b, i, After(cfg, g, run).log[k]);
    forall j: nat, w | j < |run| && AnswersAt(cfg, g, run, j, k, w) ensures j == i {
      OnlyOnce(cfg, g, run, k, i, After(cfg, g, run).log[k], j, w);
    }
  }

  lemma FirstAnswered(cfg: Config, g: Global, run: seq<Action>, k: nat) returns (i: nat)
    requires Valid(cfg, g, run) && k !in g.lin && k in StateAt(cfg, g, run, |run|).lin
    ensures i < |run| && k !in StateAt(cfg, g, run, i).lin && k in StateAt(cfg, g, run, i + 1).lin
  {
    i := Flips(cfg, g, run, (s: Global) => k in s.lin, 0, |run|);
  }

  lemma FirstLogged(cfg: Config, g: Global, run: seq<Action>, k: nat) returns (i: nat)
    requires Valid(cfg, g, run) && k !in g.log && k in StateAt(cfg, g, run, |run|).log
    ensures i < |run| && k !in StateAt(cfg, g, run, i).log && k in StateAt(cfg, g, run, i + 1).log
  {
    i := Flips(cfg, g, run, (s: Global) => k in s.log, 0, |run|);
  }

  // The first state in which k has an answer comes right after the step that gave it.
  lemma EffectStep(cfg: Config, g: Global, run: seq<Action>, k: nat) returns (i: nat)
    requires Inv(cfg, g) && Valid(cfg, g, run) && k !in g.lin && k in After(cfg, g, run).log
    ensures i < |run| && Io(StateAt(cfg, g, run, i), k)
    ensures k !in StateAt(cfg, g, run, i).lin
    ensures AnswersAt(cfg, g, run, i, k, After(cfg, g, run).log[k])
  {
    LoggedIsAnswered(cfg, g, run, k);
    i := FirstAnswered(cfg, g, run, k);
    StaysAnswered(cfg, g, run, k, i + 1, |run|);
    AnswerGiven(cfg, g, run, k, i);
  }

  lemma LoggedIsAnswered(cfg: Config, g: Global, run: seq<Action>, k: nat)
    requires Inv(cfg, g) && Valid(cfg, g, run) && k in After(cfg, g, run).log
    ensures var t := StateAt(cfg, g, run, |run|);
            t == After(cfg, g, run) && k in t.lin && t.lin[k] == t.log[k]
  {
    StateFacts(cfg, g, run, |run|);
  }

  lemma AnswerGiven(cfg: Config, g: Global, run: seq<Action>, k: nat, i: nat)
    requires Inv(cfg, g) && Valid(cfg, g, run) && i < |run|
    requires k !in StateAt(cfg, g, run, i).lin && k in StateAt(cfg, g, run, i + 1).lin
    ensures AnswersAt(cfg, g, run, i, k, StateAt(cfg, g, run, i + 1).lin[k])
    ensures Io(StateAt(cfg, g, run, i), k)
  {
    StateFacts(cfg, g, run, i);
    StepAnswers(cfg, StateAt(cfg, g, run, i), run[i], k, StateAt(cfg, g, run, i + 1).lin[k]);
  }

  lemma BeginStep(cfg: Config, g: Global, run: seq<Action>, k: nat, i: nat) returns (b: nat)
    requires Inv(cfg, g) && Valid(cfg, g, run) && i <= |run| && !Io(g, k) && Io(StateAt(cfg, g, run, i), k)
    ensures b < i && Begins(StateAt(cfg, g, run, b), run[b], k)
  {
    b := Flips(cfg, g, run, (s: Global) => Io(s, k), 0, i);
    StateFacts(cfg, g, run, b);
    StepBegins(cfg, StateAt(cfg, g, run, b), run[b], k);
  }

  // Nothing is handed back before it has an answer.
  lemma ReturnStep(cfg: Config, g: Global, run: seq<Action>, k: nat, i: nat) returns (r: nat)
    requires Inv(cfg, g) && Valid(cfg, g, run) && k !in g.log && k in After(cfg, g, run).log
    requires i < |run| && k !in StateAt(cfg, g, run, i).lin
    ensures i <= r < |run| && Returns(run[r], k)
  {
    LoggedIsAnswered(cfg, g, run, k);
    r := FirstLogged(cfg, g, run, k);
    HandedBack(cfg, g, run, k, r);
    AnswerComesFirst(cfg, g, run, k, r, i);
  }

  lemma AnswerComesFirst(cfg: Config, g: Global, run: seq<Action>, k: nat, r: nat, i: nat)
    requires Inv(cfg, g) && Valid(cfg, g, run) && r < |run| && i < |run|
    requires k in StateAt(cfg, g, run, r + 1).lin && k !in StateAt(cfg, g, run, i).lin
    ensures i <= r
  {
    if r < i { StaysAnswered(cfg, g, run, k, r + 1, i); }
  }

  lemma HandedBack(cfg: Config, g: Global, run: seq<Action>, k: nat, r: nat)
    requires Inv(cfg, g) && Valid(cfg, g, run) && r < |run|
    requires k !in StateAt(cfg, g, run, r).log && k in StateAt(cfg, g, run, r + 1).log
    ensures Returns(run[r], k) && k in StateAt(cfg, g, run, r + 1).lin
  {
    var s := StateAt(cfg, g, run, r);
    StateFacts(cfg, g, run, r);
    StateFacts(cfg, g, run, r + 1);
    StepAnswers(cfg, s, run[r], k, StateAt(cfg, g, run, r + 1).log[k]);
  }

  lemma OnlyOnce(cfg: Config, g: Global, run: seq<Action>, k: nat, i: nat, v: Value, j: nat, w: Value)
    requires Inv(cfg, g) && Valid(cfg, g, run) && i < |run| && j < |run|
    requires AnswersAt(cfg, g, run, i, k, v) && AnswersAt(cfg, g, run, j, k, w)
    ensures i == j
  {
    StateFacts(cfg, g, run, i);
    StateFacts(cfg, g, run, j);
    StepAnswers(cfg, StateAt(cfg, g, run, i), run[i], k, v);
    StepAnswers(cfg, StateAt(cfg, g, run, j), run[j], k, w);
    if i < j {
      StaysAnswered(cfg, g, run, k, i + 1, j);
    } else if j < i {
      StaysAnswered(cfg, g, run, k, j + 1, i);
    }
  }

  // ------------------------------------------------- from the call to its effect

  // The event is the one the call asked for, with the result v.
  ghost predicate Matches(call: IoStep, ev: Posix.Event, v: Value)
  {
    match call
    case RBegin(c, fd, count) =>
      ev.ReadEv? && ev.h == Posix.Handle(c, fd) && ev.count == count && v == Data(ev.out)
    case PBegin(c, fd, count, offset) =>
      ev.PreadEv? && ev.h == Posix.Handle(c, fd) && ev.count == count && ev.offset == offset && v == Data(ev.out)
    case SBegin(c, fd, off, whence) =>
      ev.SeekEv? && ev.h == Posix.Handle(c, fd) && ev.off == off && ev.whence == whence && v == Offset(ev.res)
    case _ => false
  }

  // Step i is an event that the simple file system accepts in the state it is in, and the
  // one that was asked for.
  ghost predicate AsAsked(cfg: Config, g: Global, run: seq<Action>, call: IoStep, i: nat, v: Value)
    requires Valid(cfg, g, run) && i < |run|
  {
    var s := StateAt(cfg, g, run, i);
    && Enabled(cfg, s, run[i])
    && Matches(call, EventOf(cfg, s, run[i]), v) && Posix.Accepts(cfg, s.spec, EventOf(cfg, s, run[i]))
  }

  predicate IsCall(a: IoStep) { a.RBegin? || a.PBegin? || a.SBegin? }

  // A stage before the effect holds the arguments of the call.
  predicate Holds(o: Op, call: IoStep)
    requires IsCall(call)
  {
    && o.c == call.c && o.fd == call.fd
    && match call
       case RBegin(_, _, count) => ReadAsked(o.at, count, -1)
       case PBegin(_, _, count, offset) => ReadAsked(o.at, count, offset)
       case SBegin(_, _, off, whence) => o.at.SeekReq? && o.at.soff == off && o.at.whence == whence
       case _ => false
  }

  predicate ReadAsked(st: Stage, count: nat, offset: int)
  {
    (st.ReadWait? || st.ReadReady? || st.ReadLocal? || st.ReadReq?) && st.count == count && st.offset == offset
  }

  lemma BeginHolds(cfg: Config, g: Global, a: IoStep)
    requires IoEnabled(cfg, g, a) && IsCall(a)
    ensures var t := IoApply(cfg, g, a);
            g.next in t.ops && Holds(t.ops[g.next], a)
  {
    IoBegins(cfg, g, a);
  }

  lemma OpenKeepsIo(cfg: Config, g: Global, a: OpenStep, k: nat)
    requires OpenEnabled(cfg, g, a) && Io(g, k) && g.next !in g.ops
    ensures k in OpenApply(cfg, g, a).ops && OpenApply(cfg, g, a).ops[k] == g.ops[k]
  {
    OpenAlone(cfg, g, a);
  }

  lemma CloseKeepsIo(cfg: Config, g: Global, a: CloseStep, k: nat)
    requires CloseEnabled(cfg, g, a) && Io(g, k) && g.next !in g.ops && g.next + 1 !in g.ops
    ensures k in CloseApply(cfg, g, a).ops && CloseApply(cfg, g, a).ops[k] == g.ops[k]
  {
  }

  lemma IoHolds(cfg: Config, g: Global, a: IoStep, k: nat, call: IoStep)
    requires IoEnabled(cfg, g, a) && IsCall(call) && k in g.ops && Holds(g.ops[k], call) && k != g.next
    requires k !in IoApply(cfg, g, a).lin
    ensures k in IoApply(cfg, g, a).ops && Holds(IoApply(cfg, g, a).ops[k], call)
  {
    if IsCall(a) { IoBegins(cfg, g, a); }
  }

  lemma StepHolds(cfg: Config, g: Global, a: Action, k: nat, call: IoStep)
    requires OpsOk(cfg, g) && Enabled(cfg, g, a) && IsCall(call) && k in g.ops && Holds(g.ops[k], call)
    requires k !in Apply(cfg, g, a).lin
    ensures k in Apply(cfg, g, a).ops && Holds(Apply(cfg, g, a).ops[k], call)
  {
    FreshIds(cfg, g);
    HeldIsIo(g, k, call);
    match a
    case OfOpen(o) => OpenKeepsIo(cfg, g, o, k);
    case OfIo(io) => IoHolds(cfg, g, io, k, call);
    case OfClose(x) => CloseKeepsIo(cfg, g, x, k);
  }

  lemma HeldIsIo(g: Global, k: nat, call: IoStep)
    requires IsCall(call) && k in g.ops && Holds(g.ops[k], call)
    ensures Io(g, k)
  {
  }

  lemma NotYetAnswered(cfg: Config, g: Global, run: seq<Action>, k: nat, j: nat, i: nat)
    requires Inv(cfg, g) && Valid(cfg, g, run) && j <= i <= |run| && k !in StateAt(cfg, g, run, i).lin
    ensures k !in StateAt(cfg, g, run, j).lin
  {
    if k in StateAt(cfg, g, run, j).lin { StaysAnswered(cfg, g, run, k, j, i); }
  }

  ghost predicate HeldAt(cfg: Config, g: Global, run: seq<Action>, k: nat, call: IoStep, i: nat)
    requires Valid(cfg, g, run) && i <= |run| && IsCall(call)
  {
    var s := StateAt(cfg, g, run, i);
    k in s.ops && Holds(s.ops[k], call)
  }

  lemma HeldNext(cfg: Config, g: Global, run: seq<Action>, k: nat, call: IoStep, j: nat)
    requires Inv(cfg, g) && Valid(cfg, g, run) && j < |run| && IsCall(call) && HeldAt(cfg, g, run, k, call, j)
    requires k !in StateAt(cfg, g, run, j + 1).lin
    ensures HeldAt(cfg, g, run, k, call, j + 1)
  {
    StateFacts(cfg, g, run, j);
    StepHolds(cfg, StateAt(cfg, g, run, j), run[j], k, call);
  }

  lemma HeldOnce(cfg: Config, g: Global, run: seq<Action>, k: nat, call: IoStep, j: nat, i: nat)
    requires Inv(cfg, g) && Valid(cfg, g, run) && j < i <= |run| && IsCall(call)
    requires HeldAt(cfg, g, run, k, call, j) && k !in StateAt(cfg, g, run, i).lin
    ensures HeldAt(cfg, g, run, k, call, j + 1)
  {
    NotYetAnswered(cfg, g, run, k, j + 1, i);
    HeldNext(cfg, g, run, k, call, j);
  }

  lemma HoldsUntil(cfg: Config, g: Global, run: seq<Action>, k: nat, call: IoStep, j: nat, i: nat)
    requires Inv(cfg, g) && Valid(cfg, g, run) && j <= i <= |run| && IsCall(call)
    requires HeldAt(cfg, g, run, k, call, j) && k !in StateAt(cfg, g, run, i).lin
    ensures HeldAt(cfg, g, run, k, call, i)
    decreases i - j
  {
    if j < i {
      HeldOnce(cfg, g, run, k, call, j, i);
      HoldsUntil(cfg, g, run, k, call, j + 1, i);
    }
  }

  lemma HeldAfterBegin(cfg: Config, g: Global, run: seq<Action>, k: nat, b: nat)
    requires Inv(cfg, g) && Valid(cfg, g, run) && b < |run| && Begins(StateAt(cfg, g, run, b), run[b], k)
    ensures IsCall(run[b].io) && HeldAt(cfg, g, run, k, run[b].io, b + 1)
  {
    StateFacts(cfg, g, run, b);
    BeginHolds(cfg, StateAt(cfg, g, run, b), run[b].io);
  }

  lemma AskedIsAnswered(cfg: Config, g: Global, run: seq<Action>, k: nat, b: nat, i: nat, v: Value)
    requires Inv(cfg, g) && Valid(cfg, g, run) && b < i < |run|
    requires Begins(StateAt(cfg, g, run, b), run[b], k) && AnswersAt(cfg, g, run, i, k, v)
    requires k !in StateAt(cfg, g, run, i).lin
    ensures AsAsked(cfg, g, run, run[b].io, i, v)
  {
    var call := CallAt(cfg, g, run, k, b, i);
    AnsweredWell(cfg, g, run, k, call, i, v);
  }

  lemma CallAt(cfg: Config, g: Global, run: seq<Action>, k: nat, b: nat, i: nat) returns (call: IoStep)
    requires Inv(cfg, g) && Valid(cfg, g, run) && b < i < |run| && k !in StateAt(cfg, g, run, i).lin
    requires Begins(StateAt(cfg, g, run, b), run[b], k)
    ensures run[b].OfIo? && call == run[b].io && IsCall(call) && HeldAt(cfg, g, run, k, call, i)
  {
    call := run[b].io;
    HeldAfterBegin(cfg, g, run, k, b);
    HoldsUntil(cfg, g, run, k, call, b + 1, i);
  }

  lemma AnsweredWell(cfg: Config, g: Global, run: seq<Action>, k: nat, call: IoStep, i: nat, v: Value)
    requires Inv(cfg, g) && Valid(cfg, g, run) && i < |run| && IsCall(call)
    requires HeldAt(cfg, g, run, k, call, i) && AnswersAt(cfg, g, run, i, k, v)
    ensures AsAsked(cfg, g, run, call, i, v)
  {
    StateFacts(cfg, g, run, i);
    StepAccepted(cfg, StateAt(cfg, g, run, i), run[i]);
    HeldIsMatched(cfg, StateAt(cfg, g, run, i), run[i], k, call, v);
  }

  lemma HeldIsMatched(cfg: Config, s: Global, a: Action, k: nat, call: IoStep, v: Value)
    requires Enabled(cfg, s, a) && IsCall(call) && k in s.ops && Holds(s.ops[k], call) && Answers(cfg, s, a, k, v)
    ensures Matches(call, EventOf(cfg, s, a), v)
  {
  }
}
