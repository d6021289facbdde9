// How a thread waits for its own RPC.  Every operation has a sync context on the
// thread's stack and a state block on the heap that points to it; the callback on the
// progress thread reaches the context through the block.  open and seek blocks are freed
// by the waiter, read blocks by the callback after it has signalled.  Addresses of
// released contexts and blocks are handed out again.
module Rendezvous {

  datatype Kind = OpenRpc | ReadRpc | SeekRpc

  // Unsent, on its way, answered, signalled with the callback's tail still to run, done.
  datatype Wire = Unsent | InFlight | Replied(value: int) | Tail | Done | Failed

  datatype Rpc = Rpc(kind: Kind, ctx: nat, block: nat, wire: Wire, waiting: bool)

  datatype Context = Context(done: bool, result: int)

  datatype Machine = Machine(
    ctxs: map<nat, Context>,       // live sync contexts by address
    blocks: map<nat, nat>,         // live state blocks by address, each pointing to a context
    rpcs: map<nat, Rpc>,
    fault: bool,                   // something dead was touched, freed twice or signalled twice
    // history
    answers: map<nat, int>,        // what the server answered
    returned: map<nat, int>,       // what the thread got back
    frees: map<nat, nat>)          // how often the block of an operation was freed

  const Idle := Machine(map[], map[], map[], false, map[], map[], map[])

  datatype Step =
    | Start(k: nat, kind: Kind, ctx: nat, block: nat)
    | SendFails(k: nat)
    | Send(k: nat)
    | Answer(k: nat, value: int)
    | Signal(k: nat)
    | FreeTail(k: nat)
    | Return(k: nat)

  predicate Enabled(m: Machine, s: Step)
  {
    match s
    // malloc and the stack give addresses that are not in use.
    case Start(k, _, ctx, block) => k !in m.rpcs && ctx !in m.ctxs && block !in m.blocks
    // A seek that cannot be sent aborts the process, so only open and read get here.
    case SendFails(k) => k in m.rpcs && m.rpcs[k].wire.Unsent? && !m.rpcs[k].kind.SeekRpc?
    case Send(k) => k in m.rpcs && m.rpcs[k].wire.Unsent?
    case Answer(k, _) => k in m.rpcs && m.rpcs[k].wire.InFlight?
    case Signal(k) => k in m.rpcs && m.rpcs[k].wire.Replied?
    case FreeTail(k) => k in m.rpcs && m.rpcs[k].wire.Tail?
    // The waiting thread looks at its context whenever it is awake.
    case Return(k) =>
      && k in m.rpcs && m.rpcs[k].waiting && !m.rpcs[k].wire.Unsent?
      && (m.rpcs[k].ctx in m.ctxs ==> m.ctxs[m.rpcs[k].ctx].done)
  }

  function Free(m: Machine, k: nat, block: nat): Machine
  {
    m.(blocks := m.blocks - {block}, fault := m.fault || block !in m.blocks,
       frees := m.frees[k := if k in m.frees then m.frees[k] + 1 else 1])
  }

  function Release(m: Machine, ctx: nat): Machine
  {
    m.(ctxs := m.ctxs - {ctx}, fault := m.fault || ctx !in m.ctxs)
  }

  function Apply(m: Machine, s: Step): Machine
    requires Enabled(m, s)
  {
    match s
    case Start(k, kind, ctx, block) =>
      m.(ctxs := m.ctxs[ctx := Context(false, -1)], blocks := m.blocks[block := ctx],
         rpcs := m.rpcs[k := Rpc(kind, ctx, block, Unsent, true)])
    case SendFails(k) =>
      var r := m.rpcs[k];
      Release(Free(m, k, r.block), r.ctx).(
        rpcs := m.rpcs[k := r.(wire := Failed, waiting := false)], returned := m.returned[k := -1])
    case Send(k) => m.(rpcs := m.rpcs[k := m.rpcs[k].(wire := InFlight)])
    case Answer(k, v) =>
      m.(rpcs := m.rpcs[k := m.rpcs[k].(wire := Replied(v))], answers := m.answers[k := v])
    case Signal(k) =>
      // block -> context; done and result are set under the context's mutex
      var r := m.rpcs[k];
      var t := m.(rpcs := m.rpcs[k := r.(wire := if r.kind.ReadRpc? then Tail else Done)]);
      if r.block !in m.blocks || m.blocks[r.block] !in m.ctxs then t.(fault := true)
      else
        var c := m.blocks[r.block];
        t.(ctxs := m.ctxs[c := Context(true, r.wire.value)], fault := m.fault || m.ctxs[c].done)
    case FreeTail(k) =>
      var r := m.rpcs[k];
      Free(m, k, r.block).(rpcs := m.rpcs[k := r.(wire := Done)])
    case Return(k) =>
      var r := m.rpcs[k];
      var t := if r.kind.ReadRpc? then m else Free(m, k, r.block);
      Release(t, r.ctx).(
        rpcs := m.rpcs[k := r.(waiting := false)],
        returned := if r.ctx in m.ctxs then m.returned[k := m.ctxs[r.ctx].result] else m.returned)
  }

  // ---------------------------------------------------------------- invariant

  // Whether the block of r is still allocated.
  predicate Live(r: Rpc)
  {
    if r.kind.ReadRpc? then !r.wire.Done? && !r.wire.Failed? else r.waiting
  }

  predicate RpcOk(m: Machine, k: nat)
    requires k in m.rpcs
  {
    var r := m.rpcs[k];
    && (Live(r) ==> r.block in m.blocks)
    && (r.waiting ==> r.ctx in m.ctxs && !r.wire.Failed?)
    && (r.wire.Unsent? || r.wire.InFlight? || r.wire.Replied? ==>
          r.waiting && !m.ctxs[r.ctx].done && m.blocks[r.block] == r.ctx)
    && (r.wire.Replied? ==> k in m.answers && m.answers[k] == r.wire.value)
    && (r.wire.Unsent? || r.wire.InFlight? || r.wire.Failed? ==> k !in m.answers)
    && (r.wire.Tail? ==> r.kind.ReadRpc?)
    && (r.wire.Tail? || r.wire.Done? ==>
          && k in m.answers
          && (r.waiting ==> m.ctxs[r.ctx] == Context(true, m.answers[k]))
          && (!r.waiting ==> k in m.returned && m.returned[k] == m.answers[k]))
    && (r.wire.Failed? ==> !r.waiting && !r.kind.SeekRpc? && k in m.returned && m.returned[k] == -1)
    && (if k in m.frees then m.frees[k] == 1 && !Live(r) else Live(r))
  }

  predicate Apart(m: Machine, j: nat, k: nat)
    requires j in m.rpcs && k in m.rpcs
  {
    j != k ==>
      && (m.rpcs[j].waiting && m.rpcs[k].waiting ==> m.rpcs[j].ctx != m.rpcs[k].ctx)
      && (Live(m.rpcs[j]) && Live(m.rpcs[k]) ==> m.rpcs[j].block != m.rpcs[k].block)
  }

  // Nothing is allocated that no operation answers for.
  ghost predicate Accounted(m: Machine)
  {
    && (forall a :: a in m.ctxs ==> exists k :: k in m.rpcs && m.rpcs[k].waiting && m.rpcs[k].ctx == a)
    && (forall b :: b in m.blocks ==> exists k :: k in m.rpcs && Live(m.rpcs[k]) && m.rpcs[k].block == b)
    && (forall k :: k in m.frees || k in m.answers ==> k in m.rpcs)
  }

  ghost predicate Inv(m: Machine)
  {
    && !m.fault
    && (forall k :: k in m.rpcs ==> RpcOk(m, k))
    && (forall j, k :: j in m.rpcs && k in m.rpcs ==> Apart(m, j, k))
    && Accounted(m)
  }

  lemma StepFault(m: Machine, s: Step)
    requires Inv(m) && Enabled(m, s)
    ensures !Apply(m, s).fault
  {
    if !s.Start? { assert RpcOk(m, s.k); }
  }

  lemma StepOwn(m: Machine, s: Step)
    requires Inv(m) && Enabled(m, s)
    ensures s.k in Apply(m, s).rpcs && RpcOk(Apply(m, s), s.k)
  {
    if !s.Start? { assert RpcOk(m, s.k); }
  }

  lemma StepOther(m: Machine, s: Step, j: nat)
    requires Enabled(m, s) && j in m.rpcs && j != s.k && RpcOk(m, j)
    requires s.k in m.rpcs ==> RpcOk(m, s.k) && Apart(m, j, s.k)
    ensures j in Apply(m, s).rpcs && RpcOk(Apply(m, s), j)
  {
    StepElsewhere(m, s, m.rpcs[j]);
  }

  // Addresses that operation s.k does not hold keep their contents.
  lemma StepElsewhere(m: Machine, s: Step, r: Rpc)
    requires Enabled(m, s) && (s.k in m.rpcs ==> RpcOk(m, s.k))
    requires s.k in m.rpcs && m.rpcs[s.k].waiting && r.waiting ==> m.rpcs[s.k].ctx != r.ctx
    requires s.k in m.rpcs && Live(m.rpcs[s.k]) && Live(r) ==> m.rpcs[s.k].block != r.block
    ensures var t := Apply(m, s);
            && (r.waiting && r.ctx in m.ctxs ==> r.ctx in t.ctxs && t.ctxs[r.ctx] == m.ctxs[r.ctx])
            && (Live(r) && r.block in m.blocks ==> r.block in t.blocks && t.blocks[r.block] == m.blocks[r.block])
  {
  }

  lemma OnlyShrinks(m: Machine, s: Step, k: nat)
    requires Enabled(m, s) && k in m.rpcs
    ensures var t := Apply(m, s);
            && k in t.rpcs && t.rpcs[k].ctx == m.rpcs[k].ctx && t.rpcs[k].block == m.rpcs[k].block
            && (t.rpcs[k].waiting ==> m.rpcs[k].waiting)
            && (Live(t.rpcs[k]) ==> Live(m.rpcs[k]))
  {
  }

  lemma StepApart(m: Machine, s: Step, i: nat, j: nat)
    requires Inv(m) && Enabled(m, s) && i in Apply(m, s).rpcs && j in Apply(m, s).rpcs
    ensures Apart(Apply(m, s), i, j)
  {
    if i in m.rpcs {
      assert RpcOk(m, i);
      OnlyShrinks(m, s, i);
    }
    if j in m.rpcs {
      assert RpcOk(m, j);
      OnlyShrinks(m, s, j);
    }
    if i in m.rpcs && j in m.rpcs { assert Apart(m, i, j); }
  }

  // Whoever holds an address goes on holding it as long as it is allocated.
  lemma StillHeld(m: Machine, s: Step, k: nat)
    requires Enabled(m, s) && k in m.rpcs && RpcOk(m, k)
    ensures var t := Apply(m, s);
            && k in t.rpcs && t.rpcs[k].ctx == m.rpcs[k].ctx && t.rpcs[k].block == m.rpcs[k].block
            && (m.rpcs[k].waiting && m.rpcs[k].ctx in t.ctxs ==> t.rpcs[k].waiting)
            && (Live(m.rpcs[k]) && m.rpcs[k].block in t.blocks ==> Live(t.rpcs[k]))
  {
  }

  lemma OnlyStartAllocates(m: Machine, s: Step)
    requires Enabled(m, s) && !m.fault && !Apply(m, s).fault
    ensures var t := Apply(m, s);
            && (forall a :: a in t.ctxs ==> a in m.ctxs || (s.Start? && a == s.ctx))
            && (forall b :: b in t.blocks ==> b in m.blocks || (s.Start? && b == s.block))
  {
  }

  lemma StepContexts(m: Machine, s: Step, a: nat)
    requires Inv(m) && Enabled(m, s) && a in Apply(m, s).ctxs
    ensures var t := Apply(m, s); exists k :: k in t.rpcs && t.rpcs[k].waiting && t.rpcs[k].ctx == a
  {
    StepFault(m, s);
    OnlyStartAllocates(m, s);
    if s.Start? && a == s.ctx {
      assert Apply(m, s).rpcs[s.k].ctx == a;
    } else {
      var k :| k in m.rpcs && m.rpcs[k].waiting && m.rpcs[k].ctx == a;
      StillHeld(m, s, k);
    }
  }

  lemma StepBlocks(m: Machine, s: Step, b: nat)
    requires Inv(m) && Enabled(m, s) && b in Apply(m, s).blocks
    ensures var t := Apply(m, s); exists k :: k in t.rpcs && Live(t.rpcs[k]) && t.rpcs[k].block == b
  {
    StepFault(m, s);
    OnlyStartAllocates(m, s);
    if s.Start? && b == s.block {
      assert Apply(m, s).rpcs[s.k].block == b;
    } else {
      var k :| k in m.rpcs && Live(m.rpcs[k]) && m.rpcs[k].block == b;
      StillHeld(m, s, k);
    }
  }

  lemma StepFrees(m: Machine, s: Step)
    requires Enabled(m, s) && forall k :: k in m.frees || k in m.answers ==> k in m.rpcs
    ensures forall k :: k in Apply(m, s).frees || k in Apply(m, s).answers ==> k in Apply(m, s).rpcs
  {
    forall k | k in Apply(m, s).frees || k in Apply(m, s).answers ensures k in Apply(m, s).rpcs {
      if k != s.k { assert k in m.frees || k in m.answers; }
    }
  }

  lemma StepInv(m: Machine, s: Step)
    requires Inv(m) && Enabled(m, s)
    ensures Inv(Apply(m, s))
  {
    StepFault(m, s);
    StepFrees(m, s);
    StepOwn(m, s);
    var t := Apply(m, s);
    forall a | a in t.ctxs ensures exists k :: k in t.rpcs && t.rpcs[k].waiting && t.rpcs[k].ctx == a {
      StepContexts(m, s, a);
    }
    forall b | b in t.blocks ensures exists k :: k in t.rpcs && Live(t.rpcs[k]) && t.rpcs[k].block == b {
      StepBlocks(m, s, b);
    }
    forall j | j in t.rpcs ensures RpcOk(t, j) {
      if j != s.k {
        if s.k in m.rpcs { assert Apart(m, j, s.k); }
        StepOther(m, s, j);
      }
    }
    forall i, j | i in t.rpcs && j in t.rpcs ensures Apart(t, i, j) { StepApart(m, s, i, j); }
  }

  ghost predicate Valid(m: Machine, run: seq<Step>)
    decreases |run|
  {
    run == [] || (Enabled(m, run[0]) && Valid(Apply(m, run[0]), run[1..]))
  }

  ghost function After(m: Machine, run: seq<Step>): Machine
    requires Valid(m, run)
    decreases |run|
  {
    if run == [] then m else After(Apply(m, run[0]), run[1..])
  }

  lemma {:induction false} RunInv(m: Machine, run: seq<Step>)
    requires Inv(m) && Valid(m, run)
    ensures Inv(After(m, run))
    decreases |run|
  {
    if run != [] {
      StepInv(m, run[0]);
      RunInv(Apply(m, run[0]), run[1..]);
    }
  }

  // ------------------------------------------------ what the server answered

  // The values the server answered request k with in the course of a run.
  ghost function Given(run: seq<Step>, k: nat): seq<int>
  {
    if run == [] then []
    else (if run[0].Answer? && run[0].k == k then [run[0].value] else []) + Given(run[1..], k)
  }

  ghost predicate Tied(m: Machine, k: nat, given: seq<int>)
  {
    given == if k in m.answers then [m.answers[k]] else []
  }

  lemma StepTied(m: Machine, s: Step, k: nat, given: seq<int>)
    requires Enabled(m, s) && Tied(m, k, given) && (s.k in m.rpcs ==> RpcOk(m, s.k))
    ensures Tied(Apply(m, s), k, given + Given([s], k))
  {
    assert [s][1..] == [];
    assert Given([s], k) == (if s.Answer? && s.k == k then [s.value] else []) + Given([], k);
  }

  lemma {:induction false} RunTied(m: Machine, run: seq<Step>, k: nat, given: seq<int>)
    requires Inv(m) && Valid(m, run) && Tied(m, k, given)
    ensures Tied(After(m, run), k, given + Given(run, k))
    decreases |run|
  {
    if run == [] {
      assert given + [] == given;
    } else {
      StepInv(m, run[0]);
      StepTied(m, run[0], k, given);
      RunTied(Apply(m, run[0]), run[1..], k, given + Given([run[0]], k));
      assert [run[0]][1..] == [];
      assert given + Given([run[0]], k) + Given(run[1..], k) == given + Given(run, k);
    }
  }

  lemma {:induction false} GivenNothing(run: seq<Step>, k: nat)
    requires Given(run, k) == []
    ensures forall i :: 0 <= i < |run| && run[i].Answer? ==> run[i].k != k
  {
    if run != [] {
      GivenNothing(run[1..], k);
      forall i | 0 <= i < |run| && run[i].Answer? ensures run[i].k != k {
        if i > 0 { assert run[i] == run[1..][i - 1]; }
      }
    }
  }

  lemma {:induction false} GivenOnce(run: seq<Step>, k: nat, v: int) returns (i: nat)
    requires Given(run, k) == [v]
    ensures i < |run| && run[i] == Answer(k, v)
    ensures forall j :: 0 <= j < |run| && run[j].Answer? && run[j].k == k ==> j == i
  {
    var rest := run[1..];
    if run[0].Answer? && run[0].k == k {
      i := 0;
      assert Given(run, k) == [run[0].value] + Given(rest, k);
      assert Given(run, k)[0] == run[0].value && Given(rest, k) == Given(run, k)[1..];
      GivenNothing(rest, k);
      assert forall j :: 1 <= j < |run| ==> run[j] == rest[j - 1];
    } else {
      assert Given(rest, k) == Given(run, k);
      i := GivenOnce(rest, k, v);
      i := i + 1;
      forall j | 0 <= j < |run| && run[j].Answer? && run[j].k == k ensures j == i {
        if j > 0 { assert run[j] == rest[j - 1]; }
      }
    }
  }

  // ... exactly once, and nothing else.
  ghost predicate AnsweredOnce(run: seq<Step>, k: nat, v: int)
  {
    exists i :: 0 <= i < |run| && run[i] == Answer(k, v)
                && forall j :: 0 <= j < |run| && run[j].Answer? && run[j].k == k ==> j == i
  }

  // Over every run, with any number of operations outstanding: nothing dead is ever
  // touched, freed or signalled; a thread that has returned got back exactly the one
  // answer its own request was given in the run, or -1 when the request could not be sent
  // and was never answered; and a finished operation has freed its block exactly once.
  lemma EveryWaiterGetsItsOwnAnswer(run: seq<Step>, k: nat)
    requires Valid(Idle, run) && k in After(Idle, run).rpcs
    ensures var m := After(Idle, run);
            var r := m.rpcs[k];
            && !m.fault
            && (!r.waiting ==> k in m.returned)
            && (!r.waiting && r.wire.Failed? ==>
                  m.returned[k] == -1 && forall i :: 0 <= i < |run| && run[i].Answer? ==> run[i].k != k)
            && (!r.waiting && !r.wire.Failed? ==> AnsweredOnce(run, k, m.returned[k]))
            && (!r.waiting && (r.wire.Done? || r.wire.Failed?) ==> k in m.frees && m.frees[k] == 1)
  {
    RunInv(Idle, run);
    RunTied(Idle, run, k, []);
    var m := After(Idle, run);
    assert RpcOk(m, k);
    assert [] + Given(run, k) == Given(run, k);
    if m.rpcs[k].wire.Failed? {
      GivenNothing(run, k);
    } else if !m.rpcs[k].waiting {
      var i := GivenOnce(run, k, m.returned[k]);
    }
  }

  // Nobody is stuck: an operation that is not over has a step of its own, whatever the
  // others did, and any value can be its answer.
  lemma NobodyIsStuck(m: Machine, k: nat, v: int)
    requires Inv(m) && k in m.rpcs
    ensures var r := m.rpcs[k];
            && (r.wire.Unsent? ==> Enabled(m, Send(k)) && (!r.kind.SeekRpc? ==> Enabled(m, SendFails(k))))
            && (r.wire.InFlight? ==> Enabled(m, Answer(k, v)))
            && (r.wire.Replied? ==> Enabled(m, Signal(k)))
            && (r.wire.Tail? ==> Enabled(m, FreeTail(k)))
            && ((r.wire.Tail? || r.wire.Done?) && r.waiting ==> Enabled(m, Return(k)))
  {
    assert RpcOk(m, k);
  }

  // When every thread has returned and every callback has run, nothing is left allocated.
  lemma NothingLeftBehind(run: seq<Step>)
    requires Valid(Idle, run)
    requires var m := After(Idle, run);
             forall k :: k in m.rpcs ==> !m.rpcs[k].waiting && (m.rpcs[k].wire.Done? || m.rpcs[k].wire.Failed?)
    ensures After(Idle, run).ctxs == map[] && After(Idle, run).blocks == map[]
  {
    RunInv(Idle, run);
  }
}
