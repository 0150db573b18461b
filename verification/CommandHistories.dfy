/**
 The command loop on top of the producer/consumer system.  Each `create` command spawns a worker
 and joins it before the next command is read, so a history of create commands is a sequence of
 spawn-free runs, each starting with one new thread and ending when that thread has finished.
 */
module CommandHistories {
  import opened Wrappers
  import opened ProdConsSteps
  import opened ProdConsSafety
  import opened ProdConsHistory
  import opened ProdConsProgress
  import opened ProdConsInvariant
  import opened Brackets

  function Reverse(q: seq<int>): (r: seq<int>)
    ensures |r| == |q|
  {
    if q == [] then [] else Reverse(q[1..]) + [q[0]]
  }

  lemma {:induction false} ReverseAppend(q: seq<int>, v: int)
    ensures Reverse(q + [v]) == [v] + Reverse(q)
  {
    if q != [] {
      assert (q + [v])[1..] == q[1..] + [v];
      ReverseAppend(q[1..], v);
    }
  }

  /** The create command `role` in state `m`, its join returning after the run `acts`. */
  function Create(n: nat, m: State, role: Role, acts: seq<Action>): Option<State> {
    match Exec(n, Apply(n, m, Spawn(role)), acts)
    case None => None
    case Some(s) =>
      if && (forall k :: 0 <= k < |acts| ==> !acts[k].Spawn?)
         && |m.threads| < |s.threads| && s.threads[|m.threads|].pc.Done?
      then Some(s) else None
  }

  /** The state after the create commands `h`, the k-th of them running through `runs[k]`. */
  function Play(n: nat, h: seq<Role>, runs: seq<seq<Action>>): Option<State>
    requires |h| == |runs|
  {
    if h == [] then Some(START) else
      match Play(n, h[..|h| - 1], runs[..|h| - 1])
      case None => None
      case Some(m) => Create(n, m, h[|h| - 1], runs[|h| - 1])
  }

  // ----- One command: only the new thread moves -----

  /** `s` extends `m` by steps of the one new thread. */
  ghost predicate Alone(m: State, role: Role, s: State) {
    var t := |m.threads|;
    && |s.threads| == t + 1 && s.threads[..t] == m.threads && s.threads[t].role == role
    && m.ops <= s.ops && (forall k :: |m.ops| <= k < |s.ops| ==> s.ops[k].t == t)
    && m.out <= s.out && (forall k :: |m.out| <= k < |s.out| ==> s.out[k].t == t)
  }

  lemma AloneStep(n: nat, m: State, role: Role, s: State, a: Action)
    requires AllDone(m) && Alone(m, role, s) && Enabled(s, a) && !a.Spawn?
    ensures Alone(m, role, Apply(n, s, a))
  {
    var t := |m.threads|;
    assert forall u :: 0 <= u < t ==> s.threads[u] == s.threads[..t][u];
    assert a.t == t;
    if a.Notify? {
      assert WakeAll(s.threads, a.woken)[..t] == s.threads[..t];
    } else if a.Run? {
      RunEmits(n, s, t);
    }
  }

  lemma {:induction false} AloneExec(n: nat, m: State, role: Role, acts: seq<Action>, s: State)
    requires AllDone(m) && NoSpawn(acts)
    requires Exec(n, Apply(n, m, Spawn(role)), acts) == Some(s)
    ensures Alone(m, role, s)
  {
    if acts != [] {
      var k := |acts| - 1;
      var r := Exec(n, Apply(n, m, Spawn(role)), acts[..k]).value;
      AloneExec(n, m, role, acts[..k], r);
      AloneStep(n, m, role, r, acts[k]);
    }
  }

  // ----- Traces that grow -----

  lemma {:induction false} LinesConcat(a: seq<Line>, b: seq<Line>, t: Tid)
    ensures ProducedBy(a + b, t) == ProducedBy(a, t) + ProducedBy(b, t)
    ensures ConsumedBy(a + b, t) == ConsumedBy(a, t) + ConsumedBy(b, t)
  {
    if b == [] {
      assert a + b == a;
    } else {
      var k := |b| - 1;
      assert (a + b)[..|a + b| - 1] == a + b[..k];
      LinesConcat(a, b[..k], t);
    }
  }

  lemma {:induction false} LinesOfOthers(b: seq<Line>, t: Tid, u: Tid)
    requires u != t && forall k :: 0 <= k < |b| ==> b[k].t == t
    ensures ProducedBy(b, u) == ConsumedBy(b, u) == []
  {
    if b != [] {
      LinesOfOthers(b[..|b| - 1], t, u);
    }
  }

  /** Operations of one thread that never pops. */
  lemma {:induction false} ReplayPushes(base: seq<int>, d: seq<Op>, t: Tid)
    requires (forall k :: 0 <= k < |d| ==> d[k].t == t) && PoppedBy(d, t) == []
    ensures Replay(base, d) == Some(Reverse(PushedBy(d, t)) + base)
  {
    if d == [] {
      assert Reverse([]) + base == base;
    } else {
      var k := |d| - 1;
      assert |PoppedBy(d, t)| == |PoppedBy(d[..k], t)| + One(d[k].Pop?);
      ReplayPushes(base, d[..k], t);
      ReverseAppend(PushedBy(d[..k], t), d[k].num);
      var q := Reverse(PushedBy(d[..k], t));
      assert [d[k].num] + (q + base) == ([d[k].num] + q) + base;
      assert PushedBy(d, t) == PushedBy(d[..k], t) + [d[k].num];
    }
  }

  /** Operations of one thread that never pushes. */
  lemma {:induction false} ReplayPops(base: seq<int>, d: seq<Op>, t: Tid)
    requires (forall k :: 0 <= k < |d| ==> d[k].t == t) && PushedBy(d, t) == []
    requires Replay(base, d).Some?
    ensures base == PoppedBy(d, t) + Replay(base, d).value
  {
    if d != [] {
      var k := |d| - 1;
      assert |PushedBy(d, t)| == |PushedBy(d[..k], t)| + One(d[k].Push?);
      ReplayPops(base, d[..k], t);
      var st := Replay(base, d[..k]).value;
      assert st == [d[k].num] + st[1..];
    }
  }

  // ----- The effect of one completed command -----

  /** The operations the new thread adds, replayed on the content it found. */
  lemma NewOps(m: State, role: Role, s: State) returns (d: seq<Op>)
    requires Replay([], m.ops) == Some(Content(m)) && Replay([], s.ops) == Some(Content(s))
    requires Signed(m) && Alone(m, role, s)
    ensures s.ops == m.ops + d && forall k :: 0 <= k < |d| ==> d[k].t == |m.threads|
    ensures Replay(Content(m), d) == Some(Content(s))
    ensures PushedBy(d, |m.threads|) == PushedBy(s.ops, |m.threads|)
    ensures PoppedBy(d, |m.threads|) == PoppedBy(s.ops, |m.threads|)
  {
    d := s.ops[|m.ops|..];
    assert s.ops == m.ops + d;
    OpsConcat([], m.ops, d, |m.threads|);
    Strangers(m, |m.threads|);
  }

  lemma FinishedTrace(n: nat, s: State, t: Tid)
    requires t < |s.threads| && s.threads[t].pc.Done?
    requires InOrder(s, t, s.threads[t]) && ControlOk(n, t, s.threads[t], s.lock)
    ensures ProducedBy(s.out, t) == PushedBy(s.ops, t) && ConsumedBy(s.out, t) == PoppedBy(s.ops, t)
    ensures |PushedBy(s.ops, t)| == (if s.threads[t].role.Producer? then n else 0)
    ensures |PoppedBy(s.ops, t)| == (if s.threads[t].role.Consumer? then n else 0)
  {
  }

  /** A producer that has finished has put its `n` printed items, last one on top, on what it found. */
  lemma ProducerEffect(n: nat, m: State, s: State)
    requires Sound(n, m) && Sound(n, s) && Alone(m, Producer, s)
    requires s.threads[|m.threads|].pc.Done?
    ensures Content(s) == Reverse(ProducedBy(s.out, |m.threads|)) + Content(m)
    ensures |ProducedBy(s.out, |m.threads|)| == n
  {
    FinishedTrace(n, s, |m.threads|);
    var d := NewOps(m, Producer, s);
    ReplayPushes(Content(m), d, |m.threads|);
  }

  /** A consumer that has finished has printed the top `n` items of what it found, in order. */
  lemma ConsumerEffect(n: nat, m: State, s: State)
    requires Sound(n, m) && Sound(n, s) && Alone(m, Consumer, s)
    requires s.threads[|m.threads|].pc.Done?
    ensures Content(m) == ConsumedBy(s.out, |m.threads|) + Content(s)
    ensures |ConsumedBy(s.out, |m.threads|)| == n
  {
    FinishedTrace(n, s, |m.threads|);
    var d := NewOps(m, Consumer, s);
    ReplayPops(Content(m), d, |m.threads|);
  }

  lemma OthersKeepTheirLines(m: State, role: Role, s: State, u: Tid)
    requires Alone(m, role, s) && u < |m.threads|
    ensures ProducedBy(s.out, u) == ProducedBy(m.out, u)
    ensures ConsumedBy(s.out, u) == ConsumedBy(m.out, u)
  {
    var b := s.out[|m.out|..];
    assert s.out == m.out + b;
    LinesConcat(m.out, b, u);
    LinesOfOthers(b, |m.threads|, u);
  }

  /** Between commands every thread has finished, and there is one thread per create command. */
  ghost predicate Quiet(h: seq<Role>, s: State) {
    AllDone(s) && |s.threads| == |h| && forall j :: 0 <= j < |h| ==> s.threads[j].role == h[j]
  }

  lemma CreateQuiet(n: nat, h: seq<Role>, m: State, role: Role, acts: seq<Action>, s: State)
    requires Quiet(h, m) && Create(n, m, role, acts) == Some(s)
    ensures Quiet(h + [role], s) && Alone(m, role, s)
  {
    AloneExec(n, m, role, acts, s);
    forall u | 0 <= u < |h|
      ensures s.threads[u] == m.threads[u]
    {
      assert s.threads[u] == s.threads[..|h|][u];
    }
  }

  lemma {:induction false} PlayQuiet(n: nat, h: seq<Role>, runs: seq<seq<Action>>, s: State)
    requires |h| == |runs| && Play(n, h, runs) == Some(s)
    ensures Quiet(h, s)
  {
    if h != [] {
      var k := |h| - 1;
      var m := Play(n, h[..k], runs[..k]).value;
      PlayQuiet(n, h[..k], runs[..k], m);
      CreateQuiet(n, h[..k], m, h[k], runs[k], s);
      assert h[..k] + [h[k]] == h;
    }
  }

  lemma CreateSound(n: nat, m: State, role: Role, acts: seq<Action>, s: State)
    requires Sound(n, m) && Create(n, m, role, acts) == Some(s)
    ensures Sound(n, s)
  {
    SoundStep(n, m, Spawn(role));
    SoundExec(n, Apply(n, m, Spawn(role)), acts, s);
  }

  lemma {:induction false} PlaySound(n: nat, h: seq<Role>, runs: seq<seq<Action>>, s: State)
    requires |h| == |runs| && Play(n, h, runs) == Some(s)
    ensures Sound(n, s)
  {
    if h == [] {
      StartSound(n);
    } else {
      var k := |h| - 1;
      var m := Play(n, h[..k], runs[..k]).value;
      PlaySound(n, h[..k], runs[..k], m);
      CreateSound(n, m, h[k], runs[k], s);
    }
  }

  // ----- The matching theorem -----

  /** What the open producers have left on the stack. */
  function Blocks(open: seq<nat>, out: seq<Line>): seq<int> {
    if open == [] then [] else Reverse(ProducedBy(out, open[0])) + Blocks(open[1..], out)
  }

  lemma {:induction false} BlocksSame(open: seq<nat>, out: seq<Line>, out': seq<Line>)
    requires forall p :: 0 <= p < |open| ==> ProducedBy(out', open[p]) == ProducedBy(out, open[p])
    ensures Blocks(open, out') == Blocks(open, out)
  {
    if open != [] {
      BlocksSame(open[1..], out, out');
    }
  }

  /** The history `h` has run to state `s`: the stack is exactly the blocks of its open producers. */
  ghost predicate Stacks(n: nat, h: seq<Role>, s: State) {
    && Content(s) == Blocks(Open(h), s.out)
    && forall p :: 0 <= p < |Open(h)| ==> |ProducedBy(s.out, Open(h)[p])| == n
  }

  lemma OpenKeepLines(h: seq<Role>, m: State, role: Role, s: State)
    requires |m.threads| == |h| && Alone(m, role, s)
    ensures forall p :: 0 <= p < |Open(h)| ==> ProducedBy(s.out, Open(h)[p]) == ProducedBy(m.out, Open(h)[p])
    ensures Blocks(Open(h), s.out) == Blocks(Open(h), m.out)
  {
    forall p | 0 <= p < |Open(h)|
      ensures ProducedBy(s.out, Open(h)[p]) == ProducedBy(m.out, Open(h)[p])
    {
      OpenIsOpen(h, p);
      OthersKeepTheirLines(m, role, s, Open(h)[p]);
    }
    BlocksSame(Open(h), m.out, s.out);
  }

  lemma StacksProducer(n: nat, g: seq<Role>, m: State, s: State)
    requires |m.threads| == |g| && Alone(m, Producer, s) && Stacks(n, g, m)
    requires Content(s) == Reverse(ProducedBy(s.out, |g|)) + Content(m) && |ProducedBy(s.out, |g|)| == n
    ensures Stacks(n, g + [Producer], s)
  {
    OpenKeepLines(g, m, Producer, s);
    assert (g + [Producer])[..|g|] == g;
    var o := Open(g + [Producer]);
    assert o == [|g|] + Open(g) && o[1..] == Open(g);
  }

  lemma StacksConsumer(n: nat, g: seq<Role>, m: State, s: State)
    requires n > 0 && |m.threads| == |g| && Alone(m, Consumer, s) && Stacks(n, g, m)
    requires Content(m) == ConsumedBy(s.out, |g|) + Content(s) && |ConsumedBy(s.out, |g|)| == n
    ensures Stacks(n, g + [Consumer], s)
    ensures Open(g) != [] && ConsumedBy(s.out, |g|) == Reverse(ProducedBy(s.out, Open(g)[0]))
    ensures |ProducedBy(s.out, Open(g)[0])| == n
  {
    OpenKeepLines(g, m, Consumer, s);
    assert (g + [Consumer])[..|g|] == g;
    var o := Open(g);
    var b := Reverse(ProducedBy(s.out, o[0]));
    assert Content(m) == b + Blocks(o[1..], s.out);
    assert Content(m)[..n] == ConsumedBy(s.out, |g|) == b;
    assert Content(m)[n..] == Content(s) == Blocks(o[1..], s.out);
  }

  /** Creating one more worker from `m`, where the workers of `g` have run. */
  lemma StacksStep(n: nat, g: seq<Role>, m: State, role: Role, s: State)
    requires n > 0 && |m.threads| == |g|
    requires Sound(n, m) && Sound(n, s) && Alone(m, role, s) && s.threads[|g|].pc.Done?
    requires Stacks(n, g, m)
    ensures Stacks(n, g + [role], s)
    ensures role.Consumer? ==> Closes(n, g, s)
  {
    if role.Producer? {
      ProducerEffect(n, m, s);
      StacksProducer(n, g, m, s);
    } else {
      ConsumerEffect(n, m, s);
      StacksConsumer(n, g, m, s);
    }
  }

  /** The consumer created after `g` has printed the block of the last open producer. */
  ghost predicate Closes(n: nat, g: seq<Role>, s: State) {
    && Open(g) != []
    && ConsumedBy(s.out, |g|) == Reverse(ProducedBy(s.out, Open(g)[0]))
    && |ProducedBy(s.out, Open(g)[0])| == n
  }

  /**
   The matching theorem.  After any history of create commands that has run to completion, each
   consumer has printed exactly the `n` items of the producer it closes, last produced first.
   */
  lemma {:induction false} Matching(n: nat, h: seq<Role>, runs: seq<seq<Action>>, s: State, j: nat)
    requires n > 0 && |h| == |runs| && Play(n, h, runs) == Some(s)
    requires j < |h| && h[j].Consumer?
    ensures exists i :: Matches(h, i, j)
    ensures forall i :: Matches(h, i, j) ==>
              ConsumedBy(s.out, j) == Reverse(ProducedBy(s.out, i)) && |ProducedBy(s.out, i)| == n
  {
    var k := |h| - 1;
    var m := Play(n, h[..k], runs[..k]).value;
    if j < k {
      Matching(n, h[..k], runs[..k], m, j);
      var i :| Matches(h[..k], i, j);
      MatchesExtend(h, i, j);
      MatchIsThis(h, i, j);
      PlayQuiet(n, h[..k], runs[..k], m);
      CreateQuiet(n, h[..k], m, h[k], runs[k], s);
      OthersKeepTheirLines(m, h[k], s, i);
      OthersKeepTheirLines(m, h[k], s, j);
    } else {
      MatchingLast(n, h, runs, m, s, j);
    }
  }

  lemma MatchingLast(n: nat, h: seq<Role>, runs: seq<seq<Action>>, m: State, s: State, j: nat)
    requires n > 0 && |h| == |runs| == j + 1 && Play(n, h, runs) == Some(s)
    requires Play(n, h[..j], runs[..j]) == Some(m) && h[j].Consumer?
    ensures exists i :: Matches(h, i, j)
    ensures forall i :: Matches(h, i, j) ==>
              ConsumedBy(s.out, j) == Reverse(ProducedBy(s.out, i)) && |ProducedBy(s.out, i)| == n
  {
    LastStacks(n, h[..j], runs[..j], m, h[j], runs[j], s);
    var i := Open(h[..j])[0];
    OpenIsOpen(h[..j], 0);
    OpenMatches(h, i);
    MatchIsThis(h, i, j);
  }

  lemma CreateStacks(n: nat, g: seq<Role>, runs: seq<seq<Action>>, m: State, role: Role, acts: seq<Action>, s: State)
    requires n > 0 && |g| == |runs| && Play(n, g, runs) == Some(m) && Stacks(n, g, m)
    requires Create(n, m, role, acts) == Some(s)
    ensures Stacks(n, g + [role], s)
    ensures role.Consumer? ==> Closes(n, g, s)
  {
    PlayQuiet(n, g, runs, m);
    PlaySound(n, g, runs, m);
    CreateQuiet(n, g, m, role, acts, s);
    CreateSound(n, m, role, acts, s);
    StacksStep(n, g, m, role, s);
  }

  lemma {:induction false} PlayStacks(n: nat, h: seq<Role>, runs: seq<seq<Action>>, s: State)
    requires n > 0 && |h| == |runs| && Play(n, h, runs) == Some(s)
    ensures Stacks(n, h, s)
    decreases |h|, 0
  {
    if h != [] {
      var k := |h| - 1;
      var g, m := h[..k], Play(n, h[..k], runs[..k]).value;
      assert h == g + [h[k]];
      LastStacks(n, g, runs[..k], m, h[k], runs[k], s);
    }
  }

  lemma {:induction false} LastStacks(
      n: nat, g: seq<Role>, runs: seq<seq<Action>>, m: State, role: Role, acts: seq<Action>, s: State)
    requires n > 0 && |g| == |runs| && Play(n, g, runs) == Some(m) && Create(n, m, role, acts) == Some(s)
    ensures Stacks(n, g + [role], s)
    ensures role.Consumer? ==> Closes(n, g, s)
    decreases |g|, 1
  {
    PlayStacks(n, g, runs, m);
    CreateStacks(n, g, runs, m, role, acts, s);
  }

  // ----- Which histories run to completion -----

  lemma {:induction false} DepthIsSurplus(n: nat, h: seq<Role>, ths: seq<Thread>)
    requires |ths| == |h| && forall j :: 0 <= j < |h| ==> ths[j].role == h[j]
    ensures Depth(h, 0, |h|) == Sum(Producers, n, ths) - Sum(Consumers, n, ths)
  {
    if h != [] {
      var k := |h| - 1;
      DepthIsSurplus(n, h[..k], ths[..k]);
      DepthPrefix(h[..k], h, 0, k);
      assert ths == ths[..k] + [ths[k]];
      SumAppend(Producers, n, ths[..k], ths[k]);
      SumAppend(Consumers, n, ths[..k], ths[k]);
    }
  }

  lemma {:induction false} BlocksLength(n: nat, open: seq<nat>, out: seq<Line>)
    requires forall p :: 0 <= p < |open| ==> |ProducedBy(out, open[p])| == n
    ensures |Blocks(open, out)| == n * |open|
  {
    if open != [] {
      BlocksLength(n, open[1..], out);
      assert n * (1 + |open[1..]|) == n + n * |open[1..]|;
    }
  }

  /** Between commands the stack holds `n` items per producer more than consumers. */
  lemma {:induction false} StackLength(n: nat, h: seq<Role>, runs: seq<seq<Action>>, s: State)
    requires n > 0 && |h| == |runs| && Play(n, h, runs) == Some(s)
    ensures |s.chain| == n * |Open(h)| && |Open(h)| == Depth(h, 0, |h|) && PrefixBalanced(h)
  {
    PlayStacks(n, h, runs, s);
    BlocksLength(n, Open(h), s.out);
    OpenCounts(n, h, runs, s);
  }

  lemma {:induction false} OpenCounts(n: nat, h: seq<Role>, runs: seq<seq<Action>>, s: State)
    requires n > 0 && |h| == |runs| && Play(n, h, runs) == Some(s)
    ensures |Open(h)| == Depth(h, 0, |h|) && PrefixBalanced(h)
  {
    if h != [] {
      var k := |h| - 1;
      var m := Play(n, h[..k], runs[..k]).value;
      OpenCounts(n, h[..k], runs[..k], m);
      if h[k].Consumer? { LastStacks(n, h[..k], runs[..k], m, h[k], runs[k], s); }
      forall x | 0 <= x <= k
        ensures Depth(h, 0, x) == Depth(h[..k], 0, x)
      {
        DepthPrefix(h[..k], h, 0, x);
      }
    }
  }

  lemma JoinSound(n: nat, h: seq<Role>, runs: seq<seq<Action>>, m: State, role: Role, acts: seq<Action>, s: State)
    requires |h| == |runs| && Play(n, h, runs) == Some(m)
    requires Exec(n, Apply(n, m, Spawn(role)), acts) == Some(s)
    ensures Sound(n, s)
  {
    PlaySound(n, h, runs, m);
    SoundStep(n, m, Spawn(role));
    SoundExec(n, Apply(n, m, Spawn(role)), acts, s);
  }

  /**
   The join of a consumer that closes nothing: whatever the schedule, spurious wake-ups included,
   the consumer takes nothing, prints nothing and never finishes, so the command loop waits for ever.
   */
  lemma JoinNeverReturns(
      n: nat, h: seq<Role>, runs: seq<seq<Action>>, m: State, acts: seq<Action>, s: State)
    requires n > 0 && |h| == |runs| && Play(n, h, runs) == Some(m) && Depth(h, 0, |h|) == 0
    requires Exec(n, Apply(n, m, Spawn(Consumer)), acts) == Some(s) && NoSpawn(acts)
    ensures |s.threads| == |h| + 1 && !s.threads[|h|].pc.Done?
    ensures Content(m) == Content(s) == [] && ConsumedBy(s.out, |h|) == []
  {
    PlayQuiet(n, h, runs, m);
    AloneExec(n, m, Consumer, acts, s);
    StackLength(n, h, runs, m);
    PlaySound(n, h, runs, m);
    JoinSound(n, h, runs, m, Consumer, acts, s);
    StarvedConsumer(n, m, s);
  }

  /** A consumer that finds the list empty takes nothing and prints nothing. */
  lemma StarvedConsumer(n: nat, m: State, s: State)
    requires n > 0 && Sound(n, m) && Sound(n, s) && Alone(m, Consumer, s) && Content(m) == []
    ensures !s.threads[|m.threads|].pc.Done?
    ensures Content(s) == [] && ConsumedBy(s.out, |m.threads|) == []
  {
    var t := |m.threads|;
    assert InOrder(s, t, s.threads[t]) && ControlOk(n, t, s.threads[t], s.lock);
    ConsumerTrace(n, s, t);
    var d := NewOps(m, Consumer, s);
    ReplayPops([], d, t);
  }

  lemma ConsumerTrace(n: nat, s: State, t: Tid)
    requires t < |s.threads| && s.threads[t].role.Consumer?
    requires InOrder(s, t, s.threads[t]) && ControlOk(n, t, s.threads[t], s.lock)
    ensures PushedBy(s.ops, t) == [] && ConsumedBy(s.out, t) <= PoppedBy(s.ops, t)
    ensures s.threads[t].pc.Done? ==> |PoppedBy(s.ops, t)| == n
  {
  }

  /**
   In every other case a run of the join that cannot go on, but for spurious wake-ups, has finished
   the worker; and by `JoinIsBounded` every run comes to that point, so the join returns.
   */
  lemma JoinReturns(n: nat, h: seq<Role>, runs: seq<seq<Action>>, m: State, role: Role, acts: seq<Action>, s: State)
    requires n > 0 && |h| == |runs| && Play(n, h, runs) == Some(m) && (role.Producer? || Depth(h, 0, |h|) > 0)
    requires Exec(n, Apply(n, m, Spawn(role)), acts) == Some(s) && NoSpawn(acts) && Stuck(s)
    ensures |s.threads| == |h| + 1 && s.threads[|h|].pc.Done?
  {
    JoinShape(n, h, runs, m, role, acts, s);
    JoinStuck(n, h, m, role, s);
  }

  lemma JoinIsBounded(n: nat, h: seq<Role>, runs: seq<seq<Action>>, m: State, role: Role, acts: seq<Action>, s: State)
    requires |h| == |runs| && Play(n, h, runs) == Some(m)
    requires Exec(n, Apply(n, m, Spawn(role)), acts) == Some(s) && NoSpawn(acts)
    ensures |acts| <= Measure(n, Apply(n, m, Spawn(role))) + 4 * SpuriousIn(acts)
  {
    PlaySound(n, h, runs, m);
    LiveStep(n, m, Spawn(role));
    RunsAreBounded(n, Apply(n, m, Spawn(role)), acts, s);
  }

  lemma JoinShape(n: nat, h: seq<Role>, runs: seq<seq<Action>>, m: State, role: Role, acts: seq<Action>, s: State)
    requires n > 0 && |h| == |runs| && Play(n, h, runs) == Some(m)
    requires Exec(n, Apply(n, m, Spawn(role)), acts) == Some(s) && NoSpawn(acts)
    ensures Quiet(h, m) && Alone(m, role, s) && Live(n, s) && Depth(h, 0, |h|) >= 0
  {
    PlayQuiet(n, h, runs, m);
    AloneExec(n, m, role, acts, s);
    JoinSound(n, h, runs, m, role, acts, s);
    NeverNegative(n, h, runs, m);
  }

  lemma NeverNegative(n: nat, h: seq<Role>, runs: seq<seq<Action>>, m: State)
    requires n > 0 && |h| == |runs| && Play(n, h, runs) == Some(m)
    ensures Depth(h, 0, |h|) >= 0
  {
    StackLength(n, h, runs, m);
  }

  lemma JoinStuck(n: nat, h: seq<Role>, m: State, role: Role, s: State)
    requires n > 0 && Live(n, s) && Stuck(s) && Quiet(h, m) && Alone(m, role, s)
    requires Depth(h, 0, |h|) + (if role.Producer? then 1 else -1) >= 0
    ensures s.threads[|h|].pc.Done?
  {
    SurplusAlone(n, h, m, role, s);
    EnoughProducers(n, s);
  }

  lemma EnoughProducers(n: nat, s: State)
    requires Live(n, s) && Stuck(s) && Sum(Producers, n, s.threads) >= Sum(Consumers, n, s.threads)
    ensures AllDone(s)
  {
    StuckOutcome(n, s);
  }

  lemma SurplusAlone(n: nat, h: seq<Role>, m: State, role: Role, s: State)
    requires Quiet(h, m) && Alone(m, role, s)
    ensures Sum(Producers, n, s.threads) - Sum(Consumers, n, s.threads)
         == Depth(h, 0, |h|) + if role.Producer? then 1 else -1
  {
    SurplusWith(n, h, m.threads, s.threads[|h|]);
    assert s.threads == m.threads + [s.threads[|h|]];
  }

  lemma SurplusWith(n: nat, h: seq<Role>, ths: seq<Thread>, th: Thread)
    requires |ths| == |h| && forall j :: 0 <= j < |h| ==> ths[j].role == h[j]
    ensures var all := ths + [th];
      Sum(Producers, n, all) - Sum(Consumers, n, all) == Depth(h, 0, |h|) + if th.role.Producer? then 1 else -1
  {
    DepthIsSurplus(n, h, ths);
    SumAppend(Producers, n, ths, th);
    SumAppend(Consumers, n, ths, th);
  }

  /** A history can be run to completion exactly when every prefix has at least as many producers as consumers. */
  lemma {:induction false} Completion(n: nat, h: seq<Role>)
    requires n > 0
    ensures PrefixBalanced(h) <==> exists runs: seq<seq<Action>> :: |runs| == |h| && Play(n, h, runs).Some?
  {
    if runs: seq<seq<Action>> :| |runs| == |h| && Play(n, h, runs).Some? {
      StackLength(n, h, runs, Play(n, h, runs).value);
    }
    if PrefixBalanced(h) {
      var runs := SomePlay(n, h);
    }
  }

  lemma {:induction false} SomePlay(n: nat, h: seq<Role>) returns (runs: seq<seq<Action>>)
    requires n > 0 && PrefixBalanced(h)
    ensures |runs| == |h| && Play(n, h, runs).Some?
  {
    if h == [] {
      runs := [];
    } else {
      var k := |h| - 1;
      var g := h[..k];
      forall x | 0 <= x <= k
        ensures Depth(h, 0, x) == Depth(g, 0, x)
      {
        DepthPrefix(g, h, 0, x);
      }
      assert Depth(h, 0, |h|) >= 0;
      var before := SomePlay(n, g);
      var m := Play(n, g, before).value;
      var acts, s := SomeJoin(n, g, before, m, h[k]);
      runs := before + [acts];
      assert runs[..k] == before;
    }
  }

  lemma SomeJoin(n: nat, h: seq<Role>, runs: seq<seq<Action>>, m: State, role: Role)
    returns (acts: seq<Action>, s: State)
    requires n > 0 && |h| == |runs| && Play(n, h, runs) == Some(m)
    requires role.Producer? || Depth(h, 0, |h|) > 0
    ensures Create(n, m, role, acts) == Some(s)
  {
    PlayQuiet(n, h, runs, m);
    PlaySound(n, h, runs, m);
    SoundStep(n, m, Spawn(role));
    acts, s := Finish(n, Apply(n, m, Spawn(role)));
    JoinReturns(n, h, runs, m, role, acts, s);
  }
}
