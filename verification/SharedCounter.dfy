/**
 Two threads on one counter: the first adds one `n` times, the second subtracts one `n` times, each
 holding the mutex for its whole loop.  The increment is split into a load and a store, and the
 value is read once more to be printed.
 */
module SharedCounter {
  import opened Positions
  import opened Wrappers

  type Tid = t: nat | t < 2

  datatype Pc = Enter | Lock | Load | Store | Print | Unlock | Done

  datatype Thread = Thread(pc: Pc, i: nat, tmp: int)

  datatype Line = Entered(t: Tid) | Value(t: Tid, v: int)

  datatype State = State(gVar: int, owner: Option<Tid>, th: seq<Thread>, out: seq<Line>)

  const START := State(0, None, [Thread(Enter, 0, 0), Thread(Enter, 0, 0)], [])

  /** The first thread counts up, the second down. */
  function Signed(t: Tid, k: int): int {
    if t == 0 then k else -k
  }

  function Loop(n: nat, i: nat): Pc {
    if i < n then Load else Unlock
  }

  predicate Enabled(s: State, t: Tid) {
    t < |s.th| && !s.th[t].pc.Done? && (s.th[t].pc.Lock? ==> s.owner.None?)
  }

  function Set(s: State, t: Tid, th: Thread): State
    requires t < |s.th|
  {
    s.(th := s.th[t := th])
  }

  /** One statement of thread `t`; a thread that cannot move is not scheduled. */
  function Step(n: nat, s: State, t: Tid): State
    requires Enabled(s, t)
  {
    var x := s.th[t];
    match x.pc
    case Enter => Set(s, t, x.(pc := Lock)).(out := s.out + [Entered(t)])
    case Lock => Set(s, t, x.(pc := Loop(n, 0))).(owner := Some(t))
    case Load => Set(s, t, x.(pc := Store, tmp := s.gVar))
    case Store => Set(s, t, x.(pc := Print)).(gVar := x.tmp + Signed(t, 1))
    case Print => Set(s, t, x.(pc := Loop(n, x.i + 1), i := x.i + 1)).(out := s.out + [Value(t, s.gVar)])
    case Unlock => Set(s, t, x.(pc := Done)).(owner := None)
  }

  function Exec(n: nat, schedule: seq<Tid>): Option<State> {
    if schedule == [] then Some(START) else
      match Exec(n, schedule[..|schedule| - 1])
      case None => None
      case Some(s) => if Enabled(s, schedule[|schedule| - 1]) then Some(Step(n, s, schedule[|schedule| - 1])) else None
  }

  /** The `th1:` and `th2:` lines, without the `enter` lines. */
  function Values(out: seq<Line>): seq<Line> {
    if out == [] then [] else
      Values(out[..|out| - 1]) + if out[|out| - 1].Value? then [out[|out| - 1]] else []
  }

  /** What thread `t` prints in its first `k` iterations when it finds the counter at `base`. */
  function Ramp(base: int, t: Tid, k: nat): (r: seq<Line>)
    ensures |r| == k && forall j :: 0 <= j < k ==> r[j] == Value(t, base + Signed(t, j + 1))
  {
    if k == 0 then [] else Ramp(base, t, k - 1) + [Value(t, base + Signed(t, k))]
  }

  predicate Started(x: Thread) {
    !x.pc.Enter? && !x.pc.Lock?
  }

  predicate Critical(x: Thread) {
    Started(x) && !x.pc.Done?
  }

  /** How often the thread has stored. */
  function Stored(x: Thread): nat {
    if x.pc.Print? then x.i + 1 else x.i
  }

  predicate ThreadOk(n: nat, s: State, t: Tid)
    requires t < |s.th|
  {
    var x := s.th[t];
    && x.i <= n
    && (!Started(x) ==> x.i == 0)
    && (x.pc.Load? || x.pc.Store? || x.pc.Print? ==> x.i < n)
    && (x.pc.Unlock? || x.pc.Done? ==> x.i == n)
    && (x.pc.Store? ==> x.tmp == s.gVar)
    && (Critical(x) <==> s.owner == Some(t))
  }

  predicate Counted(s: State, a: Tid, b: Tid)
    requires |s.th| == 2
  {
    s.gVar == Signed(a, Stored(s.th[a])) + Signed(b, Stored(s.th[b]))
  }

  /** The values printed when thread `a` has gone first and `b` has not overtaken it. */
  predicate Serial(n: nat, s: State, a: Tid, b: Tid)
    requires |s.th| == 2
  {
    && Counted(s, a, b)
    && (Started(s.th[b]) ==> s.th[a].pc.Done?)
    && Values(s.out) == Ramp(0, a, s.th[a].i) + Ramp(Signed(a, n), b, s.th[b].i)
  }

  predicate Inv(n: nat, s: State) {
    && |s.th| == 2
    && ThreadOk(n, s, 0) && ThreadOk(n, s, 1)
    && (Serial(n, s, 0, 1) || Serial(n, s, 1, 0))
  }

  lemma AppendLine(out: seq<Line>, l: Line)
    ensures Values(out + [l]) == Values(out) + if l.Value? then [l] else []
  {
    assert (out + [l])[..|out|] == out;
  }

  lemma ThreadStep(n: nat, s: State, t: Tid, u: Tid)
    requires |s.th| == 2 && ThreadOk(n, s, 0) && ThreadOk(n, s, 1) && Enabled(s, t)
    ensures ThreadOk(n, Step(n, s, t), u)
  {
  }

  lemma ValuesStep(n: nat, s: State, t: Tid)
    requires Enabled(s, t)
    ensures Values(Step(n, s, t).out) == Values(s.out) + if s.th[t].pc.Print? then [Value(t, s.gVar)] else []
  {
    AppendLine(s.out, Entered(t));
    AppendLine(s.out, Value(t, s.gVar));
  }

  lemma CountedStep(n: nat, s: State, a: Tid, b: Tid, t: Tid)
    requires a != b && |s.th| == 2 && ThreadOk(n, s, t) && Counted(s, a, b) && Enabled(s, t)
    ensures Counted(Step(n, s, t), a, b)
  {
  }

  lemma RampNext(base: int, t: Tid, k: nat, v: int)
    requires v == base + Signed(t, k + 1)
    ensures Ramp(base, t, k + 1) == Ramp(base, t, k) + [Value(t, v)]
  {
  }

  lemma PrintedFirst(n: nat, s: State, a: Tid, b: Tid)
    requires a != b && |s.th| == 2 && ThreadOk(n, s, b) && Enabled(s, a)
    requires Serial(n, s, a, b)
    ensures var s' := Step(n, s, a);
      Values(s'.out) == Ramp(0, a, s'.th[a].i) + Ramp(Signed(a, n), b, s'.th[b].i)
  {
    ValuesStep(n, s, a);
    if s.th[a].pc.Print? {
      FirstValue(n, s, a, b);
    } else {
      assert Values(s.out) + [] == Values(s.out);
    }
  }

  lemma FirstValue(n: nat, s: State, a: Tid, b: Tid)
    requires a != b && |s.th| == 2 && ThreadOk(n, s, b) && Serial(n, s, a, b) && s.th[a].pc.Print?
    ensures s.th[b].i == 0
    ensures Values(s.out) + [Value(a, s.gVar)] == Ramp(0, a, s.th[a].i + 1) + Ramp(Signed(a, n), b, 0)
  {
    RampNext(0, a, s.th[a].i, s.gVar);
  }

  lemma PrintedSecond(n: nat, s: State, a: Tid, b: Tid)
    requires a != b && |s.th| == 2 && ThreadOk(n, s, a) && Enabled(s, b)
    requires Serial(n, s, a, b)
    ensures var s' := Step(n, s, b);
      Values(s'.out) == Ramp(0, a, s'.th[a].i) + Ramp(Signed(a, n), b, s'.th[b].i)
  {
    ValuesStep(n, s, b);
    if s.th[b].pc.Print? {
      SecondValue(n, s, a, b);
    } else {
      assert Values(s.out) + [] == Values(s.out);
    }
  }

  lemma SecondValue(n: nat, s: State, a: Tid, b: Tid)
    requires a != b && |s.th| == 2 && ThreadOk(n, s, a) && Serial(n, s, a, b) && s.th[b].pc.Print?
    ensures Values(s.out) + [Value(b, s.gVar)] ==
            Ramp(0, a, s.th[a].i) + Ramp(Signed(a, n), b, s.th[b].i + 1)
  {
    RampNext(Signed(a, n), b, s.th[b].i, s.gVar);
  }

  lemma SerialStep(n: nat, s: State, a: Tid, b: Tid, t: Tid)
    requires a != b && |s.th| == 2 && ThreadOk(n, s, a) && ThreadOk(n, s, b)
    requires Serial(n, s, a, b) && Enabled(s, t)
    requires t == b && s.th[b].pc.Lock? ==> s.th[a].pc.Done?
    ensures Serial(n, Step(n, s, t), a, b)
  {
    CountedStep(n, s, a, b, t);
    if t == a { PrintedFirst(n, s, a, b); } else { PrintedSecond(n, s, a, b); }
  }

  lemma SerialEither(n: nat, s: State, a: Tid, b: Tid, t: Tid)
    requires a != b && |s.th| == 2 && ThreadOk(n, s, a) && ThreadOk(n, s, b)
    requires Serial(n, s, a, b) && Enabled(s, t)
    ensures |Step(n, s, t).th| == 2 && (Serial(n, Step(n, s, t), a, b) || Serial(n, Step(n, s, t), b, a))
  {
    if t == b && s.th[b].pc.Lock? && !s.th[a].pc.Done? {
      NobodyFirst(n, s, a, b);
      SerialStep(n, s, b, a, t);
    } else {
      SerialStep(n, s, a, b, t);
    }
  }

  /** While neither thread has locked the mutex, either may still be the first. */
  lemma NobodyFirst(n: nat, s: State, a: Tid, b: Tid)
    requires a != b && |s.th| == 2 && ThreadOk(n, s, a) && ThreadOk(n, s, b)
    requires Serial(n, s, a, b) && s.th[b].pc.Lock? && s.owner.None? && !s.th[a].pc.Done?
    ensures Serial(n, s, b, a)
  {
    assert !Started(s.th[a]) && !Started(s.th[b]);
  }

  lemma InvStep(n: nat, s: State, t: Tid)
    requires Inv(n, s) && Enabled(s, t)
    ensures Inv(n, Step(n, s, t))
  {
    ThreadStep(n, s, t, 0);
    ThreadStep(n, s, t, 1);
    if Serial(n, s, 0, 1) {
      SerialEither(n, s, 0, 1, t);
    } else {
      SerialEither(n, s, 1, 0, t);
    }
  }

  lemma {:induction false} InvExec(n: nat, schedule: seq<Tid>, s: State)
    requires Exec(n, schedule) == Some(s)
    ensures Inv(n, s)
  {
    if schedule != [] {
      var k := |schedule| - 1;
      var m := Exec(n, schedule[..k]).value;
      InvExec(n, schedule[..k], m);
      InvStep(n, m, schedule[k]);
    }
  }

  /**
   Serialisability: whatever the interleaving, the counter stays between -n and n, and when both
   threads have finished it is 0, the value lines, with their thread, are those of one thread run after
   the other, and each thread has one enter line, before its values.
   */
  lemma Serialisable(n: nat, schedule: seq<Tid>, s: State)
    requires Exec(n, schedule) == Some(s)
    ensures 0 - n <= s.gVar <= n
    ensures |s.th| == 2
    ensures s.th[0].pc.Done? && s.th[1].pc.Done? ==>
              && s.gVar == 0 && s.owner == None
              && (exists j :: EntersAt(s.out, 0, j)) && (exists k :: EntersAt(s.out, 1, k))
              && (Values(s.out) == Ramp(0, 0, n) + Ramp(n, 1, n) || Values(s.out) == Ramp(0, 1, n) + Ramp(0 - n, 0, n))
  {
    InvExec(n, schedule, s);
    EnterLines(n, schedule, s, 0);
    EnterLines(n, schedule, s, 1);
  }

  /** No update is lost and no line is torn: only the owner of the mutex stores or prints a value. */
  lemma StepMeans(n: nat, s: State, t: Tid)
    requires Inv(n, s) && Enabled(s, t)
    ensures var s' := Step(n, s, t);
      && (s'.gVar != s.gVar ==> s.owner == Some(t) && s'.gVar == s.gVar + Signed(t, 1))
      && (Values(s'.out) != Values(s.out) ==>
            s.owner == Some(t) && s'.gVar == s.gVar && Values(s'.out) == Values(s.out) + [Value(t, s.gVar)])
  {
    assert ThreadOk(n, s, t);
    ValuesStep(n, s, t);
  }

  /** `idx` lists the `th1:` and `th2:` lines of the output, in order. */
  ghost predicate ListsValues(out: seq<Line>, values: seq<Line>, idx: seq<nat>) {
    && Increasing(idx) && Below(idx, |out|) && |idx| == |values|
    && (forall j :: 0 <= j < |out| ==> (j in idx <==> out[j].Value?))
    && forall i :: 0 <= i < |idx| ==> values[i] == out[idx[i]]
  }

  lemma {:induction false} ValuesAre(out: seq<Line>) returns (idx: seq<nat>)
    ensures ListsValues(out, Values(out), idx)
  {
    idx := [];
    if out != [] {
      var k := |out| - 1;
      idx := ValuesAre(out[..k]);
      ListsMore(out, Values(out[..k]), idx);
      if out[k].Value? {
        idx := idx + [k];
      }
    }
  }

  lemma ListsMore(out: seq<Line>, values: seq<Line>, idx: seq<nat>)
    requires out != [] && ListsValues(out[..|out| - 1], values, idx)
    ensures var k := |out| - 1;
      if out[k].Value? then ListsValues(out, values + [out[k]], idx + [k]) else ListsValues(out, values + [], idx)
  {
    var k := |out| - 1;
    Later(idx, k);
    assert forall j :: 0 <= j < k ==> out[..k][j] == out[j];
    assert values + [] == values;
  }

  // ----- The enter lines -----

  /** Thread `t` has printed its enter line at `k`, as its first line and only once. */
  ghost predicate EntersAt(out: seq<Line>, t: Tid, k: nat) {
    && k < |out| && out[k] == Entered(t)
    && forall j :: 0 <= j < |out| && j != k && out[j].t == t ==> j > k && out[j].Value?
  }

  /** A thread prints nothing before its entry; after it, its enter line stands once, before its values. */
  ghost predicate EnterLine(s: State, t: Tid)
    requires t < |s.th|
  {
    if s.th[t].pc.Enter?
    then forall j :: 0 <= j < |s.out| ==> s.out[j].t != t
    else exists k :: EntersAt(s.out, t, k)
  }

  lemma EnterLineStep(n: nat, s: State, t: Tid, u: Tid)
    requires |s.th| == 2 && Enabled(s, t) && EnterLine(s, u)
    ensures EnterLine(Step(n, s, t), u)
  {
    var s' := Step(n, s, t);
    if !s.th[u].pc.Enter? {
      var k :| EntersAt(s.out, u, k);
      assert EntersAt(s'.out, u, k);
    } else if u == t {
      assert EntersAt(s'.out, u, |s.out|);
    }
  }

  /** In every reachable state each thread has printed its enter line exactly if it has passed it. */
  lemma {:induction false} EnterLines(n: nat, schedule: seq<Tid>, s: State, t: Tid)
    requires Exec(n, schedule) == Some(s)
    ensures |s.th| == 2 && EnterLine(s, t)
  {
    if schedule != [] {
      var k := |schedule| - 1;
      var m := Exec(n, schedule[..k]).value;
      EnterLines(n, schedule[..k], m, t);
      EnterLineStep(n, m, schedule[k], t);
    }
  }

  // ----- Termination -----

  function Left(n: nat, x: Thread): int {
    match x.pc
    case Enter => 3 * n + 3
    case Lock => 3 * n + 2
    case Load => 3 * (n - x.i) + 1
    case Store => 3 * (n - x.i)
    case Print => 3 * (n - x.i) - 1
    case Unlock => 1
    case Done => 0
  }

  /** Every run can be continued until both threads have finished, after exactly 6n + 6 statements. */
  lemma Terminates(n: nat, schedule: seq<Tid>, s: State)
    requires Exec(n, schedule) == Some(s)
    ensures |s.th| == 2 && |schedule| <= 6 * n + 6
    ensures (forall t: Tid :: !Enabled(s, t)) <==> |schedule| == 6 * n + 6
    ensures |schedule| == 6 * n + 6 <==> s.th[0].pc.Done? && s.th[1].pc.Done?
  {
    InvExec(n, schedule, s);
    StepsLeft(n, schedule, s);
    LeftIsPositive(n, s, 0);
    LeftIsPositive(n, s, 1);
    SomebodyCanMove(n, s);
  }

  lemma LeftIsPositive(n: nat, s: State, t: Tid)
    requires |s.th| == 2 && ThreadOk(n, s, t)
    ensures Left(n, s.th[t]) >= 0 && (Left(n, s.th[t]) == 0 <==> s.th[t].pc.Done?)
  {
  }

  lemma AlwaysOk(n: nat, schedule: seq<Tid>, s: State, t: Tid)
    requires Exec(n, schedule) == Some(s)
    ensures |s.th| == 2 && ThreadOk(n, s, t)
  {
    InvExec(n, schedule, s);
  }

  /** A thread that has not finished waits only for the mutex, and only while the other one is in its loop. */
  lemma WaitsOnlyForTheOther(n: nat, schedule: seq<Tid>, s: State, t: Tid)
    requires Exec(n, schedule) == Some(s)
    ensures |s.th| == 2
    ensures Enabled(s, t) <==> !s.th[t].pc.Done? && !(s.th[t].pc.Lock? && Critical(s.th[1 - t]))
  {
    AlwaysOk(n, schedule, s, t);
    AlwaysOk(n, schedule, s, 1 - t);
    Waits(n, s, t, 1 - t);
  }

  lemma Waits(n: nat, s: State, t: Tid, u: Tid)
    requires |s.th| == 2 && u != t && ThreadOk(n, s, t) && ThreadOk(n, s, u)
    ensures Enabled(s, t) <==> !s.th[t].pc.Done? && !(s.th[t].pc.Lock? && Critical(s.th[u]))
  {
  }

  lemma SomebodyCanMove(n: nat, s: State)
    requires |s.th| == 2 && ThreadOk(n, s, 0) && ThreadOk(n, s, 1)
    ensures (forall t: Tid :: !Enabled(s, t)) <==> s.th[0].pc.Done? && s.th[1].pc.Done?
  {
    var t: Tid := if s.owner.Some? then s.owner.value else if !s.th[0].pc.Done? then 0 else 1;
    assert ThreadOk(n, s, t);
    assert !(s.th[0].pc.Done? && s.th[1].pc.Done?) ==> Enabled(s, t);
  }

  function LeftOver(n: nat, s: State): int
    requires |s.th| == 2
  {
    Left(n, s.th[0]) + Left(n, s.th[1])
  }

  lemma {:induction false} StepsLeft(n: nat, schedule: seq<Tid>, s: State)
    requires Exec(n, schedule) == Some(s)
    ensures |s.th| == 2 && |schedule| + LeftOver(n, s) == 6 * n + 6
  {
    if schedule != [] {
      var k := |schedule| - 1;
      var m := Exec(n, schedule[..k]).value;
      StepsLeft(n, schedule[..k], m);
      AlwaysOk(n, schedule[..k], m, schedule[k]);
      OneStepLess(n, m, schedule[k]);
    }
  }

  lemma OneStepLess(n: nat, s: State, t: Tid)
    requires |s.th| == 2 && Enabled(s, t) && ThreadOk(n, s, t)
    ensures |Step(n, s, t).th| == 2 && LeftOver(n, Step(n, s, t)) == LeftOver(n, s) - 1
  {
    assert Step(n, s, t).th[1 - t] == s.th[1 - t];
  }

  // ----- The program -----

  /** The globals and the two threads' locals, updated in place one statement at a time. */
  class Program {
    const n: nat                      // 10 in the source
    var gVar: int
    var owner: Option<Tid>
    var th: seq<Thread>
    var out: seq<Line>

    ghost function Now(): State
      reads this
    {
      State(gVar, owner, th, out)
    }

    /** So far the run is a serial one. */
    ghost predicate Good()
      reads this
    {
      Inv(n, Now())
    }

    constructor (n: nat)
      ensures Good() && Now() == START && this.n == n
    {
      this.n := n;
      gVar, owner, out := 0, None, [];
      th := [Thread(Enter, 0, 0), Thread(Enter, 0, 0)];
    }

    /** One statement: whoever changes or prints the counter owns the mutex, and no update is lost. */
    method Statement(t: Tid)
      requires Good() && Enabled(Now(), t)
      modifies this
      ensures Good() && Now() == Step(n, old(Now()), t)
      ensures gVar != old(gVar) ==> old(owner) == Some(t) && gVar == old(gVar) + Signed(t, 1)
      ensures old(th)[t].pc.Enter? ==> out == old(out) + [Entered(t)]
      ensures Values(out) != old(Values(out)) ==>
                old(owner) == Some(t) && Values(out) == old(Values(out)) + [Value(t, gVar)]
    {
      InvStep(n, Now(), t);
      StepMeans(n, Now(), t);
      Assign(t);
    }

    method Assign(t: Tid)
      requires Enabled(Now(), t)
      modifies this
      ensures Now() == Step(n, old(Now()), t)
    {
      var x := th[t];
      match x.pc
      case Enter =>
        out := out + [Entered(t)];
        th := th[t := x.(pc := Lock)];
      case Lock =>
        owner := Some(t);
        th := th[t := x.(pc := if 0 < n then Load else Unlock)];
      case Load =>
        th := th[t := x.(pc := Store, tmp := gVar)];
      case Store =>
        gVar := if t == 0 then x.tmp + 1 else x.tmp - 1;
        th := th[t := x.(pc := Print)];
      case Print =>
        out := out + [Value(t, gVar)];
        th := th[t := x.(i := x.i + 1, pc := if x.i + 1 < n then Load else Unlock)];
      case Unlock =>
        owner := None;
        th := th[t := x.(pc := Done)];
    }

    /** Under any complete schedule the output is that of one thread run after the other. */
    method Interleave(schedule: seq<Tid>)
      requires Good() && Now() == START && Exec(n, schedule).Some? && |schedule| == 6 * n + 6
      modifies this
      ensures Exec(n, schedule) == Some(Now()) && gVar == 0
      ensures (exists j :: EntersAt(out, 0, j)) && exists k :: EntersAt(out, 1, k)
      ensures Values(out) == Ramp(0, 0, n) + Ramp(n, 1, n) || Values(out) == Ramp(0, 1, n) + Ramp(0 - n, 0, n)
    {
      var k := 0;
      while k < |schedule|
        invariant 0 <= k <= |schedule| && Good() && Exec(n, schedule[..k]) == Some(Now())
      {
        ExecPrefix(n, schedule, k + 1);
        assert schedule[..k + 1][..k] == schedule[..k];
        Statement(schedule[k]);
        k := k + 1;
      }
      assert schedule[..k] == schedule;
      Terminates(n, schedule, Now());
      Serialisable(n, schedule, Now());
    }
  }

  lemma {:induction false} ExecPrefix(n: nat, schedule: seq<Tid>, k: nat)
    requires k <= |schedule| && Exec(n, schedule).Some?
    ensures Exec(n, schedule[..k]).Some?
  {
    if k == |schedule| {
      assert schedule[..k] == schedule;
    } else {
      assert schedule[..|schedule| - 1][..k] == schedule[..k];
      ExecPrefix(n, schedule[..|schedule| - 1], k);
    }
  }
}
