/**
 The command loop with its worker threads, as one step system: main reads a request, creates the
 worker, reports its id and joins it, while the worker enters its id in a registry, runs the loop of
 `ProdConsSteps`, and counts itself when it leaves.  Nothing here assumes when a worker starts,
 relative to main, or in which order anybody moves.
 */
module ProconThreads {
  import opened Positions
  import opened Wrappers
  import opened ProdConsSteps
  import opened ProdConsSafety
  import opened ProconSpec

  /** A thread before its first statement, after it, and after its last. */
  datatype Stage = Born | Running | Left

  /** Main waits for a request, is about to report the id of thread `t`, joins it, or has exited. */
  datatype Main = AtRead | AtWrite(t: Tid) | AtJoin(t: Tid) | Gone

  /** `tid_p` with `P`, or `tid_c` with `C`. */
  datatype Registry = Registry(slots: seq<Id>, count: nat)

  /** `shown` are the ids printed with the lines of `base.out`, `told` those reported on creation. */
  datatype World = World(
    base: State, hires: seq<Hire>, stages: seq<Stage>, producers: Registry, consumers: Registry,
    main: Main, shown: seq<Id>, told: seq<Id>, replies: seq<Reply>, log: seq<Request>)

  datatype Move =
    | Read(r: Request)
    | Tell
    | Enter(t: Tid)
    | Act(a: Action)
    | Leave(t: Tid)
    | Join

  function Blank(): Registry {
    Registry(seq(SLOTS, _ => 0), 0)
  }

  function Beginning(): World {
    World(START, [], [], Blank(), Blank(), AtRead, [], [], [], [])
  }

  function Of(w: World, role: Role): Registry {
    if role.Producer? then w.producers else w.consumers
  }

  function With(w: World, role: Role, reg: Registry): World {
    if role.Producer? then w.(producers := reg) else w.(consumers := reg)
  }

  /** The slot at the counter; an access beyond the array has no defined effect, here none at all. */
  function Slot(reg: Registry): Id {
    if reg.count < |reg.slots| then reg.slots[reg.count] else 0
  }

  function Entered(reg: Registry, self: Id): Registry {
    if reg.count < |reg.slots| then reg.(slots := reg.slots[reg.count := self]) else reg
  }

  /** What a list command writes out. */
  function Entries(reg: Registry): seq<Id> {
    if reg.count <= |reg.slots| then reg.slots[..reg.count] else reg.slots
  }

  predicate Can(w: World, m: Move) {
    !w.main.Gone? &&
    match m
    case Read(_) => w.main.AtRead?
    case Tell => w.main.AtWrite? && w.main.t < |w.hires|
    case Enter(t) => t < |w.stages| && t < |w.hires| && w.stages[t].Born?
    case Act(a) => !a.Spawn? && a.t < |w.stages| && w.stages[a.t].Running? && Enabled(w.base, a)
    case Leave(t) =>
      && t < |w.stages| && t < |w.hires| && t < |w.base.threads|
      && w.stages[t].Running? && w.base.threads[t].pc.Done?
    case Join => w.main.AtJoin? && w.main.t < |w.stages| && w.stages[w.main.t].Left?
  }

  function Answer(w: World, r: Request): seq<Reply> {
    match r
    case Ask(role) => Listing(Entries(Of(w, role)))
    case Garbage => [UnknownCommand]
    case _ => []
  }

  function Heard(n: nat, w: World, r: Request): World {
    match r
    case Begin(hire) =>
      w.(base := Apply(n, w.base, Spawn(hire.role)), hires := w.hires + [hire], stages := w.stages + [Born],
         main := AtWrite(|w.stages|))
    case Quit => w.(main := Gone)
    case _ => w.(replies := w.replies + Answer(w, r))
  }

  /** The id printed with the line that `a` prints, if it prints one. */
  function Shown(w: World, a: Action): seq<Id> {
    if a.Alloc? then [Slot(w.producers)]
    else if a.Run? && a.t < |w.base.threads| && w.base.threads[a.t].pc.Free? then [Slot(w.consumers)]
    else []
  }

  function Do(n: nat, w: World, m: Move): World
    requires Can(w, m)
  {
    match m
    case Read(r) => Heard(n, w, r).(log := w.log + [r])
    case Tell => w.(told := w.told + [Slot(Of(w, w.hires[w.main.t].role))], main := AtJoin(w.main.t))
    case Enter(t) =>
      With(w.(stages := w.stages[t := Running]), w.hires[t].role, Entered(Of(w, w.hires[t].role), w.hires[t].self))
    case Act(a) => w.(base := Apply(n, w.base, a), shown := w.shown + Shown(w, a))
    case Leave(t) =>
      var reg := Of(w, w.hires[t].role);
      With(w.(stages := w.stages[t := Left]), w.hires[t].role, reg.(count := reg.count + 1))
    case Join => w.(main := AtRead)
  }

  function Course(n: nat, moves: seq<Move>): Option<World> {
    if moves == [] then Some(Beginning()) else
      match Course(n, moves[..|moves| - 1])
      case None => None
      case Some(w) => if Can(w, moves[|moves| - 1]) then Some(Do(n, w, moves[|moves| - 1])) else None
  }

  // ----- One worker at a time -----

  predicate Busy(w: World) {
    w.main.AtWrite? || w.main.AtJoin?
  }

  ghost predicate AllLeft(stages: seq<Stage>) {
    forall t :: 0 <= t < |stages| ==> stages[t].Left?
  }

  ghost predicate Matched(w: World) {
    && |w.hires| == |w.stages| == |w.base.threads|
    && w.hires == Hires(w.log)
    && forall t :: 0 <= t < |w.hires| ==> w.base.threads[t].role == w.hires[t].role
  }

  /** Main has exactly the last worker to wait for, or none; who has left has finished its loop. */
  ghost predicate Orderly(w: World) {
    && |w.stages| == |w.base.threads|
    && (forall t :: 0 <= t < |w.stages| && w.stages[t].Left? ==> w.base.threads[t].pc.Done?)
    && (Busy(w) ==> |w.stages| == w.main.t + 1 && AllLeft(w.stages[..w.main.t]))
    && (!Busy(w) ==> AllLeft(w.stages))
  }

  ghost predicate Logged(w: World) {
    && (forall k :: 0 <= k < |w.log| ==> (w.log[k].Quit? <==> w.main.Gone? && k == |w.log| - 1))
    && (w.main.Gone? ==> w.log != [] && w.log[|w.log| - 1].Quit?)
    && (Busy(w) ==> w.log != [] && w.log[|w.log| - 1].Begin?)
  }

  /** Whoever moves while main waits is the last worker. */
  lemma OnlyTheLast(w: World, m: Move)
    requires Orderly(w) && Can(w, m)
    ensures m.Enter? || m.Leave? ==> Busy(w) && m.t == w.main.t
    ensures m.Act? ==> Busy(w) && m.a.t == w.main.t && !w.stages[m.a.t].Left?
  {
    if m.Act? || m.Enter? || m.Leave? {
      var t := if m.Act? then m.a.t else m.t;
      assert Busy(w) ==> t < w.main.t ==> w.stages[..w.main.t][t].Left?;
    }
  }

  /** A step of thread `t` keeps every finished thread finished and every role. */
  lemma OthersStay(n: nat, s: State, a: Action, u: Tid)
    requires Enabled(s, a) && !a.Spawn? && u < |s.threads|
    ensures |Apply(n, s, a).threads| == |s.threads|
    ensures Apply(n, s, a).threads[u].role == s.threads[u].role
    ensures s.threads[u].pc.Done? ==> Apply(n, s, a).threads[u].pc.Done?
  {
  }

  lemma MatchedStep(n: nat, w: World, m: Move)
    requires Matched(w) && Can(w, m)
    ensures Matched(Do(n, w, m))
  {
    match m
    case Act(a) => MatchedAct(n, w, a);
    case Read(r) => MatchedRead(n, w, r);
    case _ => NobodyNew(n, w, m);
  }

  lemma NobodyNew(n: nat, w: World, m: Move)
    requires Can(w, m) && (m.Tell? || m.Enter? || m.Leave? || m.Join?)
    ensures var w' := Do(n, w, m);
      w'.base == w.base && w'.hires == w.hires && w'.log == w.log && |w'.stages| == |w.stages|
  {
  }

  lemma MatchedRead(n: nat, w: World, r: Request)
    requires Matched(w) && Can(w, Read(r))
    ensures Matched(Do(n, w, Read(r)))
  {
    assert (w.log + [r])[..|w.log|] == w.log;
  }

  lemma MatchedAct(n: nat, w: World, a: Action)
    requires Matched(w) && Can(w, Act(a))
    ensures Matched(Do(n, w, Act(a)))
  {
    forall u | 0 <= u < |w.hires|
      ensures |Apply(n, w.base, a).threads| == |w.hires| && Apply(n, w.base, a).threads[u].role == w.hires[u].role
    {
      OthersStay(n, w.base, a, u);
    }
    OthersStay(n, w.base, a, a.t);
  }

  lemma OrderlyStep(n: nat, w: World, m: Move)
    requires Orderly(w) && Can(w, m)
    ensures Orderly(Do(n, w, m))
  {
    OnlyTheLast(w, m);
    if m.Act? {
      forall u | 0 <= u < |w.stages| && w.stages[u].Left?
        ensures Apply(n, w.base, m.a).threads[u].pc.Done?
      {
        OthersStay(n, w.base, m.a, u);
      }
      OthersStay(n, w.base, m.a, m.a.t);
    } else {
      OrderlyMain(n, w, m);
    }
  }

  lemma OrderlyMain(n: nat, w: World, m: Move)
    requires Orderly(w) && Can(w, m) && !m.Act?
    requires m.Enter? || m.Leave? ==> Busy(w) && m.t == w.main.t
    ensures Orderly(Do(n, w, m))
  {
    var w' := Do(n, w, m);
    if m.Read? && m.r.Begin? {
      assert w'.stages[..|w.stages|] == w.stages;
    } else if m.Join? {
      forall u | 0 <= u < |w.stages|
        ensures w.stages[u].Left?
      {
        assert u < w.main.t ==> w.stages[..w.main.t][u].Left?;
      }
    } else if m.Enter? || m.Leave? {
      assert w'.stages[..w.main.t] == w.stages[..w.main.t];
    }
  }

  lemma LoggedStep(n: nat, w: World, m: Move)
    requires Logged(w) && Can(w, m)
    ensures Logged(Do(n, w, m))
  {
  }

  lemma {:induction false} Invariants(n: nat, moves: seq<Move>, w: World)
    requires Course(n, moves) == Some(w)
    ensures Matched(w) && Orderly(w) && Logged(w)
  {
    if moves != [] {
      var k := |moves| - 1;
      var m := Course(n, moves[..k]).value;
      Invariants(n, moves[..k], m);
      MatchedStep(n, m, moves[k]);
      OrderlyStep(n, m, moves[k]);
      LoggedStep(n, m, moves[k]);
    }
  }

  // ----- The registries -----

  predicate Reached(s: Stage, goal: Stage) {
    goal.Born? || s == goal || s.Left?
  }

  /** The ids of the workers of kind `role` that have come as far as `goal`, in creation order. */
  function IdsAt(hires: seq<Hire>, stages: seq<Stage>, role: Role, goal: Stage): seq<Id>
    requires |hires| == |stages|
  {
    if hires == [] then [] else
      var t := |hires| - 1;
      IdsAt(hires[..t], stages[..t], role, goal) +
        if hires[t].role == role && Reached(stages[t], goal) then [hires[t].self] else []
  }

  /** `idx` lists the workers of kind `role` that have come as far as `goal`, in order, and `ids` are theirs. */
  ghost predicate Enrolled(
      hires: seq<Hire>, stages: seq<Stage>, role: Role, goal: Stage, ids: seq<Id>, idx: seq<nat>)
    requires |hires| == |stages|
  {
    && Increasing(idx) && Below(idx, |hires|) && |idx| == |ids|
    && (forall t :: 0 <= t < |hires| ==> (t in idx <==> hires[t].role == role && Reached(stages[t], goal)))
    && forall j :: 0 <= j < |idx| ==> ids[j] == hires[idx[j]].self
  }

  lemma {:induction false} IdsAre(hires: seq<Hire>, stages: seq<Stage>, role: Role, goal: Stage)
    returns (idx: seq<nat>)
    requires |hires| == |stages|
    ensures Enrolled(hires, stages, role, goal, IdsAt(hires, stages, role, goal), idx)
  {
    idx := [];
    if hires != [] {
      var t := |hires| - 1;
      idx := IdsAre(hires[..t], stages[..t], role, goal);
      EnrolledMore(hires, stages, role, goal, IdsAt(hires[..t], stages[..t], role, goal), idx);
      if hires[t].role == role && Reached(stages[t], goal) {
        idx := idx + [t];
      }
    }
  }

  lemma EnrolledMore(hires: seq<Hire>, stages: seq<Stage>, role: Role, goal: Stage, ids: seq<Id>, idx: seq<nat>)
    requires |hires| == |stages| > 0
    requires Enrolled(hires[..|hires| - 1], stages[..|hires| - 1], role, goal, ids, idx)
    ensures var t := |hires| - 1;
      if hires[t].role == role && Reached(stages[t], goal)
      then Enrolled(hires, stages, role, goal, ids + [hires[t].self], idx + [t])
      else Enrolled(hires, stages, role, goal, ids + [], idx)
  {
    var t := |hires| - 1;
    Later(idx, t);
    assert forall j :: 0 <= j < t ==> hires[..t][j] == hires[j] && stages[..t][j] == stages[j];
    assert ids + [] == ids;
  }

  function EntryAt(ids: seq<Id>, k: nat): Id {
    if k < |ids| then ids[k] else 0
  }

  /** The counter counts those that have left; the slots hold those that have entered, and then zeros. */
  ghost predicate Keeps(hires: seq<Hire>, stages: seq<Stage>, role: Role, reg: Registry)
    requires |hires| == |stages|
  {
    && |reg.slots| == SLOTS && reg.count == |IdsAt(hires, stages, role, Left)|
    && forall k :: 0 <= k < SLOTS ==> reg.slots[k] == EntryAt(IdsAt(hires, stages, role, Running), k)
  }

  ghost predicate Kept(w: World) {
    && |w.hires| == |w.stages|
    && Keeps(w.hires, w.stages, Producer, w.producers)
    && Keeps(w.hires, w.stages, Consumer, w.consumers)
  }

  lemma {:induction false} AllAlike(hires: seq<Hire>, stages: seq<Stage>, role: Role, goal: Stage)
    requires |hires| == |stages| && AllLeft(stages)
    ensures IdsAt(hires, stages, role, goal) == IdsAt(hires, stages, role, Born)
  {
    if hires != [] {
      AllAlike(hires[..|hires| - 1], stages[..|hires| - 1], role, goal);
    }
  }

  /** The ids of the workers of kind `role` before the last one. */
  function Earlier(hires: seq<Hire>, stages: seq<Stage>, role: Role): seq<Id>
    requires |hires| == |stages| > 0
  {
    IdsAt(hires[..|hires| - 1], stages[..|hires| - 1], role, Born)
  }

  /** Only the last worker may not have reached every stage. */
  lemma ButTheLast(hires: seq<Hire>, stages: seq<Stage>, role: Role, goal: Stage)
    requires |hires| == |stages| > 0 && AllLeft(stages[..|stages| - 1])
    ensures IdsAt(hires, stages, role, goal) == Earlier(hires, stages, role) +
              if hires[|hires| - 1].role == role && Reached(stages[|hires| - 1], goal)
              then [hires[|hires| - 1].self] else []
  {
    AllAlike(hires[..|hires| - 1], stages[..|hires| - 1], role, goal);
  }

  lemma KeepsEnter(hires: seq<Hire>, stages: seq<Stage>, role: Role, reg: Registry)
    requires |hires| == |stages| > 0 && AllLeft(stages[..|stages| - 1]) && stages[|stages| - 1].Born?
    requires Keeps(hires, stages, role, reg)
    ensures var t := |hires| - 1;
      Keeps(hires, stages[t := Running], role, if hires[t].role == role then Entered(reg, hires[t].self) else reg)
  {
    var t := |hires| - 1;
    var stages' := stages[t := Running];
    assert stages'[..t] == stages[..t];
    ButTheLast(hires, stages, role, Running);
    ButTheLast(hires, stages, role, Left);
    ButTheLast(hires, stages', role, Running);
    ButTheLast(hires, stages', role, Left);
  }

  lemma KeepsLeave(hires: seq<Hire>, stages: seq<Stage>, role: Role, reg: Registry)
    requires |hires| == |stages| > 0 && AllLeft(stages[..|stages| - 1]) && stages[|stages| - 1].Running?
    requires Keeps(hires, stages, role, reg)
    ensures var t := |hires| - 1;
      Keeps(hires, stages[t := Left], role, if hires[t].role == role then reg.(count := reg.count + 1) else reg)
  {
    var t := |hires| - 1;
    var stages' := stages[t := Left];
    assert stages'[..t] == stages[..t];
    ButTheLast(hires, stages, role, Running);
    ButTheLast(hires, stages, role, Left);
    ButTheLast(hires, stages', role, Running);
    ButTheLast(hires, stages', role, Left);
  }

  lemma KeepsBegin(hires: seq<Hire>, stages: seq<Stage>, hire: Hire, role: Role, reg: Registry)
    requires |hires| == |stages| && Keeps(hires, stages, role, reg)
    ensures Keeps(hires + [hire], stages + [Born], role, reg)
  {
    assert (hires + [hire])[..|hires|] == hires && (stages + [Born])[..|hires|] == stages;
  }

  lemma KeptStep(n: nat, w: World, m: Move)
    requires Orderly(w) && Kept(w) && Can(w, m)
    ensures Kept(Do(n, w, m))
  {
    OnlyTheLast(w, m);
    match m
    case Read(r) =>
      if r.Begin? {
        KeepsBegin(w.hires, w.stages, r.hire, Producer, w.producers);
        KeepsBegin(w.hires, w.stages, r.hire, Consumer, w.consumers);
      }
    case Enter(t) =>
      KeepsEnter(w.hires, w.stages, Producer, w.producers);
      KeepsEnter(w.hires, w.stages, Consumer, w.consumers);
    case Leave(t) =>
      KeepsLeave(w.hires, w.stages, Producer, w.producers);
      KeepsLeave(w.hires, w.stages, Consumer, w.consumers);
    case _ =>
  }

  lemma {:induction false} AlwaysKept(n: nat, moves: seq<Move>, w: World)
    requires Course(n, moves) == Some(w)
    ensures Kept(w)
  {
    if moves != [] {
      var k := |moves| - 1;
      var m := Course(n, moves[..k]).value;
      AlwaysKept(n, moves[..k], m);
      Invariants(n, moves[..k], m);
      KeptStep(n, m, moves[k]);
    }
  }

  /** At most as many workers of each kind as the arrays have entries. */
  ghost predicate Fits(hires: seq<Hire>, stages: seq<Stage>)
    requires |hires| == |stages|
  {
    |IdsAt(hires, stages, Producer, Born)| <= 1024 && |IdsAt(hires, stages, Consumer, Born)| <= 1024
  }

  /**
   The registries, in every state of every run: P and C count the workers that have left, the entries
   below them are their ids in creation order, and while main reads, these are all workers created.
   */
  lemma Registers(n: nat, moves: seq<Move>, w: World, role: Role)
    requires Course(n, moves) == Some(w) && |w.hires| == |w.stages| && Fits(w.hires, w.stages)
    ensures Of(w, role).count == |IdsAt(w.hires, w.stages, role, Left)|
    ensures Entries(Of(w, role)) == IdsAt(w.hires, w.stages, role, Left)
    ensures !Busy(w) ==> Entries(Of(w, role)) == IdsAt(w.hires, w.stages, role, Born)
  {
    AlwaysKept(n, moves, w);
    Invariants(n, moves, w);
    LeftBeforeEntered(w, role);
    EntriesAre(w.hires, w.stages, role, Of(w, role));
    if !Busy(w) {
      AllAlike(w.hires, w.stages, role, Left);
    }
  }

  lemma LeftBeforeEntered(w: World, role: Role)
    requires Orderly(w) && |w.hires| == |w.stages|
    ensures IdsAt(w.hires, w.stages, role, Left) <= IdsAt(w.hires, w.stages, role, Running)
    ensures |IdsAt(w.hires, w.stages, role, Left)| <= |IdsAt(w.hires, w.stages, role, Born)|
  {
    if Busy(w) {
      ButTheLast(w.hires, w.stages, role, Born);
      ButTheLast(w.hires, w.stages, role, Running);
      ButTheLast(w.hires, w.stages, role, Left);
    } else {
      AllAlike(w.hires, w.stages, role, Running);
      AllAlike(w.hires, w.stages, role, Left);
    }
  }

  lemma EntriesAre(hires: seq<Hire>, stages: seq<Stage>, role: Role, reg: Registry)
    requires |hires| == |stages| && Keeps(hires, stages, role, reg)
    requires IdsAt(hires, stages, role, Left) <= IdsAt(hires, stages, role, Running)
    requires |IdsAt(hires, stages, role, Left)| <= SLOTS
    ensures Entries(reg) == IdsAt(hires, stages, role, Left)
  {
  }

  /** The slot at the counter is the last worker's own, from its entry to its departure; otherwise it is blank. */
  lemma OwnSlot(w: World)
    requires Orderly(w) && Kept(w) && Busy(w) && Fits(w.hires, w.stages)
    ensures var reg := Of(w, w.hires[w.main.t].role);
      match w.stages[w.main.t]
      case Running => Slot(reg) == w.hires[w.main.t].self
      case Born => Slot(reg) == 0
      case Left => Slot(reg) == 0
  {
    var role := w.hires[w.main.t].role;
    ButTheLast(w.hires, w.stages, role, Born);
    ButTheLast(w.hires, w.stages, role, Running);
    ButTheLast(w.hires, w.stages, role, Left);
  }

  /**
   The id reported on creation is the new worker's if and only if the worker has entered and not left
   by then; otherwise it is zero.
   */
  lemma ReportedId(n: nat, moves: seq<Move>, w: World)
    requires Course(n, moves) == Some(w) && |w.hires| == |w.stages| && Fits(w.hires, w.stages)
    requires w.main.AtWrite? && (w.main.t < |w.hires| ==> Of(w, w.hires[w.main.t].role).count < SLOTS)
    ensures w.main.t < |w.hires| && Can(w, Tell)
    ensures var self, told := w.hires[w.main.t].self, Do(n, w, Tell).told[|w.told|];
      && told == (if w.stages[w.main.t].Running? then self else 0)
      && (self != 0 ==> (told == self <==> w.stages[w.main.t].Running?))
  {
    AlwaysKept(n, moves, w);
    Invariants(n, moves, w);
    OwnSlot(w);
  }

  /** Main can be faster than the worker it has created: then it reports zero. */
  lemma ReportedTooEarly(n: nat, hire: Hire)
    ensures var r := Course(n, [Read(Begin(hire)), Tell]);
      r.Some? && r.value.hires == [hire] && r.value.told == [0]
  {
    CreateOnly(n, hire);
    CourseNext(n, [Read(Begin(hire))], Tell);
    assert [Read(Begin(hire))] + [Tell] == [Read(Begin(hire)), Tell];
  }

  lemma CreateOnly(n: nat, hire: Hire)
    ensures var r := Course(n, [Read(Begin(hire))]);
      && r.Some? && r.value.hires == [hire] && r.value.told == [] && r.value.main == AtWrite(0)
      && Slot(r.value.producers) == Slot(r.value.consumers) == 0
  {
    CourseNext(n, [], Read(Begin(hire)));
    assert [] + [Read(Begin(hire))] == [Read(Begin(hire))];
  }

  lemma CourseNext(n: nat, moves: seq<Move>, m: Move)
    requires Course(n, moves).Some? && Can(Course(n, moves).value, m)
    ensures Course(n, moves + [m]) == Some(Do(n, Course(n, moves).value, m))
  {
    assert (moves + [m])[..|moves|] == moves;
  }

  // ----- Printed ids -----

  ghost predicate Labelled(w: World) {
    && |w.shown| == |w.base.out|
    && forall k :: 0 <= k < |w.shown| ==>
                     w.base.out[k].t < |w.hires| && w.shown[k] == w.hires[w.base.out[k].t].self
  }

  lemma LabelledAct(n: nat, w: World, a: Action)
    requires Can(w, Act(a)) && Labelled(w) && a.t < |w.hires| && a.t < |w.base.threads|
    requires ControlOk(n, a.t, w.base.threads[a.t], w.base.lock) && w.base.threads[a.t].role == w.hires[a.t].role
    requires Slot(Of(w, w.hires[a.t].role)) == w.hires[a.t].self
    ensures Labelled(Do(n, w, Act(a)))
  {
  }

  lemma LabelledStep(n: nat, w: World, m: Move)
    requires Orderly(w) && Matched(w) && Kept(w) && Control(n, w.base) && Fits(w.hires, w.stages)
    requires Labelled(w) && Can(w, m)
    ensures Labelled(Do(n, w, m))
  {
    OnlyTheLast(w, m);
    if m.Act? {
      OwnSlot(w);
      assert ControlOk(n, m.a.t, w.base.threads[m.a.t], w.base.lock);
      LabelledAct(n, w, m.a);
    }
  }

  lemma ControlMove(n: nat, w: World, m: Move)
    requires Control(n, w.base) && Can(w, m)
    ensures Control(n, Do(n, w, m).base)
  {
    if m.Act? {
      ControlStep(n, w.base, m.a);
    } else if m.Read? && m.r.Begin? {
      ControlStep(n, w.base, Spawn(m.r.hire.role));
    }
  }

  lemma {:induction false} AlwaysControlled(n: nat, moves: seq<Move>, w: World)
    requires Course(n, moves) == Some(w)
    ensures Control(n, w.base)
  {
    if moves != [] {
      var k := |moves| - 1;
      AlwaysControlled(n, moves[..k], Course(n, moves[..k]).value);
      ControlMove(n, Course(n, moves[..k]).value, moves[k]);
    }
  }

  lemma {:induction false} SameIds(hires: seq<Hire>, stages: seq<Stage>, stages': seq<Stage>, role: Role)
    requires |hires| == |stages| == |stages'|
    ensures IdsAt(hires, stages, role, Born) == IdsAt(hires, stages', role, Born)
  {
    if hires != [] {
      SameIds(hires[..|hires| - 1], stages[..|hires| - 1], stages'[..|hires| - 1], role);
    }
  }

  lemma FittedBefore(n: nat, w: World, m: Move)
    requires Orderly(w) && Matched(w) && Can(w, m)
    requires Matched(Do(n, w, m)) && Fits(Do(n, w, m).hires, Do(n, w, m).stages)
    ensures Fits(w.hires, w.stages)
  {
    var w' := Do(n, w, m);
    if m.Read? && m.r.Begin? {
      assert w'.hires[..|w.hires|] == w.hires && w'.stages[..|w.hires|] == w.stages;
    } else {
      SameIds(w.hires, w.stages, w'.stages, Producer);
      SameIds(w.hires, w.stages, w'.stages, Consumer);
    }
  }

  /** Every printed line carries the id of the thread that prints it, although it is read from the registry. */
  lemma {:induction false} LinesCarryTheirIds(n: nat, moves: seq<Move>, w: World)
    requires Course(n, moves) == Some(w) && |w.hires| == |w.stages| && Fits(w.hires, w.stages)
    ensures Labelled(w)
  {
    if moves != [] {
      var k := |moves| - 1;
      var m := Course(n, moves[..k]).value;
      Invariants(n, moves[..k], m);
      AlwaysKept(n, moves[..k], m);
      AlwaysControlled(n, moves[..k], m);
      MatchedStep(n, m, moves[k]);
      FittedBefore(n, m, moves[k]);
      LinesCarryTheirIds(n, moves[..k], m);
      LabelledStep(n, m, moves[k]);
    }
  }
}
