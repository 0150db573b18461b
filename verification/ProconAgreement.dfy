/**
 What the command loop with its threads does is what the loop on values does, in every run: list,
 print-outs, registries and replies.  Between a create request and its join the threads make a run
 of `CommandHistories`, so its theorems hold here too.
 */
module ProconAgreement {
  import opened Positions
  import opened Wrappers
  import opened ProdConsSteps
  import opened ProdConsHistory
  import opened ProdConsProgress
  import opened CommandHistories
  import opened Brackets
  import opened ProconSpec
  import opened ProconThreads

  // ----- The runs between creation and join -----

  /** The state `w` as a history whose k-th worker runs through `runs[k]`, the one in progress through `now`. */
  ghost predicate Shape(n: nat, w: World, runs: seq<seq<Action>>, now: seq<Action>) {
    var h := Roles(w.hires);
    if Busy(w)
    then |h| == |runs| + 1 && Play(n, h[..|runs|], runs).Some? && During(n, w, Play(n, h[..|runs|], runs).value, now)
    else |h| == |runs| && Play(n, h, runs) == Some(w.base)
  }

  /** The worker in progress has brought `m` to the present state by `now`. */
  ghost predicate During(n: nat, w: World, m: State, now: seq<Action>) {
    && w.hires != [] && NoSpawn(now)
    && Exec(n, Apply(n, m, Spawn(w.hires[|w.hires| - 1].role)), now) == Some(w.base)
  }

  /** Every run of the threads is such a history, with each worker run from its creation to its join. */
  lemma {:induction false} Histories(n: nat, moves: seq<Move>, w: World)
    returns (runs: seq<seq<Action>>, now: seq<Action>)
    requires Course(n, moves) == Some(w)
    ensures Shape(n, w, runs, now)
  {
    if moves == [] {
      runs, now := [], [];
    } else {
      var k := |moves| - 1;
      var m := Course(n, moves[..k]).value;
      runs, now := Histories(n, moves[..k], m);
      Invariants(n, moves[..k], m);
      runs, now := HistoryStep(n, m, moves[k], runs, now);
    }
  }

  lemma HistoryStep(n: nat, w: World, m: Move, runs: seq<seq<Action>>, now: seq<Action>)
    returns (runs': seq<seq<Action>>, now': seq<Action>)
    requires Matched(w) && Orderly(w) && Can(w, m) && Shape(n, w, runs, now)
    ensures Shape(n, Do(n, w, m), runs', now')
  {
    OnlyTheLast(w, m);
    runs', now' := runs, now;
    if m.Act? {
      now' := now + [m.a];
      HistoryAct(n, w, m.a, runs, now);
    } else if m.Join? {
      runs' := runs + [now];
      HistoryJoin(n, w, runs, now);
    } else if m.Read? && m.r.Begin? {
      now' := [];
      HistoryBegin(n, w, m.r.hire, runs);
    } else {
      BaseStays(n, w, m);
      SameShape(n, w, Do(n, w, m), runs, now);
    }
  }

  lemma BaseStays(n: nat, w: World, m: Move)
    requires Can(w, m) && !m.Act? && !m.Join? && !(m.Read? && m.r.Begin?)
    ensures Do(n, w, m).base == w.base && Do(n, w, m).hires == w.hires && (Busy(Do(n, w, m)) <==> Busy(w))
  {
  }

  lemma SameShape(n: nat, w: World, w': World, runs: seq<seq<Action>>, now: seq<Action>)
    requires w'.base == w.base && w'.hires == w.hires && (Busy(w') <==> Busy(w)) && Shape(n, w, runs, now)
    ensures Shape(n, w', runs, now)
  {
  }

  lemma HistoryBegin(n: nat, w: World, hire: Hire, runs: seq<seq<Action>>)
    requires w.main.AtRead? && Shape(n, w, runs, [])
    ensures Shape(n, Do(n, w, Read(Begin(hire))), runs, [])
  {
    assert Roles(w.hires + [hire])[..|runs|] == Roles(w.hires);
  }

  lemma HistoryAct(n: nat, w: World, a: Action, runs: seq<seq<Action>>, now: seq<Action>)
    requires Busy(w) && Can(w, Act(a)) && Shape(n, w, runs, now)
    ensures Shape(n, Do(n, w, Act(a)), runs, now + [a])
  {
    assert (now + [a])[..|now|] == now;
  }

  lemma HistoryJoin(n: nat, w: World, runs: seq<seq<Action>>, now: seq<Action>)
    requires Matched(w) && Orderly(w) && Can(w, Join) && Shape(n, w, runs, now)
    ensures Play(n, Roles(w.hires), runs + [now]) == Some(w.base)
  {
    var h := Roles(w.hires);
    var m := Play(n, h[..|runs|], runs).value;
    PlayQuiet(n, h[..|runs|], runs, m);
    assert (runs + [now])[..|runs|] == runs;
    assert w.base.threads[|m.threads|].pc.Done?;
  }

  // ----- Registries and replies on the request log -----

  lemma CommandsNext(log: seq<Request>, r: Request, out: seq<Line>)
    ensures Commands(log + [r], out) == Commands(log, out) + [CommandFor(r, |Hires(log)|, out)]
  {
    assert (log + [r])[..|log|] == log;
  }

  lemma CreatedMore(cmds: seq<Command>, r: Request, t: Tid, out: seq<Line>, role: Role)
    ensures Created(cmds + [CommandFor(r, t, out)], role) ==
            Created(cmds, role) + if r.Begin? && r.hire.role == role then [r.hire.self] else []
  {
    assert (cmds + [CommandFor(r, t, out)])[..|cmds|] == cmds;
  }

  lemma {:induction false} CreatedIds(log: seq<Request>, out: seq<Line>, stages: seq<Stage>, role: Role)
    requires |stages| == |Hires(log)|
    ensures Created(Commands(log, out), role) == IdsAt(Hires(log), stages, role, Born)
  {
    if log != [] {
      var before, r := log[..|log| - 1], log[|log| - 1];
      assert log == before + [r];
      CommandsNext(before, r, out);
      CreatedMore(Commands(before, out), r, |Hires(before)|, out, role);
      if r.Begin? {
        assert Hires(log)[..|stages| - 1] == Hires(before);
        CreatedIds(before, out, stages[..|stages| - 1], role);
      } else {
        assert Hires(log) == Hires(before);
        CreatedIds(before, out, stages, role);
      }
    }
  }

  lemma CreatedSame(log: seq<Request>, out: seq<Line>, out': seq<Line>, role: Role)
    ensures Created(Commands(log, out), role) == Created(Commands(log, out'), role)
  {
    var stages := seq(|Hires(log)|, _ => Born);
    CreatedIds(log, out, stages, role);
    CreatedIds(log, out', stages, role);
  }

  /** What command `c` is answered with after `cmds`. */
  function Due(cmds: seq<Command>, c: Command): seq<Reply> {
    match c
    case ListProducers => Listing(Created(cmds, Producer))
    case ListConsumers => Listing(Created(cmds, Consumer))
    case Other => [UnknownCommand]
    case _ => []
  }

  lemma OwedMore(cmds: seq<Command>, c: Command)
    ensures Owed(cmds + [c]) == Owed(cmds) + Due(cmds, c)
  {
    assert (cmds + [c])[..|cmds|] == cmds;
  }

  lemma OwedNext(log: seq<Request>, r: Request, out: seq<Line>)
    ensures Owed(Commands(log + [r], out)) ==
            Owed(Commands(log, out)) + Due(Commands(log, out), CommandFor(r, |Hires(log)|, out))
  {
    CommandsNext(log, r, out);
    OwedMore(Commands(log, out), CommandFor(r, |Hires(log)|, out));
  }

  lemma {:induction false} OwedSame(log: seq<Request>, out: seq<Line>, out': seq<Line>)
    ensures Owed(Commands(log, out)) == Owed(Commands(log, out'))
  {
    if log != [] {
      var k := |log| - 1;
      OwedSame(log[..k], out, out');
      CreatedSame(log[..k], out, out', Producer);
      CreatedSame(log[..k], out, out', Consumer);
      assert log[..k] + [log[k]] == log;
      OwedNext(log[..k], log[k], out);
      OwedNext(log[..k], log[k], out');
    }
  }

  /** Every list command was answered with the ids of all workers created before it. */
  lemma {:induction false} RepliesAreOwed(n: nat, moves: seq<Move>, w: World)
    requires Course(n, moves) == Some(w) && |w.hires| == |w.stages| && Fits(w.hires, w.stages)
    ensures w.replies == Owed(Commands(w.log, w.base.out))
  {
    if moves != [] {
      var k := |moves| - 1;
      var v := Course(n, moves[..k]).value;
      Invariants(n, moves[..k], v);
      MatchedStep(n, v, moves[k]);
      FittedBefore(n, v, moves[k]);
      RepliesAreOwed(n, moves[..k], v);
      ReplyStep(n, moves[..k], v, moves[k]);
    }
  }

  lemma ReplyStep(n: nat, moves: seq<Move>, w: World, m: Move)
    requires Course(n, moves) == Some(w) && |w.hires| == |w.stages| && Fits(w.hires, w.stages)
    requires Matched(w) && Can(w, m) && w.replies == Owed(Commands(w.log, w.base.out))
    ensures Do(n, w, m).replies == Owed(Commands(Do(n, w, m).log, Do(n, w, m).base.out))
  {
    if m.Read? {
      AnswerIsDue(n, moves, w, m.r);
      OwedNext(w.log, m.r, w.base.out);
      ReadEffect(n, w, m.r);
    } else {
      OwedSame(w.log, w.base.out, Do(n, w, m).base.out);
    }
  }

  lemma ReadEffect(n: nat, w: World, r: Request)
    requires Can(w, Read(r))
    ensures var w' := Do(n, w, Read(r));
      w'.replies == w.replies + Answer(w, r) && w'.log == w.log + [r] && w'.base.out == w.base.out
  {
  }

  lemma AnswerIsDue(n: nat, moves: seq<Move>, w: World, r: Request)
    requires Course(n, moves) == Some(w) && |w.hires| == |w.stages| && Fits(w.hires, w.stages)
    requires Matched(w) && Can(w, Read(r))
    ensures Answer(w, r) == Due(Commands(w.log, w.base.out), CommandFor(r, |Hires(w.log)|, w.base.out))
  {
    DueIs(Commands(w.log, w.base.out), r, |Hires(w.log)|, w.base.out);
    if r.Ask? {
      Registers(n, moves, w, r.role);
      CreatedIds(w.log, w.base.out, w.stages, r.role);
    }
  }

  lemma DueIs(cmds: seq<Command>, r: Request, t: Tid, out: seq<Line>)
    ensures Due(cmds, CommandFor(r, t, out)) == ReplyTo(cmds, r)
  {
    match r
    case Begin(hire) => if hire.role.Producer? {}
    case Ask(role) => if role.Producer? {}
    case Quit =>
    case Garbage =>
  }

  /** What request `r` is answered with after `cmds`. */
  function ReplyTo(cmds: seq<Command>, r: Request): seq<Reply> {
    if r.Ask? then Listing(Created(cmds, r.role)) else if r.Garbage? then [UnknownCommand] else []
  }

  /**
   The replies at `from` up to `to` answer request `k` of the log: a list request with the ids of all
   workers of its kind created before it, one by one in creation order, an unknown one with one reply,
   any other with none.
   */
  ghost predicate Answered(log: seq<Request>, replies: seq<Reply>, k: nat, from: nat, to: nat)
    requires k < |log|
  {
    && from <= to <= |replies|
    && (log[k].Begin? || log[k].Quit? ==> to == from)
    && (log[k].Garbage? ==> to == from + 1 && replies[from] == UnknownCommand)
    && (log[k].Ask? ==> exists idx :: ListedAt(Hires(log[..k]), log[k].role, replies, from, to, idx))
  }

  /** `idx` lists the workers of kind `role` in creation order, and `ids` are theirs. */
  ghost predicate Picked(hires: seq<Hire>, role: Role, ids: seq<Id>, idx: seq<nat>) {
    && Increasing(idx) && Below(idx, |hires|) && |idx| == |ids|
    && (forall t :: 0 <= t < |hires| ==> (t in idx <==> hires[t].role == role))
    && forall j :: 0 <= j < |idx| ==> ids[j] == hires[idx[j]].self
  }

  ghost predicate ListedAt(hires: seq<Hire>, role: Role, replies: seq<Reply>, from: nat, to: nat, idx: seq<nat>) {
    && Increasing(idx) && Below(idx, |hires|) && to == from + |idx| <= |replies|
    && (forall t :: 0 <= t < |hires| ==> (t in idx <==> hires[t].role == role))
    && forall j :: 0 <= j < |idx| ==> replies[from + j] == TheId(hires[idx[j]].self)
  }

  /** The replies are the answers to the requests of the log, one after the other and nothing else. */
  ghost predicate InPlace(log: seq<Request>, replies: seq<Reply>, at: seq<nat>) {
    && |at| == |log| + 1 && at[0] == 0 && at[|log|] == |replies|
    && forall k :: 0 <= k < |log| ==> Answered(log, replies, k, at[k], at[k + 1])
  }

  lemma {:induction false} OwedInPlace(log: seq<Request>, out: seq<Line>) returns (at: seq<nat>)
    ensures InPlace(log, Owed(Commands(log, out)), at)
  {
    at := [0];
    if log != [] {
      var before, r := log[..|log| - 1], log[|log| - 1];
      at := OwedInPlace(before, out);
      at := InPlaceNext(before, r, out, at);
      assert log == before + [r];
    }
  }

  lemma InPlaceNext(log: seq<Request>, r: Request, out: seq<Line>, at: seq<nat>) returns (at': seq<nat>)
    requires InPlace(log, Owed(Commands(log, out)), at)
    ensures InPlace(log + [r], Owed(Commands(log + [r], out)), at')
  {
    OwedGrows(log, r, out);
    var prior := Owed(Commands(log, out));
    if r.Ask? {
      var idx := CreatedInOrder(log, r.role, out);
      at' := ListInPlace(log, r, prior, Created(Commands(log, out), r.role), idx, at);
    } else {
      at' := PlainInPlace(log, r, prior, at);
    }
  }

  lemma ListInPlace(log: seq<Request>, r: Request, prior: seq<Reply>, ids: seq<Id>, idx: seq<nat>, at: seq<nat>)
    returns (at': seq<nat>)
    requires InPlace(log, prior, at) && r.Ask? && Picked(Hires(log), r.role, ids, idx)
    ensures InPlace(log + [r], prior + Listing(ids), at')
  {
    ListAnswered(log, r, prior, ids, idx);
    at' := InPlaceMore(log, r, prior, Listing(ids), at);
  }

  lemma PlainInPlace(log: seq<Request>, r: Request, prior: seq<Reply>, at: seq<nat>) returns (at': seq<nat>)
    requires InPlace(log, prior, at) && !r.Ask?
    ensures InPlace(log + [r], prior + if r.Garbage? then [UnknownCommand] else [], at')
  {
    PlainAnswered(log, r, prior);
    at' := InPlaceMore(log, r, prior, if r.Garbage? then [UnknownCommand] else [], at);
  }

  lemma InPlaceMore(log: seq<Request>, r: Request, prior: seq<Reply>, due: seq<Reply>, at: seq<nat>)
    returns (at': seq<nat>)
    requires InPlace(log, prior, at)
    requires Answered(log + [r], prior + due, |log|, |prior|, |prior| + |due|)
    ensures InPlace(log + [r], prior + due, at')
  {
    at' := at + [|prior| + |due|];
    forall k | 0 <= k < |log|
      ensures Answered(log + [r], prior + due, k, at'[k], at'[k + 1])
    {
      StillAnswered(log, log + [r], prior, prior + due, k, at[k], at[k + 1]);
    }
  }

  lemma StillAnswered(
      log: seq<Request>, log': seq<Request>, replies: seq<Reply>, replies': seq<Reply>, k: nat, from: nat, to: nat)
    requires k < |log| && log <= log' && replies <= replies' && Answered(log, replies, k, from, to)
    ensures Answered(log', replies', k, from, to)
  {
    assert log'[..k] == log[..k] && log'[k] == log[k];
    if log[k].Ask? {
      var idx :| ListedAt(Hires(log[..k]), log[k].role, replies, from, to, idx);
      assert ListedAt(Hires(log'[..k]), log'[k].role, replies', from, to, idx);
    }
  }

  lemma OwedGrows(log: seq<Request>, r: Request, out: seq<Line>)
    ensures Owed(Commands(log + [r], out)) == Owed(Commands(log, out)) + ReplyTo(Commands(log, out), r)
  {
    OwedNext(log, r, out);
    DueIs(Commands(log, out), r, |Hires(log)|, out);
  }

  lemma PlainAnswered(log: seq<Request>, r: Request, before: seq<Reply>)
    requires !r.Ask?
    ensures var due := if r.Garbage? then [UnknownCommand] else [];
      Answered(log + [r], before + due, |log|, |before|, |before| + |due|)
  {
    assert (log + [r])[|log|] == r;
  }

  lemma ListAnswered(log: seq<Request>, r: Request, before: seq<Reply>, ids: seq<Id>, idx: seq<nat>)
    requires r.Ask? && Picked(Hires(log), r.role, ids, idx)
    ensures Answered(log + [r], before + Listing(ids), |log|, |before|, |before| + |Listing(ids)|)
  {
    var e := log + [r];
    assert e[|log|] == r && e[..|log|] == log;
    ListingListed(Hires(log), r.role, ids, before, idx);
  }

  /** The ids of the workers created in `log`, by position. */
  lemma CreatedInOrder(log: seq<Request>, role: Role, out: seq<Line>) returns (idx: seq<nat>)
    ensures Picked(Hires(log), role, Created(Commands(log, out), role), idx)
  {
    var stages := seq(|Hires(log)|, _ => Born);
    CreatedIds(log, out, stages, role);
    idx := IdsAre(Hires(log), stages, role, Born);
  }

  lemma ListingListed(hires: seq<Hire>, role: Role, ids: seq<Id>, before: seq<Reply>, idx: seq<nat>)
    requires Picked(hires, role, ids, idx)
    ensures ListedAt(hires, role, before + Listing(ids), |before|, |before| + |Listing(ids)|, idx)
  {
  }

  /** In every run every request is answered in its turn, each list request with the ids it should list. */
  lemma RepliesInPlace(n: nat, moves: seq<Move>, w: World) returns (at: seq<nat>)
    requires Course(n, moves) == Some(w) && |w.hires| == |w.stages| && Fits(w.hires, w.stages)
    ensures InPlace(w.log, w.replies, at)
  {
    RepliesAreOwed(n, moves, w);
    at := OwedInPlace(w.log, w.base.out);
  }

  // ----- Agreement -----

  /** What can be seen of `w`: main waiting for a worker shows as a loop waiting in a join. */
  function View(w: World): Loop {
    Loop(Content(w.base), Entries(w.producers), Entries(w.consumers), Meals(w.hires, w.base.out), w.replies,
         if w.main.AtRead? then Reading else if w.main.Gone? then Exited else Joining)
  }

  /** The loop on values, given the requests read and the numbers the producers have drawn. */
  function Expected(n: nat, w: World): Loop {
    Handled(n, Commands(w.log, w.base.out))
  }

  ghost predicate Registered(w: World) {
    && |w.hires| == |w.stages|
    && Entries(w.producers) == IdsAt(w.hires, w.stages, Producer, Left)
    && Entries(w.consumers) == IdsAt(w.hires, w.stages, Consumer, Left)
  }

  /** When nobody is being waited for, on the requests `log` before any quit. */
  lemma AgreesAtRest(n: nat, w: World, log: seq<Request>, runs: seq<seq<Action>>)
    requires Quit !in log && Hires(log) == w.hires && |runs| == |w.hires|
    requires Play(n, Roles(w.hires), runs) == Some(w.base)
    requires Registered(w) && AllLeft(w.stages) && w.replies == Owed(Commands(log, w.base.out))
    ensures Handled(n, Commands(log, w.base.out)) == View(w).(status := Reading)
  {
    LoopAgreesWithThreads(n, log, runs, w.base);
    Registries(n, Commands(log, w.base.out));
    CreatedIds(log, w.base.out, w.stages, Producer);
    CreatedIds(log, w.base.out, w.stages, Consumer);
    AllAlike(w.hires, w.stages, Producer, Left);
    AllAlike(w.hires, w.stages, Consumer, Left);
  }

  lemma AgreesReading(n: nat, w: World, runs: seq<seq<Action>>)
    requires Matched(w) && Orderly(w) && Logged(w) && Registered(w) && w.main.AtRead? && Shape(n, w, runs, [])
    requires w.replies == Owed(Commands(w.log, w.base.out))
    ensures View(w) == Expected(n, w)
  {
    AgreesAtRest(n, w, w.log, runs);
  }

  lemma AgreesGone(n: nat, w: World, runs: seq<seq<Action>>)
    requires Matched(w) && Orderly(w) && Logged(w) && Registered(w) && w.main.Gone? && Shape(n, w, runs, [])
    requires w.replies == Owed(Commands(w.log, w.base.out))
    ensures View(w) == Expected(n, w)
  {
    var k := |w.log| - 1;
    assert w.log[..k] + [w.log[k]] == w.log;
    OwedNext(w.log[..k], w.log[k], w.base.out);
    AgreesAtRest(n, w, w.log[..k], runs);
    assert Commands(w.log, w.base.out)[..k] == Commands(w.log[..k], w.base.out);
  }

  /** The loop before the create request in progress, seen with the present print-outs. */
  lemma BeforeTheLast(n: nat, w: World, runs: seq<seq<Action>>, now: seq<Action>) returns (m: State, l: Loop)
    requires Matched(w) && Orderly(w) && Logged(w) && Busy(w) && Shape(n, w, runs, now)
    ensures Play(n, Roles(w.hires)[..|runs|], runs) == Some(m) && |runs| == |w.hires| - 1
    ensures l == Handled(n, Commands(w.log[..|w.log| - 1], w.base.out)) && l.status.Reading?
    ensures Expected(n, w) == Handle(n, l, CommandFor(Begin(w.hires[|runs|]), |runs|, w.base.out))
    ensures l.stack == Content(m) && l.eaten == Meals(w.hires[..|runs|], w.base.out)
  {
    var before, t := w.log[..|w.log| - 1], |runs|;
    var h := Roles(w.hires)[..t];
    m := Play(n, h, runs).value;
    l := Handled(n, Commands(before, w.base.out));
    assert Hires(before) == w.hires[..t];
    assert Roles(Hires(before)) == h;
    LoopAgreesWithThreads(n, before, runs, m);
    PlayQuiet(n, h, runs, m);
    AloneExec(n, m, w.hires[t].role, now, w.base);
    AloneKeepsLines(m, w.hires[t].role, w.base);
    CommandsSame(before, m.out, w.base.out);
    MealsSame(w.hires[..t], m.out, w.base.out);
    assert Commands(w.log, w.base.out)[..|before|] == Commands(before, w.base.out);
  }

  /** If the loop on values waits in a join for ever, so do the threads, and they agree all the while. */
  lemma AgreesJoining(n: nat, w: World, runs: seq<seq<Action>>, now: seq<Action>)
    requires Matched(w) && Orderly(w) && Logged(w) && Registered(w) && Busy(w) && Shape(n, w, runs, now)
    requires w.replies == Owed(Commands(w.log, w.base.out)) && Expected(n, w).status.Joining?
    ensures View(w) == Expected(n, w)
  {
    var m, l := BeforeTheLast(n, w, runs, now);
    var t := |runs|;
    assert w.hires[t].role.Consumer? && |l.stack| < n;
    Starved(n, w, m, runs, now);
    WithoutTheLast(n, w, l);
  }

  lemma AtLeastOne(n: nat, d: nat)
    ensures d > 0 ==> n * d >= n
  {
    if d > 0 { assert n * d == n + n * (d - 1); }
  }

  lemma Starved(n: nat, w: World, m: State, runs: seq<seq<Action>>, now: seq<Action>)
    requires Orderly(w) && Busy(w) && Shape(n, w, runs, now) && |Content(m)| < n
    requires Play(n, Roles(w.hires)[..|runs|], runs) == Some(m) && w.hires[|runs|].role.Consumer?
    ensures Content(m) == Content(w.base) == [] && ConsumedBy(w.base.out, |runs|) == []
    ensures |w.stages| == |runs| + 1 && !w.stages[|runs|].Left?
  {
    var h := Roles(w.hires)[..|runs|];
    StackLength(n, h, runs, m);
    AtLeastOne(n, |Open(h)|);
    JoinNeverReturns(n, h, runs, m, now, w.base);
  }

  lemma WithoutTheLast(n: nat, w: World, l: Loop)
    requires Matched(w) && Orderly(w) && Logged(w) && Registered(w) && Busy(w) && !w.stages[w.main.t].Left?
    requires l == Handled(n, Commands(w.log[..|w.log| - 1], w.base.out)) && l.status.Reading?
    requires w.replies == Owed(Commands(w.log, w.base.out))
    ensures l.producers == Entries(w.producers) && l.consumers == Entries(w.consumers) && l.replies == w.replies
  {
    var before, t := w.log[..|w.log| - 1], w.main.t;
    assert before + [w.log[|w.log| - 1]] == w.log;
    OwedNext(before, w.log[|w.log| - 1], w.base.out);
    Registries(n, Commands(before, w.base.out));
    assert Hires(before) == w.hires[..t];
    CreatedIds(before, w.base.out, w.stages[..t], Producer);
    CreatedIds(before, w.base.out, w.stages[..t], Consumer);
    ButTheLast(w.hires, w.stages, Producer, Left);
    ButTheLast(w.hires, w.stages, Consumer, Left);
  }

  lemma AlwaysRegistered(n: nat, moves: seq<Move>, w: World)
    requires Course(n, moves) == Some(w) && |w.hires| == |w.stages| && Fits(w.hires, w.stages)
    ensures Registered(w)
  {
    Registers(n, moves, w, Producer);
    Registers(n, moves, w, Consumer);
  }

  /**
   Agreement.  In every run of main and its workers, with at most 1024 workers of each kind: while
   main reads, and after it has exited, list, registries, print-outs and replies are those of the loop
   on values; so they are all the time main waits, if the loop on values waits there for ever.
   */
  lemma LoopAgrees(n: nat, moves: seq<Move>, w: World)
    requires Course(n, moves) == Some(w) && |w.hires| == |w.stages| && Fits(w.hires, w.stages)
    ensures !Busy(w) || Expected(n, w).status.Joining? ==> View(w) == Expected(n, w)
  {
    Invariants(n, moves, w);
    AlwaysRegistered(n, moves, w);
    RepliesAreOwed(n, moves, w);
    var runs, now := Histories(n, moves, w);
    match w.main
    case AtRead => AgreesReading(n, w, runs);
    case Gone => AgreesGone(n, w, runs);
    case _ => if Expected(n, w).status.Joining? { AgreesJoining(n, w, runs, now); }
  }

  /** In the other case somebody can always move, other than by a spurious wake-up, until the join has returned. */
  lemma JoinGoesOn(n: nat, moves: seq<Move>, w: World) returns (m: Move)
    requires n > 0 && Course(n, moves) == Some(w) && Busy(w) && Expected(n, w).status.Reading?
    ensures Can(w, m) && (m.Act? ==> !m.a.Spurious?)
  {
    Invariants(n, moves, w);
    var t := w.main.t;
    match w.stages[t]
    case Born => m := Enter(t);
    case Left => m := if w.main.AtWrite? then Tell else Join;
    case Running =>
      if w.base.threads[t].pc.Done? {
        m := Leave(t);
      } else {
        var runs, now := Histories(n, moves, w);
        var a := WorkerMoves(n, w, runs, now);
        m := Act(a);
      }
  }

  lemma WorkerMoves(n: nat, w: World, runs: seq<seq<Action>>, now: seq<Action>) returns (a: Action)
    requires n > 0 && Matched(w) && Orderly(w) && Logged(w) && Busy(w) && Shape(n, w, runs, now)
    requires Expected(n, w).status.Reading? && w.stages[w.main.t].Running? && !w.base.threads[w.main.t].pc.Done?
    ensures Can(w, Act(a)) && !a.Spurious?
  {
    var m, l := BeforeTheLast(n, w, runs, now);
    var h, t := Roles(w.hires)[..|runs|], |runs|;
    assert w.hires[t].role.Consumer? ==> |l.stack| >= n;
    a := SomebodyMoves(n, h, runs, m, w.hires[t].role, now, w.base);
    OnlyWorker(w, a);
  }

  lemma OnlyWorker(w: World, a: Action)
    requires Orderly(w) && Busy(w) && Enabled(w.base, a) && !a.Spawn?
    ensures a.t == w.main.t
  {
    forall u | 0 <= u < w.main.t
      ensures w.base.threads[u].pc.Done?
    {
      assert w.stages[..w.main.t][u].Left?;
    }
  }

  lemma NoneIsNothing(n: nat, d: nat)
    ensures n > 0 && n * d >= n ==> d > 0
  {
  }

  lemma SomebodyMoves(n: nat, h: seq<Role>, runs: seq<seq<Action>>, m: State, role: Role, now: seq<Action>, s: State)
    returns (a: Action)
    requires n > 0 && |h| == |runs| && Play(n, h, runs) == Some(m) && (role.Consumer? ==> |Content(m)| >= n)
    requires Exec(n, Apply(n, m, Spawn(role)), now) == Some(s) && NoSpawn(now)
    requires |s.threads| > |h| && !s.threads[|h|].pc.Done?
    ensures Proper(a) && Enabled(s, a)
  {
    StackLength(n, h, runs, m);
    NoneIsNothing(n, |Open(h)|);
    if Stuck(s) {
      JoinReturns(n, h, runs, m, role, now, s);
      assert false;
    }
    a :| Proper(a) && Enabled(s, a);
  }

  // ----- Every history is the run of some scheduler -----

  lemma CourseMore(n: nat, moves: seq<Move>, w: World, m: Move) returns (moves': seq<Move>, w': World)
    requires Course(n, moves) == Some(w) && Can(w, m)
    ensures Course(n, moves') == Some(w') && w' == Do(n, w, m)
  {
    CourseNext(n, moves, m);
    moves', w' := moves + [m], Do(n, w, m);
  }

  /** The worker in progress, once it has entered, can be run through any actions of the threads. */
  lemma {:induction false} WorkerRuns(n: nat, moves: seq<Move>, w: World, acts: seq<Action>, s: State)
    returns (moves': seq<Move>, w': World)
    requires Course(n, moves) == Some(w) && Busy(w) && w.main.t < |w.stages| && w.stages[w.main.t].Running?
    requires NoSpawn(acts) && Exec(n, w.base, acts) == Some(s)
    ensures Course(n, moves') == Some(w') && w' == w.(base := s, shown := w'.shown)
  {
    moves', w' := moves, w;
    if acts != [] {
      var k := |acts| - 1;
      moves', w' := WorkerRuns(n, moves, w, acts[..k], Exec(n, w.base, acts[..k]).value);
      Invariants(n, moves', w');
      OnlyWorker(w', acts[k]);
      moves', w' := CourseMore(n, moves', w', Act(acts[k]));
    }
  }

  /** Creation, entry, departure and join around the actions of one worker. */
  lemma WorkerLifts(n: nat, moves: seq<Move>, w: World, hire: Hire, acts: seq<Action>, s: State)
    returns (moves': seq<Move>, w': World)
    requires Course(n, moves) == Some(w) && w.main.AtRead?
    requires CommandHistories.Create(n, w.base, hire.role, acts) == Some(s) && AllDone(w.base)
    ensures Course(n, moves') == Some(w') && w'.main.AtRead? && w'.base == s && w'.log == w.log + [Begin(hire)]
  {
    Invariants(n, moves, w);
    moves', w' := CourseMore(n, moves, w, Read(Begin(hire)));
    var t := w'.main.t;
    moves', w' := CourseMore(n, moves', w', Tell);
    moves', w' := CourseMore(n, moves', w', Enter(t));
    moves', w' := WorkerRuns(n, moves', w', acts, s);
    moves', w' := CourseMore(n, moves', w', Leave(t));
    moves', w' := CourseMore(n, moves', w', Join);
  }

  /**
   The converse of `Histories`: whatever the requests, whatever the actions of the workers in their
   turns, spurious wake-ups included, some run of main and its workers reads these requests and goes
   through these actions.
   */
  lemma {:induction false} EveryHistoryHappens(n: nat, log: seq<Request>, runs: seq<seq<Action>>, s: State)
    returns (moves: seq<Move>, w: World)
    requires Quit !in log && |runs| == |Hires(log)| && Play(n, Roles(Hires(log)), runs) == Some(s)
    ensures Course(n, moves) == Some(w) && w.log == log && w.base == s && w.main.AtRead? && Can(w, Read(Quit))
  {
    if log == [] {
      moves, w := [], Beginning();
    } else {
      var before, r := log[..|log| - 1], log[|log| - 1];
      assert log == before + [r];
      if r.Begin? {
        var t, h := |runs| - 1, Roles(Hires(log));
        assert Roles(Hires(before)) == h[..t];
        moves, w := EveryHistoryHappens(n, before, runs[..t], Play(n, h[..t], runs[..t]).value);
        PlayQuiet(n, h[..t], runs[..t], w.base);
        moves, w := WorkerLifts(n, moves, w, r.hire, runs[t], s);
      } else {
        assert Hires(log) == Hires(before);
        moves, w := EveryHistoryHappens(n, before, runs, s);
        moves, w := CourseMore(n, moves, w, Read(r));
      }
    }
  }
}
