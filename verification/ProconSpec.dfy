/**
 The command loop on values: commands in order, each worker run between its creation and its join,
 and the registries of finished workers.  `LoopAgreesWithThreads` ties it to the threads of
 `CommandHistories`.
 */
module ProconSpec {
  import opened Wrappers
  import opened ProdConsSteps
  import opened ProdConsHistory
  import opened CommandHistories

  type Id = nat

  const SLOTS: nat := 1024    // entries of a registry

  /** `nums` are the numbers a producer will draw, `self` the id of the new thread. */
  datatype Command =
    | CreateProducer(self: Id, nums: seq<int>)
    | CreateConsumer(self: Id)
    | ListProducers
    | ListConsumers
    | Exit
    | Other

  datatype Reply = TheId(id: Id) | UnknownCommand

  /** Reading the next command, waiting in a join for ever, or gone. */
  datatype Status = Reading | Joining | Exited

  datatype Loop = Loop(
    stack: seq<int>, producers: seq<Id>, consumers: seq<Id>,
    eaten: seq<(Id, seq<int>)>, replies: seq<Reply>, status: Status)

  const FRESH := Loop([], [], [], [], [], Reading)

  /** One reply for each id, in the order of the registry. */
  function Listing(ids: seq<Id>): (r: seq<Reply>)
    ensures |r| == |ids| && forall k :: 0 <= k < |ids| ==> r[k] == TheId(ids[k])
  {
    if ids == [] then [] else Listing(ids[..|ids| - 1]) + [TheId(ids[|ids| - 1])]
  }

  /** A consumer that finds fewer than `n` items takes them all and waits. */
  function Handle(n: nat, l: Loop, c: Command): Loop {
    if !l.status.Reading? then l else
      match c
      case CreateProducer(self, nums) => l.(stack := Reverse(nums) + l.stack, producers := l.producers + [self])
      case CreateConsumer(self) =>
        if |l.stack| < n
        then l.(stack := [], eaten := l.eaten + [(self, l.stack)], status := Joining)
        else l.(stack := l.stack[n..], eaten := l.eaten + [(self, l.stack[..n])], consumers := l.consumers + [self])
      case ListProducers => l.(replies := l.replies + Listing(l.producers))
      case ListConsumers => l.(replies := l.replies + Listing(l.consumers))
      case Exit => l.(status := Exited)
      case Other => l.(replies := l.replies + [UnknownCommand])
  }

  function Handled(n: nat, cmds: seq<Command>): Loop {
    if cmds == [] then FRESH else Handle(n, Handled(n, cmds[..|cmds| - 1]), cmds[|cmds| - 1])
  }

  lemma {:induction false} HandledStays(n: nat, cmds: seq<Command>, k: nat)
    requires k <= |cmds| && !Handled(n, cmds[..k]).status.Reading?
    ensures Handled(n, cmds) == Handled(n, cmds[..k])
  {
    if k == |cmds| {
      assert cmds[..k] == cmds;
    } else {
      assert cmds[..|cmds| - 1][..k] == cmds[..k];
      HandledStays(n, cmds[..|cmds| - 1], k);
    }
  }

  // ----- The registries -----

  /** The ids of the producers, or consumers, that `cmds` create, in order. */
  function Created(cmds: seq<Command>, role: Role): seq<Id> {
    if cmds == [] then [] else
      var c := cmds[|cmds| - 1];
      Created(cmds[..|cmds| - 1], role) +
        if c.CreateProducer? && role.Producer? then [c.self]
        else if c.CreateConsumer? && role.Consumer? then [c.self]
        else []
  }

  /** The replies owed to `cmds`: each list command gets the ids created before it. */
  function Owed(cmds: seq<Command>): seq<Reply> {
    if cmds == [] then [] else
      var before := cmds[..|cmds| - 1];
      Owed(before) +
        match cmds[|cmds| - 1]
        case ListProducers => Listing(Created(before, Producer))
        case ListConsumers => Listing(Created(before, Consumer))
        case Other => [UnknownCommand]
        case _ => []
  }

  /** While the loop is reading, the registries hold every created worker in creation order. */
  lemma {:induction false} Registries(n: nat, cmds: seq<Command>)
    requires Handled(n, cmds).status.Reading?
    ensures Handled(n, cmds).producers == Created(cmds, Producer)
    ensures Handled(n, cmds).consumers == Created(cmds, Consumer)
    ensures Handled(n, cmds).replies == Owed(cmds)
  {
    if cmds != [] {
      var before := cmds[..|cmds| - 1];
      Registries(n, before);
      RegistryStep(n, Handled(n, before), cmds[|cmds| - 1]);
    }
  }

  lemma RegistryStep(n: nat, l: Loop, c: Command)
    requires l.status.Reading? && Handle(n, l, c).status.Reading?
    ensures Handle(n, l, c).producers == l.producers + if c.CreateProducer? then [c.self] else []
    ensures Handle(n, l, c).consumers == l.consumers + if c.CreateConsumer? then [c.self] else []
    ensures Handle(n, l, c).replies == l.replies +
              match c
              case ListProducers => Listing(l.producers)
              case ListConsumers => Listing(l.consumers)
              case Other => [UnknownCommand]
              case _ => []
  {
  }

  // ----- The program order of the workers does not matter -----

  /** The thread that a create request starts. */
  datatype Hire = Hire(role: Role, self: Id)

  /** What main reads. */
  datatype Request = Begin(hire: Hire) | Ask(role: Role) | Quit | Garbage

  function Hires(log: seq<Request>): seq<Hire> {
    if log == [] then [] else
      Hires(log[..|log| - 1]) + if log[|log| - 1].Begin? then [log[|log| - 1].hire] else []
  }

  function Roles(hires: seq<Hire>): (h: seq<Role>)
    ensures |h| == |hires|
  {
    seq(|hires|, j requires 0 <= j < |hires| => hires[j].role)
  }

  /** The command for request `r`; a producer draws the numbers that thread `t` printed in `out`. */
  function CommandFor(r: Request, t: Tid, out: seq<Line>): Command {
    match r
    case Begin(Hire(Producer, self)) => CreateProducer(self, ProducedBy(out, t))
    case Begin(Hire(Consumer, self)) => CreateConsumer(self)
    case Ask(Producer) => ListProducers
    case Ask(Consumer) => ListConsumers
    case Quit => Exit
    case Garbage => Other
  }

  function Commands(log: seq<Request>, out: seq<Line>): (cmds: seq<Command>)
    ensures |cmds| == |log|
  {
    if log == [] then [] else
      var before := log[..|log| - 1];
      Commands(before, out) + [CommandFor(log[|log| - 1], |Hires(before)|, out)]
  }

  /** What the consumers among `hires` printed, in creation order. */
  function Meals(hires: seq<Hire>, out: seq<Line>): seq<(Id, seq<int>)> {
    if hires == [] then [] else
      var t := |hires| - 1;
      Meals(hires[..t], out) + if hires[t].role.Consumer? then [(hires[t].self, ConsumedBy(out, t))] else []
  }

  /** The print-outs `out'` agree with `out` on the threads below `t`. */
  ghost predicate SameLines(out: seq<Line>, out': seq<Line>, t: Tid) {
    forall j :: 0 <= j < t ==> ProducedBy(out', j) == ProducedBy(out, j) && ConsumedBy(out', j) == ConsumedBy(out, j)
  }

  lemma {:induction false} MealsSame(hires: seq<Hire>, out: seq<Line>, out': seq<Line>)
    requires SameLines(out, out', |hires|)
    ensures Meals(hires, out') == Meals(hires, out)
  {
    if hires != [] {
      MealsSame(hires[..|hires| - 1], out, out');
    }
  }

  lemma {:induction false} CommandsSame(log: seq<Request>, out: seq<Line>, out': seq<Line>)
    requires SameLines(out, out', |Hires(log)|)
    ensures Commands(log, out') == Commands(log, out)
  {
    if log != [] {
      CommandsSame(log[..|log| - 1], out, out');
    }
  }

  lemma AloneKeepsLines(m: State, role: Role, s: State)
    requires Alone(m, role, s)
    ensures SameLines(m.out, s.out, |m.threads|)
  {
    forall j | 0 <= j < |m.threads|
      ensures ProducedBy(s.out, j) == ProducedBy(m.out, j) && ConsumedBy(s.out, j) == ConsumedBy(m.out, j)
    {
      OthersKeepTheirLines(m, role, s, j);
    }
  }

  /**
   However the threads of a completed history interleaved, stack and print-outs are those of the
   sequential loop that runs each worker from its creation to its join.
   */
  lemma {:induction false} LoopAgreesWithThreads(n: nat, log: seq<Request>, runs: seq<seq<Action>>, s: State)
    requires Quit !in log && |runs| == |Hires(log)| && Play(n, Roles(Hires(log)), runs) == Some(s)
    ensures var l := Handled(n, Commands(log, s.out));
      l.status.Reading? && l.stack == Content(s) && l.eaten == Meals(Hires(log), s.out)
    decreases |log|, 1
  {
    if log != [] {
      var k := |log| - 1;
      if log[k].Begin? {
        LoopAgreesCreate(n, log, runs, s);
      } else {
        assert Hires(log) == Hires(log[..k]);
        LoopAgreesWithThreads(n, log[..k], runs, s);
      }
    }
  }

  lemma {:induction false} LoopAgreesCreate(n: nat, log: seq<Request>, runs: seq<seq<Action>>, s: State)
    requires Quit !in log && |runs| == |Hires(log)| && Play(n, Roles(Hires(log)), runs) == Some(s)
    requires log != [] && log[|log| - 1].Begin?
    ensures var l := Handled(n, Commands(log, s.out));
      l.status.Reading? && l.stack == Content(s) && l.eaten == Meals(Hires(log), s.out)
    decreases |log|, 0
  {
    var before, t := log[..|log| - 1], |runs| - 1;
    var h := Roles(Hires(log));
    assert Roles(Hires(before)) == h[..t];
    var m := Play(n, h[..t], runs[..t]).value;
    LoopAgreesWithThreads(n, before, runs[..t], m);
    PlayQuiet(n, h[..t], runs[..t], m);
    CreateQuiet(n, h[..t], m, h[t], runs[t], s);
    AloneKeepsLines(m, h[t], s);
    CommandsSame(before, m.out, s.out);
    MealsSame(Hires(before), m.out, s.out);
    OneMore(n, h, runs, m, s);
    var hire := log[|log| - 1].hire;
    HandleBegin(n, Handled(n, Commands(before, s.out)), hire, t, m, s);
    assert Hires(log)[..t] == Hires(before);
  }

  lemma HandleBegin(n: nat, l: Loop, hire: Hire, t: Tid, m: State, s: State)
    requires l.status.Reading? && l.stack == Content(m)
    requires if hire.role.Producer?
             then Content(s) == Reverse(ProducedBy(s.out, t)) + Content(m)
             else |Content(m)| >= n && ConsumedBy(s.out, t) == Content(m)[..n] && Content(s) == Content(m)[n..]
    ensures var l' := Handle(n, l, CommandFor(Begin(hire), t, s.out));
      && l'.status.Reading? && l'.stack == Content(s)
      && l'.eaten == l.eaten + if hire.role.Consumer? then [(hire.self, ConsumedBy(s.out, t))] else []
  {
  }

  lemma OneMore(n: nat, h: seq<Role>, runs: seq<seq<Action>>, m: State, s: State)
    requires h != [] && |h| == |runs| && Play(n, h[..|h| - 1], runs[..|h| - 1]) == Some(m)
    requires Create(n, m, h[|h| - 1], runs[|h| - 1]) == Some(s)
    requires |m.threads| == |h| - 1 && Alone(m, h[|h| - 1], s)
    ensures if h[|h| - 1].Producer?
            then Content(s) == Reverse(ProducedBy(s.out, |h| - 1)) + Content(m)
            else |Content(m)| >= n && ConsumedBy(s.out, |h| - 1) == Content(m)[..n] && Content(s) == Content(m)[n..]
  {
    var k := |h| - 1;
    PlaySound(n, h[..k], runs[..k], m);
    CreateSound(n, m, h[k], runs[k], s);
    if h[k].Producer? { ProducerEffect(n, m, s); } else { ConsumerEffect(n, m, s); }
  }
}
