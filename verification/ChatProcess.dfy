/** The reader and sender processes of a chat user, with their message structs as byte arrays. */
module ChatProcess {
  import opened Positions
  import opened Wrappers
  import opened ChatQueue

  /** printf("%s") and strcmp read a string up to its zero byte, or to the end of the struct here. */
  method ReadString(a: array<Byte>, from: nat, to: nat) returns (s: seq<Byte>)
    requires from <= to <= a.Length
    ensures s == CString(a[from..to])
  {
    var i := from;
    while i < to && a[i] != 0
      invariant from <= i <= to && 0 !in a[from..i]
    {
      assert a[from..i + 1] == a[from..i] + [a[i]];
      i := i + 1;
    }
    s := a[from..i];
    assert a[from..to][..i - from] == s;
    CStringIs(a[from..to], i - from);
  }

  class Reader {
    const u: nat                      // which user this is
    const user: User
    const msgr: array<Byte>           // name and text of the received message
    var mtype: int
    var id: nat

    ghost predicate Valid()
      reads msgr
    {
      ValidUser(user) && msgr.Length == NAME + TEXT && msgr[SIZE..] == user.stale
    }

    /** The struct holds message `m`. */
    ghost predicate Has(m: Message)
      reads this, msgr
    {
      msgr.Length == NAME + TEXT && |m.payload| == SIZE && msgr[..SIZE] == m.payload && mtype == m.mtype && id == m.id
    }

    constructor (u: nat, user: User)
      requires ValidUser(user)
      ensures Valid() && this.u == u && this.user == user && fresh(msgr)
    {
      this.u, this.user := u, user;
      msgr := new Byte[NAME + TEXT](i requires 0 <= i < NAME + TEXT => if i < SIZE then 0 else user.stale[i - SIZE]);
      mtype, id := 0, 0;
    }

    /** The kernel copies 100 bytes over the struct; the last ten stay as they were. */
    method Fill(m: Message)
      requires Valid() && |m.payload| == SIZE
      modifies this, msgr
      ensures Valid() && Has(m)
    {
      var i := 0;
      while i < SIZE
        invariant 0 <= i <= SIZE && msgr[..i] == m.payload[..i] && msgr[SIZE..] == user.stale
      {
        msgr[i] := m.payload[i];
        i := i + 1;
      }
      mtype, id := m.mtype, m.id;
      assert m.payload[..SIZE] == m.payload;
    }

    /** msgrcv: take the first message the group number selects. */
    method Receive(queue: seq<Message>) returns (rest: seq<Message>)
      requires Valid() && Pick(user.group, queue, 0) < |queue|
      requires forall k :: 0 <= k < |queue| ==> |queue[k].payload| == SIZE
      modifies this, msgr
      ensures Valid() && Has(queue[Pick(user.group, queue, 0)])
      ensures rest == queue[..Pick(user.group, queue, 0)] + queue[Pick(user.group, queue, 0) + 1..]
    {
      var i := Pick(user.group, queue, 0);
      Fill(queue[i]);
      rest := queue[..i] + queue[i + 1..];
    }

    /** Put one's own message back, print any other: both from the struct. */
    method Deal(queue: seq<Message>, ghost m: Message) returns (queue': seq<Message>, line: Option<Printed>)
      requires Valid() && Has(m)
      ensures CString(Name(m.payload)) == CString(user.name) ==> queue' == queue + [m] && line == None
      ensures CString(Name(m.payload)) != CString(user.name) ==>
                && queue' == queue
                && line == Some(Printed(u, m.id, CString(Name(m.payload)), CString(Text(user, m.payload))))
    {
      var name := ReadString(msgr, 0, NAME);
      assert msgr[0..NAME] == msgr[..SIZE][..NAME] == Name(m.payload);
      if name == CString(user.name) {
        return queue + [Message(id, mtype, msgr[..SIZE])], None;
      }
      var text := ReadString(msgr, NAME, NAME + TEXT);
      assert msgr[NAME..NAME + TEXT] == msgr[..SIZE][NAME..] + msgr[SIZE..] == Text(user, m.payload);
      return queue, Some(Printed(u, id, name, text));
    }
  }

  class Sender {
    const user: User
    const mtext: array<Byte>

    ghost predicate Valid() {
      ValidUser(user) && mtext.Length == TEXT
    }

    constructor (user: User)
      requires ValidUser(user)
      ensures Valid() && this.user == user && fresh(mtext)
    {
      this.user := user;
      mtext := new Byte[TEXT];
    }

    /** fgets of a line of at most 99 bytes: the bytes after the terminating zero stay as they were. */
    method Fgets(line: seq<Byte>)
      requires Valid() && |line| < TEXT
      modifies mtext
      ensures mtext[..|line|] == line && mtext[|line|] == 0
      ensures forall k :: |line| < k < TEXT ==> mtext[k] == old(mtext[k])
    {
      var i := 0;
      while i < |line|
        invariant 0 <= i <= |line| && mtext[..i] == line[..i]
        invariant forall k :: i <= k < TEXT ==> mtext[k] == old(mtext[k])
      {
        mtext[i] := line[i];
        i := i + 1;
      }
      mtext[i] := 0;
      assert line[..i] == line;
    }

    /** msgsnd of 100 bytes: the name and the first 90 bytes of the text; refused for a group number below 1. */
    method Send(queue: seq<Message>, id: nat) returns (queue': seq<Message>, ok: bool)
      requires Valid()
      ensures ok <==> user.group > 0
      ensures queue' == if ok then queue + [Message(id, user.group, Payload(user, mtext[..]))] else queue
    {
      ok := user.group > 0;
      queue' := if ok then queue + [Message(id, user.group, user.name + mtext[..SIZE - NAME])] else queue;
      assert mtext[..][..SIZE - NAME] == mtext[..SIZE - NAME];
    }
  }

  // ----- All users on one queue -----

  /** What a process is scheduled to do: type a line and send it, receive, or deal with what it has received. */
  datatype Move = Type(u: nat, line: seq<Byte>) | Take(u: nat) | Answer(u: nat)

  /** The action that move `m` turns out to be. */
  ghost predicate Is(m: Move, a: Action) {
    match m
    case Type(u, line) => a.Send? && a.u == u && |line| < |a.mtext| && a.mtext[..|line|] == line && a.mtext[|line|] == 0
    case Take(u) => a == Receive(u)
    case Answer(u) => a == Deal(u)
  }

  /** fgets takes at most 99 bytes; msgrcv blocks while there is nothing to receive. */
  predicate CanMove(us: seq<User>, s: State, m: Move) {
    m.u < |us| &&
    match m
    case Type(_, line) => |line| < TEXT
    case Take(u) => u !in s.held && Pick(us[u].group, s.queue, 0) < |s.queue|
    case Answer(u) => u in s.held
  }

  /** A move that cannot be made, or has to wait: no such user or line, nothing to receive or to deal with. */
  ghost predicate Blocked(us: seq<User>, s: State, m: Move) {
    m.u >= |us| ||
    match m
    case Type(_, line) => |line| > 99
    case Take(u) => u in s.held || forall k :: 0 <= k < |s.queue| ==> !Selected(us[u].group, s.queue[k].mtype)
    case Answer(u) => u !in s.held
  }

  lemma BlockedOrNot(us: seq<User>, s: State, m: Move)
    ensures Blocked(us, s, m) <==> !CanMove(us, s, m)
  {
    if m.u < |us| && m.Take? {
      PickMeans(us[m.u].group, s.queue);
    }
  }

  /** `acts` is what the schedule `moves` comes to: a move that is blocked when its turn comes is passed over. */
  ghost predicate Follows(us: seq<User>, moves: seq<Move>, acts: seq<Action>)
    requires ValidUsers(us)
    decreases |moves|
  {
    if moves == [] then acts == [] else
      var before, m := moves[..|moves| - 1], moves[|moves| - 1];
      || (acts != [] && Is(m, acts[|acts| - 1]) && Follows(us, before, acts[..|acts| - 1]))
      || (Exec(us, acts).Some? && Blocked(us, Exec(us, acts).value, m) && Follows(us, before, acts))
  }

  class Room {
    const us: seq<User>
    const readers: seq<Reader>
    const senders: seq<Sender>
    var queue: seq<Message>
    var printed: seq<Printed>
    var sent: seq<Sent>
    var held: map<nat, Message>       // the messages of the readers between msgrcv and their answer

    /** Every user has a reader and a sender, and no two readers share a struct with anybody. */
    ghost predicate Apart() {
      && ValidUsers(us) && |readers| == |senders| == |us|
      && (forall i :: 0 <= i < |us| ==> readers[i].u == i && readers[i].user == us[i] && senders[i].user == us[i])
      && (forall i, j :: 0 <= i < j < |us| ==> readers[i] != readers[j] && readers[i].msgr != readers[j].msgr)
      && (forall i, j :: 0 <= i < |us| && 0 <= j < |us| ==> readers[i].msgr != senders[j].mtext)
    }

    function Now(): State
      reads this
    {
      State(queue, held, printed, sent)
    }

    ghost function Buffers(): set<array<Byte>> {
      (set r | r in readers :: r.msgr) + (set x | x in senders :: x.mtext)
    }

    ghost predicate Fit()
      requires Apart()
      reads set r | r in readers :: r.msgr
    {
      forall i :: 0 <= i < |us| ==> readers[i].Valid() && senders[i].Valid()
    }

    /** Each reader in `hands` has its message in its struct. */
    ghost predicate Loaded(hands: map<nat, Message>)
      requires Apart()
      reads readers, set r | r in readers :: r.msgr
    {
      forall i :: i in hands ==> i < |us| && readers[i].Has(hands[i])
    }

    /** And no message has been altered. */
    ghost predicate Valid()
      reads this, readers, set r | r in readers :: r.msgr
    {
      Apart() && Fit() && Loaded(held) && AllGenuine(us, Now())
    }

    constructor (us: seq<User>, readers: seq<Reader>, senders: seq<Sender>)
      requires ValidUsers(us) && |readers| == |senders| == |us|
      requires forall i :: 0 <= i < |us| ==> readers[i].u == i && readers[i].user == us[i] && senders[i].user == us[i]
      requires forall i, j :: 0 <= i < j < |us| ==> readers[i] != readers[j] && readers[i].msgr != readers[j].msgr
      requires forall i, j :: 0 <= i < |us| && 0 <= j < |us| ==> readers[i].msgr != senders[j].mtext
      requires forall i :: 0 <= i < |us| ==> readers[i].Valid() && senders[i].Valid()
      ensures Valid() && Now() == START && this.us == us && this.readers == readers && this.senders == senders
    {
      this.us, this.readers, this.senders := us, readers, senders;
      queue, printed, sent, held := [], [], [], map[];
    }

    /** fgets and msgsnd of user `u`: one message more, if the group number is positive. */
    method Type(u: nat, line: seq<Byte>) returns (ghost a: Action)
      requires Valid() && CanMove(us, Now(), Move.Type(u, line))
      modifies this, senders[u].mtext
      ensures Valid() && Is(Move.Type(u, line), a) && Enabled(us, old(Now()), a)
      ensures Now() == Apply(us, old(Now()), a)
      ensures printed == old(printed) && held == old(held)
      ensures if us[u].group > 0
              then && sent == old(sent) + [Sent(u, a.mtext)]
                   && |queue| == |old(queue)| + 1 && old(queue) <= queue && queue[|old(queue)|].id == |old(sent)|
              else sent == old(sent) && queue == old(queue)
    {
      senders[u].Fgets(line);
      a := Send(u, senders[u].mtext[..]);
      SendTyped(u);
    }

    method SendTyped(u: nat)
      requires Valid() && u < |us|
      modifies `queue, `sent
      ensures Valid() && Enabled(us, old(Now()), Send(u, senders[u].mtext[..]))
      ensures Now() == Apply(us, old(Now()), Send(u, senders[u].mtext[..]))
    {
      GenuineStep(us, Now(), Send(u, senders[u].mtext[..]));
      Msgsnd(u);
      assert Fit() && Loaded(held);
    }

    method Msgsnd(u: nat)
      requires Apart() && Fit() && Loaded(held) && u < |us|
      modifies `queue, `sent
      ensures Enabled(us, old(Now()), Send(u, senders[u].mtext[..]))
      ensures Now() == Apply(us, old(Now()), Send(u, senders[u].mtext[..]))
    {
      var ok;
      queue, ok := senders[u].Send(queue, |sent|);
      if ok { sent := sent + [Sent(u, senders[u].mtext[..])]; }
    }

    /** msgrcv of user `u`. */
    method Take(u: nat)
      requires Valid() && CanMove(us, Now(), Move.Take(u))
      modifies this, readers[u], readers[u].msgr
      ensures Valid() && Now() == Apply(us, old(Now()), Receive(u))
    {
      GenuineStep(us, Now(), Receive(u));
      TakeUp(u);
    }

    method TakeUp(u: nat)
      requires Apart() && Fit() && Loaded(held) && Sized(queue) && CanMove(us, Now(), Move.Take(u))
      modifies `queue, `held, readers[u], readers[u].msgr
      ensures Fit() && Loaded(held) && Now() == Apply(us, old(Now()), Receive(u))
    {
      ghost var before := held;
      Msgrcv(u);
      assert Fit();
      forall i | i in before && i != u
        ensures readers[i].Has(before[i])
      {
        assert old(readers[i].Has(before[i]));
      }
    }

    method Msgrcv(u: nat)
      requires u < |us| == |readers| && readers[u].user == us[u] && readers[u].Valid()
      requires CanMove(us, Now(), Move.Take(u))
      requires ValidUsers(us) && Sized(queue) && forall i :: i in held ==> |held[i].payload| == SIZE
      modifies `queue, `held, readers[u], readers[u].msgr
      ensures readers[u].Valid() && u in held && readers[u].Has(held[u]) && Now() == Apply(us, old(Now()), Receive(u))
    {
      held := held[u := queue[Pick(us[u].group, queue, 0)]];
      queue := readers[u].Receive(queue);
    }

    /** The message of user `u` put back, or printed. */
    method Answer(u: nat)
      requires Valid() && CanMove(us, Now(), Move.Answer(u))
      modifies this
      ensures Valid() && Now() == Apply(us, old(Now()), Deal(u))
    {
      GenuineStep(us, Now(), Deal(u));
      Respond(u);
      assert Fit() && Loaded(old(held));
    }

    method Respond(u: nat)
      requires Apart() && Fit() && Loaded(held) && CanMove(us, Now(), Move.Answer(u))
      modifies `queue, `held, `printed
      ensures Now() == Apply(us, old(Now()), Deal(u))
    {
      var queue', line := readers[u].Deal(queue, held[u]);
      DealIs(us, Now(), u, queue', line);
      queue, held := queue', held - {u};
      if line.Some? { printed := printed + [line.value]; }
    }

    /** One move, when its turn comes: performed, unless it is blocked. */
    method Perform(m: Move) returns (possible: bool, ghost taken: seq<Action>)
      requires Valid()
      modifies this, readers, Buffers()
      ensures Valid() && (possible <==> !Blocked(us, old(Now()), m))
      ensures possible ==> |taken| == 1 && Is(m, taken[0]) && Enabled(us, old(Now()), taken[0])
      ensures possible ==> Now() == Apply(us, old(Now()), taken[0])
      ensures !possible ==> taken == [] && Now() == old(Now())
    {
      BlockedOrNot(us, Now(), m);
      possible := CanMove(us, Now(), m);
      taken := [];
      if possible {
        ghost var a := Go(m);
        taken := [a];
      }
    }

    method Go(m: Move) returns (ghost a: Action)
      requires Valid() && CanMove(us, Now(), m)
      modifies this, readers, Buffers()
      ensures Valid() && Is(m, a) && Enabled(us, old(Now()), a) && Now() == Apply(us, old(Now()), a)
    {
      match m
      case Type(u, line) =>
        a := Type(u, line);
      case Take(u) =>
        a := Receive(u);
        Take(u);
      case Answer(u) =>
        a := Deal(u);
        Answer(u);
    }

    /**
     All processes under any scheduler: the queue and the print-outs are those of a run of the step
     system that follows the schedule, so every theorem about runs applies to the buffers too.
     */
    method Interleave(moves: seq<Move>) returns (ghost acts: seq<Action>)
      requires Valid() && Now() == START
      modifies this, readers, Buffers()
      ensures Valid() && Follows(us, moves, acts) && Exec(us, acts) == Some(Now())
    {
      acts := [];
      var k := 0;
      while k < |moves|
        invariant 0 <= k <= |moves| && Valid() && Follows(us, moves[..k], acts) && Exec(us, acts) == Some(Now())
      {
        var _, taken := Perform(moves[k]);
        FollowsNext(us, moves, k, acts, taken);
        acts := acts + taken;
        k := k + 1;
      }
      assert moves[..k] == moves;
    }
  }

  lemma DealIs(us: seq<User>, s: State, u: nat, queue': seq<Message>, line: Option<Printed>)
    requires ValidUsers(us) && CanMove(us, s, Move.Answer(u)) && forall v :: v in s.held ==> |s.held[v].payload| == SIZE
    requires var m := s.held[u];
      if CString(Name(m.payload)) == CString(us[u].name) then queue' == s.queue + [m] && line == None
      else && queue' == s.queue
           && line == Some(Printed(u, m.id, CString(Name(m.payload)), CString(Text(us[u], m.payload))))
    ensures Apply(us, s, Deal(u)) ==
            s.(queue := queue', held := s.held - {u},
               printed := if line.Some? then s.printed + [line.value] else s.printed)
  {
  }

  lemma FollowsNext(us: seq<User>, moves: seq<Move>, k: nat, acts: seq<Action>, taken: seq<Action>)
    requires ValidUsers(us) && k < |moves| && Follows(us, moves[..k], acts) && Exec(us, acts).Some?
    requires var s := Exec(us, acts).value;
      if Blocked(us, s, moves[k]) then taken == []
      else |taken| == 1 && Is(moves[k], taken[0]) && Enabled(us, s, taken[0])
    ensures Follows(us, moves[..k + 1], acts + taken)
    ensures Exec(us, acts + taken) ==
            if taken == [] then Exec(us, acts) else Some(Apply(us, Exec(us, acts).value, taken[0]))
  {
    assert moves[..k + 1][..k] == moves[..k];
    if taken == [] {
      assert acts + taken == acts;
    } else {
      assert taken == [taken[0]];
      assert (acts + taken)[..|acts|] == acts;
      ExecNext(us, acts, taken[0]);
    }
  }

  // ----- Lines arrive as typed -----

  lemma TypedString(mtext: seq<Byte>, line: seq<Byte>)
    requires |line| < |mtext| && mtext[..|line|] == line && mtext[|line|] == 0
    ensures CString(mtext) == CString(line)
  {
    var c := CString(line);
    assert mtext[..|c|] == line[..|c|] == c;
    assert |c| < |line| ==> mtext[|c|] == line[|c|];
    CStringIs(mtext, |c|);
  }

  /** `x` is the text buffer of user `m.u` after `m.line` was typed into it. */
  predicate Carries(m: Move, x: Sent) {
    && m.Type? && m.u == x.sender && |m.line| < |x.mtext|
    && x.mtext[..|m.line|] == m.line && x.mtext[|m.line|] == 0
  }

  /** A line that fgets takes whole, of a user whose group number msgsnd accepts. */
  predicate Sendable(us: seq<User>, m: Move) {
    m.Type? && m.u < |us| && us[m.u].group > 0 && |m.line| <= 99
  }

  /** `idx` lists the sendable lines of the schedule, in order, and `sent` carries them one by one. */
  ghost predicate AllSent(us: seq<User>, moves: seq<Move>, sent: seq<Sent>, idx: seq<nat>) {
    && Increasing(idx) && Below(idx, |moves|) && |idx| == |sent|
    && (forall k :: 0 <= k < |moves| ==> (k in idx <==> Sendable(us, moves[k])))
    && forall j :: 0 <= j < |idx| ==> Carries(moves[idx[j]], sent[j])
  }

  /**
   Under any scheduler the messages sent are exactly the lines of at most 99 bytes that users with a
   positive group number have typed, one message for each, in the order of the schedule.
   */
  lemma {:induction false} EveryLineIsSent(us: seq<User>, moves: seq<Move>, acts: seq<Action>, s: State)
    returns (idx: seq<nat>)
    requires ValidUsers(us) && Follows(us, moves, acts) && Exec(us, acts) == Some(s)
    ensures AllSent(us, moves, s.sent, idx)
    decreases |moves|
  {
    idx := [];
    if moves != [] {
      var k := |moves| - 1;
      var before, m := moves[..k], moves[k];
      if acts != [] && Is(m, acts[|acts| - 1]) && Follows(us, before, acts[..|acts| - 1]) {
        var r, a := Exec(us, acts[..|acts| - 1]).value, acts[|acts| - 1];
        idx := EveryLineIsSent(us, before, acts[..|acts| - 1], r);
        SentBy(us, r, m, a);
        AllSentMore(us, moves, r.sent, idx);
        if Sendable(us, m) { idx := idx + [k]; }
      } else {
        idx := EveryLineIsSent(us, before, acts, s);
        AllSentMore(us, moves, s.sent, idx);
      }
    }
  }

  lemma SentBy(us: seq<User>, s: State, m: Move, a: Action)
    requires ValidUsers(us) && AllGenuine(us, s) && Enabled(us, s, a) && Is(m, a)
    ensures Apply(us, s, a).sent == if Sendable(us, m) then s.sent + [Sent(m.u, a.mtext)] else s.sent
    ensures Sendable(us, m) ==> a.Send? && Carries(m, Sent(m.u, a.mtext))
  {
  }

  lemma AllSentMore(us: seq<User>, moves: seq<Move>, sent: seq<Sent>, idx: seq<nat>)
    requires moves != [] && AllSent(us, moves[..|moves| - 1], sent, idx)
    ensures var k := |moves| - 1;
      if Sendable(us, moves[k])
      then forall x :: Carries(moves[k], x) ==> AllSent(us, moves, sent + [x], idx + [k])
      else AllSent(us, moves, sent, idx)
  {
    var k := |moves| - 1;
    Later(idx, k);
    assert forall j :: 0 <= j < k ==> moves[..k][j] == moves[j];
  }

  /** Some move of the schedule is user `x.sender` typing the line that `x` carries. */
  ghost predicate Typed(moves: seq<Move>, x: Sent) {
    exists k :: 0 <= k < |moves| && Carries(moves[k], x) && CString(moves[k].line) == CString(x.mtext)
  }

  /**
   Under any scheduler a line of at most 89 characters that is printed is a line that was typed, byte
   for byte, under the name of the user who typed it; and one's own lines are never printed.
   */
  lemma LinesArriveAsTyped(us: seq<User>, moves: seq<Move>, acts: seq<Action>, s: State, k: nat)
    requires ValidUsers(us) && Follows(us, moves, acts) && Exec(us, acts) == Some(s) && k < |s.printed|
    ensures var p := s.printed[k];
      && p.id < |s.sent| && s.sent[p.id].sender < |us| && p.reader < |us| && Typed(moves, s.sent[p.id])
      && p.name == CString(us[s.sent[p.id].sender].name) != CString(us[p.reader].name)
      && (|CString(s.sent[p.id].mtext)| <= 89 ==> p.text == CString(s.sent[p.id].mtext))
  {
    ShortTextsArrive(us, acts, s, k);
    PrintedIsProper(us, acts, s);
    assert Proper(us, s.sent, s.printed[k]);
    var idx := EveryLineIsSent(us, moves, acts, s);
    var id := s.printed[k].id;
    TypedString(s.sent[id].mtext, moves[idx[id]].line);
    assert Carries(moves[idx[id]], s.sent[id]);
  }
}
