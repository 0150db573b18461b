/**
 The chat room on one System V message queue.  Every user has a reader process and a sender process.
 A reader takes the next message its group number selects; its own messages it puts back, the others
 it prints.  Any number of users and groups run interleaved; the queue is unbounded.

 A message is its type and 100 bytes: the 10-byte name and the first 90 bytes of the 100-byte text
 buffer.  The last 10 bytes of a reader's text buffer are therefore never received.
 */
module ChatQueue {
  import opened Wrappers

  type Byte = b: int | 0 <= b < 256

  const NAME: nat := 10
  const TEXT: nat := 100
  const SIZE: nat := 100    // bytes per message

  /** `name` is the whole name field; `stale` what the reader's last 10 text bytes happen to hold. */
  datatype User = User(group: int, name: seq<Byte>, stale: seq<Byte>)

  /** `id` numbers the successful sends; the programs never see it. */
  datatype Message = Message(id: nat, mtype: int, payload: seq<Byte>)

  datatype Printed = Printed(reader: nat, id: nat, name: seq<Byte>, text: seq<Byte>)

  datatype Sent = Sent(sender: nat, mtext: seq<Byte>)

  /** `held[u]` is the message reader `u` has received and not yet dealt with. */
  datatype State = State(queue: seq<Message>, held: map<nat, Message>, printed: seq<Printed>, sent: seq<Sent>)

  datatype Action =
    | Send(u: nat, mtext: seq<Byte>)     // fgets filled the text buffer; msgsnd
    | Receive(u: nat)                    // msgrcv
    | Deal(u: nat)                       // put back or print

  const START := State([], map[], [], [])

  predicate ValidUser(x: User) {
    |x.name| == NAME && 0 in x.name && |x.stale| == TEXT + NAME - SIZE
  }

  predicate ValidUsers(us: seq<User>) {
    forall u :: 0 <= u < |us| ==> ValidUser(us[u])
  }

  /** The C string at the start of `b`: up to the first zero byte. */
  function CString(b: seq<Byte>): (s: seq<Byte>)
    ensures |s| <= |b| && s == b[..|s|] && 0 !in s
    ensures |s| < |b| ==> b[|s|] == 0
  {
    if b == [] || b[0] == 0 then [] else [b[0]] + CString(b[1..])
  }

  /** Whether msgrcv with message type argument `group` may take a message of type `mtype` from `queue`. */
  predicate Selects(group: int, mtype: int, queue: seq<Message>) {
    if group > 0 then mtype == group
    else if group == 0 then true
    else mtype <= -group && forall k :: 0 <= k < |queue| ==> mtype <= queue[k].mtype
  }

  /** The first message msgrcv would take, or the length of the queue when it would block. */
  function Pick(group: int, queue: seq<Message>, from: nat): (i: nat)
    requires from <= |queue|
    ensures from <= i <= |queue|
    ensures i < |queue| ==> Selects(group, queue[i].mtype, queue)
    ensures forall k :: from <= k < i ==> !Selects(group, queue[k].mtype, queue)
    decreases |queue| - from
  {
    if from == |queue| || Selects(group, queue[from].mtype, queue) then from else Pick(group, queue, from + 1)
  }

  /** What a reader of `group` can ever have received. */
  predicate Selected(group: int, mtype: int) {
    if group > 0 then mtype == group else group == 0 || mtype <= -group
  }

  lemma {:induction false} Lowest(queue: seq<Message>) returns (k: nat)
    requires queue != []
    ensures k < |queue| && forall j :: 0 <= j < |queue| ==> queue[k].mtype <= queue[j].mtype
  {
    k := 0;
    if |queue| > 1 {
      var n := |queue| - 1;
      k := Lowest(queue[..n]);
      assert forall j :: 0 <= j < n ==> queue[..n][j] == queue[j];
      if queue[n].mtype < queue[k].mtype {
        k := n;
      }
    }
  }

  /**
   msgrcv finds a message exactly when some queued message is for the group: the first one of that type
   for a positive group number, the first of all for 0, and for a negative one the first of the lowest
   type, which is not above its absolute value.
   */
  lemma PickMeans(group: int, queue: seq<Message>)
    ensures var i := Pick(group, queue, 0);
      && (i < |queue| <==> exists k :: 0 <= k < |queue| && Selected(group, queue[k].mtype))
      && (i < |queue| ==> Selected(group, queue[i].mtype))
      && (i < |queue| && group > 0 ==> forall k :: 0 <= k < i ==> queue[k].mtype != group)
      && (i < |queue| && group == 0 ==> i == 0)
      && (i < |queue| && group < 0 ==>
            && (forall k :: 0 <= k < |queue| ==> queue[i].mtype <= queue[k].mtype)
            && (forall k :: 0 <= k < i ==> queue[i].mtype < queue[k].mtype))
  {
    var i := Pick(group, queue, 0);
    if queue != [] && group < 0 {
      var low := Lowest(queue);
      assert queue[low].mtype <= -group ==> Selects(group, queue[low].mtype, queue);
    }
    if k :| 0 <= k < |queue| && Selected(group, queue[k].mtype) && group >= 0 {
      assert Selects(group, queue[k].mtype, queue);
    }
  }

  predicate Enabled(us: seq<User>, s: State, a: Action) {
    a.u < |us| &&
    match a
    case Send(_, mtext) => |mtext| == TEXT
    case Receive(u) => u !in s.held && Pick(us[u].group, s.queue, 0) < |s.queue|
    case Deal(u) => u in s.held
  }

  /** What a reader's struct holds after receiving `payload`. */
  function Name(payload: seq<Byte>): seq<Byte>
    requires |payload| == SIZE
  {
    payload[..NAME]
  }

  function Text(x: User, payload: seq<Byte>): seq<Byte>
    requires |payload| == SIZE
  {
    payload[NAME..] + x.stale
  }

  function Payload(x: User, mtext: seq<Byte>): seq<Byte>
    requires |x.name| == NAME && |mtext| == TEXT
  {
    x.name + mtext[..SIZE - NAME]
  }

  /** msgsnd refuses a message type that is not positive. */
  function Apply(us: seq<User>, s: State, a: Action): State
    requires ValidUsers(us) && Enabled(us, s, a)
    requires forall u :: u in s.held ==> |s.held[u].payload| == SIZE
  {
    match a
    case Send(u, mtext) =>
      if us[u].group <= 0 then s else
        s.(queue := s.queue + [Message(|s.sent|, us[u].group, Payload(us[u], mtext))],
           sent := s.sent + [Sent(u, mtext)])
    case Receive(u) =>
      var i := Pick(us[u].group, s.queue, 0);
      s.(queue := s.queue[..i] + s.queue[i + 1..], held := s.held[u := s.queue[i]])
    case Deal(u) =>
      var m := s.held[u];
      if CString(Name(m.payload)) == CString(us[u].name)
      then s.(queue := s.queue + [m], held := s.held - {u})
      else s.(printed := s.printed + [Printed(u, m.id, CString(Name(m.payload)), CString(Text(us[u], m.payload)))],
              held := s.held - {u})
  }

  /** The message as its sender composed it. */
  predicate Genuine(us: seq<User>, sent: seq<Sent>, m: Message) {
    m.id < |sent| &&
    var x := sent[m.id];
    && x.sender < |us| && |us[x.sender].name| == NAME && |x.mtext| == TEXT
    && m.mtype == us[x.sender].group > 0
    && m.payload == Payload(us[x.sender], x.mtext)
  }

  /** No message in the queue or in a reader's hands is altered by any number of re-queues. */
  ghost predicate AllGenuine(us: seq<User>, s: State) {
    && (forall k :: 0 <= k < |s.queue| ==> Genuine(us, s.sent, s.queue[k]))
    && (forall u :: u in s.held ==>
                      Genuine(us, s.sent, s.held[u]) && u < |us| && Selected(us[u].group, s.held[u].mtype))
  }

  function Exec(us: seq<User>, acts: seq<Action>): (r: Option<State>)
    requires ValidUsers(us)
    ensures r.Some? ==> AllGenuine(us, r.value)
  {
    if acts == [] then Some(START) else
      match Exec(us, acts[..|acts| - 1])
      case None => None
      case Some(s) =>
        var a := acts[|acts| - 1];
        if !Enabled(us, s, a) then None else
          GenuineStep(us, s, a);
          Some(Apply(us, s, a))
  }

  lemma GenuineStep(us: seq<User>, s: State, a: Action)
    requires ValidUsers(us) && AllGenuine(us, s) && Enabled(us, s, a)
    ensures AllGenuine(us, Apply(us, s, a))
  {
    match a
    case Send(u, mtext) => GenuineSend(us, s, u, mtext);
    case Receive(_) =>
    case Deal(_) =>
  }

  lemma GenuineSend(us: seq<User>, s: State, u: nat, mtext: seq<Byte>)
    requires ValidUsers(us) && AllGenuine(us, s) && Enabled(us, s, Send(u, mtext))
    ensures AllGenuine(us, Apply(us, s, Send(u, mtext)))
  {
    assert s.sent <= Apply(us, s, Send(u, mtext)).sent;
  }

  // ----- Conservation -----

  function InQueue(id: nat, queue: seq<Message>): nat {
    if queue == [] then 0 else (if queue[0].id == id then 1 else 0) + InQueue(id, queue[1..])
  }

  function InPrint(id: nat, printed: seq<Printed>): nat {
    if printed == [] then 0 else
      InPrint(id, printed[..|printed| - 1]) + if printed[|printed| - 1].id == id then 1 else 0
  }

  /** Readers below `k` that hold message `id`. */
  function InHands(id: nat, held: map<nat, Message>, k: nat): nat {
    if k == 0 then 0 else InHands(id, held, k - 1) + if k - 1 in held && held[k - 1].id == id then 1 else 0
  }

  lemma {:induction false} QueueConcat(id: nat, p: seq<Message>, q: seq<Message>)
    ensures InQueue(id, p + q) == InQueue(id, p) + InQueue(id, q)
  {
    if p == [] {
      assert p + q == q;
    } else {
      assert (p + q)[1..] == p[1..] + q;
      QueueConcat(id, p[1..], q);
    }
  }

  lemma QueueTake(id: nat, q: seq<Message>, i: nat)
    requires i < |q|
    ensures InQueue(id, q) == InQueue(id, q[..i] + q[i + 1..]) + if q[i].id == id then 1 else 0
  {
    assert q == q[..i] + ([q[i]] + q[i + 1..]);
    QueueConcat(id, q[..i], [q[i]] + q[i + 1..]);
    QueueConcat(id, [q[i]], q[i + 1..]);
    QueueConcat(id, q[..i], q[i + 1..]);
  }

  lemma {:induction false} HandsChange(id: nat, held: map<nat, Message>, held': map<nat, Message>, k: nat, u: nat)
    requires forall x :: 0 <= x < k && x != u ==> (x in held <==> x in held') && (x in held ==> held[x] == held'[x])
    ensures InHands(id, held', k) + (if u < k && u in held && held[u].id == id then 1 else 0)
         == InHands(id, held, k) + (if u < k && u in held' && held'[u].id == id then 1 else 0)
  {
    if k > 0 {
      HandsChange(id, held, held', k - 1, u);
    }
  }

  ghost predicate Once(us: seq<User>, s: State, id: nat) {
    InQueue(id, s.queue) + InHands(id, s.held, |us|) + InPrint(id, s.printed) == if id < |s.sent| then 1 else 0
  }

  lemma OnceSend(us: seq<User>, s: State, a: Action, id: nat)
    requires a.Send? && ValidUsers(us) && AllGenuine(us, s) && Enabled(us, s, a) && Once(us, s, id)
    ensures Once(us, Apply(us, s, a), id)
  {
    if us[a.u].group > 0 {
      QueueConcat(id, s.queue, [Message(|s.sent|, us[a.u].group, Payload(us[a.u], a.mtext))]);
    }
  }

  lemma OnceReceive(us: seq<User>, s: State, a: Action, id: nat)
    requires a.Receive? && ValidUsers(us) && AllGenuine(us, s) && Enabled(us, s, a) && Once(us, s, id)
    ensures Once(us, Apply(us, s, a), id)
  {
    HandsChange(id, s.held, Apply(us, s, a).held, |us|, a.u);
    QueueTake(id, s.queue, Pick(us[a.u].group, s.queue, 0));
  }

  lemma OnceDeal(us: seq<User>, s: State, a: Action, id: nat)
    requires a.Deal? && ValidUsers(us) && AllGenuine(us, s) && Enabled(us, s, a) && Once(us, s, id)
    ensures Once(us, Apply(us, s, a), id)
  {
    HandsChange(id, s.held, s.held - {a.u}, |us|, a.u);
    QueueConcat(id, s.queue, [s.held[a.u]]);
    PrintAppend(id, s.printed, Apply(us, s, a).printed);
  }

  lemma PrintAppend(id: nat, p: seq<Printed>, p': seq<Printed>)
    requires p <= p' && |p'| <= |p| + 1
    ensures InPrint(id, p') == InPrint(id, p) + if |p'| > |p| && p'[|p|].id == id then 1 else 0
  {
    if |p'| == |p| { assert p' == p; } else { assert p'[..|p|] == p; }
  }

  lemma OnceStep(us: seq<User>, s: State, a: Action, id: nat)
    requires ValidUsers(us) && AllGenuine(us, s) && Enabled(us, s, a) && Once(us, s, id)
    ensures Once(us, Apply(us, s, a), id)
  {
    match a
    case Send(_, _) => OnceSend(us, s, a, id);
    case Receive(_) => OnceReceive(us, s, a, id);
    case Deal(_) => OnceDeal(us, s, a, id);
  }

  /**
   Conservation: in every interleaving each message successfully sent is in exactly one place, the
   queue, one reader's hands, or the print-outs; so none is lost and none is printed twice.
   */
  lemma {:induction false} Conservation(us: seq<User>, acts: seq<Action>, s: State, id: nat)
    requires ValidUsers(us) && Exec(us, acts) == Some(s)
    ensures InQueue(id, s.queue) + InHands(id, s.held, |us|) + InPrint(id, s.printed) == if id < |s.sent| then 1 else 0
  {
    if acts == [] {
      NoHands(id, |us|);
    } else {
      var k := |acts| - 1;
      Conservation(us, acts[..k], Exec(us, acts[..k]).value, id);
      OnceStep(us, Exec(us, acts[..k]).value, acts[k], id);
    }
  }

  lemma {:induction false} NoHands(id: nat, k: nat)
    ensures InHands(id, map[], k) == 0
  {
    if k > 0 {
      NoHands(id, k - 1);
    }
  }

  // ----- What is printed -----

  /** A print-out shows a message of somebody with another name, selected by the reader's group number. */
  ghost predicate Proper(us: seq<User>, sent: seq<Sent>, p: Printed) {
    p.id < |sent| && p.reader < |us| &&
    var x := sent[p.id];
    && x.sender < |us| && us[x.sender].group > 0 && |us[x.sender].name| == NAME && |x.mtext| == TEXT
    && CString(us[x.sender].name) != CString(us[p.reader].name)
    && Selected(us[p.reader].group, us[x.sender].group)
    && p.name == CString(us[x.sender].name)
    && p.text == CString(x.mtext[..SIZE - NAME] + us[p.reader].stale)
  }

  lemma {:induction false} PrintedIsProper(us: seq<User>, acts: seq<Action>, s: State)
    requires ValidUsers(us) && Exec(us, acts) == Some(s)
    ensures forall k :: 0 <= k < |s.printed| ==> Proper(us, s.sent, s.printed[k])
  {
    if acts != [] {
      var k := |acts| - 1;
      var m, a := Exec(us, acts[..k]).value, acts[k];
      PrintedIsProper(us, acts[..k], m);
      assert m.sent <= s.sent;
      if a.Deal? {
        var h := m.held[a.u];
        var x := m.sent[h.id];
        assert Name(h.payload) == us[x.sender].name && h.payload[NAME..] == x.mtext[..SIZE - NAME];
      }
    }
  }

  /** A reader prints a message of its own group exactly when its group number is positive. */
  lemma GroupsAreSeparate(us: seq<User>, acts: seq<Action>, s: State, k: nat)
    requires ValidUsers(us) && Exec(us, acts) == Some(s) && k < |s.printed|
    ensures var p := s.printed[k];
      && p.reader < |us| && p.id < |s.sent| && s.sent[p.id].sender < |us|
      && (us[s.sent[p.id].sender].group == us[p.reader].group <==> us[p.reader].group > 0)
  {
    PrintedIsProper(us, acts, s);
    assert Proper(us, s.sent, s.printed[k]);
  }

  /** Group numbers 0 and below do read foreign messages: one message, received and printed. */
  lemma ForeignMessagePrinted(us: seq<User>, u: nat, v: nat, mtext: seq<Byte>)
    requires ValidUsers(us) && u < |us| && v < |us| && |mtext| == TEXT
    requires us[u].group <= 0 < us[v].group && (us[u].group == 0 || us[v].group <= -us[u].group)
    requires CString(us[u].name) != CString(us[v].name)
    ensures var r := Exec(us, [Send(v, mtext), Receive(u), Deal(u)]);
      r.Some? && |r.value.printed| == 1 && r.value.printed[0].reader == u && r.value.sent == [Sent(v, mtext)]
  {
    ForeignMessageReceived(us, u, v, mtext);
    assert Name(Payload(us[v], mtext)) == us[v].name;
    ExecNext(us, [Send(v, mtext), Receive(u)], Deal(u));
    assert [Send(v, mtext), Receive(u)] + [Deal(u)] == [Send(v, mtext), Receive(u), Deal(u)];
  }

  lemma ForeignMessageReceived(us: seq<User>, u: nat, v: nat, mtext: seq<Byte>)
    requires ValidUsers(us) && u < |us| && v < |us| && |mtext| == TEXT
    requires us[u].group <= 0 < us[v].group && (us[u].group == 0 || us[v].group <= -us[u].group)
    ensures var m := Message(0, us[v].group, Payload(us[v], mtext));
      Exec(us, [Send(v, mtext), Receive(u)]) == Some(State([], map[u := m], [], [Sent(v, mtext)]))
  {
    SendOnly(us, v, mtext);
    var s1 := Exec(us, [Send(v, mtext)]).value;
    assert Pick(us[u].group, s1.queue, 0) == 0;
    ReceiveOnly(us, u, s1);
    ExecNext(us, [Send(v, mtext)], Receive(u));
    assert [Send(v, mtext)] + [Receive(u)] == [Send(v, mtext), Receive(u)];
  }

  lemma SendOnly(us: seq<User>, v: nat, mtext: seq<Byte>)
    requires ValidUsers(us) && v < |us| && us[v].group > 0 && |mtext| == TEXT
    ensures Exec(us, [Send(v, mtext)]) ==
            Some(State([Message(0, us[v].group, Payload(us[v], mtext))], map[], [], [Sent(v, mtext)]))
  {
    var a := Send(v, mtext);
    assert Apply(us, START, a) == State([Message(0, us[v].group, Payload(us[v], mtext))], map[], [], [Sent(v, mtext)]);
    ExecNext(us, [], a);
    assert [] + [a] == [a];
  }

  lemma ReceiveOnly(us: seq<User>, u: nat, s: State)
    requires ValidUsers(us) && AllGenuine(us, s) && |s.queue| == 1 && Enabled(us, s, Receive(u))
    ensures Apply(us, s, Receive(u)) == s.(queue := [], held := s.held[u := s.queue[0]])
  {
  }

  lemma ExecNext(us: seq<User>, acts: seq<Action>, a: Action)
    requires ValidUsers(us) && Exec(us, acts).Some? && Enabled(us, Exec(us, acts).value, a)
    ensures Exec(us, acts + [a]) == Some(Apply(us, Exec(us, acts).value, a))
  {
    assert (acts + [a])[..|acts|] == acts;
  }

  lemma {:induction false} CStringIs(b: seq<Byte>, n: nat)
    requires n <= |b| && 0 !in b[..n] && (n < |b| ==> b[n] == 0)
    ensures CString(b) == b[..n]
  {
    if n > 0 {
      assert b[..n][0] == b[0] && b[1..][..n - 1] == b[..n][1..];
      CStringIs(b[1..], n - 1);
    }
  }

  /** A text arrives whatever the reader's stale bytes are exactly when it is at most 89 characters long. */
  lemma TextArrives(mtext: seq<Byte>)
    requires |mtext| == TEXT
    ensures |CString(mtext)| <= 89 <==>
            forall stale: seq<Byte> :: |stale| == TEXT + NAME - SIZE ==>
                                         CString(mtext[..SIZE - NAME] + stale) == CString(mtext)
  {
    var t := CString(mtext);
    var sent := mtext[..SIZE - NAME];
    if |t| <= 89 {
      forall stale: seq<Byte> | |stale| == TEXT + NAME - SIZE
        ensures CString(sent + stale) == t
      {
        assert (sent + stale)[..|t|] == t;
        CStringIs(sent + stale, |t|);
      }
    } else {
      var filler: Byte := if |t| == 90 then 1 else 0;
      var stale: seq<Byte> := seq(10, _ => filler);
      assert |stale| == TEXT + NAME - SIZE;
      assert sent == t[..90];
      if filler == 0 {
        assert (sent + stale)[..90] == sent;
        CStringIs(sent + stale, 90);
      } else {
        assert (sent + stale)[..100] == sent + stale;
        CStringIs(sent + stale, 100);
      }
      assert |CString(sent + stale)| != |t|;
    }
  }

  /** Every text of at most 89 characters is printed exactly as it was typed, with its sender's name. */
  lemma ShortTextsArrive(us: seq<User>, acts: seq<Action>, s: State, k: nat)
    requires ValidUsers(us) && Exec(us, acts) == Some(s) && k < |s.printed|
    ensures var p := s.printed[k];
      && p.id < |s.sent| && s.sent[p.id].sender < |us|
      && p.name == CString(us[s.sent[p.id].sender].name)
      && (|CString(s.sent[p.id].mtext)| <= 89 ==> p.text == CString(s.sent[p.id].mtext))
  {
    PrintedIsProper(us, acts, s);
    var p := s.printed[k];
    assert Proper(us, s.sent, p);
    TextArrives(s.sent[p.id].mtext);
  }

  // ----- A message comes to be printed -----

  ghost predicate Sized(queue: seq<Message>) {
    forall k :: 0 <= k < |queue| ==> |queue[k].payload| == SIZE
  }

  predicate Own(x: User, m: Message) {
    |m.payload| == SIZE && CString(Name(m.payload)) == CString(x.name)
  }

  function Without(queue: seq<Message>, j: nat): (rest: seq<Message>)
    requires j < |queue|
    ensures |rest| == |queue| - 1 && forall k :: j < k < |queue| ==> rest[k - 1] == queue[k]
  {
    queue[..j] + queue[j + 1..]
  }

  /** One pass of the loop of reader `u`, alone: a message is received and dealt with. */
  function Pass(x: User, u: nat, s: State): (r: State)
    requires Sized(s.queue) && Pick(x.group, s.queue, 0) < |s.queue|
    ensures Sized(r.queue)
  {
    var j := Pick(x.group, s.queue, 0);
    var m := s.queue[j];
    if Own(x, m)
    then s.(queue := Without(s.queue, j) + [m])
    else s.(queue := Without(s.queue, j),
            printed := s.printed + [Printed(u, m.id, CString(Name(m.payload)), CString(Text(x, m.payload)))])
  }

  /** Up to `k` passes, as long as there is a message to receive. */
  function Passes(x: User, u: nat, s: State, k: nat): State
    requires Sized(s.queue)
    decreases k
  {
    if k == 0 || Pick(x.group, s.queue, 0) == |s.queue| then s else Passes(x, u, Pass(x, u, s), k - 1)
  }

  /** The last line printed is reader `u` showing message `id`. */
  predicate JustPrinted(s: State, u: nat, id: nat) {
    s.printed != [] && s.printed[|s.printed| - 1].reader == u && s.printed[|s.printed| - 1].id == id
  }

  /**
   With any other messages in the queue, its own included, a reader with group number 0 or above that
   goes on prints a message for it after at most as many passes as the message's place in the queue.
   */
  lemma {:induction false} PrintedInTurn(x: User, u: nat, s: State, i: nat, m: Message) returns (k: nat, r: State)
    requires Sized(s.queue) && i < |s.queue| && m == s.queue[i]
    requires x.group >= 0 && Selected(x.group, m.mtype) && !Own(x, m)
    ensures k <= i + 1 && r == Passes(x, u, s, k) && JustPrinted(r, u, m.id)
    decreases i
  {
    PickedBy(x.group, s.queue, i);
    if Pick(x.group, s.queue, 0) == i {
      PrintsIt(x, u, s);
      k, r := 0, Pass(x, u, s);
    } else {
      MovesUp(x, u, s, i);
      k, r := PrintedInTurn(x, u, Pass(x, u, s), i - 1, m);
    }
    PassesNext(x, u, s, k);
    k := k + 1;
  }

  lemma PassesNext(x: User, u: nat, s: State, k: nat)
    requires Sized(s.queue) && Pick(x.group, s.queue, 0) < |s.queue|
    ensures Passes(x, u, s, k + 1) == Passes(x, u, Pass(x, u, s), k)
  {
  }

  lemma PickedBy(group: int, queue: seq<Message>, i: nat)
    requires i < |queue| && group >= 0 && Selected(group, queue[i].mtype)
    ensures Pick(group, queue, 0) <= i
  {
    assert Selects(group, queue[i].mtype, queue);
  }

  lemma PrintsIt(x: User, u: nat, s: State)
    requires Sized(s.queue) && Pick(x.group, s.queue, 0) < |s.queue| && !Own(x, s.queue[Pick(x.group, s.queue, 0)])
    ensures JustPrinted(Pass(x, u, s), u, s.queue[Pick(x.group, s.queue, 0)].id)
  {
  }

  lemma MovesUp(x: User, u: nat, s: State, i: nat)
    requires Sized(s.queue) && Pick(x.group, s.queue, 0) < i < |s.queue|
    ensures i <= |Pass(x, u, s).queue| && Pass(x, u, s).queue[i - 1] == s.queue[i]
  {
  }

  /** In a reachable state where the reader is free, a pass is two steps of the system, with nobody else in between. */
  lemma PassIsTwoSteps(us: seq<User>, acts: seq<Action>, s: State, u: nat)
    requires ValidUsers(us) && Exec(us, acts) == Some(s) && Enabled(us, s, Receive(u))
    ensures Sized(s.queue) && Exec(us, (acts + [Receive(u)]) + [Deal(u)]) == Some(Pass(us[u], u, s))
  {
    ExecNext(us, acts, Receive(u));
    ExecNext(us, acts + [Receive(u)], Deal(u));
    TwoSteps(us, s, u);
  }

  lemma TwoSteps(us: seq<User>, s: State, u: nat)
    requires ValidUsers(us) && AllGenuine(us, s) && Enabled(us, s, Receive(u))
    ensures AllGenuine(us, Apply(us, s, Receive(u))) && Sized(s.queue)
    ensures Apply(us, Apply(us, s, Receive(u)), Deal(u)) == Pass(us[u], u, s)
  {
    GenuineStep(us, s, Receive(u));
    PassIs(us, s, u);
  }

  lemma PassIs(us: seq<User>, s: State, u: nat)
    requires ValidUsers(us) && Sized(s.queue) && Enabled(us, s, Receive(u))
    requires forall v :: v in s.held ==> |s.held[v].payload| == SIZE
    ensures Apply(us, Apply(us, s, Receive(u)), Deal(u)) == Pass(us[u], u, s)
  {
    assert s.held[u := s.queue[Pick(us[u].group, s.queue, 0)]] - {u} == s.held;
  }
}
