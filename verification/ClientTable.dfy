/**
 The TCP chat server's client table: an array filled up to `cnt`, a client removed by moving the
 last one into its place, broadcasts to every other client, and a kernel that reuses descriptors.

 Registration and removal are atomic here, as is each broadcast (it holds the mutex).  A leaving
 thread first removes its client, then tells the others, then closes its descriptor; other threads
 run in between.
 */
module ClientTable {
  import opened Positions
  import opened Wrappers

  const MAX: nat := 100

  type Fd = nat

  datatype Client = Client(fd: Fd, name: string)

  /** The announcements the server composes. */
  datatype Message = Joined(name: string) | Said(name: string, text: string) | Left(name: string)

  datatype Sent = Sent(fd: Fd, msg: Message)

  /** Where the thread of a connection is: serving, or on its way out (`found`: its client was in the table). */
  datatype Phase = Serving | Removed(found: bool) | Told

  datatype Connection = Connection(name: string, phase: Phase)

  /** `conns` holds the open descriptors; `tries` counts calls of send; the k-th succeeds iff `accepts(k)`. */
  datatype View = View(table: seq<Client>, conns: map<Fd, Connection>, sent: seq<Sent>, tries: nat)

  datatype Action =
    | Register(c: Client)          // accept returned c.fd, and the first recv the name
    | Say(fd: Fd, text: string)    // recv returned a text
    | Remove(fd: Fd)               // recv failed: take the client out of the table
    | Tell(fd: Fd)                 // ... announce it
    | Close(fd: Fd)                // ... close the descriptor

  const IDLE := View([], map[], [], 0)

  predicate Enabled(v: View, a: Action) {
    match a
    case Register(c) => c.fd !in v.conns && |v.table| < MAX
    case Say(fd, _) => fd in v.conns && v.conns[fd].phase.Serving?
    case Remove(fd) => fd in v.conns && v.conns[fd].phase.Serving?
    case Tell(fd) => fd in v.conns && v.conns[fd].phase.Removed?
    case Close(fd) => fd in v.conns && v.conns[fd].phase.Told?
  }

  /** Send to every client but `fd`, in table order, stopping at the first failing send. */
  function Broadcast(
      table: seq<Client>, fd: Fd, msg: Message, sent: seq<Sent>, tries: nat, accepts: nat -> bool): (seq<Sent>, nat)
    decreases |table|
  {
    if table == [] then (sent, tries)
    else if table[0].fd == fd then Broadcast(table[1..], fd, msg, sent, tries, accepts)
    else if !accepts(tries) then (sent, tries + 1)
    else Broadcast(table[1..], fd, msg, sent + [Sent(table[0].fd, msg)], tries + 1, accepts)
  }

  function Spread(v: View, fd: Fd, msg: Message, accepts: nat -> bool): View {
    var (sent, tries) := Broadcast(v.table, fd, msg, v.sent, v.tries, accepts);
    v.(sent := sent, tries := tries)
  }

  /** The buffer still holds the empty prompt line when the search found nothing. */
  function Farewell(c: Connection): Message {
    if c.phase.Removed? && c.phase.found then Left(c.name) else Said(c.name, "")
  }

  function IndexOf(table: seq<Client>, fd: Fd): (i: nat)
    ensures i <= |table|
    ensures forall k :: 0 <= k < i ==> table[k].fd != fd
    ensures i < |table| ==> table[i].fd == fd
  {
    if table == [] || table[0].fd == fd then 0 else 1 + IndexOf(table[1..], fd)
  }

  /** Swap with the last one, and shorten. */
  function Drop(table: seq<Client>, fd: Fd): seq<Client> {
    var i := IndexOf(table, fd);
    if i == |table| then table else table[i := table[|table| - 1]][..|table| - 1]
  }

  function Apply(v: View, a: Action, accepts: nat -> bool): View
    requires Enabled(v, a)
  {
    match a
    case Register(c) =>
      var w := Spread(v, c.fd, Joined(c.name), accepts);
      w.(table := w.table + [c], conns := w.conns[c.fd := Connection(c.name, Serving)])
    case Say(fd, text) => Spread(v, fd, Said(v.conns[fd].name, text), accepts)
    case Remove(fd) =>
      v.(table := Drop(v.table, fd),
         conns := v.conns[fd := v.conns[fd].(phase := Removed(IndexOf(v.table, fd) < |v.table|))])
    case Tell(fd) =>
      var w := Spread(v, fd, Farewell(v.conns[fd]), accepts);
      w.(conns := w.conns[fd := v.conns[fd].(phase := Told)])
    case Close(fd) => v.(conns := v.conns - {fd})
  }

  /** The state after `acts`, or None when some action is not possible. */
  function Run(acts: seq<Action>, accepts: nat -> bool): Option<View> {
    if acts == [] then Some(IDLE) else
      match Run(acts[..|acts| - 1], accepts)
      case None => None
      case Some(v) => if Enabled(v, acts[|acts| - 1]) then Some(Apply(v, acts[|acts| - 1], accepts)) else None
  }

  // ----- Swap-with-last is set deletion -----

  ghost predicate Distinct(table: seq<Client>) {
    forall i, j :: 0 <= i < j < |table| ==> table[i].fd != table[j].fd
  }

  /** Where the entries of `Drop(table, fd)` come from. */
  lemma DropAt(table: seq<Client>, fd: Fd)
    requires IndexOf(table, fd) < |table|
    ensures |Drop(table, fd)| == |table| - 1
    ensures forall k :: 0 <= k < |table| - 1 ==>
              Drop(table, fd)[k] == if k == IndexOf(table, fd) then table[|table| - 1] else table[k]
  {
  }

  lemma DropKeeps(table: seq<Client>, fd: Fd, c: Client)
    requires Distinct(table)
    ensures c in Drop(table, fd) <==> c in table && c.fd != fd
  {
    var i, n := IndexOf(table, fd), |table|;
    if i < n {
      DropAt(table, fd);
      if c in table && c.fd != fd {
        var k :| 0 <= k < n && table[k] == c;
        assert Drop(table, fd)[if k == n - 1 then i else k] == c;
      }
    }
  }

  lemma DropDeletes(table: seq<Client>, fd: Fd)
    requires Distinct(table)
    ensures Distinct(Drop(table, fd)) && |Drop(table, fd)| <= |table|
    ensures forall c :: c in Drop(table, fd) <==> c in table && c.fd != fd
  {
    if IndexOf(table, fd) < |table| { DropAt(table, fd); }
    forall c
      ensures c in Drop(table, fd) <==> c in table && c.fd != fd
    {
      DropKeeps(table, fd, c);
    }
  }

  // ----- The invariant over runs -----

  /** The table is exactly the serving connections, each with its own open descriptor. */
  ghost predicate Consistent(v: View) {
    && Distinct(v.table) && |v.table| <= MAX
    && (forall c :: c in v.table <==> c.fd in v.conns && v.conns[c.fd] == Connection(c.name, Serving))
    && forall fd :: fd in v.conns ==> v.conns[fd].phase != Removed(false)
  }

  lemma ConsistentStep(v: View, a: Action, accepts: nat -> bool)
    requires Consistent(v) && Enabled(v, a)
    ensures Consistent(Apply(v, a, accepts))
  {
    var w := Apply(v, a, accepts);
    match a
    case Register(c) =>
      assert forall k :: 0 <= k < |v.table| ==> v.table[k] in v.table;
    case Remove(fd) =>
      DropDeletes(v.table, fd);
      assert Client(fd, v.conns[fd].name) in v.table;
    case _ =>
  }

  /**
   In every interleaving the entries have pairwise distinct, open descriptors, although `accept` may
   return any descriptor that is not open; the table is the set of serving clients; and a leaving
   thread always finds its client.
   */
  lemma {:induction false} TableIsServingClients(acts: seq<Action>, v: View, accepts: nat -> bool)
    requires Run(acts, accepts) == Some(v)
    ensures Consistent(v)
  {
    if acts != [] {
      var k := |acts| - 1;
      var u := Run(acts[..k], accepts).value;
      TableIsServingClients(acts[..k], u, accepts);
      ConsistentStep(u, acts[k], accepts);
    }
  }

  /** Client `c` registered and its descriptor has not been removed since. */
  ghost predicate Present(acts: seq<Action>, c: Client) {
    exists i :: 0 <= i < |acts| && acts[i] == Register(c) && NotRemoved(acts, i, c.fd)
  }

  ghost predicate NotRemoved(acts: seq<Action>, i: nat, fd: Fd) {
    forall j :: i < j < |acts| ==> acts[j] != Remove(fd)
  }

  lemma PresentStep(acts: seq<Action>, a: Action, c: Client)
    ensures Present(acts + [a], c) <==> a == Register(c) || (Present(acts, c) && a != Remove(c.fd))
  {
    var e := acts + [a];
    assert e[|acts|] == a && forall i :: 0 <= i < |acts| ==> e[i] == acts[i];
    if Present(acts, c) && a != Remove(c.fd) {
      var i :| 0 <= i < |acts| && acts[i] == Register(c) && NotRemoved(acts, i, c.fd);
      assert e[i] == Register(c) && NotRemoved(e, i, c.fd);
    }
    if a == Register(c) {
      assert NotRemoved(e, |acts|, c.fd);
    }
    if Present(e, c) && a != Register(c) {
      var i :| 0 <= i < |e| && e[i] == Register(c) && NotRemoved(e, i, c.fd);
      assert acts[i] == Register(c);
      forall j | i < j < |acts|
        ensures acts[j] != Remove(c.fd)
      {
        assert e[j] == acts[j];
      }
      assert NotRemoved(acts, i, c.fd);
    }
  }

  /** After any run the table holds exactly the clients that registered and have not left. */
  lemma {:induction false} TableIsRegisteredMinusDeparted(acts: seq<Action>, v: View, accepts: nat -> bool)
    requires Run(acts, accepts) == Some(v)
    ensures forall c :: c in v.table <==> Present(acts, c)
    ensures Distinct(v.table)
  {
    TableIsServingClients(acts, v, accepts);
    if acts != [] {
      var k := |acts| - 1;
      var u := Run(acts[..k], accepts).value;
      TableIsRegisteredMinusDeparted(acts[..k], u, accepts);
      forall c
        ensures c in v.table <==> Present(acts, c)
      {
        assert acts == acts[..k] + [acts[k]];
        PresentStep(acts[..k], acts[k], c);
        if acts[k].Remove? { DropDeletes(u.table, acts[k].fd); }
      }
    }
  }

  // ----- Descriptors -----

  /** Client `c` registered and its descriptor has not been closed since. */
  ghost predicate Open(acts: seq<Action>, c: Client) {
    exists i :: 0 <= i < |acts| && acts[i] == Register(c) && NotClosed(acts, i, c.fd)
  }

  ghost predicate NotClosed(acts: seq<Action>, i: nat, fd: Fd) {
    forall j :: i < j < |acts| ==> acts[j] != Close(fd)
  }

  lemma OpenStep(acts: seq<Action>, a: Action, c: Client)
    ensures Open(acts + [a], c) <==> a == Register(c) || (Open(acts, c) && a != Close(c.fd))
  {
    var e := acts + [a];
    assert e[|acts|] == a && forall i :: 0 <= i < |acts| ==> e[i] == acts[i];
    if Open(acts, c) && a != Close(c.fd) {
      var i :| 0 <= i < |acts| && acts[i] == Register(c) && NotClosed(acts, i, c.fd);
      assert e[i] == Register(c) && NotClosed(e, i, c.fd);
    }
    if a == Register(c) {
      assert NotClosed(e, |acts|, c.fd);
    }
    if Open(e, c) && a != Register(c) {
      var i :| 0 <= i < |e| && e[i] == Register(c) && NotClosed(e, i, c.fd);
      assert acts[i] == Register(c);
      forall j | i < j < |acts|
        ensures acts[j] != Close(c.fd)
      {
        assert e[j] == acts[j];
      }
      assert NotClosed(acts, i, c.fd);
    }
  }

  /** After any run the open descriptors, with their names, are exactly those registered and not closed since. */
  lemma {:induction false} OpenUntilClosed(acts: seq<Action>, v: View, accepts: nat -> bool)
    requires Run(acts, accepts) == Some(v)
    ensures forall c: Client :: c.fd in v.conns && v.conns[c.fd].name == c.name <==> Open(acts, c)
  {
    if acts != [] {
      var k := |acts| - 1;
      OpenUntilClosed(acts[..k], Run(acts[..k], accepts).value, accepts);
      forall c: Client
        ensures c.fd in v.conns && v.conns[c.fd].name == c.name <==> Open(acts, c)
      {
        assert acts == acts[..k] + [acts[k]];
        OpenStep(acts[..k], acts[k], c);
      }
    }
  }

  lemma RunNext(acts: seq<Action>, a: Action, v: View, accepts: nat -> bool)
    requires Run(acts, accepts) == Some(v) && Enabled(v, a)
    ensures Run(acts + [a], accepts) == Some(Apply(v, a, accepts))
  {
    assert (acts + [a])[..|acts|] == acts;
  }

  /**
   In every reachable state any client can register on a descriptor that is not open while the table
   has less than 100 entries, and every client in the table can speak.
   */
  lemma CanCome(acts: seq<Action>, v: View, c: Client, accepts: nat -> bool)
    requires Run(acts, accepts) == Some(v) && |v.table| < 100 && forall d :: Open(acts, d) ==> d.fd != c.fd
    ensures Run(acts + [Register(c)], accepts).Some?
  {
    OpenUntilClosed(acts, v, accepts);
    assert c.fd in v.conns ==> Open(acts, Client(c.fd, v.conns[c.fd].name));
    RunNext(acts, Register(c), v, accepts);
  }

  lemma CanSpeak(acts: seq<Action>, v: View, c: Client, text: string, accepts: nat -> bool)
    requires Run(acts, accepts) == Some(v) && c in v.table
    ensures Run(acts + [Say(c.fd, text)], accepts).Some?
  {
    TableIsServingClients(acts, v, accepts);
    RunNext(acts, Say(c.fd, text), v, accepts);
  }

  /** A thread on its way out can always go on, whatever the others have done since. */
  lemma CanGoOn(acts: seq<Action>, v: View, c: Client, accepts: nat -> bool)
    requires Run(acts, accepts) == Some(v) && Open(acts, c) && c !in v.table
    ensures Run(acts + [Tell(c.fd)], accepts).Some? || Run(acts + [Close(c.fd)], accepts).Some?
  {
    OpenUntilClosed(acts, v, accepts);
    TableIsServingClients(acts, v, accepts);
    RunNext(acts, if v.conns[c.fd].phase.Told? then Close(c.fd) else Tell(c.fd), v, accepts);
  }

  /**
   A client that leaves gives its descriptor and its place back: after its removal, its announcement
   and its close, any client can register on the same descriptor, whether or not the table was full.
   */
  lemma DescriptorsComeBack(acts: seq<Action>, v: View, c: Client, d: Client, accepts: nat -> bool)
    requires Run(acts, accepts) == Some(v) && c in v.table && d.fd == c.fd
    ensures Run((((acts + [Remove(c.fd)]) + [Tell(c.fd)]) + [Close(c.fd)]) + [Register(d)], accepts).Some?
  {
    TableIsServingClients(acts, v, accepts);
    RunNext(acts, Remove(c.fd), v, accepts);
    var v1 := Apply(v, Remove(c.fd), accepts);
    LeavesRoom(v, c);
    RunNext(acts + [Remove(c.fd)], Tell(c.fd), v1, accepts);
    var v2 := Apply(v1, Tell(c.fd), accepts);
    RunNext((acts + [Remove(c.fd)]) + [Tell(c.fd)], Close(c.fd), v2, accepts);
    var v3 := Apply(v2, Close(c.fd), accepts);
    RunNext(((acts + [Remove(c.fd)]) + [Tell(c.fd)]) + [Close(c.fd)], Register(d), v3, accepts);
  }

  lemma LeavesRoom(v: View, c: Client)
    requires Consistent(v) && c in v.table
    ensures |Drop(v.table, c.fd)| < |v.table| <= MAX
  {
    assert IndexOf(v.table, c.fd) < |v.table|;
    DropAt(v.table, c.fd);
  }

  // ----- Broadcasts -----

  function Others(table: seq<Client>, fd: Fd): seq<Fd> {
    if table == [] then [] else
      (if table[0].fd == fd then [] else [table[0].fd]) + Others(table[1..], fd)
  }

  /** Each client but the sender is listed once. */
  lemma {:induction false} OthersOnce(table: seq<Client>, fd: Fd)
    requires Distinct(table)
    ensures forall x :: x in Others(table, fd) <==> x != fd && exists c :: c in table && c.fd == x
    ensures forall i, j :: 0 <= i < j < |Others(table, fd)| ==> Others(table, fd)[i] != Others(table, fd)[j]
  {
    if table != [] {
      var rest := table[1..];
      OthersOnce(rest, fd);
      assert forall k :: 0 <= k < |rest| ==> rest[k] == table[k + 1];
      assert forall c :: c in table <==> c == table[0] || c in rest;
      assert table[0].fd !in Others(rest, fd);
      assert [] + Others(rest, fd) == Others(rest, fd);
    }
  }

  /** `idx` lists the entries with another descriptor, in table order. */
  ghost predicate Lists(table: seq<Client>, fd: Fd, fds: seq<Fd>, idx: seq<nat>) {
    && Increasing(idx) && Below(idx, |table|) && |idx| == |fds|
    && (forall j :: 0 <= j < |table| ==> (j in idx <==> table[j].fd != fd))
    && forall i :: 0 <= i < |idx| ==> fds[i] == table[idx[i]].fd
  }

  /** The addressees come in table order. */
  lemma {:induction false} OthersInOrder(table: seq<Client>, fd: Fd) returns (idx: seq<nat>)
    ensures Lists(table, fd, Others(table, fd), idx)
  {
    idx := [];
    if table != [] {
      var k := |table| - 1;
      idx := OthersInOrder(table[..k], fd);
      OthersLast(table[..k], table[k], fd);
      assert table[..k] + [table[k]] == table;
      ListsMore(table, fd, Others(table[..k], fd), idx);
      if table[k].fd != fd {
        idx := idx + [k];
      }
    }
  }

  lemma {:induction false} OthersLast(table: seq<Client>, c: Client, fd: Fd)
    ensures Others(table + [c], fd) == Others(table, fd) + if c.fd == fd then [] else [c.fd]
  {
    if table != [] {
      assert (table + [c])[1..] == table[1..] + [c];
      OthersLast(table[1..], c, fd);
    }
  }

  lemma ListsMore(table: seq<Client>, fd: Fd, fds: seq<Fd>, idx: seq<nat>)
    requires table != [] && Lists(table[..|table| - 1], fd, fds, idx)
    ensures if table[|table| - 1].fd == fd then Lists(table, fd, fds + [], idx)
            else Lists(table, fd, fds + [table[|table| - 1].fd], idx + [|table| - 1])
  {
    var k := |table| - 1;
    Later(idx, k);
    assert forall j :: 0 <= j < k ==> table[..k][j] == table[j];
    assert fds + [] == fds;
  }

  function Messages(fds: seq<Fd>, msg: Message): (r: seq<Sent>)
    ensures |r| == |fds|
  {
    if fds == [] then [] else [Sent(fds[0], msg)] + Messages(fds[1..], msg)
  }

  lemma {:induction false} MessagesAt(fds: seq<Fd>, msg: Message, k: nat)
    requires k < |fds|
    ensures Messages(fds, msg)[k] == Sent(fds[k], msg)
  {
    if k > 0 {
      MessagesAt(fds[1..], msg, k - 1);
    }
  }

  /**
   A broadcast adds the messages to the first `k` of the others, in order, each accepted; and it stops
   short of the others only at a send that fails, which is counted as a try.
   */
  lemma {:induction false} BroadcastReaches(
      table: seq<Client>, fd: Fd, msg: Message, sent: seq<Sent>, tries: nat, accepts: nat -> bool)
    returns (k: nat)
    ensures k <= |Others(table, fd)|
    ensures Broadcast(table, fd, msg, sent, tries, accepts).0 == sent + Messages(Others(table, fd)[..k], msg)
    ensures Broadcast(table, fd, msg, sent, tries, accepts).1 == tries + k + if k < |Others(table, fd)| then 1 else 0
    ensures forall i :: tries <= i < tries + k ==> accepts(i)
    ensures k < |Others(table, fd)| ==> !accepts(tries + k)
    decreases |table|
  {
    k := 0;
    if table != [] {
      var rest := table[1..];
      if table[0].fd == fd {
        assert Others(table, fd) == Others(rest, fd);
        k := BroadcastReaches(rest, fd, msg, sent, tries, accepts);
      } else if accepts(tries) {
        var first := Sent(table[0].fd, msg);
        k := BroadcastReaches(rest, fd, msg, sent + [first], tries + 1, accepts);
        MessagesFirst(table[0].fd, Others(rest, fd)[..k], msg);
        assert Others(table, fd)[..k + 1] == [table[0].fd] + Others(rest, fd)[..k];
        assert sent + [first] + Messages(Others(rest, fd)[..k], msg) ==
               sent + Messages(Others(table, fd)[..k + 1], msg);
        k := k + 1;
      }
    }
    assert k == 0 ==> Others(table, fd)[..k] == [];
  }

  lemma MessagesFirst(fd: Fd, rest: seq<Fd>, msg: Message)
    ensures Messages([fd] + rest, msg) == [Sent(fd, msg)] + Messages(rest, msg)
  {
    assert ([fd] + rest)[1..] == rest;
  }

  /** Who an action is about, and what everybody else is told. */
  function About(a: Action): Fd {
    match a
    case Register(c) => c.fd
    case Say(fd, _) => fd
    case Remove(fd) => fd
    case Tell(fd) => fd
    case Close(fd) => fd
  }

  function Announcement(v: View, a: Action): Option<Message> {
    match a
    case Register(c) => Some(Joined(c.name))
    case Say(fd, text) => if fd in v.conns then Some(Said(v.conns[fd].name, text)) else None
    case Tell(fd) => if fd in v.conns then Some(Left(v.conns[fd].name)) else None
    case _ => None
  }

  /** When no send fails, exactly the other clients are told. */
  lemma SpreadReaches(v: View, fd: Fd, msg: Message, accepts: nat -> bool)
    requires forall k :: accepts(k)
    ensures Spread(v, fd, msg, accepts).sent == v.sent + Messages(Others(v.table, fd), msg)
  {
    var k := BroadcastReaches(v.table, fd, msg, v.sent, v.tries, accepts);
    assert accepts(v.tries + k);
    assert Others(v.table, fd)[..k] == Others(v.table, fd);
  }

  /** The log only grows, so what an action sends is what it adds. */
  lemma LogGrows(v: View, a: Action, accepts: nat -> bool)
    requires Enabled(v, a)
    ensures v.sent <= Apply(v, a, accepts).sent
  {
    match a
    case Register(c) =>
      var k := BroadcastReaches(v.table, c.fd, Joined(c.name), v.sent, v.tries, accepts);
    case Say(fd, text) =>
      var k := BroadcastReaches(v.table, fd, Said(v.conns[fd].name, text), v.sent, v.tries, accepts);
    case Tell(fd) =>
      var k := BroadcastReaches(v.table, fd, Farewell(v.conns[fd]), v.sent, v.tries, accepts);
    case _ =>
  }

  lemma Tells(v: View, a: Action, accepts: nat -> bool)
    requires Consistent(v) && Enabled(v, a)
    ensures Apply(v, a, accepts).sent ==
            if Announcement(v, a).Some? then Spread(v, About(a), Announcement(v, a).value, accepts).sent else v.sent
  {
  }

  /** `told` consists of one message `msg` to each of distinct addressees. */
  ghost predicate TellsOnce(told: seq<Sent>, msg: Option<Message>) {
    && (forall k :: 0 <= k < |told| ==> msg == Some(told[k].msg))
    && (forall i, j :: 0 <= i < j < |told| ==> told[i].fd != told[j].fd)
  }

  ghost predicate Reached(told: seq<Sent>, x: Fd) {
    exists k :: 0 <= k < |told| && told[k].fd == x
  }

  /**
   In every reachable state, when no send fails, an arrival, a text and a departure are each sent
   exactly once to every other client in the table, and to nobody else.
   */
  lemma Announces(acts: seq<Action>, v: View, a: Action, accepts: nat -> bool)
    requires Run(acts, accepts) == Some(v) && Enabled(v, a)
    requires forall k :: accepts(k)
    ensures v.sent <= Apply(v, a, accepts).sent
    ensures TellsOnce(Apply(v, a, accepts).sent[|v.sent|..], Announcement(v, a))
    ensures forall x :: Reached(Apply(v, a, accepts).sent[|v.sent|..], x)
                <==> Announcement(v, a).Some? && x != About(a) && exists c :: c in v.table && c.fd == x
  {
    TableIsServingClients(acts, v, accepts);
    LogGrows(v, a, accepts);
    Tells(v, a, accepts);
    if Announcement(v, a).Some? {
      var fds, msg := Others(v.table, About(a)), Announcement(v, a).value;
      SpreadReaches(v, About(a), msg, accepts);
      assert Apply(v, a, accepts).sent[|v.sent|..] == Messages(fds, msg);
      OthersOnce(v.table, About(a));
      MessagesReach(fds, msg);
    }
  }

  /** Messages to distinct descriptors reach exactly these, once each. */
  lemma MessagesReach(fds: seq<Fd>, msg: Message)
    requires forall i, j :: 0 <= i < j < |fds| ==> fds[i] != fds[j]
    ensures TellsOnce(Messages(fds, msg), Some(msg))
    ensures forall x :: Reached(Messages(fds, msg), x) <==> x in fds
  {
    var told := Messages(fds, msg);
    forall k | 0 <= k < |fds|
      ensures told[k] == Sent(fds[k], msg)
    {
      MessagesAt(fds, msg, k);
    }
    forall x | x in fds
      ensures Reached(told, x)
    {
      var k :| 0 <= k < |fds| && fds[k] == x;
      assert told[k].fd == x;
    }
  }

  ghost predicate AllSay(told: seq<Sent>, msg: Message) {
    forall k :: 0 <= k < |told| ==> told[k].msg == msg
  }

  lemma {:induction false} MessagesSay(fds: seq<Fd>, msg: Message)
    ensures AllSay(Messages(fds, msg), msg)
  {
    if fds != [] {
      MessagesSay(fds[1..], msg);
    }
  }

  /** Whether or not sends fail, a broadcast adds to the log only its message. */
  lemma SpreadSays(v: View, fd: Fd, msg: Message, accepts: nat -> bool)
    ensures v.sent <= Spread(v, fd, msg, accepts).sent && AllSay(Spread(v, fd, msg, accepts).sent[|v.sent|..], msg)
  {
    var k := BroadcastReaches(v.table, fd, msg, v.sent, v.tries, accepts);
    MessagesSay(Others(v.table, fd)[..k], msg);
  }

  /**
   What is sent, in every reachable state: on a registration the arrival of that client, on a text its
   sender's registered name with that text, on a departure the departure of the client that registered
   on that descriptor, and nothing on a removal or a close.
   */
  lemma WhatIsSaid(acts: seq<Action>, v: View, a: Action, c: Client, accepts: nat -> bool)
    requires Run(acts, accepts) == Some(v) && Enabled(v, a)
    requires a == Register(c) || Open(acts, c)
    ensures v.sent <= Apply(v, a, accepts).sent
    ensures var told := Apply(v, a, accepts).sent[|v.sent|..];
      && (a == Register(c) ==> AllSay(told, Joined(c.name)))
      && (a.Say? && a.fd == c.fd ==> AllSay(told, Said(c.name, a.text)))
      && (a == Tell(c.fd) ==> AllSay(told, Left(c.name)))
      && (a.Remove? || a.Close? ==> told == [])
  {
    OpenUntilClosed(acts, v, accepts);
    TableIsServingClients(acts, v, accepts);
    LogGrows(v, a, accepts);
    if Announcement(v, a).Some? {
      SpreadSays(v, About(a), Announcement(v, a).value, accepts);
      Tells(v, a, accepts);
    }
  }
}
