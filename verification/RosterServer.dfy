/**
 The UDP chat server itself: a singly linked list with a head sentinel, updated in place, and the
 receive loop that dispatches datagrams.  Every method is proved against `RosterSpec`.
 */
module RosterServer {
  import opened RosterSpec

  /** The address is written once, right after the node is allocated. */
  class Node {
    const addr: Address
    var next: Node?

    constructor (addr: Address, next: Node?)
      ensures this.addr == addr && this.next == next
    {
      this.addr := addr;
      this.next := next;
    }
  }

  ghost function Addrs(nodes: seq<Node>): seq<Address> {
    if nodes == [] then [] else [nodes[0].addr] + Addrs(nodes[1..])
  }

  /** The nodes whose address is not `a`, in order. */
  ghost function Keep(nodes: seq<Node>, a: Address): seq<Node> {
    if nodes == [] then [] else
      (if nodes[0].addr == a then [] else [nodes[0]]) + Keep(nodes[1..], a)
  }

  ghost function With(nodes: seq<Node>, a: Address): set<Node> {
    set x | x in nodes && x.addr == a
  }

  ghost predicate NoDup(nodes: seq<Node>) {
    nodes == [] || (nodes[0] !in nodes[1..] && NoDup(nodes[1..]))
  }

  /** A node occurs once. */
  lemma OnlyAt(nodes: seq<Node>, i: nat, k: nat)
    requires NoDup(nodes) && i < |nodes| && k < |nodes| && i != k
    ensures nodes[i] != nodes[k]
  {
    NoDupRemove(nodes, i);
    var r := nodes[..i] + nodes[i + 1..];
    assert nodes[k] == r[if k < i then k else k - 1];
  }

  lemma {:induction false} NoDupRemove(nodes: seq<Node>, i: nat)
    requires NoDup(nodes) && i < |nodes|
    ensures var r := nodes[..i] + nodes[i + 1..];
      NoDup(r) && nodes[i] !in r
  {
    var r := nodes[..i] + nodes[i + 1..];
    if i == 0 {
      assert r == nodes[1..];
    } else {
      NoDupRemove(nodes[1..], i - 1);
      assert r[1..] == nodes[1..][..i - 1] + nodes[1..][i..];
      assert nodes[i] == nodes[1..][i - 1];
    }
  }

  /** Keeping and freeing together account for every node. */
  lemma {:induction false} KeepCount(nodes: seq<Node>, a: Address)
    requires NoDup(nodes)
    ensures |Keep(nodes, a)| + |With(nodes, a)| == |nodes|
  {
    if nodes != [] {
      KeepCount(nodes[1..], a);
      FirstNode(nodes, 0, a);
      assert nodes[0..] == nodes;
    }
  }

  /** The list without its entry at `i + 1`. */
  lemma Removed(all: seq<Node>, i: nat) returns (r: seq<Node>)
    requires NoDup(all) && i + 1 < |all|
    ensures r == all[..i + 1] + all[i + 2..] && NoDup(r)
    ensures forall k :: 0 <= k < |r| ==> r[k] == if k <= i then all[k] else all[k + 1]
    ensures forall k :: 0 <= k < |r| && k != i ==> r[k] != all[i]
    ensures forall x :: x in r ==> x in all && x != all[i + 1]
  {
    NoDupRemove(all, i + 1);
    r := all[..i + 1] + all[i + 2..];
    forall k | 0 <= k < |r| && k != i
      ensures r[k] != all[i]
    {
      OnlyAt(all, i, if k <= i then k else k + 1);
    }
  }

  lemma {:induction false} KeepAddrs(nodes: seq<Node>, a: Address)
    ensures Addrs(Keep(nodes, a)) == Without(Addrs(nodes), a)
  {
    if nodes != [] {
      var x, k := nodes[0], Keep(nodes[1..], a);
      KeepAddrs(nodes[1..], a);
      WithoutFirst(x.addr, Addrs(nodes[1..]), a);
      assert [] + k == k && ([x] + k)[1..] == k;
    }
  }

  /** Splitting off the first node of a list. */
  lemma FirstNode(nodes: seq<Node>, i: nat, a: Address)
    requires i < |nodes|
    ensures Addrs(nodes[i..]) == [nodes[i].addr] + Addrs(nodes[i + 1..])
    ensures Keep(nodes[i..], a) == (if nodes[i].addr == a then [] else [nodes[i]]) + Keep(nodes[i + 1..], a)
    ensures With(nodes[i..], a) == (if nodes[i].addr == a then {nodes[i]} else {}) + With(nodes[i + 1..], a)
  {
    assert nodes[i..] == [nodes[i]] + nodes[i + 1..];
    assert nodes[i..][1..] == nodes[i + 1..];
  }

  class Server {
    var head: Node                    // the sentinel H
    var sent: seq<Delivery>           // what sendto has sent
    var exited: bool
    const accepts: nat -> bool        // whether the k-th sendto succeeds

    ghost var nodes: seq<Node>        // the sentinel and the list, in order
    ghost var freed: set<Node>
    ghost var mallocs: nat            // calls of malloc

    ghost predicate Valid()
      reads `head, `nodes, `freed, nodes`next
    {
      && nodes != [] && nodes[0] == head
      && NoDup(nodes)
      && (forall x :: x in nodes ==> x !in freed)
      && (forall i :: 0 <= i < |nodes| ==> nodes[i].next == NodeAt(i + 1))
    }

    ghost function NodeAt(i: nat): Node?
      reads `nodes
    {
      if i < |nodes| then nodes[i] else null
    }

    ghost function Roster(): seq<Address>
      requires nodes != []
      reads `nodes
    {
      Addrs(nodes[1..])
    }

    /** No node is lost: allocations are the list, its sentinel, and the freed nodes. */
    ghost predicate Accounted()
      reads this
    {
      mallocs == |nodes| + |freed|
    }

    /** linklist_create */
    constructor (accepts: nat -> bool)
      ensures Valid() && Accounted() && Roster() == [] && sent == [] && !exited && this.accepts == accepts
      ensures fresh(nodes) && freed == {}
    {
      var h := new Node(Address(0, 0, 0), null);
      head, sent, exited, this.accepts := h, [], false, accepts;
      nodes, freed, mallocs := [h], {}, 1;
    }

    method InsertData(a: Address)
      requires Valid()
      modifies `nodes, `mallocs, head`next
      ensures Valid() && |nodes| == old(|nodes|) + 1 && fresh(nodes[1])
      ensures nodes == old(nodes)[..1] + nodes[1..2] + old(nodes)[1..]
      ensures Roster() == [a] + old(Roster()) && mallocs == old(mallocs) + 1
    {
      var p := new Node(a, head.next);
      head.next := p;
      nodes := nodes[..1] + [p] + nodes[1..];
      mallocs := mallocs + 1;
      NoDupRemove(old(nodes), 0);
      assert nodes[1..] == [p] + old(nodes)[1..] && nodes[1..][1..] == old(nodes)[1..];
      FirstNode(nodes, 1, a);
      assert nodes[2..] == old(nodes)[1..];
    }

    /** The loop of process_login and process_broadcast: send to every entry but the sender's. */
    method SendToOthers(msg: Packet, a: Address)
      requires Valid()
      modifies `sent, `exited
      ensures (sent, !exited) == SendAll(old(sent), Without(Roster(), a), msg, accepts)
    {
      var h := head;
      ghost var i := 0;
      exited := false;
      while h.next != null
        invariant 0 <= i < |nodes| && h == nodes[i] && !exited
        invariant SendAll(sent, Without(Addrs(nodes[i + 1..]), a), msg, accepts)
               == SendAll(old(sent), Without(Roster(), a), msg, accepts)
        decreases |nodes| - i
      {
        FirstNode(nodes, i + 1, a);
        h := h.next;
        i := i + 1;
        SendStep(sent, h.addr, Addrs(nodes[i + 1..]), a, msg, accepts);
        if a != h.addr {
          if !accepts(|sent|) {
            exited := true;
            return;
          }
          sent := sent + [Delivery(h.addr, msg)];
        }
      }
    }

    /** Enroll the sender, then tell the others. */
    method ProcessLogin(msg: Packet, a: Address)
      requires Valid()
      modifies this, head`next
      ensures Valid() && head == old(head) && freed == old(freed) && mallocs == old(mallocs) + 1
      ensures |nodes| == old(|nodes|) + 1 && fresh(nodes[1])
      ensures nodes == old(nodes)[..1] + nodes[1..2] + old(nodes)[1..]
      ensures Roster() == [a] + old(Roster())
      ensures (sent, !exited) == SendAll(old(sent), Without(Roster(), a), msg, accepts)
    {
      InsertData(a);
      SendToOthers(msg, a);
    }

    /** q = p->next; p->next = q->next; free(q) */
    method Unlink(p: Node, ghost i: nat)
      requires Valid() && i + 1 < |nodes| && p == nodes[i]
      modifies p`next, `nodes, `freed
      ensures Valid() && nodes == old(nodes[..i + 1] + nodes[i + 2..]) && freed == old(freed) + {old(nodes[i + 1])}
    {
      ghost var r := Removed(nodes, i);
      var q := p.next;
      p.next := q.next;
      freed := freed + {q};
      nodes := r;
    }

    /** What the list will be when the scan, now at index `i`, is over. */
    ghost function FinalList(i: nat, a: Address): seq<Node>
      requires i < |nodes|
      reads `nodes
    {
      nodes[..i + 1] + Keep(nodes[i + 1..], a)
    }

    ghost function FinalFreed(i: nat, a: Address): set<Node>
      requires i < |nodes|
      reads `nodes, `freed
    {
      freed + With(nodes[i + 1..], a)
    }

    /** What the log will be: the list from `i + 1` on has still to be told. */
    ghost function Log(i: nat, msg: Packet, a: Address): (seq<Delivery>, bool)
      requires i < |nodes|
      reads `nodes, `sent
    {
      SendAll(sent, Without(Addrs(nodes[i + 1..]), a), msg, accepts)
    }

    lemma NextNode(i: nat, a: Address)
      requires i + 1 < |nodes|
      ensures FinalList(i, a) ==
              nodes[..i + 1] + (if nodes[i + 1].addr == a then [] else [nodes[i + 1]]) + Keep(nodes[i + 2..], a)
      ensures FinalFreed(i, a) ==
              freed + (if nodes[i + 1].addr == a then {nodes[i + 1]} else {}) + With(nodes[i + 2..], a)
    {
      FirstNode(nodes, i + 1, a);
      var k := if nodes[i + 1].addr == a then [] else [nodes[i + 1]];
      assert nodes[..i + 1] + (k + Keep(nodes[i + 2..], a)) == nodes[..i + 1] + k + Keep(nodes[i + 2..], a);
    }

    lemma NextLog(i: nat, msg: Packet, a: Address)
      requires i + 1 < |nodes|
      ensures var x, tail := nodes[i + 1], Without(Addrs(nodes[i + 2..]), a);
        Log(i, msg, a) ==
          if x.addr == a then SendAll(sent, tail, msg, accepts)
          else if !accepts(|sent|) then (sent, false)
          else SendAll(sent + [Delivery(x.addr, msg)], tail, msg, accepts)
    {
      FirstNode(nodes, i + 1, a);
      SendStep(sent, nodes[i + 1].addr, Addrs(nodes[i + 2..]), a, msg, accepts);
    }

    lemma LastNode(i: nat, msg: Packet, a: Address)
      requires i + 1 == |nodes|
      ensures FinalList(i, a) == nodes && FinalFreed(i, a) == freed && Log(i, msg, a) == (sent, true)
    {
      assert nodes[i + 1..] == [];
    }

    method QuitUnlink(p: Node, ghost i: nat, ghost msg: Packet, a: Address)
      requires Valid() && i + 1 < |nodes| && p == nodes[i] && nodes[i + 1].addr == a
      modifies p`next, `nodes, `freed
      ensures Valid() && |nodes| == old(|nodes|) - 1 && nodes[..i + 1] == old(nodes)[..i + 1]
      ensures forall x :: x in nodes ==> x in old(nodes)
      ensures FinalList(i, a) == old(FinalList(i, a)) && FinalFreed(i, a) == old(FinalFreed(i, a))
      ensures Log(i, msg, a) == old(Log(i, msg, a))
    {
      NextNode(i, a);
      NextLog(i, msg, a);
      ghost var before := nodes;
      Unlink(p, i);
      assert nodes[..i + 1] == before[..i + 1] && nodes[i + 1..] == before[i + 2..];
      assert before[..i + 1] + [] == before[..i + 1];
    }

    method QuitSend(ghost i: nat, to: Address, msg: Packet, a: Address)
      requires i + 1 < |nodes| && nodes[i + 1].addr == to != a && !exited
      modifies `sent, `exited
      ensures exited ==> (sent, false) == old(Log(i, msg, a))
      ensures FinalList(i + 1, a) == FinalList(i, a) && FinalFreed(i + 1, a) == FinalFreed(i, a)
      ensures !exited ==> Log(i + 1, msg, a) == old(Log(i, msg, a))
    {
      NextNode(i, a);
      NextLog(i, msg, a);
      assert nodes[..i + 2] == nodes[..i + 1] + [nodes[i + 1]];
      if accepts(|sent|) {
        sent := sent + [Delivery(to, msg)];
      } else {
        exited := true;
      }
    }

    /** One pass through the body of the loop of process_quit. */
    method QuitStep(p: Node, ghost i: nat, msg: Packet, a: Address) returns (p': Node, ghost i': nat)
      requires Valid() && i + 1 < |nodes| && p == nodes[i] && !exited
      modifies p`next, `nodes, `freed, `sent, `exited
      ensures Valid() && i' < |nodes| && p' == nodes[i'] && |nodes| - i' < old(|nodes|) - i
      ensures forall x :: x in nodes ==> x in old(nodes)
      ensures FinalList(i', a) == old(FinalList(i, a)) && FinalFreed(i', a) == old(FinalFreed(i, a))
      ensures if exited then (sent, false) == old(Log(i, msg, a)) else Log(i', msg, a) == old(Log(i, msg, a))
    {
      assert p.next == NodeAt(i + 1) == nodes[i + 1];
      if a == p.next.addr {
        QuitUnlink(p, i, msg, a);
        p', i' := p, i;
      } else {
        QuitSend(i, p.next.addr, msg, a);
        p', i' := p.next, i + 1;
      }
    }

    /** Unlink and free the sender's nodes and tell the others, in one pass. */
    method ProcessQuit(msg: Packet, a: Address)
      requires Valid()
      modifies `sent, `exited, `nodes, `freed, (set x: Node | x in nodes)`next
      ensures Valid() && forall x :: x in nodes ==> x in old(nodes)
      ensures (sent, !exited) == SendAll(old(sent), Without(old(Roster()), a), msg, accepts)
      ensures !exited ==> nodes == old(nodes)[..1] + Keep(old(nodes)[1..], a)
      ensures !exited ==> freed == old(freed) + With(old(nodes)[1..], a)
    {
      var p := head;
      ghost var i: nat, list, gone, log := 0, FinalList(0, a), FinalFreed(0, a), Log(0, msg, a);
      exited := false;
      while p.next != null && !exited
        invariant Valid() && i < |nodes| && p == nodes[i]
        invariant forall x :: x in nodes ==> x in old(nodes)
        invariant FinalList(i, a) == list && FinalFreed(i, a) == gone
        invariant if exited then (sent, false) == log else Log(i, msg, a) == log
        decreases |nodes| - i
      {
        p, i := QuitStep(p, i, msg, a);
      }
      if !exited {
        LastNode(i, msg, a);
      }
    }

    /** The switch of the receive loop; other message types are ignored. */
    method Dispatch(d: Datagram)
      requires Valid() && Accounted() && !exited
      modifies this, (set x: Node | x in nodes)`next
      ensures Valid() && (!exited ==> Accounted())
      ensures forall x :: x in nodes ==> x in old(nodes) || fresh(x)
      ensures Agrees(Handle(View(old(Roster()), old(sent), false), d, accepts))
    {
      match d.msg.kind
      case 'L' => ProcessLogin(d.msg, d.from);
      case 'B' => SendToOthers(d.msg, d.from);
      case 'Q' =>
        ghost var all := nodes;
        ProcessQuit(d.msg, d.from);
        if !exited {
          KeepCount(all[1..], d.from);
          KeepAddrs(all[1..], d.from);
          assert nodes[1..] == Keep(all[1..], d.from);
        }
        WithoutWithout(Addrs(all[1..]), d.from);
      case _ =>
    }

    ghost predicate Agrees(v: View)
      requires nodes != []
      reads `nodes, `sent, `exited
    {
      sent == v.sent && exited == v.exited && (!exited ==> Roster() == v.roster)
    }

    /** The receive loop on the datagrams `ds`, up to the first failing send. */
    method Serve(ds: seq<Datagram>)
      requires Valid() && Accounted() && !exited && Roster() == [] && sent == []
      modifies this, (set x: Node | x in nodes)`next
      ensures Valid() && (!exited ==> Accounted())
      ensures Agrees(Served(ds, accepts))
    {
      var k := 0;
      while k < |ds| && !exited
        invariant 0 <= k <= |ds| && Valid() && (!exited ==> Accounted())
        invariant forall x :: x in nodes ==> x in old(nodes) || fresh(x)
        invariant Agrees(Served(ds[..k], accepts))
      {
        assert ds[..k + 1][..k] == ds[..k];
        Dispatch(ds[k]);
        k := k + 1;
      }
      if exited {
        ServedStays(ds, k, accepts);
      } else {
        assert ds[..k] == ds;
      }
    }
  }
}
