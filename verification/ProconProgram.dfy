/** The command loop as a program: the list on the heap, the registry arrays, and the loop of main. */
module ProconProgram {
  import opened ProdConsSteps
  import opened ProconSpec
  import opened CommandHistories

  /** The number is written once, right after the node is allocated. */
  class Node {
    const num: int
    var next: Node?

    constructor (next: Node?, num: int)
      ensures this.next == next && this.num == num
    {
      this.next, this.num := next, num;
    }
  }

  ghost function Nums(nodes: seq<Node>): seq<int> {
    if nodes == [] then [] else [nodes[0].num] + Nums(nodes[1..])
  }

  lemma NextReverse(nums: seq<int>, i: nat, base: seq<int>)
    requires i < |nums|
    ensures Reverse(nums[..i + 1]) + base == [nums[i]] + (Reverse(nums[..i]) + base)
  {
    assert nums[..i + 1] == nums[..i] + [nums[i]];
    ReverseAppend(nums[..i], nums[i]);
  }

  class Procon {
    const items: nat                  // 5 in the source
    const tidP: array<Id>
    const tidC: array<Id>
    var head: Node?
    var P: nat
    var C: nat
    var eaten: seq<(Id, seq<int>)>
    var replies: seq<Reply>
    var status: Status

    ghost var nodes: seq<Node>        // the list from `head`

    /** `nodes` is the list from `head`. */
    ghost predicate Linked()
      reads `head, `nodes, nodes`next
    {
      head == NodeAt(0) && forall i :: 0 <= i < |nodes| ==> nodes[i].next == NodeAt(i + 1)
    }

    ghost function NodeAt(i: nat): Node?
      reads `nodes
    {
      if i < |nodes| then nodes[i] else null
    }

    ghost predicate Valid()
      reads `head, `nodes, nodes`next, `P, `C
    {
      Linked() && P <= SLOTS == tidP.Length && C <= SLOTS == tidC.Length && tidP != tidC
    }

    ghost function State(): Loop
      requires P <= tidP.Length && C <= tidC.Length
      reads this, tidP, tidC
    {
      Loop(Nums(nodes), tidP[..P], tidC[..C], eaten, replies, status)
    }

    constructor (items: nat)
      ensures Valid() && State() == FRESH && this.items == items && fresh(tidP) && fresh(tidC)
    {
      this.items := items;
      tidP, tidC := new Id[SLOTS], new Id[SLOTS];
      head, P, C, eaten, replies, status := null, 0, 0, [], [], Reading;
      nodes := [];
    }

    /** mp = malloc(..); mp->num = v; mp->next = head; head = mp */
    method Push(v: int)
      requires Linked()
      modifies `head, `nodes
      ensures Linked() && Nums(nodes) == [v] + old(Nums(nodes))
    {
      var mp := new Node(head, v);
      head := mp;
      nodes := [mp] + nodes;
      assert nodes[1..] == old(nodes);
    }

    /** mp = head; head = mp->next */
    method Pop() returns (v: int)
      requires Linked() && head != null
      modifies `head, `nodes
      ensures Linked() && old(Nums(nodes)) == [v] + Nums(nodes)
    {
      var mp := head;
      head := mp.next;
      nodes := nodes[1..];
      v := mp.num;
    }

    /** The loop of a producer thread. */
    method Produce(nums: seq<int>)
      requires Linked() && |nums| == items
      modifies `head, `nodes
      ensures Linked() && Nums(nodes) == Reverse(nums) + old(Nums(nodes))
    {
      var i := 0;
      ghost var base := Nums(nodes);
      while i < items
        invariant 0 <= i <= items && Linked() && Nums(nodes) == Reverse(nums[..i]) + base
      {
        NextReverse(nums, i, base);
        Push(nums[i]);
        i := i + 1;
      }
      assert nums[..i] == nums;
    }

    /** The loop of a consumer thread, which waits for ever when it finds the list empty. */
    method Consume() returns (got: seq<int>)
      requires Linked()
      modifies `head, `nodes
      ensures Linked() && old(Nums(nodes)) == got + Nums(nodes)
      ensures |got| == items || (|got| < items && Nums(nodes) == [])
    {
      var i := 0;
      ghost var all := Nums(nodes);
      got := [];
      while i < items && head != null
        invariant 0 <= i == |got| <= items && Linked() && all == got + Nums(nodes)
      {
        var v := Pop();
        assert got + ([v] + Nums(nodes)) == (got + [v]) + Nums(nodes);
        got := got + [v];
        i := i + 1;
      }
    }

    /** The body of a producer thread: P is incremented when it ends. */
    method Producer(self: Id, nums: seq<int>)
      requires Valid() && P < SLOTS && |nums| == items
      modifies `head, `nodes, `P, tidP
      ensures Valid() && Nums(nodes) == Reverse(nums) + old(Nums(nodes))
      ensures P == old(P) + 1 && tidP[..P] == old(tidP[..P]) + [self]
    {
      tidP[P] := self;
      Produce(nums);
      P := P + 1;
    }

    /** The body of a consumer thread: C is incremented if it ends. */
    method Consumer(self: Id) returns (got: seq<int>)
      requires Valid() && C < SLOTS
      modifies `head, `nodes, `C, tidC
      ensures Valid() && old(Nums(nodes)) == got + Nums(nodes)
      ensures |got| == items || (|got| < items && Nums(nodes) == [])
      ensures C == old(C) + if |got| == items then 1 else 0
      ensures tidC[..C] == old(tidC[..C]) + if |got| == items then [self] else []
    {
      tidC[C] := self;
      got := Consume();
      if |got| == items {
        C := C + 1;
      }
    }

    /** The replies from `from` on are the first `k` entries of `tids`, one by one. */
    ghost predicate Wrote(from: nat, tids: array<Id>, k: nat)
      reads `replies, tids
    {
      k <= tids.Length && |replies| == from + k && forall j :: 0 <= j < k ==> replies[from + j] == TheId(tids[j])
    }

    /** Write out the first `k` entries of a registry. */
    method List(tids: array<Id>, k: nat)
      requires k <= tids.Length
      modifies `replies
      ensures old(replies) <= replies && Wrote(|old(replies)|, tids, k)
    {
      var i := 0;
      while i < k
        invariant 0 <= i <= k && |replies| == |old(replies)| + i && old(replies) <= replies
        invariant forall j :: 0 <= j < i ==> replies[|old(replies)| + j] == TheId(tids[j])
      {
        replies := replies + [TheId(tids[i])];
        i := i + 1;
      }
    }

    /** A create consumer command: the join returns, or never does. */
    method CreateAConsumer(self: Id)
      requires Valid() && status.Reading? && C < SLOTS
      modifies this, tidC
      ensures Valid() && State() == Handle(items, old(State()), CreateConsumer(self))
      ensures P == old(P) && C <= old(C) + 1
    {
      ghost var before := Nums(nodes);
      var got := Consumer(self);
      assert got == before[..|got|] && Nums(nodes) == before[|got|..];
      assert |got| < items ==> got == before;
      eaten := eaten + [(self, got)];
      if |got| < items { status := Joining; }
    }

    /** One command: a list command writes the entries of its own registry, an unknown one a single reply. */
    method Execute(c: Command)
      requires Valid() && status.Reading?
      requires c.CreateProducer? ==> P < SLOTS && |c.nums| == items
      requires c.CreateConsumer? ==> C < SLOTS
      modifies this, tidP, tidC
      ensures Valid() && State() == Handle(items, old(State()), c)
      ensures |old(replies)| <= |replies| && old(replies) <= replies
      ensures c.ListProducers? ==> Wrote(|old(replies)|, tidP, P)
      ensures c.ListConsumers? ==> Wrote(|old(replies)|, tidC, C)
      ensures c.Other? ==> replies == old(replies) + [UnknownCommand]
      ensures c.CreateProducer? || c.CreateConsumer? || c.Exit? ==> replies == old(replies)
      ensures status.Exited? <==> c.Exit?
    {
      match c
      case CreateProducer(self, nums) => Producer(self, nums);
      case CreateConsumer(self) => CreateAConsumer(self);
      case ListProducers => List(tidP, P);
      case ListConsumers => List(tidC, C);
      case Exit => status := Exited;
      case Other => replies := replies + [UnknownCommand];
    }

    /** The loop of main on the commands `cmds`, which create at most 1024 workers of each kind. */
    method Serve(cmds: seq<Command>)
      requires Valid() && State() == FRESH
      requires |Created(cmds, Role.Producer)| <= 1024 && |Created(cmds, Role.Consumer)| <= 1024
      requires forall k :: 0 <= k < |cmds| && cmds[k].CreateProducer? ==> |cmds[k].nums| == items
      modifies this, tidP, tidC
      ensures Valid() && State() == Handled(items, cmds)
    {
      var k := 0;
      while k < |cmds| && status.Reading?
        invariant 0 <= k <= |cmds| && Valid() && State() == Handled(items, cmds[..k])
      {
        assert cmds[..k + 1][..k] == cmds[..k];
        Registries(items, cmds[..k]);
        CreatedGrows(cmds, k + 1, Role.Producer);
        CreatedGrows(cmds, k + 1, Role.Consumer);
        Execute(cmds[k]);
        k := k + 1;
      }
      if status.Reading? {
        assert cmds[..k] == cmds;
      } else {
        HandledStays(items, cmds, k);
      }
    }
  }

  lemma {:induction false} CreatedGrows(cmds: seq<Command>, k: nat, role: Role)
    requires k <= |cmds|
    ensures |Created(cmds[..k], role)| <= |Created(cmds, role)|
  {
    if k == |cmds| {
      assert cmds[..k] == cmds;
    } else {
      assert cmds[..|cmds| - 1][..k] == cmds[..k];
      CreatedGrows(cmds[..|cmds| - 1], k, role);
    }
  }
}
