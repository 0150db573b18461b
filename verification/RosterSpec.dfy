/**
 What the UDP chat server does with a sequence of datagrams, on values: the roster of addresses,
 newest first, and the log of messages sent.  `accepts(k)` says whether the k-th `sendto` of the
 process succeeds; at the first one that fails the process exits.
 */
module RosterSpec {
  import opened Positions

  /** A socket address, compared as a whole as `memcmp` does. */
  datatype Address = Address(family: nat, port: nat, host: nat)

  datatype Packet = Packet(kind: char, name: string, text: string)

  datatype Datagram = Datagram(from: Address, msg: Packet)

  datatype Delivery = Delivery(to: Address, msg: Packet)

  datatype View = View(roster: seq<Address>, sent: seq<Delivery>, exited: bool)

  function Without(addrs: seq<Address>, a: Address): seq<Address> {
    if addrs == [] then [] else
      (if addrs[0] == a then [] else [addrs[0]]) + Without(addrs[1..], a)
  }

  /** Send `msg` to `rs` in order; false when a send fails. */
  function SendAll(sent: seq<Delivery>, rs: seq<Address>, msg: Packet, accepts: nat -> bool): (seq<Delivery>, bool)
    decreases |rs|
  {
    if rs == [] then (sent, true)
    else if !accepts(|sent|) then (sent, false)
    else SendAll(sent + [Delivery(rs[0], msg)], rs[1..], msg, accepts)
  }

  function Enlist(roster: seq<Address>, d: Datagram): seq<Address> {
    match d.msg.kind
    case 'L' => [d.from] + roster
    case 'Q' => Without(roster, d.from)
    case _ => roster
  }

  predicate Known(kind: char) {
    kind == 'L' || kind == 'B' || kind == 'Q'
  }

  function Handle(v: View, d: Datagram, accepts: nat -> bool): View {
    if v.exited || !Known(d.msg.kind) then v else
      var r := Enlist(v.roster, d);
      var (sent, ok) := SendAll(v.sent, Without(r, d.from), d.msg, accepts);
      View(r, sent, !ok)
  }

  const EMPTY := View([], [], false)

  function Served(ds: seq<Datagram>, accepts: nat -> bool): View {
    if ds == [] then EMPTY else Handle(Served(ds[..|ds| - 1], accepts), ds[|ds| - 1], accepts)
  }

  /** Nothing is sent after the process has exited. */
  lemma {:induction false} ServedStays(ds: seq<Datagram>, k: nat, accepts: nat -> bool)
    requires k <= |ds| && Served(ds[..k], accepts).exited
    ensures Served(ds, accepts) == Served(ds[..k], accepts)
  {
    if k == |ds| {
      assert ds[..k] == ds;
    } else {
      assert ds[..|ds| - 1][..k] == ds[..k];
      ServedStays(ds[..|ds| - 1], k, accepts);
    }
  }

  lemma WithoutFirst(a: Address, rest: seq<Address>, b: Address)
    ensures Without([a] + rest, b) == (if a == b then [] else [a]) + Without(rest, b)
  {
    assert ([a] + rest)[1..] == rest;
  }

  lemma {:induction false} WithoutWithout(p: seq<Address>, a: Address)
    ensures Without(Without(p, a), a) == Without(p, a)
  {
    if p != [] {
      var w := Without(p[1..], a);
      WithoutWithout(p[1..], a);
      WithoutFirst(p[0], w, a);
      assert [] + w == w;
    }
  }

  /** One entry of the list: skipped, refused, or sent to. */
  lemma SendStep(sent: seq<Delivery>, x: Address, rest: seq<Address>, a: Address, msg: Packet, accepts: nat -> bool)
    ensures SendAll(sent, Without([x] + rest, a), msg, accepts) ==
            if x == a then SendAll(sent, Without(rest, a), msg, accepts)
            else if !accepts(|sent|) then (sent, false)
            else SendAll(sent + [Delivery(x, msg)], Without(rest, a), msg, accepts)
  {
    WithoutFirst(x, rest, a);
    var w := Without(rest, a);
    assert [] + w == w && ([x] + w)[1..] == w;
  }

  // ----- The roster over runs -----

  /** Login `i` still stands: nobody with the same address has quit after it. */
  predicate Stands(ds: seq<Datagram>, i: nat)
    requires i < |ds|
  {
    && ds[i].msg.kind == 'L'
    && forall j :: i < j < |ds| && ds[j].msg.kind == 'Q' ==> ds[j].from != ds[i].from
  }

  /** The addresses of the standing logins among the first `k` datagrams, newest first. */
  function Standing(ds: seq<Datagram>, k: nat): seq<Address>
    requires k <= |ds|
  {
    if k == 0 then [] else
      (if Stands(ds, k - 1) then [ds[k - 1].from] else []) + Standing(ds, k - 1)
  }

  lemma StandsExtend(ds: seq<Datagram>, d: Datagram, i: nat)
    requires i < |ds|
    ensures Stands(ds + [d], i) <==> Stands(ds, i) && (d.msg.kind == 'Q' ==> d.from != ds[i].from)
  {
    var e := ds + [d];
    assert e[|ds|] == d && e[i] == ds[i];
    if Stands(e, i) {
      forall j | i < j < |ds| && ds[j].msg.kind == 'Q'
        ensures ds[j].from != ds[i].from
      {
        assert e[j] == ds[j];
      }
    }
  }

  lemma {:induction false} StandingExtend(ds: seq<Datagram>, d: Datagram, k: nat)
    requires k <= |ds|
    ensures Standing(ds + [d], k) == if d.msg.kind == 'Q' then Without(Standing(ds, k), d.from) else Standing(ds, k)
  {
    if k > 0 {
      StandingExtend(ds, d, k - 1);
      var rest, a := Standing(ds, k - 1), ds[k - 1].from;
      assert (ds + [d])[k - 1].from == a;
      var stands := Stands(ds, k - 1);
      assert Stands(ds + [d], k - 1) == (stands && (d.msg.kind == 'Q' ==> d.from != a)) by {
        StandsExtend(ds, d, k - 1);
      }
      assert Standing(ds, k) == (if stands then [a] else []) + rest;
      WithoutFirst(a, rest, d.from);
      assert [] + rest == rest && [] + Without(rest, d.from) == Without(rest, d.from);
    }
  }

  /** One more datagram changes the standing logins as it changes the roster. */
  lemma StandingStep(ds: seq<Datagram>, d: Datagram)
    ensures Standing(ds + [d], |ds| + 1) == Enlist(Standing(ds, |ds|), d)
  {
    var e := ds + [d];
    assert e[|ds|] == d;
    assert Stands(e, |ds|) <==> d.msg.kind == 'L';
    StandingExtend(ds, d, |ds|);
    var rest := Standing(e, |ds|);
    assert Standing(e, |ds| + 1) == (if d.msg.kind == 'L' then [d.from] else []) + rest;
    assert [] + rest == rest;
  }

  /** After any datagrams, the roster is exactly the logins not followed by a quit from their address. */
  lemma {:induction false} RosterIsStanding(ds: seq<Datagram>, accepts: nat -> bool)
    requires !Served(ds, accepts).exited
    ensures Served(ds, accepts).roster == Standing(ds, |ds|)
  {
    if ds != [] {
      var before, d := ds[..|ds| - 1], ds[|ds| - 1];
      assert ds == before + [d];
      RosterIsStanding(before, accepts);
      StandingStep(before, d);
      RosterStep(Served(before, accepts), d, accepts);
    }
  }

  lemma RosterStep(v: View, d: Datagram, accepts: nat -> bool)
    requires !Handle(v, d, accepts).exited
    ensures Handle(v, d, accepts).roster == Enlist(v.roster, d)
  {
  }

  function Times(addrs: seq<Address>, a: Address): nat {
    if addrs == [] then 0 else (if addrs[0] == a then 1 else 0) + Times(addrs[1..], a)
  }

  /** Logins of `a` since its last quit. */
  function Logins(ds: seq<Datagram>, a: Address): nat {
    if ds == [] then 0 else
      var d := ds[|ds| - 1];
      if d.from == a && d.msg.kind == 'Q' then 0
      else Logins(ds[..|ds| - 1], a) + if d.from == a && d.msg.kind == 'L' then 1 else 0
  }

  lemma TimesFirst(x: Address, rest: seq<Address>, a: Address)
    ensures Times([x] + rest, a) == (if x == a then 1 else 0) + Times(rest, a)
  {
    assert ([x] + rest)[1..] == rest;
  }

  lemma {:induction false} TimesWithout(addrs: seq<Address>, b: Address, a: Address)
    ensures Times(Without(addrs, b), a) == if a == b then 0 else Times(addrs, a)
  {
    if addrs != [] {
      TimesWithout(addrs[1..], b, a);
      var w := Without(addrs[1..], b);
      TimesFirst(addrs[0], w, a);
      assert [] + w == w;
    }
  }

  lemma TimesEnlist(roster: seq<Address>, d: Datagram, a: Address)
    ensures Times(Enlist(roster, d), a) ==
            if d.from == a && d.msg.kind == 'Q' then 0
            else Times(roster, a) + if d.from == a && d.msg.kind == 'L' then 1 else 0
  {
    TimesWithout(roster, d.from, a);
    TimesFirst(d.from, roster, a);
  }

  lemma {:induction false} Multiplicity(ds: seq<Datagram>, accepts: nat -> bool, a: Address)
    requires !Served(ds, accepts).exited
    ensures Times(Served(ds, accepts).roster, a) == Logins(ds, a)
  {
    if ds != [] {
      var k := |ds| - 1;
      Multiplicity(ds[..k], accepts, a);
      TimesEnlist(Served(ds[..k], accepts).roster, ds[k], a);
    }
  }

  // ----- Delivery over runs -----

  /** The messages sent to `a`, in order. */
  function Inbox(sent: seq<Delivery>, a: Address): seq<Packet> {
    if sent == [] then [] else
      Inbox(sent[..|sent| - 1], a) + if sent[|sent| - 1].to == a then [sent[|sent| - 1].msg] else []
  }

  function Copies(m: Packet, k: nat): (r: seq<Packet>)
    ensures |r| == k && forall j :: 0 <= j < k ==> r[j] == m
  {
    if k == 0 then [] else [m] + Copies(m, k - 1)
  }

  /** Each L, B or Q datagram reaches `a` once per standing login of `a`, but never its own sender. */
  function Due(ds: seq<Datagram>, a: Address): seq<Packet> {
    if ds == [] then [] else
      var k := |ds| - 1;
      var handled := ds[k].msg.kind == 'L' || ds[k].msg.kind == 'B' || ds[k].msg.kind == 'Q';
      Due(ds[..k], a) + Copies(ds[k].msg, if handled && ds[k].from != a then Logins(ds[..k], a) else 0)
  }

  /** `idx` lists the messages of the log to `a`, in order, and `box` is what they say. */
  ghost predicate Received(sent: seq<Delivery>, a: Address, box: seq<Packet>, idx: seq<nat>) {
    && Increasing(idx) && Below(idx, |sent|) && |idx| == |box|
    && (forall j :: 0 <= j < |sent| ==> (j in idx <==> sent[j].to == a))
    && forall i :: 0 <= i < |idx| ==> box[i] == sent[idx[i]].msg
  }

  /** The inbox of `a` is every message of the log to `a`, in the order of the log. */
  lemma {:induction false} InboxIs(sent: seq<Delivery>, a: Address) returns (idx: seq<nat>)
    ensures Received(sent, a, Inbox(sent, a), idx)
  {
    idx := [];
    if sent != [] {
      var k := |sent| - 1;
      idx := InboxIs(sent[..k], a);
      ReceivedMore(sent, a, Inbox(sent[..k], a), idx);
      if sent[k].to == a {
        idx := idx + [k];
      }
    }
  }

  lemma ReceivedMore(sent: seq<Delivery>, a: Address, box: seq<Packet>, idx: seq<nat>)
    requires sent != [] && Received(sent[..|sent| - 1], a, box, idx)
    ensures if sent[|sent| - 1].to == a
            then Received(sent, a, box + [sent[|sent| - 1].msg], idx + [|sent| - 1])
            else Received(sent, a, box + [], idx)
  {
    var k := |sent| - 1;
    Later(idx, k);
    assert forall j :: 0 <= j < k ==> sent[..k][j] == sent[j];
    assert box + [] == box;
  }

  lemma {:induction false} InboxSendAll(
      sent: seq<Delivery>, rs: seq<Address>, msg: Packet, accepts: nat -> bool, a: Address)
    requires SendAll(sent, rs, msg, accepts).1
    ensures Inbox(SendAll(sent, rs, msg, accepts).0, a) == Inbox(sent, a) + Copies(msg, Times(rs, a))
    decreases |rs|
  {
    if rs != [] {
      var next := sent + [Delivery(rs[0], msg)];
      assert next[..|sent|] == sent;
      InboxSendAll(next, rs[1..], msg, accepts, a);
    }
  }

  lemma {:induction false} Delivered(ds: seq<Datagram>, accepts: nat -> bool, a: Address)
    requires !Served(ds, accepts).exited
    ensures Inbox(Served(ds, accepts).sent, a) == Due(ds, a)
  {
    if ds != [] {
      var k := |ds| - 1;
      var v := Served(ds[..k], accepts);
      Delivered(ds[..k], accepts, a);
      if Known(ds[k].msg.kind) {
        var r := Enlist(v.roster, ds[k]);
        InboxSendAll(v.sent, Without(r, ds[k].from), ds[k].msg, accepts, a);
        TimesWithout(r, ds[k].from, a);
        TimesEnlist(v.roster, ds[k], a);
        Multiplicity(ds[..k], accepts, a);
      }
    }
  }

  /**
   A text of `d.from`, after any datagrams and with no failing send: it is added to the inbox of every
   other address as often as that address is logged in, and to no inbox else, and the roster stays.
   */
  lemma TextIsDelivered(ds: seq<Datagram>, d: Datagram, accepts: nat -> bool, a: Address)
    requires d.msg.kind == 'B' && !Served(ds + [d], accepts).exited
    ensures var v, w := Served(ds, accepts), Served(ds + [d], accepts);
      && !v.exited && w.roster == v.roster
      && Inbox(w.sent, a) == Inbox(v.sent, a) + Copies(d.msg, if a == d.from then 0 else Logins(ds, a))
  {
    assert (ds + [d])[..|ds|] == ds;
    Delivered(ds, accepts, a);
    Delivered(ds + [d], accepts, a);
  }

  /** A datagram of any other type than the three changes nothing. */
  lemma OthersAreIgnored(ds: seq<Datagram>, d: Datagram, accepts: nat -> bool)
    requires d.msg.kind != 'L' && d.msg.kind != 'B' && d.msg.kind != 'Q'
    ensures Served(ds + [d], accepts) == Served(ds, accepts)
  {
    assert (ds + [d])[..|ds|] == ds;
  }

  // ----- Failing sends -----

  function Always(k: nat): bool { true }

  /** With a failing send at `k`, exactly the first `k` messages of the faultless run are sent. */
  predicate CutAt(v: View, full: View, accepts: nat -> bool) {
    && v.sent <= full.sent
    && (forall k :: 0 <= k < |v.sent| ==> accepts(k))
    && (if v.exited then |v.sent| < |full.sent| && !accepts(|v.sent|) else v == full)
  }

  lemma {:induction false} SendAllGrows(sent: seq<Delivery>, rs: seq<Address>, msg: Packet)
    ensures SendAll(sent, rs, msg, Always).1
    ensures |SendAll(sent, rs, msg, Always).0| == |sent| + |rs| && sent <= SendAll(sent, rs, msg, Always).0
    decreases |rs|
  {
    if rs != [] {
      SendAllGrows(sent + [Delivery(rs[0], msg)], rs[1..], msg);
    }
  }

  lemma {:induction false} SendAllCut(sent: seq<Delivery>, rs: seq<Address>, msg: Packet, accepts: nat -> bool)
    requires forall k :: 0 <= k < |sent| ==> accepts(k)
    ensures var (s, ok), (f, _) := SendAll(sent, rs, msg, accepts), SendAll(sent, rs, msg, Always);
      && s <= f && (forall k :: 0 <= k < |s| ==> accepts(k))
      && (if ok then s == f else |s| < |f| && !accepts(|s|))
    decreases |rs|
  {
    SendAllGrows(sent, rs, msg);
    if rs != [] && accepts(|sent|) {
      SendAllCut(sent + [Delivery(rs[0], msg)], rs[1..], msg, accepts);
    }
  }

  lemma {:induction false} ExitCutsTheLog(ds: seq<Datagram>, accepts: nat -> bool)
    ensures !Served(ds, Always).exited
    ensures CutAt(Served(ds, accepts), Served(ds, Always), accepts)
  {
    if ds != [] {
      var k := |ds| - 1;
      ExitCutsTheLog(ds[..k], accepts);
      var v, f := Served(ds[..k], accepts), Served(ds[..k], Always);
      if Known(ds[k].msg.kind) {
        var rs := Without(Enlist(f.roster, ds[k]), ds[k].from);
        SendAllGrows(f.sent, rs, ds[k].msg);
        if !v.exited {
          SendAllCut(v.sent, rs, ds[k].msg, accepts);
        }
      }
    }
  }
}
