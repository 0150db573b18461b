/** The TCP chat server's globals and the code that updates them, one method per step of `ClientTable`. */
module ClientServer {
  import opened ClientTable

  class Server {
    const client: array<Client>
    var cnt: nat
    var sent: seq<Sent>
    var tries: nat
    var conns: map<Fd, Connection>    // the kernel's open descriptors, and their threads
    const accepts: nat -> bool        // whether the k-th send succeeds

    ghost predicate Valid()
      reads this
    {
      cnt <= client.Length == MAX
    }

    ghost function State(): View
      requires Valid()
      reads this, client
    {
      View(client[..cnt], conns, sent, tries)
    }

    constructor (accepts: nat -> bool)
      ensures Valid() && State() == IDLE && this.accepts == accepts && fresh(client)
    {
      this.accepts := accepts;
      client := new Client[MAX](_ => Client(0, ""));
      cnt, sent, tries, conns := 0, [], 0, map[];
    }

    method SendToOthers(msg: Message, fd: Fd)
      requires Valid()
      modifies `sent, `tries
      ensures State() == Spread(old(State()), fd, msg, accepts)
    {
      var i := 0;
      while i < cnt
        invariant 0 <= i <= cnt
        invariant Broadcast(client[i..cnt], fd, msg, sent, tries, accepts)
               == Broadcast(client[..cnt], fd, msg, old(sent), old(tries), accepts)
      {
        assert client[i..cnt][1..] == client[i + 1..cnt];
        if client[i].fd != fd {
          tries := tries + 1;
          if !accepts(tries - 1) {
            return;
          }
          sent := sent + [Sent(client[i].fd, msg)];
        }
        i := i + 1;
      }
    }

    /** The registration part of the accept loop: slot `cnt` is filled before the others are told. */
    method Register(c: Client)
      requires Valid() && Enabled(State(), ClientTable.Register(c))
      modifies this, client
      ensures Valid() && State() == Apply(old(State()), ClientTable.Register(c), accepts)
    {
      client[cnt] := c;
      assert client[..cnt] == old(client[..cnt]);
      SendToOthers(Joined(c.name), c.fd);
      assert client[..cnt + 1] == client[..cnt] + [c];
      cnt := cnt + 1;
      conns := conns[c.fd := Connection(c.name, Serving)];
    }

    method Say(fd: Fd, text: string)
      requires Valid() && Enabled(State(), ClientTable.Say(fd, text))
      modifies `sent, `tries
      ensures Valid() && State() == Apply(old(State()), ClientTable.Say(fd, text), accepts)
    {
      SendToOthers(Said(conns[fd].name, text), fd);
    }

    method Find(fd: Fd) returns (i: nat)
      requires Valid()
      ensures i == IndexOf(client[..cnt], fd) <= cnt
    {
      i := 0;
      ghost var table := client[..cnt];
      while i < cnt && client[i].fd != fd
        invariant 0 <= i <= cnt
        invariant IndexOf(table, fd) == i + IndexOf(table[i..], fd)
      {
        assert table[i..][1..] == table[i + 1..];
        i := i + 1;
      }
    }

    /** Find the client, overwrite it with the last one, and shorten the table. */
    method Remove(fd: Fd)
      requires Valid() && Enabled(State(), ClientTable.Remove(fd))
      modifies this, client
      ensures Valid() && State() == Apply(old(State()), ClientTable.Remove(fd), accepts)
    {
      var i := Find(fd);
      conns := conns[fd := conns[fd].(phase := Removed(i < cnt))];
      if i < cnt {
        client[i] := client[cnt - 1];
        cnt := cnt - 1;
        assert client[..cnt] == Drop(old(client[..cnt]), fd);
      }
    }

    method Tell(fd: Fd)
      requires Valid() && Enabled(State(), ClientTable.Tell(fd))
      modifies `sent, `tries, `conns
      ensures Valid() && State() == Apply(old(State()), ClientTable.Tell(fd), accepts)
    {
      SendToOthers(Farewell(conns[fd]), fd);
      conns := conns[fd := conns[fd].(phase := Told)];
    }

    method Close(fd: Fd)
      requires Valid() && Enabled(State(), ClientTable.Close(fd))
      modifies `conns
      ensures Valid() && State() == Apply(old(State()), ClientTable.Close(fd), accepts)
    {
      conns := conns - {fd};
    }
  }
}
