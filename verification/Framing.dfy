/** Packets over a byte stream, shared/src/networking.c:144-246. send and recv move any positive number of bytes at a
    time, or fail; the wrappers loop, and packets arrive as they were sent exactly when no call fails. */
module Framing {
  import opened Processes
  import opened Wire

  datatype Packet = Packet(header: byte, payload: seq<byte>)

  /** The header, the size of the payload, the payload. */
  function Frame(p: Packet): (r: seq<byte>)
    ensures |r| == 5 + |p.payload|
  {
    [p.header] + Word(|p.payload|) + p.payload
  }

  function Frames(packets: seq<Packet>): seq<byte> {
    if packets == [] then [] else Frame(packets[0]) + Frames(packets[1..])
  }

  predicate Sendable(packets: seq<Packet>) { forall i :: 0 <= i < |packets| ==> |packets[i].payload| < WORD }

  lemma {:induction false} FramesConcat(a: seq<Packet>, b: seq<Packet>)
    ensures Frames(a + b) == Frames(a) + Frames(b)
  {
    if a == [] {
      assert a + b == b;
    } else {
      assert (a + b)[1..] == a[1..] + b;
      FramesConcat(a[1..], b);
    }
  }

  /** A frame behind the bytes on the wire. */
  lemma FrameParts(wire: seq<byte>, p: Packet)
    ensures wire + [p.header] + Word(|p.payload|) + p.payload == wire + Frame(p)
  {
  }

  lemma OneMoreSent(received: seq<Packet>, wire: seq<byte>, sent: seq<Packet>, p: Packet)
    ensures Frames(received) + wire == Frames(sent) ==>
        Frames(received) + (wire + Frame(p)) == Frames(sent + [p])
  {
    FramesConcat(sent, [p]);
    assert Frames([p]) == Frame(p) + [] == Frame(p);
    assert Frames(received) + (wire + Frame(p)) == (Frames(received) + wire) + Frame(p);
  }

  /** The layout of a packet on the wire: a header of one byte, four bytes of size, the payload. */
  lemma FrameLayout(p: Packet)
    requires |p.payload| < WORD
    ensures var b := Frame(p); b[0] == p.header && WordAt(b, 1, |p.payload|) && b[5..] == p.payload
  {
    hide Word, WordAt;
    assert Holds(Frame(p), 1, Word(|p.payload|));
    WordIsThere(Frame(p), 1, |p.payload|);
  }

  lemma WordOfBytes(b: seq<byte>)
    requires |b| == 4
    ensures Word(WordOf(b)) == b
  {
    BytesOfWord(b[0], b[1], b[2], b[3]);
  }

  /** Two packets whose frames begin the same bytes are the same. */
  lemma SameFrame(p: Packet, q: Packet, r: seq<byte>, s: seq<byte>)
    requires |p.payload| < WORD && |q.payload| < WORD && Frame(p) + r == Frame(q) + s
    ensures p == q && r == s
  {
    hide Word;
    var a, b := Frame(p) + r, Frame(q) + s;
    assert p.header == a[0] == b[0] == q.header;
    assert Word(|p.payload|) == a[1..5] == b[1..5] == Word(|q.payload|);
    WordRoundTrip(|p.payload|);
    WordRoundTrip(|q.payload|);
    assert p.payload == a[5..5 + |p.payload|] == b[5..5 + |q.payload|] == q.payload;
    assert r == a[5 + |p.payload|..] && s == b[5 + |q.payload|..];
  }

  /** If the bytes of some packets, and whatever comes after them, are the bytes of others, then they are the first of
      those others. */
  lemma {:induction false} FramesArePrefixes(received: seq<Packet>, rest: seq<byte>, sent: seq<Packet>)
    requires Sendable(received) && Sendable(sent) && Frames(received) + rest == Frames(sent)
    ensures received <= sent && rest == Frames(sent[|received|..])
    decreases |received|
  {
    if received == [] {
      assert sent[0..] == sent;
      assert [] + rest == rest;
    } else {
      assert |Frames(received) + rest| > 0;
      var r, s := Frames(received[1..]) + rest, Frames(sent[1..]);
      assert Frame(received[0]) + r == Frames(received) + rest;
      SameFrame(received[0], sent[0], r, s);
      FramesArePrefixes(received[1..], rest, sent[1..]);
      assert received == [received[0]] + received[1..] && sent == [sent[0]] + sent[1..];
      assert sent[1..][|received[1..]|..] == sent[|received|..];
    }
  }

  lemma OneMoreFrame(received: seq<Packet>, before: seq<byte>, sent: seq<Packet>, p: Packet, size: seq<byte>,
          wire: seq<byte>)
    requires |size| == 4 && |p.payload| == WordOf(size) && before == [p.header] + size + p.payload + wire
    ensures |p.payload| < WORD && before == Frame(p) + wire
    ensures Frames(received) + before == Frames(sent) ==> Frames(received + [p]) + wire == Frames(sent)
  {
    WordOfBytes(size);
    hide Word, WordOf;
    FramesConcat(received, [p]);
    assert Frames([p]) == Frame(p) + [] == Frame(p);
    assert Frames(received) + (Frame(p) + wire) == Frames(received) + Frame(p) + wire;
  }

  /** What the network makes of the calls of send and recv, in the order they are made: how many bytes it is ready to
      move, or 0 or less where the call fails. */
  type Network = nat -> int

  /** None of these calls fails. */
  ghost predicate Smooth(net: Network, from: nat, to: nat) { forall k :: from <= k < to ==> net(k) > 0 }

  lemma SmoothJoins(net: Network, from: nat, middle: nat, to: nat)
    requires from <= middle <= to
    ensures Smooth(net, from, to) <==> Smooth(net, from, middle) && Smooth(net, middle, to)
  {
  }

  function Min(a: int, b: int): int { if a < b then a else b }

  /** The number of the call after those it takes to move n bytes from call k on, or to fail. */
  ghost function CallsFor(net: Network, k: nat, n: nat): (r: nat)
    ensures k <= r
    decreases n
  {
    if n == 0 then k else if net(k) <= 0 then k + 1 else CallsFor(net, k + 1, n - Min(net(k), n))
  }

  /** A packet takes three: its header, its size and its payload. */
  ghost function PacketCalls(net: Network, k: nat, p: Packet): (r: nat)
    ensures k <= r
  {
    CallsFor(net, CallsFor(net, CallsFor(net, k, 1), 4), |p.payload|)
  }

  ghost function AllCalls(net: Network, k: nat, packets: seq<Packet>): (r: nat)
    ensures k <= r
    decreases |packets|
  {
    if packets == [] then k else AllCalls(net, PacketCalls(net, k, packets[0]), packets[1..])
  }

  lemma AllCallsOfNone(net: Network, k: nat, packets: seq<Packet>)
    requires packets == []
    ensures AllCalls(net, k, packets) == k
  {
  }

  lemma SmoothFromHere(net: Network, k: nat)
    ensures Smooth(net, k, k)
  {
  }

  /** The calls for packets from i on begin with those for packet i. */
  lemma OneMorePacket(net: Network, from: nat, k: nat, packets: seq<Packet>, i: nat)
    requires from <= k && i < |packets|
    ensures var next := PacketCalls(net, k, packets[i]);
            && AllCalls(net, k, packets[i..]) == AllCalls(net, next, packets[i + 1..])
            && next <= AllCalls(net, k, packets[i..])
            && (Smooth(net, from, next) <==> Smooth(net, from, k) && Smooth(net, k, next))
            && (Smooth(net, from, AllCalls(net, k, packets[i..])) ==> Smooth(net, from, next))
  {
    hide PacketCalls;
    assert packets[i..][0] == packets[i] && packets[i..][1..] == packets[i + 1..];
  }

  class Connection {
    const net: Network
    var calls: nat                   // calls made so far
    var wire: seq<byte>              // sent and not yet received
    ghost var sent: seq<Packet>
    ghost var received: seq<Packet>
    var broken: bool                 // a failure was logged: some packet was sent or received in part only

    ghost predicate Valid()
      reads this
    {
      Sendable(sent) && Sendable(received) && (!broken ==> Frames(received) + wire == Frames(sent))
    }

    constructor (net: Network)
      ensures Valid() && this.net == net && calls == 0 && !broken && sent == [] && received == [] && wire == []
    {
      this.net, calls, wire, sent, received, broken := net, 0, [], [], [], false;
    }

    /** send: some bytes go, at least one, or none with 0 or -1. */
    method Send(buffer: seq<byte>) returns (i: int)
      requires |buffer| > 0
      modifies this`wire, this`calls
      ensures calls == old(calls) + 1 && -1 <= i <= |buffer| && (i > 0 <==> net(old(calls)) > 0)
      ensures i > 0 ==> i == Min(net(old(calls)), |buffer|)
      ensures wire == old(wire) + if i > 0 then buffer[..i] else []
    {
      i := net(calls);
      calls := calls + 1;
      if i < 0 { i := -1; }
      if i > |buffer| { i := |buffer|; }
      if i > 0 { wire := wire + buffer[..i]; }
    }

    /** recv: some bytes of those on the wire come, at most size, or none with 0 or -1. When the wire is empty no more
        will come: the other end has closed. */
    method Recv(size: nat) returns (i: int, bytes: seq<byte>)
      requires size > 0
      modifies this`wire, this`calls
      ensures calls == old(calls) + 1 && -1 <= i <= size && i <= |old(wire)|
      ensures i > 0 <==> net(old(calls)) > 0 && |old(wire)| > 0
      ensures i > 0 ==> i == Min(Min(net(old(calls)), size), |old(wire)|)
      ensures bytes == (if i > 0 then old(wire)[..i] else []) && old(wire) == bytes + wire
    {
      i := net(calls);
      calls := calls + 1;
      if i < 0 { i := -1; }
      if i > size { i := size; }
      if i > |wire| { i := |wire|; }
      bytes := [];
      if i > 0 {
        bytes := wire[..i];
        wire := wire[i..];
      }
    }

    /** send_wrapper: 1 exactly when no call fails, and then everything has gone. */
    method SendWrapper(buffer: seq<byte>) returns (r: int)
      modifies this`wire, this`calls
      ensures old(calls) <= calls && (r == 1 || r == 0 || r == -1)
      ensures r == 1 <==> Smooth(net, old(calls), calls)
      ensures calls == CallsFor(net, old(calls), |buffer|)
      ensures r == 1 ==> wire == old(wire) + buffer
      ensures exists k :: 0 <= k <= |buffer| && wire == old(wire) + buffer[..k]
    {
      var from := 0;
      assert wire == wire + buffer[..0];
      while from < |buffer|
        invariant 0 <= from <= |buffer| && wire == old(wire) + buffer[..from]
        invariant old(calls) <= calls && Smooth(net, old(calls), calls)
        invariant CallsFor(net, calls, |buffer| - from) == CallsFor(net, old(calls), |buffer|)
      {
        var i := Send(buffer[from..]);
        if i == 0 { return 0; }
        if i < 0 { return -1; }
        assert buffer[..from] + buffer[from..][..i] == buffer[..from + i];
        from := from + i;
      }
      assert buffer[..from] == buffer;
      r := 1;
    }

    /** receive_wrapper: 1 exactly when no call fails and there are enough bytes, and then they have come. */
    method ReceiveWrapper(size: nat) returns (r: int, dest: seq<byte>)
      modifies this`wire, this`calls
      ensures old(calls) <= calls && (r == 1 || r == 0 || r == -1)
      ensures r == 1 <==> Smooth(net, old(calls), calls) && size <= |old(wire)|
      ensures size <= |old(wire)| ==> calls == CallsFor(net, old(calls), size)
      ensures old(wire) == dest + wire && |dest| <= size && (r == 1 <==> |dest| == size)
    {
      dest := [];
      while |dest| < size
        invariant old(wire) == dest + wire && |dest| <= size
        invariant old(calls) <= calls && Smooth(net, old(calls), calls)
        invariant size <= |old(wire)| ==> CallsFor(net, calls, size - |dest|) == CallsFor(net, old(calls), size)
        decreases size - |dest|
      {
        var i, bytes := Recv(size - |dest|);
        if i == 0 { return 0, dest; }
        if i < 0 { return -1, dest; }
        dest := dest + bytes;
      }
      r := 1;
    }

    /** socket_send_packet: the header, the size and the payload, one after the other. A failure is logged, and what
        is left is sent all the same; the packet counts as sent when nothing has failed. */
    method SendPacket(p: Packet)
      requires Valid() && |p.payload| < WORD
      modifies this
      ensures Valid() && received == old(received) && calls == PacketCalls(net, old(calls), p)
      ensures broken <==> old(broken) || !Smooth(net, old(calls), calls)
      ensures !broken ==> sent == old(sent) + [p] && wire == old(wire) + Frame(p)
    {
      hide Word, CallsFor, Frame, Frames, Smooth;
      ghost var first := calls;
      var r := SendWrapper([p.header]);
      ghost var second := calls;
      var s := SendWrapper(Word(|p.payload|));
      ghost var third := calls;
      var t := SendWrapper(p.payload);
      SmoothJoins(net, first, second, calls);
      SmoothJoins(net, second, third, calls);
      if r == 1 && s == 1 && t == 1 {
        OneMoreSent(received, old(wire), sent, p);
        assert wire == old(wire) + Frame(p) by { FrameParts(old(wire), p); }
        sent := sent + [p];
      } else {
        broken := true;
      }
    }

    /** While packets are still to come the front of the wire is a whole one. */
    lemma NextFrameIsThere()
      requires Valid() && !broken && |received| < |sent|
      ensures |wire| >= 5 && 5 + WordOf(wire[1..5]) <= |wire| && WordOf(wire[1..5]) == |sent[|received|].payload|
    {
      FramesArePrefixes(received, wire, sent);
      var next := sent[|received|];
      assert sent[|received|..] == [next] + sent[|received| + 1..];
      assert wire == Frame(next) + Frames(sent[|received| + 1..]);
      assert wire[1..5] == Word(|next.payload|);
      WordRoundTrip(|next.payload|);
    }

    /** socket_receive_packet: no packet when the size or the payload does not come; a header that does not come is
        whatever its variable held. A size of zero takes nothing more. */
    method ReceivePacket() returns (ok: bool, p: Packet)
      requires Valid()
      modifies this
      ensures Valid() && sent == old(sent) && old(calls) <= calls && (old(broken) ==> broken)
      ensures !old(broken) && |old(received)| < |sent| ==>
                var end := PacketCalls(net, old(calls), sent[|old(received)|]);
                && (broken <==> !Smooth(net, old(calls), end)) && (broken <==> !Smooth(net, old(calls), calls))
                && (!broken ==> calls == end)
      ensures !broken ==> ok && received == old(received) + [p] && old(wire) == Frame(p) + wire
    {
      hide Frame, Frames, Word, WordOf, CallsFor;
      if !broken && |received| < |sent| { NextFrameIsThere(); }
      var r, bytes := ReceiveWrapper(1);
      var header: byte := *;
      if r == 1 { header := bytes[0]; }
      var s, size := ReceiveWrapper(4);
      if s != 1 {
        broken := true;
        return false, Packet(header, []);
      }
      if r == 1 { assert old(wire)[1..5] == size; }
      var t, payload := ReceiveWrapper(WordOf(size));
      p := Packet(header, payload);
      ok := t == 1;
      if r == 1 && ok {
        assert bytes == [header];
        OneMoreFrame(received, old(wire), sent, p, size, wire);
        received := received + [p];
      } else {
        broken := true;
      }
    }

    /** Framing: as long as no packet is cut, what has been received is the beginning of what has been sent, headers and
        payloads, and all of it once the wire is empty. */
    lemma PacketsArriveInOrder()
      requires Valid() && !broken
      ensures received <= sent
      ensures wire == [] ==> received == sent
    {
      FramesArePrefixes(received, wire, sent);
    }

    /** Packets sent one after the other. */
    method SendAll(packets: seq<Packet>)
      requires Valid() && Sendable(packets)
      modifies this
      ensures Valid() && received == old(received) && calls == AllCalls(net, old(calls), packets)
      ensures broken <==> old(broken) || !Smooth(net, old(calls), calls)
      ensures !broken ==> sent == old(sent) + packets && wire == old(wire) + Frames(packets)
    {
      hide PacketCalls, Frame;
      assert packets[..0] == [] && packets[0..] == packets;
      for i := 0 to |packets|
        invariant Valid() && received == old(received) && old(calls) <= calls
        invariant AllCalls(net, calls, packets[i..]) == AllCalls(net, old(calls), packets)
        invariant broken <==> old(broken) || !Smooth(net, old(calls), calls)
        invariant !broken ==> sent == old(sent) + packets[..i] && wire == old(wire) + Frames(packets[..i])
      {
        SendPacket(packets[i]);
        assert packets[i..][0] == packets[i] && packets[i..][1..] == packets[i + 1..];
        assert packets[..i + 1] == packets[..i] + [packets[i]];
        FramesConcat(packets[..i], [packets[i]]);
        assert Frames([packets[i]]) == Frame(packets[i]) + [] == Frame(packets[i]);
      }
      assert packets[..|packets|] == packets;
    }

    /** The next n packets that are to come. */
    ghost function Next(n: nat): seq<Packet>
      requires |received| + n <= |sent|
      reads this
    {
      sent[|received|..|received| + n]
    }

    /** n packets received one after the other: the next n that were sent. */
    method ReceiveAll(n: nat) returns (got: seq<Packet>)
      requires Valid()
      modifies this
      ensures Valid() && sent == old(sent) && (old(broken) ==> broken)
      ensures !old(broken) && |old(received)| + n <= |sent| ==>
                var end := AllCalls(net, old(calls), old(Next(n)));
                && (broken <==> !Smooth(net, old(calls), end))
                && (!broken ==> got == old(Next(n)) && received == old(received) + got && calls == end)
    {
      hide PacketCalls, AllCalls, Smooth, Frame, Frames, Valid, Sendable;
      got := [];
      ghost var whole := !broken && |received| + n <= |sent|;
      ghost var expected := if whole then Next(n) else [];
      assert whole ==> expected[0..] == expected;
      SmoothFromHere(net, calls);
      for i := 0 to n
        invariant Valid() && sent == old(sent) && old(calls) <= calls && (old(broken) ==> broken)
        invariant whole && !broken ==>
            Smooth(net, old(calls), calls) && received == old(received) + got && got == expected[..i]
        invariant whole && !broken ==> AllCalls(net, calls, expected[i..]) == AllCalls(net, old(calls), expected)
        invariant whole && broken ==> !Smooth(net, old(calls), AllCalls(net, old(calls), expected))
      {
        ghost var k, before := calls, got;
        if whole && !broken { assert sent[|received|] == expected[i]; }
        var ok, p := ReceivePacket();
        if ok { got := got + [p]; }
        if whole && !broken {
          assert received == old(received) + before + [p];
          PacketsArriveInOrder();
          assert p == received[|received| - 1] == sent[|received| - 1] == expected[i];
          assert got == expected[..i] + [p] == expected[..i + 1];
          assert received == old(received) + got;
        }
        if whole { OneMorePacket(net, old(calls), k, expected, i); }
      }
      if whole { AllCallsOfNone(net, calls, expected[n..]); }
    }
  }

  /** A whole conversation: any packets, through any partial sends and receives, arrive as they were sent exactly when
      none of the calls it takes fails. */
  method Converse(packets: seq<Packet>, net: Network) returns (got: seq<Packet>, whole: bool)
    requires Sendable(packets)
    ensures whole <==> Smooth(net, 0, AllCalls(net, AllCalls(net, 0, packets), packets))
    ensures whole ==> got == packets
  {
    hide AllCalls, Frames;
    var c := new Connection(net);
    c.SendAll(packets);
    assert !c.broken ==> c.Next(|packets|) == packets;
    SmoothJoins(net, 0, c.calls, AllCalls(net, c.calls, packets));
    got := c.ReceiveAll(|packets|);
    whole := !c.broken;
  }
}
