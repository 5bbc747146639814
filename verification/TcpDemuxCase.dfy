/** A reachable table in which a CLOSED block takes the segments of a connection in a later slot. */
module TcpDemuxCase {
  import opened Wrappers
  import opened Words
  import opened Inet
  import opened TcpPcb
  import opened TcpTable
  import opened TcpOps
  import opened TcpDemux

  const LOCAL := Endpoint(IpAddr(10, 0, 0, 1), 49152)
  const REMOTE := Endpoint(IpAddr(10, 0, 0, 2), 80)
  const LATE := RETRANS_DEADLINE

  // The block of slot 0: a socket, a connect whose SYN nobody answers, given up at the deadline, made a listener, and
  // given up once more because the old SYN is still queued.

  const P1 := EmptyPcb(0).(mode := Socket)
  const P2 := P1.(state := SynSent, local := LOCAL, remote := REMOTE, iss := 100, snd := SndVars(101, 100, 0, 0, 0),
                  rcv := RcvVars(0, 65535), queue := [QueueEntry(0, 0, DEFAULT_RTO, 100, SYN, [])])
  const P3 := P2.(state := Closed)
  const P4 := P3.(state := Listen, backlogMax := 5)
  const P5 := P4.(state := Closed)

  // The connection in slot 1, which came to the listener.

  const CALL := Segment(500, 0, SYN, 1000, [])
  const CHILD := EmptyPcb(1).(state := SynReceived, local := LOCAL, remote := REMOTE, iss := 300, irs := 500,
                              parent := Some(0), snd := SndVars(301, 300, 0, 0, 0), rcv := RcvVars(501, 65535),
                              queue := [QueueEntry(LATE, LATE, DEFAULT_RTO, 300, SYN_ACK, [])])

  /** The table and its notifications, whatever was sent. */
  predicate Shows(s: Sys, pcbs: Slots, gens: seq<nat>) {
    s.pcbs == pcbs && s.gens == gens
  }

  lemma Sockets(s: Sys)
    requires Shows(s, [], [])
    ensures Shows(Do(s, SocketOp), [Some(P1)], [0])
  {
  }

  lemma Connects(s: Sys)
    requires Shows(s, [Some(P1)], [0])
    ensures Shows(Do(s, ConnectOp(0, REMOTE, Some(LOCAL.addr), 100, true, 0)), [Some(P2)], [0])
  {
    assert SelectFrom(s.pcbs, 1, None, LOCAL, REMOTE) == None;
    assert Select(s.pcbs, LOCAL, REMOTE) == None;
    assert FreePort(s.pcbs, LOCAL.addr, REMOTE, DYNAMIC_PORT_MIN) == Some(49152);
    assert Source(s.pcbs, WILDCARD, REMOTE, Some(LOCAL.addr)) == Some(LOCAL);
    assert StartConnect(P1, LOCAL, REMOTE, 100, true, 0).pcb == P2;
  }

  /** Slot 0 expires, and slot 1, if there is one, has nothing to do. */
  lemma Expires(p: Pcb)
    requires p.queue == P2.queue && p.state != TimeWait
    ensures Tick(p, LATE) == Reaction(p.(state := Closed), {}, 1, false, false)
  {
    assert P2.queue[0] in P2.queue;
  }

  lemma GivesUp(s: Sys)
    requires Shows(s, [Some(P2)], [0])
    ensures Shows(Do(s, TimerOp(LATE)), [Some(P3)], [1])
  {
    Expires(P2);
    var t := Apply(s, 0, Tick(P2, LATE));
    assert TimerFrom(t, 1, LATE) == t;
    assert TimerFrom(s, 0, LATE) == t;
  }

  lemma Listens(s: Sys)
    requires Shows(s, [Some(P3)], [1])
    ensures Shows(Do(s, ListenOp(0, 5)), [Some(P4)], [1])
  {
  }

  lemma Calls(s: Sys)
    requires Shows(s, [Some(P4)], [1])
    ensures Shows(Do(s, DeliverOp(CALL, LOCAL, REMOTE, 300, LATE)), [Some(P4), Some(CHILD)], [1, 0])
  {
    assert SelectFrom(s.pcbs, 1, Some(0), LOCAL, REMOTE) == Some(0);
    assert Select(s.pcbs, LOCAL, REMOTE) == Some(0);
    assert FirstFree(s.pcbs, 1) == 1 && FirstFree(s.pcbs, 0) == 1;
    assert TakeSyn(EmptyPcb(1).(parent := Some(0)), CALL, LOCAL, REMOTE, 300, LATE) == CHILD;
  }

  lemma ChildRests()
    ensures Tick(CHILD, LATE) == Quiet(CHILD)
  {
    assert seq(1, i requires 0 <= i < 1 => Fire(CHILD.queue[i], LATE)) == CHILD.queue;
    assert forall e :: e in CHILD.queue ==> e == CHILD.queue[0];
  }

  lemma GivesUpAgain(s: Sys)
    requires Shows(s, [Some(P4), Some(CHILD)], [1, 0])
    ensures Shows(Do(s, TimerOp(LATE)), [Some(P5), Some(CHILD)], [2, 0])
  {
    Expires(P4);
    ChildRests();
    var t := Apply(s, 0, Tick(P4, LATE));
    var u := Apply(t, 1, Tick(CHILD, LATE));
    assert t.pcbs == [Some(P5), Some(CHILD)] && t.gens == [2, 0];
    assert u.pcbs == t.pcbs && u.gens == t.gens;
    assert TimerFrom(u, 2, LATE) == u;
    assert TimerFrom(t, 1, LATE) == u;
    assert TimerFrom(s, 0, LATE) == u;
  }

  /** One more operation of a run. */
  lemma Goes(t: seq<Sys>, ops: seq<Op>, op: Op) returns (u: seq<Sys>, ns: seq<Op>)
    requires IsStackRun(t, ops) && Sane(op)
    ensures IsStackRun(u, ns) && u[|ns|] == Do(t[|ops|], op)
  {
    u, ns := t + [Do(t[|ops|], op)], ops + [op];
  }

  lemma Runs() returns (t: seq<Sys>, ops: seq<Op>)
    ensures IsStackRun(t, ops) && Shows(t[|ops|], [Some(P5), Some(CHILD)], [2, 0])
  {
    t, ops := [Sys([], [], {})], [];
    Sockets(t[|ops|]);
    t, ops := Goes(t, ops, SocketOp);
    Connects(t[|ops|]);
    t, ops := Goes(t, ops, ConnectOp(0, REMOTE, Some(LOCAL.addr), 100, true, 0));
    GivesUp(t[|ops|]);
    t, ops := Goes(t, ops, TimerOp(LATE));
    Listens(t[|ops|]);
    t, ops := Goes(t, ops, ListenOp(0, 5));
    Calls(t[|ops|]);
    t, ops := Goes(t, ops, DeliverOp(CALL, LOCAL, REMOTE, 300, LATE));
    GivesUpAgain(t[|ops|]);
    t, ops := Goes(t, ops, TimerOp(LATE));
  }

  /** In this table slot 1 holds an active connection, and every segment for it selects the CLOSED block in slot 0:
      the ACK that would complete its handshake is answered with a reset and changes nothing. */
  lemma ClosedBlockTakesSegment() returns (t: seq<Sys>, ops: seq<Op>)
    ensures IsStackRun(t, ops)
    ensures
      var s := t[|ops|];
      && Live(s.pcbs, 1) && Active(s.pcbs[1].value)
      && s.pcbs[1].value.local == LOCAL && s.pcbs[1].value.remote == REMOTE
      && Live(s.pcbs, 0) && s.pcbs[0].value.state == Closed && Select(s.pcbs, LOCAL, REMOTE) == Some(0)
      && var d := Deliver(s, Segment(501, 301, ACK, 1000, []), LOCAL, REMOTE, 0, LATE);
         d.pcbs == s.pcbs && Reset(301, LOCAL, REMOTE) in d.wire
  {
    t, ops := Runs();
    var s := t[|ops|];
    assert Select(s.pcbs, LOCAL, REMOTE) == Some(0);
  }
}
